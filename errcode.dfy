/** The error codes of the reader and the file loader, and their 16-bit
    encoding. */
module ErrCodes {

  newtype u16 = x: int | 0 <= x < 0x1_0000

  datatype Result<+T, +E> = Ok(value: T) | Err(error: E)

  /** `SlErrCode`, a `repr(u16)` enumeration numbered from zero. */
  datatype SlErrCode =
    | ErrorUnknown
    | ParseUnexpectedEnd
    | ParseBadSpecial
    | ParseInvalidChar
    | ParseInvalidString
    | ParseInvalidNum
    | FileCouldNotRead

  /** `err as u16`: the discriminant. */
  function Code(e: SlErrCode): (r: u16)
    ensures r < 7
  {
    match e
    case ErrorUnknown => 0
    case ParseUnexpectedEnd => 1
    case ParseBadSpecial => 2
    case ParseInvalidChar => 3
    case ParseInvalidString => 4
    case ParseInvalidNum => 5
    case FileCouldNotRead => 6
  }

  /** `SlErrCode::try_from(v)`: the code whose discriminant is `v`, if any. */
  function TryFrom(v: u16): (r: Result<SlErrCode, ()>)
    ensures r.Ok? <==> v < 7
    ensures r.Ok? ==> Code(r.value) == v
  {
    if v == Code(ErrorUnknown) then Ok(ErrorUnknown)
    else if v == Code(ParseUnexpectedEnd) then Ok(ParseUnexpectedEnd)
    else if v == Code(ParseBadSpecial) then Ok(ParseBadSpecial)
    else if v == Code(ParseInvalidChar) then Ok(ParseInvalidChar)
    else if v == Code(ParseInvalidString) then Ok(ParseInvalidString)
    else if v == Code(ParseInvalidNum) then Ok(ParseInvalidNum)
    else if v == Code(FileCouldNotRead) then Ok(FileCouldNotRead)
    else Err(())
  }

  /** Decoding the encoding of a code gives the code back. */
  lemma TryFromCode(e: SlErrCode)
    ensures TryFrom(Code(e)) == Ok(e)
  {
  }

  /** Distinct codes have distinct encodings. */
  lemma CodeInjective(e1: SlErrCode, e2: SlErrCode)
    ensures Code(e1) == Code(e2) ==> e1 == e2
  {
    TryFromCode(e1);
    TryFromCode(e2);
  }

  /** The `{:?}` (derived `Debug`) text of a code: its variant name. */
  function DebugName(e: SlErrCode): (r: string)
    ensures |r| > 0
  {
    match e
    case ErrorUnknown => "ErrorUnknown"
    case ParseUnexpectedEnd => "ParseUnexpectedEnd"
    case ParseBadSpecial => "ParseBadSpecial"
    case ParseInvalidChar => "ParseInvalidChar"
    case ParseInvalidString => "ParseInvalidString"
    case ParseInvalidNum => "ParseInvalidNum"
    case FileCouldNotRead => "FileCouldNotRead"
  }
}

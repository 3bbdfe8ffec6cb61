/** What the recursive-descent reader computes, as functions of the input
    bytes, a position in them and the symbol table. Each reader gives an
    error code, or the value read, the position after it and the table
    after interning its symbols. The accumulator of the imperative reader
    is empty whenever a form starts, so it does not appear here; a token
    that starts with a sign carries the sign as a prefix instead. */
module ReaderSpec {
  import opened Bytes
  import opened Symbols
  import opened ErrCodes
  import opened Numbers
  import opened Values

  datatype Read<+T> = Fail(err: SlErrCode) | Done(val: T, pos: nat, names: seq<seq<byte>>)

  // ---------------------------------------------------------------------
  // Byte classes

  /** A token ends before one of these, or at the end of the input. */
  predicate IsDelimiter(c: byte) {
    c == ')' as byte || c == ']' as byte || c == '}' as byte || IsWhitespace(c)
  }

  /** The bytes of a plain symbol. */
  predicate IsSymbolByte(c: byte) {
    || c == '!' as byte || c == '*' as byte || c == '+' as byte || c == '-' as byte
    || c == '/' as byte || c == '<' as byte || c == '=' as byte || c == '>' as byte
    || c == '?' as byte || c == '_' as byte || IsAlnum(c)
  }

  /** The bytes of a keyword, module or type symbol after its sigil. */
  predicate IsSigilByte(c: byte) {
    c == '-' as byte || c == '_' as byte || IsAlnum(c)
  }

  /** The bytes of a number token. */
  predicate IsNumberByte(c: byte) {
    c == '+' as byte || c == '-' as byte || c == '_' as byte || c == '.' as byte || IsAlnum(c)
  }

  /** The bytes of a `#` token. */
  predicate IsSpecialByte(c: byte) {
    c == '_' as byte || IsAlnum(c)
  }

  /** The bytes that begin a plain symbol without a sign. */
  predicate StartsSymbol(c: byte) {
    || c == '*' as byte || c == '/' as byte || c == '<' as byte || c == '=' as byte
    || c == '>' as byte || c == '_' as byte || IsAlpha(c)
  }

  /** The four token readers, `read_symbol`, `read_spec_sym`,
      `read_number` and `read_special`, told apart by their byte class and
      by what they make of the token. */
  datatype TokenKind = SymbolKind | SigilKind(mode: SymbolMode) | NumberKind | SpecialKind

  predicate InKind(c: byte, k: TokenKind) {
    match k
    case SymbolKind => IsSymbolByte(c)
    case SigilKind(_) => IsSigilByte(c)
    case NumberKind => IsNumberByte(c)
    case SpecialKind => IsSpecialByte(c)
  }

  predicate AllIn(t: seq<byte>, k: TokenKind) {
    forall i :: 0 <= i < |t| ==> InKind(t[i], k)
  }

  // ---------------------------------------------------------------------
  // Scanning

  /** The first position at or after `p` holding `b`, or the end. */
  function FindByte(s: seq<byte>, p: nat, b: byte): (q: nat)
    requires p <= |s|
    ensures p <= q <= |s|
    ensures forall i :: p <= i < q ==> s[i] != b
    ensures q < |s| ==> s[q] == b
    decreases |s| - p
  {
    if p < |s| && s[p] != b then FindByte(s, p + 1, b) else p
  }

  /** Where the token starting at `p` ends. */
  function TokenEnd(s: seq<byte>, p: nat): (q: nat)
    requires p <= |s|
    ensures p <= q <= |s|
    ensures forall i :: p <= i < q ==> !IsDelimiter(s[i])
    ensures q < |s| ==> IsDelimiter(s[q])
    decreases |s| - p
  {
    if p < |s| && !IsDelimiter(s[p]) then TokenEnd(s, p + 1) else p
  }

  /** The loop at the head of `read_value`: skip whitespace and `;`
      comments, each of which must end in a line feed, and stop at the
      first byte of a form. Running out of input is an unexpected end. */
  function SkipBlank(s: seq<byte>, p: nat): (r: Result<nat, SlErrCode>)
    requires p <= |s|
    ensures r.Ok? ==> p <= r.value < |s| && !IsWhitespace(s[r.value]) && s[r.value] != ';' as byte
    ensures r.Err? ==> r.error == ParseUnexpectedEnd
    decreases |s| - p
  {
    if p == |s| then Err(ParseUnexpectedEnd)
    else if IsWhitespace(s[p]) then SkipBlank(s, p + 1)
    else if s[p] == ';' as byte then
      var q := FindByte(s, p, '\n' as byte);
      if q == |s| then Err(ParseUnexpectedEnd) else SkipBlank(s, q + 1)
    else Ok(p)
  }

  // ---------------------------------------------------------------------
  // Bookkeeping shared by the readers

  /** Every id the table can hand out from position `p` on fits in the 30
      index bits: each interned name consumes at least one input byte. */
  predicate Fits(names: seq<seq<byte>>, s: seq<byte>, p: nat) {
    p <= |s| && |names| + (|s| - p) <= NAME_SPAN
  }

  /** A successful form reader consumed input, only appended to the
      table, at most one name per byte consumed, and kept it free of
      repeats. */
  predicate Advances<T>(r: Read<T>, s: seq<byte>, p: nat, names: seq<seq<byte>>) {
    r.Done? ==>
      && p < r.pos <= |s| && names <= r.names
      && |r.names| + (|s| - r.pos) <= |names| + (|s| - p)
      && (Distinct(names) ==> Distinct(r.names))
  }

  /** A successful token reader stopped at the token's end and interned
      at most its one name. */
  predicate TokenRead(r: Read<Value>, s: seq<byte>, p: nat, names: seq<seq<byte>>)
    requires p <= |s|
  {
    r.Done? ==>
      && r.pos == TokenEnd(s, p) && names <= r.names && |r.names| <= |names| + 1
      && (Distinct(names) ==> Distinct(r.names))
  }

  function MapRead<T>(r: Read<T>, f: T -> Value): (m: Read<Value>)
    ensures m.Fail? <==> r.Fail?
    ensures r.Fail? ==> m.err == r.err
    ensures r.Done? ==> m == Done(f(r.val), r.pos, r.names)
  {
    match r
    case Fail(e) => Fail(e)
    case Done(x, q, n) => Done(f(x), q, n)
  }

  // ---------------------------------------------------------------------
  // Token readers

  /** The loop the four token readers share: up to a delimiter or the end
      of the input, push each byte of the reader's class onto the
      accumulator, and fail on any other byte. Gives the accumulated
      text and where the token ended. */
  function Scan(s: seq<byte>, p: nat, k: TokenKind, acc: seq<byte>): (r: Result<(seq<byte>, nat), SlErrCode>)
    requires p <= |s|
    ensures r.Ok? ==> r.value == (acc + s[p..TokenEnd(s, p)], TokenEnd(s, p))
    ensures r.Ok? <==> AllIn(s[p..TokenEnd(s, p)], k)
    ensures r.Err? ==> r.error == ParseInvalidChar
    decreases |s| - p
  {
    if p < |s| && !IsDelimiter(s[p]) then
      var q := TokenEnd(s, p);
      assert s[p..q] == [s[p]] + s[p + 1..q];
      if InKind(s[p], k) then
        assert acc + [s[p]] + s[p + 1..q] == acc + s[p..q];
        Scan(s, p + 1, k, acc + [s[p]])
      else Err(ParseInvalidChar)
    else
      assert acc + s[p..p] == acc;
      Ok((acc, p))
  }

  /** A token reader: the loop, then what the reader makes of the text. */
  function ReadToken(s: seq<byte>, p: nat, k: TokenKind, acc: seq<byte>, names: seq<seq<byte>>): (r: Read<Value>)
    requires p <= |s| && |names| < NAME_SPAN
    ensures TokenRead(r, s, p, names)
  {
    match Scan(s, p, k, acc)
    case Err(e) => Fail(e)
    case Ok((t, q)) => Finish(k, t, q, names)
  }

  /** What each token reader makes of its accumulated token `t`, which
      ended at `q`: a plain symbol interned with its sign prefix, a
      tagged symbol interned bare (it must not be empty), a number, or
      `#t`/`#f` in either case. */
  function Finish(k: TokenKind, t: seq<byte>, q: nat, names: seq<seq<byte>>): (r: Read<Value>)
    requires |names| < NAME_SPAN
    ensures r.Done? ==> r.pos == q && names <= r.names && |r.names| <= |names| + 1
    ensures r.Done? && Distinct(names) ==> Distinct(r.names)
  {
    match k
    case SymbolKind =>
      var (id, names') := Intern(names, t);
      Done(Sym(id as u32), q, names')
    case SigilKind(m) =>
      if t == [] then Fail(ParseUnexpectedEnd)
      else
        var (id, names') := Intern(names, t);
        Done(Sym(Modeize(id as u32, m)), q, names')
    case NumberKind =>
      (match ProcessNum(t)
       case Ok(v) => Done(v, q, names)
       case Err(e) => Fail(e))
    case SpecialKind =>
      if t == [] then Fail(ParseUnexpectedEnd)
      else if EqIgnoreCase(t[0], 't') && |t| == 1 then Done(Bool(true), q, names)
      else if EqIgnoreCase(t[0], 'f') && |t| == 1 then Done(Bool(false), q, names)
      else Fail(ParseBadSpecial)
  }

  /** `process_num`: an `i64` if the text is one, else an `f64` if it is
      a float literal, else an invalid number. */
  function ProcessNum(t: seq<byte>): (r: Result<Value, SlErrCode>)
    ensures r.Ok? <==> ParseI64(t).Some? || F64Syntax(t)
    ensures ParseI64(t).Some? ==> r == Ok(I64(ParseI64(t).value))
    ensures ParseI64(t).None? && F64Syntax(t) ==> r == Ok(F64(t))
    ensures r.Err? ==> r.error == ParseInvalidNum
  {
    match ParseI64(t)
    case Some(n) => Ok(I64(n))
    case None => if F64Syntax(t) then Ok(F64(t)) else Err(ParseInvalidNum)
  }

  /** `read_string`: every byte up to the closing quote, with no escapes;
      the bytes must be well-formed UTF-8. */
  function ReadString(s: seq<byte>, p: nat, names: seq<seq<byte>>): (r: Read<Value>)
    requires p <= |s|
    ensures r.Done? ==> p < r.pos <= |s| && r.names == names
  {
    var q := FindByte(s, p, '"' as byte);
    if q == |s| then Fail(ParseUnexpectedEnd)
    else if ValidUtf8(s[p..q]) then Done(Str(s[p..q]), q + 1, names)
    else Fail(ParseInvalidString)
  }

  // ---------------------------------------------------------------------
  // Form readers

  /** The arms of the `match` in `read_value`, by the first byte of a form. */
  datatype Lead =
    | QuoteLead | ListLead | VecLead | MapLead | SigilLead(mode: SymbolMode)
    | StringLead | SpecialLead | SignLead | SymbolLead | DigitLead | NoLead

  function LeadOf(c: byte): (l: Lead)
    ensures l.SigilLead? ==> l.mode != Basic
    ensures l == SignLead <==> IsSign(c)
    ensures l == SymbolLead <==> StartsSymbol(c)
    ensures l == DigitLead <==> IsDigit(c)
  {
    if c == '\'' as byte then QuoteLead
    else if c == '(' as byte then ListLead
    else if c == '[' as byte then VecLead
    else if c == '{' as byte then MapLead
    else if c == ':' as byte then SigilLead(Keyword)
    else if c == '$' as byte then SigilLead(Type)
    else if c == '@' as byte then SigilLead(Module)
    else if c == '"' as byte then StringLead
    else if c == '#' as byte then SpecialLead
    else if IsSign(c) then SignLead
    else if StartsSymbol(c) then SymbolLead
    else if IsDigit(c) then DigitLead
    else NoLead
  }

  /** The leads that pick one of the token readers. */
  predicate IsTokenLead(l: Lead) {
    l.SigilLead? || l == SpecialLead || l == SignLead || l == SymbolLead || l == DigitLead
  }

  /** The token reader a lead picks: where it starts, its token class and
      what it has accumulated so far. A sigil or `#` is consumed first; a
      sign is pushed onto the token, and the byte after it picks the
      number or the symbol reader. */
  function TokenArm(s: seq<byte>, q: nat): (r: (nat, TokenKind, seq<byte>))
    requires q < |s| && IsTokenLead(LeadOf(s[q]))
    requires LeadOf(s[q]) == SignLead ==> q + 1 < |s|
    ensures q <= r.0 <= q + 1 && r.0 <= |s|
  {
    var l := LeadOf(s[q]);
    if l.SigilLead? then (q + 1, SigilKind(l.mode), [])
    else if l == SpecialLead then (q + 1, SpecialKind, [])
    else if l == SignLead then (q + 1, if IsDigit(s[q + 1]) then NumberKind else SymbolKind, [s[q]])
    else if l == SymbolLead then (q, SymbolKind, [])
    else (q, NumberKind, [])
  }

  /** `read_value`: skip blanks and comments, then read the form there. */
  function ReadValue(s: seq<byte>, p: nat, names: seq<seq<byte>>): (r: Read<Value>)
    requires Fits(names, s, p)
    ensures Advances(r, s, p, names)
    decreases |s| - p, 1
  {
    match SkipBlank(s, p)
    case Err(e) => Fail(e)
    case Ok(q) => ReadForm(s, q, names)
  }

  /** The `match` of `read_value`: the first byte of a form picks its
      reader. */
  function ReadForm(s: seq<byte>, q: nat, names: seq<seq<byte>>): (r: Read<Value>)
    requires Fits(names, s, q) && q < |s|
    ensures Advances(r, s, q, names)
    decreases |s| - q, 0
  {
    match LeadOf(s[q])
    case QuoteLead => ReadQuote(s, q + 1, names)
    case ListLead => MapRead(ReadItems(s, q + 1, names, ')' as byte), xs => List(xs))
    case VecLead => MapRead(ReadItems(s, q + 1, names, ']' as byte), xs => StdVec(xs))
    case MapLead => MapRead(ReadPairs(s, q + 1, names), ps => HashMap(ps))
    case StringLead => ReadString(s, q + 1, names)
    case NoLead => Fail(ParseInvalidChar)
    case _ =>
      if LeadOf(s[q]) == SignLead && q + 1 == |s| then Fail(ParseUnexpectedEnd)
      else
        var (start, k, acc) := TokenArm(s, q);
        ReadToken(s, start, k, acc, names)
  }

  /** `read_quote`: `'x` is the list `(quote x)`. */
  function ReadQuote(s: seq<byte>, p: nat, names: seq<seq<byte>>): (r: Read<Value>)
    requires Fits(names, s, p)
    ensures Advances(r, s, p, names)
    decreases |s| - p, 2
  {
    match ReadValue(s, p, names)
    case Fail(e) => Fail(e)
    case Done(x, q, n) => Done(List([Sym(SP_QUOTE.0), x]), q, n)
  }

  /** The loop of `read_list` and `read_vec`: the forms up to `close`,
      skipping whitespace and comments; a comment runs to the end of its
      line or of the input. */
  function ReadItems(s: seq<byte>, p: nat, names: seq<seq<byte>>, close: byte): (r: Read<seq<Value>>)
    requires Fits(names, s, p)
    ensures Advances(r, s, p, names)
    decreases |s| - p, 2
  {
    if p == |s| then Fail(ParseUnexpectedEnd)
    else if s[p] == close then Done([], p + 1, names)
    else if s[p] == ';' as byte then
      var q := FindByte(s, p, '\n' as byte);
      if q == |s| then Fail(ParseUnexpectedEnd) else ReadItems(s, q + 1, names, close)
    else if IsWhitespace(s[p]) then ReadItems(s, p + 1, names, close)
    else match ReadValue(s, p, names)
      case Fail(e) => Fail(e)
      case Done(x, q, n) =>
        match ReadItems(s, q, n, close)
        case Fail(e) => Fail(e)
        case Done(xs, q', n') => Done([x] + xs, q', n')
  }

  /** The loop of `read_map`: a key form, then its value form, until
      `}`. */
  function ReadPairs(s: seq<byte>, p: nat, names: seq<seq<byte>>): (r: Read<seq<(Value, Value)>>)
    requires Fits(names, s, p)
    ensures Advances(r, s, p, names)
    decreases |s| - p, 2
  {
    if p == |s| then Fail(ParseUnexpectedEnd)
    else if s[p] == '}' as byte then Done([], p + 1, names)
    else if s[p] == ';' as byte then
      var q := FindByte(s, p, '\n' as byte);
      if q == |s| then Fail(ParseUnexpectedEnd) else ReadPairs(s, q + 1, names)
    else if IsWhitespace(s[p]) then ReadPairs(s, p + 1, names)
    else match ReadValue(s, p, names)
      case Fail(e) => Fail(e)
      case Done(k, q, n) =>
        match ReadValue(s, q, n)
        case Fail(e) => Fail(e)
        case Done(v, q', n') =>
          match ReadPairs(s, q', n')
          case Fail(e) => Fail(e)
          case Done(ps, q'', n'') => Done([(k, v)] + ps, q'', n'')
  }

  /** `"(do "`, the head of a file's implicit block. */
  const DO_OPEN: seq<byte> := ['(' as byte, 'd' as byte, 'o' as byte, ' ' as byte]

  /** The text `parse` reads: a file is wrapped into one `(do ...)` form. */
  function Source(code: seq<byte>, file: bool): (s: seq<byte>)
    ensures |s| == if file then |code| + 5 else |code|
  {
    if file then DO_OPEN + code + [')' as byte] else code
  }

  /** `parse`: one form from the start of the text; what follows it is
      not looked at. */
  function Parse(code: seq<byte>, file: bool, names: seq<seq<byte>>): (r: Read<Value>)
    requires Fits(names, Source(code, file), 0)
  {
    ReadValue(Source(code, file), 0, names)
  }
}

# Sail reader and object model, in Dafny

This project models the core of Sail, the small Lisp inside the stark
engine. It covers four parts:

- **Symbol ids.** A symbol id is a `u32` that packs a 30-bit name index
  with a 2-bit mode (plain, keyword `:`, module `@`, type `$`).
- **Built-ins and error codes.** Every run interns the same built-in
  symbols first. `SlErrCode` values are stored as `u16`.
- **The value header.** The header has two optional 32-bit type slots
  (self type and predicate type), whose offsets depend on two escape
  flags. Error-code values and the packed `f32` vectors of the
  `vec-f32-*` natives are stored as fields after the header.
- **The reader and the printer.** The reader is a recursive-descent
  parser that turns bytes into values and interns symbol text into a
  symbol table. The printer (`Display`) renders a value back to text.

Modules, one per file:

- `Bytes`: byte classes and UTF-8 well-formedness.
- `Symbols`, `ErrCodes`: id packing, the built-in table, error codes.
- `Numbers`: the `i64` and `f64` literal syntaxes, and decimal printing.
- `Values`: the value tree and the symbol table, including the `SymTab`
  class with `get_id`.
- `Cells`: header type slots, error-code cells and `f32` vectors. The
  class `Cell` owns a byte array that methods update in place.
- `Printer`: `Show`, the `Display` implementation as a recursive function.
- `ReaderSpec`: the reader's grammar as total functions over
  `(bytes, position, table)`, returning `Done(value, position', table')` or
  `Fail(code)`.
- `Parser`: the reader as a class. It holds the input, a cursor, the shared
  accumulator and the table. Each `read_*` method is proved to compute what
  the `ReaderSpec` function named in its `ensures` gives, and to leave the
  accumulator empty after a success. `ReadValue`, `ReadForm` and
  `ReadQuote` match functions of the same name. `ReadList` and `ReadVec`
  match `ReadItems`, and `ReadMap` matches `ReadPairs`. The four token
  readers match `ReadToken` with their token class, `ReadStr` matches
  `ReadString`, `ScanToken` matches `Scan`, and `SkipBlanks` matches
  `SkipBlank`.
- `Literal`, `RoundTrip`: which values print as text that reads back as
  the same value, and the proof that reading printed text gives the
  value back.
- `Lexical`: what the reader does with any input. It states which bytes
  the skip loop passes over, and what each kind of token reads as,
  including a symbol the table does not hold yet.
- `Examples`: the three round trips from the source's `parses` test,
  plus one example for each error case of the reader.

## Model

| member | source | states |
|---|---|---|
| Symbols.ModeBits | src/sail/mod.rs:183-185 | a mode's discriminant is one of 0..3 |
| Symbols.ModeFromBits | src/sail/mod.rs:193-195 | each of the four discriminants decodes to the mode with that discriminant |
| Symbols.Modeize | src/sail/mod.rs:183-185 | the packed id keeps the low 30 bits of the index and carries the given mode |
| Symbols.Demodes | src/sail/mod.rs:188-190 | the result is below 2^30 and differs from the id by exactly its mode bits times 2^30 |
| Symbols.ModeizeRoundTrip | src/sail/mod.rs:183-195 | for every index below 2^30, `demodes_sym` and `mode_of_sym` give back the packed index and mode |
| Symbols.ModeizeReplaces | src/sail/mod.rs:183-185 | re-modeizing keeps the index and replaces the old mode |
| Symbols.ModeizeDecomposes | src/sail/mod.rs:183-195 | every `u32` is the packing of its own index and mode |
| Symbols.DemodesIgnoresMode | src/sail/mod.rs:188-190 | `demodes_sym` is idempotent, and ids that differ only in mode give the same index |
| Symbols.ModeizeInjective | src/sail/mod.rs:183-185 | packing is injective on indices below 2^30 |
| Symbols.BuiltinTable | src/sail/mod.rs:113-180 | each of the 55 built-ins is `modeize_sym(k, mode)` with `SYM_ARRAY[k]` as its text; `T_*` are Type ids 0..30, `SP_*`/`S_*` Basic, `K_*` Keyword |
| ErrCodes.Code | src/sail/mod.rs:49-57 | the seven codes are numbered below 7 |
| ErrCodes.TryFrom | src/sail/mod.rs:59-76 | decoding succeeds exactly for values below 7, and then gives the code with that number |
| ErrCodes.TryFromCode | src/sail/mod.rs:59-76 | `try_from(e as u16) == Ok(e)` for every code |
| ErrCodes.CodeInjective | src/sail/mod.rs:49-57 | distinct codes have distinct numbers |
| ErrCodes.DebugName | src/sail/mod.rs:362 | the `{:?}` name the printer shows is never empty |
| Values.IndexOf | src/sail/parser.rs:315 | the first position holding the text, or the table length when the text is absent |
| Values.Intern | src/sail/parser.rs:315 | the assumed `get_id`: it returns the index of a known text with the table unchanged, or appends a new text at the end; the table stays free of repeats |
| Values.InternKnown | src/sail/parser.rs:352 | in a table without repeats, the id of each text is its position |
| Values.SymTab.constructor | src/sail/parser.rs:36 | the table starts with the given names |
| Values.SymTab.GetId | src/sail/parser.rs:315 | the lookup loop computes `Intern` on the old table |
| Cells.BuiltinTypeId | src/sail/mod.rs:199-231 | each built-in tag's fixed type is a Type-mode id among the 31 built-in types |
| Cells.WriteU16 | src/sail/mod.rs:97-100 | a 16-bit store changes its two bytes only, and reads back as the stored value |
| Cells.WriteU32 | src/sail/mod.rs:283-300 | a 32-bit store keeps the length and reads back as the stored value |
| Cells.ReadAfterOtherWrite | src/sail/mod.rs:283-300 | a 32-bit store leaves every disjoint 32-bit field unchanged |
| Cells.WriteU32Twice | src/sail/mod.rs:283-300 | the second of two stores to one offset wins |
| Cells.WriteU32Commute | src/sail/mod.rs:283-300 | stores to disjoint offsets commute |
| Cells.WithSelfType | src/sail/mod.rs:283-286 | `set_self_type` requires the self flag, and keeps the tag, flags and size |
| Cells.WithPredType | src/sail/mod.rs:288-300 | `set_pred_type` requires the pred flag, and keeps the tag, flags and size |
| Cells.SelfType | src/sail/mod.rs:199-231 | `get_self_type`. It has no contract of its own; SelfTypeSetGet, BuiltinSelfTypeFixed, PredTypeSetGet and TypeSlotsIndependent state how it reads back what the setters store |
| Cells.PredType | src/sail/mod.rs:233-248 | `get_pred_type`. It has no contract of its own; PredTypeSetGet, SelfTypeSetGet and TypeSlotsIndependent state how it reads back what `set_pred_type` stores |
| Cells.SelfTypeSetGet | src/sail/mod.rs:199-231 | on an extended tag, `get_self_type` after `set_self_type(t)` gives `t`, and the predicate type is unchanged |
| Cells.BuiltinSelfTypeFixed | src/sail/mod.rs:199-231 | a built-in tag reports its fixed type whatever the slot holds |
| Cells.PredTypeSetGet | src/sail/mod.rs:233-248 | on every non-nil value with a predicate-type slot, `get_pred_type` after `set_pred_type(t)` gives `t`; this includes an extended value with no self-type slot, whose predicate type sits at the header's end. The self type is unchanged wherever it is defined |
| Cells.TypeSlotsIndependent | src/sail/mod.rs:283-300 | writes to the two slots commute, and a second write to a slot overrides the first |
| Cells.ErrcodeGet | src/sail/mod.rs:103-106 | the decoded code is the one whose number is stored in the payload |
| Cells.WithErrcode | src/sail/mod.rs:97-100 | after `errcode_set(e)`, `errcode_get` gives `e` |
| Cells.Words | src/sail/mod.rs:670-727 | the payload read as `n` words |
| Cells.WordsStore | src/sail/mod.rs:680-727 | a 32-bit store at word `k` replaces exactly word `k` of the payload |
| Cells.PayloadWords | src/sail/mod.rs:670-727 | the payload is split into whole words, with at most three bytes left over |
| Cells.StoreWord | src/sail/mod.rs:680-727 | storing a word changes exactly that word of the payload and keeps the header |
| Cells.F32Elems | src/sail/mod.rs:696-709 | an `f32` vector holds exactly `len` elements |
| Cells.TruncU32 | src/sail/mod.rs:702 | the `as u32` cast of an index lands in `u32` and keeps indices already in range |
| Cells.F32Fields | src/sail/mod.rs:685-686 | capacity and length are the words at byte offsets 4 and 8 |
| Cells.F32Push | src/sail/mod.rs:680-694 | the `vec-f32-push` body on the header view. It has no contract of its own: F32PushWrites, F32PushLaw and F32PushGet state its effect, and Cell.VecF32Push is proved to compute it in place |
| Cells.F32Get | src/sail/mod.rs:696-709 | the `vec-f32-get` body. It has no contract of its own: F32PushGet and F32SetGet state what it returns, and Cell.VecF32Get is proved to compute it |
| Cells.F32Set | src/sail/mod.rs:711-727 | the `vec-f32-set` body. It has no contract of its own: F32SetLaw and F32SetGet state its effect, and Cell.VecF32Set is proved to compute it in place |
| Cells.F32PushWrites | src/sail/mod.rs:688-691 | a push with room is the length store followed by the slot store at `12 + 4*len` |
| Cells.F32PushLaw | src/sail/mod.rs:680-694 | with room, push appends exactly the value and raises the length by one; on a full vector it changes nothing; capacity is kept |
| Cells.F32SetLaw | src/sail/mod.rs:711-727 | set with `idx < len` replaces exactly element `idx` and keeps length and capacity |
| Cells.F32PushGet | src/sail/mod.rs:680-709 | `get(len)` after a push with room returns the pushed value |
| Cells.F32SetGet | src/sail/mod.rs:696-727 | get after set returns the new value at the index written and the old one elsewhere |
| Cells.Cell.constructor | src/sail/mod.rs:79-94 | a fresh allocation with the given tag, flags, header length and size |
| Cells.Cell.StoreU32 | src/sail/mod.rs:283-300 | the bytes become `WriteU32` of the old bytes |
| Cells.Cell.StoreU16 | src/sail/mod.rs:97-100 | the bytes become `WriteU16` of the old bytes |
| Cells.Cell.SetSelfType | src/sail/mod.rs:283-286 | the new header is `WithSelfType` of the old |
| Cells.Cell.SetPredType | src/sail/mod.rs:288-300 | the new header is `WithPredType` of the old |
| Cells.Cell.ErrcodeSet | src/sail/mod.rs:97-100 | the new header is `WithErrcode` of the old |
| Cells.Cell.ErrcodeInit | src/sail/mod.rs:88-94 | a fresh error-code cell from which `errcode_get` reads `e` |
| Cells.Cell.ErrcodeMake | src/sail/mod.rs:79-86 | a fresh error-code cell holding code 0, `ErrorUnknown` |
| Cells.Cell.VecF32Make | src/sail/mod.rs:670-678 | a fresh `f32` vector of type `$f32`, capacity 8 and no elements |
| Cells.Cell.WriteWord | src/sail/mod.rs:680-727 | the new header is `StoreWord` of the old |
| Cells.Cell.VecF32Push | src/sail/mod.rs:680-694 | the new header is `F32Push` of the old |
| Cells.Cell.VecF32Get | src/sail/mod.rs:696-709 | returns element `idx as u32`, which must be below the length |
| Cells.Cell.VecF32Set | src/sail/mod.rs:711-727 | the new header is `F32Set` of the old, with `idx as u32` below the length |
| Numbers.DigitValue | src/sail/parser.rs:450-458 | a decimal digit's value is below 10 |
| Numbers.ParseI64 | src/sail/parser.rs:450-458 | `i64` parsing accepts only an optional sign followed by digits, and only values in `i64` range |
| Numbers.ParseI64Accepts | src/sail/parser.rs:450-458 | every optional sign followed by one or more digits is accepted exactly when its value is in `i64` range, and denotes that value, negated after `-` (so `+5`, `007` and `-0` are `i64` text) |
| Numbers.DigitRun | src/sail/parser.rs:450-458 | the end of the run of digits at `i` |
| Numbers.DigitsAreFloat | src/sail/parser.rs:450-458 | every run of digits is `f64` syntax |
| Numbers.DecimalText | src/sail/mod.rs:359 | an `i64` prints as digits with an optional leading `-` |
| Numbers.DigitsValueOfDigits | src/sail/mod.rs:359 | the printed digits of `n` denote `n` |
| Numbers.ParseDecimal | src/sail/mod.rs:359 | parsing the printed text of an `i64` gives it back |
| Numbers.OutOfRangeDigits | src/sail/parser.rs:450-458 | digits beyond `i64` range are not an `i64` literal |
| Bytes.ValidUtf8 | src/sail/parser.rs:373-376 | what `from_utf8` accepts: the bytes split into whole UTF-8 sequences as CharLen measures them. A string body that does not satisfy it makes ReaderSpec.ReadString fail with `ParseInvalidString` (Examples.InvalidString shows one), and RoundTrip.ReadStringAt reads back every quote-free body that satisfies it |
| Bytes.CharLen | src/sail/parser.rs:373-376 | the length of one UTF-8 sequence: 1 exactly for ASCII, then continuation bytes only |
| Printer.Sigil | src/sail/mod.rs:363-391 | a mode prints as at most one sigil byte |
| Printer.ShowSymbol | src/sail/mod.rs:363-391 | a symbol prints as its mode's sigil (none, `:`, `@`, `$`) followed by its interned text |
| Printer.Show | src/sail/mod.rs:349-449 | `Display for SlContextVal`, arm by arm. It has no contract of its own: RoundTrip.ReadShown and ParseShown prove that its text reads back as the value, Literal.FirstByte that the text is non-empty and starts a form, and ShowSymbol gives the symbol arm |
| Printer.ShowItems | src/sail/mod.rs:392-415 | the list and vector arms: the elements' texts with one space between neighbours. It has no contract of its own; ShowItemsAppend and RoundTrip.ReadShownItems state its layout and that it reads back |
| Printer.ShowPairs | src/sail/mod.rs:417-442 | the map arm: each entry's key and value, entries spaced like the elements of a list. It has no contract of its own; ShowPairsAsItems states its layout |
| Printer.ShowPairsAsItems | src/sail/mod.rs:417-442 | a map's text inside `{` `}` is the list text of its keys and values in entry order, so neither a leading nor a doubled space appears |
| Printer.ShowItemsAppend | src/sail/mod.rs:392-415 | two runs of elements print as their two texts joined by exactly one space |
| ReaderSpec.FindByte | src/sail/parser.rs:79-81 | the first position at or after `p` holding the byte, or the end of input |
| ReaderSpec.TokenEnd | src/sail/parser.rs:297-303 | a token runs up to the first `)`, `]`, `}`, whitespace or the end of input |
| ReaderSpec.SkipBlank | src/sail/parser.rs:76-85 | whitespace and `;` comments ending in a line feed are skipped up to a form's first byte; running out of input is `ParseUnexpectedEnd` |
| ReaderSpec.MapRead | src/sail/parser.rs:68-159 | a wrapped read fails exactly when the inner one does, with the same code |
| ReaderSpec.Scan | src/sail/parser.rs:291-318 | the token is the bytes up to its end; it succeeds exactly when all of them are in the token's class, otherwise `ParseInvalidChar` |
| ReaderSpec.ReadToken | src/sail/parser.rs:291-446 | a successful token read stops at the token's end and interns at most one name |
| ReaderSpec.Finish | src/sail/parser.rs:322-354 | a finished token keeps its end position and appends at most one name to the table, keeping it free of repeats |
| ReaderSpec.ProcessNum | src/sail/parser.rs:450-458 | an `i64` literal gives `I64` of its value, tried first; other `f64` syntax gives `F64` of the text; anything else fails with `ParseInvalidNum` |
| ReaderSpec.ReadString | src/sail/parser.rs:357-380 | a string read consumes input and leaves the table unchanged |
| ReaderSpec.LeadOf | src/sail/parser.rs:87-157 | a sign picks the sign arm, `*/<=>_` or a letter the symbol arm, a digit the number arm, and each sigil its non-plain mode |
| ReaderSpec.TokenArm | src/sail/parser.rs:104-153 | the token reader starts at the lead byte or at the byte after it |
| ReaderSpec.ReadValue | src/sail/parser.rs:68-159 | a successful read consumes input, only appends to the table, at most one name per byte consumed, and keeps it free of repeats |
| ReaderSpec.ReadForm | src/sail/parser.rs:87-157 | the same progress facts, for the form at the cursor |
| ReaderSpec.ReadQuote | src/sail/parser.rs:163-179 | the same progress facts, for the form after a `'` |
| ReaderSpec.ReadItems | src/sail/parser.rs:183-258 | the same progress facts, for the elements up to the closing bracket |
| ReaderSpec.ReadPairs | src/sail/parser.rs:262-287 | the same progress facts, for the key/value pairs up to `}` |
| ReaderSpec.Parse | src/sail/parser.rs:34-54 | `parse`: `read_value` at position 0 of the text, wrapped in `(do …)` in file mode. It has no contract of its own: RoundTrip.ParseShown and ParseFileShown state what it gives on printed text, Parser.Parse computes it, and the Examples lemmas state its results on the test inputs |
| ReaderSpec.Source | src/sail/parser.rs:43-47 | file mode wraps the code in `(do ` and `)` (five bytes more); otherwise the text is the code |
| Parser.ItemsStep | src/sail/parser.rs:183-230 | one element read, then the rest of the list |
| Parser.PairsStep | src/sail/parser.rs:262-287 | one key and one value read, then the rest of the map |
| Parser.SignForm | src/sail/parser.rs:129-141 | after a sign, a digit picks the number reader and anything else the symbol reader |
| Parser.Reader.constructor | src/sail/parser.rs:40-51 | a reader at position 0 with an empty accumulator |
| Parser.Reader.SkipBlanks | src/sail/parser.rs:76-85 | the skip loop stops where `SkipBlank` says, or fails with `ParseUnexpectedEnd` |
| Parser.Reader.SkipLine | src/sail/parser.rs:79-81 | the comment loop stops at the next line feed |
| Parser.Reader.ReadValue | src/sail/parser.rs:68-159 | `read_value` gives `ReaderSpec.ReadValue`'s result, position and table, and leaves the accumulator empty after a success |
| Parser.Reader.ReadForm | src/sail/parser.rs:87-157 | the dispatch gives `ReaderSpec.ReadForm`'s result, and leaves the accumulator empty after a success |
| Parser.Reader.ReadTokenForm | src/sail/parser.rs:104-153 | the token arms of the dispatch give `ReaderSpec.ReadForm`'s result, and clear the accumulator |
| Parser.Reader.ReadQuote | src/sail/parser.rs:163-179 | `read_quote` gives `(quote x)` as `ReaderSpec.ReadQuote` says |
| Parser.Reader.ReadList | src/sail/parser.rs:183-230 | `read_list` gives exactly the elements `ReadItems` gives for `)` |
| Parser.Reader.ReadVec | src/sail/parser.rs:237-258 | `read_vec` gives exactly the elements `ReadItems` gives for `]` |
| Parser.Reader.ReadMap | src/sail/parser.rs:262-287 | `read_map` gives exactly the pairs `ReadPairs` gives |
| Parser.Reader.ScanToken | src/sail/parser.rs:291-318 | the token loop accumulates what `Scan` gives, and stops where it says |
| Parser.Reader.ReadSymbol | src/sail/parser.rs:291-318 | `read_symbol` gives `ReadToken` for the symbol class |
| Parser.Reader.ReadSpecSym | src/sail/parser.rs:322-354 | `read_spec_sym` gives `ReadToken` for the sigil class of the mode |
| Parser.Reader.ReadNumber | src/sail/parser.rs:383-407 | `read_number` gives `ReadToken` for the number class |
| Parser.Reader.ReadSpecial | src/sail/parser.rs:411-446 | `read_special` gives `ReadToken` for the special class |
| Parser.Reader.ReadStr | src/sail/parser.rs:357-380 | `read_string` gives `ReaderSpec.ReadString` |
| Parser.Parse | src/sail/parser.rs:34-54 | `parse` gives `ReaderSpec.Parse`'s value or error, and leaves the table as it says |
| Lexical.SkipBlankSkips | src/sail/parser.rs:76-85 | the skip loop passes only whitespace, `;` and the bytes of a comment up to and including its line feed. It stops at the first other byte, outside every comment, and fails with `ParseUnexpectedEnd` exactly when everything left is blank |
| Lexical.ReadValueBlank | src/sail/parser.rs:76-85 | a whitespace byte in front of a form changes nothing that is read |
| Lexical.ReadValueComment | src/sail/parser.rs:76-85 | a comment in front of a form is skipped with its line feed; a comment with no line feed is `ParseUnexpectedEnd` |
| Lexical.ReadValueFirstForm | src/sail/parser.rs:68-85 | what is read is the form at the first byte that is no blank |
| Lexical.ReadValueBlankTail | src/sail/parser.rs:76-85 | input that is blank to its end holds no form: `ParseUnexpectedEnd` |
| Lexical.ReadTokenAt | src/sail/parser.rs:297-313 | a token reader consumes the token up to a delimiter or the end; a byte outside its class is `ParseInvalidChar`, otherwise the token's text alone decides the result |
| Lexical.ReadSymbolLead | src/sail/parser.rs:291-318 | at a symbol start the result is the symbol of `get_id(token)`, interning the token on first sight, or `ParseInvalidChar` |
| Lexical.ReadSigilLead | src/sail/parser.rs:322-354 | after `:`, `@` or `$` the result is `modeize_sym(get_id(token), mode)`; an empty token is `ParseUnexpectedEnd` and a bad byte `ParseInvalidChar` |
| Lexical.ReadSpecialLead | src/sail/parser.rs:411-446 | after `#`, a token `t` or `T` is true and `f` or `F` false. An empty token is `ParseUnexpectedEnd`, any other token `ParseBadSpecial`, a bad byte `ParseInvalidChar` |
| Lexical.ReadNumberLead | src/sail/parser.rs:383-407 | at a digit the token is the `i64` it denotes, else the `f64` literal it is, else `ParseInvalidNum`; a bad byte is `ParseInvalidChar` |
| Lexical.ReadSignLead | src/sail/parser.rs:129-141 | a sign as the last byte is `ParseUnexpectedEnd`; otherwise the token, sign included, is read as a number when a digit follows the sign and as a symbol when not |
| Lexical.ReadSymbolText | src/sail/parser.rs:291-354 | the text of a symbol of any mode reads as its id packed with the mode, whether or not the table holds it. The table grows by the text exactly when it was absent, and the symbol prints back as the same text with the grown table |
| Literal.ReadableIsPrintable | src/sail/mod.rs:349-449 | every value that reads back is printable |
| Literal.FirstByte | src/sail/mod.rs:349-449 | a readable value's text is non-empty and starts with a byte that begins a form |
| RoundTrip.ReadShown | src/sail/parser.rs:68-159 | reading the printed text of a readable value, wherever it sits and whatever follows it, gives the value back and stops right after it |
| RoundTrip.ParseShown | src/sail/parser.rs:34-54 | `parse` of the printed text of a readable value gives the value and keeps the table |
| RoundTrip.ParseFileShown | src/sail/parser.rs:43-47 | in file mode, printed forms read back as `(do ...)` around them |
| RoundTrip.FileLayout | src/sail/parser.rs:43-47 | the file wrap is the printed text of the `(do ...)` list |
| Examples.NestedListsRoundTrip | src/sail/mod.rs:786-789 | `(() (()) ((((() ())))))` parses to the nested lists and prints back as the same text |
| Examples.MixedRoundTrip | src/sail/mod.rs:781-784 | in a table that holds `+` but not `e`, `(+ (() 42 (e) #T) #F 2.1 e)` parses to its value. `e` is interned at the end of the table on first sight and found on the second, and the value prints back as the same text with the grown table |
| Examples.CommentSkipped | src/sail/mod.rs:791-795 | `((1 2 3 4) ;Comment\n5)` parses to two elements and prints as `((1 2 3 4) 5)` |
| Examples.TrailingIgnored | src/sail/parser.rs:34-54 | `1 )` parses as `1`, with the rest not read |
| Examples.Booleans | src/sail/parser.rs:411-446 | `#T` is true and `#f` is false |
| Examples.Specials | src/sail/parser.rs:411-446 | a bare `#` is an unexpected end; `#Q` and `#TT` are `ParseBadSpecial` |
| Examples.SignedAndPadded | src/sail/parser.rs:450-458 | `+5`, `007` and `-0` parse to the `i64` values 5, 7 and 0 |
| Examples.PastRangeNumber | src/sail/parser.rs:450-458 | an integer beyond `i64` range becomes a float |
| Examples.PastRangeIsFloat | src/sail/parser.rs:150-153 | an out-of-range integer parses to an `f64` |
| Examples.QuoteSugar | src/sail/parser.rs:163-179 | `'5` is `(quote 5)` |
| Examples.KeywordSymbol | src/sail/parser.rs:322-354 | `:go` is the keyword-mode id of the interned text `go` |
| Examples.NoForm | src/sail/parser.rs:76-85 | empty input, blank input and a comment with no line feed are `ParseUnexpectedEnd` |
| Examples.UnclosedList | src/sail/parser.rs:183-230 | `(1 2` is `ParseUnexpectedEnd` |
| Examples.UnclosedMapString | src/sail/parser.rs:262-287 | `{1` and `"ab` are `ParseUnexpectedEnd` |
| Examples.OddMap | src/sail/parser.rs:262-287 | `{1}` is `ParseInvalidChar`: the missing value's read meets `}` |
| Examples.CutTokens | src/sail/parser.rs:129-141 | a lone sign and a bare `:` at the end of input are `ParseUnexpectedEnd` |
| Examples.InvalidChars | src/sail/parser.rs:154-156 | a byte that starts no form, a number with `(` in it and a keyword with `.` in it are `ParseInvalidChar` |
| Examples.InvalidNumber | src/sail/parser.rs:383-407 | `12a` is `ParseInvalidNum` |
| Examples.InvalidString | src/sail/parser.rs:373-376 | a string holding a byte that is not UTF-8 is `ParseInvalidString` |

## Left out

- Memory management: regions, `memmgt::alloc`, refcounts, raw pointers
  and `transmute` are not modelled. The reader returns an immutable
  value tree, so "each stored element's refcount is incremented once" has
  no counterpart.
- Lists are modelled as sequences, not as chains of `ref` cells with next
  links. `read_list`'s tail handle and count are implied by the
  sequence, not modelled as separate state.
- Map bucket order: `hash_map_insert` and the hash are not part of this
  model. A map is modelled as its insertion sequence, and the printer
  walks that sequence, so no print order is claimed. Duplicate keys are
  kept. Maps are also left out of the round-trip lemmas.
- Float formatting is a parameter (`FloatText`), not computed. Float
  values are identified by their literal text, and `f64` acceptance is
  the syntax of Rust's `f64` parser, with no value computed.
- `as-f32`, `repl`, `run_file`, `interpret`, `environment_setup`,
  `insert_native_proc(s)`, the `print`/`dbg`/`printenv` natives, the
  queue natives and the arithmetic natives are not modelled, because
  each is console or file I/O, concurrency, the evaluator, or float
  conversion.
- The commented-out `get_size`, `read_field` and `write_field` are dead
  code.
- The `core` module is not part of this model. The `SymbolMode`
  discriminants are taken as Basic=0, Keyword=1, Module=2, Type=3. The
  header length is a per-cell parameter, not a fixed `HEAD_LEN`. The
  header's own encoding is abstract.
- Two API versions: `mod.rs` calls a 3-argument `parser::parse`, but the
  `parser.rs` signature `(reg, tbl, code, file)` is the one modelled.
- Input bytes: the source reads a `&str`, so `read_string`'s UTF-8 check
  cannot fail there. The model reads arbitrary bytes, which makes
  `ParseInvalidString` reachable.
- ReaderSpec.ReadValue: requires `Fits`, which bounds the table plus the
  remaining input by 2^30. Without that bound, interning would run past
  the 30 index bits the id keeps.
- Parser.Reader.ReadValue: after an error, the position, the accumulator
  and the table are not specified.
- RoundTrip.ReadShown: holds only for `Readable` values. Symbols whose
  text is a valid token and matches the table, strings without `"`, and
  float literals that print as themselves are covered. Maps, procedures
  and error codes are not.
- Examples.MixedRoundTrip: takes a table that holds `+` (the name of a
  native) and not `e`, and a float display that shows 2.1 as `2.1`; the
  environment setup that fills the test's table is not part of this
  model.
- Values.Intern: `Stab` and its `get_id` come from the parent module and
  are not part of this model. Their behaviour is assumed: lookup of the
  first entry holding the text, otherwise an append at the end, so an id
  is a position in the table. The round-trip lemmas and
  `Lexical.ReadSymbolText` depend on that assumption.
- Cells.Cell.VecF32Get: returns the element's bit pattern, not a fresh
  `f32` value cell.

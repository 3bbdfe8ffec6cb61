/** `parser.rs` as the source writes it: a cursor over the input bytes,
    the shared accumulator `acc` and the symbol table, all changed in place
    by one method per reader. Each method is proved to give what the
    function of the same name in `ReaderSpec` gives. */
module Parser {
  import opened Bytes
  import opened Symbols
  import opened ErrCodes
  import opened Numbers
  import opened Values
  import opened ReaderSpec

  /** A reader's outcome as the functional reader predicts it: the same
      error, or the same value with the cursor and the table where the
      function leaves them. After an error the source promises nothing
      about either. */
  predicate Agrees<T(==)>(r: Result<T, SlErrCode>, pos: nat, names: seq<seq<byte>>, spec: Read<T>) {
    || (spec.Fail? && r == Err(spec.err))
    || (spec.Done? && r == Ok(spec.val) && pos == spec.pos && names == spec.names)
  }

  /** The elements a loop has read so far, in front of what the rest of
      the loop reads. */
  function Prepend<T>(xs: seq<T>, r: Read<seq<T>>): Read<seq<T>> {
    match r
    case Fail(e) => Fail(e)
    case Done(ys, q, n) => Done(xs + ys, q, n)
  }

  lemma PrependNil<T>(r: Read<seq<T>>)
    ensures Prepend([], r) == r
  {
    if r.Done? {
      assert [] + r.val == r.val;
    }
  }

  lemma PrependDone<T>(xs: seq<T>, q: nat, n: seq<seq<byte>>)
    ensures Prepend(xs, Done([], q, n)) == Done(xs, q, n)
  {
    assert xs + [] == xs;
  }

  lemma PrependStep<T>(xs: seq<T>, x: T, r: Read<seq<T>>)
    ensures Prepend(xs, Prepend([x], r)) == Prepend(xs + [x], r)
  {
    if r.Done? {
      assert xs + ([x] + r.val) == xs + [x] + r.val;
    }
  }

  /** The step of the list loop that reads one element. */
  lemma ItemsStep(s: seq<byte>, p: nat, names: seq<seq<byte>>, close: byte, x: Value, q: nat, n: seq<seq<byte>>)
    requires Fits(names, s, p) && p < |s| && s[p] != close && s[p] != ';' as byte && !IsWhitespace(s[p])
    requires ReaderSpec.ReadValue(s, p, names) == Done(x, q, n)
    ensures Fits(n, s, q)
    ensures ReadItems(s, p, names, close) == Prepend([x], ReadItems(s, q, n, close))
  {
  }

  /** The step of the map loop that reads one key and its value. */
  lemma PairsStep(s: seq<byte>, p: nat, names: seq<seq<byte>>, k: Value, q: nat, n: seq<seq<byte>>,
                  v: Value, q': nat, n': seq<seq<byte>>)
    requires Fits(names, s, p) && p < |s| && s[p] != '}' as byte && s[p] != ';' as byte && !IsWhitespace(s[p])
    requires ReaderSpec.ReadValue(s, p, names) == Done(k, q, n) && Fits(n, s, q)
    requires ReaderSpec.ReadValue(s, q, n) == Done(v, q', n')
    ensures Fits(n', s, q')
    ensures ReadPairs(s, p, names) == Prepend([(k, v)], ReadPairs(s, q', n'))
  {
  }

  /** After a sign, the byte that follows picks the number or the symbol
      reader, which starts with the sign already accumulated. */
  lemma SignForm(s: seq<byte>, q: nat, names: seq<seq<byte>>)
    requires Fits(names, s, q) && q + 1 < |s| && LeadOf(s[q]) == SignLead
    ensures ReaderSpec.ReadForm(s, q, names)
      == ReadToken(s, q + 1, if IsDigit(s[q + 1]) then NumberKind else SymbolKind, [s[q]], names)
  {
  }

  /** The reader state of one `parse` call. */
  class Reader {
    /** The input; the source's `chars` is a peekable iterator over it. */
    const text: seq<byte>
    /** How many bytes of the input have been consumed. */
    var pos: nat
    /** `acc`: the bytes of the token being read. */
    var acc: seq<byte>
    /** `tbl`: the symbol table. */
    const tab: SymTab

    constructor (text: seq<byte>, tab: SymTab)
      ensures this.text == text && this.tab == tab && pos == 0 && acc == []
    {
      this.text := text;
      this.tab := tab;
      pos := 0;
      acc := [];
    }

    /** A form may start at the cursor: it is within the input and the
        table has room for one more name per byte left. */
    predicate Ready()
      reads this, tab
    {
      Fits(tab.names, text, pos)
    }

    /** The loop at the head of `read_value`: whitespace, and `;` comments
        up to their line feed. */
    method SkipBlanks() returns (r: Result<(), SlErrCode>)
      requires pos <= |text|
      modifies this
      ensures acc == old(acc)
      ensures SkipBlank(text, old(pos)).Ok? ==> r == Ok(()) && pos == SkipBlank(text, old(pos)).value
      ensures SkipBlank(text, old(pos)).Err? ==> r == Err(ParseUnexpectedEnd)
    {
      if pos == |text| {
        return Err(ParseUnexpectedEnd);
      }
      var c := text[pos];
      while IsWhitespace(c) || c == ';' as byte
        invariant old(pos) <= pos < |text| && c == text[pos] && acc == old(acc)
        invariant SkipBlank(text, pos) == SkipBlank(text, old(pos))
        decreases |text| - pos
      {
        if c == ';' as byte {
          ghost var start := pos;
          while text[pos] != '\n' as byte
            invariant start <= pos < |text| && acc == old(acc)
            invariant text[start] == ';' as byte && SkipBlank(text, start) == SkipBlank(text, old(pos))
            invariant FindByte(text, pos, '\n' as byte) == FindByte(text, start, '\n' as byte)
            decreases |text| - pos
          {
            assert FindByte(text, pos, '\n' as byte) == FindByte(text, pos + 1, '\n' as byte);
            pos := pos + 1;
            if pos == |text| {
              assert SkipBlank(text, start) == Err(ParseUnexpectedEnd);
              return Err(ParseUnexpectedEnd);
            }
          }
          assert FindByte(text, pos, '\n' as byte) == pos;
          assert SkipBlank(text, start) == SkipBlank(text, pos + 1);
        } else {
          assert SkipBlank(text, pos) == SkipBlank(text, pos + 1);
        }
        pos := pos + 1;
        if pos == |text| {
          return Err(ParseUnexpectedEnd);
        }
        c := text[pos];
      }
      return Ok(());
    }

    /** `while chars.next().unwrap_or(b'\n') != b'\n' {}`: consume up to
        and including the next line feed, or the rest of the input. */
    method SkipLine()
      requires pos <= |text|
      modifies this
      ensures acc == old(acc)
      ensures var q := FindByte(text, old(pos), '\n' as byte);
        pos == if q == |text| then q else q + 1
    {
      var done := false;
      while !done
        invariant old(pos) <= pos <= |text| && acc == old(acc)
        invariant !done ==> FindByte(text, pos, '\n' as byte) == FindByte(text, old(pos), '\n' as byte)
        invariant done ==> var q := FindByte(text, old(pos), '\n' as byte);
          pos == if q == |text| then q else q + 1
        decreases |text| - pos, if done then 0 else 1
      {
        if pos == |text| {
          done := true;
        } else {
          var b := text[pos];
          pos := pos + 1;
          done := b == '\n' as byte;
        }
      }
    }

    /** `read_value`: skip blanks, then read the form there. The
        accumulator is empty again after every form read. */
    method ReadValue() returns (r: Result<Value, SlErrCode>)
      requires Ready() && acc == []
      modifies this, tab
      ensures Agrees(r, pos, tab.names, ReaderSpec.ReadValue(text, old(pos), old(tab.names)))
      ensures r.Ok? ==> acc == []
      decreases |text| - pos, 2
    {
      var skipped := SkipBlanks();
      if skipped.Err? {
        return Err(skipped.error);
      }
      r := ReadForm();
    }

    /** The `match` of `read_value` on the first byte of a form; each
        token reader's accumulator is cleared once it has succeeded. */
    method ReadForm() returns (r: Result<Value, SlErrCode>)
      requires Ready() && acc == [] && pos < |text|
      modifies this, tab
      ensures Agrees(r, pos, tab.names, ReaderSpec.ReadForm(text, old(pos), old(tab.names)))
      ensures r.Ok? ==> acc == []
      decreases |text| - pos, 1
    {
      var c := text[pos];
      match LeadOf(c)
      case QuoteLead =>
        pos := pos + 1;
        r := ReadQuote();
      case ListLead =>
        pos := pos + 1;
        var xs := ReadList();
        r := if xs.Ok? then Ok(List(xs.value)) else Err(xs.error);
      case VecLead =>
        pos := pos + 1;
        var xs := ReadVec();
        r := if xs.Ok? then Ok(StdVec(xs.value)) else Err(xs.error);
      case MapLead =>
        pos := pos + 1;
        var ps := ReadMap();
        r := if ps.Ok? then Ok(HashMap(ps.value)) else Err(ps.error);
      case StringLead =>
        pos := pos + 1;
        r := ReadStr();
        if r.Ok? { acc := []; }
      case NoLead =>
        r := Err(ParseInvalidChar);
      case _ =>
        r := ReadTokenForm();
    }

    /** The arms of that `match` that go to a token reader. */
    method ReadTokenForm() returns (r: Result<Value, SlErrCode>)
      requires Ready() && acc == [] && pos < |text| && IsTokenLead(LeadOf(text[pos]))
      modifies this, tab
      ensures Agrees(r, pos, tab.names, ReaderSpec.ReadForm(text, old(pos), old(tab.names)))
      ensures r.Ok? ==> acc == []
    {
      var c := text[pos];
      var l := LeadOf(c);
      if l.SigilLead? {
        pos := pos + 1;
        r := ReadSpecSym(l.mode);
      } else if l == SpecialLead {
        pos := pos + 1;
        r := ReadSpecial();
      } else if l == SignLead {
        acc := acc + [c];
        assert acc == [c];
        pos := pos + 1;
        if pos == |text| {
          return Err(ParseUnexpectedEnd);
        }
        SignForm(text, pos - 1, tab.names);
        if IsDigit(text[pos]) {
          r := ReadNumber();
        } else {
          r := ReadSymbol();
        }
      } else if l == SymbolLead {
        r := ReadSymbol();
      } else {
        r := ReadNumber();
      }
      if r.Ok? {
        acc := [];
      }
    }

    /** `read_quote`: `'x` is the list `(quote x)`. */
    method ReadQuote() returns (r: Result<Value, SlErrCode>)
      requires Ready() && acc == []
      modifies this, tab
      ensures Agrees(r, pos, tab.names, ReaderSpec.ReadQuote(text, old(pos), old(tab.names)))
      ensures r.Ok? ==> acc == []
      decreases |text| - pos, 3
    {
      var x := ReadValue();
      if x.Err? {
        return Err(x.error);
      }
      return Ok(List([Sym(SP_QUOTE.0), x.value]));
    }

    /** `read_list`: the forms up to `)`, in order; the source links each
        into the tail of the list it builds. */
    method ReadList() returns (r: Result<seq<Value>, SlErrCode>)
      requires Ready() && acc == []
      modifies this, tab
      ensures Agrees(r, pos, tab.names, ReadItems(text, old(pos), old(tab.names), ')' as byte))
      ensures r.Ok? ==> acc == []
      decreases |text| - pos, 3
    {
      if pos == |text| {
        return Err(ParseUnexpectedEnd);
      }
      var c := text[pos];
      if c == ')' as byte {
        pos := pos + 1;
        return Ok([]);
      }
      var items: seq<Value> := [];
      PrependNil(ReadItems(text, pos, tab.names, ')' as byte));
      while c != ')' as byte
        invariant Ready() && acc == [] && old(pos) <= pos < |text| && c == text[pos]
        invariant Prepend(items, ReadItems(text, pos, tab.names, ')' as byte))
          == ReadItems(text, old(pos), old(tab.names), ')' as byte)
        decreases |text| - pos
      {
        if c == ';' as byte {
          SkipLine();
        } else if IsWhitespace(c) {
          pos := pos + 1;
        } else {
          ghost var p, n := pos, tab.names;
          var x := ReadValue();
          if x.Err? {
            return Err(x.error);
          }
          ItemsStep(text, p, n, ')' as byte, x.value, pos, tab.names);
          PrependStep(items, x.value, ReadItems(text, pos, tab.names, ')' as byte));
          items := items + [x.value];
        }
        if pos == |text| {
          return Err(ParseUnexpectedEnd);
        }
        c := text[pos];
      }
      PrependDone(items, pos + 1, tab.names);
      pos := pos + 1;
      return Ok(items);
    }

    /** `read_vec`: the forms up to `]`, in order. */
    method ReadVec() returns (r: Result<seq<Value>, SlErrCode>)
      requires Ready() && acc == []
      modifies this, tab
      ensures Agrees(r, pos, tab.names, ReadItems(text, old(pos), old(tab.names), ']' as byte))
      ensures r.Ok? ==> acc == []
      decreases |text| - pos, 3
    {
      if pos == |text| {
        return Err(ParseUnexpectedEnd);
      }
      var c := text[pos];
      var items: seq<Value> := [];
      PrependNil(ReadItems(text, pos, tab.names, ']' as byte));
      while c != ']' as byte
        invariant Ready() && acc == [] && old(pos) <= pos < |text| && c == text[pos]
        invariant Prepend(items, ReadItems(text, pos, tab.names, ']' as byte))
          == ReadItems(text, old(pos), old(tab.names), ']' as byte)
        decreases |text| - pos
      {
        if c == ';' as byte {
          SkipLine();
        } else if IsWhitespace(c) {
          pos := pos + 1;
        } else {
          ghost var p, n := pos, tab.names;
          var x := ReadValue();
          if x.Err? {
            return Err(x.error);
          }
          ItemsStep(text, p, n, ']' as byte, x.value, pos, tab.names);
          PrependStep(items, x.value, ReadItems(text, pos, tab.names, ']' as byte));
          items := items + [x.value];
        }
        if pos == |text| {
          return Err(ParseUnexpectedEnd);
        }
        c := text[pos];
      }
      PrependDone(items, pos + 1, tab.names);
      pos := pos + 1;
      return Ok(items);
    }

    /** `read_map`: key and value forms up to `}`, as the sequence of
        insertions into the map. */
    method ReadMap() returns (r: Result<seq<(Value, Value)>, SlErrCode>)
      requires Ready() && acc == []
      modifies this, tab
      ensures Agrees(r, pos, tab.names, ReadPairs(text, old(pos), old(tab.names)))
      ensures r.Ok? ==> acc == []
      decreases |text| - pos, 3
    {
      if pos == |text| {
        return Err(ParseUnexpectedEnd);
      }
      var c := text[pos];
      var pairs: seq<(Value, Value)> := [];
      PrependNil(ReadPairs(text, pos, tab.names));
      while c != '}' as byte
        invariant Ready() && acc == [] && old(pos) <= pos < |text| && c == text[pos]
        invariant Prepend(pairs, ReadPairs(text, pos, tab.names)) == ReadPairs(text, old(pos), old(tab.names))
        decreases |text| - pos
      {
        if c == ';' as byte {
          SkipLine();
        } else if IsWhitespace(c) {
          pos := pos + 1;
        } else {
          ghost var p, n := pos, tab.names;
          var k := ReadValue();
          if k.Err? {
            return Err(k.error);
          }
          ghost var q, m := pos, tab.names;
          var v := ReadValue();
          if v.Err? {
            return Err(v.error);
          }
          PairsStep(text, p, n, k.value, q, m, v.value, pos, tab.names);
          PrependStep(pairs, (k.value, v.value), ReadPairs(text, pos, tab.names));
          pairs := pairs + [(k.value, v.value)];
        }
        if pos == |text| {
          return Err(ParseUnexpectedEnd);
        }
        c := text[pos];
      }
      PrependDone(pairs, pos + 1, tab.names);
      pos := pos + 1;
      return Ok(pairs);
    }

    /** The loop the four token readers share: up to a delimiter or the
        end, push each byte of class `k` and fail on any other byte. */
    method ScanToken(k: TokenKind) returns (ok: bool)
      requires pos <= |text|
      modifies this
      ensures ok <==> Scan(text, old(pos), k, old(acc)).Ok?
      ensures ok ==> (acc, pos) == Scan(text, old(pos), k, old(acc)).value
    {
      while pos < |text| && !IsDelimiter(text[pos])
        invariant old(pos) <= pos <= |text|
        invariant Scan(text, pos, k, acc) == Scan(text, old(pos), k, old(acc))
        decreases |text| - pos
      {
        var b := text[pos];
        pos := pos + 1;
        if InKind(b, k) {
          acc := acc + [b];
        } else {
          return false;
        }
      }
      return true;
    }

    /** `read_symbol`: a plain symbol, interned with whatever sign the
        accumulator already holds. */
    method ReadSymbol() returns (r: Result<Value, SlErrCode>)
      requires pos <= |text| && |tab.names| < NAME_SPAN
      modifies this, tab
      ensures Agrees(r, pos, tab.names, ReadToken(text, old(pos), SymbolKind, old(acc), old(tab.names)))
    {
      var ok := ScanToken(SymbolKind);
      if !ok {
        return Err(ParseInvalidChar);
      }
      var id := tab.GetId(acc);
      return Ok(Sym(id as u32));
    }

    /** `read_spec_sym`: a keyword, module or type symbol after its sigil. */
    method ReadSpecSym(m: SymbolMode) returns (r: Result<Value, SlErrCode>)
      requires pos <= |text| && |tab.names| < NAME_SPAN
      modifies this, tab
      ensures Agrees(r, pos, tab.names, ReadToken(text, old(pos), SigilKind(m), old(acc), old(tab.names)))
    {
      var ok := ScanToken(SigilKind(m));
      if !ok {
        return Err(ParseInvalidChar);
      }
      if acc == [] {
        return Err(ParseUnexpectedEnd);
      }
      var id := tab.GetId(acc);
      return Ok(Sym(Modeize(id as u32, m)));
    }

    /** `read_number`: the token, then `process_num`. */
    method ReadNumber() returns (r: Result<Value, SlErrCode>)
      requires pos <= |text| && |tab.names| < NAME_SPAN
      modifies this
      ensures Agrees(r, pos, tab.names, ReadToken(text, old(pos), NumberKind, old(acc), tab.names))
    {
      var ok := ScanToken(NumberKind);
      if !ok {
        return Err(ParseInvalidChar);
      }
      r := ProcessNum(acc);
    }

    /** `read_special`: `#t` or `#f` in either case. */
    method ReadSpecial() returns (r: Result<Value, SlErrCode>)
      requires pos <= |text| && |tab.names| < NAME_SPAN
      modifies this
      ensures Agrees(r, pos, tab.names, ReadToken(text, old(pos), SpecialKind, old(acc), tab.names))
    {
      var ok := ScanToken(SpecialKind);
      if !ok {
        return Err(ParseInvalidChar);
      }
      if acc == [] {
        return Err(ParseUnexpectedEnd);
      }
      if EqIgnoreCase(acc[0], 't') && |acc| == 1 {
        return Ok(Bool(true));
      } else if EqIgnoreCase(acc[0], 'f') && |acc| == 1 {
        return Ok(Bool(false));
      }
      return Err(ParseBadSpecial);
    }

    /** `read_string`: the bytes up to the closing quote. */
    method ReadStr() returns (r: Result<Value, SlErrCode>)
      requires pos <= |text| && acc == []
      modifies this
      ensures Agrees(r, pos, tab.names, ReaderSpec.ReadString(text, old(pos), tab.names))
    {
      if pos == |text| {
        return Err(ParseUnexpectedEnd);
      }
      var next := text[pos];
      while next != '"' as byte
        invariant old(pos) <= pos < |text| && next == text[pos]
        invariant acc == text[old(pos)..pos]
        invariant FindByte(text, pos, '"' as byte) == FindByte(text, old(pos), '"' as byte)
        decreases |text| - pos
      {
        acc := acc + [next];
        pos := pos + 1;
        if pos == |text| {
          return Err(ParseUnexpectedEnd);
        }
        next := text[pos];
      }
      pos := pos + 1;
      if !ValidUtf8(acc) {
        return Err(ParseInvalidString);
      }
      return Ok(Str(acc));
    }
  }

  /** `parse`: wrap a file's code into one `(do ...)` form, then read one
      form from the start; the table keeps every name interned. */
  method Parse(code: seq<byte>, file: bool, tab: SymTab) returns (r: Result<Value, SlErrCode>)
    requires Fits(tab.names, Source(code, file), 0)
    modifies tab
    ensures var spec := ReaderSpec.Parse(code, file, old(tab.names));
      || (spec.Fail? && r == Err(spec.err))
      || (spec.Done? && r == Ok(spec.val) && tab.names == spec.names)
  {
    var chars := if file then DO_OPEN + code + [')' as byte] else code;
    var reader := new Reader(chars, tab);
    r := reader.ReadValue();
  }
}

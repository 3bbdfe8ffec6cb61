/** Reading what the printer prints: on the literal subset (booleans,
    integers, floats whose display is their literal, symbols whose text
    is a token of their mode, strings without a quote byte, lists and
    vectors of these) the reader gives back the value printed, consumes
    exactly the printed text and interns nothing new. */
module RoundTrip {
  import opened Bytes
  import opened Symbols
  import opened ErrCodes
  import opened Numbers
  import opened Values
  import opened ReaderSpec
  import opened Printer
  import opened Literal

  // ---------------------------------------------------------------------
  // Token ends

  /** A token with no delimiter inside, followed by a delimiter or the end
      of the input, ends where the text ends. */
  lemma {:induction false} TokenEndAt(s: seq<byte>, p: nat, t: seq<byte>)
    requires Shown(s, p, t)
    requires forall i :: 0 <= i < |t| ==> !IsDelimiter(t[i])
    requires p + |t| < |s| ==> IsDelimiter(s[p + |t|])
    ensures TokenEnd(s, p) == p + |t| && s[p..TokenEnd(s, p)] == t
    decreases |t|
  {
    if |t| > 0 {
      ShownAt(s, p, t, 0);
      ShownSplit(s, p, t[..1], t[1..]);
      assert t[..1] + t[1..] == t;
      TokenEndAt(s, p + 1, t[1..]);
    }
  }

  /** The first `b` after `p` is the one right after a text without `b`. */
  lemma {:induction false} FindByteAt(s: seq<byte>, p: nat, t: seq<byte>, b: byte)
    requires Shown(s, p, t) && p + |t| < |s| && s[p + |t|] == b
    requires forall i :: 0 <= i < |t| ==> t[i] != b
    ensures FindByte(s, p, b) == p + |t| && s[p..FindByte(s, p, b)] == t
    decreases |t|
  {
    if |t| > 0 {
      ShownAt(s, p, t, 0);
      ShownSplit(s, p, t[..1], t[1..]);
      assert t[..1] + t[1..] == t;
      FindByteAt(s, p + 1, t[1..], b);
    }
  }

  /** Reading the printed text of a readable value gives the value back,
      ends right after the text and leaves the table as it was. */
  lemma {:induction false} ReadShown(v: Value, names: seq<seq<byte>>, fl: FloatText, s: seq<byte>, p: nat)
    requires ShownForm(v, names, fl, s, p)
    ensures ReadValue(s, p, names) == Done(v, p + |Show(v, names, fl)|, names)
    decreases v, 3
  {
    if v.List? || v.StdVec? {
      ReadBracketShown(v, names, fl, s, p);
    } else {
      ReadAtomShown(v, names, fl, s, p);
    }
  }

  /** `parse` of the printed text of a readable value gives the value
      back, consumes exactly the text and interns nothing new. A lone
      sign is the exception: at the very end of the input it is an
      unexpected end. */
  lemma ParseShown(v: Value, names: seq<seq<byte>>, fl: FloatText)
    requires Distinct(names) && Readable(v, names, fl) && Printable(v, names) && !LoneSign(v, names)
    requires |names| + |Show(v, names, fl)| <= NAME_SPAN
    ensures Parse(Show(v, names, fl), false, names) == Done(v, |Show(v, names, fl)|, names)
  {
    var s := Show(v, names, fl);
    assert s[0..|s|] == s;
    assert ShownForm(v, names, fl, s, 0);
    ReadShown(v, names, fl, s, 0);
  }

  /** In file mode the printed elements `xs` are read as the block
      `(do xs...)`, with `do` the symbol the table already holds. */
  lemma ParseFileShown(xs: seq<Value>, names: seq<seq<byte>>, fl: FloatText, i: nat)
    requires Distinct(names) && i < |names| && names[i] == Ascii("do")
    requires xs != [] && ItemsReadable(xs, names, fl) && ItemsPrintable(xs, names)
    requires |names| + |ShowItems(xs, names, fl)| + 5 <= NAME_SPAN
    ensures Parse(ShowItems(xs, names, fl), true, names)
      == Done(List([Sym(i as u32)] + xs), |ShowItems(xs, names, fl)| + 5, names)
  {
    var v := FileLayout(xs, names, fl, i);
    ParseShown(v, names, fl);
  }

  /** The text a file is read as is the printed block. */
  lemma FileLayout(xs: seq<Value>, names: seq<seq<byte>>, fl: FloatText, i: nat) returns (v: Value)
    requires i < |names| <= NAME_SPAN && names[i] == Ascii("do")
    requires xs != [] && ItemsReadable(xs, names, fl) && ItemsPrintable(xs, names)
    ensures v == List([Sym(i as u32)] + xs) && Readable(v, names, fl) && Printable(v, names)
    ensures Source(ShowItems(xs, names, fl), true) == Show(v, names, fl)
  {
    var d := DoSymbol(names, fl, i);
    var ys := [d] + xs;
    v := List(ys);
    assert ys[0] == d && ys[1..] == xs;
    assert ShowItems(ys, names, fl) == Show(d, names, fl) + [SPACE] + ShowItems(xs, names, fl);
    BlockText(ShowItems(xs, names, fl), Show(d, names, fl));
  }

  lemma BlockText(t: seq<byte>, dt: seq<byte>)
    requires dt == Ascii("do")
    ensures DO_OPEN + t + [')' as byte] == ['(' as byte] + (dt + [SPACE] + t) + [')' as byte]
  {
    assert DO_OPEN == ['(' as byte] + dt + [SPACE];
  }

  /** The symbol `do` prints as its text and reads back as itself. */
  lemma DoSymbol(names: seq<seq<byte>>, fl: FloatText, i: nat) returns (d: Value)
    requires i < |names| <= NAME_SPAN && names[i] == Ascii("do")
    ensures d == Sym(i as u32) && Readable(d, names, fl) && Printable(d, names)
    ensures Show(d, names, fl) == Ascii("do")
  {
    d := Sym(i as u32);
    assert Demodes(i as u32) as int == i && ModeOf(i as u32) == Basic;
    assert PlainToken(names[i]);
  }

  // ---------------------------------------------------------------------
  // How `read_value` dispatches on the first byte of a form

  lemma ReadOpenAt(s: seq<byte>, p: nat, names: seq<seq<byte>>)
    requires Fits(names, s, p) && p < |s|
    requires s[p] == '(' as byte || s[p] == '[' as byte
    ensures s[p] == '(' as byte ==>
      ReadValue(s, p, names) == MapRead(ReadItems(s, p + 1, names, ')' as byte), xs => List(xs))
    ensures s[p] == '[' as byte ==>
      ReadValue(s, p, names) == MapRead(ReadItems(s, p + 1, names, ']' as byte), xs => StdVec(xs))
  {
    assert SkipBlank(s, p) == Ok(p);
  }

  lemma ReadHashAt(s: seq<byte>, p: nat, names: seq<seq<byte>>)
    requires Fits(names, s, p) && p < |s| && s[p] == '#' as byte
    ensures ReadValue(s, p, names) == ReadToken(s, p + 1, SpecialKind, [], names)
  {
    assert SkipBlank(s, p) == Ok(p);
  }

  lemma ReadQuoteAt(s: seq<byte>, p: nat, names: seq<seq<byte>>)
    requires Fits(names, s, p) && p < |s| && s[p] == '"' as byte
    ensures ReadValue(s, p, names) == ReadString(s, p + 1, names)
  {
    assert SkipBlank(s, p) == Ok(p);
  }

  lemma ReadSigilAt(s: seq<byte>, p: nat, m: SymbolMode, names: seq<seq<byte>>)
    requires Fits(names, s, p) && p < |s| && LeadOf(s[p]) == SigilLead(m)
    ensures ReadValue(s, p, names) == ReadToken(s, p + 1, SigilKind(m), [], names)
  {
    assert SkipBlank(s, p) == Ok(p);
  }

  lemma ReadDigitAt(s: seq<byte>, p: nat, names: seq<seq<byte>>)
    requires Fits(names, s, p) && p < |s| && IsDigit(s[p])
    ensures ReadValue(s, p, names) == ReadToken(s, p, NumberKind, [], names)
  {
    assert SkipBlank(s, p) == Ok(p);
  }

  lemma ReadSymbolStartAt(s: seq<byte>, p: nat, names: seq<seq<byte>>)
    requires Fits(names, s, p) && p < |s| && StartsSymbol(s[p])
    ensures ReadValue(s, p, names) == ReadToken(s, p, SymbolKind, [], names)
  {
    assert SkipBlank(s, p) == Ok(p);
  }

  lemma ReadSignAt(s: seq<byte>, p: nat, names: seq<seq<byte>>)
    requires Fits(names, s, p) && p < |s| && IsSign(s[p])
    ensures p + 1 == |s| ==> ReadValue(s, p, names) == Fail(ParseUnexpectedEnd)
    ensures p + 1 < |s| && IsDigit(s[p + 1]) ==>
      ReadValue(s, p, names) == ReadToken(s, p + 1, NumberKind, [s[p]], names)
    ensures p + 1 < |s| && !IsDigit(s[p + 1]) ==>
      ReadValue(s, p, names) == ReadToken(s, p + 1, SymbolKind, [s[p]], names)
  {
    assert SkipBlank(s, p) == Ok(p);
  }

  /** The token loop over a printed token of its class stops right after
      it, with the whole token accumulated. */
  lemma ScanShown(s: seq<byte>, p: nat, k: TokenKind, acc: seq<byte>, x: seq<byte>)
    requires Shown(s, p, x) && AllIn(x, k)
    requires p + |x| < |s| ==> IsDelimiter(s[p + |x|])
    ensures Scan(s, p, k, acc) == Ok((acc + x, p + |x|))
  {
    TokenEndAt(s, p, x);
  }

  // ---------------------------------------------------------------------
  // The token readers on printed tokens

  lemma BoolToken(s: seq<byte>, p: nat, b: bool, names: seq<seq<byte>>)
    requires Shown(s, p, if b then ['#' as byte, 'T' as byte] else ['#' as byte, 'F' as byte])
    requires p + 2 < |s| ==> IsDelimiter(s[p + 2])
    requires |names| < NAME_SPAN
    ensures s[p] == '#' as byte
    ensures ReadToken(s, p + 1, SpecialKind, [], names) == Done(Bool(b), p + 2, names)
  {
    var x := if b then ['T' as byte] else ['F' as byte];
    ShownSplit(s, p, ['#' as byte], x);
    ShownAt(s, p, ['#' as byte], 0);
    ScanShown(s, p + 1, SpecialKind, [], x);
    assert [] + x == x;
  }

  lemma UnsignedToken(s: seq<byte>, p: nat, t: seq<byte>, names: seq<seq<byte>>)
    requires Shown(s, p, t) && |t| > 0 && IsDigit(t[0]) && AllIn(t, NumberKind)
    requires p + |t| < |s| ==> IsDelimiter(s[p + |t|])
    requires |names| < NAME_SPAN
    ensures IsDigit(s[p])
    ensures ReadToken(s, p, NumberKind, [], names) == Finish(NumberKind, t, p + |t|, names)
  {
    ShownAt(s, p, t, 0);
    ScanShown(s, p, NumberKind, [], t);
    assert [] + t == t;
  }

  lemma SignedToken(s: seq<byte>, p: nat, t: seq<byte>, names: seq<seq<byte>>)
    requires Shown(s, p, t) && |t| > 1 && IsSign(t[0]) && IsDigit(t[1]) && AllIn(t, NumberKind)
    requires p + |t| < |s| ==> IsDelimiter(s[p + |t|])
    requires |names| < NAME_SPAN
    ensures IsSign(s[p]) && p + 1 < |s| && IsDigit(s[p + 1])
    ensures ReadToken(s, p + 1, NumberKind, [s[p]], names) == Finish(NumberKind, t, p + |t|, names)
  {
    var u := t[1..];
    ShownAt(s, p, t, 0);
    ShownAt(s, p, t, 1);
    ShownSplit(s, p, t[..1], u);
    assert [s[p]] + u == t;
    ScanShown(s, p + 1, NumberKind, [s[p]], u);
    assert Scan(s, p + 1, NumberKind, [s[p]]) == Ok((t, p + |t|));
  }

  lemma StringToken(s: seq<byte>, p: nat, x: seq<byte>, names: seq<seq<byte>>)
    requires NoQuote(x) && ValidUtf8(x)
    requires Shown(s, p, ['"' as byte] + x + ['"' as byte])
    ensures s[p] == '"' as byte
    ensures ReadString(s, p + 1, names) == Done(Str(x), p + |x| + 2, names)
  {
    StringAt(s, p, x);
    ReadStringAt(s, p + 1, x, names);
  }

  lemma StringAt(s: seq<byte>, p: nat, x: seq<byte>)
    requires NoQuote(x)
    requires Shown(s, p, ['"' as byte] + x + ['"' as byte])
    ensures s[p] == '"' as byte && p + 1 + |x| < |s|
    ensures FindByte(s, p + 1, '"' as byte) == p + 1 + |x| && s[p + 1..p + 1 + |x|] == x
  {
    assert ['"' as byte] + x + ['"' as byte] == ['"' as byte] + (x + ['"' as byte]);
    ShownSplit(s, p, ['"' as byte], x + ['"' as byte]);
    ShownSplit(s, p + 1, x, ['"' as byte]);
    ShownAt(s, p, ['"' as byte], 0);
    ShownAt(s, p + 1 + |x|, ['"' as byte], 0);
    FindByteAt(s, p + 1, x, '"' as byte);
  }

  lemma ReadStringAt(s: seq<byte>, p: nat, x: seq<byte>, names: seq<seq<byte>>)
    requires p + |x| < |s| && FindByte(s, p, '"' as byte) == p + |x| && s[p..p + |x|] == x
    requires ValidUtf8(x)
    ensures ReadString(s, p, names) == Done(Str(x), p + |x| + 1, names)
  {
  }

  /** A plain symbol that starts with a symbol start. */
  lemma PlainSymToken(s: seq<byte>, p: nat, names: seq<seq<byte>>, i: nat)
    requires |names| < NAME_SPAN && i < |names| && Intern(names, names[i]) == (i, names)
    requires PlainToken(names[i]) && StartsSymbol(names[i][0]) && Shown(s, p, names[i])
    requires p + |names[i]| < |s| ==> IsDelimiter(s[p + |names[i]|])
    ensures StartsSymbol(s[p])
    ensures ReadToken(s, p, SymbolKind, [], names) == Done(Sym(i as u32), p + |names[i]|, names)
  {
    var x := names[i];
    ShownAt(s, p, x, 0);
    assert [] + x == x;
    ScanShown(s, p, SymbolKind, [], x);
  }

  /** A plain symbol that starts with a sign not followed by a digit. */
  lemma SignSymToken(s: seq<byte>, p: nat, names: seq<seq<byte>>, i: nat)
    requires |names| < NAME_SPAN && i < |names| && Intern(names, names[i]) == (i, names)
    requires PlainToken(names[i]) && IsSign(names[i][0]) && Shown(s, p, names[i])
    requires p + |names[i]| == |s| ==> |names[i]| > 1
    requires p + |names[i]| < |s| ==> IsDelimiter(s[p + |names[i]|])
    ensures IsSign(s[p]) && p + 1 < |s| && !IsDigit(s[p + 1])
    ensures ReadToken(s, p + 1, SymbolKind, [s[p]], names) == Done(Sym(i as u32), p + |names[i]|, names)
  {
    var x := names[i];
    ShownAt(s, p, x, 0);
    ShownSplit(s, p, x[..1], x[1..]);
    assert [x[0]] + x[1..] == x;
    if |x| > 1 {
      ShownAt(s, p, x, 1);
    }
    ScanShown(s, p + 1, SymbolKind, [x[0]], x[1..]);
  }

  lemma SigilSymToken(s: seq<byte>, p: nat, names: seq<seq<byte>>, i: nat, m: SymbolMode)
    requires |names| < NAME_SPAN && i < |names| && Intern(names, names[i]) == (i, names) && m != Basic
    requires SigilToken(names[i]) && Shown(s, p, Sigil(m) + names[i])
    requires p + 1 + |names[i]| < |s| ==> IsDelimiter(s[p + 1 + |names[i]|])
    ensures LeadOf(s[p]) == SigilLead(m)
    ensures ReadToken(s, p + 1, SigilKind(m), [], names) == Done(Sym(Modeize(i as u32, m)), p + 1 + |names[i]|, names)
  {
    var x := names[i];
    ShownSplit(s, p, Sigil(m), x);
    ShownAt(s, p, Sigil(m), 0);
    SigilLeads(m);
    SigilScan(s, p + 1, names, i, m);
  }

  lemma SigilLeads(m: SymbolMode)
    requires m != Basic
    ensures |Sigil(m)| == 1 && LeadOf(Sigil(m)[0]) == SigilLead(m)
  {
  }

  lemma SigilScan(s: seq<byte>, p: nat, names: seq<seq<byte>>, i: nat, m: SymbolMode)
    requires |names| < NAME_SPAN && i < |names| && Intern(names, names[i]) == (i, names)
    requires SigilToken(names[i]) && Shown(s, p, names[i])
    requires p + |names[i]| < |s| ==> IsDelimiter(s[p + |names[i]|])
    ensures ReadToken(s, p, SigilKind(m), [], names) == Done(Sym(Modeize(i as u32, m)), p + |names[i]|, names)
  {
    var x := names[i];
    assert [] + x == x;
    ScanShown(s, p, SigilKind(m), [], x);
  }

  // ---------------------------------------------------------------------
  // The round trip, one kind of literal at a time

  /** Every literal but a list or a vector. */
  lemma ReadAtomShown(v: Value, names: seq<seq<byte>>, fl: FloatText, s: seq<byte>, p: nat)
    requires ShownForm(v, names, fl, s, p) && !v.List? && !v.StdVec?
    ensures ReadValue(s, p, names) == Done(v, p + |Show(v, names, fl)|, names)
  {
    if v.Bool? {
      ReadBoolShown(v, names, fl, s, p);
    } else if v.I64? {
      ReadIntShown(v, names, fl, s, p);
    } else if v.F64? {
      ReadFloatShown(v, names, fl, s, p);
    } else if v.Sym? {
      ReadSymShown(v, names, fl, s, p);
    } else {
      ReadStrShown(v, names, fl, s, p);
    }
  }

  lemma ReadBoolShown(v: Value, names: seq<seq<byte>>, fl: FloatText, s: seq<byte>, p: nat)
    requires ShownForm(v, names, fl, s, p) && v.Bool?
    ensures ReadValue(s, p, names) == Done(v, p + |Show(v, names, fl)|, names)
  {
    BoolToken(s, p, v.b, names);
    ReadHashAt(s, p, names);
  }

  lemma ReadIntShown(v: Value, names: seq<seq<byte>>, fl: FloatText, s: seq<byte>, p: nat)
    requires ShownForm(v, names, fl, s, p) && v.I64?
    ensures ReadValue(s, p, names) == Done(v, p + |Show(v, names, fl)|, names)
  {
    var t := IntLayout(v, names, fl, s, p);
    ReadNumberShown(s, p, t, names, v);
  }

  lemma ReadFloatShown(v: Value, names: seq<seq<byte>>, fl: FloatText, s: seq<byte>, p: nat)
    requires ShownForm(v, names, fl, s, p) && v.F64?
    ensures ReadValue(s, p, names) == Done(v, p + |Show(v, names, fl)|, names)
  {
    var t := FloatLayout(v, names, fl, s, p);
    ReadNumberShown(s, p, t, names, v);
  }

  /** The number token `t` sits at `p`, followed by a delimiter or the
      end of the input. */
  predicate NumberAt(s: seq<byte>, p: nat, t: seq<byte>, names: seq<seq<byte>>) {
    var holds :=
      && Fits(names, s, p) && Shown(s, p, t) && AllIn(t, NumberKind)
      && |t| > 0 && (IsDigit(t[0]) || (IsSign(t[0]) && |t| > 1 && IsDigit(t[1])))
      && (p + |t| < |s| ==> IsDelimiter(s[p + |t|]));
    holds
  }

  /** An integer prints as its decimal text, which `process_num` reads
      back as that integer. */
  lemma IntLayout(v: Value, names: seq<seq<byte>>, fl: FloatText, s: seq<byte>, p: nat) returns (t: seq<byte>)
    requires ShownForm(v, names, fl, s, p) && v.I64?
    ensures t == Show(v, names, fl) && NumberAt(s, p, t, names) && ProcessNum(t) == Ok(v)
  {
    t := DecimalText(v.n);
    ParseDecimal(v.n);
  }

  /** A readable float prints as its literal, which `process_num` reads
      back as that float. */
  lemma FloatLayout(v: Value, names: seq<seq<byte>>, fl: FloatText, s: seq<byte>, p: nat) returns (t: seq<byte>)
    requires ShownForm(v, names, fl, s, p) && v.F64?
    ensures t == Show(v, names, fl) && NumberAt(s, p, t, names) && ProcessNum(t) == Ok(v)
  {
    t := v.lit;
  }

  /** An integer or float literal, with or without its sign. */
  lemma ReadNumberShown(s: seq<byte>, p: nat, t: seq<byte>, names: seq<seq<byte>>, v: Value)
    requires NumberAt(s, p, t, names) && ProcessNum(t) == Ok(v)
    ensures ReadValue(s, p, names) == Done(v, p + |t|, names)
  {
    if IsDigit(t[0]) {
      UnsignedToken(s, p, t, names);
      ReadDigitAt(s, p, names);
    } else {
      SignedToken(s, p, t, names);
      ReadSignAt(s, p, names);
    }
  }

  /** A string literal without a quote byte inside. */
  lemma ReadStrShown(v: Value, names: seq<seq<byte>>, fl: FloatText, s: seq<byte>, p: nat)
    requires ShownForm(v, names, fl, s, p) && v.Str?
    ensures ReadValue(s, p, names) == Done(v, p + |Show(v, names, fl)|, names)
  {
    StringToken(s, p, v.text, names);
    ReadQuoteAt(s, p, names);
  }

  /** A plain, keyword, module or type symbol. */
  lemma ReadSymShown(v: Value, names: seq<seq<byte>>, fl: FloatText, s: seq<byte>, p: nat)
    requires ShownForm(v, names, fl, s, p) && v.Sym?
    ensures ReadValue(s, p, names) == Done(v, p + |Show(v, names, fl)|, names)
  {
    var id := v.id;
    var i := Demodes(id);
    InternKnown(names, i as nat);
    ModeizeDecomposes(id);
    if ModeOf(id) == Basic {
      ReadPlainShown(s, p, names, i as nat);
    } else {
      ReadSigilShown(s, p, names, i as nat, ModeOf(id));
    }
  }

  lemma ReadPlainShown(s: seq<byte>, p: nat, names: seq<seq<byte>>, i: nat)
    requires Fits(names, s, p) && i < |names| && Intern(names, names[i]) == (i, names)
    requires PlainToken(names[i]) && Shown(s, p, names[i])
    requires p + |names[i]| == |s| ==> |names[i]| > 1 || !IsSign(names[i][0])
    requires p + |names[i]| < |s| ==> IsDelimiter(s[p + |names[i]|])
    ensures ReadValue(s, p, names) == Done(Sym(i as u32), p + |names[i]|, names)
  {
    if StartsSymbol(names[i][0]) {
      PlainSymToken(s, p, names, i);
      ReadSymbolStartAt(s, p, names);
    } else {
      SignSymToken(s, p, names, i);
      ReadSignAt(s, p, names);
    }
  }

  lemma ReadSigilShown(s: seq<byte>, p: nat, names: seq<seq<byte>>, i: nat, m: SymbolMode)
    requires Fits(names, s, p) && i < |names| && Intern(names, names[i]) == (i, names) && m != Basic
    requires SigilToken(names[i]) && Shown(s, p, Sigil(m) + names[i])
    requires p + 1 + |names[i]| < |s| ==> IsDelimiter(s[p + 1 + |names[i]|])
    ensures ReadValue(s, p, names) == Done(Sym(Modeize(i as u32, m)), p + 1 + |names[i]|, names)
  {
    SigilSymToken(s, p, names, i, m);
    ReadSigilAt(s, p, m, names);
  }

  /** A list or a vector: its elements between brackets. */
  lemma {:induction false} ReadBracketShown(v: Value, names: seq<seq<byte>>, fl: FloatText, s: seq<byte>, p: nat)
    requires ShownForm(v, names, fl, s, p) && (v.List? || v.StdVec?)
    ensures ReadValue(s, p, names) == Done(v, p + |Show(v, names, fl)|, names)
    decreases v, 2
  {
    var close := if v.List? then ')' as byte else ']' as byte;
    BracketLayout(v, names, fl, s, p, close);
    ReadShownItems(v.items, names, fl, s, p + 1, close);
    ReadOpenAt(s, p, names);
  }

  /** Where the elements of a printed list or vector lie. */
  lemma BracketLayout(v: Value, names: seq<seq<byte>>, fl: FloatText, s: seq<byte>, p: nat, close: byte)
    requires ShownForm(v, names, fl, s, p) && (v.List? || v.StdVec?)
    requires close == if v.List? then ')' as byte else ']' as byte
    ensures s[p] == if v.List? then '(' as byte else '[' as byte
    ensures ShownItems(v.items, names, fl, s, p + 1, close)
    ensures |Show(v, names, fl)| == |ShowItems(v.items, names, fl)| + 2
  {
    var body := ShowItems(v.items, names, fl);
    var open := if v.List? then '(' as byte else '[' as byte;
    assert Show(v, names, fl) == [open] + (body + [close]);
    ShownSplit(s, p, [open], body + [close]);
    ShownSplit(s, p + 1, body, [close]);
    ShownAt(s, p, [open], 0);
    ShownAt(s, p + 1 + |body|, [close], 0);
  }

  /** Reading the printed elements of a list or vector, then its closing
      bracket, gives the elements back. */
  lemma {:induction false} ReadShownItems(xs: seq<Value>, names: seq<seq<byte>>, fl: FloatText,
                                          s: seq<byte>, p: nat, close: byte)
    requires ShownItems(xs, names, fl, s, p, close)
    ensures ReadItems(s, p, names, close) == Done(xs, p + |ShowItems(xs, names, fl)| + 1, names)
    decreases xs, 1
  {
    if xs == [] {
      ItemsEnd(s, p, names, close);
    } else if |xs| == 1 {
      ReadShownLast(xs, names, fl, s, p, close);
    } else {
      ReadShownCons(xs, names, fl, s, p, close);
    }
  }

  /** The last element, then the bracket. */
  lemma {:induction false} ReadShownLast(xs: seq<Value>, names: seq<seq<byte>>, fl: FloatText,
                                         s: seq<byte>, p: nat, close: byte)
    requires ShownItems(xs, names, fl, s, p, close) && |xs| == 1
    ensures ReadItems(s, p, names, close) == Done(xs, p + |ShowItems(xs, names, fl)| + 1, names)
    decreases xs, 0
  {
    var x, q := OneLayout(xs, names, fl, s, p, close);
    ReadShown(x, names, fl, s, p);
    ItemsLast(s, p, names, close, x, q);
  }

  /** An element, a space, then the rest and the bracket. */
  lemma {:induction false} ReadShownCons(xs: seq<Value>, names: seq<seq<byte>>, fl: FloatText,
                                         s: seq<byte>, p: nat, close: byte)
    requires ShownItems(xs, names, fl, s, p, close) && |xs| > 1
    ensures ReadItems(s, p, names, close) == Done(xs, p + |ShowItems(xs, names, fl)| + 1, names)
    decreases xs, 0
  {
    var x, rest, q, r := ConsLayout(xs, names, fl, s, p, close);
    ReadShown(x, names, fl, s, p);
    ReadShownTail(rest, names, fl, s, p, close, x, q, r, xs);
  }

  /** After an element read back at `p`, the space and the rest. */
  lemma {:induction false} ReadShownTail(rest: seq<Value>, names: seq<seq<byte>>, fl: FloatText,
                                         s: seq<byte>, p: nat, close: byte, x: Value, q: nat, r: nat, xs: seq<Value>)
    requires ShownItems(rest, names, fl, s, q + 1, close) && r == q + 1 + |ShowItems(rest, names, fl)| + 1
    requires ItemStart(s, p, names, close) && SpaceAt(s, q, close)
    requires ReadValue(s, p, names) == Done(x, q, names) && xs == [x] + rest
    ensures ReadItems(s, p, names, close) == Done(xs, r, names)
    decreases rest, 2
  {
    ReadShownItems(rest, names, fl, s, q + 1, close);
    ItemsCons(s, p, names, close, x, q, rest, r);
  }

  /** Where a lone element and the bracket after it lie. */
  lemma OneLayout(xs: seq<Value>, names: seq<seq<byte>>, fl: FloatText, s: seq<byte>, p: nat, close: byte)
    returns (x: Value, q: nat)
    requires ShownItems(xs, names, fl, s, p, close) && |xs| == 1
    ensures x == xs[0] && xs == [x] && q == p + |Show(x, names, fl)|
    ensures ShownForm(x, names, fl, s, p) && ItemStart(s, p, names, close)
    ensures q < |s| && s[q] == close && q == p + |ShowItems(xs, names, fl)|
  {
    x, q := xs[0], p + |Show(xs[0], names, fl)|;
    ItemsHead(xs, names, fl, s, p, close, q);
    ItemsOnly(xs, names, fl, s, p, close, q);
  }

  /** Where the first of several elements, the space after it and the
      rest lie. */
  lemma ConsLayout(xs: seq<Value>, names: seq<seq<byte>>, fl: FloatText, s: seq<byte>, p: nat, close: byte)
    returns (x: Value, rest: seq<Value>, q: nat, r: nat)
    requires ShownItems(xs, names, fl, s, p, close) && |xs| > 1
    ensures x == xs[0] && rest == xs[1..] && xs == [x] + rest
    ensures q == p + |Show(x, names, fl)| && r == p + |ShowItems(xs, names, fl)| + 1
    ensures ShownForm(x, names, fl, s, p) && ItemStart(s, p, names, close) && SpaceAt(s, q, close)
    ensures ShownItems(rest, names, fl, s, q + 1, close) && r == q + 1 + |ShowItems(rest, names, fl)| + 1
  {
    x, rest := xs[0], xs[1..];
    q, r := p + |Show(x, names, fl)|, p + |ShowItems(xs, names, fl)| + 1;
    ItemsHead(xs, names, fl, s, p, close, q);
    ItemsRest(xs, names, fl, s, p, close, q);
  }

  /** The first element's text lies at the start, and starts a form. */
  lemma ItemsHead(xs: seq<Value>, names: seq<seq<byte>>, fl: FloatText, s: seq<byte>, p: nat, close: byte, q: nat)
    requires ShownItems(xs, names, fl, s, p, close) && xs != [] && q == p + |Show(xs[0], names, fl)|
    ensures ShownForm(xs[0], names, fl, s, p) && q < |s| && ItemStart(s, p, names, close)
  {
    var tx := Show(xs[0], names, fl);
    FirstByte(xs[0], names, fl);
    ShownAt(s, p, ShowItems(xs, names, fl), 0);
    if |xs| > 1 {
      var rest := ShowItems(xs[1..], names, fl);
      assert ShowItems(xs, names, fl) == tx + ([SPACE] + rest);
      ShownSplit(s, p, tx, [SPACE] + rest);
    }
  }

  /** A lone element is followed by the bracket. */
  lemma ItemsOnly(xs: seq<Value>, names: seq<seq<byte>>, fl: FloatText, s: seq<byte>, p: nat, close: byte, q: nat)
    requires ShownItems(xs, names, fl, s, p, close) && |xs| == 1 && q == p + |Show(xs[0], names, fl)|
    ensures q < |s| && s[q] == close && xs == [xs[0]] && q == p + |ShowItems(xs, names, fl)|
  {
  }

  /** An element that is not the last is followed by a space and the
      text of the rest. */
  lemma ItemsRest(xs: seq<Value>, names: seq<seq<byte>>, fl: FloatText, s: seq<byte>, p: nat, close: byte, q: nat)
    requires ShownItems(xs, names, fl, s, p, close) && |xs| > 1 && q == p + |Show(xs[0], names, fl)|
    ensures SpaceAt(s, q, close)
    ensures ShownItems(xs[1..], names, fl, s, q + 1, close)
    ensures q + 1 + |ShowItems(xs[1..], names, fl)| == p + |ShowItems(xs, names, fl)|
    ensures [xs[0]] + xs[1..] == xs
  {
    var tx := Show(xs[0], names, fl);
    var rest := ShowItems(xs[1..], names, fl);
    assert ShowItems(xs, names, fl) == tx + ([SPACE] + rest);
    ShownSplit(s, p, tx, [SPACE] + rest);
    ShownSplit(s, p + |tx|, [SPACE], rest);
    ShownAt(s, p + |tx|, [SPACE], 0);
  }

  lemma ItemsEnd(s: seq<byte>, p: nat, names: seq<seq<byte>>, close: byte)
    requires Fits(names, s, p) && p < |s| && s[p] == close
    ensures ReadItems(s, p, names, close) == Done([], p + 1, names)
  {
  }

  /** At `p` an element starts: no blank, comment or closing bracket. */
  predicate ItemStart(s: seq<byte>, p: nat, names: seq<seq<byte>>, close: byte) {
    var holds := Fits(names, s, p) && p < |s| && s[p] != close && s[p] != ';' as byte && !IsWhitespace(s[p]);
    holds
  }

  /** At `q` a space separates two elements. */
  predicate SpaceAt(s: seq<byte>, q: nat, close: byte) {
    var holds := q < |s| && s[q] == SPACE && s[q] != close;
    holds
  }

  /** The last element of a list or vector, right before its bracket. */
  lemma ItemsLast(s: seq<byte>, p: nat, names: seq<seq<byte>>, close: byte, x: Value, q: nat)
    requires ItemStart(s, p, names, close)
    requires ReadValue(s, p, names) == Done(x, q, names) && q < |s| && s[q] == close
    ensures ReadItems(s, p, names, close) == Done([x], q + 1, names)
  {
    ItemsEnd(s, q, names, close);
    assert [x] + [] == [x];
  }

  /** An element of a list or vector followed by a space and the rest. */
  lemma ItemsCons(s: seq<byte>, p: nat, names: seq<seq<byte>>, close: byte, x: Value, q: nat,
                  xs: seq<Value>, r: nat)
    requires ItemStart(s, p, names, close) && SpaceAt(s, q, close)
    requires ReadValue(s, p, names) == Done(x, q, names)
    requires ReadItems(s, q + 1, names, close) == Done(xs, r, names)
    ensures ReadItems(s, p, names, close) == Done([x] + xs, r, names)
  {
    assert ReadItems(s, q, names, close) == ReadItems(s, q + 1, names, close);
  }
}

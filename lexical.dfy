/** What the reader makes of any input, not only of printed text: which
    bytes `skip` passes over between forms, and the value every kind of
    token reads as, a symbol whose text the table does not hold yet
    included. */
module Lexical {
  import opened Bytes
  import opened Symbols
  import opened ErrCodes
  import opened Numbers
  import opened Values
  import opened ReaderSpec
  import opened Printer
  import opened Literal
  import opened RoundTrip

  // ---------------------------------------------------------------------
  // Blanks and comments

  /** After the bytes `s[p..i]` the reader is inside a comment: it has
      seen a `;` and no line feed since. */
  predicate InComment(s: seq<byte>, p: nat, i: nat)
    requires p <= i <= |s|
    decreases i - p
  {
    i > p && (if InComment(s, p, i - 1) then s[i - 1] != '\n' as byte else s[i - 1] == ';' as byte)
  }

  /** Byte `i` is a blank for a scan that starts at `p`: whitespace, a
      `;`, or a byte of a comment, its closing line feed included. */
  predicate BlankAt(s: seq<byte>, p: nat, i: nat)
    requires p <= i < |s|
  {
    IsWhitespace(s[i]) || s[i] == ';' as byte || InComment(s, p, i)
  }

  /** Outside a comment at `j`, a scan from `p` and one from `j` agree
      from `j` on. */
  lemma {:induction false} CommentShift(s: seq<byte>, p: nat, j: nat, i: nat)
    requires p <= j <= i <= |s| && !InComment(s, p, j)
    ensures InComment(s, p, i) == InComment(s, j, i)
    decreases i - j
  {
    if i > j {
      CommentShift(s, p, j, i - 1);
    }
  }

  lemma BlankShift(s: seq<byte>, p: nat, j: nat)
    requires p <= j <= |s| && !InComment(s, p, j)
    ensures forall i :: j <= i <= |s| ==> InComment(s, p, i) == InComment(s, j, i)
    ensures forall i :: j <= i < |s| ==> BlankAt(s, p, i) == BlankAt(s, j, i)
  {
    forall i | j <= i <= |s|
      ensures InComment(s, p, i) == InComment(s, j, i)
    {
      CommentShift(s, p, j, i);
    }
  }

  /** A `;` at `p` with no line feed after it before `q` keeps the scan
      inside the comment up to `q`. */
  lemma {:induction false} CommentRun(s: seq<byte>, p: nat, q: nat)
    requires p < q <= |s| && s[p] == ';' as byte
    requires forall k :: p <= k < q ==> s[k] != '\n' as byte
    ensures forall i :: p < i <= q ==> InComment(s, p, i)
    decreases q - p
  {
    if q > p + 1 {
      CommentRun(s, p, q - 1);
      assert InComment(s, p, q - 1);
    }
  }

  /** `skip` stops at the first byte that is no blank, outside every
      comment (each `;` it passed was closed by a line feed), and it
      fails exactly when everything from `p` on is blank. */
  lemma {:induction false} SkipBlankSkips(s: seq<byte>, p: nat)
    requires p <= |s|
    ensures SkipBlank(s, p).Ok? ==>
      !InComment(s, p, SkipBlank(s, p).value) &&
      forall i :: p <= i < SkipBlank(s, p).value ==> BlankAt(s, p, i)
    ensures SkipBlank(s, p).Err? <==> forall i :: p <= i < |s| ==> BlankAt(s, p, i)
    decreases |s| - p
  {
    if p < |s| {
      if IsWhitespace(s[p]) {
        assert !InComment(s, p, p + 1);
        SkipBlankSkips(s, p + 1);
        BlankShift(s, p, p + 1);
        assert BlankAt(s, p, p);
      } else if s[p] == ';' as byte {
        var q := FindByte(s, p, '\n' as byte);
        CommentRun(s, p, q);
        assert forall i :: p <= i < q ==> BlankAt(s, p, i);
        if q < |s| {
          assert !InComment(s, p, q + 1);
          SkipBlankSkips(s, q + 1);
          BlankShift(s, p, q + 1);
          assert BlankAt(s, p, q);
        }
      } else {
        assert !BlankAt(s, p, p);
      }
    }
  }

  /** Whitespace in front of a form is skipped. */
  lemma ReadValueBlank(s: seq<byte>, p: nat, names: seq<seq<byte>>)
    requires Fits(names, s, p) && p < |s| && IsWhitespace(s[p])
    ensures ReadValue(s, p, names) == ReadValue(s, p + 1, names)
  {
    assert SkipBlank(s, p) == SkipBlank(s, p + 1);
  }

  /** A comment in front of a form is skipped with its line feed; one that
      runs to the end leaves no form to read. */
  lemma ReadValueComment(s: seq<byte>, p: nat, names: seq<seq<byte>>)
    requires Fits(names, s, p) && p < |s| && s[p] == ';' as byte
    ensures FindByte(s, p, '\n' as byte) == |s| ==>
      ReadValue(s, p, names) == Fail(ParseUnexpectedEnd)
    ensures FindByte(s, p, '\n' as byte) < |s| ==>
      ReadValue(s, p, names) == ReadValue(s, FindByte(s, p, '\n' as byte) + 1, names)
  {
    var q := FindByte(s, p, '\n' as byte);
    if q < |s| {
      assert SkipBlank(s, p) == SkipBlank(s, q + 1);
    }
  }

  /** Blanks in front of a form do not change what is read: the form at
      the first byte that is no blank is the one read. */
  lemma ReadValueFirstForm(s: seq<byte>, p: nat, q: nat, names: seq<seq<byte>>)
    requires Fits(names, s, p) && p <= q < |s| && !BlankAt(s, p, q)
    requires forall i :: p <= i < q ==> BlankAt(s, p, i)
    ensures ReadValue(s, p, names) == ReadValue(s, q, names)
  {
    SkipBlankSkips(s, p);
    assert SkipBlank(s, p).Ok?;
    var r := SkipBlank(s, p).value;
    assert !BlankAt(s, p, r);
    assert r == q;
    assert SkipBlank(s, q) == Ok(q);
  }

  /** Input that is blank from `p` on holds no form. */
  lemma ReadValueBlankTail(s: seq<byte>, p: nat, names: seq<seq<byte>>)
    requires Fits(names, s, p)
    requires forall i :: p <= i < |s| ==> BlankAt(s, p, i)
    ensures ReadValue(s, p, names) == Fail(ParseUnexpectedEnd)
  {
    SkipBlankSkips(s, p);
  }

  // ---------------------------------------------------------------------
  // Tokens

  /** The token starting at `p`: every byte up to the next delimiter. */
  function TokenAt(s: seq<byte>, p: nat): (t: seq<byte>)
    requires p <= |s|
    ensures TokenEnd(s, p) == p + |t|
    ensures forall i :: 0 <= i < |t| ==> !IsDelimiter(t[i])
  {
    s[p..TokenEnd(s, p)]
  }

  /** A token reader takes the whole token and fails on a byte outside its
      class; otherwise the token's text decides the value. */
  lemma ReadTokenAt(s: seq<byte>, p: nat, k: TokenKind, acc: seq<byte>, names: seq<seq<byte>>)
    requires p <= |s| && |names| < NAME_SPAN
    ensures ReadToken(s, p, k, acc, names) ==
      if AllIn(TokenAt(s, p), k) then Finish(k, acc + TokenAt(s, p), p + |TokenAt(s, p)|, names)
      else Fail(ParseInvalidChar)
  {
  }

  /** A sign is no delimiter, so the token at a sign is the sign and the
      token after it. */
  lemma SignToken(s: seq<byte>, p: nat, k: TokenKind)
    requires p < |s| && IsSign(s[p]) && (k == SymbolKind || k == NumberKind)
    ensures TokenAt(s, p) == [s[p]] + TokenAt(s, p + 1)
    ensures AllIn(TokenAt(s, p), k) == AllIn(TokenAt(s, p + 1), k)
  {
    assert TokenEnd(s, p) == TokenEnd(s, p + 1);
    var t := TokenAt(s, p);
    assert t[0] == s[p] && t[1..] == TokenAt(s, p + 1);
  }

  /** A form starting with a symbol start is the symbol its token names,
      interned on first sight; a byte outside the symbol class in the
      token is an invalid character. */
  lemma ReadSymbolLead(s: seq<byte>, p: nat, names: seq<seq<byte>>)
    requires Fits(names, s, p) && p < |s| && StartsSymbol(s[p])
    ensures var t := TokenAt(s, p);
      ReadValue(s, p, names) ==
        if AllIn(t, SymbolKind) then Done(Sym(Intern(names, t).0 as u32), p + |t|, Intern(names, t).1)
        else Fail(ParseInvalidChar)
  {
    ReadSymbolStartAt(s, p, names);
    ReadTokenAt(s, p, SymbolKind, [], names);
    assert [] + TokenAt(s, p) == TokenAt(s, p);
  }

  /** A form starting with `:`, `@` or `$` is the symbol of that mode its
      token names, interned on first sight; an empty token ends the input
      too early. */
  lemma ReadSigilLead(s: seq<byte>, p: nat, m: SymbolMode, names: seq<seq<byte>>)
    requires Fits(names, s, p) && p < |s| && LeadOf(s[p]) == SigilLead(m)
    ensures var t := TokenAt(s, p + 1);
      ReadValue(s, p, names) ==
        if !AllIn(t, SigilKind(m)) then Fail(ParseInvalidChar)
        else if t == [] then Fail(ParseUnexpectedEnd)
        else Done(Sym(Modeize(Intern(names, t).0 as u32, m)), p + 1 + |t|, Intern(names, t).1)
  {
    ReadSigilAt(s, p, m, names);
    ReadTokenAt(s, p + 1, SigilKind(m), [], names);
    assert [] + TokenAt(s, p + 1) == TokenAt(s, p + 1);
  }

  /** A form starting with `#` is a boolean when its token is one `t` or
      `f` in either case, and a bad special otherwise; an empty token ends
      the input too early. */
  lemma ReadSpecialLead(s: seq<byte>, p: nat, names: seq<seq<byte>>)
    requires Fits(names, s, p) && p < |s| && s[p] == '#' as byte
    ensures var t := TokenAt(s, p + 1);
      ReadValue(s, p, names) ==
        if !AllIn(t, SpecialKind) then Fail(ParseInvalidChar)
        else if t == [] then Fail(ParseUnexpectedEnd)
        else if t == ['t' as byte] || t == ['T' as byte] then Done(Bool(true), p + 2, names)
        else if t == ['f' as byte] || t == ['F' as byte] then Done(Bool(false), p + 2, names)
        else Fail(ParseBadSpecial)
  {
    ReadHashAt(s, p, names);
    ReadTokenAt(s, p + 1, SpecialKind, [], names);
    var t := TokenAt(s, p + 1);
    assert [] + t == t;
    if |t| == 1 {
      assert t == [t[0]];
    }
  }

  /** A form starting with a digit is the `i64` its token denotes, else
      the float literal the token is, else an invalid number. */
  lemma ReadNumberLead(s: seq<byte>, p: nat, names: seq<seq<byte>>)
    requires Fits(names, s, p) && p < |s| && IsDigit(s[p])
    ensures var t := TokenAt(s, p);
      ReadValue(s, p, names) ==
        if !AllIn(t, NumberKind) then Fail(ParseInvalidChar)
        else if ParseI64(t).Some? then Done(I64(ParseI64(t).value), p + |t|, names)
        else if F64Syntax(t) then Done(F64(t), p + |t|, names)
        else Fail(ParseInvalidNum)
  {
    ReadDigitAt(s, p, names);
    ReadTokenAt(s, p, NumberKind, [], names);
    assert [] + TokenAt(s, p) == TokenAt(s, p);
  }

  /** A sign as the last byte ends the input too early. Otherwise the
      token at the sign, sign included, is read as a number when a digit
      follows the sign and as a symbol when none does. */
  lemma ReadSignLead(s: seq<byte>, p: nat, names: seq<seq<byte>>)
    requires Fits(names, s, p) && p < |s| && IsSign(s[p])
    ensures p + 1 == |s| ==> ReadValue(s, p, names) == Fail(ParseUnexpectedEnd)
    ensures p + 1 < |s| && IsDigit(s[p + 1]) ==>
      var t := TokenAt(s, p);
      ReadValue(s, p, names) ==
        if !AllIn(t, NumberKind) then Fail(ParseInvalidChar)
        else if ParseI64(t).Some? then Done(I64(ParseI64(t).value), p + |t|, names)
        else if F64Syntax(t) then Done(F64(t), p + |t|, names)
        else Fail(ParseInvalidNum)
    ensures p + 1 < |s| && !IsDigit(s[p + 1]) ==>
      var t := TokenAt(s, p);
      ReadValue(s, p, names) ==
        if AllIn(t, SymbolKind) then Done(Sym(Intern(names, t).0 as u32), p + |t|, Intern(names, t).1)
        else Fail(ParseInvalidChar)
  {
    ReadSignAt(s, p, names);
    if p + 1 < |s| {
      var k := if IsDigit(s[p + 1]) then NumberKind else SymbolKind;
      SignToken(s, p, k);
      ReadTokenAt(s, p + 1, k, [s[p]], names);
    }
  }

  // ---------------------------------------------------------------------
  // Reading a symbol, known or new

  /** The text `t` of a symbol of mode `m`, behind its sigil and followed
      by a delimiter or the end (a lone sign must be followed by one),
      reads as `t`'s id packed with `m`. The table grows by `t` exactly
      when it did not hold it. The symbol read then prints as the same
      text and lies in the literal subset of the grown table. */
  lemma ReadSymbolText(s: seq<byte>, p: nat, m: SymbolMode, t: seq<byte>, names: seq<seq<byte>>, fl: FloatText)
    requires Fits(names, s, p) && SymToken(m, t) && Shown(s, p, Sigil(m) + t)
    requires p + |Sigil(m) + t| < |s| ==> IsDelimiter(s[p + |Sigil(m) + t|])
    requires m == Basic && |t| == 1 && IsSign(t[0]) ==> p + 1 < |s|
    ensures var (id, n) := Intern(names, t);
      var v := Sym(Modeize(id as u32, m));
      && ReadValue(s, p, names) == Done(v, p + |Sigil(m) + t|, n)
      && Readable(v, n, fl) && Printable(v, n) && Show(v, n, fl) == Sigil(m) + t
  {
    var (id, n) := Intern(names, t);
    SymbolRead(s, p, m, t, names);
    SymbolShown(n, fl, id, m, t);
  }

  lemma SymbolRead(s: seq<byte>, p: nat, m: SymbolMode, t: seq<byte>, names: seq<seq<byte>>)
    requires Fits(names, s, p) && SymToken(m, t) && Shown(s, p, Sigil(m) + t)
    requires p + |Sigil(m) + t| < |s| ==> IsDelimiter(s[p + |Sigil(m) + t|])
    requires m == Basic && |t| == 1 && IsSign(t[0]) ==> p + 1 < |s|
    ensures ReadValue(s, p, names) ==
      Done(Sym(Modeize(Intern(names, t).0 as u32, m)), p + |Sigil(m) + t|, Intern(names, t).1)
  {
    if m == Basic {
      assert Sigil(m) + t == t;
      SymbolTextRead(s, p, t, names);
      ModeizeBasic(Intern(names, t).0);
    } else {
      SigilTextRead(s, p, m, t, names);
    }
  }

  /** The symbol of a table entry prints as the entry's text behind its
      sigil, and is in the literal subset when that text is a token of
      its mode. */
  lemma SymbolShown(n: seq<seq<byte>>, fl: FloatText, id: nat, m: SymbolMode, t: seq<byte>)
    requires id < |n| <= NAME_SPAN && n[id] == t && SymToken(m, t)
    ensures var v := Sym(Modeize(id as u32, m));
      Readable(v, n, fl) && Printable(v, n) && Show(v, n, fl) == Sigil(m) + t
  {
    ShowSymbol(n, fl, id, m);
    ModeizeRoundTrip(id as u32, m);
  }

  /** A symbol's text behind `:`, `@` or `$`. */
  lemma SigilTextRead(s: seq<byte>, p: nat, m: SymbolMode, t: seq<byte>, names: seq<seq<byte>>)
    requires Fits(names, s, p) && m != Basic && SigilToken(t) && Shown(s, p, Sigil(m) + t)
    requires p + 1 + |t| < |s| ==> IsDelimiter(s[p + 1 + |t|])
    ensures ReadValue(s, p, names) ==
      Done(Sym(Modeize(Intern(names, t).0 as u32, m)), p + 1 + |t|, Intern(names, t).1)
  {
    SigilTextToken(s, p, m, t, names);
    ReadSigilAt(s, p, m, names);
  }

  lemma SigilTextToken(s: seq<byte>, p: nat, m: SymbolMode, t: seq<byte>, names: seq<seq<byte>>)
    requires |names| < NAME_SPAN && m != Basic && SigilToken(t) && Shown(s, p, Sigil(m) + t)
    requires p + 1 + |t| < |s| ==> IsDelimiter(s[p + 1 + |t|])
    ensures p < |s| && LeadOf(s[p]) == SigilLead(m)
    ensures ReadToken(s, p + 1, SigilKind(m), [], names) ==
      Done(Sym(Modeize(Intern(names, t).0 as u32, m)), p + 1 + |t|, Intern(names, t).1)
  {
    ShownSplit(s, p, Sigil(m), t);
    ShownAt(s, p, Sigil(m), 0);
    SigilLeads(m);
    assert [] + t == t;
    ScanShown(s, p + 1, SigilKind(m), [], t);
  }

  /** Packing an index with the basic mode leaves it as it is. */
  lemma ModeizeBasic(i: nat)
    requires i < NAME_SPAN
    ensures Modeize(i as u32, Basic) == i as u32
  {
  }

  /** A plain symbol's text read: through the symbol start arm or through
      the sign arm. */
  lemma SymbolTextRead(s: seq<byte>, p: nat, t: seq<byte>, names: seq<seq<byte>>)
    requires Fits(names, s, p) && PlainToken(t) && Shown(s, p, t)
    requires p + |t| < |s| ==> IsDelimiter(s[p + |t|])
    requires |t| == 1 && IsSign(t[0]) ==> p + 1 < |s|
    ensures ReadValue(s, p, names) == Done(Sym(Intern(names, t).0 as u32), p + |t|, Intern(names, t).1)
  {
    ShownAt(s, p, t, 0);
    if StartsSymbol(t[0]) {
      StartTextRead(s, p, t, names);
    } else {
      SignTextRead(s, p, t, names);
    }
  }

  lemma StartTextRead(s: seq<byte>, p: nat, t: seq<byte>, names: seq<seq<byte>>)
    requires Fits(names, s, p) && p < |s| && AllIn(t, SymbolKind) && Shown(s, p, t)
    requires p + |t| < |s| ==> IsDelimiter(s[p + |t|])
    requires StartsSymbol(s[p])
    ensures ReadValue(s, p, names) == Done(Sym(Intern(names, t).0 as u32), p + |t|, Intern(names, t).1)
  {
    ReadSymbolStartAt(s, p, names);
    assert [] + t == t;
    ScanShown(s, p, SymbolKind, [], t);
  }

  lemma SignTextRead(s: seq<byte>, p: nat, t: seq<byte>, names: seq<seq<byte>>)
    requires Fits(names, s, p) && PlainToken(t) && IsSign(t[0]) && Shown(s, p, t)
    requires p + |t| < |s| ==> IsDelimiter(s[p + |t|])
    requires |t| == 1 ==> p + 1 < |s|
    ensures ReadValue(s, p, names) == Done(Sym(Intern(names, t).0 as u32), p + |t|, Intern(names, t).1)
  {
    SignTextToken(s, p, t, names);
    ReadSignAt(s, p, names);
  }

  lemma SignTextToken(s: seq<byte>, p: nat, t: seq<byte>, names: seq<seq<byte>>)
    requires |names| < NAME_SPAN && PlainToken(t) && IsSign(t[0]) && Shown(s, p, t)
    requires p + |t| < |s| ==> IsDelimiter(s[p + |t|])
    requires |t| == 1 ==> p + 1 < |s|
    ensures IsSign(s[p]) && p + 1 < |s| && !IsDigit(s[p + 1])
    ensures ReadToken(s, p + 1, SymbolKind, [s[p]], names)
      == Done(Sym(Intern(names, t).0 as u32), p + |t|, Intern(names, t).1)
  {
    ShownAt(s, p, t, 0);
    assert t[..1] + t[1..] == t && [t[0]] + t[1..] == t;
    ShownSplit(s, p, t[..1], t[1..]);
    if |t| > 1 {
      ShownAt(s, p, t, 1);
    }
    ScanShown(s, p + 1, SymbolKind, [t[0]], t[1..]);
  }
}

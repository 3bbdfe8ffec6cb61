/** The literal subset of the printer's output: values whose printed
    text the reader reads back, and where such text sits in the input. */
module Literal {
  import opened Bytes
  import opened Symbols
  import opened Numbers
  import opened Values
  import opened ReaderSpec
  import opened Printer

  // ---------------------------------------------------------------------
  // Text at a position

  /** `t` occurs in `s` at `p`. */
  predicate Shown(s: seq<byte>, p: nat, t: seq<byte>) {
    p + |t| <= |s| && s[p..p + |t|] == t
  }

  lemma ShownAt(s: seq<byte>, p: nat, t: seq<byte>, k: nat)
    requires Shown(s, p, t) && k < |t|
    ensures s[p + k] == t[k]
  {
    assert s[p..p + |t|][k] == s[p + k];
  }

  lemma ShownSplit(s: seq<byte>, p: nat, a: seq<byte>, b: seq<byte>)
    requires Shown(s, p, a + b)
    ensures Shown(s, p, a) && Shown(s, p + |a|, b)
  {
    assert s[p..p + |a|] == (a + b)[..|a|];
    assert s[p + |a|..p + |a| + |b|] == (a + b)[|a|..];
  }

  // ---------------------------------------------------------------------
  // The literal subset

  /** The text of a plain symbol that reads back as that symbol: symbol
      bytes, starting with a symbol start, or with a sign that is alone or
      followed by a non-digit. */
  predicate PlainToken(t: seq<byte>) {
    && |t| > 0 && AllIn(t, SymbolKind)
    && (StartsSymbol(t[0]) || (IsSign(t[0]) && (|t| == 1 || !IsDigit(t[1]))))
  }

  /** The text after a sigil: one or more sigil bytes. */
  predicate SigilToken(t: seq<byte>) {
    |t| > 0 && forall i :: 0 <= i < |t| ==> IsSigilByte(t[i])
  }

  /** A float literal the number reader gives back as itself. */
  predicate FloatToken(t: seq<byte>) {
    && |t| > 0 && (IsDigit(t[0]) || (IsSign(t[0]) && |t| > 1 && IsDigit(t[1])))
    && AllIn(t, NumberKind) && ParseI64(t) == None && F64Syntax(t)
  }

  predicate NoQuote(t: seq<byte>) {
    forall i :: 0 <= i < |t| ==> t[i] != '"' as byte
  }

  /** The text of a symbol of mode `m` that reads back as that symbol. */
  predicate SymToken(m: SymbolMode, t: seq<byte>) {
    if m == Basic then PlainToken(t) else SigilToken(t)
  }

  /** The values whose printed text reads back as themselves. */
  predicate Readable(v: Value, names: seq<seq<byte>>, fl: FloatText)
    decreases v
  {
    || v.Bool?
    || (v.I64? && IsI64(v.n))
    || (v.F64? && fl.f64(v.lit) == v.lit && FloatToken(v.lit))
    || (v.Sym? && Demodes(v.id) as int < |names| && SymToken(ModeOf(v.id), names[Demodes(v.id)]))
    || (v.List? && ItemsReadable(v.items, names, fl))
    || (v.StdVec? && ItemsReadable(v.items, names, fl))
    || (v.Str? && NoQuote(v.text) && ValidUtf8(v.text))
  }

  predicate ItemsReadable(xs: seq<Value>, names: seq<seq<byte>>, fl: FloatText)
    decreases xs
  {
    xs == [] || (Readable(xs[0], names, fl) && ItemsReadable(xs[1..], names, fl))
  }

  /** A plain symbol that is a lone sign: it needs a byte after it, since a
      sign at the very end of the input is an unexpected end. */
  predicate LoneSign(v: Value, names: seq<seq<byte>>) {
    v.Sym? && ModeOf(v.id) == Basic && Demodes(v.id) as int < |names|
    && |names[Demodes(v.id)]| == 1 && IsSign(names[Demodes(v.id)][0])
  }

  lemma {:induction false} ReadableIsPrintable(v: Value, names: seq<seq<byte>>, fl: FloatText)
    requires Readable(v, names, fl)
    ensures Printable(v, names)
    decreases v
  {
    match v
    case List(xs) => ItemsReadableIsPrintable(xs, names, fl);
    case StdVec(xs) => ItemsReadableIsPrintable(xs, names, fl);
    case _ =>
  }

  lemma {:induction false} ItemsReadableIsPrintable(xs: seq<Value>, names: seq<seq<byte>>, fl: FloatText)
    requires ItemsReadable(xs, names, fl)
    ensures ItemsPrintable(xs, names)
    decreases xs
  {
    if xs != [] {
      ReadableIsPrintable(xs[0], names, fl);
      ItemsReadableIsPrintable(xs[1..], names, fl);
    }
  }

  /** A readable value prints as something that starts a form: not empty,
      and not starting with blank, a comment or a closing bracket. */
  lemma FirstByte(v: Value, names: seq<seq<byte>>, fl: FloatText)
    requires Readable(v, names, fl) && Printable(v, names)
    ensures var t := Show(v, names, fl);
      |t| > 0 && !IsDelimiter(t[0]) && t[0] != ';' as byte
  {
    match v
    case Sym(id) =>
      var t := names[Demodes(id)];
      assert Show(v, names, fl) == Sigil(ModeOf(id)) + t;
      if ModeOf(id) == Basic {
        assert Show(v, names, fl)[0] == t[0];
      }
    case I64(n) =>
    case _ =>
  }

  /** What may follow the printed text of `v` in the input: the end of
      the input (unless `v` is a lone sign) or a delimiter. */
  predicate FollowedWell(s: seq<byte>, q: nat, v: Value, names: seq<seq<byte>>) {
    && (q == |s| ==> !LoneSign(v, names))
    && (q < |s| ==> IsDelimiter(s[q]))
  }

  /** The printed text of `v` sits at `p` in `s`, followed by something
      that ends a token, and the table has room for every name the text
      could intern. */
  predicate ShownForm(v: Value, names: seq<seq<byte>>, fl: FloatText, s: seq<byte>, p: nat) {
    var holds :=
    && Distinct(names) && Fits(names, s, p)
    && Readable(v, names, fl) && Printable(v, names)
    && Shown(s, p, Show(v, names, fl))
    && FollowedWell(s, p + |Show(v, names, fl)|, v, names);
    holds
  }

  /** The printed elements of a list or vector sit at `p` in `s`, right
      before the closing bracket. */
  predicate ShownItems(xs: seq<Value>, names: seq<seq<byte>>, fl: FloatText, s: seq<byte>, p: nat, close: byte) {
    var holds :=
    && Distinct(names) && Fits(names, s, p)
    && ItemsReadable(xs, names, fl) && ItemsPrintable(xs, names)
    && (close == ')' as byte || close == ']' as byte)
    && Shown(s, p, ShowItems(xs, names, fl))
    && p + |ShowItems(xs, names, fl)| < |s| && s[p + |ShowItems(xs, names, fl)|] == close;
    holds
  }
}

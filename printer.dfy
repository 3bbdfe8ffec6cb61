/** The canonical printer, `Display for SlContextVal`: a value and the
    symbol table it was read against, rendered as text. */
module Printer {
  import opened Bytes
  import opened Symbols
  import opened ErrCodes
  import opened Numbers
  import opened Values

  /** How floats are displayed (Rust's shortest round-trip `Display` for
      `f64` and `f32`); the printer takes it as given. */
  datatype FloatText = FloatText(f64: seq<byte> -> seq<byte>, f32: u32 -> seq<byte>)

  /** Every symbol names an entry of the table. */
  predicate Printable(v: Value, names: seq<seq<byte>>)
    decreases v
  {
    || (v.Sym? && Demodes(v.id) as int < |names|)
    || ((v.List? || v.StdVec?) && ItemsPrintable(v.items, names))
    || (v.HashMap? && PairsPrintable(v.pairs, names))
    || !(v.Sym? || v.List? || v.StdVec? || v.HashMap?)
  }

  predicate ItemsPrintable(xs: seq<Value>, names: seq<seq<byte>>)
    decreases xs
  {
    xs == [] || (Printable(xs[0], names) && ItemsPrintable(xs[1..], names))
  }

  predicate PairsPrintable(ps: seq<(Value, Value)>, names: seq<seq<byte>>)
    decreases ps
  {
    ps == [] ||
      var (k, x) := ps[0];
      assert k < ps[0] && x < ps[0];
      Printable(k, names) && Printable(x, names) && PairsPrintable(ps[1..], names)
  }

  /** The sigil that marks a symbol's mode; plain symbols have none. */
  function Sigil(m: SymbolMode): (t: seq<byte>)
    ensures |t| <= 1
  {
    match m
    case Basic => []
    case Keyword => [':' as byte]
    case Module => ['@' as byte]
    case Type => ['$' as byte]
  }

  const SPACE: byte := ' ' as byte

  /** The text of `v`. */
  function Show(v: Value, names: seq<seq<byte>>, fl: FloatText): seq<byte>
    requires Printable(v, names)
    decreases v
  {
    match v
    case Nil => ['(' as byte, ')' as byte]
    case Bool(b) => if b then ['#' as byte, 'T' as byte] else ['#' as byte, 'F' as byte]
    case I64(n) => DecimalText(n)
    case F64(lit) => fl.f64(lit)
    case F32(bits) => fl.f32(bits)
    case ErrCode(e) => Ascii("<err: ") + Ascii(DebugName(e)) + Ascii(">")
    case Sym(id) => Sigil(ModeOf(id)) + names[Demodes(id)]
    case List(xs) => ['(' as byte] + ShowItems(xs, names, fl) + [')' as byte]
    case StdVec(xs) => ['[' as byte] + ShowItems(xs, names, fl) + [']' as byte]
    case Str(t) => ['"' as byte] + t + ['"' as byte]
    case HashMap(ps) => ['{' as byte] + ShowPairs(ps, names, fl) + ['}' as byte]
    case Proc => Ascii("<$proc>")
    case OtherCore => Ascii("<@core/$other>")
    case Extended => Ascii("<$other>")
  }

  /** The elements of a list or vector, one space between neighbours. */
  function ShowItems(xs: seq<Value>, names: seq<seq<byte>>, fl: FloatText): seq<byte>
    requires ItemsPrintable(xs, names)
    decreases xs
  {
    if xs == [] then []
    else if |xs| == 1 then Show(xs[0], names, fl)
    else Show(xs[0], names, fl) + [SPACE] + ShowItems(xs[1..], names, fl)
  }

  /** The entries of a map as `key value`, one space between entries. */
  function ShowPairs(ps: seq<(Value, Value)>, names: seq<seq<byte>>, fl: FloatText): seq<byte>
    requires PairsPrintable(ps, names)
    decreases ps
  {
    if ps == [] then []
    else
      var (k, x) := ps[0];
      assert k < ps[0] && x < ps[0];
      var entry := Show(k, names, fl) + [SPACE] + Show(x, names, fl);
      if |ps| == 1 then entry else entry + [SPACE] + ShowPairs(ps[1..], names, fl)
  }

  /** A symbol prints as its mode's sigil followed by the interned text,
      whatever mode was packed into its id. */
  lemma ShowSymbol(names: seq<seq<byte>>, fl: FloatText, i: nat, m: SymbolMode)
    requires i < |names| && i < NAME_SPAN
    ensures Printable(Sym(Modeize(i as u32, m)), names)
    ensures Show(Sym(Modeize(i as u32, m)), names, fl) == Sigil(m) + names[i]
  {
  }

  /** The elements of two non-empty runs print as the two texts joined by
      one space: no leading, trailing or doubled separator. */
  lemma {:induction false} ShowItemsAppend(xs: seq<Value>, ys: seq<Value>, names: seq<seq<byte>>, fl: FloatText)
    requires xs != [] && ys != []
    requires ItemsPrintable(xs, names) && ItemsPrintable(ys, names)
    ensures ItemsPrintable(xs + ys, names)
    ensures ShowItems(xs + ys, names, fl) == ShowItems(xs, names, fl) + [SPACE] + ShowItems(ys, names, fl)
    decreases |xs|
  {
    assert (xs + ys)[0] == xs[0];
    assert (xs + ys)[1..] == xs[1..] + ys;
    if |xs| > 1 {
      ShowItemsAppend(xs[1..], ys, names, fl);
    }
  }

  /** The keys and values of a map's entries, in entry order. */
  function Entries(ps: seq<(Value, Value)>): (xs: seq<Value>)
    ensures |xs| == 2 * |ps|
    ensures forall i :: 0 <= i < |ps| ==> xs[2 * i] == ps[i].0 && xs[2 * i + 1] == ps[i].1
    decreases ps
  {
    if ps == [] then [] else [ps[0].0, ps[0].1] + Entries(ps[1..])
  }

  /** A map prints as its keys and values in order, spaced like the
      elements of a list: the inside of `{k1 x1 k2 x2}` is the inside
      of `(k1 x1 k2 x2)`. */
  lemma {:induction false} ShowPairsAsItems(ps: seq<(Value, Value)>, names: seq<seq<byte>>, fl: FloatText)
    requires PairsPrintable(ps, names)
    ensures ItemsPrintable(Entries(ps), names)
    ensures ShowPairs(ps, names, fl) == ShowItems(Entries(ps), names, fl)
    decreases |ps|
  {
    if ps != [] {
      var (k, x) := ps[0];
      var rest := Entries(ps[1..]);
      if |ps| > 1 {
        ShowPairsAsItems(ps[1..], names, fl);
      }
      assert Entries(ps) == [k, x] + rest;
      assert ([k, x] + rest)[1..] == [x] + rest;
      assert ([x] + rest)[1..] == rest;
    }
  }
}

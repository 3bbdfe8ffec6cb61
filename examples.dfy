/** The reader and the printer on concrete inputs: the scenarios of the
    source's own tests (`parses` in `src/sail/mod.rs`) and one input per
    error the reader reports. The table `names` is arbitrary wherever the
    input holds no symbol. */
module Examples {
  import opened Bytes
  import opened Symbols
  import opened ErrCodes
  import opened Numbers
  import opened Values
  import opened ReaderSpec
  import opened Printer
  import opened Literal
  import opened RoundTrip
  import opened Lexical

  const EMPTY: Value := List([])

  // ---------------------------------------------------------------------
  // Building printed text element by element

  /** `()` reads back and prints as itself. */
  lemma EmptyShown(names: seq<seq<byte>>, fl: FloatText)
    ensures Readable(EMPTY, names, fl) && Printable(EMPTY, names)
    ensures Show(EMPTY, names, fl) == [40, 41]
  {
  }

  /** A one-element sequence of items prints as its element. */
  lemma OneItem(x: Value, names: seq<seq<byte>>, fl: FloatText)
    requires Readable(x, names, fl) && Printable(x, names)
    ensures ItemsReadable([x], names, fl) && ItemsPrintable([x], names)
    ensures ShowItems([x], names, fl) == Show(x, names, fl)
  {
    assert [x][1..] == [];
  }

  /** One more element in front: its text, a space, then the rest. */
  lemma ConsItem(x: Value, xs: seq<Value>, names: seq<seq<byte>>, fl: FloatText)
    requires Readable(x, names, fl) && Printable(x, names)
    requires ItemsReadable(xs, names, fl) && ItemsPrintable(xs, names) && xs != []
    ensures ItemsReadable([x] + xs, names, fl) && ItemsPrintable([x] + xs, names)
    ensures ShowItems([x] + xs, names, fl) == Show(x, names, fl) + [SPACE] + ShowItems(xs, names, fl)
  {
    assert ([x] + xs)[0] == x && ([x] + xs)[1..] == xs;
  }

  lemma Cons2<T>(a: T, b: T)
    ensures [a] + [b] == [a, b]
  {
  }

  lemma Cons3<T>(a: T, b: T, c: T)
    ensures [a] + [b, c] == [a, b, c]
  {
  }

  lemma Cons4<T>(a: T, b: T, c: T, d: T)
    ensures [a] + [b, c, d] == [a, b, c, d]
  {
  }

  lemma Cons5<T>(a: T, b: T, c: T, d: T, e: T)
    ensures [a] + [b, c, d, e] == [a, b, c, d, e]
  {
  }

  /** A list of readable items is readable and prints in parentheses. */
  lemma ListShown(xs: seq<Value>, names: seq<seq<byte>>, fl: FloatText)
    requires ItemsReadable(xs, names, fl) && ItemsPrintable(xs, names)
    ensures Readable(List(xs), names, fl) && Printable(List(xs), names)
    ensures Show(List(xs), names, fl) == ['(' as byte] + ShowItems(xs, names, fl) + [')' as byte]
  {
  }

  /** The list whose one element is `v`. */
  function Wrap(v: Value): Value {
    List([v])
  }

  lemma WrapShown(v: Value, names: seq<seq<byte>>, fl: FloatText)
    requires Readable(v, names, fl) && Printable(v, names)
    ensures Readable(Wrap(v), names, fl) && Printable(Wrap(v), names)
    ensures Show(Wrap(v), names, fl) == ['(' as byte] + Show(v, names, fl) + [')' as byte]
  {
    OneItem(v, names, fl);
  }

  /** A plain symbol of the table reads back and prints as its name. */
  lemma PlainSymShown(names: seq<seq<byte>>, fl: FloatText, i: nat)
    requires i < |names| <= NAME_SPAN && PlainToken(names[i])
    ensures Readable(Sym(i as u32), names, fl) && Printable(Sym(i as u32), names)
    ensures Show(Sym(i as u32), names, fl) == names[i]
  {
    assert Demodes(i as u32) as int == i && ModeOf(i as u32) == Basic;
    assert Sigil(Basic) + names[i] == names[i];
  }

  // ---------------------------------------------------------------------
  // Round trips

  /** `(() (()) ((((() ())))))` parses to nested lists and prints back as
      itself. */
  lemma NestedListsRoundTrip(names: seq<seq<byte>>, fl: FloatText)
    requires Distinct(names) && |names| + 23 <= NAME_SPAN
    ensures Printable(NESTED, names)
    ensures var text := Ascii("(() (()) ((((() ())))))");
      && Parse(text, false, names) == Done(NESTED, 23, names)
      && Show(NESTED, names, fl) == text
  {
    NestedText(names, fl);
    ParseShown(NESTED, names, fl);
  }

  const NESTED: Value := List([EMPTY, Wrap(EMPTY), Wrap(Wrap(Wrap(List([EMPTY, EMPTY]))))])

  lemma NestedText(names: seq<seq<byte>>, fl: FloatText)
    ensures Readable(NESTED, names, fl) && Printable(NESTED, names)
    ensures Show(NESTED, names, fl) == Ascii("(() (()) ((((() ())))))")
  {
    var t := NestedItems(names, fl);
    ListShown(NESTED.items, names, fl);
    NestedGlue(t);
  }

  lemma NestedGlue(t: seq<byte>)
    requires t == [40, 41, 32, 40, 40, 41, 41, 32, 40, 40, 40, 40, 40, 41, 32, 40, 41, 41, 41, 41, 41]
    ensures ['(' as byte] + t + [')' as byte] == Ascii("(() (()) ((((() ())))))")
  {
    NestedAscii();
  }

  /** The elements of the outer list, `() (()) ((((() ()))))`. */
  lemma NestedItems(names: seq<seq<byte>>, fl: FloatText) returns (t: seq<byte>)
    ensures ItemsReadable(NESTED.items, names, fl) && ItemsPrintable(NESTED.items, names)
    ensures t == ShowItems(NESTED.items, names, fl)
    ensures t == [40, 41, 32, 40, 40, 41, 41, 32, 40, 40, 40, 40, 40, 41, 32, 40, 41, 41, 41, 41, 41]
  {
    var e := EMPTY;
    EmptyShown(names, fl);
    var tail := NestedTail(names, fl);
    ConsItem(e, NESTED.items[1..], names, fl);
    assert [e] + NESTED.items[1..] == NESTED.items;
    t := ShowItems(NESTED.items, names, fl);
    assert t == [40, 41] + [32] + tail;
    NestedItemsGlue(tail);
  }

  lemma NestedItemsGlue(tail: seq<byte>)
    requires tail == [40, 40, 41, 41, 32, 40, 40, 40, 40, 40, 41, 32, 40, 41, 41, 41, 41, 41]
    ensures [40 as byte, 41] + [32] + tail == [40, 41, 32, 40, 40, 41, 41, 32, 40, 40, 40, 40, 40, 41, 32, 40, 41, 41, 41, 41, 41]
  {
  }

  /** `(()) ((((() ()))))`, the last two elements. */
  lemma NestedTail(names: seq<seq<byte>>, fl: FloatText) returns (t: seq<byte>)
    ensures ItemsReadable(NESTED.items[1..], names, fl) && ItemsPrintable(NESTED.items[1..], names)
    ensures t == ShowItems(NESTED.items[1..], names, fl)
    ensures t == [40, 40, 41, 41, 32, 40, 40, 40, 40, 40, 41, 32, 40, 41, 41, 41, 41, 41]
  {
    var e := EMPTY;
    EmptyShown(names, fl);
    WrapShown(e, names, fl);
    var deep := DeepText(names, fl);
    OneItem(deep, names, fl);
    ConsItem(Wrap(e), [deep], names, fl);
    Cons2(Wrap(e), deep);
    assert NESTED.items[1..] == [Wrap(e), deep];
    t := ShowItems([Wrap(e), deep], names, fl);
    assert t == [40, 40, 41, 41] + [32] + Show(deep, names, fl);
    NestedTailGlue(Show(deep, names, fl));
  }

  lemma NestedTailGlue(d: seq<byte>)
    requires d == [40, 40, 40, 40, 40, 41, 32, 40, 41, 41, 41, 41, 41]
    ensures [40 as byte, 40, 41, 41] + [32] + d == [40, 40, 41, 41, 32, 40, 40, 40, 40, 40, 41, 32, 40, 41, 41, 41, 41, 41]
  {
  }

  lemma NestedAscii()
    ensures Ascii("(() (()) ((((() ())))))")
      == [40, 40, 41, 32, 40, 40, 41, 41, 32, 40, 40, 40, 40, 40, 41, 32, 40, 41, 41, 41, 41, 41, 41]
  {
  }

  /** `((((() ()))))`, the last element. */
  lemma DeepText(names: seq<seq<byte>>, fl: FloatText) returns (deep: Value)
    ensures deep == Wrap(Wrap(Wrap(List([EMPTY, EMPTY]))))
    ensures Readable(deep, names, fl) && Printable(deep, names)
    ensures Show(deep, names, fl) == [40, 40, 40, 40, 40, 41, 32, 40, 41, 41, 41, 41, 41]
  {
    var e := EMPTY;
    EmptyShown(names, fl);
    OneItem(e, names, fl);
    ConsItem(e, [e], names, fl);
    Cons2(e, e);
    var pair := List([e, e]);
    ListShown([e, e], names, fl);
    assert Show(pair, names, fl) == [40] + ([40, 41] + [32] + [40, 41]) + [41];
    var tp := Show(pair, names, fl);
    WrapShown(pair, names, fl);
    WrapShown(Wrap(pair), names, fl);
    WrapShown(Wrap(Wrap(pair)), names, fl);
    deep := Wrap(Wrap(Wrap(pair)));
    assert Show(deep, names, fl) == [40] + ([40] + ([40] + tp + [41]) + [41]) + [41];
    DeepGlue(tp);
  }

  lemma DeepGlue(tp: seq<byte>)
    requires tp == [40] + ([40, 41] + [32] + [40, 41]) + [41]
    ensures [40 as byte] + ([40] + ([40] + tp + [41]) + [41]) + [41] == [40, 40, 40, 40, 40, 41, 32, 40, 41, 41, 41, 41, 41]
  {
    assert tp == [40, 40, 41, 32, 40, 41, 41];
  }

  /** `(+ (() 42 (e) #T) #F 2.1 e)` parses, in a table that holds `+`
      but not `e`, to the list it denotes: `e` is interned at the end of
      the table on first sight and found on the second. With the grown
      table, and a float display that shows 2.1 as `2.1`, the value
      prints back as the text. */
  lemma MixedRoundTrip(names: seq<seq<byte>>, fl: FloatText, plus: nat)
    requires Distinct(names) && |names| + 27 <= NAME_SPAN
    requires plus < |names| && names[plus] == Ascii("+")
    requires Ascii("e") !in names
    requires fl.f64(Ascii("2.1")) == Ascii("2.1")
    ensures var text := Ascii("(+ (() 42 (e) #T) #F 2.1 e)");
      var grown := names + [Ascii("e")];
      var v := Mixed(plus as u32, |names| as u32);
      && Parse(text, false, names) == Done(v, 27, grown)
      && Printable(v, grown) && Show(v, grown, fl) == text
  {
    MixedAscii();
    MixedText(names + [[101]], fl, plus, |names|);
    MixedLayout(MIXED_TEXT);
    MixedRead(MIXED_TEXT, names, fl, plus);
  }

  /** The value of `(+ (() 42 (e) #T) #F 2.1 e)` for the ids of `+` and
      `e`. */
  function Mixed(plus: u32, e: u32): Value {
    List([Sym(plus), MixedInner(e), Bool(false), F64(Ascii("2.1")), Sym(e)])
  }

  function MixedInner(e: u32): Value {
    List([EMPTY, I64(42), List([Sym(e)]), Bool(true)])
  }

  const MIXED_TEXT: seq<byte> :=
    [40, 43, 32, 40, 40, 41, 32, 52, 50, 32, 40, 101, 41, 32, 35, 84, 41, 32, 35, 70, 32, 50, 46, 49, 32, 101, 41]

  lemma MixedAscii()
    ensures Ascii("(+ (() 42 (e) #T) #F 2.1 e)") == MIXED_TEXT
    ensures Ascii("+") == [43] && Ascii("e") == [101]
  {
  }

  /** The bytes of `(+ (() 42 (e) #T) #F 2.1 e)`, one at a time. */
  predicate MixedAt(s: seq<byte>) {
    && |s| == 27 && s[0] == 40 && s[1] == 43 && s[2] == 32 && s[3] == 40 && s[4] == 40
    && s[5] == 41 && s[6] == 32 && s[7] == 52 && s[8] == 50 && s[9] == 32 && s[10] == 40
    && s[11] == 101 && s[12] == 41 && s[13] == 32 && s[14] == 35 && s[15] == 84 && s[16] == 41
    && s[17] == 32 && s[18] == 35 && s[19] == 70 && s[20] == 32 && s[21] == 50 && s[22] == 46
    && s[23] == 49 && s[24] == 32 && s[25] == 101 && s[26] == 41
  }

  lemma MixedLayout(s: seq<byte>)
    requires s == MIXED_TEXT
    ensures MixedAt(s)
  {
    MixedHead(s);
    MixedMiddle(s);
    MixedEnd(s);
  }

  lemma MixedHead(s: seq<byte>)
    requires s == MIXED_TEXT
    ensures s[0] == 40 && s[1] == 43 && s[2] == 32 && s[3] == 40 && s[4] == 40 && s[5] == 41 && s[6] == 32 && s[7] == 52 && s[8] == 50
  {
  }

  lemma MixedMiddle(s: seq<byte>)
    requires s == MIXED_TEXT
    ensures s[9] == 32 && s[10] == 40 && s[11] == 101 && s[12] == 41 && s[13] == 32 && s[14] == 35 && s[15] == 84 && s[16] == 41 && s[17] == 32
  {
  }

  lemma MixedEnd(s: seq<byte>)
    requires s == MIXED_TEXT
    ensures |s| == 27 && s[18] == 35 && s[19] == 70 && s[20] == 32 && s[21] == 50 && s[22] == 46 && s[23] == 49 && s[24] == 32 && s[25] == 101 && s[26] == 41
  {
  }

  /** Reading the text: `+` is found, `e` is interned inside `(e)`, and
      the rest is read with the grown table. */
  lemma MixedRead(s: seq<byte>, names: seq<seq<byte>>, fl: FloatText, plus: nat)
    requires MixedAt(s) && Distinct(names) && |names| + 27 <= NAME_SPAN
    requires plus < |names| && names[plus] == [43] && [101] !in names
    requires fl.f64(Ascii("2.1")) == Ascii("2.1")
    ensures ReadValue(s, 0, names) == Done(Mixed(plus as u32, |names| as u32), 27, names + [[101]])
  {
    var grown := names + [[101]];
    var inner := MixedInner(|names| as u32);
    var tail := [Bool(false), F64(Ascii("2.1")), Sym(|names| as u32)];
    ReadOpenAt(s, 0, names);
    PlusRead(s, names, plus);
    InnerRead(s, names);
    TailRead(s, names, fl);
    ItemsBlank(s, 2, names, ')' as byte);
    ItemsThen(s, 3, names, ')' as byte, inner, 17, grown, tail, 27, grown);
    ItemsThen(s, 1, names, ')' as byte, Sym(plus as u32), 2, names, [inner] + tail, 27, grown);
    assert [Sym(plus as u32)] + ([inner] + tail) == Mixed(plus as u32, |names| as u32).items;
  }

  /** `+` at 1 is the table's `+`. */
  lemma PlusRead(s: seq<byte>, names: seq<seq<byte>>, plus: nat)
    requires MixedAt(s) && Distinct(names) && |names| + 27 <= NAME_SPAN
    requires plus < |names| && names[plus] == [43]
    ensures ReadValue(s, 1, names) == Done(Sym(plus as u32), 2, names)
  {
    InternKnown(names, plus);
    assert Sigil(Basic) + [43] == [43];
    assert Shown(s, 1, [43]);
    SymbolRead(s, 1, Basic, [43], names);
  }

  /** `(() 42 (e) #T)` at 3, which interns `e`. */
  lemma InnerRead(s: seq<byte>, names: seq<seq<byte>>)
    requires MixedAt(s) && Distinct(names) && |names| + 27 <= NAME_SPAN && [101] !in names
    ensures ReadValue(s, 3, names) == Done(MixedInner(|names| as u32), 17, names + [[101]])
  {
    ReadOpenAt(s, 3, names);
    InnerItemsRead(s, names);
  }

  lemma InnerItemsRead(s: seq<byte>, names: seq<seq<byte>>)
    requires MixedAt(s) && Distinct(names) && |names| + 27 <= NAME_SPAN && [101] !in names
    ensures ReadItems(s, 4, names, ')' as byte) == Done(MixedInner(|names| as u32).items, 17, names + [[101]])
  {
    var grown := names + [[101]];
    var wrapped := List([Sym(|names| as u32)]);
    EmptyRead(s, names);
    FortyTwoRead(s, names);
    InnerLast(s, names);
    ItemsBlank(s, 9, names, ')' as byte);
    ItemsThen(s, 7, names, ')' as byte, I64(42), 9, names, [wrapped, Bool(true)], 17, grown);
    assert [I64(42)] + [wrapped, Bool(true)] == [I64(42), wrapped, Bool(true)];
    ItemsBlank(s, 6, names, ')' as byte);
    ItemsThen(s, 4, names, ')' as byte, EMPTY, 6, names, [I64(42), wrapped, Bool(true)], 17, grown);
    assert [EMPTY] + [I64(42), wrapped, Bool(true)] == MixedInner(|names| as u32).items;
  }

  /** `(e) #T)` from 10: `e` is new to the table, `#T` is read with the
      grown one. */
  lemma InnerLast(s: seq<byte>, names: seq<seq<byte>>)
    requires MixedAt(s) && Distinct(names) && |names| + 27 <= NAME_SPAN && [101] !in names
    ensures ReadItems(s, 10, names, ')' as byte)
      == Done([List([Sym(|names| as u32)]), Bool(true)], 17, names + [[101]])
  {
    var grown := names + [[101]];
    NewSymbolRead(s, names);
    TrueRead(s, grown);
    ItemsEnd(s, 16, grown, ')' as byte);
    ItemsThen(s, 14, grown, ')' as byte, Bool(true), 16, grown, [], 17, grown);
    assert [Bool(true)] + [] == [Bool(true)];
    ItemsBlank(s, 13, grown, ')' as byte);
    ItemsThen(s, 10, names, ')' as byte, List([Sym(|names| as u32)]), 13, grown, [Bool(true)], 17, grown);
    assert [List([Sym(|names| as u32)])] + [Bool(true)] == [List([Sym(|names| as u32)]), Bool(true)];
  }

  /** `(e)` at 10, the first sight of `e`. */
  lemma NewSymbolRead(s: seq<byte>, names: seq<seq<byte>>)
    requires MixedAt(s) && Distinct(names) && |names| + 27 <= NAME_SPAN && [101] !in names
    ensures ReadValue(s, 10, names) == Done(List([Sym(|names| as u32)]), 13, names + [[101]])
  {
    var grown := names + [[101]];
    ReadOpenAt(s, 10, names);
    assert Sigil(Basic) + [101] == [101];
    assert Shown(s, 11, [101]);
    SymbolRead(s, 11, Basic, [101], names);
    ItemsEnd(s, 12, grown, ')' as byte);
    ItemsThen(s, 11, names, ')' as byte, Sym(|names| as u32), 12, grown, [], 13, grown);
    assert [Sym(|names| as u32)] + [] == [Sym(|names| as u32)];
  }

  lemma EmptyRead(s: seq<byte>, names: seq<seq<byte>>)
    requires MixedAt(s) && |names| + 27 <= NAME_SPAN
    ensures ReadValue(s, 4, names) == Done(EMPTY, 6, names)
  {
    ReadOpenAt(s, 4, names);
    ItemsEnd(s, 5, names, ')' as byte);
  }

  lemma FortyTwoRead(s: seq<byte>, names: seq<seq<byte>>)
    requires MixedAt(s) && |names| + 27 <= NAME_SPAN
    ensures ReadValue(s, 7, names) == Done(I64(42), 9, names)
  {
    assert Shown(s, 7, [52, 50]);
    TokenEndAt(s, 7, [52, 50]);
    ReadNumberLead(s, 7, names);
    FortyTwo();
    ParseDecimal(42);
  }

  lemma TrueRead(s: seq<byte>, names: seq<seq<byte>>)
    requires MixedAt(s) && |names| + 14 <= NAME_SPAN
    ensures ReadValue(s, 14, names) == Done(Bool(true), 16, names)
  {
    assert Shown(s, 15, [84]);
    TokenEndAt(s, 15, [84]);
    ReadSpecialLead(s, 14, names);
  }

  /** ` #F 2.1 e)` from 17, read with the grown table, in which `e` is
      found. */
  lemma TailRead(s: seq<byte>, names: seq<seq<byte>>, fl: FloatText)
    requires MixedAt(s) && Distinct(names) && |names| + 27 <= NAME_SPAN && [101] !in names
    requires fl.f64(Ascii("2.1")) == Ascii("2.1")
    ensures ReadItems(s, 17, names + [[101]], ')' as byte)
      == Done([Bool(false), F64(Ascii("2.1")), Sym(|names| as u32)], 27, names + [[101]])
  {
    var grown := names + [[101]];
    assert Intern(names, [101]).1 == grown;
    var t := MixedTail(grown, fl, |names|);
    TailShown(s, t);
    ReadShownItems([Bool(false), F64(Ascii("2.1")), Sym(|names| as u32)], grown, fl, s, 18, ')' as byte);
    ItemsBlank(s, 17, grown, ')' as byte);
  }

  lemma TailShown(s: seq<byte>, t: seq<byte>)
    requires MixedAt(s) && t == [35, 70, 32, 50, 46, 49, 32, 101]
    ensures Shown(s, 18, t) && s[26] == ')' as byte
  {
    assert forall i :: 0 <= i < 8 ==> s[18..26][i] == t[i];
  }

  lemma MixedText(names: seq<seq<byte>>, fl: FloatText, plus: nat, e: nat)
    requires |names| <= NAME_SPAN
    requires plus < |names| && names[plus] == Ascii("+")
    requires e < |names| && names[e] == Ascii("e")
    requires fl.f64(Ascii("2.1")) == Ascii("2.1")
    ensures Readable(Mixed(plus as u32, e as u32), names, fl) && Printable(Mixed(plus as u32, e as u32), names)
    ensures !LoneSign(Mixed(plus as u32, e as u32), names)
    ensures Show(Mixed(plus as u32, e as u32), names, fl)
      == [40, 43, 32, 40, 40, 41, 32, 52, 50, 32, 40, 101, 41, 32, 35, 84, 41, 32, 35, 70, 32, 50, 46, 49, 32, 101, 41]
  {
    var t := MixedItems(names, fl, plus, e);
    var v := Mixed(plus as u32, e as u32);
    ListShown(v.items, names, fl);
    MixedOuterGlue(t);
  }

  lemma MixedOuterGlue(t: seq<byte>)
    requires t == [43, 32, 40, 40, 41, 32, 52, 50, 32, 40, 101, 41, 32, 35, 84, 41, 32, 35, 70, 32, 50, 46, 49, 32, 101]
    ensures [40 as byte] + t + [41 as byte]
      == [40, 43, 32, 40, 40, 41, 32, 52, 50, 32, 40, 101, 41, 32, 35, 84, 41, 32, 35, 70, 32, 50, 46, 49, 32, 101, 41]
  {
  }

  /** The elements of the outer list, `+ (() 42 (e) #T) #F 2.1 e`. */
  lemma MixedItems(names: seq<seq<byte>>, fl: FloatText, plus: nat, e: nat) returns (t: seq<byte>)
    requires |names| <= NAME_SPAN
    requires plus < |names| && names[plus] == Ascii("+")
    requires e < |names| && names[e] == Ascii("e")
    requires fl.f64(Ascii("2.1")) == Ascii("2.1")
    ensures var xs := Mixed(plus as u32, e as u32).items;
      && ItemsReadable(xs, names, fl) && ItemsPrintable(xs, names)
      && t == ShowItems(xs, names, fl)
    ensures t == [43, 32, 40, 40, 41, 32, 52, 50, 32, 40, 101, 41, 32, 35, 84, 41, 32, 35, 70, 32, 50, 46, 49, 32, 101]
  {
    var lit := FloatLiteral();
    var a := Sym(plus as u32);
    var b := MixedInner(e as u32);
    var c := Bool(false);
    var d := F64(lit);
    var z := Sym(e as u32);
    assert Ascii("+") == [43] && Ascii("e") == [101];
    PlainSymShown(names, fl, plus);
    var tb := InnerItems(names, fl, e);
    ListShown(b.items, names, fl);
    var tc := MixedTail(names, fl, e);
    ConsItem(b, [c, d, z], names, fl);
    ConsItem(a, [b, c, d, z], names, fl);
    Cons4(b, c, d, z);
    Cons5(a, b, c, d, z);
    t := ShowItems(Mixed(plus as u32, e as u32).items, names, fl);
    assert t == [43] + [32] + (([40] + tb + [41]) + [32] + tc);
    MixedGlue(tb, tc);
  }

  /** The last three elements of the outer list, `#F 2.1 e`. */
  lemma MixedTail(names: seq<seq<byte>>, fl: FloatText, e: nat) returns (t: seq<byte>)
    requires e < |names| <= NAME_SPAN && names[e] == [101]
    requires fl.f64(Ascii("2.1")) == Ascii("2.1")
    ensures var xs := [Bool(false), F64(Ascii("2.1")), Sym(e as u32)];
      && ItemsReadable(xs, names, fl) && ItemsPrintable(xs, names)
      && t == ShowItems(xs, names, fl)
    ensures t == [35, 70, 32, 50, 46, 49, 32, 101]
  {
    var lit := FloatLiteral();
    var c := Bool(false);
    var d := F64(lit);
    var z := Sym(e as u32);
    assert PlainToken([101]);
    PlainSymShown(names, fl, e);
    assert Show(d, names, fl) == lit;
    OneItem(z, names, fl);
    ConsItem(d, [z], names, fl);
    ConsItem(c, [d, z], names, fl);
    Cons2(d, z);
    Cons3(c, d, z);
    t := ShowItems([c, d, z], names, fl);
    assert t == [35, 70] + [32] + (lit + [32] + [101]);
    MixedTailGlue(lit);
  }

  lemma MixedTailGlue(lit: seq<byte>)
    requires lit == [50, 46, 49]
    ensures [35 as byte, 70] + [32] + (lit + [32] + [101]) == [35, 70, 32, 50, 46, 49, 32, 101]
  {
  }

  lemma MixedGlue(tb: seq<byte>, tc: seq<byte>)
    requires tb == [40, 41, 32, 52, 50, 32, 40, 101, 41, 32, 35, 84] && tc == [35, 70, 32, 50, 46, 49, 32, 101]
    ensures [43] + [32] + (([40] + tb + [41]) + [32] + tc)
      == [43, 32, 40, 40, 41, 32, 52, 50, 32, 40, 101, 41, 32, 35, 84, 41, 32, 35, 70, 32, 50, 46, 49, 32, 101]
  {
  }

  /** The elements of the inner list, `() 42 (e) #T`. */
  lemma InnerItems(names: seq<seq<byte>>, fl: FloatText, e: nat) returns (t: seq<byte>)
    requires e < |names| <= NAME_SPAN && names[e] == [101]
    ensures var xs := MixedInner(e as u32).items;
      && ItemsReadable(xs, names, fl) && ItemsPrintable(xs, names)
      && t == ShowItems(xs, names, fl)
    ensures t == [40, 41, 32, 52, 50, 32, 40, 101, 41, 32, 35, 84]
  {
    var a := EMPTY;
    var b := I64(42);
    var c := List([Sym(e as u32)]);
    var d := Bool(true);
    EmptyShown(names, fl);
    FortyTwo();
    var tc := InnerTail(names, fl, e);
    ConsItem(b, [c, d], names, fl);
    ConsItem(a, [b, c, d], names, fl);
    Cons3(b, c, d);
    Cons4(a, b, c, d);
    t := ShowItems(MixedInner(e as u32).items, names, fl);
    assert t == [40, 41] + [32] + ([52, 50] + [32] + tc);
    InnerGlue(tc);
  }

  /** The last two elements of the inner list, `(e) #T`. */
  lemma InnerTail(names: seq<seq<byte>>, fl: FloatText, e: nat) returns (t: seq<byte>)
    requires e < |names| <= NAME_SPAN && names[e] == [101]
    ensures var xs := [List([Sym(e as u32)]), Bool(true)];
      && ItemsReadable(xs, names, fl) && ItemsPrintable(xs, names)
      && t == ShowItems(xs, names, fl)
    ensures t == [40, 101, 41, 32, 35, 84]
  {
    var z := Sym(e as u32);
    var c := List([z]);
    var d := Bool(true);
    assert PlainToken([101]);
    PlainSymShown(names, fl, e);
    WrapShown(z, names, fl);
    OneItem(d, names, fl);
    ConsItem(c, [d], names, fl);
    Cons2(c, d);
    t := ShowItems([c, d], names, fl);
    assert t == [40, 101, 41] + [32] + [35, 84];
    InnerTailGlue();
  }

  lemma InnerTailGlue()
    ensures [40 as byte, 101, 41] + [32] + [35, 84] == [40, 101, 41, 32, 35, 84]
  {
  }


  lemma InnerGlue(tc: seq<byte>)
    requires tc == [40, 101, 41, 32, 35, 84]
    ensures [40 as byte, 41] + [32] + ([52, 50] + [32] + tc) == [40, 41, 32, 52, 50, 32, 40, 101, 41, 32, 35, 84]
  {
  }


  lemma FortyTwo()
    ensures DecimalText(42) == [52, 50]
  {
    assert Digits(42) == Digits(4) + [DigitByte(2)];
  }

  /** `2.1` is a float literal the number reader gives back as itself. */
  lemma FloatLiteral() returns (lit: seq<byte>)
    ensures lit == Ascii("2.1") && lit == [50, 46, 49]
    ensures FloatToken(lit)
  {
    lit := Ascii("2.1");
    assert lit == [50, 46, 49];
    assert !AllDigits(lit) by {
      assert !IsDigit(lit[1]);
    }
    assert ParseI64(lit) == None;
    assert IsDecimal(lit);
  }

  /** `((1 2 3 4) ;Comment\n5)`: the comment is skipped, and the result
      prints as `((1 2 3 4) 5)`. */
  lemma CommentSkipped(names: seq<seq<byte>>, fl: FloatText)
    requires Distinct(names) && |names| + 22 <= NAME_SPAN
    ensures Parse(Ascii("((1 2 3 4) ;Comment\n5)"), false, names) == Done(COMMENTED, 22, names)
    ensures Printable(COMMENTED, names) && Show(COMMENTED, names, fl) == Ascii("((1 2 3 4) 5)")
  {
    var s := CommentAscii();
    CommentItems(s, names, fl);
    ReadOpenAt(s, 0, names);
    CommentShown(names, fl);
  }

  /** The elements of the outer list, read from after its `(`. */
  lemma CommentItems(s: seq<byte>, names: seq<seq<byte>>, fl: FloatText)
    requires s == [40, 40, 49, 32, 50, 32, 51, 32, 52, 41, 32, 59, 67, 111, 109, 109, 101, 110, 116, 10, 53, 41]
    requires Distinct(names) && |names| + 22 <= NAME_SPAN
    ensures ReadItems(s, 1, names, ')' as byte) == Done(COMMENTED.items, 22, names)
  {
    var inner := List([I64(1), I64(2), I64(3), I64(4)]);
    CommentInner(s, names, fl, inner);
    CommentRest(s, names);
    assert ItemStart(s, 1, names, ')' as byte);
    ItemsThen(s, 1, names, ')' as byte, inner, 10, names, [I64(5)], 22, names);
    Cons2(inner, I64(5));
  }

  const COMMENTED: Value := List([List([I64(1), I64(2), I64(3), I64(4)]), I64(5)])

  lemma CommentAscii() returns (s: seq<byte>)
    ensures s == Ascii("((1 2 3 4) ;Comment\n5)")
    ensures s == [40, 40, 49, 32, 50, 32, 51, 32, 52, 41, 32, 59, 67, 111, 109, 109, 101, 110, 116, 10, 53, 41]
  {
    s := Ascii("((1 2 3 4) ;Comment\n5)");
  }

  /** After the inner list: a blank, the comment up to its line feed, then
      `5)`. */
  lemma CommentRest(s: seq<byte>, names: seq<seq<byte>>)
    requires s == [40, 40, 49, 32, 50, 32, 51, 32, 52, 41, 32, 59, 67, 111, 109, 109, 101, 110, 116, 10, 53, 41]
    requires Distinct(names) && |names| + 22 <= NAME_SPAN
    ensures ReadItems(s, 10, names, ')' as byte) == Done([I64(5)], 22, names)
  {
    CommentTail(s, names);
    CommentGap(s, names);
  }

  lemma CommentTail(s: seq<byte>, names: seq<seq<byte>>)
    requires s == [40, 40, 49, 32, 50, 32, 51, 32, 52, 41, 32, 59, 67, 111, 109, 109, 101, 110, 116, 10, 53, 41]
    requires |names| + 22 <= NAME_SPAN
    ensures ReadItems(s, 20, names, ')' as byte) == Done([I64(5)], 22, names)
  {
    DigitAt(s, 20, names);
    assert ItemStart(s, 20, names, ')' as byte);
    ItemsLast(s, 20, names, ')' as byte, I64(5), 21);
  }

  lemma CommentGap(s: seq<byte>, names: seq<seq<byte>>)
    requires s == [40, 40, 49, 32, 50, 32, 51, 32, 52, 41, 32, 59, 67, 111, 109, 109, 101, 110, 116, 10, 53, 41]
    requires |names| + 22 <= NAME_SPAN
    ensures ReadItems(s, 10, names, ')' as byte) == ReadItems(s, 20, names, ')' as byte)
  {
    LineFeedAt(s, 11, 19);
    ItemsComment(s, 11, 19, names, ')' as byte);
    ItemsBlank(s, 10, names, ')' as byte);
  }

  /** The first line feed from `p` on is at `q`. */
  lemma LineFeedAt(s: seq<byte>, p: nat, q: nat)
    requires p <= q < |s| && s[q] == '\n' as byte
    requires forall i :: p <= i < q ==> s[i] != '\n' as byte
    ensures FindByte(s, p, '\n' as byte) == q
    decreases q - p
  {
    if p < q {
      LineFeedAt(s, p + 1, q);
    }
  }

  /** A blank between elements is skipped. */
  lemma ItemsBlank(s: seq<byte>, p: nat, names: seq<seq<byte>>, close: byte)
    requires Fits(names, s, p) && p < |s| && IsWhitespace(s[p]) && s[p] != close
    ensures ReadItems(s, p, names, close) == ReadItems(s, p + 1, names, close)
  {
  }

  /** A comment between elements is skipped up to its line feed at `q`. */
  lemma ItemsComment(s: seq<byte>, p: nat, q: nat, names: seq<seq<byte>>, close: byte)
    requires Fits(names, s, p) && p < |s| && s[p] == ';' as byte && s[p] != close
    requires FindByte(s, p, '\n' as byte) == q && q < |s|
    ensures ReadItems(s, p, names, close) == ReadItems(s, q + 1, names, close)
  {
  }

  /** One element read at `p`, then the rest of the sequence from `q`,
      with the table as the element left it. */
  lemma ItemsThen(s: seq<byte>, p: nat, names: seq<seq<byte>>, close: byte, x: Value, q: nat,
                  n: seq<seq<byte>>, xs: seq<Value>, r: nat, n': seq<seq<byte>>)
    requires ItemStart(s, p, names, close)
    requires ReadValue(s, p, names) == Done(x, q, n)
    requires ReadItems(s, q, n, close) == Done(xs, r, n')
    ensures ReadItems(s, p, names, close) == Done([x] + xs, r, n')
  {
  }

  lemma CommentInner(s: seq<byte>, names: seq<seq<byte>>, fl: FloatText, inner: Value)
    requires s == [40, 40, 49, 32, 50, 32, 51, 32, 52, 41, 32, 59, 67, 111, 109, 109, 101, 110, 116, 10, 53, 41]
    requires Distinct(names) && |names| + 22 <= NAME_SPAN
    requires inner == List([I64(1), I64(2), I64(3), I64(4)])
    ensures ReadValue(s, 1, names) == Done(inner, 10, names)
  {
    var t := InnerListText(names, fl);
    InnerSlice(s, t);
    assert ShownForm(inner, names, fl, s, 1);
    ReadShown(inner, names, fl, s, 1);
  }

  lemma InnerSlice(s: seq<byte>, t: seq<byte>)
    requires s == [40, 40, 49, 32, 50, 32, 51, 32, 52, 41, 32, 59, 67, 111, 109, 109, 101, 110, 116, 10, 53, 41]
    requires t == [40, 49, 32, 50, 32, 51, 32, 52, 41]
    ensures Shown(s, 1, t) && IsDelimiter(s[1 + |t|])
  {
    assert s[1..10] == t;
  }

  /** `(1 2 3 4)` reads back and prints as itself. */
  lemma InnerListText(names: seq<seq<byte>>, fl: FloatText) returns (t: seq<byte>)
    ensures var v := List([I64(1), I64(2), I64(3), I64(4)]);
      && Readable(v, names, fl) && Printable(v, names)
      && t == Show(v, names, fl)
    ensures t == [40, 49, 32, 50, 32, 51, 32, 52, 41]
  {
    Small(names, fl);
    var a, b, c, d := I64(1), I64(2), I64(3), I64(4);
    OneItem(d, names, fl);
    ConsItem(c, [d], names, fl);
    ConsItem(b, [c, d], names, fl);
    ConsItem(a, [b, c, d], names, fl);
    Cons2(c, d);
    Cons3(b, c, d);
    Cons4(a, b, c, d);
    ListShown([a, b, c, d], names, fl);
    t := Show(List([a, b, c, d]), names, fl);
    assert t == [40] + ([49] + [32] + ([50] + [32] + ([51] + [32] + [52]))) + [41];
    InnerListGlue();
  }

  lemma InnerListGlue()
    ensures [40 as byte] + ([49] + [32] + ([50] + [32] + ([51] + [32] + [52]))) + [41]
      == [40, 49, 32, 50, 32, 51, 32, 52, 41]
  {
  }

  /** The one-digit integers used here print as their digit. */
  lemma Small(names: seq<seq<byte>>, fl: FloatText)
    ensures Show(I64(1), names, fl) == [49] && Show(I64(2), names, fl) == [50]
    ensures Show(I64(3), names, fl) == [51] && Show(I64(4), names, fl) == [52]
    ensures Show(I64(5), names, fl) == [53]
    ensures forall n :: 1 <= n <= 5 ==> Readable(I64(n), names, fl) && Printable(I64(n), names)
  {
  }

  /** `((1 2 3 4) 5)`, the printed result. */
  lemma CommentShown(names: seq<seq<byte>>, fl: FloatText)
    ensures Readable(COMMENTED, names, fl) && Printable(COMMENTED, names)
    ensures Show(COMMENTED, names, fl) == Ascii("((1 2 3 4) 5)")
  {
    Small(names, fl);
    var t := InnerListText(names, fl);
    var inner := List([I64(1), I64(2), I64(3), I64(4)]);
    OneItem(I64(5), names, fl);
    ConsItem(inner, [I64(5)], names, fl);
    Cons2(inner, I64(5));
    ListShown(COMMENTED.items, names, fl);
    assert Show(COMMENTED, names, fl) == [40] + (t + [32] + [53]) + [41];
    CommentGlue(t);
  }

  lemma CommentGlue(t: seq<byte>)
    requires t == [40, 49, 32, 50, 32, 51, 32, 52, 41]
    ensures [40] + (t + [32] + [53]) + [41] == Ascii("((1 2 3 4) 5)")
  {
    assert Ascii("((1 2 3 4) 5)") == [40, 40, 49, 32, 50, 32, 51, 32, 52, 41, 32, 53, 41];
  }

  // ---------------------------------------------------------------------
  // What the reader does with single tokens

  /** A digit that a delimiter or the end of the input follows is read
      as that one-digit integer. */
  lemma DigitAt(s: seq<byte>, p: nat, names: seq<seq<byte>>)
    requires Fits(names, s, p) && p < |s| && IsDigit(s[p])
    requires p + 1 < |s| ==> IsDelimiter(s[p + 1])
    ensures ReadValue(s, p, names) == Done(I64(DigitValue(s[p])), p + 1, names)
  {
    ReadDigitAt(s, p, names);
    DigitScan(s, p);
    OneDigit(s[p]);
  }

  lemma DigitScan(s: seq<byte>, p: nat)
    requires p < |s| && IsDigit(s[p])
    requires p + 1 < |s| ==> IsDelimiter(s[p + 1])
    ensures Scan(s, p, NumberKind, []) == Ok(([s[p]], p + 1))
  {
    assert TokenEnd(s, p) == p + 1;
    assert s[p..p + 1] == [s[p]] && [] + [s[p]] == [s[p]];
  }

  lemma OneDigit(c: byte)
    requires IsDigit(c)
    ensures ParseI64([c]) == Some(DigitValue(c))
  {
    var t := [c];
    assert t[..0] == [] && !IsSign(t[0]) && AllDigits(t);
    assert DigitsValue(t) == DigitValue(c);
  }

  /** `parse` reads one form and ignores what follows it. */
  lemma TrailingIgnored(names: seq<seq<byte>>)
    requires |names| + 3 <= NAME_SPAN
    ensures Parse(Ascii("1 )"), false, names) == Done(I64(1), 1, names)
  {
    var s := Ascii("1 )");
    assert s == [49, 32, 41];
    DigitAt(s, 0, names);
  }

  /** `#T` and `#f` are the booleans, in either case. */
  lemma Booleans(names: seq<seq<byte>>)
    requires |names| + 2 <= NAME_SPAN
    ensures Parse(Ascii("#T"), false, names) == Done(Bool(true), 2, names)
    ensures Parse(Ascii("#f"), false, names) == Done(Bool(false), 2, names)
  {
    assert Ascii("#T") == [35, 84];
    assert Ascii("#f") == [35, 102];
  }

  /** An explicit `+`, leading zeros and a negative zero are all `i64`
      text: `+5`, `007` and `-0` read as 5, 7 and 0. */
  lemma SignedAndPadded(names: seq<seq<byte>>)
    requires |names| + 3 <= NAME_SPAN
    ensures Parse(Ascii("+5"), false, names) == Done(I64(5), 2, names)
    ensures Parse(Ascii("007"), false, names) == Done(I64(7), 3, names)
    ensures Parse(Ascii("-0"), false, names) == Done(I64(0), 2, names)
  {
    PlusFive(names);
    PaddedSeven(names);
    MinusZero(names);
  }

  lemma PlusFive(names: seq<seq<byte>>)
    requires |names| + 2 <= NAME_SPAN
    ensures Parse(Ascii("+5"), false, names) == Done(I64(5), 2, names)
  {
    assert Ascii("+5") == [43, 53];
    SignedDigit([43, 53], names);
  }

  lemma MinusZero(names: seq<seq<byte>>)
    requires |names| + 2 <= NAME_SPAN
    ensures Parse(Ascii("-0"), false, names) == Done(I64(0), 2, names)
  {
    assert Ascii("-0") == [45, 48];
    SignedDigit([45, 48], names);
  }

  lemma PaddedSeven(names: seq<seq<byte>>)
    requires |names| + 3 <= NAME_SPAN
    ensures Parse(Ascii("007"), false, names) == Done(I64(7), 3, names)
  {
    assert Ascii("007") == [48, 48, 55];
    PaddedDigits([48, 48, 55], names);
  }

  /** A sign and one digit that make up the whole input. */
  lemma SignedDigit(s: seq<byte>, names: seq<seq<byte>>)
    requires |s| == 2 && IsSign(s[0]) && IsDigit(s[1]) && |names| + 2 <= NAME_SPAN
    ensures var d := DigitValue(s[1]) as int;
      Parse(s, false, names) == Done(I64(if s[0] == '-' as byte then -d else d), 2, names)
  {
    var d := DigitValue(s[1]) as int;
    var n := if s[0] == '-' as byte then -d else d;
    assert ParseI64(s) == Some(n) by {
      assert s == [s[0]] + [s[1]];
      assert [s[1]][..0] == [];
      assert DigitsValue([s[1]]) == d;
      assert ([s[0]] == ['-' as byte]) == (s[0] == '-' as byte);
      ParseI64Accepts([s[0]], [s[1]]);
    }
    assert Shown(s, 0, s);
    TokenEndAt(s, 0, s);
    assert TokenAt(s, 0) == s;
    assert AllIn(s, NumberKind) by {
      assert InKind(s[0], NumberKind) && InKind(s[1], NumberKind);
    }
    ReadSignLead(s, 0, names);
  }

  lemma PaddedDigits(s: seq<byte>, names: seq<seq<byte>>)
    requires s == [48, 48, 55] && |names| + 3 <= NAME_SPAN
    ensures Parse(s, false, names) == Done(I64(7), 3, names)
  {
    assert ParseI64(s) == Some(7) by {
      assert s[..2] == [48, 48] && s[..2][..1] == [48] && s[..2][..1][..0] == [];
      assert DigitsValue([48]) == 0;
      assert DigitsValue([48, 48]) == 0;
      assert DigitsValue(s) == 7;
      assert [] + s == s;
      ParseI64Accepts([], s);
    }
    assert Shown(s, 0, s);
    TokenEndAt(s, 0, s);
    assert TokenAt(s, 0) == s;
    assert AllIn(s, NumberKind) by {
      assert InKind(s[0], NumberKind) && InKind(s[1], NumberKind) && InKind(s[2], NumberKind);
    }
    ReadNumberLead(s, 0, names);
  }

  /** The decimal text of an integer outside the `i64` range is read as
      a float with that text, not rejected. */
  lemma PastRangeIsFloat(n: int, names: seq<seq<byte>>)
    requires !IsI64(n) && |names| + |DecimalText(n)| <= NAME_SPAN
    ensures var t := DecimalText(n);
      Parse(t, false, names) == Done(F64(t), |t|, names)
  {
    var t := DecimalText(n);
    PastRangeNumber(n);
    assert t[0..|t|] == t;
    assert NumberAt(t, 0, t, names);
    ReadNumberShown(t, 0, t, names, F64(t));
  }

  /** `process_num` of such a text: no `i64`, but `f64` syntax. */
  lemma PastRangeNumber(n: int)
    requires !IsI64(n)
    ensures ProcessNum(DecimalText(n)) == Ok(F64(DecimalText(n)))
  {
    var t := DecimalText(n);
    var digits := if n < 0 then t[1..] else t;
    DigitsValueOfDigits(if n < 0 then -n else n);
    assert digits == Digits(if n < 0 then -n else n);
    DigitsAreFloat(digits);
  }

  /** `'5` is the list `(quote 5)`. */
  lemma QuoteSugar(names: seq<seq<byte>>)
    requires |names| + 2 <= NAME_SPAN
    ensures Parse(Ascii("'5"), false, names) == Done(List([Sym(SP_QUOTE.0), I64(5)]), 2, names)
  {
    var s := Ascii("'5");
    assert s == [39, 53];
    DigitAt(s, 1, names);
  }

  /** `:go` is the keyword of the interned text `go`. */
  lemma KeywordSymbol(names: seq<seq<byte>>)
    requires |names| + 3 <= NAME_SPAN
    ensures var (id, names') := Intern(names, Ascii("go"));
      Parse(Ascii(":go"), false, names) == Done(Sym(Modeize(id as u32, Keyword)), 3, names')
  {
    var s := Ascii(":go");
    assert s == [58, 103, 111];
    assert Ascii("go") == s[1..];
    assert TokenEnd(s, 1) == 3;
    assert [] + s[1..3] == s[1..];
    assert Scan(s, 1, SigilKind(Keyword), []) == Ok((s[1..], 3));
  }

  // ---------------------------------------------------------------------
  // Errors

  /** Input with no form at all is an unexpected end: empty, blank, or a
      comment with no line feed. */
  lemma NoForm(names: seq<seq<byte>>)
    requires |names| + 4 <= NAME_SPAN
    ensures Parse([], false, names) == Fail(ParseUnexpectedEnd)
    ensures Parse(Ascii(" \n\t"), false, names) == Fail(ParseUnexpectedEnd)
    ensures Parse(Ascii("; x"), false, names) == Fail(ParseUnexpectedEnd)
  {
    assert Ascii(" \n\t") == [32, 10, 9];
    assert Ascii("; x") == [59, 32, 120];
  }

  /** `(1 2`: a list cut off before its `)` is an unexpected end. */
  lemma UnclosedList(names: seq<seq<byte>>)
    requires |names| + 4 <= NAME_SPAN
    ensures Parse(Ascii("(1 2"), false, names) == Fail(ParseUnexpectedEnd)
  {
    var s := Ascii("(1 2");
    assert s == [40, 49, 32, 50];
    ReadOpenAt(s, 0, names);
    DigitAt(s, 1, names);
    DigitAt(s, 3, names);
    assert ReadItems(s, 4, names, ')' as byte) == Fail(ParseUnexpectedEnd);
    assert ReadItems(s, 3, names, ')' as byte) == Fail(ParseUnexpectedEnd);
    ItemsBlank(s, 2, names, ')' as byte);
    assert ReadItems(s, 1, names, ')' as byte) == Fail(ParseUnexpectedEnd);
  }

  /** So is a map or a string cut off before its `}` or `"`. */
  lemma UnclosedMapString(names: seq<seq<byte>>)
    requires |names| + 3 <= NAME_SPAN
    ensures Parse(Ascii("{1"), false, names) == Fail(ParseUnexpectedEnd)
    ensures Parse(Ascii("\"ab"), false, names) == Fail(ParseUnexpectedEnd)
  {
    UnclosedMap(names);
    UnclosedString(names);
  }

  lemma UnclosedMap(names: seq<seq<byte>>)
    requires |names| + 3 <= NAME_SPAN
    ensures Parse(Ascii("{1"), false, names) == Fail(ParseUnexpectedEnd)
  {
    var s := Ascii("{1");
    assert s == [123, 49];
    DigitAt(s, 1, names);
    assert ReadValue(s, 2, names) == Fail(ParseUnexpectedEnd);
    assert ReadPairs(s, 1, names) == Fail(ParseUnexpectedEnd);
    assert SkipBlank(s, 0) == Ok(0) && LeadOf(s[0]) == MapLead;
  }

  lemma UnclosedString(names: seq<seq<byte>>)
    requires |names| + 3 <= NAME_SPAN
    ensures Parse(Ascii("\"ab"), false, names) == Fail(ParseUnexpectedEnd)
  {
    var t := Ascii("\"ab");
    assert t == [34, 97, 98];
    ReadQuoteAt(t, 0, names);
    assert FindByte(t, 1, '"' as byte) == 3;
  }

  /** A map whose last key has no value hits the `}` where the value
      should start, which is an invalid character. */
  lemma OddMap(names: seq<seq<byte>>)
    requires |names| + 3 <= NAME_SPAN
    ensures Parse(Ascii("{1}"), false, names) == Fail(ParseInvalidChar)
  {
    var s := Ascii("{1}");
    assert s == [123, 49, 125];
    OddPairs(s, names);
    assert SkipBlank(s, 0) == Ok(0) && LeadOf(s[0]) == MapLead;
  }

  lemma OddPairs(s: seq<byte>, names: seq<seq<byte>>)
    requires s == [123, 49, 125] && |names| + 3 <= NAME_SPAN
    ensures ReadPairs(s, 1, names) == Fail(ParseInvalidChar)
  {
    DigitAt(s, 1, names);
    NoLeadAt(s, 2, names);
  }

  /** A byte that leads no form where a form should start. */
  lemma NoLeadAt(s: seq<byte>, p: nat, names: seq<seq<byte>>)
    requires Fits(names, s, p) && p < |s| && LeadOf(s[p]) == NoLead
    requires !IsWhitespace(s[p]) && s[p] != ';' as byte
    ensures ReadValue(s, p, names) == Fail(ParseInvalidChar)
  {
    assert SkipBlank(s, p) == Ok(p);
  }

  /** `#` with nothing after it is an unexpected end; any other `#` token
      than the booleans is a bad special. */
  lemma Specials(names: seq<seq<byte>>)
    requires |names| + 3 <= NAME_SPAN
    ensures Parse(Ascii("#"), false, names) == Fail(ParseUnexpectedEnd)
    ensures Parse(Ascii("#Q"), false, names) == Fail(ParseBadSpecial)
    ensures Parse(Ascii("#TT"), false, names) == Fail(ParseBadSpecial)
  {
    assert Ascii("#") == [35];
    assert Ascii("#Q") == [35, 81];
    assert Ascii("#TT") == [35, 84, 84];
  }

  /** A sign at the very end of the input is an unexpected end; so is a
      sigil with no name after it. */
  lemma CutTokens(names: seq<seq<byte>>)
    requires |names| + 1 <= NAME_SPAN
    ensures Parse(Ascii("+"), false, names) == Fail(ParseUnexpectedEnd)
    ensures Parse(Ascii(":"), false, names) == Fail(ParseUnexpectedEnd)
  {
    assert Ascii("+") == [43];
    assert Ascii(":") == [58];
  }

  /** A form may not start with a byte outside the leads, nor may a token
      hold a byte outside its class. */
  lemma InvalidChars(names: seq<seq<byte>>)
    requires |names| + 3 <= NAME_SPAN
    ensures Parse(Ascii("`"), false, names) == Fail(ParseInvalidChar)
    ensures Parse(Ascii("1("), false, names) == Fail(ParseInvalidChar)
    ensures Parse(Ascii(":a."), false, names) == Fail(ParseInvalidChar)
  {
    BadLead(names);
    BadNumberByte(names);
    BadKeywordByte(names);
  }

  lemma BadLead(names: seq<seq<byte>>)
    requires |names| + 3 <= NAME_SPAN
    ensures Parse(Ascii("`"), false, names) == Fail(ParseInvalidChar)
  {
    var s := Ascii("`");
    assert s == [96];
    NoLeadAt(s, 0, names);
  }

  lemma BadNumberByte(names: seq<seq<byte>>)
    requires |names| + 3 <= NAME_SPAN
    ensures Parse(Ascii("1("), false, names) == Fail(ParseInvalidChar)
  {
    var t := Ascii("1(");
    assert t == [49, 40];
    ReadDigitAt(t, 0, names);
    assert Scan(t, 1, NumberKind, [t[0]]) == Err(ParseInvalidChar);
    assert Scan(t, 0, NumberKind, []) == Err(ParseInvalidChar);
  }

  lemma BadKeywordByte(names: seq<seq<byte>>)
    requires |names| + 3 <= NAME_SPAN
    ensures Parse(Ascii(":a."), false, names) == Fail(ParseInvalidChar)
  {
    var u := Ascii(":a.");
    assert u == [58, 97, 46];
    ReadSigilAt(u, 0, Keyword, names);
    assert Scan(u, 2, SigilKind(Keyword), [u[1]]) == Err(ParseInvalidChar);
    assert Scan(u, 1, SigilKind(Keyword), []) == Err(ParseInvalidChar);
  }

  /** A number token that is neither an `i64` nor an `f64` is an invalid
      number. */
  lemma InvalidNumber(names: seq<seq<byte>>)
    requires |names| + 3 <= NAME_SPAN
    ensures Parse(Ascii("12a"), false, names) == Fail(ParseInvalidNum)
  {
    var s := Ascii("12a");
    assert s == [49, 50, 97];
    BadNumber(s);
    assert s[0..|s|] == s;
    assert AllIn(s, NumberKind) by {
      assert InKind(s[0], NumberKind) && InKind(s[1], NumberKind) && InKind(s[2], NumberKind);
    }
    UnsignedToken(s, 0, s, names);
    ReadDigitAt(s, 0, names);
  }

  lemma BadNumber(s: seq<byte>)
    requires s == [49, 50, 97]
    ensures ProcessNum(s) == Err(ParseInvalidNum)
  {
    assert !AllDigits(s) by {
      assert !IsDigit(s[2]);
    }
    assert !F64Syntax(s) by {
      assert DigitRun(s, 0) == 2;
    }
  }

  /** A string whose bytes are not UTF-8 is an invalid string. */
  lemma InvalidString(names: seq<seq<byte>>)
    requires |names| + 3 <= NAME_SPAN
    ensures Parse([34, 0xFF, 34], false, names) == Fail(ParseInvalidString)
  {
    var s: seq<byte> := [34, 0xFF, 34];
    assert FindByte(s, 1, '"' as byte) == 2;
    assert s[1..2] == [0xFF];
  }
}

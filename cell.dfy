/** The header of a heap value and the fields laid out after it: the two
    type slots of the self-typed and predicate-typed escape categories, the
    16-bit payload of an error-code value, and the packed 32-bit float
    vector (`AnyVec` of element type `f32`) the native functions use.

    A value's memory is a byte array indexed from the value's own start.
    Its first `headLen` bytes hold the header whose encoding is not
    modelled; the configuration tag and the two escape flags are read from
    it and are kept here as separate fields. */
module Cells {
  import opened Bytes
  import opened Symbols
  import opened ErrCodes

  /** Width in bytes of a stored symbol (type) id: one `u32`. */
  const SYMBOL_LEN: nat := 4

  /** The built-in configuration tags the object layer distinguishes;
      `Other` stands for every further tag, among them the two escape
      categories. */
  datatype Cfg =
    | Nil | B0BoolF | B0BoolT
    | B1U8 | B1I8 | B2U16 | B2I16 | B2Err
    | B4U32 | B4I32 | B4F32 | B4Sym
    | B8U64 | B8I64 | B8F64 | B8Ptr | B16U128 | B16I128
    | VecStd | VecStr | VecHash | VecAny
    | ProcLambda | ProcNative
    | QueueTx | QueueRx
    | Other

  /** The fixed type id `get_self_type` gives a built-in tag, if it has one.
      Error codes, queue endpoints and `Other` have none. */
  function BuiltinTypeId(cfg: Cfg): (r: Option<u32>)
    ensures r.Some? ==> ModeOf(r.value) == Type && Demodes(r.value) < 31
  {
    match cfg
    case B0BoolF => Some(T_BOOL.0)
    case B0BoolT => Some(T_BOOL.0)
    case B1U8 => Some(T_U8.0)
    case B1I8 => Some(T_I8.0)
    case B2U16 => Some(T_U16.0)
    case B2I16 => Some(T_I16.0)
    case B4U32 => Some(T_U32.0)
    case B4I32 => Some(T_I32.0)
    case B4F32 => Some(T_F32.0)
    case B4Sym => Some(T_SYMBOL.0)
    case B8U64 => Some(T_U64.0)
    case B8I64 => Some(T_I64.0)
    case B8F64 => Some(T_F64.0)
    case B8Ptr => Some(T_REF.0)
    case B16U128 => Some(T_U128.0)
    case B16I128 => Some(T_I128.0)
    case VecStd => Some(T_STDVEC.0)
    case VecStr => Some(T_STRING.0)
    case VecHash => Some(T_HASHVEC.0)
    case VecAny => Some(T_ANYVEC.0)
    case ProcLambda => Some(T_PROC_LAMBDA.0)
    case ProcNative => Some(T_PROC_NATIVE.0)
    case _ => None
  }

  /** A tag whose type is not built in: its type lives in the self-type slot. */
  predicate IsExtended(cfg: Cfg) {
    cfg != Nil && BuiltinTypeId(cfg).None?
  }

  // ---------------------------------------------------------------------
  // Unaligned little-endian loads and stores

  function ReadU16(s: seq<byte>, off: nat): u16
    requires off + 2 <= |s|
  {
    (s[off] as int + 256 * s[off + 1] as int) as u16
  }

  function WriteU16(s: seq<byte>, off: nat, v: u16): (r: seq<byte>)
    requires off + 2 <= |s|
    ensures |r| == |s|
    ensures forall i :: 0 <= i < |s| && !(off <= i < off + 2) ==> r[i] == s[i]
    ensures ReadU16(r, off) == v
  {
    s[off := (v as int % 256) as byte][off + 1 := (v as int / 256) as byte]
  }

  /** Four bytes, least significant first, as one word. */
  function Word(b0: byte, b1: byte, b2: byte, b3: byte): u32 {
    (b0 as int + 256 * b1 as int + 0x1_0000 * b2 as int + 0x100_0000 * b3 as int) as u32
  }

  function ReadU32(s: seq<byte>, off: nat): u32
    requires off + 4 <= |s|
  {
    Word(s[off], s[off + 1], s[off + 2], s[off + 3])
  }

  function WriteU32(s: seq<byte>, off: nat, v: u32): (r: seq<byte>)
    requires off + 4 <= |s|
    ensures |r| == |s|
    ensures forall i :: 0 <= i < |s| && !(off <= i < off + 4) ==> r[i] == s[i]
    ensures ReadU32(r, off) == v
  {
    var x := v as int;
    var q0 := x / 256;
    var q1 := q0 / 256;
    var q2 := q1 / 256;
    assert x == x % 256 + 256 * q0 && q0 == q0 % 256 + 256 * q1 && q1 == q1 % 256 + 256 * q2;
    s[off := (x % 256) as byte]
     [off + 1 := (q0 % 256) as byte]
     [off + 2 := (q1 % 256) as byte]
     [off + 3 := q2 as byte]
  }

  /** A load sees only its own four bytes. */
  lemma ReadU32Frame(s: seq<byte>, t: seq<byte>, off: nat)
    requires off + 4 <= |s| && off + 4 <= |t|
    requires forall i :: off <= i < off + 4 ==> s[i] == t[i]
    ensures ReadU32(s, off) == ReadU32(t, off)
  {
  }

  /** A store leaves every load of a disjoint word unchanged. */
  lemma ReadAfterOtherWrite(s: seq<byte>, off: nat, v: u32, other: nat)
    requires off + 4 <= |s| && other + 4 <= |s|
    requires other + 4 <= off || off + 4 <= other
    ensures ReadU32(WriteU32(s, off, v), other) == ReadU32(s, other)
  {
    ReadU32Frame(WriteU32(s, off, v), s, other);
  }

  /** Storing twice at one offset is storing the second value. */
  lemma WriteU32Twice(s: seq<byte>, off: nat, v: u32, w: u32)
    requires off + 4 <= |s|
    ensures WriteU32(WriteU32(s, off, v), off, w) == WriteU32(s, off, w)
  {
  }

  /** Stores to disjoint words commute. */
  lemma WriteU32Commute(s: seq<byte>, o1: nat, v1: u32, o2: nat, v2: u32)
    requires o1 + 4 <= |s| && o2 + 4 <= |s|
    requires o1 + 4 <= o2 || o2 + 4 <= o1
    ensures WriteU32(WriteU32(s, o1, v1), o2, v2) == WriteU32(WriteU32(s, o2, v2), o1, v1)
  {
    var a := WriteU32(WriteU32(s, o1, v1), o2, v2);
    var b := WriteU32(WriteU32(s, o2, v2), o1, v1);
    assert forall i :: 0 <= i < |s| ==> a[i] == b[i] by {
      forall i | 0 <= i < |s| ensures a[i] == b[i] {
        if o1 <= i < o1 + 4 {
          WriteU32Bytes(s, o1, v1, i);
          WriteU32Bytes(WriteU32(s, o2, v2), o1, v1, i);
        } else if o2 <= i < o2 + 4 {
          WriteU32Bytes(s, o2, v2, i);
          WriteU32Bytes(WriteU32(s, o1, v1), o2, v2, i);
        }
      }
    }
  }

  /** The byte a store puts at `i` depends only on the value and `i - off`. */
  lemma WriteU32Bytes(s: seq<byte>, off: nat, v: u32, i: nat)
    requires off + 4 <= |s| && off <= i < off + 4
    ensures WriteU32(s, off, v)[i] == WriteU32(seq(|s|, _ => 0 as byte), off, v)[i]
  {
  }

  // ---------------------------------------------------------------------
  // The header view and the two type slots

  /** What the object layer reads of one value: its tag, escape flags,
      header length and the bytes of the whole allocation. */
  datatype Header = Header(cfg: Cfg, selfTyped: bool, predTyped: bool,
                           headLen: nat, bytes: seq<byte>)

  /** Offset of the predicate-type slot: right after the self-type slot if
      there is one, otherwise right after the header. */
  function PredOffset(h: Header): nat {
    if h.selfTyped then h.headLen + SYMBOL_LEN else h.headLen
  }

  /** The allocation is long enough for the slots its flags announce. */
  predicate WellFormed(h: Header) {
    && h.headLen <= |h.bytes|
    && (h.selfTyped ==> h.headLen + SYMBOL_LEN <= |h.bytes|)
    && (h.predTyped ==> PredOffset(h) + 4 <= |h.bytes|)
  }

  /** `get_self_type`; for a tag that is neither nil nor built in it
      asserts the self-type flag and loads the slot at `headLen`. */
  function SelfType(h: Header): u32
    requires WellFormed(h)
    requires h.cfg == Nil || BuiltinTypeId(h.cfg).Some? || h.selfTyped
  {
    if h.cfg == Nil then T_NIL.0
    else match BuiltinTypeId(h.cfg)
      case Some(t) => t
      case None => ReadU32(h.bytes, h.headLen)
  }

  /** `get_pred_type`; without a recorded predicate type every value
      belongs to `$t`. */
  function PredType(h: Header): u32
    requires WellFormed(h)
  {
    if h.cfg == Nil then T_NIL.0
    else if h.predTyped then ReadU32(h.bytes, PredOffset(h))
    else T_T.0
  }

  /** The bytes after `set_self_type(h, t)`. */
  function WithSelfType(h: Header, t: u32): (r: Header)
    requires WellFormed(h) && h.selfTyped
    ensures WellFormed(r)
    ensures r.cfg == h.cfg && r.selfTyped == h.selfTyped && r.predTyped == h.predTyped
    ensures r.headLen == h.headLen && |r.bytes| == |h.bytes|
  {
    h.(bytes := WriteU32(h.bytes, h.headLen, t))
  }

  /** The bytes after `set_pred_type(h, t)`. */
  function WithPredType(h: Header, t: u32): (r: Header)
    requires WellFormed(h) && h.predTyped
    ensures WellFormed(r)
    ensures r.cfg == h.cfg && r.selfTyped == h.selfTyped && r.predTyped == h.predTyped
    ensures r.headLen == h.headLen && |r.bytes| == |h.bytes|
  {
    h.(bytes := WriteU32(h.bytes, PredOffset(h), t))
  }

  /** A self-type written to an extended value is the one read back, and
      the predicate type is untouched. */
  lemma SelfTypeSetGet(h: Header, t: u32)
    requires WellFormed(h) && h.selfTyped && IsExtended(h.cfg)
    ensures SelfType(WithSelfType(h, t)) == t
    ensures PredType(WithSelfType(h, t)) == PredType(h)
  {
    if h.predTyped {
      ReadAfterOtherWrite(h.bytes, h.headLen, t, PredOffset(h));
    }
  }

  /** A built-in tag keeps its fixed type id whatever the self-type slot
      holds. */
  lemma BuiltinSelfTypeFixed(h: Header, t: u32)
    requires WellFormed(h) && h.selfTyped && BuiltinTypeId(h.cfg).Some?
    ensures SelfType(WithSelfType(h, t)) == SelfType(h) == BuiltinTypeId(h.cfg).value
  {
  }

  /** A predicate type written is the one read back, and the self type is
      untouched. */
  lemma PredTypeSetGet(h: Header, t: u32)
    requires WellFormed(h) && h.predTyped
    ensures h.cfg != Nil ==> PredType(WithPredType(h, t)) == t
    ensures (h.cfg == Nil || BuiltinTypeId(h.cfg).Some? || h.selfTyped) ==>
              SelfType(WithPredType(h, t)) == SelfType(h)
  {
    if h.selfTyped {
      ReadAfterOtherWrite(h.bytes, PredOffset(h), t, h.headLen);
    }
  }

  /** The two slots are independent: the order of the two stores does not
      matter, and a second store to one slot overrides the first. */
  lemma TypeSlotsIndependent(h: Header, a: u32, b: u32)
    requires WellFormed(h) && h.selfTyped && h.predTyped
    ensures WithPredType(WithSelfType(h, a), b) == WithSelfType(WithPredType(h, b), a)
    ensures WithSelfType(WithSelfType(h, a), b) == WithSelfType(h, b)
    ensures WithPredType(WithPredType(h, a), b) == WithPredType(h, b)
  {
    WriteU32Commute(h.bytes, h.headLen, a, PredOffset(h), b);
    WriteU32Twice(h.bytes, h.headLen, a, b);
    WriteU32Twice(h.bytes, PredOffset(h), a, b);
  }

  // ---------------------------------------------------------------------
  // Error-code values: a 16-bit payload at offset 0

  /** What `coretypck!(loc ; ErrCode)` admits: a plain error-code value
      with room for its payload. */
  predicate IsErrCode(h: Header) {
    h.cfg == B2Err && !h.selfTyped && !h.predTyped && h.headLen + 2 <= |h.bytes|
  }

  /** An error-code value whose payload decodes. */
  predicate HoldsCode(h: Header) {
    IsErrCode(h) && TryFrom(ReadU16(h.bytes, h.headLen)).Ok?
  }

  /** `errcode_get`: decode the payload; `unwrap` fails its contract on a
      payload that is no code. */
  function ErrcodeGet(h: Header): (e: SlErrCode)
    requires HoldsCode(h)
    ensures Code(e) == ReadU16(h.bytes, h.headLen)
  {
    TryFrom(ReadU16(h.bytes, h.headLen)).value
  }

  /** The bytes after `errcode_set(h, e)`: the code is what is read back. */
  function WithErrcode(h: Header, e: SlErrCode): (r: Header)
    requires IsErrCode(h)
    ensures HoldsCode(r) && r.cfg == h.cfg && r.headLen == h.headLen
    ensures ErrcodeGet(r) == e
  {
    TryFromCode(e);
    h.(bytes := WriteU16(h.bytes, h.headLen, Code(e)))
  }

  // ---------------------------------------------------------------------
  // The f32 vector of the `vec-f32-*` natives. Its payload is read as
  // 32-bit words: word 0 the element type, 1 the capacity, 2 the length,
  // 3 + i element i (byte offsets 0, 4, 8 and 12 + 4 * i).

  /** The `n` words stored from byte `base` on. */
  function Words(s: seq<byte>, base: nat, n: nat): (r: seq<u32>)
    requires base + 4 * n <= |s|
    ensures |r| == n
  {
    seq(n, i requires 0 <= i < n => ReadU32(s, base + 4 * i))
  }

  /** A store to word `k` changes word `k` of the view and no other. */
  lemma WordsStore(s: seq<byte>, base: nat, n: nat, k: nat, v: u32)
    requires base + 4 * n <= |s| && k < n
    ensures Words(WriteU32(s, base + 4 * k, v), base, n) == Words(s, base, n)[k := v]
  {
    var t := WriteU32(s, base + 4 * k, v);
    forall i | 0 <= i < n
      ensures Words(t, base, n)[i] == Words(s, base, n)[k := v][i]
    {
      if i != k {
        ReadAfterOtherWrite(s, base + 4 * k, v, base + 4 * i);
      }
    }
  }

  /** Every whole word of the payload. */
  function PayloadWords(h: Header): (r: seq<u32>)
    requires h.headLen <= |h.bytes|
    ensures 4 * |r| <= |h.bytes| - h.headLen < 4 * |r| + 4
  {
    Words(h.bytes, h.headLen, (|h.bytes| - h.headLen) / 4)
  }

  /** `core_write_field` of a word at payload offset `4 * k`: word `k` of
      the payload becomes `v`, nothing else changes. */
  function StoreWord(h: Header, k: nat, v: u32): (r: Header)
    requires h.headLen <= |h.bytes| && k < |PayloadWords(h)|
    ensures r.cfg == h.cfg && r.selfTyped == h.selfTyped && r.predTyped == h.predTyped
    ensures r.headLen == h.headLen && |r.bytes| == |h.bytes|
    ensures PayloadWords(r) == PayloadWords(h)[k := v]
  {
    WordsStore(h.bytes, h.headLen, |PayloadWords(h)|, k, v);
    h.(bytes := WriteU32(h.bytes, h.headLen + 4 * k, v))
  }

  /** An `AnyVec` of `f32` whose length is within its capacity and whose
      capacity fits its allocation; the natives assert the tag and the
      element type. */
  predicate IsF32Vec(h: Header) {
    && h.cfg == VecAny && !h.selfTyped && !h.predTyped
    && h.headLen + 12 <= |h.bytes|
    && var w := PayloadWords(h);
       w[0] == T_F32.0 && w[2] <= w[1] && 3 + w[1] as int <= |w|
  }

  function F32Cap(h: Header): nat
    requires IsF32Vec(h)
  {
    PayloadWords(h)[1] as nat
  }

  function F32Len(h: Header): nat
    requires IsF32Vec(h)
  {
    PayloadWords(h)[2] as nat
  }

  /** The stored elements, as raw 32-bit float patterns: the first `len`
      slots. */
  function F32Elems(h: Header): (r: seq<u32>)
    requires IsF32Vec(h)
    ensures |r| == F32Len(h)
  {
    PayloadWords(h)[3..3 + F32Len(h)]
  }

  /** An `i64` index cast `as u32`: two's complement truncation. */
  function TruncU32(n: int): (r: nat)
    ensures r < 0x1_0000_0000
    ensures 0 <= n < 0x1_0000_0000 ==> r == n
  {
    n % 0x1_0000_0000
  }

  predicate IsI64(n: int) {
    -0x8000_0000_0000_0000 <= n < 0x8000_0000_0000_0000
  }

  /** `vec-f32-push`: if there is room, bump the length and store the
      element in the first free slot; otherwise leave the vector as is. */
  function F32Push(h: Header, v: u32): Header
    requires IsF32Vec(h)
  {
    if F32Len(h) < F32Cap(h) then
      StoreWord(StoreWord(h, 2, (F32Len(h) + 1) as u32), 3 + F32Len(h), v)
    else h
  }

  /** `vec-f32-get`; an index at or past the length fails its contract. */
  function F32Get(h: Header, idx: int): u32
    requires IsF32Vec(h) && IsI64(idx) && TruncU32(idx) < F32Len(h)
  {
    PayloadWords(h)[3 + TruncU32(idx)]
  }

  /** `vec-f32-set`; an index at or past the length fails its contract. */
  function F32Set(h: Header, idx: int, v: u32): Header
    requires IsF32Vec(h) && IsI64(idx) && TruncU32(idx) < F32Len(h)
  {
    StoreWord(h, 3 + TruncU32(idx), v)
  }

  /** The capacity and the length are the words at byte offsets 4 and 8. */
  lemma F32Fields(h: Header)
    requires IsF32Vec(h)
    ensures ReadU32(h.bytes, h.headLen + 4) as nat == F32Cap(h)
    ensures ReadU32(h.bytes, h.headLen + 8) as nat == F32Len(h)
  {
    assert PayloadWords(h)[1] == ReadU32(h.bytes, h.headLen + 4 * 1);
    assert PayloadWords(h)[2] == ReadU32(h.bytes, h.headLen + 4 * 2);
  }

  /** A push with room is two word stores: the length, then the slot. */
  lemma F32PushWrites(h: Header, v: u32)
    requires IsF32Vec(h) && F32Len(h) < F32Cap(h)
    ensures var h1 := StoreWord(h, 2, (F32Len(h) + 1) as u32);
      && 3 + F32Len(h) < |PayloadWords(h1)|
      && F32Push(h, v) == StoreWord(h1, 3 + F32Len(h), v)
  {
  }

  /** Push with room appends exactly one element and raises the length by
      one; push on a full vector changes nothing. Capacity never changes. */
  lemma F32PushLaw(h: Header, v: u32)
    requires IsF32Vec(h)
    ensures IsF32Vec(F32Push(h, v)) && F32Cap(F32Push(h, v)) == F32Cap(h)
    ensures F32Len(h) < F32Cap(h) ==>
      F32Len(F32Push(h, v)) == F32Len(h) + 1 && F32Elems(F32Push(h, v)) == F32Elems(h) + [v]
    ensures F32Len(h) == F32Cap(h) ==> F32Push(h, v) == h
  {
    if F32Len(h) < F32Cap(h) {
      var w := PayloadWords(h);
      var len := F32Len(h);
      var w' := w[2 := (len + 1) as u32][3 + len := v];
      assert PayloadWords(F32Push(h, v)) == w';
      assert w'[3..3 + len + 1] == w[3..3 + len] + [v];
    }
  }

  /** Set replaces exactly element `idx mod 2^32` and keeps the shape. */
  lemma F32SetLaw(h: Header, idx: int, v: u32)
    requires IsF32Vec(h) && IsI64(idx) && TruncU32(idx) < F32Len(h)
    ensures IsF32Vec(F32Set(h, idx, v))
    ensures F32Cap(F32Set(h, idx, v)) == F32Cap(h) && F32Len(F32Set(h, idx, v)) == F32Len(h)
    ensures F32Elems(F32Set(h, idx, v)) == F32Elems(h)[TruncU32(idx) := v]
  {
    var w := PayloadWords(h);
    var k := TruncU32(idx);
    assert w[3 + k := v][3..3 + F32Len(h)] == w[3..3 + F32Len(h)][k := v];
  }

  /** What push stores, get returns. */
  lemma F32PushGet(h: Header, v: u32)
    requires IsF32Vec(h) && F32Len(h) < F32Cap(h)
    ensures IsF32Vec(F32Push(h, v)) && F32Len(h) < F32Len(F32Push(h, v))
    ensures F32Get(F32Push(h, v), F32Len(h)) == v
  {
    F32PushLaw(h, v);
  }

  /** Get after set: the new element at the index written, the old one
      elsewhere. */
  lemma F32SetGet(h: Header, idx: int, v: u32, j: int)
    requires IsF32Vec(h) && IsI64(idx) && TruncU32(idx) < F32Len(h)
    requires IsI64(j) && TruncU32(j) < F32Len(h)
    ensures IsF32Vec(F32Set(h, idx, v))
    ensures F32Get(F32Set(h, idx, v), j) == if TruncU32(j) == TruncU32(idx) then v else F32Get(h, j)
  {
  }

  // ---------------------------------------------------------------------
  // A value in memory

  /** One allocated value. Its tag, flags and header length are fixed when
      it is allocated; the bytes after the header are updated in place. */
  class Cell {
    const cfg: Cfg
    const selfTyped: bool
    const predTyped: bool
    const headLen: nat
    const bytes: array<byte>

    function View(): Header
      reads bytes
    {
      Header(cfg, selfTyped, predTyped, headLen, bytes[..])
    }

    /** `memmgt::alloc`: a fresh block of `headLen + size` bytes with the
        given tag; the payload starts zeroed here, the model promises no
        more about it. */
    constructor (cfg: Cfg, selfTyped: bool, predTyped: bool, headLen: nat, size: nat)
      ensures View().cfg == cfg && View().selfTyped == selfTyped && View().predTyped == predTyped
      ensures View().headLen == headLen && |View().bytes| == headLen + size
      ensures fresh(bytes)
    {
      this.cfg := cfg;
      this.selfTyped := selfTyped;
      this.predTyped := predTyped;
      this.headLen := headLen;
      this.bytes := new byte[headLen + size];
    }

    /** An unaligned 32-bit store. */
    method StoreU32(off: nat, v: u32)
      requires off + 4 <= bytes.Length
      modifies bytes
      ensures bytes[..] == WriteU32(old(bytes[..]), off, v)
    {
      var x := v as int;
      var q0 := x / 256;
      var q1 := q0 / 256;
      var q2 := q1 / 256;
      bytes[off] := (x % 256) as byte;
      bytes[off + 1] := (q0 % 256) as byte;
      bytes[off + 2] := (q1 % 256) as byte;
      bytes[off + 3] := q2 as byte;
    }

    /** An unaligned 16-bit store. */
    method StoreU16(off: nat, v: u16)
      requires off + 2 <= bytes.Length
      modifies bytes
      ensures bytes[..] == WriteU16(old(bytes[..]), off, v)
    {
      bytes[off] := (v as int % 256) as byte;
      bytes[off + 1] := (v as int / 256) as byte;
    }

    /** `set_self_type`: asserts the self-type flag, stores at `HEAD_LEN`. */
    method SetSelfType(t: u32)
      requires WellFormed(View()) && selfTyped
      modifies bytes
      ensures View() == WithSelfType(old(View()), t)
    {
      StoreU32(headLen, t);
    }

    /** `set_pred_type`: asserts the predicate-type flag, stores after the
        self-type slot when there is one. */
    method SetPredType(t: u32)
      requires WellFormed(View()) && predTyped
      modifies bytes
      ensures View() == WithPredType(old(View()), t)
    {
      StoreU32(if selfTyped then headLen + SYMBOL_LEN else headLen, t);
    }

    /** `errcode_set`. */
    method ErrcodeSet(e: SlErrCode)
      requires IsErrCode(View())
      modifies bytes
      ensures View() == WithErrcode(old(View()), e)
    {
      StoreU16(headLen, Code(e));
    }

    /** `errcode_init`: a fresh two-byte error-code value holding `e`. */
    static method ErrcodeInit(headLen: nat, e: SlErrCode) returns (c: Cell)
      ensures fresh(c.bytes) && HoldsCode(c.View()) && ErrcodeGet(c.View()) == e
    {
      c := new Cell(B2Err, false, false, headLen, 2);
      c.StoreU16(headLen, Code(e));
      TryFromCode(e);
    }

    /** `errcode_make`: a fresh error-code value holding code 0. */
    static method ErrcodeMake(headLen: nat) returns (c: Cell)
      ensures fresh(c.bytes) && HoldsCode(c.View()) && ErrcodeGet(c.View()) == ErrorUnknown
    {
      c := new Cell(B2Err, false, false, headLen, 2);
      c.StoreU16(headLen, 0);
    }

    /** `vec-f32-make`: an empty f32 vector of capacity 8. */
    static method VecF32Make(headLen: nat) returns (c: Cell)
      ensures fresh(c.bytes) && IsF32Vec(c.View())
      ensures F32Cap(c.View()) == 8 && F32Elems(c.View()) == []
    {
      c := new Cell(VecAny, false, false, headLen, 12 + 4 * 8);
      ghost var w := PayloadWords(c.View());
      c.WriteWord(0, T_F32.0);
      ghost var w0 := PayloadWords(c.View());
      assert w0 == w[0 := T_F32.0];
      c.WriteWord(1, 8);
      ghost var w1 := PayloadWords(c.View());
      assert w1 == w0[1 := 8];
      c.WriteWord(2, 0);
      ghost var w2 := PayloadWords(c.View());
      assert w2 == w1[2 := 0];
      assert w2[0] == T_F32.0 && w2[1] == 8 && w2[2] == 0 && |w2| == 11;
    }

    /** `core_write_field` of a word at payload offset `4 * k`. */
    method WriteWord(k: nat, v: u32)
      requires headLen <= bytes.Length && k < |PayloadWords(View())|
      modifies bytes
      ensures View() == StoreWord(old(View()), k, v)
    {
      StoreU32(headLen + 4 * k, v);
    }

    /** `vec-f32-push`. */
    method VecF32Push(v: u32)
      requires IsF32Vec(View())
      modifies bytes
      ensures View() == F32Push(old(View()), v)
    {
      ghost var h := View();
      F32Fields(h);
      var cap := ReadU32(bytes[..], headLen + 4);
      var len := ReadU32(bytes[..], headLen + 8);
      if len < cap {
        F32PushWrites(h, v);
        WriteWord(2, len + 1);
        ghost var h1 := View();
        assert h1 == StoreWord(h, 2, (F32Len(h) + 1) as u32);
        WriteWord(3 + len as nat, v);
        assert View() == StoreWord(h1, 3 + F32Len(h), v);
      } else {
        assert View() == h;
      }
    }

    /** `vec-f32-get`. */
    method VecF32Get(idx: int) returns (v: u32)
      requires IsF32Vec(View()) && IsI64(idx) && TruncU32(idx) < F32Len(View())
      ensures v == F32Get(View(), idx)
    {
      v := ReadU32(bytes[..], headLen + 4 * TruncU32(idx) + 12);
    }

    /** `vec-f32-set`. */
    method VecF32Set(idx: int, v: u32)
      requires IsF32Vec(View()) && IsI64(idx) && TruncU32(idx) < F32Len(View())
      modifies bytes
      ensures View() == F32Set(old(View()), idx, v)
    {
      WriteWord(3 + TruncU32(idx), v);
    }
  }
}

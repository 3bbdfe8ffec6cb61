/** Symbol ids: a 30-bit name index in bits 0-29 and a 2-bit mode in bits
    30-31 of one 32-bit word, and the built-in symbols every run interns
    first. */
module Symbols {

  newtype u32 = x: int | 0 <= x < 0x1_0000_0000

  /** 2^30: one more than the largest name index; `& 0x3FFFFFFF` keeps the
      remainder modulo this, `<< 30` multiplies by it. */
  const NAME_SPAN: int := 0x4000_0000

  /** The four symbol modes, in discriminant order 0..3. */
  datatype SymbolMode = Basic | Keyword | Module | Type

  /** `mode as u32`. */
  function ModeBits(m: SymbolMode): (r: int)
    ensures 0 <= r < 4
  {
    match m
    case Basic => 0
    case Keyword => 1
    case Module => 2
    case Type => 3
  }

  /** `transmute::<u8, SymbolMode>(b)` for the four valid discriminants. */
  function ModeFromBits(b: int): (m: SymbolMode)
    requires 0 <= b < 4
    ensures ModeBits(m) == b
  {
    if b == 0 then Basic else if b == 1 then Keyword else if b == 2 then Module else Type
  }

  /** `modeize_sym`: keep the low 30 bits of `sym` and put `mode` above them. */
  function Modeize(sym: u32, mode: SymbolMode): (r: u32)
    ensures Demodes(r) == sym % NAME_SPAN as u32
    ensures ModeOf(r) == mode
  {
    (sym % NAME_SPAN as u32) + ModeBits(mode) as u32 * NAME_SPAN as u32
  }

  /** `demodes_sym`: clear the two mode bits. */
  function Demodes(sym: u32): (r: u32)
    ensures r < NAME_SPAN as u32
    ensures sym as int - r as int == ModeBits(ModeOf(sym)) * NAME_SPAN
  {
    sym % NAME_SPAN as u32
  }

  /** `mode_of_sym`: the top two bits read as a mode. */
  function ModeOf(sym: u32): (m: SymbolMode) {
    ModeFromBits(sym as int / NAME_SPAN)
  }

  /** Name index and mode survive packing, for every index below 2^30. */
  lemma ModeizeRoundTrip(n: u32, m: SymbolMode)
    requires n < NAME_SPAN as u32
    ensures Demodes(Modeize(n, m)) == n
    ensures ModeOf(Modeize(n, m)) == m
  {
  }

  /** Re-modeizing replaces the old mode and keeps the name index. */
  lemma ModeizeReplaces(n: u32, m1: SymbolMode, m2: SymbolMode)
    ensures Modeize(Modeize(n, m1), m2) == Modeize(n, m2)
  {
    assert Demodes(Modeize(n, m1)) == Demodes(n);
  }

  /** Every id is the packing of its own index and mode. */
  lemma ModeizeDecomposes(x: u32)
    ensures Modeize(Demodes(x), ModeOf(x)) == x
  {
  }

  /** `demodes_sym` is idempotent, and ids that differ only in mode agree
      on it. */
  lemma DemodesIgnoresMode(n: u32, m1: SymbolMode, m2: SymbolMode)
    ensures Demodes(Demodes(n)) == Demodes(n)
    ensures Demodes(Modeize(n, m1)) == Demodes(Modeize(n, m2))
  {
  }

  /** Packing is injective on valid indices: equal ids have equal indices
      and equal modes. */
  lemma ModeizeInjective(n1: u32, m1: SymbolMode, n2: u32, m2: SymbolMode)
    requires n1 < NAME_SPAN as u32 && n2 < NAME_SPAN as u32
    requires Modeize(n1, m1) == Modeize(n2, m2)
    ensures n1 == n2 && m1 == m2
  {
    ModeizeRoundTrip(n1, m1);
    ModeizeRoundTrip(n2, m2);
  }

  /** The `incl_symbols!` constants: `(modeize_sym(k, mode), text)` for
      index `k`, written out as the packed ids (BuiltinTable proves each is
      that packing). */
  const T_T: (u32, string) := (0xC000_0000, "t")
  const T_NIL: (u32, string) := (0xC000_0001, "nil")
  const T_BOOL: (u32, string) := (0xC000_0002, "bool")
  const T_U8: (u32, string) := (0xC000_0003, "u8")
  const T_I8: (u32, string) := (0xC000_0004, "i8")
  const T_U16: (u32, string) := (0xC000_0005, "u16")
  const T_I16: (u32, string) := (0xC000_0006, "i16")
  const T_U32: (u32, string) := (0xC000_0007, "u32")
  const T_I32: (u32, string) := (0xC000_0008, "i32")
  const T_U64: (u32, string) := (0xC000_0009, "u64")
  const T_I64: (u32, string) := (0xC000_000A, "i64")
  const T_U128: (u32, string) := (0xC000_000B, "u128")
  const T_I128: (u32, string) := (0xC000_000C, "i128")
  const T_F32: (u32, string) := (0xC000_000D, "f32")
  const T_F64: (u32, string) := (0xC000_000E, "f64")
  const T_SYMBOL: (u32, string) := (0xC000_000F, "symbol")
  const T_REF: (u32, string) := (0xC000_0010, "ref")
  const T_VECTOR: (u32, string) := (0xC000_0011, "vector")
  const T_STDVEC: (u32, string) := (0xC000_0012, "stdvec")
  const T_STRING: (u32, string) := (0xC000_0013, "string")
  const T_HASHVEC: (u32, string) := (0xC000_0014, "hashvec")
  const T_ANYVEC: (u32, string) := (0xC000_0015, "anyvec")
  const T_MAP: (u32, string) := (0xC000_0016, "map")
  const T_ALISMAP: (u32, string) := (0xC000_0017, "alismap")
  const T_HASHMAP: (u32, string) := (0xC000_0018, "hashmap")
  const T_PROC: (u32, string) := (0xC000_0019, "proc")
  const T_PROC_LAMBDA: (u32, string) := (0xC000_001A, "sail-fn")
  const T_PROC_NATIVE: (u32, string) := (0xC000_001B, "rust-fn")
  const T_ERR: (u32, string) := (0xC000_001C, "err")
  const T_QUEUE_TX: (u32, string) := (0xC000_001D, "q-tx")
  const T_QUEUE_RX: (u32, string) := (0xC000_001E, "q-rx")
  const SP_DEF: (u32, string) := (0x0000_001F, "def")
  const SP_DO: (u32, string) := (0x0000_0020, "do")
  const SP_EVAL: (u32, string) := (0x0000_0021, "eval")
  const SP_FN: (u32, string) := (0x0000_0022, "fn")
  const SP_IF: (u32, string) := (0x0000_0023, "if")
  const SP_QUOTE: (u32, string) := (0x0000_0024, "quote")
  const SP_SET: (u32, string) := (0x0000_0025, "set")
  const SP_WHILE: (u32, string) := (0x0000_0026, "while")
  const S_MR_SEND: (u32, string) := (0x0000_0027, "mr-send")
  const S_MR_RECV: (u32, string) := (0x0000_0028, "mr-recv")
  const S_CM_SEND: (u32, string) := (0x0000_0029, "cm-send")
  const S_CM_RECV: (u32, string) := (0x0000_002A, "cm-recv")
  const S_CR_SEND: (u32, string) := (0x0000_002B, "cr-send")
  const S_CR_RECV: (u32, string) := (0x0000_002C, "cr-recv")
  const S_MAIN: (u32, string) := (0x0000_002D, "main")
  const S_WINDOW: (u32, string) := (0x0000_002E, "window")
  const S_RNDR: (u32, string) := (0x0000_002F, "rndr")
  const S_ENGINE: (u32, string) := (0x0000_0030, "engine")
  const S_T_INTERN: (u32, string) := (0x0000_0031, "%true")
  const K_CX_DESTR: (u32, string) := (0x4000_0032, "cx-dstr")
  const K_CX_RESIZ: (u32, string) := (0x4000_0033, "cx-resz")
  const K_CX_CLICK: (u32, string) := (0x4000_0034, "cx-clck")
  const K_CX_REDRW: (u32, string) := (0x4000_0035, "cx-rdrw")
  const K_CX_SHELL: (u32, string) := (0x4000_0036, "cx-shel")

  /** The built-in constants in index order. */
  const BUILTINS: seq<(u32, string)> :=
    [T_T, T_NIL, T_BOOL, T_U8, T_I8, T_U16] +
    [T_I16, T_U32, T_I32, T_U64, T_I64, T_U128] +
    [T_I128, T_F32, T_F64, T_SYMBOL, T_REF, T_VECTOR] +
    [T_STDVEC, T_STRING, T_HASHVEC, T_ANYVEC, T_MAP, T_ALISMAP] +
    [T_HASHMAP, T_PROC, T_PROC_LAMBDA, T_PROC_NATIVE, T_ERR, T_QUEUE_TX] +
    [T_QUEUE_RX, SP_DEF, SP_DO, SP_EVAL, SP_FN, SP_IF] +
    [SP_QUOTE, SP_SET, SP_WHILE, S_MR_SEND, S_MR_RECV, S_CM_SEND] +
    [S_CM_RECV, S_CR_SEND, S_CR_RECV, S_MAIN, S_WINDOW, S_RNDR] +
    [S_ENGINE, S_T_INTERN, K_CX_DESTR, K_CX_RESIZ, K_CX_CLICK, K_CX_REDRW] +
    [K_CX_SHELL]

  /** `SYM_ARRAY`: the built-in names, in index order. */
  const SYM_ARRAY: seq<string> :=
    ["t", "nil", "bool", "u8", "i8", "u16", "i16", "u32"] +
    ["i32", "u64", "i64", "u128", "i128", "f32", "f64", "symbol"] +
    ["ref", "vector", "stdvec", "string", "hashvec", "anyvec", "map", "alismap"] +
    ["hashmap", "proc", "sail-fn", "rust-fn", "err", "q-tx", "q-rx", "def"] +
    ["do", "eval", "fn", "if", "quote", "set", "while", "mr-send"] +
    ["mr-recv", "cm-send", "cm-recv", "cr-send", "cr-recv", "main", "window", "rndr"] +
    ["engine", "%true", "cx-dstr", "cx-resz", "cx-clck", "cx-rdrw", "cx-shel"]

  /** The mode the table gives the built-in with index `k`. */
  function BuiltinMode(k: nat): SymbolMode {
    if k <= 30 then Type else if k <= 49 then Basic else Keyword
  }

  /** Each built-in constant is the id of index `k` in its table mode, and
      `SYM_ARRAY[k]` is its text: the types are Type-mode ids 0..30, the
      special forms and standard symbols Basic, the `cx-` events Keyword. */
  lemma BuiltinTable(k: nat)
    requires k < 55
    ensures |BUILTINS| == |SYM_ARRAY| == 55
    ensures Demodes(BUILTINS[k].0) as int == k
    ensures ModeOf(BUILTINS[k].0) == BuiltinMode(k)
    ensures BUILTINS[k].0 == Modeize(k as u32, BuiltinMode(k))
    ensures SYM_ARRAY[k] == BUILTINS[k].1
  {
    if k < 8 {
      BuiltinRows0(k);
    } else if k < 16 {
      BuiltinRows1(k);
    } else if k < 24 {
      BuiltinRows2(k);
    } else if k < 32 {
      BuiltinRows3(k);
    } else if k < 40 {
      BuiltinRows4(k);
    } else if k < 48 {
      BuiltinRows5(k);
    } else {
      BuiltinRows6(k);
    }
    ModeizeRoundTrip(k as u32, BuiltinMode(k));
  }

  /** Rows 0..7 of the built-in table. */
  lemma BuiltinRows0(k: nat)
    requires 0 <= k < 8
    ensures |BUILTINS| == |SYM_ARRAY| == 55
    ensures BUILTINS[k].0 == Modeize(k as u32, BuiltinMode(k))
    ensures SYM_ARRAY[k] == BUILTINS[k].1
  {
    if k == 0 {
      assert BUILTINS[0] == T_T && SYM_ARRAY[0] == "t";
    } else if k == 1 {
      assert BUILTINS[1] == T_NIL && SYM_ARRAY[1] == "nil";
    } else if k == 2 {
      assert BUILTINS[2] == T_BOOL && SYM_ARRAY[2] == "bool";
    } else if k == 3 {
      assert BUILTINS[3] == T_U8 && SYM_ARRAY[3] == "u8";
    } else if k == 4 {
      assert BUILTINS[4] == T_I8 && SYM_ARRAY[4] == "i8";
    } else if k == 5 {
      assert BUILTINS[5] == T_U16 && SYM_ARRAY[5] == "u16";
    } else if k == 6 {
      assert BUILTINS[6] == T_I16 && SYM_ARRAY[6] == "i16";
    } else {
      assert BUILTINS[7] == T_U32 && SYM_ARRAY[7] == "u32";
    }
  }

  /** Rows 8..15 of the built-in table. */
  lemma BuiltinRows1(k: nat)
    requires 8 <= k < 16
    ensures |BUILTINS| == |SYM_ARRAY| == 55
    ensures BUILTINS[k].0 == Modeize(k as u32, BuiltinMode(k))
    ensures SYM_ARRAY[k] == BUILTINS[k].1
  {
    if k == 8 {
      assert BUILTINS[8] == T_I32 && SYM_ARRAY[8] == "i32";
    } else if k == 9 {
      assert BUILTINS[9] == T_U64 && SYM_ARRAY[9] == "u64";
    } else if k == 10 {
      assert BUILTINS[10] == T_I64 && SYM_ARRAY[10] == "i64";
    } else if k == 11 {
      assert BUILTINS[11] == T_U128 && SYM_ARRAY[11] == "u128";
    } else if k == 12 {
      assert BUILTINS[12] == T_I128 && SYM_ARRAY[12] == "i128";
    } else if k == 13 {
      assert BUILTINS[13] == T_F32 && SYM_ARRAY[13] == "f32";
    } else if k == 14 {
      assert BUILTINS[14] == T_F64 && SYM_ARRAY[14] == "f64";
    } else {
      assert BUILTINS[15] == T_SYMBOL && SYM_ARRAY[15] == "symbol";
    }
  }

  /** Rows 16..23 of the built-in table. */
  lemma BuiltinRows2(k: nat)
    requires 16 <= k < 24
    ensures |BUILTINS| == |SYM_ARRAY| == 55
    ensures BUILTINS[k].0 == Modeize(k as u32, BuiltinMode(k))
    ensures SYM_ARRAY[k] == BUILTINS[k].1
  {
    if k == 16 {
      assert BUILTINS[16] == T_REF && SYM_ARRAY[16] == "ref";
    } else if k == 17 {
      assert BUILTINS[17] == T_VECTOR && SYM_ARRAY[17] == "vector";
    } else if k == 18 {
      assert BUILTINS[18] == T_STDVEC && SYM_ARRAY[18] == "stdvec";
    } else if k == 19 {
      assert BUILTINS[19] == T_STRING && SYM_ARRAY[19] == "string";
    } else if k == 20 {
      assert BUILTINS[20] == T_HASHVEC && SYM_ARRAY[20] == "hashvec";
    } else if k == 21 {
      assert BUILTINS[21] == T_ANYVEC && SYM_ARRAY[21] == "anyvec";
    } else if k == 22 {
      assert BUILTINS[22] == T_MAP && SYM_ARRAY[22] == "map";
    } else {
      assert BUILTINS[23] == T_ALISMAP && SYM_ARRAY[23] == "alismap";
    }
  }

  /** Rows 24..31 of the built-in table. */
  lemma BuiltinRows3(k: nat)
    requires 24 <= k < 32
    ensures |BUILTINS| == |SYM_ARRAY| == 55
    ensures BUILTINS[k].0 == Modeize(k as u32, BuiltinMode(k))
    ensures SYM_ARRAY[k] == BUILTINS[k].1
  {
    if k == 24 {
      assert BUILTINS[24] == T_HASHMAP && SYM_ARRAY[24] == "hashmap";
    } else if k == 25 {
      assert BUILTINS[25] == T_PROC && SYM_ARRAY[25] == "proc";
    } else if k == 26 {
      assert BUILTINS[26] == T_PROC_LAMBDA && SYM_ARRAY[26] == "sail-fn";
    } else if k == 27 {
      assert BUILTINS[27] == T_PROC_NATIVE && SYM_ARRAY[27] == "rust-fn";
    } else if k == 28 {
      assert BUILTINS[28] == T_ERR && SYM_ARRAY[28] == "err";
    } else if k == 29 {
      assert BUILTINS[29] == T_QUEUE_TX && SYM_ARRAY[29] == "q-tx";
    } else if k == 30 {
      assert BUILTINS[30] == T_QUEUE_RX && SYM_ARRAY[30] == "q-rx";
    } else {
      assert BUILTINS[31] == SP_DEF && SYM_ARRAY[31] == "def";
    }
  }

  /** Rows 32..39 of the built-in table. */
  lemma BuiltinRows4(k: nat)
    requires 32 <= k < 40
    ensures |BUILTINS| == |SYM_ARRAY| == 55
    ensures BUILTINS[k].0 == Modeize(k as u32, BuiltinMode(k))
    ensures SYM_ARRAY[k] == BUILTINS[k].1
  {
    if k == 32 {
      assert BUILTINS[32] == SP_DO && SYM_ARRAY[32] == "do";
    } else if k == 33 {
      assert BUILTINS[33] == SP_EVAL && SYM_ARRAY[33] == "eval";
    } else if k == 34 {
      assert BUILTINS[34] == SP_FN && SYM_ARRAY[34] == "fn";
    } else if k == 35 {
      assert BUILTINS[35] == SP_IF && SYM_ARRAY[35] == "if";
    } else if k == 36 {
      assert BUILTINS[36] == SP_QUOTE && SYM_ARRAY[36] == "quote";
    } else if k == 37 {
      assert BUILTINS[37] == SP_SET && SYM_ARRAY[37] == "set";
    } else if k == 38 {
      assert BUILTINS[38] == SP_WHILE && SYM_ARRAY[38] == "while";
    } else {
      assert BUILTINS[39] == S_MR_SEND && SYM_ARRAY[39] == "mr-send";
    }
  }

  /** Rows 40..47 of the built-in table. */
  lemma BuiltinRows5(k: nat)
    requires 40 <= k < 48
    ensures |BUILTINS| == |SYM_ARRAY| == 55
    ensures BUILTINS[k].0 == Modeize(k as u32, BuiltinMode(k))
    ensures SYM_ARRAY[k] == BUILTINS[k].1
  {
    if k == 40 {
      assert BUILTINS[40] == S_MR_RECV && SYM_ARRAY[40] == "mr-recv";
    } else if k == 41 {
      assert BUILTINS[41] == S_CM_SEND && SYM_ARRAY[41] == "cm-send";
    } else if k == 42 {
      assert BUILTINS[42] == S_CM_RECV && SYM_ARRAY[42] == "cm-recv";
    } else if k == 43 {
      assert BUILTINS[43] == S_CR_SEND && SYM_ARRAY[43] == "cr-send";
    } else if k == 44 {
      assert BUILTINS[44] == S_CR_RECV && SYM_ARRAY[44] == "cr-recv";
    } else if k == 45 {
      assert BUILTINS[45] == S_MAIN && SYM_ARRAY[45] == "main";
    } else if k == 46 {
      assert BUILTINS[46] == S_WINDOW && SYM_ARRAY[46] == "window";
    } else {
      assert BUILTINS[47] == S_RNDR && SYM_ARRAY[47] == "rndr";
    }
  }

  /** Rows 48..54 of the built-in table. */
  lemma BuiltinRows6(k: nat)
    requires 48 <= k < 55
    ensures |BUILTINS| == |SYM_ARRAY| == 55
    ensures BUILTINS[k].0 == Modeize(k as u32, BuiltinMode(k))
    ensures SYM_ARRAY[k] == BUILTINS[k].1
  {
    if k == 48 {
      assert BUILTINS[48] == S_ENGINE && SYM_ARRAY[48] == "engine";
    } else if k == 49 {
      assert BUILTINS[49] == S_T_INTERN && SYM_ARRAY[49] == "%true";
    } else if k == 50 {
      assert BUILTINS[50] == K_CX_DESTR && SYM_ARRAY[50] == "cx-dstr";
    } else if k == 51 {
      assert BUILTINS[51] == K_CX_RESIZ && SYM_ARRAY[51] == "cx-resz";
    } else if k == 52 {
      assert BUILTINS[52] == K_CX_CLICK && SYM_ARRAY[52] == "cx-clck";
    } else if k == 53 {
      assert BUILTINS[53] == K_CX_REDRW && SYM_ARRAY[53] == "cx-rdrw";
    } else {
      assert BUILTINS[54] == K_CX_SHELL && SYM_ARRAY[54] == "cx-shel";
    }
  }
}

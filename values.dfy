/** The values the reader builds and the printer renders, and the symbol
    table that maps symbol text to name indices. */
module Values {
  import opened Bytes
  import opened Symbols
  import opened ErrCodes

  /** A Sail value as a tree. Lists are the chains of `ref` cells and next
      links; a map is the sequence of its key/value insertions; a float is
      identified by the literal it was read from, or by its bit pattern
      for an `f32`. Procedures and the other core and extended types are
      only told apart by the printer. */
  datatype Value =
    | Nil
    | Bool(b: bool)
    | I64(n: int)
    | F64(lit: seq<byte>)
    | F32(bits: u32)
    | ErrCode(code: SlErrCode)
    | Sym(id: u32)
    | List(items: seq<Value>)
    | StdVec(items: seq<Value>)
    | Str(text: seq<byte>)
    | HashMap(pairs: seq<(Value, Value)>)
    | Proc
    | OtherCore
    | Extended

  // ---------------------------------------------------------------------
  // The symbol table: name index `i` is the text `names[i]`

  /** No text is interned twice. */
  predicate Distinct(names: seq<seq<byte>>) {
    forall i, j :: 0 <= i < j < |names| ==> names[i] != names[j]
  }

  /** The index of `text`, or `|names|` when it is not there. */
  function IndexOf(names: seq<seq<byte>>, text: seq<byte>): (r: nat)
    ensures r <= |names|
    ensures r < |names| ==> names[r] == text
    ensures forall i :: 0 <= i < r ==> names[i] != text
    decreases |names|
  {
    if names == [] then 0
    else if names[0] == text then 0
    else 1 + IndexOf(names[1..], text)
  }

  /** `Stab::get_id`: the index of a known text, or the next index for a
      new one, which is appended. */
  function Intern(names: seq<seq<byte>>, text: seq<byte>): (r: (nat, seq<seq<byte>>))
    ensures r.0 < |r.1| && r.1[r.0] == text
    ensures text in names ==> r.1 == names
    ensures text !in names ==> r.0 == |names| && r.1 == names + [text]
    ensures Distinct(names) ==> Distinct(r.1)
  {
    var i := IndexOf(names, text);
    if i < |names| then (i, names) else (i, names + [text])
  }

  /** In a table without repeats, each text's id is its position. */
  lemma InternKnown(names: seq<seq<byte>>, i: nat)
    requires Distinct(names) && i < |names|
    ensures Intern(names, names[i]) == (i, names)
  {
    var j := IndexOf(names, names[i]);
    assert j <= i;
  }

  /** `Stab`, the table the reader interns symbol text into. */
  class SymTab {
    var names: seq<seq<byte>>

    constructor (names: seq<seq<byte>>)
      ensures this.names == names
    {
      this.names := names;
    }

    /** `get_id`: look the text up, appending it when it is new. */
    method GetId(text: seq<byte>) returns (id: nat)
      modifies this
      ensures (id, names) == Intern(old(names), text)
    {
      id := 0;
      while id < |names| && names[id] != text
        invariant id <= |names|
        invariant forall i :: 0 <= i < id ==> names[i] != text
      {
        id := id + 1;
      }
      if id == |names| {
        names := names + [text];
      }
    }
  }
}

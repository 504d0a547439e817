/**
 The loader's resolution of SCX enum constants: values are looked up in the kernel's type
 tables and written into the initial image of the scheduler's read-only data.
 */
module Loader {
  import opened Wrappers

  type Byte = n: nat | n < 256
  type Word = n: nat | n < 0x1_0000_0000_0000_0000

  // ----- type tables

  /** The enumerators of a kernel type, in order; a name can be missing. */
  datatype BtfType =
    | Enum32(values: seq<(Option<string>, int)>)
    | Enum64(values64: seq<(Option<string>, Word)>)
    | NotEnum

  type Btf = map<string, BtfType>

  /** `(uint64_t)(uint32_t)val` */
  function ZeroExtend(val: int): Word {
    val % 0x1_0000_0000
  }

  /** The first enumerator of that name. */
  function Find<T>(values: seq<(Option<string>, T)>, name: string, from: nat := 0): (r: Option<T>)
    requires from <= |values|
    ensures r.Some? ==>
              exists i :: from <= i < |values| && values[i] == (Some(name), r.value)
                          && forall j :: from <= j < i ==> values[j].0 != Some(name)
    ensures r.None? <==> forall i :: from <= i < |values| ==> values[i].0 != Some(name)
    decreases |values| - from
  {
    if from == |values| then None
    else if values[from].0 == Some(name) then Some(values[from].1)
    else Find(values, name, from + 1)
  }

  /** The enumerator at index `k` is the first of that name. */
  predicate IsFirst<T(==)>(values: seq<(Option<string>, T)>, name: string, k: nat) {
    k < |values| && values[k].0 == Some(name) && forall j :: 0 <= j < k ==> values[j].0 != Some(name)
  }

  predicate Names<T(==)>(values: seq<(Option<string>, T)>, name: string) {
    exists k :: 0 <= k < |values| && values[k].0 == Some(name)
  }

  /** The 32 low bits of a value, as a word. */
  predicate IsLow32(value: int, word: Word) {
    word < 0x1_0000_0000 && (value - word) % 0x1_0000_0000 == 0
  }

  /**
   What a name in a kernel type stands for: all 64 bits of the first enumerator of that name
   in an enum64, the low 32 bits of it in an enum; nothing if there is no such type, it is no
   enum, or it does not have the name.
   */
  ghost predicate Denotes(btf: Btf, type_: string, name: string, r: Option<Word>) {
    if type_ !in btf then r == None
    else
      match btf[type_]
      case Enum32(values) =>
        if Names(values, name) then
          r.Some? && exists k: nat :: IsFirst(values, name, k) && IsLow32(values[k].1, r.value)
        else r == None
      case Enum64(values) =>
        if Names(values, name) then exists k: nat :: IsFirst(values, name, k) && r == Some(values[k].1)
        else r == None
      case NotEnum => r == None
  }

  function EnumValue(btf: Btf, type_: string, name: string): Option<Word> {
    if type_ !in btf then None
    else
      match btf[type_]
      case Enum32(values) => (match Find(values, name) case Some(v) => Some(ZeroExtend(v)) case None => None)
      case Enum64(values) => Find(values, name)
      case NotEnum => None
  }

  method ReadBtfEnum(btf: Btf, type_: string, name: string) returns (r: Option<Word>)
    ensures r == EnumValue(btf, type_, name) && Denotes(btf, type_, name, r)
  {
    EnumValueDenotes(btf, type_, name, EnumValue(btf, type_, name));
    if type_ !in btf {
      return None;
    }
    match btf[type_]
    case Enum32(values) =>
      for i := 0 to |values|
        invariant Find(values, name) == Find(values, name, i)
      {
        if values[i].0 == Some(name) {
          return Some(ZeroExtend(values[i].1));
        }
      }
      return None;
    case Enum64(values) =>
      for i := 0 to |values|
        invariant Find(values, name) == Find(values, name, i)
      {
        if values[i].0 == Some(name) {
          return Some(values[i].1);
        }
      }
      return None;
    case NotEnum =>
      return None;
  }

  lemma FindIsFirst<T>(values: seq<(Option<string>, T)>, name: string)
    ensures Find(values, name).Some? <==> Names(values, name)
    ensures forall k: nat :: IsFirst(values, name, k) ==> Find(values, name) == Some(values[k].1)
    ensures Names(values, name) ==> exists k: nat :: IsFirst(values, name, k)
  {
    var found := Find(values, name);
    if found.Some? {
      var i :| 0 <= i < |values| && values[i] == (Some(name), found.value)
               && forall j :: 0 <= j < i ==> values[j].0 != Some(name);
      assert IsFirst(values, name, i);
      forall k: nat | IsFirst(values, name, k)
        ensures k == i
      {
        assert !(k < i) && !(i < k);
      }
    }
  }

  lemma LowBits(value: int, word: Word)
    ensures IsLow32(value, word) <==> word == ZeroExtend(value)
  {
  }

  /** The lookup gives exactly what the name stands for. */
  lemma EnumValueDenotes(btf: Btf, type_: string, name: string, r: Option<Word>)
    ensures r == EnumValue(btf, type_, name) <==> Denotes(btf, type_, name, r)
  {
    if type_ in btf {
      match btf[type_]
      case Enum32(values) =>
        FindIsFirst(values, name);
        if r.Some? {
          forall k: nat | IsFirst(values, name, k)
            ensures IsLow32(values[k].1, r.value) <==> r.value == ZeroExtend(values[k].1)
          {
            LowBits(values[k].1, r.value);
          }
        }
      case Enum64(values) =>
        FindIsFirst(values, name);
      case NotEnum =>
    }
  }

  /** All 64 bits of an enum64 value survive, and a negative 32-bit one has its bit pattern. */
  lemma EnumExamples()
    ensures var btf := map["scx_dsq_id_flags" := Enum64([(Some("SCX_DSQ_GLOBAL"), 0x8000_0000_0000_0001)]),
                           "scx_ent_flags" := Enum32([(Some("SCX_TASK_CURSOR"), -0x8000_0000)])];
            && EnumValue(btf, "scx_dsq_id_flags", "SCX_DSQ_GLOBAL") == Some(0x8000_0000_0000_0001)
            && EnumValue(btf, "scx_ent_flags", "SCX_TASK_CURSOR") == Some(0x8000_0000)
  {
  }

  /** A 32-bit enumerator keeps its value exactly when it is in the range of a u32. */
  lemma ZeroExtendKeepsValue(val: int)
    ensures ZeroExtend(val) == val <==> 0 <= val < 0x1_0000_0000
  {
  }

  // ----- the image

  /** A row of the table of constants, and a variable of the .rodata section. */
  datatype EnumEntry = EnumEntry(type_: string, name: string, varName: string)
  datatype Variable = Variable(name: Option<string>, offset: nat)

  const SLOT: nat := 8

  /** Little-endian bytes of a value. */
  function BytesOf(v: nat, n: nat): (r: seq<Byte>)
    ensures |r| == n
  {
    if n == 0 then [] else [v % 256] + BytesOf(v / 256, n - 1)
  }

  function ValueOf(bytes: seq<Byte>): nat {
    if bytes == [] then 0 else bytes[0] + 256 * ValueOf(bytes[1..])
  }

  function Power256(n: nat): nat {
    if n == 0 then 1 else 256 * Power256(n - 1)
  }

  lemma {:induction false} BytesReadBack(v: nat, n: nat)
    requires v < Power256(n)
    ensures ValueOf(BytesOf(v, n)) == v
  {
    if n > 0 {
      BytesReadBack(v / 256, n - 1);
      assert BytesOf(v, n)[1..] == BytesOf(v / 256, n - 1);
    }
  }

  lemma WordReadsBack(v: Word)
    ensures ValueOf(BytesOf(v, SLOT)) == v
  {
    assert Power256(8) == 256 * (256 * (256 * (256 * Power256(4))));
    assert Power256(4) == 256 * (256 * (256 * (256 * Power256(0))));
    BytesReadBack(v, SLOT);
  }

  /** The row whose variable this is: the first one. */
  function RowFor(table: seq<EnumEntry>, name: string, from: nat := 0): (r: Option<EnumEntry>)
    requires from <= |table|
    ensures r.Some? ==>
              exists i :: from <= i < |table| && table[i] == r.value && r.value.varName == name
                          && forall j :: from <= j < i ==> table[j].varName != name
    ensures r.None? <==> forall i :: from <= i < |table| ==> table[i].varName != name
    decreases |table| - from
  {
    if from == |table| then None
    else if table[from].varName == name then Some(table[from])
    else RowFor(table, name, from + 1)
  }

  /** The value a variable is to get, if any. */
  function Resolved(table: seq<EnumEntry>, btf: Btf, v: Variable): Option<Word> {
    if v.name.None? || !("__SCX_" <= v.name.value) then None
    else
      match RowFor(table, v.name.value)
      case Some(row) => EnumValue(btf, row.type_, row.name)
      case None => None
  }

  predicate Patched(table: seq<EnumEntry>, btf: Btf, size: nat, v: Variable) {
    Resolved(table, btf, v).Some? && v.offset + SLOT <= size
  }

  function Write(image: seq<Byte>, offset: nat, bytes: seq<Byte>): (r: seq<Byte>)
    requires offset + |bytes| <= |image|
    ensures |r| == |image|
    ensures r[offset..offset + |bytes|] == bytes
    ensures forall k :: 0 <= k < |r| && !(offset <= k < offset + |bytes|) ==> r[k] == image[k]
  {
    image[..offset] + bytes + image[offset + |bytes|..]
  }

  /** The image after the variables, in order. */
  function Image(table: seq<EnumEntry>, btf: Btf, image: seq<Byte>, vars: seq<Variable>): (r: seq<Byte>)
    ensures |r| == |image|
  {
    if vars == [] then image
    else
      var v, before := vars[|vars| - 1], Image(table, btf, image, vars[..|vars| - 1]);
      if Patched(table, btf, |image|, v) then
        Write(before, v.offset, BytesOf(Resolved(table, btf, v).value, SLOT))
      else before
  }

  function PatchCount(table: seq<EnumEntry>, btf: Btf, size: nat, vars: seq<Variable>): nat {
    if vars == [] then 0
    else
      PatchCount(table, btf, size, vars[..|vars| - 1])
      + if Patched(table, btf, size, vars[|vars| - 1]) then 1 else 0
  }

  /** The loop over the table: the first row of that variable decides. */
  method ResolveVariable(table: seq<EnumEntry>, btf: Btf, v: Variable) returns (r: Option<Word>)
    ensures r == Resolved(table, btf, v)
  {
    if v.name.None? || !("__SCX_" <= v.name.value) {
      return None;
    }
    for i := 0 to |table|
      invariant RowFor(table, v.name.value) == RowFor(table, v.name.value, i)
    {
      if v.name.value != table[i].varName {
        continue;
      }
      r := ReadBtfEnum(btf, table[i].type_, table[i].name);
      return;
    }
    return None;
  }

  /** `memcpy` of a value to its slot. */
  method StoreWord(rodata: array<Byte>, offset: nat, value: Word)
    requires offset + SLOT <= rodata.Length
    modifies rodata
    ensures rodata[..] == Write(old(rodata[..]), offset, BytesOf(value, SLOT))
  {
    ghost var was, bytes := rodata[..], BytesOf(value, SLOT);
    var rest: nat := value;
    for k := 0 to SLOT
      invariant BytesOf(rest, SLOT - k) == bytes[k..]
      invariant forall i :: 0 <= i < rodata.Length ==>
        rodata[i] == if offset <= i < offset + k then bytes[i - offset] else was[i]
    {
      assert bytes[k] == rest % 256;
      rodata[offset + k] := rest % 256;
      assert BytesOf(rest, SLOT - k)[1..] == bytes[k + 1..];
      rest := rest / 256;
    }
    assert rodata[..] == Write(was, offset, bytes);
  }

  /** The patch loop on a private copy, written back when something was set. */
  method ResolveScxEnums(initial: array<Byte>, table: seq<EnumEntry>, btf: Btf, vars: seq<Variable>)
      returns (setCount: nat)
    modifies initial
    ensures initial[..] == Image(table, btf, old(initial[..]), vars)
    ensures setCount == PatchCount(table, btf, initial.Length, vars)
  {
    ghost var was := initial[..];
    var rodata := new Byte[initial.Length](i requires 0 <= i < initial.Length reads initial => initial[i]);
    assert rodata[..] == was;
    setCount := 0;
    for v := 0 to |vars|
      invariant initial[..] == was && rodata.Length == initial.Length
      invariant rodata[..] == Image(table, btf, was, vars[..v])
      invariant setCount == PatchCount(table, btf, initial.Length, vars[..v])
    {
      assert vars[..v + 1][..v] == vars[..v];
      var value := ResolveVariable(table, btf, vars[v]);
      if value.Some? && vars[v].offset + SLOT <= rodata.Length {
        StoreWord(rodata, vars[v].offset, value.value);
        setCount := setCount + 1;
      }
    }
    assert vars[..|vars|] == vars;
    if setCount > 0 {
      forall i | 0 <= i < initial.Length {
        initial[i] := rodata[i];
      }
      assert initial[..] == rodata[..];
    } else {
      NothingPatched(table, btf, was, vars);
    }
  }

  lemma {:induction false} NothingPatched(table: seq<EnumEntry>, btf: Btf, image: seq<Byte>, vars: seq<Variable>)
    requires PatchCount(table, btf, |image|, vars) == 0
    ensures Image(table, btf, image, vars) == image
  {
    if vars != [] {
      NothingPatched(table, btf, image, vars[..|vars| - 1]);
    }
  }

  // ----- what the image is

  predicate Covers(v: Variable, k: nat) {
    v.offset <= k < v.offset + SLOT
  }

  /** A byte outside every patched slot is unchanged. */
  lemma {:induction false} OtherBytesUnchanged(
      table: seq<EnumEntry>, btf: Btf, image: seq<Byte>, vars: seq<Variable>, k: nat)
    requires k < |image|
    requires forall i :: 0 <= i < |vars| && Patched(table, btf, |image|, vars[i]) ==> !Covers(vars[i], k)
    ensures Image(table, btf, image, vars)[k] == image[k]
  {
    if vars != [] {
      assert !Patched(table, btf, |image|, vars[|vars| - 1]) || !Covers(vars[|vars| - 1], k);
      OtherBytesUnchanged(table, btf, image, vars[..|vars| - 1], k);
    }
  }

  predicate Disjoint(v: Variable, w: Variable) {
    v.offset + SLOT <= w.offset || w.offset + SLOT <= v.offset
  }

  /** What is stored in a slot. */
  function SlotValue(image: seq<Byte>, v: Variable): nat
    requires v.offset + SLOT <= |image|
  {
    ValueOf(image[v.offset..v.offset + SLOT])
  }

  /** A patched variable reads back its value unless a later patched one overlaps it. */
  lemma {:induction false} PatchedReadsBack(
      table: seq<EnumEntry>, btf: Btf, image: seq<Byte>, vars: seq<Variable>, i: nat)
    requires i < |vars| && Patched(table, btf, |image|, vars[i])
    requires forall j :: i < j < |vars| && Patched(table, btf, |image|, vars[j]) ==> Disjoint(vars[i], vars[j])
    ensures SlotValue(Image(table, btf, image, vars), vars[i]) == Resolved(table, btf, vars[i]).value
  {
    var n := |vars| - 1;
    if i == n {
      WordReadsBack(Resolved(table, btf, vars[i]).value);
    } else {
      var init, v := vars[..n], vars[i];
      PatchedReadsBack(table, btf, image, init, i);
      var before, after := Image(table, btf, image, init), Image(table, btf, image, vars);
      assert after[v.offset..v.offset + SLOT] == before[v.offset..v.offset + SLOT];
    }
  }

  /** The first row of the table for a variable name. */
  predicate IsRow(table: seq<EnumEntry>, name: string, k: nat) {
    k < |table| && table[k].varName == name && forall j :: 0 <= j < k ==> table[j].varName != name
  }

  predicate HasRow(table: seq<EnumEntry>, name: string) {
    exists k :: 0 <= k < |table| && table[k].varName == name
  }

  /** What a variable should hold: its name begins with `__SCX_`, and its first row denotes a word. */
  ghost predicate ShouldHold(table: seq<EnumEntry>, btf: Btf, v: Variable, word: Word) {
    && v.name.Some? && "__SCX_" <= v.name.value
    && exists k: nat :: IsRow(table, v.name.value, k)
                        && Denotes(btf, table[k].type_, table[k].name, Some(word))
  }

  lemma RowIsFirst(table: seq<EnumEntry>, name: string)
    ensures RowFor(table, name).Some? <==> HasRow(table, name)
    ensures forall k: nat :: IsRow(table, name, k) ==> RowFor(table, name) == Some(table[k])
    ensures HasRow(table, name) ==> exists k: nat :: IsRow(table, name, k)
  {
    var row := RowFor(table, name);
    if row.Some? {
      var i :| 0 <= i < |table| && table[i] == row.value && row.value.varName == name
               && forall j :: 0 <= j < i ==> table[j].varName != name;
      assert IsRow(table, name, i);
      forall k: nat | IsRow(table, name, k)
        ensures k == i
      {
        assert !(k < i) && !(i < k);
      }
    }
  }

  lemma ResolvedIff(table: seq<EnumEntry>, btf: Btf, v: Variable, word: Word)
    ensures Resolved(table, btf, v) == Some(word) <==> ShouldHold(table, btf, v, word)
  {
    if v.name.Some? && "__SCX_" <= v.name.value {
      RowIsFirst(table, v.name.value);
      var row := RowFor(table, v.name.value);
      if row.Some? {
        EnumValueDenotes(btf, row.value.type_, row.value.name, Some(word));
      }
    }
  }

  /**
   After the loader, every variable that should hold a word and whose slot lies within the
   section reads back that word, unless the slot of a later variable overlaps its slot.
   */
  lemma SlotHolds(
      table: seq<EnumEntry>, btf: Btf, image: seq<Byte>, vars: seq<Variable>, i: nat, word: Word)
    requires i < |vars| && ShouldHold(table, btf, vars[i], word) && vars[i].offset + 8 <= |image|
    requires forall j :: i < j < |vars| ==> Disjoint(vars[i], vars[j])
    ensures SlotValue(Image(table, btf, image, vars), vars[i]) == word
  {
    ResolvedIff(table, btf, vars[i], word);
    PatchedReadsBack(table, btf, image, vars, i);
  }

  /** And a byte that no such slot covers is unchanged. */
  lemma RestUnchanged(table: seq<EnumEntry>, btf: Btf, image: seq<Byte>, vars: seq<Variable>, k: nat)
    requires k < |image|
    requires forall i, word ::
      0 <= i < |vars| && ShouldHold(table, btf, vars[i], word) && vars[i].offset + 8 <= |image| ==>
        !(vars[i].offset <= k < vars[i].offset + 8)
    ensures Image(table, btf, image, vars)[k] == image[k]
  {
    forall i | 0 <= i < |vars| && Patched(table, btf, |image|, vars[i])
      ensures !Covers(vars[i], k)
    {
      ResolvedIff(table, btf, vars[i], Resolved(table, btf, vars[i]).value);
    }
    OtherBytesUnchanged(table, btf, image, vars, k);
  }

  lemma {:induction false} ZeroBytes(n: nat)
    ensures forall k :: 0 <= k < n ==> BytesOf(0, n)[k] == 0
  {
    if n > 0 {
      ZeroBytes(n - 1);
    }
  }

  /** The lowest byte comes first: a small value is its first byte, and zeros follow. */
  lemma SmallValueFirst(v: nat)
    requires v < 256
    ensures BytesOf(v, SLOT)[0] == v && forall k :: 1 <= k < SLOT ==> BytesOf(v, SLOT)[k] == 0
  {
    ZeroBytes(SLOT - 1);
    assert BytesOf(v, SLOT) == [v] + BytesOf(0, SLOT - 1);
  }

  /** With overlapping slots the first of two is overwritten. */
  lemma OverlapOverwrites(table: seq<EnumEntry>, btf: Btf, image: seq<Byte>, v: Variable, w: Variable)
    requires Patched(table, btf, |image|, v) && Patched(table, btf, |image|, w) && v.offset == w.offset
    ensures SlotValue(Image(table, btf, image, [v, w]), v) == Resolved(table, btf, w).value
  {
    PatchedReadsBack(table, btf, image, [v, w], 1);
  }

  /** The count is the number of patched variables. */
  lemma {:induction false} PatchCountIsNumberPatched(table: seq<EnumEntry>, btf: Btf, size: nat, vars: seq<Variable>)
    ensures PatchCount(table, btf, size, vars) == |PatchedIndices(table, btf, size, vars)|
  {
    if vars != [] {
      PatchCountIsNumberPatched(table, btf, size, vars[..|vars| - 1]);
      LastIndex(table, btf, size, vars);
    }
  }

  function PatchedIndices(table: seq<EnumEntry>, btf: Btf, size: nat, vars: seq<Variable>): set<nat> {
    set i: nat | i < |vars| && Patched(table, btf, size, vars[i])
  }

  lemma LastIndex(table: seq<EnumEntry>, btf: Btf, size: nat, vars: seq<Variable>)
    requires vars != []
    ensures var n := |vars| - 1;
            PatchedIndices(table, btf, size, vars)
            == PatchedIndices(table, btf, size, vars[..n]) + if Patched(table, btf, size, vars[n]) then {n} else {}
    ensures |vars| - 1 !in PatchedIndices(table, btf, size, vars[..|vars| - 1])
  {
    var n := |vars| - 1;
    forall i: nat | i < n
      ensures vars[..n][i] == vars[i]
    {
    }
  }
}

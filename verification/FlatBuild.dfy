/**
 What the builder's calls do to the bytes written so far, and the law they are for: every
 field of every table reads back what was added.

 Between calls the builder is the bytes `data`, lowest address first, the offsets of the
 vtables kept for reuse and, inside a table, the field locations tracked so far.
 */
module FlatBuild {
  import opened Bytes
  import opened Options
  import opened VectorDownward
  import opened FlatTable

  datatype FieldLoc = FieldLoc(off: nat, id: nat)

  const TWO31 := 0x8000_0000

  function FieldIndexToOffset(index: nat): nat {
    4 + 2 * index
  }

  predicate IsWidth(n: nat) {
    n == 1 || n == 2 || n == 4 || n == 8
  }

  /** n % w == 0 for a width w: see MultipleIs. Said by cases, because remainders by a variable are
      hard for the verifier. */
  predicate Multiple(n: int, w: nat) {
    || w == 1
    || (w == 2 && n % 2 == 0)
    || (w == 4 && n % 4 == 0)
    || (w == 8 && n % 8 == 0)
  }

  lemma MultipleIs(n: int, w: nat)
    requires IsWidth(w)
    ensures Multiple(n, w) <==> n % w == 0
  {
  }

  /** `size & (n - 1)`. */
  function LowBits(size: nat, n: nat): (r: nat)
    requires IsWidth(n)
    ensures r < n && Multiple(size - r, n)
  {
    if n == 1 then 0 else if n == 2 then size % 2 else if n == 4 then size % 4 else size % 8
  }

  /** `(~size + 1) & (n - 1)`: the fewest bytes that make the size a multiple of n. */
  function PaddingBytes(size: nat, n: nat): (r: nat)
    requires IsWidth(n)
    ensures r < n && Multiple(size + r, n)
  {
    if LowBits(size, n) == 0 then 0 else n - LowBits(size, n)
  }

  /** Align. */
  function Aligned(d: seq<byte>, n: nat): (r: seq<byte>)
    requires IsWidth(n)
    ensures |d| <= |r| < |d| + n && Multiple(|r|, n)
  {
    Zeros(PaddingBytes(|d|, n)) + d
  }

  lemma AlignedTwice(d: seq<byte>, n: nat)
    requires IsWidth(n) && Multiple(|d|, n)
    ensures Aligned(d, n) == d
  {
  }

  // Fields ---------------------------------------------------------------------------------

  /** One Add call of a generated table builder. A child is the number of an earlier table. */
  datatype Arg =
    | Scalar(index: nat, width: nat, value: nat, def: nat)
    | Ref(index: nat, child: Option<nat>)
  {
    function Id(): nat { FieldIndexToOffset(index) }

    function Width(): nat { if Scalar? then width else 4 }

    /** The last index whose vtable size still fits a voffset_t: see VtableHoldsField. */
    predicate Ok(tables: nat) {
      && Id() < 0xFFFE
      && (Scalar? ==> IsWidth(width) && value < Pow256(width) && def < Pow256(width))
      && (Ref? && child.Some? ==> child.value < tables)
    }

    /** AddElement drops defaults unless forced; AddOffset drops null. */
    predicate Stored(force: bool) {
      if Scalar? then force || value != def else child.Some?
    }

    /** The bytes pushed when the aligned buffer holds `size` bytes. */
    function Element(size: nat, tables: seq<nat>): (b: seq<byte>)
      requires Ok(|tables|) && Stored(true)
      requires Ref? ==> tables[child.value] <= size
      ensures |b| == Width()
    {
      if Scalar? then LE(value, width) else LE32(ReferTo(tables[child.value], size))
    }
  }

  function ReferTo(off: nat, size: nat): nat
    requires off <= size
  {
    size - off + 4
  }

  datatype Partial = Partial(data: seq<byte>, locs: seq<FieldLoc>)

  /** AddElement / AddOffset: Align, push, TrackField. */
  function Added(p: Partial, a: Arg, force: bool, tables: seq<nat>): (q: Partial)
    requires a.Ok(|tables|) && InBuffer(tables, p.data)
    ensures |p.data| <= |q.data|
  {
    if !a.Stored(force) then p else
    var d := Aligned(p.data, a.Width());
    var e := a.Element(|d|, tables) + d;
    Partial(e, p.locs + [FieldLoc(|e|, a.Id())])
  }

  /** minalign_ after an Add call, of which only the Align calls of elements stored count. */
  function AlignAfter(align: nat, a: Arg, force: bool): nat {
    if a.Stored(force) then Max(align, a.Width()) else align
  }

  function AlignAfterAll(align: nat, args: seq<Arg>, force: bool): nat {
    if args == [] then align else
    AlignAfter(AlignAfterAll(align, args[..|args| - 1], force), args[|args| - 1], force)
  }

  /** It is at least the width of every element stored. */
  lemma {:induction false} AlignCovers(align: nat, args: seq<Arg>, force: bool)
    ensures AlignAfterAll(align, args, force) >= align
    ensures forall i :: 0 <= i < |args| && args[i].Stored(force) ==>
                          args[i].Width() <= AlignAfterAll(align, args, force)
    ensures IsWidth(align) && (forall i :: 0 <= i < |args| ==> IsWidth(args[i].Width())) ==>
              IsWidth(AlignAfterAll(align, args, force))
  {
    if args != [] {
      var before := args[..|args| - 1];
      AlignCovers(align, before, force);
      assert forall i :: 0 <= i < |before| ==> args[i] == before[i];
    }
  }

  predicate InBuffer(tables: seq<nat>, d: seq<byte>) {
    forall k :: 0 <= k < |tables| ==> 0 < tables[k] <= |d|
  }

  predicate ArgsOk(args: seq<Arg>, tables: nat) {
    forall i :: 0 <= i < |args| ==> args[i].Ok(tables)
  }

  function AddedAll(d: seq<byte>, args: seq<Arg>, force: bool, tables: seq<nat>): (q: Partial)
    requires ArgsOk(args, |tables|) && InBuffer(tables, d)
    ensures |d| <= |q.data|
  {
    if args == [] then Partial(d, []) else
    var n := |args| - 1;
    Added(AddedAll(d, args[..n], force, tables), args[n], force, tables)
  }

  /** Offset of the location tracked for a vtable entry, 0 if there is none. */
  function OffOf(locs: seq<FieldLoc>, f: nat): nat {
    if locs == [] then 0
    else if locs[|locs| - 1].id == f then locs[|locs| - 1].off
    else OffOf(locs[..|locs| - 1], f)
  }

  /** A scalar is in the bytes at off, a multiple of its width, unless it is its default and
      defaults are not forced; a reference unless it is null. Otherwise off is 0. */
  predicate Held(d: seq<byte>, off: nat, a: Arg, force: bool, tables: seq<nat>)
    requires a.Ok(|tables|)
  {
    match a
    case Scalar(_, w, v, def) =>
      if v == def && !force then off == 0
      else off != 0 && Multiple(off, w) && ReadScalar(d, off, w) == Some(v)
    case Ref(_, c) =>
      if c.None? then off == 0
      else
        && off != 0 && Multiple(off, 4) && tables[c.value] < off
        && ReadScalar(d, off, 4) == Some(off - tables[c.value])
  }

  predicate NoArg(args: seq<Arg>, f: nat) {
    forall i :: 0 <= i < |args| ==> args[i].Id() != f
  }

  predicate Distinct(args: seq<Arg>) {
    forall i, j :: 0 <= i < j < |args| ==> args[i].Id() != args[j].Id()
  }

  predicate LocOk(l: FieldLoc, start: nat, size: nat) {
    start < l.off <= size && 4 <= l.id < 0xFFFE && l.id % 2 == 0
  }

  predicate LocsOk(locs: seq<FieldLoc>, start: nat, size: nat) {
    forall k :: 0 <= k < |locs| ==> LocOk(locs[k], start, size)
  }

  /** What holds inside a table after some Add calls. */
  ghost predicate Progress(p: Partial, start: nat, args: seq<Arg>, force: bool, tables: seq<nat>) {
    && LocsOk(p.locs, start, |p.data|)
    && (forall i :: 0 <= i < |args| ==>
         args[i].Ok(|tables|) && Held(p.data, OffOf(p.locs, args[i].Id()), args[i], force, tables))
    && (forall f :: NoArg(args, f) ==> OffOf(p.locs, f) == 0)
  }

  lemma HeldStable(e: seq<byte>, d: seq<byte>, off: nat, a: Arg, force: bool, tables: seq<nat>)
    requires Keeps(e, d) && a.Ok(|tables|) && Held(d, off, a, force, tables)
    ensures Held(e, off, a, force, tables)
  {
  }

  /** An Add call leaves all the bytes before it readable where they were. */
  lemma AddedStable(p: Partial, a: Arg, force: bool, tables: seq<nat>, q: Partial)
    requires a.Ok(|tables|) && InBuffer(tables, p.data) && q == Added(p, a, force, tables)
    ensures Keeps(q.data, p.data)
  {
    if a.Stored(force) {
      var d := Aligned(p.data, a.Width());
      Prepended(Zeros(PaddingBytes(|p.data|, a.Width())), p.data);
      Prepended(a.Element(|d|, tables), d);
    }
  }

  /** The element just pushed is at offset |e|. */
  lemma ReadTop(bytes: seq<byte>, d: seq<byte>)
    ensures Read(bytes + d, |bytes| + |d|, |bytes|) == Some(bytes)
  {
    assert (bytes + d)[..|bytes|] == bytes;
  }

  lemma OneMore(size: nat, n: nat)
    requires IsWidth(n) && Multiple(size, n)
    ensures Multiple(n + size, n)
  {
    if n == 8 {
      EightMore(size);
    } else if n == 4 {
      FourMore(size);
    }
  }

  lemma EightMore(size: nat)
    requires size % 8 == 0
    ensures (8 + size) % 8 == 0
  {
  }

  lemma FourMore(size: nat)
    requires size % 4 == 0
    ensures (4 + size) % 4 == 0
  {
  }

  lemma PushedIsHeld(p: Partial, a: Arg, force: bool, tables: seq<nat>, q: Partial)
    requires a.Ok(|tables|) && a.Stored(force) && InBuffer(tables, p.data)
    requires q == Added(p, a, force, tables) && |q.data| < TWO31
    ensures Held(q.data, |q.data|, a, force, tables)
  {
    var d := Aligned(p.data, a.Width());
    var b := a.Element(|d|, tables);
    ReadTop(b, d);
    Pow256Values();
    OneMore(|d|, a.Width());
    if a.Scalar? {
      NumLE(a.value, a.width);
    } else {
      LE32Num(|q.data| - tables[a.child.value]);
    }
  }

  lemma AddedKeeps(p: Partial, start: nat, args: seq<Arg>, a: Arg, force: bool, tables: seq<nat>, q: Partial)
    requires Progress(p, start, args, force, tables) && InBuffer(tables, p.data) && start <= |p.data|
    requires a.Ok(|tables|) && NoArg(args, a.Id())
    requires q == Added(p, a, force, tables) && |q.data| < TWO31
    ensures Progress(q, start, args + [a], force, tables)
  {
    var all := args + [a];
    forall f | NoArg(all, f)
      ensures OffOf(q.locs, f) == 0
    {
      assert all[|args|] == a;
      assert NoArg(args, f) by {
        forall i | 0 <= i < |args| ensures args[i].Id() != f { assert all[i] == args[i]; }
      }
      AddedOffOf(p, a, force, tables, q, f);
    }
    AddedStable(p, a, force, tables, q);
    forall i | 0 <= i < |all|
      ensures all[i].Ok(|tables|) && Held(q.data, OffOf(q.locs, all[i].Id()), all[i], force, tables)
    {
      AddedOffOf(p, a, force, tables, q, all[i].Id());
      if i < |args| {
        HeldStable(q.data, p.data, OffOf(p.locs, args[i].Id()), args[i], force, tables);
      } else if a.Stored(force) {
        PushedIsHeld(p, a, force, tables, q);
      }
    }
  }

  lemma AddedOffOf(p: Partial, a: Arg, force: bool, tables: seq<nat>, q: Partial, f: nat)
    requires a.Ok(|tables|) && InBuffer(tables, p.data) && q == Added(p, a, force, tables)
    ensures OffOf(q.locs, f) == if a.Stored(force) && a.Id() == f then |q.data| else OffOf(p.locs, f)
  {
    if a.Stored(force) {
      assert q.locs[..|q.locs| - 1] == p.locs;
    }
  }

  lemma DistinctPrefix(args: seq<Arg>, before: seq<Arg>, a: Arg)
    requires Distinct(args) && args == before + [a]
    ensures Distinct(before) && NoArg(before, a.Id())
  {
    assert forall i :: 0 <= i < |before| ==> before[i] == args[i];
    assert args[|before|] == a;
  }

  lemma {:induction false} AddedAllProgress(d: seq<byte>, args: seq<Arg>, force: bool, tables: seq<nat>, q: Partial)
    requires ArgsOk(args, |tables|) && InBuffer(tables, d) && Distinct(args)
    requires q == AddedAll(d, args, force, tables) && |q.data| < TWO31
    ensures Progress(q, |d|, args, force, tables) && Keeps(q.data, d)
  {
    if args != [] {
      var n := |args| - 1;
      var before, a := args[..n], args[n];
      var p := AddedAll(d, before, force, tables);
      assert q == Added(p, a, force, tables);
      assert args == before + [a];
      DistinctPrefix(args, before, a);
      assert |p.data| <= |q.data|;
      AddedAllProgress(d, before, force, tables, p);
      AddedKeeps(p, |d|, before, a, force, tables, q);
      AddedStable(p, a, force, tables, q);
    }
  }

  // Vtables --------------------------------------------------------------------------------

  function MaxId(locs: seq<FieldLoc>): nat {
    if locs == [] then 0 else Max(MaxId(locs[..|locs| - 1]), locs[|locs| - 1].id)
  }

  /** EndTable's new max_voffset_, computed in 16 bits. */
  function VtableSize(maxId: nat): nat {
    Max((maxId + 2) % 0x1_0000, 4)
  }

  /** FieldIndexToOffset lets offset 65534 through, but then the size wraps to 4 and the entry
      lies outside the vtable; for every smaller even offset the entry is inside. */
  lemma VtableHoldsField(id: nat)
    requires id % 2 == 0 && 4 <= id < 0xFFFF
    ensures id + 2 <= VtableSize(id) <==> id != 0xFFFE
    ensures VtableSize(0xFFFE) == 4
  {
  }

  /** WriteScalar of a voffset_t: the low 16 bits of v, at index f. */
  function Put(vt: seq<byte>, f: nat, v: nat): (r: seq<byte>)
    requires f + 2 <= |vt|
    ensures |r| == |vt|
  {
    vt[f := v % 256][f + 1 := v / 256 % 256]
  }

  lemma PutEntry(vt: seq<byte>, id: nat, v: nat, f: nat)
    requires id + 2 <= |vt| && f + 2 <= |vt| && id % 2 == 0 && f % 2 == 0
    ensures Entry(Put(vt, id, v), f) == if f == id then v % 0x1_0000 else Entry(vt, f)
  {
    if f == id {
      assert v % 0x1_0000 == v % 256 + 256 * (v / 256 % 256);
    } else {
      assert f + 1 < id || id + 1 < f;
    }
  }

  /** A vtable before its entries are written. */
  function Header(size: nat, objectSize: nat): (h: seq<byte>)
    requires size >= 4
    ensures |h| == size
  {
    Put(Put(Zeros(size), 2, objectSize), 0, size)
  }

  lemma HeaderEntry(size: nat, objectSize: nat, f: nat)
    requires size >= 4 && f % 2 == 0 && f + 2 <= size
    ensures Entry(Header(size, objectSize), f) ==
            if f == 0 then size % 0x1_0000 else if f == 2 then objectSize % 0x1_0000 else 0
  {
    PutEntry(Put(Zeros(size), 2, objectSize), 0, size, f);
    PutEntry(Zeros(size), 2, objectSize, f);
  }

  predicate EntriesFit(locs: seq<FieldLoc>, size: nat, table: nat) {
    forall k :: 0 <= k < |locs| ==> locs[k].id % 2 == 0 && locs[k].id + 2 <= size && 0 < locs[k].off <= table
  }

  /** The loop that writes one entry per tracked field. */
  function Written(vt: seq<byte>, locs: seq<FieldLoc>, table: nat): (r: seq<byte>)
    requires EntriesFit(locs, |vt|, table)
    ensures |r| == |vt|
  {
    if locs == [] then vt else
    var l := locs[|locs| - 1];
    Put(Written(vt, locs[..|locs| - 1], table), l.id, table - l.off)
  }

  /** Entry f of the written vtable: the distance to the field tracked for f, else unchanged. */
  lemma {:induction false} WrittenAt(vt: seq<byte>, locs: seq<FieldLoc>, table: nat, f: nat, off: nat)
    requires EntriesFit(locs, |vt|, table) && f % 2 == 0 && f + 2 <= |vt| && off == OffOf(locs, f)
    ensures off <= table
    ensures Entry(Written(vt, locs, table), f) == if off == 0 then Entry(vt, f) else (table - off) % 0x1_0000
  {
    if locs != [] {
      var n := |locs| - 1;
      var before, l := locs[..n], locs[n];
      WrittenAt(vt, before, table, f, OffOf(before, f));
      PutEntry(Written(vt, before, table), l.id, table - l.off, f);
    }
  }

  lemma {:induction false} MaxIdBounds(locs: seq<FieldLoc>, start: nat, size: nat)
    requires LocsOk(locs, start, size)
    ensures MaxId(locs) < 0xFFFE && MaxId(locs) % 2 == 0
    ensures forall k :: 0 <= k < |locs| ==> locs[k].id <= MaxId(locs)
  {
    if locs != [] {
      MaxIdBounds(locs[..|locs| - 1], start, size);
    }
  }

  function TableLoc(d: seq<byte>): (loc: nat)
    ensures |d| + 4 <= loc < |d| + 8 && loc % 4 == 0
  {
    |Aligned(d, 4)| + 4
  }

  /** The vtable EndTable writes. */
  function Vtable(locs: seq<FieldLoc>, start: nat, table: nat): (vt: seq<byte>)
    requires LocsOk(locs, start, table) && start <= table
    ensures |vt| == VtableSize(MaxId(locs))
  {
    MaxIdBounds(locs, start, table);
    Written(Header(VtableSize(MaxId(locs)), table - start), locs, table)
  }

  /** The distance a reader finds for entry f. */
  function Distance(locs: seq<FieldLoc>, table: int, f: nat): int {
    if OffOf(locs, f) == 0 then 0 else table - OffOf(locs, f)
  }

  lemma VtableIs(locs: seq<FieldLoc>, start: nat, size: nat, table: nat, vt: seq<byte>)
    requires start <= size < table && LocsOk(locs, start, size) && vt == Vtable(locs, start, table)
    ensures 4 <= |vt| < 0x1_0000 && |vt| % 2 == 0 && |vt| >= MaxId(locs) + 2
    ensures EntriesFit(locs, |vt|, table) && vt == Written(Header(|vt|, table - start), locs, table)
  {
    var m := MaxId(locs);
    MaxIdBounds(locs, start, size);
    VtableSizeIs(m);
    FitsBelow(locs, start, size, table, |vt|, m);
  }

  lemma VtableSizeIs(m: nat)
    requires m < 0xFFFE && m % 2 == 0
    ensures 4 <= VtableSize(m) < 0x1_0000 && VtableSize(m) % 2 == 0 && VtableSize(m) >= m + 2
  {
  }

  lemma FitsBelow(locs: seq<FieldLoc>, start: nat, size: nat, table: nat, n: nat, m: nat)
    requires LocsOk(locs, start, size) && size <= table && m + 2 <= n
    requires forall k :: 0 <= k < |locs| ==> locs[k].id <= m
    ensures EntriesFit(locs, n, table)
  {
    forall k | 0 <= k < |locs|
      ensures locs[k].id % 2 == 0 && locs[k].id + 2 <= n && 0 < locs[k].off <= table
    {
      assert LocOk(locs[k], start, size);
    }
  }

  lemma WrittenHeader(size: nat, objectSize: nat, locs: seq<FieldLoc>, table: nat, f: nat, off: nat)
    requires 4 <= size < 0x1_0000 && objectSize < 0x1_0000 && f % 2 == 0 && f + 2 <= size
    requires EntriesFit(locs, size, table) && off == OffOf(locs, f) && (off != 0 ==> table - off < 0x1_0000)
    ensures off <= table
    ensures Entry(Written(Header(size, objectSize), locs, table), f) ==
            if off != 0 then table - off
            else if f == 0 then size else if f == 2 then objectSize else 0
  {
    WrittenAt(Header(size, objectSize), locs, table, f, off);
    HeaderEntry(size, objectSize, f);
  }

  /** The vtable's size entry and its object size entry. */
  lemma VtableSizes(locs: seq<FieldLoc>, start: nat, size: nat, table: nat, vt: seq<byte>)
    requires start <= size < table < start + 0x1_0000 && LocsOk(locs, start, size)
    requires vt == Vtable(locs, start, table)
    ensures 4 <= |vt| < 0x1_0000 && |vt| % 2 == 0 && Entry(vt, 0) == |vt| && Entry(vt, 2) == table - start
  {
    VtableIs(locs, start, size, table, vt);
    NoHeaderEntry(locs, start, size);
    WrittenHeader(|vt|, table - start, locs, table, 0, 0);
    WrittenHeader(|vt|, table - start, locs, table, 2, 0);
  }

  lemma EvenBelow(f: nat, n: nat)
    requires f % 2 == 0 && n % 2 == 0 && f < n
    ensures f + 2 <= n
  {
  }

  /** Its entry for a field. */
  lemma VtableEntry(locs: seq<FieldLoc>, start: nat, size: nat, table: nat, f: nat, vt: seq<byte>)
    requires start <= size < table < start + 0x1_0000 && LocsOk(locs, start, size)
    requires f % 2 == 0 && f >= 4 && vt == Vtable(locs, start, table)
    ensures f < |vt| ==> f + 2 <= |vt| && Entry(vt, f) == Distance(locs, table, f)
    ensures f >= |vt| ==> Distance(locs, table, f) == 0
  {
    VtableIs(locs, start, size, table, vt);
    var off := OffOf(locs, f);
    OffOfBounds(locs, start, size, f);
    if f < |vt| {
      EvenBelow(f, |vt|);
      WrittenHeader(|vt|, table - start, locs, table, f, off);
    }
  }

  lemma {:induction false} NoHeaderEntry(locs: seq<FieldLoc>, start: nat, size: nat)
    requires LocsOk(locs, start, size)
    ensures forall f :: f < 4 ==> OffOf(locs, f) == 0
  {
    if locs != [] {
      NoHeaderEntry(locs[..|locs| - 1], start, size);
    }
  }

  lemma {:induction false} OffOfBounds(locs: seq<FieldLoc>, start: nat, size: nat, f: nat)
    requires LocsOk(locs, start, size)
    ensures OffOf(locs, f) != 0 ==> start < OffOf(locs, f) <= size && f <= MaxId(locs)
  {
    if locs != [] {
      OffOfBounds(locs[..|locs| - 1], start, size, f);
    }
  }
}

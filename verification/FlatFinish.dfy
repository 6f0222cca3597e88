/** The finished buffer: its root, its fields, and where they lie from its first byte on. */
module FlatFinish {
  import opened Bytes
  import opened Options
  import opened VectorDownward
  import opened FlatTable
  import opened FlatBuild
  import opened FlatRoundTrip

  /** The alignment Finish uses: minalign_ after tracking the size prefix. */
  function FinishAlign(align: nat, prefix: nat): nat {
    Max(align, prefix)
  }

  predicate CanFinish(d: seq<byte>, root: nat, align: nat, prefix: nat) {
    root <= |d| && (prefix == 0 || prefix == 4) && IsWidth(align) && align >= 4
  }

  /** Finish without identifier, up to the root's ReferTo: PreAlign and Align. `prefix` is the
      number of bytes, 0 or 4, that FinishSizePrefixed puts in front of the rest. */
  function Padded(d: seq<byte>, align: nat, prefix: nat): (r: seq<byte>)
    requires IsWidth(align)
  {
    Aligned(Zeros(PaddingBytes(|d| + prefix + 4, align)) + d, 4)
  }

  function Finished(d: seq<byte>, root: nat, align: nat, prefix: nat): (r: seq<byte>)
    requires CanFinish(d, root, align, prefix)
    ensures |r| > |d| && Multiple(prefix + |r|, align)
  {
    PaddedSize(d, align, prefix);
    LE32(ReferTo(root, |Padded(d, align, prefix)|)) + Padded(d, align, prefix)
  }

  /** Align has nothing to do after PreAlign. */
  lemma PaddedSize(d: seq<byte>, align: nat, prefix: nat)
    requires (prefix == 0 || prefix == 4) && IsWidth(align) && align >= 4
    ensures |d| <= |Padded(d, align, prefix)| && Multiple(prefix + 4 + |Padded(d, align, prefix)|, align)
  {
    var k := PaddingBytes(|d| + prefix + 4, align);
    AlignedTwice(Zeros(k) + d, 4) by { LessPrefix(|d| + k, prefix, align); }
  }

  lemma LessPrefix(n: nat, prefix: nat, align: nat)
    requires (prefix == 0 || prefix == 4) && (align == 4 || align == 8) && Multiple(n + prefix + 4, align)
    ensures n % 4 == 0
  {
  }

  /** GetRoot: the buffer starts with the distance to the root table. */
  function GetRoot(d: seq<byte>): Option<int> {
    var r := ReadScalar(d, |d|, 4);
    if r.Some? then Some(|d| - r.value) else None
  }

  lemma FinishedRoot(d: seq<byte>, root: nat, align: nat, prefix: nat, r: seq<byte>)
    requires CanFinish(d, root, align, prefix) && |d| < TWO31 && r == Finished(d, root, align, prefix)
    ensures GetRoot(r) == Some(root) && Keeps(r, d)
  {
    var pad := Zeros(PaddingBytes(|d| + prefix + 4, align));
    var e := pad + d;
    var z := Zeros(PaddingBytes(|e|, 4));
    var a := z + e;
    var w := LE32(ReferTo(root, |a|));
    Prepended(pad, d);
    Prepended(z, e);
    Prepended(w, a);
    ReadTop(w, a);
    Pow256Values();
    LE32Num(ReferTo(root, |a|));
  }

  /** At least the width of every element the table stores. */
  predicate Covers(align: nat, m: Message) {
    forall i :: 0 <= i < |m.args| && m.args[i].Stored(m.force) ==> m.args[i].Width() <= align
  }

  predicate CoversAll(align: nat, msgs: seq<Message>) {
    && IsWidth(align) && (msgs != [] ==> align >= 4)
    && forall k :: 0 <= k < |msgs| ==> Covers(align, msgs[k])
  }

  /** minalign_ is a width, at least 4 after the first table, and covers every element stored. */
  lemma {:induction false} AlignIs(msgs: seq<Message>, s: State)
    requires WellFormed(msgs) && BuildAll(msgs) == Some(s)
    ensures CoversAll(s.align, msgs)
    decreases |msgs|
  {
    if msgs != [] {
      var before, m, r := LastAlign(msgs, s);
      AlignIs(before, r);
      CoversOneMore(r.align, before, m, s.align, msgs);
    }
  }

  /** So a builder with a table in it can be finished. */
  lemma AlwaysFinishes(msgs: seq<Message>, s: State, root: nat, prefix: nat)
    requires WellFormed(msgs) && BuildAll(msgs) == Some(s) && root < |msgs| && (prefix == 0 || prefix == 4)
    ensures CanFinish(s.data, s.tables[root], FinishAlign(s.align, prefix), prefix)
  {
    AlignIs(msgs, s);
  }

  lemma CoversOneMore(align: nat, before: seq<Message>, m: Message, after: nat, msgs: seq<Message>)
    requires CoversAll(align, before) && msgs == before + [m] && ArgsOk(m.args, |before|)
    requires after == TableAlign(align, m)
    ensures CoversAll(after, msgs)
  {
    AlignCovers(align, m.args, m.force);
    forall k | 0 <= k < |msgs| ensures Covers(after, msgs[k]) {
      assert k < |before| ==> Covers(align, before[k]);
    }
  }

  lemma LastAlign(msgs: seq<Message>, s: State) returns (before: seq<Message>, m: Message, r: State)
    requires WellFormed(msgs) && BuildAll(msgs) == Some(s) && msgs != []
    ensures msgs == before + [m] && WellFormed(before) && ArgsOk(m.args, |before|)
    ensures BuildAll(before) == Some(r) && s.align == TableAlign(r.align, m)
  {
    before, m := msgs[..|msgs| - 1], msgs[|msgs| - 1];
    r := BuildAll(before).value;
    var p, b := BuildTableParts(r, m, s);
  }

  /** Whatever is put in front of the tables, they keep their answers. */
  lemma TableKept(msgs: seq<Message>, s: State, e: seq<byte>, k: nat)
    requires WellFormed(msgs) && BuildAll(msgs) == Some(s) && k < |msgs| && Keeps(e, s.data)
    ensures TableOk(e, s.tables[k], msgs[k].args, msgs[k].force, s.tables)
  {
    RoundTrip(msgs, s, k);
    TableStable(e, s.data, s.tables[k], msgs[k].args, msgs[k].force, s.tables, []);
    assert s.tables + [] == s.tables;
  }

  /** From the first byte of the finished buffer to every field of every table. */
  lemma FinishedRoundTrip(msgs: seq<Message>, s: State, root: nat, prefix: nat, r: seq<byte>, k: nat)
    requires WellFormed(msgs) && BuildAll(msgs) == Some(s) && root < |msgs| && k < |msgs|
    requires CanFinish(s.data, s.tables[root], FinishAlign(s.align, prefix), prefix)
    requires r == Finished(s.data, s.tables[root], FinishAlign(s.align, prefix), prefix)
    ensures GetRoot(r) == Some(s.tables[root])
    ensures TableOk(r, s.tables[k], msgs[k].args, msgs[k].force, s.tables)
  {
    FinishedRoot(s.data, s.tables[root], FinishAlign(s.align, prefix), prefix, r);
    TableKept(msgs, s, r, k);
  }

  // Alignment --------------------------------------------------------------------------------

  /** A table and its vtable lie at multiples of the size of their words. */
  predicate Sits(d: seq<byte>, table: nat) {
    var use := GetVTable(d, table);
    table % 4 == 0 && use.Some? && use.value % 2 == 0
  }

  predicate Even(vtables: seq<nat>) {
    forall i :: 0 <= i < |vtables| ==> vtables[i] % 2 == 0
  }

  /** The offset in use is an old one or lies an even number of bytes in front of the table. */
  lemma UseIsEven(vtables: seq<nat>, reuse: Option<nat>, table: nat, size: nat, use: nat)
    requires Even(vtables) && table % 4 == 0 && size % 2 == 0
    requires reuse.Some? ==> reuse.value in vtables
    requires use == if reuse.Some? then reuse.value else table + size
    ensures use % 2 == 0 && Even(if reuse.Some? then vtables else vtables + [use])
  {
  }

  lemma EndedSits(d: seq<byte>, locs: seq<FieldLoc>, start: nat, vtables: seq<nat>, dedup: bool, b: Built)
    requires start <= |d| && LocsOk(locs, start, |d|) && Ended(d, locs, start, vtables, dedup) == Some(b)
    requires Even(vtables)
    ensures Sits(b.data, b.table) && Even(b.vtables)
  {
    var vt, reuse, use := EndedUsing(d, locs, start, vtables, dedup, b);
    UseIsEven(vtables, reuse, b.table, |vt|, use);
    assert GetVTable(b.data, b.table) == Some(use) by {
      EndedParts(d, locs, start, vtables, dedup, b, vt, use);
      VTableIs(b.data, b.table, use);
    }
  }

  lemma EndedUsing(d: seq<byte>, locs: seq<FieldLoc>, start: nat, vtables: seq<nat>, dedup: bool, b: Built)
    returns (vt: seq<byte>, reuse: Option<nat>, use: nat)
    requires start <= |d| && LocsOk(locs, start, |d|) && Ended(d, locs, start, vtables, dedup) == Some(b)
    ensures b.table % 4 == 0 && start <= b.table && LocsOk(locs, start, b.table) && vt == Vtable(locs, start, b.table)
    ensures |vt| >= 4 && |vt| % 2 == 0
    ensures reuse == Reused(d, vtables, dedup, vt) && (reuse.Some? ==> reuse.value in vtables)
    ensures use == if reuse.Some? then reuse.value else b.table + |vt|
    ensures b.vtables == if reuse.Some? then vtables else vtables + [use]
  {
    var table := TableLoc(d);
    vt := Vtable(locs, start, table);
    VtableIs(locs, start, |d|, table, vt);
    reuse := Reused(d, vtables, dedup, vt);
    use := if reuse.Some? then reuse.value else table + |vt|;
    EndedIs(d, locs, start, vtables, dedup, table, vt, reuse, use);
  }

  lemma SitsStable(e: seq<byte>, d: seq<byte>, table: nat)
    requires Keeps(e, d) && Sits(d, table)
    ensures Sits(e, table) && GetVTable(e, table) == GetVTable(d, table)
  {
  }

  lemma {:induction false} TablesSit(msgs: seq<Message>, s: State, k: nat)
    requires WellFormed(msgs) && BuildAll(msgs) == Some(s)
    ensures Even(s.vtables) && (k < |msgs| ==> Sits(s.data, s.tables[k]))
  {
    if msgs != [] {
      var n := |msgs| - 1;
      var r := BuildAll(msgs[..n]).value;
      TablesSit(msgs[..n], r, k);
      TableSits(r, msgs[n], s);
      if k < n {
        SitsStable(s.data, r.data, r.tables[k]);
      }
    }
  }

  lemma TableSits(r: State, m: Message, s: State)
    requires ArgsOk(m.args, |r.tables|) && Distinct(m.args) && InBuffer(r.tables, r.data)
    requires BuildTable(r, m) == Some(s) && Even(r.vtables)
    ensures Even(s.vtables) && Sits(s.data, s.tables[|r.tables|])
    ensures Keeps(s.data, r.data) && s.tables == r.tables + [s.tables[|r.tables|]]
  {
    var p, b := BuildTableParts(r, m, s);
    EndedSits(p.data, p.locs, |r.data|, r.vtables, m.dedup, b);
    EndedStable(p.data, p.locs, |r.data|, r.vtables, m.dedup, b);
  }

  /** The index, in a block of `total` bytes, of what is `off` bytes from its end. */
  function Index(total: nat, off: int): int {
    total - off
  }

  lemma Divides(total: nat, off: int, align: nat, width: nat)
    requires IsWidth(align) && IsWidth(width) && width <= align && Multiple(total, align) && Multiple(off, width)
    ensures Multiple(Index(total, off), width)
  {
    Narrower(total, align, width);
    Difference(total, off, width);
  }

  lemma Narrower(n: nat, align: nat, width: nat)
    requires IsWidth(align) && IsWidth(width) && width <= align && Multiple(n, align)
    ensures Multiple(n, width)
  {
    if align == 8 {
      var q := n / 8;
      assert n == 8 * q;
    } else if align == 4 {
      var q := n / 4;
      assert n == 4 * q;
    }
  }

  lemma Difference(n: nat, off: int, width: nat)
    requires IsWidth(width) && Multiple(n, width) && Multiple(off, width)
    ensures Multiple(Index(n, off), width)
  {
    if width == 8 {
      var p, q := n / 8, off / 8;
      assert n == 8 * p && off == 8 * q;
    } else if width == 4 {
      var p, q := n / 4, off / 4;
      assert n == 4 * p && off == 4 * q;
    }
  }

  /** From the first byte of a block of `total` bytes, the table's word, its vtable and the field
      a, if it is there, lie at multiples of their widths. */
  predicate LinesUp(total: nat, table: nat, use: Option<int>, o: Option<nat>, a: Arg, force: bool) {
    && Multiple(Index(total, table), 4)
    && use.Some? && Multiple(Index(total, use.value), 2)
    && o.Some?
    && (match a
        case Scalar(_, _, v, def) => o.value != 0 <==> force || v != def
        case Ref(_, c) => o.value != 0 <==> c.Some?)
    && (o.value != 0 ==> Multiple(Index(total, table - o.value), a.Width()))
  }

  /** As the reader finds them in d, which ends the block. */
  predicate InLine(total: nat, d: seq<byte>, table: nat, a: Arg, force: bool) {
    LinesUp(total, table, GetVTable(d, table), GetOptionalFieldOffset(d, table, 4 + 2 * a.index), a, force)
  }

  lemma PlacedInLine(total: nat, align: nat, d: seq<byte>, table: nat, a: Arg, force: bool, tables: seq<nat>)
    requires IsWidth(align) && align >= 4 && Multiple(total, align) && Sits(d, table)
    requires a.Ok(|tables|) && Placed(d, table, a, force, tables) && (a.Stored(force) ==> a.Width() <= align)
    ensures InLine(total, d, table, a, force)
  {
    Divides(total, table, align, 4);
    Divides(total, GetVTable(d, table).value, align, 2);
    var o := GetOptionalFieldOffset(d, table, a.Id()).value;
    if o != 0 {
      Divides(total, table - o, align, a.Width());
    }
  }

  predicate TableInLine(total: nat, d: seq<byte>, table: nat, m: Message) {
    forall i :: 0 <= i < |m.args| ==> InLine(total, d, table, m.args[i], m.force)
  }

  lemma FieldInLine(msgs: seq<Message>, s: State, total: nat, align: nat, k: nat, i: nat)
    requires WellFormed(msgs) && BuildAll(msgs) == Some(s) && k < |msgs| && i < |msgs[k].args|
    requires IsWidth(align) && align >= s.align && Multiple(total, align)
    ensures InLine(total, s.data, s.tables[k], msgs[k].args[i], msgs[k].force)
  {
    AlignIs(msgs, s);
    assert Covers(s.align, msgs[k]);
    TablesSit(msgs, s, k);
    RoundTrip(msgs, s, k);
    PlacedInLine(total, align, s.data, s.tables[k], msgs[k].args[i], msgs[k].force, s.tables);
  }

  lemma InLineStable(total: nat, e: seq<byte>, d: seq<byte>, table: nat, a: Arg, force: bool)
    requires Keeps(e, d) && InLine(total, d, table, a, force)
    ensures InLine(total, e, table, a, force)
  {
    VTableStable(e, d, table);
    FieldOffsetStable(e, d, table, 4 + 2 * a.index);
  }

  /** The bytes e, at the end of a block of `total` bytes, have those of s at their end, and the
      block's length is a multiple of all the widths in them. */
  ghost predicate Lays(total: nat, e: seq<byte>, s: State, align: nat) {
    Keeps(e, s.data) && IsWidth(align) && align >= s.align && Multiple(total, align)
  }

  lemma TableLinesUp(msgs: seq<Message>, s: State, total: nat, align: nat, e: seq<byte>, k: nat)
    requires WellFormed(msgs) && BuildAll(msgs) == Some(s) && k < |msgs| && Lays(total, e, s, align)
    ensures TableInLine(total, e, s.tables[k], msgs[k])
  {
    forall i | 0 <= i < |msgs[k].args|
      ensures InLine(total, e, s.tables[k], msgs[k].args[i], msgs[k].force)
    {
      FieldInLine(msgs, s, total, align, k, i);
      InLineStable(total, e, s.data, s.tables[k], msgs[k].args[i], msgs[k].force);
    }
  }

  lemma FinishedLays(s: State, root: nat, prefix: nat, align: nat, r: seq<byte>)
    requires root < |s.tables| && align == FinishAlign(s.align, prefix) && |s.data| < TWO31
    requires CanFinish(s.data, s.tables[root], align, prefix) && r == Finished(s.data, s.tables[root], align, prefix)
    ensures Lays(prefix + |r|, r, s, align)
  {
    FinishedRoot(s.data, s.tables[root], align, prefix, r);
  }

  /** In the finished block, its size prefix included, every table, every vtable and every field
      stored lies at a multiple of its width from the first byte; the block's length is a multiple
      of minalign_, and so of all these widths. */
  lemma AllAligned(msgs: seq<Message>, s: State, root: nat, prefix: nat, align: nat, r: seq<byte>, k: nat)
    requires WellFormed(msgs) && BuildAll(msgs) == Some(s) && root < |msgs| && k < |msgs|
    requires align == FinishAlign(s.align, prefix) && CanFinish(s.data, s.tables[root], align, prefix)
    requires r == Finished(s.data, s.tables[root], align, prefix)
    ensures Lays(prefix + |r|, r, s, align) && TableInLine(prefix + |r|, r, s.tables[k], msgs[k])
  {
    FinishedLays(s, root, prefix, align, r);
    TableLinesUp(msgs, s, prefix + |r|, align, r, k);
  }
}

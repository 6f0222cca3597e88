/**
 The builder object: a downward vector with the bytes written so far and, in its scratch area,
 the offsets of the vtables kept for reuse and the fields of the table under way.
 */
module TableBuilder {
  import opened Bytes
  import opened Options
  import opened VectorDownward
  import opened FlatTable
  import opened FlatBuild
  import opened FlatRoundTrip
  import opened FlatFinish
  import opened Scratchpad

  predicate DistinctIds(locs: seq<FieldLoc>) {
    forall i, j :: 0 <= i < j < |locs| ==> locs[i].id != locs[j].id
  }

  lemma PutFront(vt: seq<byte>, rest: seq<byte>, f: nat, v: nat)
    requires f + 2 <= |vt|
    ensures Put(vt + rest, f, v) == Put(vt, f, v) + rest
  {
  }

  /** WriteScalar of a voffset_t. */
  lemma SplicePut(d: seq<byte>, f: nat, v: nat)
    requires f + 2 <= |d|
    ensures Splice(d, f, LE(v, 2)) == Put(d, f, v)
  {
    var w := LE(v, 2);
    assert w[0] == v % 256;
    assert w[1..] == LE(v / 256, 1) && LE(v / 256, 1)[0] == v / 256 % 256;
  }

  lemma EntryFront(vt: seq<byte>, rest: seq<byte>, f: nat)
    requires f + 2 <= |vt|
    ensures Entry(vt + rest, f) == Entry(vt, f)
  {
  }

  /** No entry is written twice: the source asserts that it finds zero. */
  lemma {:induction false} NotYetWritten(size: nat, objectSize: nat, locs: seq<FieldLoc>, table: nat, i: nat)
    requires 4 <= size < 0x1_0000 && objectSize < 0x1_0000 && EntriesFit(locs, size, table) && DistinctIds(locs)
    requires i < |locs| && locs[i].id >= 4
    ensures Entry(Written(Header(size, objectSize), locs[..i], table), locs[i].id) == 0
  {
    var f := locs[i].id;
    NoneBefore(locs, i, i, f);
    WrittenHeader(size, objectSize, locs[..i], table, f, 0);
  }

  /** How the vtable of `size` bytes fills up: ws[i] is what it is before turn i of the loop over
      the locations, and ws[|locs|] what it is after the last. */
  datatype Filling = Filling(size: nat, objectSize: nat, locs: seq<FieldLoc>, table: nat, ws: seq<seq<byte>>)

  predicate Stages(x: Filling) {
    |x.ws| == |x.locs| + 1 && forall i: nat :: i <= |x.locs| ==> Stage(x, i)
  }

  /** It starts as the header, and each turn fills an entry that is still free. */
  predicate Stage(x: Filling, i: nat)
    requires |x.ws| == |x.locs| + 1 && i <= |x.locs|
  {
    if i == 0 then x.size >= 4 && x.ws[0] == Header(x.size, x.objectSize) else
    var l, w := x.locs[i - 1], x.ws[i - 1];
    l.id + 2 <= |w| && l.off <= x.table && Entry(w, l.id) == 0 && x.ws[i] == Put(w, l.id, x.table - l.off)
  }

  /** The stages of the vtable that EndTable makes. */
  lemma VtableStages(locs: seq<FieldLoc>, start: nat, end: nat, table: nat, vt: seq<byte>) returns (x: Filling)
    requires start <= end < table < start + 0x1_0000 && LocsOk(locs, start, end) && DistinctIds(locs)
    requires vt == Vtable(locs, start, table)
    ensures x == Filling(VtableSize(MaxId(locs)), table - start, locs, table, x.ws)
    ensures Stages(x) && x.ws[|locs|] == vt
  {
    VtableIs(locs, start, end, table, vt);
    x := AllStages(|vt|, table - start, locs, table);
  }

  lemma AllStages(size: nat, objectSize: nat, locs: seq<FieldLoc>, table: nat) returns (x: Filling)
    requires 4 <= size < 0x1_0000 && objectSize < 0x1_0000 && EntriesFit(locs, size, table) && DistinctIds(locs)
    requires forall k :: 0 <= k < |locs| ==> locs[k].id >= 4
    ensures x == Filling(size, objectSize, locs, table, x.ws)
    ensures Stages(x) && x.ws[|locs|] == Written(Header(size, objectSize), locs, table)
  {
    var h := Header(size, objectSize);
    var ws := seq(|locs| + 1, i requires 0 <= i <= |locs| => Written(h, locs[..i], table));
    x := Filling(size, objectSize, locs, table, ws);
    forall i: nat | i <= |locs| ensures Stage(x, i) {
      if i > 0 {
        NotYetWritten(size, objectSize, locs, table, i - 1);
        WrittenSnoc(h, locs, table, i - 1);
      }
    }
    assert locs[..|locs|] == locs;
  }

  lemma {:induction false} NoneBefore(locs: seq<FieldLoc>, i: nat, k: nat, f: nat)
    requires DistinctIds(locs) && k <= i < |locs| && f == locs[i].id
    ensures OffOf(locs[..k], f) == 0
  {
    if k > 0 {
      NoneBefore(locs, i, k - 1, f);
      assert locs[..k][..k - 1] == locs[..k - 1];
    }
  }

  /** A vtable lies at offset v of the buffer. */
  predicate Lies(d: seq<byte>, v: nat) {
    v <= |d| && VtableAt(d, v).Some?
  }

  /** Every remembered vtable lies in the buffer. */
  ghost predicate InPlace(d: seq<byte>, vtables: seq<nat>) {
    forall v {:trigger Lies(d, v)} :: v in vtables ==> Lies(d, v)
  }

  lemma InPlaceStable(e: seq<byte>, d: seq<byte>, vtables: seq<nat>)
    requires Keeps(e, d) && InPlace(d, vtables)
    ensures InPlace(e, vtables)
  {
    forall v {:trigger Lies(e, v)} | v in vtables ensures Lies(e, v) {
      assert Lies(d, v);
      VtableAtStable(e, d, v);
    }
  }

  lemma InPlaceBehind(front: seq<byte>, d: seq<byte>, vtables: seq<nat>)
    requires InPlace(d, vtables)
    ensures InPlace(front + d, vtables)
  {
    Prepended(front, d);
    InPlaceStable(front + d, d, vtables);
  }

  /** What EndTable comes to: the table's offset, its vtable, an equal older one if it goes back to
      that, and then the bytes kept in front of the table, the offset of the vtable in use, and the
      offsets remembered. */
  datatype Ending = Ending(table: nat, vt: seq<byte>, reuse: Option<nat>, front: seq<byte>, use: nat, vts: seq<nat>)

  ghost predicate Sharing(x: Ending, vtables: seq<nat>) {
    if x.reuse.Some? then x.front == [] && x.use == x.reuse.value && x.vts == vtables
    else x.front == x.vt && x.use == x.table + |x.vt| && x.vts == vtables + [x.use]
  }

  /** What EndTable is going to write for the locations locs behind the bytes d. */
  ghost predicate Plan(d: seq<byte>, locs: seq<FieldLoc>, start: nat, vtables: seq<nat>, dedup: bool, x: Ending) {
    && start <= |d| && LocsOk(locs, start, |d|) && x.table == TableLoc(d)
    && x.table < start + 0x1_0000 && x.table < TWO31 && x.use < TWO31
    && x.vt == Vtable(locs, start, x.table) && x.reuse == Reused(d, vtables, dedup, x.vt) && InPlace(d, vtables)
    && Sharing(x, vtables)
  }

  /** And what that leaves. */
  ghost predicate IsBuilt(b: Built, d: seq<byte>, x: Ending)
    requires x.table < TWO31 && x.use < TWO31
  {
    && b.data == x.front + (LE32(Word32(x.use - x.table)) + Aligned(d, 4)) && b.vtables == x.vts && b.table == x.table
    && InPlace(b.data, b.vtables) && |b.data| < TWO31
  }

  /** The plan up to the call of ClearOffsets: e are the bytes behind the table's word. */
  ghost predicate Layable(d: seq<byte>, locs: seq<FieldLoc>, start: nat, x: Ending, e: seq<byte>) {
    && start <= |d| < x.table < start + 0x1_0000 && LocsOk(locs, start, |d|) && x.vt == Vtable(locs, start, x.table)
    && e == Aligned(d, 4) && x.table == |e| + 4 && x.table < TWO31
  }

  lemma PlanAhead(d: seq<byte>, locs: seq<FieldLoc>, start: nat, vtables: seq<nat>, dedup: bool, x: Ending,
                  w: seq<byte>, e: seq<byte>)
    requires Plan(d, locs, start, vtables, dedup, x) && |w| == 4 && e == Aligned(d, 4)
    ensures Layable(d, locs, start, x, e) && Linkable(x.vt + (w + e), vtables, dedup, x)
  {
    VtableIs(locs, start, |d|, x.table, x.vt);
    Layers(d, x.vt, w);
    InPlaceStable(x.vt + (w + e), d, vtables);
    FindStable(x.vt + (w + e), d, vtables, x.vt);
    assert x.reuse.Some? ==> Lies(d, x.reuse.value);
  }

  /** The plan, seen from after the call of ClearOffsets. */
  ghost predicate Linkable(d: seq<byte>, vtables: seq<nat>, dedup: bool, x: Ending) {
    && 0 < |x.vt| < 0x1_0000 && x.table < TWO31 && x.use < TWO31 && InPlace(d, vtables)
    && x.reuse == Reused(d, vtables, dedup, x.vt) && (x.reuse.Some? ==> x.reuse.value < x.table)
    && Sharing(x, vtables)
  }

  /** EndTable passes its assertions and comes to b. */
  ghost predicate Ends(d: seq<byte>, locs: seq<FieldLoc>, start: nat, vtables: seq<nat>, dedup: bool, b: Built) {
    && start <= |d| && LocsOk(locs, start, |d|) && DistinctIds(locs)
    && Ended(d, locs, start, vtables, dedup) == Some(b)
  }

  class Builder {
    const buf: Vector                // buf_
    var numFieldLoc: nat             // num_field_loc
    var maxVoffset: nat              // max_voffset_
    var minAlign: nat                // minalign_
    var nested: bool
    var forceDefaults: bool
    var dedup: bool
    ghost var vtables: seq<nat>      // what the scratch area holds: first these,
    ghost var locs: seq<FieldLoc>    // then these

    /** The scratch area holds what the two lists say. */
    ghost predicate Stored()
      reads this, buf, buf.buf
    {
      buf.Valid() && numFieldLoc == |locs| && Keeping(buf.pad, vtables, locs)
    }

    ghost predicate Valid()
      reads this, buf, buf.buf
    {
      && Stored() && buf.size < 0x1_0000_0000 && InPlace(buf.data, vtables)
      && maxVoffset == MaxId(locs) && (!nested ==> locs == [])
    }

    constructor (initialSize: nat, bufferAlign: nat)
      requires bufferAlign > 0
      ensures Valid() && fresh(buf) && buf.data == [] && vtables == [] && minAlign == 1
      ensures !nested && !forceDefaults && dedup && buf.buf == null
    {
      buf := new Vector(initialSize, bufferAlign);
      vtables, locs, numFieldLoc, maxVoffset, minAlign := [], [], 0, 0, 1;
      nested, forceDefaults, dedup := false, false, true;
    }

    method Align(n: nat)
      requires Valid() && IsWidth(n) && buf.size + n < 0x1_0000_0000
      modifies this`minAlign, buf`buf, buf`reserved, buf`cur, buf`size, buf`data, buf`block, buf.buf
      ensures Valid() && buf.data == Aligned(old(buf.data), n) && minAlign == Max(old(minAlign), n)
      ensures buf.buf == old(buf.buf) || fresh(buf.buf)
    {
      minAlign := Max(minAlign, n);
      var k := PaddingBytes(buf.size, n);
      ghost var d := buf.data;
      InPlaceBehind(Zeros(k), d, vtables);
      buf.Fill(k);
      assert buf.data == Zeros(k) + d;
    }

    method PushElement(bytes: seq<byte>) returns (off: nat)
      requires Valid() && IsWidth(|bytes|) && buf.size + 2 * |bytes| < 0x1_0000_0000
      modifies this`minAlign, buf`buf, buf`reserved, buf`cur, buf`size, buf`data, buf`block, buf.buf
      ensures Valid() && buf.data == bytes + Aligned(old(buf.data), |bytes|) && off == |buf.data|
      ensures minAlign == Max(old(minAlign), |bytes|) && (buf.buf == old(buf.buf) || fresh(buf.buf))
    {
      Align(|bytes|);
      ghost var d := buf.data;
      InPlaceBehind(bytes, d, vtables);
      buf.Push(bytes);
      assert buf.data == bytes + d;
      off := buf.size;
    }

    method TrackField(field: nat, off: nat)
      requires Valid() && nested && field < 0x1_0000 && off < 0x1_0000_0000
      modifies this`locs, this`numFieldLoc, this`maxVoffset
      modifies buf`buf, buf`reserved, buf`cur, buf`scratch, buf`pad, buf`block, buf.buf
      ensures Valid() && locs == old(locs) + [FieldLoc(off, field)]
      ensures buf.buf == old(buf.buf) || fresh(buf.buf)
    {
      var l := FieldLoc(off, field);
      MaxIdSnoc(locs, l);
      ghost var sc := buf.pad;
      KeepingLoc(sc, vtables, locs, l, sc + LocBytes(l), locs + [l]);
      buf.ScratchPush(LocBytes(l));
      assert buf.pad == sc + LocBytes(l);
      locs := locs + [l];
      numFieldLoc := numFieldLoc + 1;
      assert Keeping(buf.pad, vtables, locs);
      if field > maxVoffset {
        maxVoffset := field;
      }
    }

    /** AddElement of a scalar. */
    method AddElement(index: nat, width: nat, e: nat, def: nat, ghost tables: seq<nat>)
      requires Valid() && nested && Scalar(index, width, e, def).Ok(|tables|) && InBuffer(tables, buf.data)
      requires buf.size + 16 < 0x1_0000_0000
      modifies this`locs, this`numFieldLoc, this`maxVoffset, this`minAlign, buf, buf.buf
      ensures Valid() && (buf.buf == old(buf.buf) || fresh(buf.buf))
      ensures Partial(buf.data, locs) ==
              Added(Partial(old(buf.data), old(locs)), Scalar(index, width, e, def), forceDefaults, tables)
      ensures minAlign == AlignAfter(old(minAlign), Scalar(index, width, e, def), forceDefaults)
      ensures if e == def && !forceDefaults then buf.data == old(buf.data) && locs == old(locs)
              else buf.data == LE(e, width) + Aligned(old(buf.data), width)
                   && locs == old(locs) + [FieldLoc(|buf.data|, 4 + 2 * index)]
    {
      if e == def && !forceDefaults {
        return;
      }
      ghost var d, ls := buf.data, locs;
      var off := PushElement(LE(e, width));
      TrackField(FieldIndexToOffset(index), off);
      StoredElement(Partial(d, ls), Scalar(index, width, e, def), forceDefaults, tables);
    }

    /** The push of ReferTo(off). */
    method PushOffset(off: nat) returns (at: nat)
      requires Valid() && off <= |buf.data| && buf.size + 16 < 0x1_0000_0000
      modifies this`minAlign, buf`buf, buf`reserved, buf`cur, buf`size, buf`data, buf`block, buf.buf
      ensures Valid() && (buf.buf == old(buf.buf) || fresh(buf.buf)) && at == |buf.data|
      ensures minAlign == Max(old(minAlign), 4)
      ensures buf.data == LE32(ReferTo(off, |Aligned(old(buf.data), 4)|)) + Aligned(old(buf.data), 4)
    {
      Align(4);
      ghost var d := buf.data;
      assert Aligned(d, 4) == d by { AlignedTwice(d, 4); }
      at := PushElement(LE32(ReferTo(off, buf.size)));
    }

    /** AddOffset to the table at offset `off` (0 is null), which is tables[child]. */
    method AddOffset(index: nat, off: nat, ghost child: Option<nat>, ghost tables: seq<nat>)
      requires Valid() && nested && Ref(index, child).Ok(|tables|) && InBuffer(tables, buf.data)
      requires off == if child.Some? then tables[child.value] else 0
      requires buf.size + 16 < 0x1_0000_0000
      modifies this`locs, this`numFieldLoc, this`maxVoffset, this`minAlign, buf, buf.buf
      ensures Valid() && (buf.buf == old(buf.buf) || fresh(buf.buf))
      ensures Partial(buf.data, locs) ==
              Added(Partial(old(buf.data), old(locs)), Ref(index, child), forceDefaults, tables)
      ensures minAlign == AlignAfter(old(minAlign), Ref(index, child), forceDefaults)
      ensures if off == 0 then buf.data == old(buf.data) && locs == old(locs)
              else locs == old(locs) + [FieldLoc(|buf.data|, 4 + 2 * index)]
    {
      if off == 0 {
        return;
      }
      ghost var d, ls := buf.data, locs;
      var at := PushOffset(off);
      TrackField(FieldIndexToOffset(index), at);
      StoredElement(Partial(d, ls), Ref(index, child), forceDefaults, tables);
    }

    /** One Add call of a generated table builder. */
    method AddField(a: Arg, tables: seq<nat>)
      requires Valid() && nested && a.Ok(|tables|) && InBuffer(tables, buf.data) && buf.size + 16 < 0x1_0000_0000
      modifies this`locs, this`numFieldLoc, this`maxVoffset, this`minAlign, buf, buf.buf
      ensures Valid() && (buf.buf == old(buf.buf) || fresh(buf.buf))
      ensures Partial(buf.data, locs) == Added(Partial(old(buf.data), old(locs)), a, forceDefaults, tables)
      ensures minAlign == AlignAfter(old(minAlign), a, forceDefaults)
    {
      match a
      case Scalar(index, width, value, def) => AddElement(index, width, value, def, tables);
      case Ref(index, child) => AddOffset(index, if child.Some? then tables[child.value] else 0, child, tables);
    }

    method StartTable() returns (start: nat)
      requires Valid() && !nested
      modifies this`nested
      ensures Valid() && nested && start == |buf.data| && locs == []
    {
      nested := true;
      start := buf.size;
    }

    /** From the largest field id to the size of the vtable. */
    method SizeVtable(ghost size: nat)
      requires Stored() && maxVoffset == MaxId(locs) && size == VtableSize(MaxId(locs))
      modifies this`maxVoffset
      ensures Stored() && maxVoffset == size
    {
      maxVoffset := Max((maxVoffset + 2) % 0x1_0000, 4);
      StillStored();
    }

    /** The zeros of a new vtable, its object size and its own size. */
    method WriteHeader(objectSize: nat, ghost x: Filling)
      requires Stored() && x.size == maxVoffset && x.objectSize == objectSize && Stages(x)
      modifies buf`buf, buf`reserved, buf`cur, buf`size, buf`data, buf`block, buf.buf
      ensures Stored() && buf.data == x.ws[0] + old(buf.data)
      ensures buf.buf == old(buf.buf) || fresh(buf.buf)
    {
      assert Stage(x, 0);
      LayHeader(maxVoffset, objectSize);
      StillStored();
    }

    /** Writing to the buffer leaves the scratch area as it was. */
    twostate lemma StillStored()
      requires old(Stored()) && buf.Valid() && buf.pad == old(buf.pad)
      requires numFieldLoc == old(numFieldLoc) && vtables == old(vtables) && locs == old(locs)
      ensures Stored()
    {
    }

    method LayHeader(size: nat, objectSize: nat)
      requires buf.Valid() && size >= 4
      modifies buf`buf, buf`reserved, buf`cur, buf`size, buf`data, buf`block, buf.buf
      ensures buf.Valid() && buf.data == Header(size, objectSize) + old(buf.data)
      ensures buf.buf == old(buf.buf) || fresh(buf.buf)
    {
      ghost var rest, z := buf.data, Zeros(size);
      ghost var y := Put(z, 2, objectSize);
      buf.Fill(size);
      assert buf.data == z + rest;
      WriteEntry(2, objectSize, z, rest);
      WriteEntry(0, size, y, rest);
    }

    /** WriteScalar of a voffset_t into the vtable vt in front. */
    method WriteEntry(f: nat, v: nat, ghost vt: seq<byte>, ghost rest: seq<byte>)
      requires buf.Valid() && buf.data == vt + rest && f + 2 <= |vt|
      modifies buf`data, buf`block, buf.buf
      ensures buf.Valid() && buf.data == Put(vt, f, v) + rest
    {
      SplicePut(vt + rest, f, v);
      PutFront(vt, rest, f, v);
      buf.WriteAt(buf.size - f, LE(v, 2));
    }

    /** The FieldLoc at index i of those in the scratch area. */
    method ReadLoc(i: nat) returns (l: FieldLoc)
      requires Stored() && i < |locs|
      ensures l == locs[i]
    {
      var at := buf.scratch - 8 * numFieldLoc + 8 * i;
      assert Kept(buf.pad, vtables, locs, i);
      var b := buf.ReadScratch(at, 8);
      LocReadsBack(locs[i], b);
      l := FieldLoc(Num(b[..4]), Num(b[4..6]));
    }

    /** The vtable offset at index i of the scratch area. */
    method ReadOffset(i: nat) returns (v: nat)
      requires Stored() && i < |vtables|
      ensures v == vtables[i]
    {
      assert Kept(buf.pad, vtables, locs, i);
      var b := buf.ReadScratch(4 * i, 4);
      LE32Num(vtables[i]);
      v := Num(b);
    }

    /** The vtable entry of one tracked field, which has not been set before. */
    method WriteField(i: nat, table: nat, ghost x: Filling, ghost rest: seq<byte>)
      requires Stored() && locs == x.locs && table == x.table && Stages(x)
      requires i < |x.locs| && buf.data == x.ws[i] + rest
      modifies buf`data, buf`block, buf.buf
      ensures Stored() && buf.data == x.ws[i + 1] + rest
    {
      var l := ReadLoc(i);
      assert Stage(x, i + 1);
      EntryFront(x.ws[i], rest, l.id);
      assert Entry(buf.data, l.id) == 0;
      WriteEntry(l.id, table - l.off, x.ws[i], rest);
      StillStored();
    }

    /** The loop over the tracked fields. */
    method WriteEntries(table: nat, ghost x: Filling, ghost rest: seq<byte>)
      requires Stored() && locs == x.locs && table == x.table && Stages(x) && buf.data == x.ws[0] + rest
      modifies buf`data, buf`block, buf.buf
      ensures Stored() && buf.data == x.ws[|x.locs|] + rest
    {
      for i := 0 to numFieldLoc
        invariant Stored() && buf.data == x.ws[i] + rest
      {
        WriteField(i, table, x, rest);
      }
    }

    method ClearOffsets()
      requires Stored()
      modifies this`locs, this`numFieldLoc, this`maxVoffset, buf`scratch, buf`pad
      ensures Stored() && locs == [] && maxVoffset == 0
    {
      KeepingNoLocs(buf.pad, vtables, locs);
      buf.ScratchPop(8 * numFieldLoc);
      locs, numFieldLoc, maxVoffset := [], 0, 0;
    }

    /** The comparison with one remembered vtable. */
    method SameVtable(v: nat, vt: seq<byte>) returns (same: bool)
      requires buf.Valid() && v <= buf.size && VtableAt(buf.data, v).Some?
      ensures same == Matches(buf.data, v, vt)
    {
      var b := buf.ReadAt(v, 2);
      var size := Num(b);
      if size != |vt| {
        return false;
      }
      var bytes := buf.ReadAt(v, size);
      return bytes == vt;
    }

    /** The part of EndTable that looks for an equal vtable. */
    method FindVtable(vt: seq<byte>) returns (r: Option<nat>)
      requires Stored() && locs == [] && InPlace(buf.data, vtables)
      ensures r == Find(buf.data, vtables, vt)
    {
      KeepingSize(buf.pad, vtables, locs);
      for i := 0 to buf.scratch / 4
        invariant Find(buf.data, vtables, vt) == Find(buf.data, vtables[i..], vt)
      {
        var v := ReadOffset(i);
        assert Lies(buf.data, v);
        var same := SameVtable(v, vt);
        if same {
          return Some(v);
        }
        assert vtables[i..][1..] == vtables[i + 1..];
      }
      return None;
    }

    /** EndTable up to the call of ClearOffsets: the vtable, in front of the table. */
    method WriteVtable(objectSize: nat, table: nat, ghost x: Filling, ghost vt: seq<byte>)
      requires Stored() && locs == x.locs && x.size == maxVoffset && x.objectSize == objectSize && x.table == table
      requires Stages(x) && x.ws[|x.locs|] == vt
      modifies this`maxVoffset, this`locs, this`numFieldLoc, buf, buf.buf
      ensures Stored() && buf.data == vt + old(buf.data)
      ensures locs == [] && maxVoffset == 0 && (buf.buf == old(buf.buf) || fresh(buf.buf))
    {
      ghost var rest := buf.data;
      WriteHeader(objectSize, x);
      WriteEntries(table, x, rest);
      ClearOffsets();
    }

    /** Remember a new vtable. */
    method Remember(vtUse: nat)
      requires Stored() && locs == [] && vtUse < 0x1_0000_0000
      modifies this`vtables, buf`buf, buf`reserved, buf`cur, buf`scratch, buf`pad, buf`block, buf.buf
      ensures Stored() && vtables == old(vtables) + [vtUse]
      ensures buf.buf == old(buf.buf) || fresh(buf.buf)
    {
      ghost var sc := buf.pad;
      KeepingOffset(sc, vtables, vtUse, sc + LE32(vtUse), vtables + [vtUse]);
      buf.ScratchPush(LE32(vtUse));
      assert buf.pad == sc + LE32(vtUse);
      vtables := vtables + [vtUse];
    }

    /** Keep the vtable vt in front of the table and remember it, or go back to an equal one. */
    method ShareVtable(table: nat, vt: seq<byte>, ghost rest: seq<byte>, ghost x: Ending) returns (vtUse: nat)
      requires Stored() && locs == [] && table == x.table && vt == x.vt
      requires buf.data == vt + rest && |rest| == table && Linkable(buf.data, vtables, dedup, x)
      modifies this`vtables, buf, buf.buf
      ensures Stored() && buf.data == x.front + rest && (buf.buf == old(buf.buf) || fresh(buf.buf))
      ensures vtUse == x.use && vtables == x.vts
    {
      vtUse := buf.size;
      if dedup {
        var found := FindVtable(vt);
        if found.Some? {
          vtUse := found.value;
          buf.Pop(buf.size - table);
        }
      }
      if vtUse == buf.size {
        Remember(vtUse);
      }
    }

    /** The word at the start of the table: how far away its vtable is. */
    method WriteWord(table: nat, word: seq<byte>, ghost front: seq<byte>, ghost w: seq<byte>, ghost e: seq<byte>)
      requires Stored() && |w| == |word| > 0 && buf.data == front + (w + e) && table == |w + e|
      modifies buf`data, buf`block, buf.buf
      ensures Stored() && buf.data == front + (word + e)
    {
      OverwriteWord(front, w, e, word);
      buf.WriteAt(table, word);
    }

    /** The bytes in front of the table. */
    method Newest(table: nat, ghost vt: seq<byte>, ghost rest: seq<byte>) returns (written: seq<byte>)
      requires buf.Valid() && buf.data == vt + rest && |rest| == table
      ensures written == vt
    {
      FrontOf(vt, rest);
      written := buf.ReadAt(buf.size, buf.size - table);
    }

    /** EndTable after the call of ClearOffsets: share the vtable and fill the table's word w. */
    method LinkVtable(table: nat, ghost e: seq<byte>, ghost w: seq<byte>, ghost x: Ending)
      requires Stored() && locs == [] && table == x.table == |w + e| && |w| == 4
      requires buf.data == x.vt + (w + e) && Linkable(buf.data, vtables, dedup, x)
      modifies this`vtables, this`nested, buf, buf.buf
      ensures Stored() && !nested && (buf.buf == old(buf.buf) || fresh(buf.buf))
      ensures buf.data == x.front + (LE32(Word32(x.use - table)) + e) && vtables == x.vts
    {
      var written := Newest(table, x.vt, w + e);
      var vtUse := ShareVtable(table, written, w + e, x);
      WriteWord(table, LE32(Word32(vtUse - table)), x.front, w, e);
      nested := false;
    }

    /** EndTable up to the call of ClearOffsets: the table's word w, still zero, and its vtable. */
    method LayVtable(start: nat, ghost d: seq<byte>, ghost e: seq<byte>, w: seq<byte>, ghost x: Ending)
      returns (table: nat)
      requires Valid() && d == buf.data && DistinctIds(locs) && |w| == 4 && Layable(d, locs, start, x, e)
      modifies this`maxVoffset, this`locs, this`numFieldLoc, this`minAlign, buf, buf.buf
      ensures Stored() && locs == [] && maxVoffset == 0 && (buf.buf == old(buf.buf) || fresh(buf.buf))
      ensures buf.data == x.vt + (w + e) && table == x.table && minAlign == Max(old(minAlign), 4)
    {
      table := PushElement(w);
      ghost var filling := VtableStages(locs, start, |d|, table, x.vt);
      SizeVtable(filling.size);
      WriteVtable(table - start, table, filling, x.vt);
    }

    /** The body of EndTable, when none of its assertions on sizes fails. */
    method WriteTable(start: nat, w: seq<byte>, ghost d: seq<byte>, ghost x: Ending, ghost e: seq<byte>)
      returns (table: nat)
      requires Valid() && d == buf.data && DistinctIds(locs) && |w| == 4
      requires Layable(d, locs, start, x, e) && Linkable(x.vt + (w + e), vtables, dedup, x)
      modifies this`vtables, this`locs, this`numFieldLoc, this`maxVoffset, this`minAlign, this`nested, buf, buf.buf
      ensures Stored() && !nested && locs == [] && maxVoffset == 0 && table == x.table
      ensures buf.buf == old(buf.buf) || fresh(buf.buf)
      ensures buf.data == x.front + (LE32(Word32(x.use - x.table)) + e)
      ensures vtables == x.vts && minAlign == Max(old(minAlign), 4)
    {
      table := LayVtable(start, d, e, w, x);
      LinkVtable(table, e, w, x);
    }

    /** EndTable. */
    method EndTable(start: nat, ghost b: Built) returns (table: nat)
      requires Valid() && nested && Ends(buf.data, locs, start, vtables, dedup, b)
      modifies this`vtables, this`locs, this`numFieldLoc, this`maxVoffset, this`minAlign, this`nested, buf, buf.buf
      ensures Valid() && !nested && (buf.buf == old(buf.buf) || fresh(buf.buf))
      ensures buf.data == b.data && vtables == b.vtables && table == b.table && minAlign == Max(old(minAlign), 4)
    {
      ghost var x := PlanOf(buf.data, locs, start, vtables, dedup, b);
      table := WritePlanned(start, buf.data, x, b);
    }

    method WritePlanned(start: nat, ghost d: seq<byte>, ghost x: Ending, ghost b: Built) returns (table: nat)
      requires Valid() && d == buf.data && DistinctIds(locs)
      requires Plan(d, locs, start, vtables, dedup, x) && IsBuilt(b, d, x)
      modifies this`vtables, this`locs, this`numFieldLoc, this`maxVoffset, this`minAlign, this`nested, buf, buf.buf
      ensures Valid() && !nested && (buf.buf == old(buf.buf) || fresh(buf.buf))
      ensures buf.data == b.data && vtables == b.vtables && table == b.table && minAlign == Max(old(minAlign), 4)
    {
      var w: seq<byte> := [0, 0, 0, 0];
      ghost var e := Aligned(d, 4);
      PlanAhead(d, locs, start, vtables, dedup, x, w, e);
      table := WriteTable(start, w, d, x, e);
      assert MaxId(locs) == 0;
    }

    /** What a generated table builder does: StartTable, one Add call per field, EndTable. */
    method BuildMessage(m: Message, tables: seq<nat>, ghost t: State) returns (table: nat)
      requires Valid() && !nested && forceDefaults == m.force && dedup == m.dedup
      requires ArgsOk(m.args, |tables|) && Distinct(m.args) && InBuffer(tables, buf.data)
      requires BuildTable(State(buf.data, vtables, tables, minAlign), m) == Some(t)
      modifies this, buf, buf.buf
      ensures Valid() && !nested && (buf.buf == old(buf.buf) || fresh(buf.buf))
      ensures State(buf.data, vtables, tables + [table], minAlign) == t
    {
      ghost var p, b := MessageParts(State(buf.data, vtables, tables, minAlign), m, t);
      ghost var ps := AllAdded(buf.data, m.args, m.force, tables, p);
      var start := StartTable();
      AddFields(m.args, tables, m.force, ps);
      table := EndTable(start, b);
    }

    /** Between two tables, forget the remembered vtables. */
    method Forget()
      requires Valid() && !nested
      modifies this`vtables, buf`scratch, buf`pad
      ensures Valid() && vtables == []
    {
      buf.ClearScratch();
      vtables := [];
      assert Keeping(buf.pad, [], []);
    }

    /** Fill so that the buffer with n more bytes in front is a multiple of `align`. */
    method PreAlign(n: nat, align: nat)
      requires Valid() && IsWidth(align) && n > 0 && buf.size + n + align < 0x1_0000_0000
      modifies this`minAlign, buf`buf, buf`reserved, buf`cur, buf`size, buf`data, buf`block, buf.buf
      ensures Valid() && buf.data == Zeros(PaddingBytes(|old(buf.data)| + n, align)) + old(buf.data)
      ensures minAlign == Max(old(minAlign), align) && (buf.buf == old(buf.buf) || fresh(buf.buf))
    {
      minAlign := Max(minAlign, align);
      var k := PaddingBytes(buf.size + n, align);
      ghost var d := buf.data;
      InPlaceBehind(Zeros(k), d, vtables);
      buf.Fill(k);
      assert buf.data == Zeros(k) + d;
    }

    /** Finish up to the root's distance; e are the bytes aligned for it. */
    method WriteRoot(root: nat, prefix: nat, align: nat, ghost d: seq<byte>, ghost e: seq<byte>)
      requires Valid() && d == buf.data && CanFinish(d, root, align, prefix) && align == FinishAlign(minAlign, prefix)
      requires e == Padded(d, align, prefix) && |d| <= |e| && buf.size + 64 < 0x1_0000_0000
      modifies this`minAlign, buf`buf, buf`reserved, buf`cur, buf`size, buf`data, buf`block, buf.buf
      ensures Valid() && buf.data == LE32(ReferTo(root, |e|)) + e && minAlign == align
      ensures buf.buf == old(buf.buf) || fresh(buf.buf)
    {
      minAlign := align;
      PreAlign(prefix + 4, align);
      var at := PushOffset(root);
    }

    /** FinishSizePrefixed's last element. */
    method WriteSize(ghost r: seq<byte>)
      requires Valid() && r == buf.data && Multiple(|r|, 4) && buf.size + 16 < 0x1_0000_0000 && minAlign >= 4
      modifies this`minAlign, buf`buf, buf`reserved, buf`cur, buf`size, buf`data, buf`block, buf.buf
      ensures Valid() && buf.data == LE32(|r|) + r && minAlign == old(minAlign)
      ensures buf.buf == old(buf.buf) || fresh(buf.buf)
    {
      AlignedTwice(r, 4);
      var at := PushElement(LE32(buf.size));
    }

    /** Finish without identifier, or FinishSizePrefixed. */
    method Finish(root: nat, sizePrefix: bool)
      requires Valid() && !nested && buf.size + 64 < 0x1_0000_0000
      requires CanFinish(buf.data, root, FinishAlign(minAlign, PrefixSize(sizePrefix)), PrefixSize(sizePrefix))
      modifies this`vtables, this`minAlign, buf, buf.buf
      ensures Valid() && !nested && vtables == [] && minAlign == FinishAlign(old(minAlign), PrefixSize(sizePrefix))
      ensures var r := Finished(old(buf.data), root, minAlign, PrefixSize(sizePrefix));
              buf.data == (if sizePrefix then LE32(|r|) else []) + r
      ensures buf.buf == old(buf.buf) || fresh(buf.buf)
    {
      Forget();
      var prefix := PrefixSize(sizePrefix);
      var align := FinishAlign(minAlign, prefix);
      ghost var e := FinishedIs(buf.data, root, align, prefix);
      WriteRoot(root, prefix, align, buf.data, e);
      if sizePrefix {
        WriteSize(buf.data);
      }
    }

    /** The i-th Add call; ps are the bytes and the locations before each of them and after the last. */
    method AddNext(i: nat, args: seq<Arg>, tables: seq<nat>, ghost force: bool, ghost ps: seq<Partial>)
      requires Valid() && nested && force == forceDefaults && AddStages(ps, args, force, tables)
      requires i < |args| && buf.data == ps[i].data && locs == ps[i].locs
      modifies this`locs, this`numFieldLoc, this`maxVoffset, this`minAlign, buf, buf.buf
      ensures Valid() && buf.data == ps[i + 1].data && locs == ps[i + 1].locs
      ensures minAlign == AlignAfter(old(minAlign), args[i], force)
      ensures buf.buf == old(buf.buf) || fresh(buf.buf)
    {
      assert AddStage(ps, args, force, tables, i);
      AddField(args[i], tables);
    }

    /** The Add calls. */
    method AddFields(args: seq<Arg>, tables: seq<nat>, ghost force: bool, ghost ps: seq<Partial>)
      requires Valid() && nested && force == forceDefaults && AddStages(ps, args, force, tables)
      requires buf.data == ps[0].data && locs == ps[0].locs
      modifies this`locs, this`numFieldLoc, this`maxVoffset, this`minAlign, buf, buf.buf
      ensures Valid() && buf.data == ps[|args|].data && locs == ps[|args|].locs
      ensures minAlign == AlignAfterAll(old(minAlign), args, force)
      ensures buf.buf == old(buf.buf) || fresh(buf.buf)
    {
      for i := 0 to |args|
        invariant Valid() && nested && (buf.buf == old(buf.buf) || fresh(buf.buf))
        invariant buf.data == ps[i].data && locs == ps[i].locs
        invariant minAlign == AlignAfterAll(old(minAlign), args[..i], force)
      {
        AlignSnoc(old(minAlign), args, i, force);
        AddNext(i, args, tables, force, ps);
      }
      assert args[..|args|] == args;
    }
  }

  lemma FinishedIs(d: seq<byte>, root: nat, align: nat, prefix: nat) returns (e: seq<byte>)
    requires CanFinish(d, root, align, prefix)
    ensures e == Padded(d, align, prefix) && |d| <= |e| <= |d| + 16
    ensures Finished(d, root, align, prefix) == LE32(ReferTo(root, |e|)) + e && Multiple(4 + |e|, 4)
  {
    e := Padded(d, align, prefix);
    PaddedSize(d, align, prefix);
  }

  function PrefixSize(sizePrefix: bool): nat {
    if sizePrefix then 4 else 0
  }

  /** Adding the arguments one by one. */
  predicate AddStages(ps: seq<Partial>, args: seq<Arg>, force: bool, tables: seq<nat>) {
    |ps| == |args| + 1 && forall i: nat :: i < |args| ==> AddStage(ps, args, force, tables, i)
  }

  predicate AddStage(ps: seq<Partial>, args: seq<Arg>, force: bool, tables: seq<nat>, i: nat)
    requires |ps| == |args| + 1 && i < |args|
  {
    && args[i].Ok(|tables|) && InBuffer(tables, ps[i].data) && |ps[i].data| < TWO31
    && ps[i + 1] == Added(ps[i], args[i], force, tables)
  }

  lemma StoredElement(p: Partial, a: Arg, force: bool, tables: seq<nat>)
    requires a.Ok(|tables|) && InBuffer(tables, p.data) && a.Stored(force)
    ensures var d := Aligned(p.data, a.Width());
            var e := (if a.Scalar? then LE(a.value, a.width) else LE32(ReferTo(tables[a.child.value], |d|))) + d;
            Added(p, a, force, tables) == Partial(e, p.locs + [FieldLoc(|e|, a.Id())])
  {
  }

  lemma AlignSnoc(align: nat, args: seq<Arg>, i: nat, force: bool)
    requires i < |args|
    ensures AlignAfterAll(align, args[..i + 1], force) ==
            AlignAfter(AlignAfterAll(align, args[..i], force), args[i], force)
  {
    assert args[..i + 1][..i] == args[..i];
  }

  lemma AddStagesSnoc(ps: seq<Partial>, args: seq<Arg>, force: bool, tables: seq<nat>,
                      p: Partial, a: Arg, q: Partial, qs: seq<Partial>, next: seq<Arg>)
    requires AddStages(ps, args, force, tables) && p == ps[|args|] && qs == ps + [q] && next == args + [a]
    requires a.Ok(|tables|) && InBuffer(tables, p.data) && |p.data| < TWO31 && q == Added(p, a, force, tables)
    ensures AddStages(qs, next, force, tables)
  {
    forall i: nat | i < |next| ensures AddStage(qs, next, force, tables, i) {
      assert i < |args| ==> AddStage(ps, args, force, tables, i);
    }
  }

  lemma {:induction false} AllAdded(d: seq<byte>, args: seq<Arg>, force: bool, tables: seq<nat>, p: Partial)
    returns (ps: seq<Partial>)
    requires ArgsOk(args, |tables|) && InBuffer(tables, d)
    requires p == AddedAll(d, args, force, tables) && |p.data| < TWO31
    ensures AddStages(ps, args, force, tables) && ps[0] == Partial(d, []) && ps[|args|] == p
    decreases |args|
  {
    if args == [] {
      ps := [p];
    } else {
      var n := |args| - 1;
      var before, a := args[..n], args[n];
      var q := AddedAll(d, before, force, tables);
      var qs := AllAdded(d, before, force, tables, q);
      ps := qs + [p];
      AddStagesSnoc(qs, before, force, tables, q, a, p, ps, args);
    }
  }

  lemma MessageParts(s: State, m: Message, t: State) returns (p: Partial, b: Built)
    requires ArgsOk(m.args, |s.tables|) && Distinct(m.args) && InBuffer(s.tables, s.data)
    requires BuildTable(s, m) == Some(t)
    ensures p == AddedAll(s.data, m.args, m.force, s.tables) && |s.data| <= |p.data| < TWO31
    ensures Ends(p.data, p.locs, |s.data|, s.vtables, m.dedup, b)
    ensures t == State(b.data, b.vtables, s.tables + [b.table], TableAlign(s.align, m))
  {
    p, b := BuildTableParts(s, m, t);
    AddedAllDistinct(s.data, m.args, m.force, s.tables, p);
  }

  /** After EndTable every remembered vtable lies in the buffer, the new one too. */
  lemma EndedInPlace(d: seq<byte>, locs: seq<FieldLoc>, start: nat, vtables: seq<nat>, dedup: bool, b: Built)
    requires start <= |d| && LocsOk(locs, start, |d|) && Ended(d, locs, start, vtables, dedup) == Some(b)
    requires InPlace(d, vtables)
    ensures InPlace(b.data, b.vtables) && |b.data| < TWO31
  {
    EndedStable(d, locs, start, vtables, dedup, b);
    InPlaceStable(b.data, d, vtables);
    var vt := Vtable(locs, start, b.table);
    var reuse := Reused(d, vtables, dedup, vt);
    if reuse.None? {
      VtableSizes(locs, start, |d|, b.table, vt);
      EndedParts(d, locs, start, vtables, dedup, b, vt, b.table + |vt|);
      VtableEntryRead(b.data, b.table + |vt|, vt, 0);
    }
  }

  lemma PlanOf(d: seq<byte>, locs: seq<FieldLoc>, start: nat, vtables: seq<nat>, dedup: bool, b: Built)
    returns (x: Ending)
    requires Ends(d, locs, start, vtables, dedup, b) && InPlace(d, vtables)
    ensures Plan(d, locs, start, vtables, dedup, x) && IsBuilt(b, d, x)
  {
    var table := TableLoc(d);
    var vt := Vtable(locs, start, table);
    x := Choice(table, vt, Reused(d, vtables, dedup, vt), vtables);
    EndedIs(d, locs, start, vtables, dedup, table, vt, x.reuse, x.use);
    EndedInPlace(d, locs, start, vtables, dedup, b);
  }

  lemma Choice(table: nat, vt: seq<byte>, reuse: Option<nat>, vtables: seq<nat>) returns (x: Ending)
    ensures x == Ending(table, vt, reuse, if reuse.Some? then [] else vt, x.use, x.vts) && Sharing(x, vtables)
  {
    x := if reuse.Some? then Ending(table, vt, reuse, [], reuse.value, vtables)
         else Ending(table, vt, reuse, vt, table + |vt|, vtables + [table + |vt|]);
  }

  /** Distinct fields are tracked at distinct vtable entries. */
  lemma {:induction false} AddedAllDistinct(d: seq<byte>, args: seq<Arg>, force: bool, tables: seq<nat>, q: Partial)
    requires ArgsOk(args, |tables|) && InBuffer(tables, d) && Distinct(args)
    requires q == AddedAll(d, args, force, tables)
    ensures DistinctIds(q.locs)
    ensures forall f, k :: NoArg(args, f) && 0 <= k < |q.locs| ==> q.locs[k].id != f
  {
    if args != [] {
      var n := |args| - 1;
      var before, a := args[..n], args[n];
      var p := AddedAll(d, before, force, tables);
      assert args == before + [a];
      DistinctPrefix(args, before, a);
      AddedAllDistinct(d, before, force, tables, p);
      forall f | NoArg(args, f)
        ensures NoArg(before, f) && a.Id() != f
      {
        assert forall i :: 0 <= i < n ==> before[i] == args[i];
      }
    }
  }

  lemma WrittenSnoc(h: seq<byte>, locs: seq<FieldLoc>, table: nat, i: nat)
    requires EntriesFit(locs, |h|, table) && i < |locs|
    ensures Written(h, locs[..i + 1], table) == Put(Written(h, locs[..i], table), locs[i].id, table - locs[i].off)
  {
    assert locs[..i + 1] == locs[..i] + [locs[i]];
    WrittenLast(h, locs[..i + 1], table, locs[..i], locs[i]);
  }

  lemma WrittenLast(h: seq<byte>, locs: seq<FieldLoc>, table: nat, before: seq<FieldLoc>, l: FieldLoc)
    requires EntriesFit(locs, |h|, table) && locs == before + [l]
    ensures EntriesFit(before, |h|, table) && l.id + 2 <= |h| && l.off <= table
    ensures Written(h, locs, table) == Put(Written(h, before, table), l.id, table - l.off)
  {
    assert locs[|locs| - 1] == l && locs[..|locs| - 1] == before;
  }

  lemma MaxIdSnoc(locs: seq<FieldLoc>, l: FieldLoc)
    ensures MaxId(locs + [l]) == Max(MaxId(locs), l.id)
  {
    assert (locs + [l])[..|locs|] == locs;
  }

  lemma FrontOf(vt: seq<byte>, rest: seq<byte>)
    ensures (vt + rest)[0..|vt + rest| - |rest|] == vt
  {
  }

  lemma OverwriteWord(front: seq<byte>, w0: seq<byte>, e: seq<byte>, w: seq<byte>)
    requires |w0| == |w|
    ensures Splice(front + (w0 + e), |front|, w) == front + (w + e)
  {
  }

  /** The vtable and the table word lie in front of everything older. */
  lemma Layers(d: seq<byte>, vt: seq<byte>, w: seq<byte>)
    ensures Keeps(vt + (w + Aligned(d, 4)), d)
  {
    Prepended(Zeros(PaddingBytes(|d|, 4)), d);
    Prepended(w, Aligned(d, 4));
    Prepended(vt, w + Aligned(d, 4));
  }

  lemma {:induction false} FindStable(e: seq<byte>, d: seq<byte>, vtables: seq<nat>, vt: seq<byte>)
    requires Keeps(e, d) && InPlace(d, vtables)
    ensures Find(e, vtables, vt) == Find(d, vtables, vt)
  {
    if vtables != [] {
      assert Lies(d, vtables[0]);
      MatchesStable(e, d, vtables[0], vt);
      FindStable(e, d, vtables[1..], vt);
    }
  }

  lemma MatchesStable(e: seq<byte>, d: seq<byte>, v: nat, vt: seq<byte>)
    requires Keeps(e, d) && v <= |d|
    ensures Matches(e, v, vt) == Matches(d, v, vt)
  {
    assert Read(d, v, 2).Some? == Read(e, v, 2).Some?;
    assert Read(d, v, |vt|).Some? == Read(e, v, |vt|).Some?;
  }
}

/** What the builder keeps in the scratch area: offsets of vtables, then locations of fields. */
module Scratchpad {
  import opened Bytes
  import opened FlatBuild

  const VOFFSET: nat := 2          // sizeof(voffset_t)

  /** struct FieldLoc: a uoffset_t, a voffset_t and two bytes of padding. */
  function LocBytes(l: FieldLoc): (r: seq<byte>)
    ensures |r| == 8
  {
    LE32(l.off) + LE(l.id, VOFFSET) + [0, 0]
  }

  predicate OffsetFits(v: nat) {
    v < 0x1_0000_0000
  }

  predicate LocFits(l: FieldLoc) {
    l.off < 0x1_0000_0000 && l.id < 0x1_0000
  }

  /** v is the offset at index i of the scratch bytes. */
  predicate HasOffset(sc: seq<byte>, i: nat, v: nat) {
    4 * i + 4 <= |sc| && sc[4 * i..4 * i + 4] == LE32(v) && OffsetFits(v)
  }

  /** l is the location at index i of those that start at byte `from`. */
  predicate HasLoc(sc: seq<byte>, from: nat, i: nat, l: FieldLoc) {
    from + 8 * i + 8 <= |sc| && sc[from + 8 * i..from + 8 * i + 8] == LocBytes(l) && LocFits(l)
  }

  /** What the offsets vs followed by the locations ls make of the scratch bytes, at index i of
      each. */
  predicate Kept(sc: seq<byte>, vs: seq<nat>, ls: seq<FieldLoc>, i: nat) {
    && |sc| == 4 * |vs| + 8 * |ls|
    && (i < |vs| ==> HasOffset(sc, i, vs[i]))
    && (i < |ls| ==> HasLoc(sc, 4 * |vs|, i, ls[i]))
  }

  /** The scratch bytes are the offsets vs followed by the locations ls. */
  ghost predicate Keeping(sc: seq<byte>, vs: seq<nat>, ls: seq<FieldLoc>) {
    forall i: nat :: Kept(sc, vs, ls, i)
  }

  lemma OffsetKept(sc: seq<byte>, more: seq<byte>, i: nat, v: nat)
    requires HasOffset(sc, i, v)
    ensures HasOffset(sc + more, i, v)
  {
    assert (sc + more)[4 * i..4 * i + 4] == sc[4 * i..4 * i + 4];
  }

  lemma LocKept(sc: seq<byte>, more: seq<byte>, from: nat, i: nat, l: FieldLoc)
    requires HasLoc(sc, from, i, l)
    ensures HasLoc(sc + more, from, i, l)
  {
    assert (sc + more)[from + 8 * i..from + 8 * i + 8] == sc[from + 8 * i..from + 8 * i + 8];
  }

  /** TrackField: the location goes behind the others. */
  lemma KeepingLoc(sc: seq<byte>, vs: seq<nat>, ls: seq<FieldLoc>, l: FieldLoc, sc': seq<byte>, ls': seq<FieldLoc>)
    requires Keeping(sc, vs, ls) && LocFits(l) && sc' == sc + LocBytes(l) && ls' == ls + [l]
    ensures Keeping(sc', vs, ls')
  {
    forall i: nat ensures Kept(sc', vs, ls', i) {
      assert Kept(sc, vs, ls, i);
      if i < |vs| {
        OffsetKept(sc, LocBytes(l), i, vs[i]);
      }
      if i < |ls| {
        LocKept(sc, LocBytes(l), 4 * |vs|, i, ls[i]);
      }
    }
  }

  /** EndTable remembers a vtable: between two tables its offset goes behind the others. */
  lemma KeepingOffset(sc: seq<byte>, vs: seq<nat>, v: nat, sc': seq<byte>, vs': seq<nat>)
    requires Keeping(sc, vs, []) && OffsetFits(v) && sc' == sc + LE32(v) && vs' == vs + [v]
    ensures Keeping(sc', vs', [])
  {
    forall i: nat ensures Kept(sc', vs', [], i) {
      assert Kept(sc, vs, [], i);
      if i < |vs| {
        OffsetKept(sc, LE32(v), i, vs[i]);
      }
    }
  }

  lemma KeepingSize(sc: seq<byte>, vs: seq<nat>, ls: seq<FieldLoc>)
    requires Keeping(sc, vs, ls)
    ensures |sc| == 4 * |vs| + 8 * |ls|
  {
    assert Kept(sc, vs, ls, 0);
  }

  /** ClearOffsets: without the locations, exactly the offsets are left. */
  lemma KeepingNoLocs(sc: seq<byte>, vs: seq<nat>, ls: seq<FieldLoc>)
    requires Keeping(sc, vs, ls)
    ensures |sc| >= 8 * |ls| && Keeping(sc[..|sc| - 8 * |ls|], vs, [])
  {
    KeepingSize(sc, vs, ls);
    var sc' := sc[..4 * |vs|];
    forall i: nat ensures Kept(sc', vs, [], i) {
      assert Kept(sc, vs, ls, i);
      assert i < |vs| ==> sc'[4 * i..4 * i + 4] == sc[4 * i..4 * i + 4];
    }
  }

  /** Both scalars of a location read back. */
  lemma LocReadsBack(l: FieldLoc, b: seq<byte>)
    requires LocFits(l) && b == LocBytes(l)
    ensures FieldLoc(Num(b[..4]), Num(b[4..6])) == l
  {
    Pow256Values();
    assert b[..4] == LE32(l.off) && b[4..6] == LE(l.id, VOFFSET);
    LE32Num(l.off);
    NumLE(l.id, VOFFSET);
  }
}

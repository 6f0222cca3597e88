/**
 Tables as a reader sees them: a table starts with a signed distance to its vtable, and the
 vtable gives, per field, the distance from the start of the table to the value.

 A location is an offset from the end of the buffer, as the builder hands them out. Reading
 outside the buffer is None.
 */
module FlatTable {
  import opened Options
  import opened Bytes

  /** The n bytes that start at offset off from the end. */
  function Read(d: seq<byte>, off: int, n: nat): Option<seq<byte>> {
    if n <= off <= |d| then Some(FromEnd(d, off, n)) else None
  }

  /** ReadScalar of an unsigned n-byte scalar. */
  function ReadScalar(d: seq<byte>, off: int, n: nat): Option<nat> {
    var r := Read(d, off, n);
    if r.Some? then Some(Num(r.value)) else None
  }

  /** GetVTable: data_ - soffset, and a lower address is a larger offset from the end. */
  function GetVTable(d: seq<byte>, table: int): Option<int> {
    var r := ReadScalar(d, table, 4);
    if r.Some? then Some(table + Int32(r.value)) else None
  }

  /** GetOptionalFieldOffset: 0 when the field is not present. */
  function GetOptionalFieldOffset(d: seq<byte>, table: int, field: nat): Option<nat> {
    var vt := GetVTable(d, table);
    if vt.None? then None else
    var vtsize := ReadScalar(d, vt.value, 2);
    if vtsize.None? then None
    else if field < vtsize.value then ReadScalar(d, vt.value - field, 2)
    else Some(0)
  }

  /** GetField for a scalar of n bytes. */
  function GetField(d: seq<byte>, table: int, field: nat, n: nat, def: nat): Option<nat> {
    var o := GetOptionalFieldOffset(d, table, field);
    if o.None? then None
    else if o.value != 0 then ReadScalar(d, table - o.value, n)
    else Some(def)
  }

  /** GetPointer: the offset from the end of what the field points to, 0 for nullptr. */
  function GetPointer(d: seq<byte>, table: int, field: nat): Option<int> {
    var o := GetOptionalFieldOffset(d, table, field);
    if o.None? then None
    else if o.value == 0 then Some(0)
    else
      var p := table - o.value;
      var r := ReadScalar(d, p, 4);
      if r.Some? then Some(p - r.value) else None
  }

  /** Every read inside d gives the same bytes in e: offsets from the end are stable. */
  ghost predicate Keeps(e: seq<byte>, d: seq<byte>) {
    |d| <= |e| && forall off: int, n: nat :: Read(d, off, n).Some? ==> Read(e, off, n) == Read(d, off, n)
  }

  lemma Behind(front: seq<byte>, d: seq<byte>, at: nat, n: nat)
    requires at + n <= |d|
    ensures (front + d)[|front| + at..|front| + at + n] == d[at..at + n]
  {
  }

  lemma Prepended(front: seq<byte>, d: seq<byte>)
    ensures Keeps(front + d, d)
  {
    var e := front + d;
    forall off: int, n: nat | Read(d, off, n).Some?
      ensures Read(e, off, n) == Read(d, off, n)
    {
      Behind(front, d, |d| - off, n);
    }
  }

  lemma ReadAt(d: seq<byte>, off: int, v: seq<byte>, i: nat)
    requires Read(d, off, |v|) == Some(v) && i < |v|
    ensures off <= |d| && d[|d| - off + i] == v[i]
  {
  }

  lemma ScalarStable(e: seq<byte>, d: seq<byte>, off: int, n: nat)
    requires Keeps(e, d)
    ensures ReadScalar(d, off, n).Some? ==> ReadScalar(e, off, n) == ReadScalar(d, off, n)
  {
  }

  lemma VTableStable(e: seq<byte>, d: seq<byte>, table: int)
    requires Keeps(e, d)
    ensures var v := GetVTable(d, table);
            v.Some? ==> GetVTable(e, table) == v
  {
  }

  lemma FieldOffsetStable(e: seq<byte>, d: seq<byte>, table: int, field: nat)
    requires Keeps(e, d)
    ensures var o := GetOptionalFieldOffset(d, table, field);
            o.Some? ==> GetOptionalFieldOffset(e, table, field) == o
  {
  }

  /** Whatever is written in front later, a field that could be read keeps its answer. */
  lemma FieldStable(e: seq<byte>, d: seq<byte>, table: int, field: nat, n: nat, def: nat)
    requires Keeps(e, d)
    ensures var r := GetField(d, table, field, n, def);
            r.Some? ==> GetField(e, table, field, n, def) == r
    ensures var p := GetPointer(d, table, field);
            p.Some? ==> GetPointer(e, table, field) == p
  {
    FieldOffsetStable(e, d, table, field);
    var o := GetOptionalFieldOffset(d, table, field);
    if o.Some? && o.value != 0 {
      ScalarStable(e, d, table - o.value, n);
      ScalarStable(e, d, table - o.value, 4);
    }
  }

  lemma VTableIs(d: seq<byte>, table: nat, use: nat)
    requires table < 0x8000_0000 && use < 0x8000_0000
    requires Read(d, table, 4) == Some(LE32(Word32(use - table)))
    ensures GetVTable(d, table) == Some(use)
  {
    Pow256Values();
    LE32Num(Word32(use - table));
  }

  /** The voffset_t at index f of a vtable. */
  function Entry(vt: seq<byte>, f: nat): nat
    requires f + 2 <= |vt|
  {
    var lo: nat := vt[f];
    var hi: nat := vt[f + 1];
    lo + 256 * hi
  }

  lemma TwoBytes(w: seq<byte>)
    requires |w| == 2
    ensures Num(w) == Entry(w, 0)
  {
    assert w[1..] == [w[1]];
    assert Num(w[1..]) == w[1];
  }

  /** What a table with the vtable vt at offset `use` answers, wherever that vtable is. */
  lemma FieldOffsetIs(d: seq<byte>, table: nat, use: nat, vt: seq<byte>, field: nat)
    requires table < 0x8000_0000 && use < 0x8000_0000
    requires Read(d, table, 4) == Some(LE32(Word32(use - table)))
    requires Read(d, use, |vt|) == Some(vt)
    requires |vt| >= 4 && Entry(vt, 0) == |vt| && (field < |vt| ==> field + 2 <= |vt|)
    ensures GetOptionalFieldOffset(d, table, field) ==
            Some(if field < |vt| then Entry(vt, field) else 0)
  {
    VTableIs(d, table, use);
    VtableEntryRead(d, use, vt, 0);
    if field < |vt| {
      VtableEntryRead(d, use, vt, field);
    }
  }

  lemma VtableEntryRead(d: seq<byte>, use: nat, vt: seq<byte>, f: nat)
    requires Read(d, use, |vt|) == Some(vt) && f + 2 <= |vt|
    ensures ReadScalar(d, use - f, 2) == Some(Entry(vt, f))
  {
    ReadAt(d, use, vt, f);
    ReadAt(d, use, vt, f + 1);
    var w := FromEnd(d, use - f, 2);
    assert w[0] == vt[f] && w[1] == vt[f + 1];
    TwoBytes(w);
  }
}

/** EndTable, whole sequences of tables, and the round trip. */
module FlatRoundTrip {
  import opened Bytes
  import opened Options
  import opened VectorDownward
  import opened FlatTable
  import opened FlatBuild

  /** The comparison of EndTable: same size entry, same bytes. */
  predicate Matches(d: seq<byte>, v: nat, vt: seq<byte>) {
    ReadScalar(d, v, 2) == Some(|vt|) && Read(d, v, |vt|) == Some(vt)
  }

  /** The first remembered vtable that matches. */
  function Find(d: seq<byte>, vtables: seq<nat>, vt: seq<byte>): (r: Option<nat>)
    ensures r.Some? ==> r.value in vtables && Matches(d, r.value, vt)
    ensures r.None? ==> forall v :: v in vtables ==> !Matches(d, v, vt)
  {
    if vtables == [] then None
    else if Matches(d, vtables[0], vt) then Some(vtables[0])
    else Find(d, vtables[1..], vt)
  }

  datatype Built = Built(data: seq<byte>, vtables: seq<nat>, table: nat)

  function Reused(d: seq<byte>, vtables: seq<nat>, dedup: bool, vt: seq<byte>): Option<nat> {
    if dedup then Find(d, vtables, vt) else None
  }

  /** EndTable; None where one of its assertions on sizes fails. */
  function Ended(d: seq<byte>, locs: seq<FieldLoc>, start: nat, vtables: seq<nat>, dedup: bool): (r: Option<Built>)
    requires start <= |d| && LocsOk(locs, start, |d|)
  {
    var table := TableLoc(d);
    if table - start >= 0x1_0000 then None else
    var vt := Vtable(locs, start, table);
    var reuse := Reused(d, vtables, dedup, vt);
    var front := if reuse.Some? then [] else vt;
    if table + |front| >= TWO31 - 1 then None else
    var use := if reuse.Some? then reuse.value else table + |vt|;
    VtableSizes(locs, start, |d|, table, vt);
    Some(Built(
      front + (LE32(Word32(use - table)) + Aligned(d, 4)),
      if reuse.Some? then vtables else vtables + [use],
      table))
  }

  /** The pieces of Ended. */
  lemma EndedIs(d: seq<byte>, locs: seq<FieldLoc>, start: nat, vtables: seq<nat>, dedup: bool,
                table: nat, vt: seq<byte>, reuse: Option<nat>, use: nat)
    requires start <= |d| && LocsOk(locs, start, |d|) && table == TableLoc(d)
    requires Ended(d, locs, start, vtables, dedup).Some?
    requires vt == Vtable(locs, start, table) && reuse == Reused(d, vtables, dedup, vt)
    requires use == if reuse.Some? then reuse.value else table + |vt|
    ensures table < TWO31 && use < TWO31 && table < start + 0x1_0000
    ensures Ended(d, locs, start, vtables, dedup) == Some(Built(
      (if reuse.Some? then [] else vt) + (LE32(Word32(use - table)) + Aligned(d, 4)),
      if reuse.Some? then vtables else vtables + [use],
      table))
  {
    VtableIs(locs, start, |d|, table, vt);
  }

  /** The table's word leads to the vtable vt at offset `use`. */
  predicate LinksTo(d: seq<byte>, table: nat, use: nat, vt: seq<byte>) {
    && table < TWO31 && use < TWO31 && Read(d, table, 4) == Some(LE32(Word32(use - table)))
    && Read(d, use, |vt|) == Some(vt)
  }

  /** And its entry for f is `distance`. */
  predicate EntryIs(d: seq<byte>, table: nat, use: nat, vt: seq<byte>, f: nat, distance: int) {
    && LinksTo(d, table, use, vt) && |vt| >= 4 && Entry(vt, 0) == |vt|
    && if f < |vt| then f + 2 <= |vt| && Entry(vt, f) == distance else distance == 0
  }

  lemma EntryRead(d: seq<byte>, table: nat, use: nat, vt: seq<byte>, f: nat, distance: int)
    requires EntryIs(d, table, use, vt, f, distance)
    ensures GetOptionalFieldOffset(d, table, f) == Some(distance)
  {
    FieldOffsetIs(d, table, use, vt, f);
  }

  /** Every field of the finished table is found at the location tracked for it, whether its
      vtable is new or an older equal one. */
  lemma EndedReads(d: seq<byte>, locs: seq<FieldLoc>, start: nat, vtables: seq<nat>, dedup: bool, b: Built, f: nat)
    requires start <= |d| && LocsOk(locs, start, |d|) && Ended(d, locs, start, vtables, dedup) == Some(b)
    requires f % 2 == 0 && f >= 4
    ensures GetOptionalFieldOffset(b.data, b.table, f) == Some(Distance(locs, b.table, f))
  {
    var vt, use := EndedUses(d, locs, start, vtables, dedup, b, f);
    EntryRead(b.data, b.table, use, vt, f, Distance(locs, b.table, f));
  }

  /** The vtable that the finished table uses, and its offset. */
  lemma EndedUses(d: seq<byte>, locs: seq<FieldLoc>, start: nat, vtables: seq<nat>, dedup: bool, b: Built, f: nat)
    returns (vt: seq<byte>, use: nat)
    requires start <= |d| && LocsOk(locs, start, |d|) && Ended(d, locs, start, vtables, dedup) == Some(b)
    requires f % 2 == 0 && f >= 4
    ensures EntryIs(b.data, b.table, use, vt, f, Distance(locs, b.table, f))
  {
    vt := Vtable(locs, start, b.table);
    VtableSizes(locs, start, |d|, b.table, vt);
    VtableEntry(locs, start, |d|, b.table, f, vt);
    var reuse := Reused(d, vtables, dedup, vt);
    use := if reuse.Some? then reuse.value else b.table + |vt|;
    EndedParts(d, locs, start, vtables, dedup, b, vt, use);
  }

  lemma EndedParts(d: seq<byte>, locs: seq<FieldLoc>, start: nat, vtables: seq<nat>, dedup: bool, b: Built,
                   vt: seq<byte>, use: nat)
    requires start <= |d| && LocsOk(locs, start, |d|) && Ended(d, locs, start, vtables, dedup) == Some(b)
    requires vt == Vtable(locs, start, b.table) && |vt| >= 4
    requires var reuse := Reused(d, vtables, dedup, vt);
             use == if reuse.Some? then reuse.value else b.table + |vt|
    ensures LinksTo(b.data, b.table, use, vt)
  {
    var reuse, e := Reused(d, vtables, dedup, vt), Aligned(d, 4);
    EndedIs(d, locs, start, vtables, dedup, b.table, vt, reuse, use);
    var w := LE32(Word32(use - b.table));
    if reuse.Some? {
      assert b.data == w + e;
      LinksBack(d, vt, w, e, b.table, use);
    } else {
      LinksAhead(vt, w, e, b.table, use);
    }
  }

  lemma LinksBack(d: seq<byte>, vt: seq<byte>, w: seq<byte>, e: seq<byte>, table: nat, use: nat)
    requires Read(d, use, |vt|) == Some(vt) && e == Aligned(d, 4) && table == |e| + 4
    requires table < TWO31 && use < TWO31 && w == LE32(Word32(use - table))
    ensures LinksTo(w + e, table, use, vt)
  {
    ReadTop(w, e);
    Prepended(Zeros(PaddingBytes(|d|, 4)), d);
    Prepended(w, e);
  }

  lemma LinksAhead(vt: seq<byte>, w: seq<byte>, e: seq<byte>, table: nat, use: nat)
    requires table == |e| + 4 && use == table + |vt| && use < TWO31 && w == LE32(Word32(use - table))
    ensures LinksTo(vt + (w + e), table, use, vt)
  {
    ReadTop(w, e);
    ReadTop(vt, w + e);
    Prepended(vt, w + e);
  }

  /** What was written before is still there, at the same offsets. */
  lemma EndedStable(d: seq<byte>, locs: seq<FieldLoc>, start: nat, vtables: seq<nat>, dedup: bool, b: Built)
    requires start <= |d| && LocsOk(locs, start, |d|) && Ended(d, locs, start, vtables, dedup) == Some(b)
    ensures Keeps(b.data, d)
  {
    var e := Aligned(d, 4);
    var front := b.data[..|b.data| - |e|];
    assert b.data == front + e;
    Prepended(front, e);
    Prepended(Zeros(PaddingBytes(|d|, 4)), d);
  }

  // Tables -----------------------------------------------------------------------------------

  /** The field answers what was added: GetField with the field's own default, or GetPointer. */
  predicate Answers(d: seq<byte>, table: nat, a: Arg, tables: seq<nat>)
    requires a.Ok(|tables|)
  {
    match a
    case Scalar(i, w, v, def) => GetField(d, table, 4 + 2 * i, w, def) == Some(v)
    case Ref(i, c) => GetPointer(d, table, 4 + 2 * i) == Some(if c.Some? then tables[c.value] else 0)
  }

  /** A scalar is there unless it is its default and defaults are not forced, a reference unless it
      is null; and then at a multiple of its width. */
  predicate Placed(d: seq<byte>, table: nat, a: Arg, force: bool, tables: seq<nat>)
    requires a.Ok(|tables|)
  {
    var o := GetOptionalFieldOffset(d, table, 4 + 2 * a.index);
    && o.Some?
    && (match a
        case Scalar(_, _, v, def) => o.value != 0 <==> force || v != def
        case Ref(_, c) => o.value != 0 <==> c.Some?)
    && (o.value != 0 ==> o.value < table && Multiple(table - o.value, a.Width()))
  }

  predicate ReadsBack(d: seq<byte>, table: nat, a: Arg, force: bool, tables: seq<nat>)
    requires a.Ok(|tables|)
  {
    Answers(d, table, a, tables) && Placed(d, table, a, force, tables)
  }

  ghost predicate TableOk(d: seq<byte>, table: nat, args: seq<Arg>, force: bool, tables: seq<nat>) {
    && (forall i :: 0 <= i < |args| ==> args[i].Ok(|tables|) && ReadsBack(d, table, args[i], force, tables))
    && (forall f: nat :: f % 2 == 0 && f >= 4 && NoArg(args, f) ==> GetOptionalFieldOffset(d, table, f) == Some(0))
  }

  lemma HeldAnswers(d: seq<byte>, table: nat, a: Arg, force: bool, tables: seq<nat>, off: nat)
    requires a.Ok(|tables|) && Held(d, off, a, force, tables) && off < table
    requires GetOptionalFieldOffset(d, table, a.Id()) == Some(if off == 0 then 0 else table - off)
    ensures ReadsBack(d, table, a, force, tables)
  {
  }

  lemma EndedTable(p: Partial, m: Message, start: nat, vtables: seq<nat>, tables: seq<nat>, b: Built)
    requires start <= |p.data| && Progress(p, start, m.args, m.force, tables)
    requires Ended(p.data, p.locs, start, vtables, m.dedup) == Some(b)
    ensures TableOk(b.data, b.table, m.args, m.force, tables)
  {
    var args, dedup := m.args, m.dedup;
    forall i | 0 <= i < |args|
      ensures args[i].Ok(|tables|) && ReadsBack(b.data, b.table, args[i], m.force, tables)
    {
      EndedArg(p, args[i], start, vtables, m, tables, b);
    }
    forall f: nat | f % 2 == 0 && f >= 4 && NoArg(args, f)
      ensures GetOptionalFieldOffset(b.data, b.table, f) == Some(0)
    {
      EndedReads(p.data, p.locs, start, vtables, dedup, b, f);
    }
  }

  lemma EndedArg(p: Partial, a: Arg, start: nat, vtables: seq<nat>, m: Message, tables: seq<nat>, b: Built)
    requires start <= |p.data| && LocsOk(p.locs, start, |p.data|)
    requires Ended(p.data, p.locs, start, vtables, m.dedup) == Some(b)
    requires a.Ok(|tables|) && Held(p.data, OffOf(p.locs, a.Id()), a, m.force, tables)
    ensures ReadsBack(b.data, b.table, a, m.force, tables)
  {
    EndedLocates(p, a.Id(), start, vtables, m.dedup, b);
    ArgAnswers(p, a, start, m.force, tables, b.data, b.table);
  }

  /** The bytes of p are still in e, and the reader finds field f where p has it. */
  ghost predicate Locates(e: seq<byte>, table: nat, p: Partial, f: nat) {
    && Keeps(e, p.data) && |p.data| < table
    && GetOptionalFieldOffset(e, table, f) == Some(Distance(p.locs, table, f))
  }

  lemma EndedLocates(p: Partial, f: nat, start: nat, vtables: seq<nat>, dedup: bool, b: Built)
    requires start <= |p.data| && LocsOk(p.locs, start, |p.data|) && f % 2 == 0 && f >= 4
    requires Ended(p.data, p.locs, start, vtables, dedup) == Some(b)
    ensures Locates(b.data, b.table, p, f)
  {
    EndedReads(p.data, p.locs, start, vtables, dedup, b, f);
    EndedStable(p.data, p.locs, start, vtables, dedup, b);
  }

  lemma ArgAnswers(p: Partial, a: Arg, start: nat, force: bool, tables: seq<nat>, e: seq<byte>, table: nat)
    requires LocsOk(p.locs, start, |p.data|) && Locates(e, table, p, a.Id())
    requires a.Ok(|tables|) && Held(p.data, OffOf(p.locs, a.Id()), a, force, tables)
    ensures ReadsBack(e, table, a, force, tables)
  {
    var off := OffOf(p.locs, a.Id());
    OffOfBounds(p.locs, start, |p.data|, a.Id());
    HeldStable(e, p.data, off, a, force, tables);
    HeldAnswers(e, table, a, force, tables, off);
  }

  lemma ReadsBackStable(e: seq<byte>, d: seq<byte>, table: nat, a: Arg, force: bool, tables: seq<nat>, more: seq<nat>)
    requires Keeps(e, d) && a.Ok(|tables|) && ReadsBack(d, table, a, force, tables)
    ensures a.Ok(|tables + more|) && ReadsBack(e, table, a, force, tables + more)
  {
    FieldOffsetStable(e, d, table, 4 + 2 * a.index);
    FieldStable(e, d, table, 4 + 2 * a.index, a.Width(), if a.Scalar? then a.def else 0);
  }

  /** Later building never changes the answers of a finished table. */
  lemma TableStable(e: seq<byte>, d: seq<byte>, table: nat, args: seq<Arg>, force: bool, tables: seq<nat>,
                    more: seq<nat>)
    requires Keeps(e, d) && TableOk(d, table, args, force, tables)
    ensures TableOk(e, table, args, force, tables + more)
  {
    forall i | 0 <= i < |args|
      ensures args[i].Ok(|tables + more|) && ReadsBack(e, table, args[i], force, tables + more)
    {
      ReadsBackStable(e, d, table, args[i], force, tables, more);
    }
    forall f: nat | f % 2 == 0 && f >= 4 && NoArg(args, f)
      ensures GetOptionalFieldOffset(e, table, f) == Some(0)
    {
      FieldOffsetStable(e, d, table, f);
    }
  }

  // Whole runs -------------------------------------------------------------------------------

  /** StartTable, the Add calls and EndTable of one table, with the builder's two switches. */
  datatype Message = Message(args: seq<Arg>, force: bool, dedup: bool)

  /** Bytes, vtables kept for reuse, offsets of the tables, and minalign_. */
  datatype State = State(data: seq<byte>, vtables: seq<nat>, tables: seq<nat>, align: nat)

  /** The table's own word is aligned too. */
  function TableAlign(align: nat, m: Message): nat {
    Max(AlignAfterAll(align, m.args, m.force), 4)
  }

  function BuildTable(s: State, m: Message): (r: Option<State>)
    requires ArgsOk(m.args, |s.tables|) && Distinct(m.args) && InBuffer(s.tables, s.data)
    ensures r.Some? ==> |r.value.tables| == |s.tables| + 1 && InBuffer(r.value.tables, r.value.data)
    ensures r.Some? ==> |r.value.data| < TWO31
  {
    var p := AddedAll(s.data, m.args, m.force, s.tables);
    if |p.data| >= TWO31 - 1 then None else
    AddedAllProgress(s.data, m.args, m.force, s.tables, p);
    var b := Ended(p.data, p.locs, |s.data|, s.vtables, m.dedup);
    if b.None? then None else
    Some(State(b.value.data, b.value.vtables, s.tables + [b.value.table], TableAlign(s.align, m)))
  }

  lemma {:induction false} AddedAllSize(d: seq<byte>, args: seq<Arg>, force: bool, tables: seq<nat>)
    requires ArgsOk(args, |tables|) && InBuffer(tables, d)
    ensures |AddedAll(d, args, force, tables).data| <= |d| + 15 * |args|
  {
    if args != [] {
      AddedAllSize(d, args[..|args| - 1], force, tables);
    }
  }

  /** No assertion fails while the fields, at up to 15 bytes each with padding, and the table's
      own word fit 16 bits and the buffer stays well below two gigabytes. */
  lemma TableFits(s: State, m: Message)
    requires ArgsOk(m.args, |s.tables|) && Distinct(m.args) && InBuffer(s.tables, s.data)
    requires 15 * |m.args| + 7 < 0x1_0000 && |s.data| < TWO31 - 0x2_0001
    ensures BuildTable(s, m).Some?
  {
    AddedAllSize(s.data, m.args, m.force, s.tables);
    var p := AddedAll(s.data, m.args, m.force, s.tables);
    AddedAllProgress(s.data, m.args, m.force, s.tables, p);
    VtableIs(p.locs, |s.data|, |p.data|, TableLoc(p.data), Vtable(p.locs, |s.data|, TableLoc(p.data)));
  }

  /** Fields are distinct and children are earlier tables. */
  predicate WellFormed(msgs: seq<Message>) {
    forall k :: 0 <= k < |msgs| ==> ArgsOk(msgs[k].args, k) && Distinct(msgs[k].args)
  }

  /** The builder after a sequence of tables, or None if an assertion stopped it. */
  function BuildAll(msgs: seq<Message>): (r: Option<State>)
    requires WellFormed(msgs)
    ensures r.Some? ==> |r.value.tables| == |msgs| && InBuffer(r.value.tables, r.value.data)
    ensures r.Some? ==> |r.value.data| < TWO31
  {
    if msgs == [] then Some(State([], [], [], 1)) else
    var n := |msgs| - 1;
    var s := BuildAll(msgs[..n]);
    if s.None? then None else BuildTable(s.value, msgs[n])
  }

  lemma BuildTableParts(s: State, m: Message, t: State) returns (p: Partial, b: Built)
    requires ArgsOk(m.args, |s.tables|) && Distinct(m.args) && InBuffer(s.tables, s.data)
    requires BuildTable(s, m) == Some(t)
    ensures p == AddedAll(s.data, m.args, m.force, s.tables) && Keeps(p.data, s.data) && |p.data| < TWO31
    ensures Progress(p, |s.data|, m.args, m.force, s.tables)
    ensures Ended(p.data, p.locs, |s.data|, s.vtables, m.dedup) == Some(b)
    ensures t == State(b.data, b.vtables, s.tables + [b.table], TableAlign(s.align, m))
  {
    p := AddedAll(s.data, m.args, m.force, s.tables);
    AddedAllProgress(s.data, m.args, m.force, s.tables, p);
    b := Ended(p.data, p.locs, |s.data|, s.vtables, m.dedup).value;
  }

  /** A table just built answers, and everything older is kept. */
  lemma BuildTableAnswers(s: State, m: Message, t: State)
    requires ArgsOk(m.args, |s.tables|) && Distinct(m.args) && InBuffer(s.tables, s.data)
    requires BuildTable(s, m) == Some(t)
    ensures Keeps(t.data, s.data) && t.tables == s.tables + [t.tables[|s.tables|]]
    ensures TableOk(t.data, t.tables[|s.tables|], m.args, m.force, s.tables)
  {
    var p, b := BuildTableParts(s, m, t);
    EndedTable(p, m, |s.data|, s.vtables, s.tables, b);
    EndedStable(p.data, p.locs, |s.data|, s.vtables, m.dedup, b);
  }

  /** Round trip: in whatever sequence of tables, with or without reuse of vtables, every
      field of every table answers the value added to it, is there exactly if it was stored, and lies
      at a multiple of its width; every other field is absent. */
  lemma {:induction false} RoundTrip(msgs: seq<Message>, s: State, k: nat)
    requires WellFormed(msgs) && BuildAll(msgs) == Some(s) && k < |msgs|
    ensures TableOk(s.data, s.tables[k], msgs[k].args, msgs[k].force, s.tables)
  {
    var n := |msgs| - 1;
    var before := msgs[..n];
    var r := BuildAll(before).value;
    BuildTableAnswers(r, msgs[n], s);
    var last := s.tables[n];
    if k == n {
      TableStable(s.data, s.data, last, msgs[n].args, msgs[n].force, r.tables, [last]);
    } else {
      assert before[k] == msgs[k];
      RoundTrip(before, r, k);
      TableStable(s.data, r.data, r.tables[k], msgs[k].args, msgs[k].force, r.tables, [last]);
    }
  }

  // Sharing ----------------------------------------------------------------------------------

  /** The whole vtable that starts at v, if it lies in the buffer. */
  function VtableAt(d: seq<byte>, v: nat): Option<seq<byte>> {
    var size := ReadScalar(d, v, 2);
    if size.Some? then Read(d, v, size.value) else None
  }

  /** Remembered vtables lie in the buffer and no two of them are equal. */
  ghost predicate Shared(d: seq<byte>, vtables: seq<nat>) {
    && (forall i :: 0 <= i < |vtables| ==> vtables[i] <= |d| && VtableAt(d, vtables[i]).Some?)
    && (forall i, j :: 0 <= i < j < |vtables| ==> VtableAt(d, vtables[i]) != VtableAt(d, vtables[j]))
  }

  lemma VtableAtStable(e: seq<byte>, d: seq<byte>, v: nat)
    requires Keeps(e, d) && VtableAt(d, v).Some?
    ensures VtableAt(e, v) == VtableAt(d, v)
  {
  }

  /** With reuse on, EndTable adds a vtable only if it is unlike every earlier one. */
  lemma EndedShares(d: seq<byte>, locs: seq<FieldLoc>, start: nat, vtables: seq<nat>, b: Built)
    requires start <= |d| && LocsOk(locs, start, |d|) && Ended(d, locs, start, vtables, true) == Some(b)
    requires Shared(d, vtables)
    ensures Shared(b.data, b.vtables)
  {
    EndedStable(d, locs, start, vtables, true, b);
    forall i | 0 <= i < |vtables|
      ensures VtableAt(b.data, vtables[i]) == VtableAt(d, vtables[i])
    {
      VtableAtStable(b.data, d, vtables[i]);
    }
    var table := TableLoc(d);
    var vt := Vtable(locs, start, table);
    var reuse := Find(d, vtables, vt);
    var use := if reuse.Some? then reuse.value else table + |vt|;
    EndedIs(d, locs, start, vtables, true, table, vt, reuse, use);
    if reuse.None? {
      NewVtableAt(d, locs, start, vtables, b, vt, use);
      NotShared(d, vtables, vt);
    }
  }

  lemma NewVtableAt(d: seq<byte>, locs: seq<FieldLoc>, start: nat, vtables: seq<nat>, b: Built, vt: seq<byte>, use: nat)
    requires start <= |d| && LocsOk(locs, start, |d|) && Ended(d, locs, start, vtables, true) == Some(b)
    requires vt == Vtable(locs, start, b.table) && Find(d, vtables, vt).None? && use == b.table + |vt|
    ensures use <= |b.data| && VtableAt(b.data, use) == Some(vt)
  {
    VtableSizes(locs, start, |d|, b.table, vt);
    EndedParts(d, locs, start, vtables, true, b, vt, use);
    VtableEntryRead(b.data, use, vt, 0);
  }

  lemma NotShared(d: seq<byte>, vtables: seq<nat>, vt: seq<byte>)
    requires Find(d, vtables, vt).None?
    ensures forall i :: 0 <= i < |vtables| ==> VtableAt(d, vtables[i]) != Some(vt)
  {
    forall i | 0 <= i < |vtables|
      ensures VtableAt(d, vtables[i]) != Some(vt)
    {
      assert !Matches(d, vtables[i], vt);
    }
  }

  /** The offset of the vtable the table uses. */
  lemma OwnVtable(d: seq<byte>, locs: seq<FieldLoc>, start: nat, vtables: seq<nat>, dedup: bool, b: Built)
    returns (vt: seq<byte>, use: nat)
    requires start <= |d| && LocsOk(locs, start, |d|) && Ended(d, locs, start, vtables, dedup) == Some(b)
    ensures start <= b.table && LocsOk(locs, start, b.table) && vt == Vtable(locs, start, b.table) && |vt| >= 4
    ensures use == var reuse := Reused(d, vtables, dedup, vt); if reuse.Some? then reuse.value else b.table + |vt|
    ensures |b.data| == if Reused(d, vtables, dedup, vt).Some? then b.table else b.table + |vt|
    ensures b.vtables == if Reused(d, vtables, dedup, vt).Some? then vtables else vtables + [use]
    ensures GetVTable(b.data, b.table) == Some(use) && VtableAt(b.data, use) == Some(vt)
  {
    var table := TableLoc(d);
    vt := Vtable(locs, start, table);
    VtableSizes(locs, start, |d|, table, vt) by { EndedRange(d, locs, start, vtables, dedup); }
    var reuse := Reused(d, vtables, dedup, vt);
    use := if reuse.Some? then reuse.value else table + |vt|;
    EndedIs(d, locs, start, vtables, dedup, table, vt, reuse, use);
    EndedParts(d, locs, start, vtables, dedup, b, vt, use);
    VTableIs(b.data, table, use);
    WholeVtable(b.data, use, vt);
  }

  lemma EndedRange(d: seq<byte>, locs: seq<FieldLoc>, start: nat, vtables: seq<nat>, dedup: bool)
    requires start <= |d| && LocsOk(locs, start, |d|) && Ended(d, locs, start, vtables, dedup).Some?
    ensures TableLoc(d) < start + 0x1_0000
  {
  }

  lemma WholeVtable(d: seq<byte>, use: nat, vt: seq<byte>)
    requires Read(d, use, |vt|) == Some(vt) && |vt| >= 4 && Entry(vt, 0) == |vt|
    ensures VtableAt(d, use) == Some(vt)
  {
    VtableEntryRead(d, use, vt, 0);
  }

  lemma MatchesIs(d: seq<byte>, v: nat, vt: seq<byte>)
    requires |vt| >= 4 && Entry(vt, 0) == |vt|
    ensures Matches(d, v, vt) <==> VtableAt(d, v) == Some(vt)
  {
    if VtableAt(d, v) == Some(vt) {
      assert ReadScalar(d, v, 2).value == |vt|;
    }
  }

  /** EndTable leaves its vtable out if and only if sharing is on and a remembered vtable has the same
      bytes; otherwise its vtable is in front, and remembered. */
  lemma SharesExactly(d: seq<byte>, locs: seq<FieldLoc>, start: nat, vtables: seq<nat>, dedup: bool, b: Built)
    requires start <= |d| && LocsOk(locs, start, |d|) && Ended(d, locs, start, vtables, dedup) == Some(b)
    ensures GetVTable(b.data, b.table).Some?
    ensures var use := GetVTable(b.data, b.table).value;
            && use >= 0 && VtableAt(b.data, use).Some?
            && (|b.data| == b.table <==> dedup && exists v :: v in vtables && VtableAt(d, v) == VtableAt(b.data, use))
            && (|b.data| == b.table ==> use in vtables && b.vtables == vtables)
            && (|b.data| != b.table ==> use == |b.data| && b.vtables == vtables + [use])
  {
    var vt, use := OwnVtable(d, locs, start, vtables, dedup, b);
    VtableSizes(locs, start, |d|, b.table, vt) by { EndedRange(d, locs, start, vtables, dedup); }
    forall v: nat ensures Matches(d, v, vt) <==> VtableAt(d, v) == Some(vt) {
      MatchesIs(d, v, vt);
    }
  }

  /** So a run with reuse on stores no vtable twice. */
  lemma {:induction false} NoVtableTwice(msgs: seq<Message>, s: State)
    requires WellFormed(msgs) && BuildAll(msgs) == Some(s)
    requires forall k :: 0 <= k < |msgs| ==> msgs[k].dedup
    ensures Shared(s.data, s.vtables)
  {
    if msgs != [] {
      var n := |msgs| - 1;
      var r := BuildAll(msgs[..n]).value;
      NoVtableTwice(msgs[..n], r);
      var p, b := BuildTableParts(r, msgs[n], s);
      forall i | 0 <= i < |r.vtables|
        ensures VtableAt(p.data, r.vtables[i]) == VtableAt(r.data, r.vtables[i])
      {
        VtableAtStable(p.data, r.data, r.vtables[i]);
      }
      EndedShares(p.data, p.locs, |r.data|, r.vtables, b);
    }
  }
}

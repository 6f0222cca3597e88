/** The bytes of the smallest message: one table with one 32-bit field, which is zero by default. */
module FlatExample {
  import opened Bytes
  import opened Options
  import opened VectorDownward
  import opened FlatTable
  import opened FlatBuild
  import opened FlatRoundTrip
  import opened FlatFinish

  function OneField(v: nat): Message
    requires v < 0x1_0000_0000
  {
    Message([Scalar(0, 4, v, 0)], false, true)
  }

  lemma FourBytes(v: nat)
    ensures LE(v, 4) == [v % 256, v / 256 % 256, v / 256 / 256 % 256, v / 256 / 256 / 256 % 256]
  {
    assert LE(v / 256 / 256 / 256, 1) == [v / 256 / 256 / 256 % 256];
    assert LE(v / 256 / 256, 2) == [v / 256 / 256 % 256] + LE(v / 256 / 256 / 256, 1);
    assert LE(v / 256, 3) == [v / 256 % 256] + LE(v / 256 / 256, 2);
  }

  lemma SmallWord(v: byte)
    ensures LE32(v) == [v, 0, 0, 0]
  {
    FourBytes(v);
  }

  lemma NoPadding(d: seq<byte>)
    requires |d| % 4 == 0
    ensures Aligned(d, 4) == d
  {
  }

  lemma ZerosAre()
    ensures Zeros(2) == [0, 0] && Zeros(4) == [0, 0, 0, 0] && Zeros(6) == [0, 0, 0, 0, 0, 0]
  {
  }

  /** The Add call. */
  lemma Adds(v: nat, tables: seq<nat>)
    requires v < 0x1_0000_0000 && tables == []
    ensures var a := Scalar(0, 4, v, 0);
            a.Ok(0) && AddedAll([], [a], false, tables) ==
            if v == 0 then Partial([], []) else Partial(LE(v, 4), [FieldLoc(4, 4)])
  {
    var a := Scalar(0, 4, v, 0);
    Pow256Values();
    assert [a][..0] == [];
    assert AddedAll([], [], false, tables) == Partial([], []);
    NoPadding([]);
    assert LE(v, 4) + [] == LE(v, 4);
  }

  lemma HeaderOfOne()
    ensures Header(6, 8) == [6, 0, 8, 0, 0, 0]
  {
    ZerosAre();
  }

  lemma VtableOfOne(locs: seq<FieldLoc>)
    requires locs == [FieldLoc(4, 4)]
    ensures LocsOk(locs, 0, 8) && Vtable(locs, 0, 8) == [6, 0, 8, 0, 4, 0]
  {
    assert locs[..0] == [];
    assert MaxId([]) == 0 && MaxId(locs) == 4;
    HeaderOfOne();
    assert Written(Header(6, 8), [], 8) == Header(6, 8);
  }

  lemma VtableOfNone(locs: seq<FieldLoc>)
    requires locs == []
    ensures Vtable(locs, 0, 4) == [4, 0, 4, 0]
  {
    ZerosAre();
    assert MaxId(locs) == 0;
    assert Header(4, 4) == [4, 0, 4, 0];
  }

  lemma EndsWithOne(d: seq<byte>, locs: seq<FieldLoc>, vtables: seq<nat>)
    requires |d| == 4 && locs == [FieldLoc(4, 4)] && vtables == []
    ensures Ended(d, locs, 0, vtables, true) == Some(Built([6, 0, 8, 0, 4, 0, 6, 0, 0, 0] + d, [14], 8))
  {
    NoPadding(d);
    VtableOfOne(locs);
    SmallWord(6);
    var vt: seq<byte> := [6, 0, 8, 0, 4, 0];
    assert Reused(d, vtables, true, vt) == None;
    assert vtables + [14] == [14];
    assert vt + ([6, 0, 0, 0] + d) == [6, 0, 8, 0, 4, 0, 6, 0, 0, 0] + d;
  }

  lemma EndsWithNone(d: seq<byte>, locs: seq<FieldLoc>, vtables: seq<nat>)
    requires d == [] && locs == [] && vtables == []
    ensures Ended(d, locs, 0, vtables, true) == Some(Built([4, 0, 4, 0, 4, 0, 0, 0], [8], 4))
  {
    NoPadding(d);
    VtableOfNone(locs);
    SmallWord(4);
    var vt: seq<byte> := [4, 0, 4, 0];
    assert Reused(d, vtables, true, vt) == None;
    assert vtables + [8] == [8];
    assert vt + ([4, 0, 0, 0] + d) == [4, 0, 4, 0, 4, 0, 0, 0];
  }

  lemma AlignOfOne(v: nat)
    requires v < 0x1_0000_0000
    ensures TableAlign(1, OneField(v)) == 4
  {
    var args := OneField(v).args;
    assert args[..0] == [];
    assert AlignAfterAll(1, [], false) == 1;
  }

  function Empty(): State {
    State([], [], [], 1)
  }

  lemma FirstTable(m: Message, p: Partial, b: Built)
    requires ArgsOk(m.args, 0) && Distinct(m.args) && TableAlign(1, m) == 4
    requires p == AddedAll([], m.args, m.force, []) && |p.data| < 5 && LocsOk(p.locs, 0, |p.data|)
    requires Ended(p.data, p.locs, 0, [], m.dedup) == Some(b)
    ensures BuildTable(Empty(), m) == Some(State(b.data, b.vtables, [b.table], 4))
  {
    assert Empty().tables + [b.table] == [b.table];
  }

  lemma TableOfOne(v: nat)
    requires 0 < v < 0x1_0000_0000
    ensures ArgsOk(OneField(v).args, 0) && Distinct(OneField(v).args)
    ensures BuildTable(Empty(), OneField(v)) ==
            Some(State([6, 0, 8, 0, 4, 0, 6, 0, 0, 0] + LE(v, 4), [14], [8], 4))
  {
    Adds(v, []);
    EndsWithOne(LE(v, 4), [FieldLoc(4, 4)], []);
    AlignOfOne(v);
    FirstTable(OneField(v), Partial(LE(v, 4), [FieldLoc(4, 4)]),
               Built([6, 0, 8, 0, 4, 0, 6, 0, 0, 0] + LE(v, 4), [14], 8));
  }

  lemma TableOfDefault()
    ensures ArgsOk(OneField(0).args, 0) && Distinct(OneField(0).args)
    ensures BuildTable(Empty(), OneField(0)) == Some(State([4, 0, 4, 0, 4, 0, 0, 0], [8], [4], 4))
  {
    Adds(0, []);
    EndsWithNone([], [], []);
    AlignOfOne(0);
    FirstTable(OneField(0), Partial([], []), Built([4, 0, 4, 0, 4, 0, 0, 0], [8], 4));
  }

  /** StartTable, AddElement and EndTable on a new builder. */
  lemma BuildsOne(m: Message)
    requires ArgsOk(m.args, 0) && Distinct(m.args)
    ensures WellFormed([m]) && BuildAll([m]) == BuildTable(Empty(), m)
  {
    assert [m][..0] == [];
    assert BuildAll([]) == Some(Empty());
  }

  lemma PaddedOne(d: seq<byte>)
    requires |d| == 14
    ensures Padded(d, 4, 0) == [0, 0] + d
  {
    ZerosAre();
    assert PaddingBytes(18, 4) == 2;
    NoPadding([0, 0] + d);
  }

  lemma FinishesOne(w: seq<byte>, d: seq<byte>)
    requires |w| == 4 && d == [6, 0, 8, 0, 4, 0, 6, 0, 0, 0] + w
    ensures CanFinish(d, 8, 4, 0)
    ensures Finished(d, 8, 4, 0) == [12, 0, 0, 0, 0, 0, 6, 0, 8, 0, 4, 0, 6, 0, 0, 0] + w
  {
    PaddedOne(d);
    SmallWord(12);
    assert [12, 0, 0, 0] + ([0, 0] + d) == [12, 0, 0, 0, 0, 0, 6, 0, 8, 0, 4, 0, 6, 0, 0, 0] + w;
  }

  lemma FinishesDefault(d: seq<byte>)
    requires d == [4, 0, 4, 0, 4, 0, 0, 0]
    ensures CanFinish(d, 4, 4, 0) && Finished(d, 4, 4, 0) == [8, 0, 0, 0] + d
  {
    assert PaddingBytes(12, 4) == 0;
    assert Zeros(0) + d == d;
    NoPadding(d);
    SmallWord(8);
    assert Padded(d, 4, 0) == d;
  }

  /** What is sent for v, from the first byte on: root word, padding, vtable, table. */
  lemma BytesOfOne(v: nat)
    requires 0 < v < 0x1_0000_0000
    ensures WellFormed([OneField(v)]) && BuildAll([OneField(v)]).Some?
    ensures var s := BuildAll([OneField(v)]).value;
            && s.tables == [8] && s.align == 4 && CanFinish(s.data, 8, FinishAlign(4, 0), 0)
            && Finished(s.data, 8, FinishAlign(4, 0), 0) ==
               [12, 0, 0, 0, 0, 0, 6, 0, 8, 0, 4, 0, 6, 0, 0, 0] +
               [v % 256, v / 256 % 256, v / 256 / 256 % 256, v / 256 / 256 / 256 % 256]
  {
    TableOfOne(v);
    BuildsOne(OneField(v));
    FourBytes(v);
    FinishesOne(LE(v, 4), [6, 0, 8, 0, 4, 0, 6, 0, 0, 0] + LE(v, 4));
  }

  /** And for the default: the field is nowhere, neither in the vtable nor in the table. */
  lemma BytesOfDefault()
    ensures WellFormed([OneField(0)]) && BuildAll([OneField(0)]).Some?
    ensures var s := BuildAll([OneField(0)]).value;
            && s.tables == [4] && s.align == 4 && CanFinish(s.data, 4, FinishAlign(4, 0), 0)
            && Finished(s.data, 4, FinishAlign(4, 0), 0) == [8, 0, 0, 0, 4, 0, 4, 0, 4, 0, 0, 0]
  {
    TableOfDefault();
    BuildsOne(OneField(0));
    FinishesDefault([4, 0, 4, 0, 4, 0, 0, 0]);
  }
}

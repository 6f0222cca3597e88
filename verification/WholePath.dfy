/** From the fields a sender adds to the fields a receiver reads. */
module WholePath {
  import opened Bytes
  import opened Options
  import opened FlatBuild
  import opened FlatRoundTrip
  import opened FlatFinish
  import opened Frames
  import opened ReceptionRun
  import opened EndToEnd

  /** What one Send serializes: tables and the number of the root. */
  datatype Outgoing = Outgoing(msgs: seq<Message>, root: nat)

  predicate Builds(o: Outgoing) {
    WellFormed(o.msgs) && o.root < |o.msgs| && BuildAll(o.msgs).Some?
  }

  /** The finished buffer after its size prefix. */
  function Body(o: Outgoing): seq<byte>
    requires Builds(o)
  {
    var s := BuildAll(o.msgs).value;
    AlwaysFinishes(o.msgs, s, o.root, 4);
    Finished(s.data, s.tables[o.root], FinishAlign(s.align, 4), 4)
  }

  /** Pack and FinishSizePrefixed went through, and the size fits its 32-bit prefix. */
  predicate Packs(o: Outgoing) {
    Builds(o) && |Body(o)| < TWO31
  }

  predicate AllPack(os: seq<Outgoing>) {
    forall i :: 0 <= i < |os| ==> Packs(os[i])
  }

  function Bodies(os: seq<Outgoing>): (r: seq<seq<byte>>)
    requires AllPack(os)
    ensures |r| == |os| && forall i :: 0 <= i < |os| ==> r[i] == Body(os[i]) && |r[i]| < TWO31
  {
    if os == [] then [] else
    assert Packs(os[0]);
    [Body(os[0])] + Bodies(os[1..])
  }

  lemma {:induction false} MessagesAt(bodies: seq<seq<byte>>, i: nat)
    requires (forall b :: b in bodies ==> |b| < TWO31) && i < |bodies|
    ensures |Messages(bodies)| == |bodies| && Messages(bodies)[i] == LE32(|bodies[i]|) + bodies[i]
  {
    if i > 0 {
      MessagesAt(bodies[1..], i - 1);
    } else if |bodies| > 1 {
      MessagesAt(bodies[1..], 0);
    }
  }

  /** A received message: its size prefix stripped, it has the root the sender named, and every
      field of every table in it answers what the sender added and lies at a multiple of its width
      from the first byte of the message. */
  ghost predicate Reads(o: Outgoing, received: seq<byte>)
    requires Packs(o)
  {
    var s := BuildAll(o.msgs).value;
    && |received| >= 4 && GetRoot(received[4..]) == Some(s.tables[o.root])
    && forall k :: 0 <= k < |o.msgs| ==> TableReads(received, s.tables[k], o.msgs[k], s.tables)
  }

  ghost predicate TableReads(received: seq<byte>, table: nat, m: Message, tables: seq<nat>)
    requires |received| >= 4
  {
    && TableOk(received[4..], table, m.args, m.force, tables)
    && TableInLine(|received|, received[4..], table, m)
  }

  lemma BodyReads(o: Outgoing, received: seq<byte>)
    requires Packs(o) && received == LE32(|Body(o)|) + Body(o)
    ensures Reads(o, received)
  {
    var s, align := BodyIs(o, Body(o));
    assert received[4..] == Body(o);
    forall k | 0 <= k < |o.msgs|
      ensures TableReads(received, s.tables[k], o.msgs[k], s.tables)
    {
      TableKept(o.msgs, s, received[4..], k);
      TableLinesUp(o.msgs, s, |received|, align, received[4..], k);
    }
  }

  /** What matters of a body: its root, the tables in it, and its length. */
  lemma BodyIs(o: Outgoing, r: seq<byte>) returns (s: State, align: nat)
    requires Builds(o) && r == Body(o)
    ensures BuildAll(o.msgs) == Some(s) && GetRoot(r) == Some(s.tables[o.root]) && Lays(4 + |r|, r, s, align)
  {
    s := BuildAll(o.msgs).value;
    align := FinishAlign(s.align, 4);
    AlwaysFinishes(o.msgs, s, o.root, 4);
    FinishedRoot(s.data, s.tables[o.root], align, 4, r);
    FinishedLays(s, o.root, 4, align, r);
  }

  lemma SendableBodies(os: seq<Outgoing>)
    requires AllPack(os)
    ensures Sendable(Bodies(os))
  {
  }

  /** From the fields added to the fields read, through a ring of n bytes: once everything sent has
      been taken in, in whatever transfers, the i-th message handed over reads as the i-th message
      sent, for all of them, if no message ran over the end of the ring; and otherwise what is
      handed over depends on the memory behind it. */
  lemma SentFieldsArrive(n: int, os: seq<Outgoing>, chunks: seq<seq<byte>>, i: nat)
    requires n > 1 && AllPack(os) && Possible(n, chunks) && Concat(chunks) == WireOf(os) && i < |os|
    ensures Run(n, chunks).Conn? <==> InOnePiece(n, 0, Bodies(os))
    ensures Run(n, chunks).Conn? ==> |Run(n, chunks).out| == |os| && Reads(os[i], Run(n, chunks).out[i])
  {
    var bodies := Bodies(os);
    SendableBodies(os);
    MessagesArrive(n, bodies, chunks);
    MessagesAt(bodies, i);
    BodyReads(os[i], Messages(bodies)[i]);
  }

  /** All the packets, one after the other. */
  function WireOf(os: seq<Outgoing>): seq<byte>
    requires AllPack(os)
  {
    SendableBodies(os);
    Wire(Bodies(os))
  }
}

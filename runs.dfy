/** Successive calls of `Send` on one sender, and what they do to the
    sequence numbers of each universe. */
module Runs {
  import opened Types
  import opened Sequencing
  import opened Sender

  /** One call of a `Send` overload together with the sender's settable
      properties as that call reads them; callers may change `UUID`,
      `SourceName`, `UnicastAddress` and `Port` between calls. */
  datatype Call = Call(settings: Settings, request: Request)

  /** The results of the calls, one after the other, from the map `ids`,
      and the map after the last of them. */
  function Run(ids: map<uint16, uint8>, calls: seq<Call>, world: Collaborators)
    : (r: (seq<SendResult>, map<uint16, uint8>))
    ensures |r.0| == |calls|
    decreases |calls|
  {
    if calls == [] then ([], ids)
    else
      var (first, ids1) := Perform(calls[0].settings, ids, calls[0].request, world);
      var (rest, ids2) := Run(ids1, calls[1..], world);
      ([first] + rest, ids2)
  }

  /** Whether a result is a packet that was built for universe u. */
  predicate BuiltOn(r: SendResult, u: uint16)
  {
    !r.status.ConstructorThrew? && r.packet.universeID == u
  }

  /** The sequence numbers of the packets built for universe u, in order. */
  function StampedOn(results: seq<SendResult>, u: uint16): (stamped: seq<uint8>)
    ensures |stamped| <= |results|
  {
    if results == [] then []
    else (if BuiltOn(results[0], u) then [results[0].packet.sequenceID] else [])
         + StampedOn(results[1..], u)
  }

  lemma StampedOnCons(r: SendResult, rest: seq<SendResult>, u: uint16)
    ensures StampedOn([r] + rest, u)
            == (if BuiltOn(r, u) then [r.packet.sequenceID] else []) + StampedOn(rest, u)
  {
  }

  /** The universe's entry after one send: advanced by one exactly when a
      packet for it was built, left as it was otherwise. */
  lemma PerformNextSequence(s: Settings, ids: map<uint16, uint8>, req: Request, world: Collaborators, u: uint16)
    ensures var (r, ids1) := Perform(s, ids, req, world);
      NextSequence(ids1, u) == if BuiltOn(r, u) then WrappingIncrement(NextSequence(ids, u)) else NextSequence(ids, u)
  {
  }

  /** Whatever the mix of overloads, universes, failures and changes to the
      sender's properties between calls, the packets
      built for a universe carry consecutive numbers modulo 256 starting at
      its stored number (0 if it was never sent on), and the stored number
      afterwards is the start plus their count, modulo 256. */
  lemma {:induction false} RunStampsContiguous(ids: map<uint16, uint8>, calls: seq<Call>, world: Collaborators, u: uint16)
    ensures var (results, final) := Run(ids, calls, world);
      && StampedOn(results, u) == Counting(NextSequence(ids, u), |StampedOn(results, u)|)
      && NextSequence(final, u) as int == (NextSequence(ids, u) as int + |StampedOn(results, u)|) % 256
    decreases |calls|
  {
    if calls == [] {
      assert Counting(NextSequence(ids, u), 0) == [];
    } else {
      var (first, ids1) := Perform(calls[0].settings, ids, calls[0].request, world);
      var (rest, final) := Run(ids1, calls[1..], world);
      RunStampsContiguous(ids1, calls[1..], world, u);
      StampedOnCons(first, rest, u);
      PerformNextSequence(calls[0].settings, ids, calls[0].request, world, u);
      var s0 := NextSequence(ids, u);
      var k := |StampedOn(rest, u)|;
      if BuiltOn(first, u) {
        CountingStep(s0, k);
      }
    }
  }

  /** A run leaves alone every universe none of its calls names: its entry,
      and whether it has one at all. */
  lemma {:induction false} RunLeavesOtherUniverses(ids: map<uint16, uint8>, calls: seq<Call>, world: Collaborators, v: uint16)
    requires forall i :: 0 <= i < |calls| ==> calls[i].request.universeID != v
    ensures var final := Run(ids, calls, world).1;
      (v in final <==> v in ids) && (v in ids ==> final[v] == ids[v])
    decreases |calls|
  {
    if calls != [] {
      var ids1 := Perform(calls[0].settings, ids, calls[0].request, world).1;
      RunLeavesOtherUniverses(ids1, calls[1..], world, v);
    }
  }

  /** When every packet for universe u is accepted, each call on u builds one. */
  lemma {:induction false} AllBuilt(ids: map<uint16, uint8>, calls: seq<Call>, world: Collaborators, u: uint16)
    requires forall i :: 0 <= i < |calls| ==> calls[i].request.universeID == u
    requires forall p: PacketArgs :: p.universeID == u ==> world.packetAccepts(p)
    ensures |StampedOn(Run(ids, calls, world).0, u)| == |calls|
    decreases |calls|
  {
    if calls != [] {
      var (first, ids1) := Perform(calls[0].settings, ids, calls[0].request, world);
      var rest := Run(ids1, calls[1..], world).0;
      AllBuilt(ids1, calls[1..], world, u);
      StampedOnCons(first, rest, u);
    }
  }

  /** N calls on one universe whose packets are all accepted carry
      s0, s0+1, ..., s0+N-1 modulo 256 and leave s0+N modulo 256 stored;
      after 256 of them the stored number is back at s0. */
  lemma {:induction false} SuccessiveSends(ids: map<uint16, uint8>, calls: seq<Call>, world: Collaborators, u: uint16)
    requires forall i :: 0 <= i < |calls| ==> calls[i].request.universeID == u
    requires forall p: PacketArgs :: p.universeID == u ==> world.packetAccepts(p)
    ensures var (results, final) := Run(ids, calls, world);
      && StampedOn(results, u) == Counting(NextSequence(ids, u), |calls|)
      && NextSequence(final, u) as int == (NextSequence(ids, u) as int + |calls|) % 256
      && (|calls| == 256 ==> NextSequence(final, u) == NextSequence(ids, u))
  {
    RunStampsContiguous(ids, calls, world, u);
    AllBuilt(ids, calls, world, u);
  }

  /** At most 256 packets built for one universe, over any mix of calls,
      carry pairwise distinct sequence numbers. */
  lemma RunStampsDistinct(ids: map<uint16, uint8>, calls: seq<Call>, world: Collaborators, u: uint16)
    requires |StampedOn(Run(ids, calls, world).0, u)| <= 256
    ensures var stamped := StampedOn(Run(ids, calls, world).0, u);
      forall i, j :: 0 <= i < j < |stamped| ==> stamped[i] != stamped[j]
  {
    RunStampsContiguous(ids, calls, world, u);
    CountingDistinct(NextSequence(ids, u), |StampedOn(Run(ids, calls, world).0, u)|);
  }

  /** The two overloads sequence alike: the packet built and the map
      afterwards do not depend on which overload was called. */
  lemma OverloadsSequenceAlike(s: Settings, ids: map<uint16, uint8>, req: Request, t: Target, world: Collaborators)
    ensures Perform(s, ids, req, world).0.packet == Perform(s, ids, req.(target := t), world).0.packet
    ensures Perform(s, ids, req, world).1 == Perform(s, ids, req.(target := t), world).1
  {
  }

  /** A failure after the store (`ToArray` or `SendAsync` throwing) does not
      roll the counter back: the next packet on the same universe carries
      the following number, whatever the settings of that next call. */
  lemma NoRollbackAfterStore(s1: Settings, s2: Settings, ids: map<uint16, uint8>, req1: Request, req2: Request, world: Collaborators)
    requires req2.universeID == req1.universeID
    requires Perform(s1, ids, req1, world).0.status.ToArrayThrew? || Perform(s1, ids, req1, world).0.status.TransmitThrew?
    ensures var (r1, ids1) := Perform(s1, ids, req1, world);
      Perform(s2, ids1, req2, world).0.packet.sequenceID == WrappingIncrement(r1.packet.sequenceID)
  {
  }
}

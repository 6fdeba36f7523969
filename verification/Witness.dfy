/** Concrete runs of one channel: one id for two HTLCs of the host, and one for two HTLCs of the peer. */
module Witness {
  import opened Base
  import opened State
  import opened StateLaws
  import opened HtlcIds
  import opened Hosted = Channel
  import opened ChannelLaws
  import opened ChannelRuns
  import opened ChannelIds
  import opened Conservation
  import opened Forwarding

  const SMALL: Policy := Policy(1000, 0, 1_000_000, 0, 12, 0, 0, 0)

  const REFUND: Bytes := [1]

  /** An active channel without HTLCs, all of its balance the host's. */
  predicate Fresh(c: Hosted.Channel, counter: nat) {
    && DeriveStatus(c.data) == Active && c.data.uncommitted == [] && c.data.localErrors == []
    && c.data.lcss.localUpdates == counter && Idle(c.data.lcss)
    && RoutingFor(c.data, SMALL) == RoutingOf(SMALL)
  }

  predicate Idle(l: Cross) {
    l.incoming == [] && l.outgoing == [] && l.init == InitOf(SMALL) && l.localBalance == 1000 && l.remoteBalance == 0
  }

  /** The peer's half of an agreement on a state without HTLCs. */
  function Agreement(l: Cross, peer: Key): StateUpdate {
    StateUpdate(0, l.remoteUpdates, l.localUpdates, Signed(peer, CoveredOf(l)))
  }

  function Blank(c: Hosted.Channel): Cross {
    c.data.lcss.(blockDay := 0, localUpdates := 0, remoteUpdates := 0, incoming := [], outgoing := [])
  }

  lemma {:induction false} OpensWith(k: Keys) returns (msg: StateUpdate)
    ensures var c := OnStateUpdate(NewChannel(SMALL, REFUND), k, msg, 0).channel;
      Fresh(c, 0) && c.given == []
  {
    hide CoveredOf;
    msg := Agreement(Blank(NewChannel(SMALL, REFUND)), k.peer);
    var l := Blank(NewChannel(SMALL, REFUND)).(remoteSigOfLocal := msg.sig);
    SigIsNotCovered(Blank(NewChannel(SMALL, REFUND)), msg.sig);
    assert VerifyRemoteSig(l, k.peer);
    assert SignWith(l, k.host).Some?;
  }

  lemma {:induction false} SigIsNotCovered(l: Cross, sig: Sig)
    ensures CoveredOf(l.(remoteSigOfLocal := sig)) == CoveredOf(l)
  {
  }

  /** An added HTLC is stored under its id even if it cannot be announced. */
  lemma {:induction false} AddIsStored(c: Hosted.Channel, k: Keys, h: Htlc, sent: bool)
    ensures var r := OnHostAdd(c, k, h, 0, sent, sent).channel;
      && r.given == c.given + [Grant(h.id, h.paymentHash)]
      && r.data == c.data.(uncommitted := c.data.uncommitted + [Local(Add(h))],
                           localErrors := if sent then c.data.localErrors else c.data.localErrors + [DeliveryFailed])
  {
    hide SignedNext;
  }

  lemma {:induction false} OverridesWith(c: Hosted.Channel, k: Keys) returns (msg: StateUpdate)
    requires DeriveStatus(c.data) == Errored && Idle(c.data.lcss) && RoutingFor(c.data, SMALL) == RoutingOf(SMALL)
    ensures var c1 := OnProposeOverride(c, k, None, 0).channel;
      var c2 := OnStateUpdate(c1, k, msg, 0).channel;
      Fresh(c2, c.data.lcss.localUpdates + 1) && c1.given == c.given && c2.given == c.given
  {
    hide CoveredOf, DroppedIds, UncountedIds, LocalOf;
    var proposal := OverrideState(c.data, c.data.lcss.init, 1000, 0, 0);
    var l := proposal.(localSigOfRemote := Signed(k.host, CoveredOf(Reverse(proposal))));
    var c1 := OnProposeOverride(c, k, None, 0).channel;
    assert SignWith(proposal, k.host) == Some(l);
    assert c1.data.proposedOverride == Some(l);
    msg := Agreement(l, k.peer);
    SigIsNotCovered(l, msg.sig);
    assert VerifyRemoteSig(l.(remoteSigOfLocal := msg.sig), k.peer);
    assert SignWith(l.(remoteSigOfLocal := msg.sig), k.host).Some?;
  }

  function Small(k: Keys, id: U64, hash: Bytes32): Htlc {
    Htlc(k.channelId, id, 0, hash, 0, [], [])
  }

  /** On a fresh channel two HTLCs of amount zero can be added one after the other. */
  lemma {:induction false} TwoMayBeAdded(c: Hosted.Channel, k: Keys, counter: nat, a: Bytes32, b: Bytes32)
    requires Fresh(c, counter) && counter + 2 < U64_BOUND
    ensures MayHostAdd(c.data, k, Small(k, counter + 1, a))
    ensures var c' := OnHostAdd(c, k, Small(k, counter + 1, a), 0, true, true).channel;
      MayHostAdd(c'.data, k, Small(k, counter + 2, b))
  {
    hide OnHostAdd, RemoteOf;
    AddIsStored(c, k, Small(k, counter + 1, a), true);
    PushedLocal(c.data.lcss, [], Add(Small(k, counter + 1, a)));
    Pushed(c.data.lcss, [], Local(Add(Small(k, counter + 1, a))));
    assert Fold(c.data.lcss, []) == Ok(c.data.lcss);
  }

  lemma {:induction false} Extended(trace: seq<Hosted.Channel>, es: seq<Event>, k: Keys, e: Event)
    returns (trace': seq<Hosted.Channel>)
    requires IsRun(trace, es, k, SMALL) && |trace| == |es| + 1 && Admissible(trace[|es|], k, e)
    ensures IsRun(trace', es + [e], k, SMALL) && |trace'| == |es| + 2
    ensures trace'[0] == trace[0] && trace'[|es| + 1] == Respond(trace[|es|], k, SMALL, e).channel
  {
    hide Respond, Possible, Disciplined;
    trace' := trace + [Respond(trace[|es|], k, SMALL, e).channel];
    assert forall i :: 0 <= i < |es| ==> (es + [e])[i] == es[i];
    assert forall i :: 0 <= i <= |es| ==> trace'[i] == trace[i];
  }

  /** The events of the run need nothing of the channel but the host's own checks. */
  lemma {:induction false} Steps(c: Hosted.Channel, k: Keys, msg: StateUpdate, h: Htlc, sent: bool)
    ensures Admissible(c, k, PeerStateUpdate(msg, 0)) && Respond(c, k, SMALL, PeerStateUpdate(msg, 0)) == OnStateUpdate(c, k, msg, 0)
    ensures Admissible(c, k, ProposeOverride(None, 0)) && Respond(c, k, SMALL, ProposeOverride(None, 0)) == OnProposeOverride(c, k, None, 0)
    ensures MayHostAdd(c.data, k, h) ==>
      Admissible(c, k, HostAdd(h, 0, sent, sent)) && Respond(c, k, SMALL, HostAdd(h, 0, sent, sent)) == OnHostAdd(c, k, h, 0, sent, sent)
  {
    hide OnStateUpdate, OnProposeOverride, OnHostAdd, MayHostAdd;
  }

  /** The channel opens, the host adds two HTLCs, and the second cannot be delivered. */
  lemma {:induction false} TwoGiven(k: Keys, a: Bytes32, b: Bytes32) returns (trace: seq<Hosted.Channel>, es: seq<Event>)
    ensures IsRun(trace, es, k, SMALL) && |trace| == |es| + 1 && trace[0] == NewChannel(SMALL, REFUND)
    ensures var c := trace[|es|];
      && DeriveStatus(c.data) == Errored && Idle(c.data.lcss) && RoutingFor(c.data, SMALL) == RoutingOf(SMALL)
      && c.data.lcss.localUpdates == 0 && c.given == [Grant(1, a), Grant(2, b)]
  {
    hide OnStateUpdate, OnHostAdd, NewChannel, MayHostAdd, Fresh, Respond, Admissible, Idle, DeriveStatus, RoutingFor, IsRun;
    var opening := OpensWith(k);
    var c0 := NewChannel(SMALL, REFUND);
    var c1 := OnStateUpdate(c0, k, opening, 0).channel;
    var h1, h2 := Small(k, 1, a), Small(k, 2, b);
    TwoMayBeAdded(c1, k, 0, a, b);
    AddIsStored(c1, k, h1, true);
    var c2 := OnHostAdd(c1, k, h1, 0, true, true).channel;
    AddIsStored(c2, k, h2, false);
    Steps(c0, k, opening, h1, true);
    Steps(c1, k, opening, h1, true);
    Steps(c2, k, opening, h2, false);
    Started(c0, k);
    trace := Extended([c0], [], k, PeerStateUpdate(opening, 0));
    es := [] + [PeerStateUpdate(opening, 0)];
    trace := Extended(trace, es, k, HostAdd(h1, 0, true, true));
    es := es + [HostAdd(h1, 0, true, true)];
    trace := Extended(trace, es, k, HostAdd(h2, 0, false, false));
    es := es + [HostAdd(h2, 0, false, false)];
    StaysIdle(c1, trace[|es|], 0);
  }

  lemma {:induction false} Started(c: Hosted.Channel, k: Keys)
    ensures IsRun([c], [], k, SMALL)
  {
  }

  /**
   * A run: the channel opens, the host adds two HTLCs, the second cannot be delivered, the peer
   * accepts an override, and the host adds a third HTLC under the id of the second.
   */
  lemma {:induction false} OneIdGivenTwice(k: Keys, a: Bytes32, b: Bytes32, d: Bytes32)
    returns (trace: seq<Hosted.Channel>, es: seq<Event>)
    ensures IsRun(trace, es, k, SMALL) && |trace| == |es| + 1 && trace[0] == NewChannel(SMALL, REFUND)
    ensures trace[|es|].given == [Grant(1, a), Grant(2, b), Grant(2, d)]
  {
    hide OnStateUpdate, OnHostAdd, OnProposeOverride, NewChannel, MayHostAdd, Fresh, Respond, Admissible, Idle, DeriveStatus, RoutingFor, IsRun;
    trace, es := TwoGiven(k, a, b);
    var c3 := trace[|es|];
    var agreed := OverridesWith(c3, k);
    var c4 := OnProposeOverride(c3, k, None, 0).channel;
    var c5 := OnStateUpdate(c4, k, agreed, 0).channel;
    var h3 := Small(k, 2, d);
    TwoMayBeAdded(c5, k, 1, d, d);
    AddIsStored(c5, k, h3, true);
    Steps(c3, k, agreed, h3, true);
    Steps(c4, k, agreed, h3, true);
    Steps(c5, k, agreed, h3, true);
    trace := Extended(trace, es, k, ProposeOverride(None, 0));
    es := es + [ProposeOverride(None, 0)];
    trace := Extended(trace, es, k, PeerStateUpdate(agreed, 0));
    es := es + [PeerStateUpdate(agreed, 0)];
    trace := Extended(trace, es, k, HostAdd(h3, 0, true, true));
    es := es + [HostAdd(h3, 0, true, true)];
  }

  /** Two additions, the second undelivered, leave an errored channel with the same state. */
  lemma {:induction false} StaysIdle(c: Hosted.Channel, c': Hosted.Channel, counter: nat)
    requires Fresh(c, counter)
    requires c'.data == c.data.(uncommitted := c'.data.uncommitted, localErrors := c.data.localErrors + [DeliveryFailed])
    ensures DeriveStatus(c'.data) == Errored && Idle(c'.data.lcss) && RoutingFor(c'.data, SMALL) == RoutingOf(SMALL)
    ensures c'.data.lcss.localUpdates == counter
  {
  }

  // ---- HTLCs of the peer -------------------------------------------------------------------

  function RemoteAdds(hs: seq<Htlc>): seq<Update> {
    if hs == [] then [] else RemoteAdds(hs[..|hs| - 1]) + [Remote(Add(hs[|hs| - 1]))]
  }

  predicate Weightless(hs: seq<Htlc>) {
    forall i :: 0 <= i < |hs| ==> hs[i].amount == 0 && HtlcEncodes(hs[i])
  }

  lemma {:induction false} RemoteAddsFold(l: Cross, hs: seq<Htlc>)
    requires l.incoming == [] && Weightless(hs)
    ensures var q := RemoteAdds(hs);
      && Fold(l, q) == Ok(l.(incoming := hs, remoteUpdates := l.remoteUpdates + |hs|))
      && LocalOf(q) == [] && |RemoteOf(q)| == |hs| && Deduplicate(q) == q && |q| == |hs|
  {
    if hs != [] {
      var front, last := hs[..|hs| - 1], hs[|hs| - 1];
      RemoteAddsFold(l, front);
      Pushed(l, RemoteAdds(front), Remote(Add(last)));
      PushedRemote(l, RemoteAdds(front), Add(last));
      assert front + [last] == hs;
      assert RemoteAdds(hs)[..|RemoteAdds(hs)| - 1] == RemoteAdds(front);
    }
  }

  /** A fresh channel to which the peer may add some more, all weightless. */
  predicate Receiving(c0: Hosted.Channel, c: Hosted.Channel, hs: seq<Htlc>) {
    Fresh(c0, 0) && Weightless(hs) && c.data == c0.data.(uncommitted := RemoteAdds(hs))
  }

  lemma {:induction false} PeerAdds(c0: Hosted.Channel, c: Hosted.Channel, hs: seq<Htlc>, h: Htlc)
    requires Receiving(c0, c, hs) && h.amount == 0 && HtlcEncodes(h)
    ensures Receiving(c0, OnUpdateAdd(c, h).channel, hs + [h])
  {
    hide Fold, HtlcEncodes, Deduplicate, LocalOf, RemoteOf, RoutingFor;
    RemoteAddsFold(c0.data.lcss, hs);
    assert (hs + [h])[..|hs + [h]| - 1] == hs;
  }

  /** The channel after the peer committed its HTLCs. */
  predicate Received(c0: Hosted.Channel, c: Hosted.Channel, hs: seq<Htlc>) {
    && Fresh(c0, 0) && Weightless(hs) && c.data.uncommitted == []
    && c.data == c0.data.(lcss := c.data.lcss)
    && c.data.lcss.incoming == hs && c.data.lcss.outgoing == [] && c.data.lcss.localUpdates == 0
    && c.data.lcss.init == InitOf(SMALL) && c.data.lcss.localBalance == 1000 && c.data.lcss.remoteBalance == 0
  }

  lemma {:induction false} PeerCommits(c0: Hosted.Channel, c: Hosted.Channel, k: Keys, hs: seq<Htlc>) returns (msg: StateUpdate)
    requires Receiving(c0, c, hs) && hs != []
    ensures Received(c0, OnStateUpdate(c, k, msg, 0).channel, hs) && OnStateUpdate(c, k, msg, 0).result == Ok(())
    ensures CommitsQueue(c, OnStateUpdate(c, k, msg, 0).channel)
  {
    hide CoveredOf, Fold, LocalOf, RemoteOf, Deduplicate;
    RemoteAddsFold(c0.data.lcss, hs);
    var next := c0.data.lcss.(incoming := hs, remoteUpdates := c0.data.lcss.remoteUpdates + |hs|, blockDay := 0);
    msg := Agreement(next, k.peer);
    SigIsNotCovered(next, msg.sig);
    var l := next.(remoteSigOfLocal := msg.sig);
    assert HtlcsEncode(l.outgoing) && HtlcsEncode(l.incoming);
    assert VerifyRemoteSig(l, k.peer);
    assert SignWith(l, k.host).Some?;
  }

  // ---- What a reused id of the peer does ---------------------------------------------------

  /**
   * A resolution that names an HTLC reaches it if and only if no earlier HTLC of the list has its id:
   * otherwise the earlier one is taken out, and a fulfill is measured against the earlier hash.
   */
  lemma {:induction false} ResolutionReachesIff(l: Cross, j: nat, preimage: Bytes32)
    requires j < |l.incoming| && SHA256(preimage) == l.incoming[j].paymentHash
    requires forall i :: 0 <= i < j ==> l.incoming[i].paymentHash != l.incoming[j].paymentHash
    ensures var r := LocalResolve(l, Fulfill(l.incoming[j].channelId, l.incoming[j].id, preimage));
      r != Err(WrongPreimage) <==> forall i :: 0 <= i < j ==> l.incoming[i].id != l.incoming[j].id
    ensures var r := LocalResolve(l, Fail(l.incoming[j].channelId, l.incoming[j].id, [0]));
      r.Ok? ==> r.value.incoming == Without(l.incoming, Position(l.incoming, l.incoming[j].id))
  {
    var i := Position(l.incoming, l.incoming[j].id);
    assert i <= j;
  }

  function PeerHtlc(k: Keys, hash: Bytes32): Htlc {
    Htlc(k.channelId, 5, 0, hash, 10, Zeros(ONION_SIZE), [])
  }

  function FailFive(k: Keys): PendingUpdate {
    Fail(k.channelId, 5, [0])
  }

  lemma {:induction false} AnyExtended(trace: seq<Hosted.Channel>, es: seq<Event>, k: Keys, e: Event)
    returns (trace': seq<Hosted.Channel>)
    requires IsAnyRun(trace, es, k, SMALL) && |trace| == |es| + 1 && Possible(trace[|es|], k, e)
    ensures IsAnyRun(trace', es + [e], k, SMALL) && |trace'| == |es| + 2
    ensures trace'[0] == trace[0] && trace'[|es| + 1] == Respond(trace[|es|], k, SMALL, e).channel
  {
    hide Respond, Possible;
    trace' := trace + [Respond(trace[|es|], k, SMALL, e).channel];
    assert forall i :: 0 <= i < |es| ==> (es + [e])[i] == es[i];
    assert forall i :: 0 <= i <= |es| ==> trace'[i] == trace[i];
  }

  lemma {:induction false} PeerSteps(c: Hosted.Channel, k: Keys, msg: StateUpdate, h: Htlc, r: PendingUpdate)
    requires !r.Add?
    ensures Possible(c, k, PeerStateUpdate(msg, 0)) && Respond(c, k, SMALL, PeerStateUpdate(msg, 0)) == OnStateUpdate(c, k, msg, 0)
    ensures Possible(c, k, PeerAdd(h)) && Respond(c, k, SMALL, PeerAdd(h)) == OnUpdateAdd(c, h)
    ensures Possible(c, k, HostResolve(r, 0)) && Respond(c, k, SMALL, HostResolve(r, 0)) == OnLocalResolve(c, k, r, 0)
  {
    hide OnStateUpdate, OnUpdateAdd, OnLocalResolve;
  }

  /** Two committed HTLCs of the peer under one id are failed one after the other. */
  lemma {:induction false} FailsBoth(c0: Hosted.Channel, c: Hosted.Channel, k: Keys, x: Htlc, y: Htlc)
    requires Received(c0, c, [x, y]) && x.id == 5 && y.id == 5
    ensures var r := FailFive(k);
      var c' := OnLocalResolve(c, k, r, 0).channel;
      var c'' := OnLocalResolve(c', k, r, 0).channel;
      && c''.data.uncommitted == [Local(r), Local(r)] && c''.data.lcss == c.data.lcss
      && Deduplicate([Local(r), Local(r)]) == [Local(r)]
      && Fold(c.data.lcss, [Local(r), Local(r)]).Ok? && Fold(c.data.lcss, [Local(r)]).Ok?
      && Fold(c.data.lcss, [Local(r), Local(r)]).value.incoming == [] && Fold(c.data.lcss, [Local(r)]).value.incoming == [y]
  {
    hide CoveredOf, Step;
    var r, l := FailFive(k), c.data.lcss;
    assert HtlcEncodes(l.incoming[0]) && HtlcEncodes(l.incoming[1]);
    assert HasId(l.incoming, 5) by { assert l.incoming[0].id == 5; }
    Pushed(l, [], Local(r));
    Pushed(l, [Local(r)], Local(r));
    assert Fold(l, []) == Ok(l);
    assert [] + [Local(r)] == [Local(r)] && [Local(r)] + [Local(r)] == [Local(r), Local(r)];
    var one := l.(incoming := [y], localUpdates := 1);
    assert Step(l, Local(r)) == Ok(one) && Step(one, Local(r)) == Ok(one.(incoming := [], localUpdates := 2)) by { FailingSteps(l, r, x, y); }
    FailsOne(c, k, r, one);
    var c' := OnLocalResolve(c, k, r, 0).channel;
    FailsOne(c', k, r, one.(incoming := [], localUpdates := 2));
    RepeatedIsDropped(r);
  }

  /** Each failure takes the first of the two and gives nothing back, as they are worth nothing. */
  lemma {:induction false} FailingSteps(l: Cross, r: PendingUpdate, x: Htlc, y: Htlc)
    requires r.Fail? && r.id == 5 && l.incoming == [x, y] && x.id == 5 && y.id == 5 && x.amount == 0 && y.amount == 0
    requires l.localUpdates == 0
    ensures var one := l.(incoming := [y], localUpdates := 1);
      Step(l, Local(r)) == Ok(one) && Step(one, Local(r)) == Ok(one.(incoming := [], localUpdates := 2))
  {
    assert Without(l.incoming, 0) == [y] && Without([y], 0) == [];
  }

  lemma {:induction false} FailsOne(c: Hosted.Channel, k: Keys, r: PendingUpdate, next: Cross)
    requires !r.Add? && HasId(c.data.lcss.incoming, r.id)
    requires Fold(c.data.lcss, c.data.uncommitted + [Local(r)]) == Ok(next) && Encodes(Reverse(next))
    ensures OnLocalResolve(c, k, r, 0).channel.data == c.data.(uncommitted := c.data.uncommitted + [Local(r)])
  {
    hide Fold, HtlcsEncode;
  }

  lemma {:induction false} RepeatedIsDropped(r: PendingUpdate)
    requires !r.Add?
    ensures Deduplicate([Local(r), Local(r)]) == [Local(r)]
  {
    var q := [Local(r), Local(r)];
    var one, none: seq<Update> := [Local(r)], [];
    assert q[..|q| - 1] == one && one[..|one| - 1] == none;
    assert !HasKey(none, (true, r.id)) && none + [Local(r)] == one;
    assert ResolutionKey(one[0]) == Some((true, r.id));
    assert Deduplicate(one) == one;
  }

  /**
   * What a reused id of the peer breaks: a run in which the peer gets two HTLCs committed under one id
   * and the host fails both. The queue folds and was signed, but the next repair takes the second
   * resolution for a repetition, and the repaired queue leads to another state.
   */
  lemma {:induction false} ReusedPeerIdIsRepairedAway(k: Keys, a: Bytes32, b: Bytes32)
    returns (trace: seq<Hosted.Channel>, es: seq<Event>)
    ensures IsAnyRun(trace, es, k, SMALL) && |trace| == |es| + 1 && trace[0] == NewChannel(SMALL, REFUND)
    ensures var d := trace[|es|].data;
      && Fold(d.lcss, d.uncommitted).Ok? && Deduplicate(d.uncommitted) != d.uncommitted
      && Fold(d.lcss, Deduplicate(d.uncommitted)).Ok?
      && Fold(d.lcss, Deduplicate(d.uncommitted)).value.incoming != Fold(d.lcss, d.uncommitted).value.incoming
  {
    hide OnStateUpdate, OnUpdateAdd, OnLocalResolve, NewChannel, Fresh, Respond, Possible, IsAnyRun, Received, Fold, Deduplicate, Receiving;
    var x, y, r := PeerHtlc(k, a), PeerHtlc(k, b), FailFive(k);
    var opening := OpensWith(k);
    var c0 := NewChannel(SMALL, REFUND);
    var c1 := OnStateUpdate(c0, k, opening, 0).channel;
    assert Receiving(c1, c1, []) by { Untouched(c1); }
    PeerAdds(c1, c1, [], x);
    var c2 := OnUpdateAdd(c1, x).channel;
    assert [] + [x] == [x] && [x] + [y] == [x, y];
    PeerAdds(c1, c2, [x], y);
    var c3 := OnUpdateAdd(c2, y).channel;
    var msg := PeerCommits(c1, c3, k, [x, y]);
    var c4 := OnStateUpdate(c3, k, msg, 0).channel;
    FailsBoth(c1, c4, k, x, y);
    var c5 := OnLocalResolve(c4, k, r, 0).channel;
    trace, es := [c0], [];
    assert IsAnyRun(trace, es, k, SMALL) by { AnyStarted(c0, k); }
    PeerSteps(c0, k, opening, x, r);
    trace := AnyExtended(trace, es, k, PeerStateUpdate(opening, 0));
    es := es + [PeerStateUpdate(opening, 0)];
    PeerSteps(c1, k, opening, x, r);
    trace := AnyExtended(trace, es, k, PeerAdd(x));
    es := es + [PeerAdd(x)];
    PeerSteps(c2, k, opening, y, r);
    trace := AnyExtended(trace, es, k, PeerAdd(y));
    es := es + [PeerAdd(y)];
    PeerSteps(c3, k, msg, y, r);
    trace := AnyExtended(trace, es, k, PeerStateUpdate(msg, 0));
    es := es + [PeerStateUpdate(msg, 0)];
    PeerSteps(c4, k, msg, y, r);
    trace := AnyExtended(trace, es, k, HostResolve(r, 0));
    es := es + [HostResolve(r, 0)];
    PeerSteps(c5, k, msg, y, r);
    trace := AnyExtended(trace, es, k, HostResolve(r, 0));
    es := es + [HostResolve(r, 0)];
  }

  lemma {:induction false} AnyStarted(c: Hosted.Channel, k: Keys)
    ensures IsAnyRun([c], [], k, SMALL)
  {
  }

  lemma {:induction false} Untouched(c: Hosted.Channel)
    requires Fresh(c, 0)
    ensures Receiving(c, c, [])
  {
  }
}

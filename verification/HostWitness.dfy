/**
 * A concrete run of the host in which a link outlives the HTLC it was made for, and then answers the
 * upstream HTLC with a preimage it does not wait for.
 */
module HostWitness {
  import opened Base
  import opened State
  import opened StateLaws
  import opened HtlcIds
  import opened Hosted = Channel
  import opened ChannelLaws
  import opened ChannelRuns
  import opened ChannelIds
  import opened Forwarding
  import opened ForwardingLaws
  import opened HostRuns
  import opened DispatchLaws
  import opened Witness

  /** A host with one channel, nothing learned, at height zero. */
  predicate Plain(h: Host, peer: Key) {
    h.channels.Keys == {peer} && h.preimages == map[] && h.height == 0 && h.policy == SMALL && h.reachable == {} && h.calls == []
  }

  function Surroundings(sent: bool): Env {
    Env(0, false, sent, sent, true, hash => PaymentStatus.Pending)
  }

  function Quiet(): U64 -> Env {
    id => Surroundings(true)
  }

  /** An HTLC of amount zero from a normal channel. */
  function Coming(w: World, peer: Key, n: U64, hash: Bytes32): Offer {
    Offer(Htlc(Zeros(32), 0, 0, hash, 10, Zeros(ONION_SIZE), []), (w.scidOf(peer) + 1, n), None, Some(1000))
  }

  lemma {:induction false} HostExtended(trace: seq<Host>, es: seq<HostEvent>, w: World, e: HostEvent) returns (trace': seq<Host>)
    requires IsHostRun(trace, es, w) && |trace| == |es| + 1 && Allowed(trace[|es|], w, e)
    ensures IsHostRun(trace', es + [e], w) && |trace'| == |es| + 2
    ensures trace'[|es| + 1] == React(trace[|es|], w, e).host && trace'[|es|] == trace[|es|]
  {
    hide React, Allowed, Starts;
    trace' := trace + [React(trace[|es|], w, e).host];
    assert forall i :: 0 <= i < |es| ==> (es + [e])[i] == es[i];
    assert forall i :: 0 <= i <= |es| ==> trace'[i] == trace[i];
  }

  /** The events of the run are allowed, and what each is to the host. */
  lemma {:induction false} HostSteps(h: Host, w: World, peer: Key, msg: StateUpdate, o: Offer, sent: bool, r: PendingUpdate)
    ensures Allowed(h, w, Invoke(peer, Some(SMALL), REFUND, Quiet()))
    ensures Allowed(h, w, StateMessage(peer, msg, Quiet()))
      && React(h, w, StateMessage(peer, msg, Quiet())) == OnStateMessage(h, w, peer, msg, Quiet())
    ensures Allowed(h, w, Offered(peer, o, Surroundings(sent)))
      && React(h, w, Offered(peer, o, Surroundings(sent))) == OnOffer(h, w, peer, o, Surroundings(sent))
    ensures r.Fulfill? ==> Allowed(h, w, FulfillMessage(peer, r)) && React(h, w, FulfillMessage(peer, r)) == OnFulfill(h, w, peer, r)
    ensures peer in h.channels ==>
      && Allowed(h, w, Within(peer, ProposeOverride(None, 0)))
      && React(h, w, Within(peer, ProposeOverride(None, 0))).host ==
           Put(h, peer, OnProposeOverride(h.channels[peer], KeysOf(w, peer), None, 0).channel)
  {
    hide OnInvoke, OnStateMessage, OnOffer, OnFulfill, OnProposeOverride;
  }

  /** A state update that commits no queue only stores its channel. */
  lemma {:induction false} MessageStores(h: Host, w: World, peer: Key, msg: StateUpdate)
    requires Plain(h, peer)
    ensures OnStateMessage(h, w, peer, msg, Quiet()).host == Put(h, peer, OnStateUpdate(h.channels[peer], KeysOf(w, peer), msg, 0).channel)
  {
    hide OnStateUpdate, CommitsQueue, DispatchAll, RelayFailures;
  }

  /** What the host knows before the `n`-th offer: nothing stands in its way. */
  lemma {:induction false} ComingIsAccepted(h: Host, w: World, peer: Key, n: U64, hash: Bytes32, counter: nat, count: nat)
    requires Plain(h, peer) && counter + count + 1 < 0x1_0000_0000 && count < 12
    requires var d := h.channels[peer].data;
      && DeriveStatus(d) == Active && Idle(d.lcss) && RoutingFor(d, SMALL) == RoutingOf(SMALL) && d.lcss.localUpdates == counter
      && Fold(d.lcss, d.uncommitted).Ok? && |LocalOf(d.uncommitted)| == count
      && var next := Fold(d.lcss, d.uncommitted).value; next.incoming == [] && |next.outgoing| == count && Sum(next.outgoing) == 0
    ensures Judge(h, w, peer, Coming(w, peer, n, hash), false) == Accepted
  {
    hide Fold, LocalOf;
    assert !Hosts(h, w, w.scidOf(peer) + 1);
  }

  function HtlcOf(w: World, peer: Key, id: U64, hash: Bytes32): Htlc {
    Htlc(w.channelIdOf(peer), id, 0, hash, 10, Zeros(ONION_SIZE), [])
  }

  /** What an accepted offer does: the link is made unless its key is taken, and the HTLC is added. */
  lemma {:induction false} OfferStores(h: Host, w: World, peer: Key, n: U64, hash: Bytes32, sent: bool, id: U64)
    requires Plain(h, peer) && Judge(h, w, peer, Coming(w, peer, n, hash), false) == Accepted
    requires NextHtlcId(h.channels[peer].data) == id
    ensures var h', at := OnOffer(h, w, peer, Coming(w, peer, n, hash), Surroundings(sent)).host, (w.scidOf(peer), id);
      && Plain(h', peer)
      && h'.channels[peer] == OnHostAdd(h.channels[peer], KeysOf(w, peer), HtlcOf(w, peer, id, hash), 0, sent, sent).channel
      && h'.links == if at in h.links then h.links
                     else h.links[at := LinkFor(Coming(w, peer, n, hash), at, hash, 0, |h.offers|, peer)]
  {
    hide Judge, OnHostAdd, LocalOf;
    AcceptedFits(h, w, peer, Coming(w, peer, n, hash), false);
  }

  /** The channel opens. */
  lemma {:induction false} HostOpens(h0: Host, w: World, peer: Key) returns (trace: seq<Host>, es: seq<HostEvent>)
    requires Starts(h0) && h0.height == 0 && h0.policy == SMALL && h0.reachable == {}
    ensures IsHostRun(trace, es, w) && |trace| == |es| + 1
    ensures Plain(trace[|es|], peer) && Fresh(trace[|es|].channels[peer], 0) && trace[|es|].links == map[]
  {
    hide OnStateUpdate, NewChannel, React, Allowed, Fresh, OnStateMessage, IsHostRun;
    var opening := OpensWith(KeysOf(w, peer));
    var o := Coming(w, peer, 0, Zeros(32));
    trace, es := [h0], [];
    assert IsHostRun(trace, es, w) by { Alone(h0, w); }
    HostSteps(h0, w, peer, opening, o, true, Add(AnyHtlc()));
    Invoked(h0, w, peer);
    trace := HostExtended(trace, es, w, Invoke(peer, Some(SMALL), REFUND, Quiet()));
    es := es + [Invoke(peer, Some(SMALL), REFUND, Quiet())];
    HostSteps(trace[1], w, peer, opening, o, true, Add(AnyHtlc()));
    MessageStores(trace[1], w, peer, opening);
    trace := HostExtended(trace, es, w, StateMessage(peer, opening, Quiet()));
    es := es + [StateMessage(peer, opening, Quiet())];
  }

  lemma {:induction false} Alone(h: Host, w: World)
    requires Starts(h)
    ensures IsHostRun([h], [], w)
  {
  }

  lemma {:induction false} Invoked(h: Host, w: World, peer: Key)
    requires Starts(h) && h.height == 0 && h.policy == SMALL && h.reachable == {}
    requires Allowed(h, w, Invoke(peer, Some(SMALL), REFUND, Quiet()))
    ensures var h' := React(h, w, Invoke(peer, Some(SMALL), REFUND, Quiet())).host;
      Plain(h', peer) && h'.channels[peer] == NewChannel(SMALL, REFUND) && h'.links == map[]
  {
    hide NewChannel, Allowed;
  }

  lemma {:induction false} FreshFolds(c: Hosted.Channel, counter: nat)
    requires Fresh(c, counter)
    ensures Fold(c.data.lcss, c.data.uncommitted) == Ok(c.data.lcss) && LocalOf(c.data.uncommitted) == []
  {
  }

  /** The queue of a fresh channel after one HTLC of amount zero. */
  lemma {:induction false} OneFolds(c: Hosted.Channel, counter: nat, htlc: Htlc)
    requires Fresh(c, counter) && htlc.amount == 0
    ensures var q := c.data.uncommitted + [Local(Add(htlc))];
      && Fold(c.data.lcss, q) == Ok(c.data.lcss.(outgoing := [htlc], localUpdates := counter + 1))
      && LocalOf(q) == [Add(htlc)] && RemoteOf(q) == [] && q == [Local(Add(htlc))]
  {
    Pushed(c.data.lcss, [], Local(Add(htlc)));
    PushedLocal(c.data.lcss, [], Add(htlc));
    assert Fold(c.data.lcss, []) == Ok(c.data.lcss);
    assert c.data.uncommitted + [Local(Add(htlc))] == [] + [Local(Add(htlc))] == [Local(Add(htlc))];
    assert LocalOf([]) + [Add(htlc)] == [Add(htlc)];
    assert c.data.lcss.outgoing + [htlc] == [htlc];
  }

  /** The host after one more accepted offer of amount zero. */
  predicate OfferedTo(h: Host, h': Host, w: World, peer: Key, id: U64, hash: Bytes32, sent: bool) {
    && Plain(h, peer) && Plain(h', peer)
    && var d, d' := h.channels[peer].data, h'.channels[peer].data;
    && d' == d.(uncommitted := d.uncommitted + [Local(Add(HtlcOf(w, peer, id, hash)))],
                localErrors := if sent then d.localErrors else d.localErrors + [DeliveryFailed])
  }

  lemma {:induction false} OffersFirst(h: Host, w: World, peer: Key, counter: nat, n: U64, hash: Bytes32, sent: bool) returns (h': Host)
    requires Plain(h, peer) && Fresh(h.channels[peer], counter) && counter + 1 < 0x1_0000_0000
    ensures h' == OnOffer(h, w, peer, Coming(w, peer, n, hash), Surroundings(sent)).host
    ensures OfferedTo(h, h', w, peer, counter + 1, hash, sent)
    ensures var at := (w.scidOf(peer), counter + 1 as U64);
      h'.links == if at in h.links then h.links else h.links[at := LinkFor(Coming(w, peer, n, hash), at, hash, 0, |h.offers|, peer)]
  {
    hide OnOffer, OnHostAdd, Judge, Fold, LocalOf;
    FreshFolds(h.channels[peer], counter);
    ComingIsAccepted(h, w, peer, n, hash, counter, 0);
    OfferStores(h, w, peer, n, hash, sent, counter + 1);
    AddIsStored(h.channels[peer], KeysOf(w, peer), HtlcOf(w, peer, counter + 1, hash), sent);
    h' := OnOffer(h, w, peer, Coming(w, peer, n, hash), Surroundings(sent)).host;
  }

  lemma {:induction false} OffersSecond(h0: Host, h: Host, w: World, peer: Key, a: Bytes32, n: U64, hash: Bytes32) returns (h': Host)
    requires OfferedTo(h0, h, w, peer, 1, a, true) && Fresh(h0.channels[peer], 0)
    ensures h' == OnOffer(h, w, peer, Coming(w, peer, n, hash), Surroundings(false)).host
    ensures OfferedTo(h, h', w, peer, 2, hash, false)
    ensures var at := (w.scidOf(peer), 2);
      h'.links == if at in h.links then h.links else h.links[at := LinkFor(Coming(w, peer, n, hash), at, hash, 0, |h.offers|, peer)]
  {
    hide OnOffer, OnHostAdd, Judge, Fold, LocalOf;
    OneFolds(h0.channels[peer], 0, HtlcOf(w, peer, 1, a));
    ComingIsAccepted(h, w, peer, n, hash, 0, 1);
    OfferStores(h, w, peer, n, hash, false, 2);
    AddIsStored(h.channels[peer], KeysOf(w, peer), HtlcOf(w, peer, 2, hash), false);
    h' := OnOffer(h, w, peer, Coming(w, peer, n, hash), Surroundings(false)).host;
  }

  /** Two HTLCs are offered, and the second cannot be delivered. */
  lemma {:induction false} HostOffersTwo(h: Host, w: World, peer: Key, a: Bytes32, b: Bytes32) returns (h': Host)
    requires Plain(h, peer) && Fresh(h.channels[peer], 0) && h.links == map[]
    ensures var h1 := OnOffer(h, w, peer, Coming(w, peer, 0, a), Surroundings(true)).host;
      h' == OnOffer(h1, w, peer, Coming(w, peer, 1, b), Surroundings(false)).host
    ensures Plain(h', peer) && Stale(h', w, peer, b)
    ensures var c := h'.channels[peer];
      && DeriveStatus(c.data) == Errored && Idle(c.data.lcss) && RoutingFor(c.data, SMALL) == RoutingOf(SMALL)
      && c.data.lcss.localUpdates == 0
  {
    hide OnOffer, Fresh;
    var h1 := OffersFirst(h, w, peer, 0, 0, a, true);
    h' := OffersSecond(h, h1, w, peer, a, 1, b);
    StaysIdle(h.channels[peer], h'.channels[peer], 0);
  }

  /** A link that was made for the second HTLC of the channel and waits for `hash`; and no link serves an id above four. */
  predicate Stale(h: Host, w: World, peer: Key, hash: Bytes32) {
    var at := (w.scidOf(peer), 2);
    && at in h.links && h.links[at].paymentHash == hash && h.links[at].target == Some(peer)
    && h.links[at].incoming.0 == w.scidOf(peer) + 1 && h.links[at].upstreamExpiry == Some(1000)
    && (forall at' :: at' in h.links ==> h.links[at'].incoming.1 < 5)
  }

  /** A run that ends with a channel about to give id 2 again while the link made for it still waits. */
  lemma {:induction false} KeyIsTaken(h0: Host, w: World, peer: Key, a: Bytes32, b: Bytes32)
    returns (trace: seq<Host>, es: seq<HostEvent>)
    requires Starts(h0) && h0.height == 0 && h0.policy == SMALL && h0.reachable == {}
    ensures IsHostRun(trace, es, w) && |trace| == |es| + 1
    ensures var h := trace[|es|];
      Plain(h, peer) && Fresh(h.channels[peer], 1) && NextHtlcId(h.channels[peer].data) == 2 && Stale(h, w, peer, b)
  {
    hide OnStateUpdate, OnProposeOverride, React, Allowed, Fresh, Idle, DeriveStatus, RoutingFor, OnStateMessage, OnOffer, IsHostRun;
    trace, es := HostOpens(h0, w, peer);
    var h1 := trace[|es|];
    var o1, o2, k := Coming(w, peer, 0, a), Coming(w, peer, 1, b), KeysOf(w, peer);
    var h3 := HostOffersTwo(h1, w, peer, a, b);
    var h2 := OnOffer(h1, w, peer, o1, Surroundings(true)).host;
    var agreed := OverridesWith(h3.channels[peer], k);
    var h4 := Put(h3, peer, OnProposeOverride(h3.channels[peer], k, None, 0).channel);
    var none := Add(AnyHtlc());
    HostSteps(h1, w, peer, agreed, o1, true, none);
    HostSteps(h2, w, peer, agreed, o2, false, none);
    HostSteps(h3, w, peer, agreed, o2, false, none);
    HostSteps(h4, w, peer, agreed, o2, false, none);
    MessageStores(h4, w, peer, agreed);
    trace := HostExtended(trace, es, w, Offered(peer, o1, Surroundings(true)));
    es := es + [Offered(peer, o1, Surroundings(true))];
    trace := HostExtended(trace, es, w, Offered(peer, o2, Surroundings(false)));
    es := es + [Offered(peer, o2, Surroundings(false))];
    trace := HostExtended(trace, es, w, Within(peer, ProposeOverride(None, 0)));
    es := es + [Within(peer, ProposeOverride(None, 0))];
    trace := HostExtended(trace, es, w, StateMessage(peer, agreed, Quiet()));
    es := es + [StateMessage(peer, agreed, Quiet())];
    FreshNumber(trace[|es|].channels[peer], 1);
  }

  lemma {:induction false} FreshNumber(c: Hosted.Channel, counter: nat)
    requires Fresh(c, counter)
    ensures NextHtlcId(c.data) == counter + 1
  {
  }

  // ---- A committed HTLC that nothing waits for ---------------------------------------------

  /** Two hosted channels: the one whose next key is taken, and one that just committed an HTLC of its peer. */
  ghost predicate Beside(h: Host, w: World, peer: Key, source: Key, b: Bytes32) {
    && peer != source && w.scidOf(peer) != w.scidOf(source) && h.channels.Keys == {peer, source}
    && Fresh(h.channels[peer], 1) && Stale(h, w, peer, b)
    && h.preimages == map[] && h.height == 0 && h.policy == SMALL && h.reachable == {source}
  }

  /** A forward of nothing, which every guard lets through. */
  function Nothing(w: World, peer: Key, secret: Bytes32): Relay {
    Relay(0, 10, w.scidOf(peer), Zeros(ONION_SIZE), secret)
  }

  function EnvOf(disconnected: bool): Env {
    Surroundings(true).(disconnected := disconnected)
  }

  function Always(disconnected: bool): U64 -> Env {
    _ => EnvOf(disconnected)
  }

  lemma {:induction false} ForwardIsLost(h: Host, w: World, source: Key, peer: Key, b: Bytes32, htlc: Htlc, secret: Bytes32, disconnected: bool)
    requires Beside(h, w, peer, source, b)
    ensures var relay := Nothing(w, peer, secret);
      && HostedForwardIsLost(h, w, source, peer, htlc, relay, EnvOf(disconnected))
      && ToHosted(h, w, source, peer, htlc, relay, EnvOf(disconnected)).result.Ok?
  {
    hide OnOffer, Fold, LocalOf, FailBack;
    var c, relay := h.channels[peer], Nothing(w, peer, secret);
    var o := OfferOf(w, source, peer, htlc, relay);
    if disconnected {
      DisconnectedTargetLoses(h, w, source, peer, htlc, relay, EnvOf(true));
    } else {
      FreshFolds(c, 1);
      assert Hosts(h, w, w.scidOf(source)) by { assert source in h.channels; }
      assert Judge(h, w, peer, o, false) == Accepted;
      OneFolds(c, 1, Stamp(c.data, w.channelIdOf(peer), o.htlc));
      assert AddGoesOut(h, w, peer, o, EnvOf(false));
      TakenKeyLoses(h, w, source, peer, htlc, relay, EnvOf(false));
    }
  }

  /** The dispatch of the HTLC reports success and leaves neither a resolution nor a link. */
  lemma {:induction false} DispatchLoses(h: Host, w: World, source: Key, peer: Key, b: Bytes32, c0: Hosted.Channel, x: Htlc, secret: Bytes32,
                                         disconnected: bool)
    requires Beside(h, w, peer, source, b) && Received(c0, h.channels[source], [x]) && x.id == 5 && x.cltvExpiry == 10
    requires w.peel(x.onion, x.paymentHash) == Some(Nothing(w, peer, secret))
    ensures var out := DispatchIncoming(h, w, source, h.channels[source].data, x, EnvOf(disconnected));
      out.result.Ok? && !AccountedFor(out.host, w, source, 5)
  {
    hide ToHosted, FailBack, ToNormal, HostedForwardIsLost, Fresh;
    var d, relay := h.channels[source].data, Nothing(w, peer, secret);
    ForwardIsLost(h, w, source, peer, b, x, secret, disconnected);
    BehindPeer(h, w, source, peer, b);
    assert d.lcss.incoming[0].id == 5;
    assert Sum([x]) == x.amount + Sum([]) by { assert [x][1..] == []; }
    assert WithinLimits(d, x);
    assert !Linked(h, (w.scidOf(source), 5));
    assert !AccountedFor(h, w, source, 5);
    DispatchedUnlessLost(h, w, source, d, x, EnvOf(disconnected));
  }

  lemma {:induction false} BehindPeer(h: Host, w: World, source: Key, peer: Key, b: Bytes32)
    requires Beside(h, w, peer, source, b)
    ensures PeerFor(h, w, w.scidOf(peer)) == Some(peer) && RoutingFor(h.channels[peer].data, h.policy) == RoutingOf(SMALL)
  {
    assert peer in h.channels;
    assert Hosts(h, w, w.scidOf(peer));
  }

  lemma {:induction false} DispatchKeepsSource(h: Host, w: World, source: Key, peer: Key, b: Bytes32, c0: Hosted.Channel, x: Htlc, secret: Bytes32,
                                               disconnected: bool)
    requires Beside(h, w, peer, source, b) && Received(c0, h.channels[source], [x]) && x.cltvExpiry == 10
    requires w.peel(x.onion, x.paymentHash) == Some(Nothing(w, peer, secret))
    ensures var out := DispatchIncoming(h, w, source, h.channels[source].data, x, EnvOf(disconnected)).host;
      source in out.channels && out.channels[source] == h.channels[source]
  {
    hide OnOffer, FailBack, ToNormal, HostedForwardIsLost, Fresh;
    ForwardIsLost(h, w, source, peer, b, x, secret, disconnected);
    BehindPeer(h, w, source, peer, b);
    assert Sum([x]) == x.amount + Sum([]) by { assert [x][1..] == []; }
    OfferShape(h, w, peer, OfferOf(w, source, peer, x, Nothing(w, peer, secret)), EnvOf(disconnected), source);
    LostIsAccepted(h, w, source, peer, x, Nothing(w, peer, secret), EnvOf(disconnected));
  }

  /** A lost forward was not refused, so nothing was failed back. */
  lemma {:induction false} LostIsAccepted(h: Host, w: World, source: Key, peer: Key, x: Htlc, relay: Relay, env: Env)
    requires source in h.channels && peer in h.channels && peer != source && HostedForwardIsLost(h, w, source, peer, x, relay, env)
    ensures OnOffer(h, w, peer, OfferOf(w, source, peer, x, relay), env).result.Ok?
  {
    hide OnOffer, AddGoesOut, Judge;
    OfferShape(h, w, peer, OfferOf(w, source, peer, x, relay), env, source);
  }

  /** The state update with which the peer commits its HTLC. */
  lemma {:induction false} MessageDispatches(h: Host, w: World, source: Key, peer: Key, b: Bytes32, c0: Hosted.Channel, x: Htlc,
                                             msg: StateUpdate, secret: Bytes32, disconnected: bool)
    requires source in h.channels && Receiving(c0, h.channels[source], [x]) && h.height == 0 && source in h.reachable
    requires var reply := OnStateUpdate(h.channels[source], KeysOf(w, source), msg, 0);
      && Received(c0, reply.channel, [x]) && reply.result == Ok(()) && CommitsQueue(h.channels[source], reply.channel)
      && Beside(Put(h, source, reply.channel), w, peer, source, b)
    requires x.id == 5 && x.cltvExpiry == 10 && w.peel(x.onion, x.paymentHash) == Some(Nothing(w, peer, secret))
    ensures var h' := Put(h, source, OnStateUpdate(h.channels[source], KeysOf(w, source), msg, 0).channel);
      OnStateMessage(h, w, source, msg, Always(disconnected)) ==
      DispatchIncoming(h', w, source, h'.channels[source].data, x, EnvOf(disconnected))
  {
    hide OnStateUpdate, DispatchIncoming, Beside, Fresh;
    var c := h.channels[source];
    var h' := Put(h, source, OnStateUpdate(c, KeysOf(w, source), msg, 0).channel);
    var d, env := h'.channels[source].data, Always(disconnected);
    DispatchLoses(h', w, source, peer, b, c0, x, secret, disconnected);
    assert [x][..0] == [] && c.data.lcss.incoming == [] by { NothingCommitted(c0, c, [x]); }
    assert DispatchAll(h', w, source, c.data, d, [], env) == Outcome(h', Ok(()));
    assert DispatchAll(h', w, source, c.data, d, [x], env) == DispatchIncoming(h', w, source, d, x, EnvOf(disconnected));
    assert Deduplicate(c.data.uncommitted) == [Remote(Add(x))] by { OneReceived(c0, c, x); }
    OnlyAnAdd(DispatchIncoming(h', w, source, d, x, EnvOf(disconnected)).host, w, w.scidOf(source), x, SideOf(h', source));
    OneSuccess(DispatchIncoming(h', w, source, d, x, EnvOf(disconnected)).result);
  }

  lemma {:induction false} NothingCommitted(c0: Hosted.Channel, c: Hosted.Channel, hs: seq<Htlc>)
    requires Receiving(c0, c, hs)
    ensures c.data.lcss.incoming == []
  {
  }

  lemma {:induction false} OneReceived(c0: Hosted.Channel, c: Hosted.Channel, x: Htlc)
    requires Receiving(c0, c, [x])
    ensures Deduplicate(c.data.uncommitted) == [Remote(Add(x))]
  {
    RemoteAddsFold(c0.data.lcss, [x]);
    assert [x][..0] == [];
    assert RemoteAdds([x]) == [] + [Remote(Add(x))];
  }

  lemma {:induction false} OnlyAnAdd(h: Host, w: World, scid: nat, x: Htlc, side: Side)
    ensures RelayFailures(h, w, scid, [Remote(Add(x))], side) == Outcome(h, Ok(()))
  {
    var us := [Remote(Add(x))];
    assert us[..0] == [];
  }

  /** A state update for a channel that is not active dispatches nothing. */
  lemma {:induction false} IdleMessageStores(h: Host, w: World, p: Key, msg: StateUpdate)
    requires p in h.channels && h.height == 0 && DeriveStatus(h.channels[p].data) != Active
    ensures OnStateMessage(h, w, p, msg, Quiet()).host == Put(h, p, OnStateUpdate(h.channels[p], KeysOf(w, p), msg, 0).channel)
  {
    hide OnStateUpdate, DispatchAll, RelayFailures, DeriveStatus;
  }

  lemma {:induction false} SourceSteps(h: Host, w: World, source: Key, msg: StateUpdate, x: Htlc, env: U64 -> Env)
    ensures Allowed(h, w, NewConnections({source})) && React(h, w, NewConnections({source})).host == h.(reachable := {source})
    ensures Allowed(h, w, Invoke(source, Some(SMALL), REFUND, Quiet()))
    ensures source !in h.channels ==>
      React(h, w, Invoke(source, Some(SMALL), REFUND, Quiet())).host == Put(h, source, NewChannel(SMALL, REFUND))
    ensures Allowed(h, w, StateMessage(source, msg, env)) && React(h, w, StateMessage(source, msg, env)) == OnStateMessage(h, w, source, msg, env)
    ensures source in h.channels && h.channels[source].data.lcss.incoming == [] && h.channels[source].data.uncommitted == [] ==>
      && Allowed(h, w, Within(source, PeerAdd(x)))
      && React(h, w, Within(source, PeerAdd(x))).host == Put(h, source, OnUpdateAdd(h.channels[source], x).channel)
  {
    hide OnStateMessage, OnUpdateAdd, NewChannel;
  }

  lemma {:induction false} NewIsOpening()
    ensures DeriveStatus(NewChannel(SMALL, REFUND).data) == Opening
  {
  }

  lemma {:induction false} FreshIsEmpty(c: Hosted.Channel)
    requires Fresh(c, 0)
    ensures c.data.lcss.incoming == [] && c.data.uncommitted == [] && Receiving(c, c, [])
  {
  }

  /**
   * A run of the host that ends with a committed HTLC of a peer that nothing waits for: the first part
   * leaves the key of the target's next link taken; then a second channel opens, its peer adds an HTLC
   * whose onion asks for a forward to the target, and commits it. The state update is answered as
   * successful, and the HTLC is left with neither a resolution nor a link, be the target connected
   * (the key is taken) or not (the offer is answered to the node).
   */
  lemma {:induction false} CommittedHtlcIsLost(h0: Host, w: World, peer: Key, source: Key, a: Bytes32, b: Bytes32, hash: Bytes32,
                                               secret: Bytes32, disconnected: bool)
    returns (trace: seq<Host>, es: seq<HostEvent>, last: HostEvent)
    requires Starts(h0) && h0.height == 0 && h0.policy == SMALL && h0.reachable == {}
    requires peer != source && w.scidOf(peer) != w.scidOf(source)
    requires w.peel(Zeros(ONION_SIZE), hash) == Some(Nothing(w, peer, secret))
    ensures IsHostRun(trace, es + [last], w) && |trace| == |es| + 2 && Allowed(trace[|es|], w, last)
    ensures last.StateMessage? && last.peer == source && React(trace[|es|], w, last).result == Ok(())
    ensures var h := trace[|es| + 1];
      && source in h.channels && h.channels[source].data.lcss.incoming == [PeerHtlc(KeysOf(w, source), hash)]
      && !AccountedFor(h, w, source, 5)
  {
    hide OnStateUpdate, OnStateMessage, DispatchIncoming, React, Allowed, IsHostRun, Fresh, Receiving, AccountedFor, CommitsQueue;
    var c0, msg;
    trace, es, c0, msg := SourceIsReady(h0, w, peer, source, a, b, hash);
    var h4, k, x := trace[|es|], KeysOf(w, source), PeerHtlc(KeysOf(w, source), hash);
    var h5 := Put(h4, source, OnStateUpdate(h4.channels[source], k, msg, 0).channel);
    MessageDispatches(h4, w, source, peer, b, c0, x, msg, secret, disconnected);
    DispatchLoses(h5, w, source, peer, b, c0, x, secret, disconnected);
    DispatchKeepsSource(h5, w, source, peer, b, c0, x, secret, disconnected);
    OneSuccess(DispatchIncoming(h5, w, source, h5.channels[source].data, x, EnvOf(disconnected)).result);
    SourceSteps(h4, w, source, msg, x, Always(disconnected));
    last := StateMessage(source, msg, Always(disconnected));
    trace := HostExtended(trace, es, w, last);
  }

  /** The run up to the state update: the second channel opened and its peer added the HTLC. */
  lemma {:induction false} SourceIsReady(h0: Host, w: World, peer: Key, source: Key, a: Bytes32, b: Bytes32, hash: Bytes32)
    returns (trace: seq<Host>, es: seq<HostEvent>, c0: Hosted.Channel, msg: StateUpdate)
    requires Starts(h0) && h0.height == 0 && h0.policy == SMALL && h0.reachable == {}
    requires peer != source && w.scidOf(peer) != w.scidOf(source)
    ensures IsHostRun(trace, es, w) && |trace| == |es| + 1
    ensures var h, x := trace[|es|], PeerHtlc(KeysOf(w, source), hash);
      && source in h.channels && Receiving(c0, h.channels[source], [x]) && h.height == 0 && source in h.reachable
      && var reply := OnStateUpdate(h.channels[source], KeysOf(w, source), msg, 0);
      && Received(c0, reply.channel, [x]) && reply.result == Ok(()) && CommitsQueue(h.channels[source], reply.channel)
      && Beside(Put(h, source, reply.channel), w, peer, source, b)
  {
    hide OnStateUpdate, OnUpdateAdd, OnStateMessage, React, Allowed, IsHostRun, Fresh, NewChannel, Starts, Receiving, Received, CommitsQueue, Stale;
    var k, x := KeysOf(w, source), PeerHtlc(KeysOf(w, source), hash);
    trace, es := KeyIsTaken(h0, w, peer, a, b);
    var h := trace[|es|];
    var opening := OpensWith(k);
    var h1 := h.(reachable := {source});
    var h2 := Put(h1, source, NewChannel(SMALL, REFUND));
    c0 := OnStateUpdate(NewChannel(SMALL, REFUND), k, opening, 0).channel;
    var h3 := Put(h2, source, c0);
    var h4 := Put(h3, source, OnUpdateAdd(c0, x).channel);
    FreshIsEmpty(c0);
    PeerAdds(c0, c0, [], x);
    assert [] + [x] == [x];
    msg := PeerCommits(c0, h4.channels[source], k, [x]);
    NewIsOpening();
    IdleMessageStores(h2, w, source, opening);
    SourceSteps(h, w, source, opening, x, Quiet());
    SourceSteps(h1, w, source, opening, x, Quiet());
    SourceSteps(h2, w, source, opening, x, Quiet());
    SourceSteps(h3, w, source, opening, x, Quiet());
    trace := HostExtended(trace, es, w, NewConnections({source}));
    es := es + [NewConnections({source})];
    trace := HostExtended(trace, es, w, Invoke(source, Some(SMALL), REFUND, Quiet()));
    es := es + [Invoke(source, Some(SMALL), REFUND, Quiet())];
    trace := HostExtended(trace, es, w, StateMessage(source, opening, Quiet()));
    es := es + [StateMessage(source, opening, Quiet())];
    trace := HostExtended(trace, es, w, Within(source, PeerAdd(x)));
    es := es + [Within(source, PeerAdd(x))];
    assert Stale(Put(h4, source, OnStateUpdate(h4.channels[source], k, msg, 0).channel), w, peer, b) by { StaleLinks(h, h4, w, peer, b); }
  }

  lemma {:induction false} StaleLinks(h: Host, h': Host, w: World, peer: Key, b: Bytes32)
    requires Stale(h, w, peer, b) && h'.links == h.links
    ensures forall h'': Host :: h''.links == h.links ==> Stale(h'', w, peer, b)
  {
  }

  /** A channel whose only pending update is an HTLC of amount zero commits it. */
  lemma {:induction false} CommitsWith(c0: Hosted.Channel, c: Hosted.Channel, k: Keys, htlc: Htlc) returns (msg: StateUpdate)
    requires Fresh(c0, 1) && htlc.amount == 0 && HtlcEncodes(htlc)
    requires c.data == c0.data.(uncommitted := c0.data.uncommitted + [Local(Add(htlc))])
    ensures var d := OnStateUpdate(c, k, msg, 0).channel.data;
      && DeriveStatus(d) == Active && d.localErrors == [] && d.uncommitted == [] && d.lcss.outgoing == [htlc]
      && RoutingFor(d, SMALL) == RoutingOf(SMALL)
  {
    hide CoveredOf, Fold, LocalOf, RemoteOf;
    OneFolds(c0, 1, htlc);
    assert Deduplicate([Local(Add(htlc))]) == [Local(Add(htlc))] by { assert KeysDistinct([Local(Add(htlc))]); DeduplicateKeeps([Local(Add(htlc))]); }
    var next := c0.data.lcss.(outgoing := [htlc], localUpdates := 2, blockDay := 0);
    msg := Agreement(next, k.peer);
    SigIsNotCovered(next, msg.sig);
    var l := next.(remoteSigOfLocal := msg.sig);
    assert HtlcsEncode(l.outgoing) && HtlcsEncode(l.incoming);
    assert VerifyRemoteSig(l, k.peer);
    assert SignWith(l, k.host).Some?;
  }

  /** The peer fulfills that HTLC, and the link that waits for another hash gets the preimage. */
  lemma {:induction false} WrongLinkAnswers(h: Host, w: World, peer: Key, b: Bytes32, preimage: Bytes32, htlc: Htlc)
    requires Plain(h, peer) && Stale(h, w, peer, b)
    requires htlc.id == 2 && htlc.paymentHash == SHA256(preimage) && htlc.cltvExpiry == 10
    requires var d := h.channels[peer].data;
      && DeriveStatus(d) == Active && d.localErrors == [] && d.uncommitted == [] && d.lcss.outgoing == [htlc]
      && RoutingFor(d, SMALL) == RoutingOf(SMALL)
    ensures var calls := OnFulfill(h, w, peer, Fulfill(w.channelIdOf(peer), 2, preimage)).host.calls;
      && |calls| == 1 && calls[0].answer == Settle(preimage) && calls[0].via.Some?
      && calls[0].via.value.link.paymentHash == b && calls[0].via.value.link.target == Some(calls[0].via.value.side.peer)
  {
    hide OnFulfill;
    var r, d := Fulfill(w.channelIdOf(peer), 2, preimage), h.channels[peer].data;
    assert d.lcss.outgoing[0].id == 2 && Position(d.lcss.outgoing, 2) == 0;
    assert Accepts(d, r);
    var scid := w.scidOf(peer) + 1;
    assert !Hosts(h, w, scid);
    assert PeerFor(h, w, scid).None?;
    assert SettlementIsSafe(h, w, peer, htlc) == Ok(true);
    SettlementFitsIff(h, w, peer, r);
  }

  /**
   * A run that ends with a preimage passed upstream through a link that waits for another hash: two
   * HTLCs are offered, the second is never delivered, the peer accepts an override, a third HTLC gets
   * the id of the second, and the peer commits and fulfills it.
   */
  lemma {:induction false} WrongPreimagePassedOn(h0: Host, w: World, peer: Key, a: Bytes32, b: Bytes32, preimage: Bytes32)
    returns (trace: seq<Host>, es: seq<HostEvent>)
    requires Starts(h0) && h0.height == 0 && h0.policy == SMALL && h0.reachable == {}
    requires SHA256(preimage) != b
    ensures IsHostRun(trace, es, w) && |trace| == |es| + 1
    ensures var calls := trace[|es|].calls;
      && |calls| == 1 && calls[0].answer == Settle(preimage) && calls[0].via.Some?
      && calls[0].via.value.link.target == Some(calls[0].via.value.side.peer)
      && calls[0].via.value.link.paymentHash != SHA256(preimage)
  {
    hide OnStateUpdate, React, Allowed, Fresh, Idle, DeriveStatus, RoutingFor, OnStateMessage, OnOffer, OnFulfill, IsHostRun, HtlcEncodes, Starts;
    trace, es := KeyIsTaken(h0, w, peer, a, b);
    var h, hash, k := trace[|es|], SHA256(preimage), KeysOf(w, peer);
    var h' := OffersFirst(h, w, peer, 1, 2, hash, true);
    var htlc := HtlcOf(w, peer, 2, hash);
    assert HtlcEncodes(htlc) by { SmallEncodes(w, peer, hash); }
    var msg := CommitsWith(h.channels[peer], h'.channels[peer], k, htlc);
    var h'' := Put(h', peer, OnStateUpdate(h'.channels[peer], k, msg, 0).channel);
    MessageStores(h', w, peer, msg);
    WrongLinkAnswers(h'', w, peer, b, preimage, htlc);
    var r := Fulfill(w.channelIdOf(peer), 2, preimage);
    HostSteps(h, w, peer, msg, Coming(w, peer, 2, hash), true, r);
    HostSteps(h', w, peer, msg, Coming(w, peer, 2, hash), true, r);
    HostSteps(h'', w, peer, msg, Coming(w, peer, 2, hash), true, r);
    trace := HostExtended(trace, es, w, Offered(peer, Coming(w, peer, 2, hash), Surroundings(true)));
    es := es + [Offered(peer, Coming(w, peer, 2, hash), Surroundings(true))];
    trace := HostExtended(trace, es, w, StateMessage(peer, msg, Quiet()));
    es := es + [StateMessage(peer, msg, Quiet())];
    trace := HostExtended(trace, es, w, FulfillMessage(peer, r));
    es := es + [FulfillMessage(peer, r)];
  }

  lemma {:induction false} SmallEncodes(w: World, peer: Key, hash: Bytes32)
    ensures HtlcEncodes(HtlcOf(w, peer, 2, hash))
  {
  }
}

/**
 * Links and the HTLCs they meet, over every run of the host: a link disagrees with an HTLC under its key
 * exactly if the key was taken when that HTLC came.
 */
module LinkRuns {
  import opened Base
  import opened State
  import opened StateLaws
  import opened HtlcIds
  import opened Channel
  import opened ChannelLaws
  import opened ChannelRuns
  import opened ChannelIds
  import opened ChannelTheorems
  import opened Forwarding
  import opened ForwardingLaws
  import opened HostRuns
  import opened HostSteps
  import opened DispatchLaws

  // ---- One offer ---------------------------------------------------------------------------

  /**
   * The source ignores that the key of a new link may be taken. After an accepted offer the link under
   * the key has the payment hash of the new HTLC if and only if there was no link, or one for that hash.
   */
  lemma {:induction false} OfferFitsLinkIff(h: Host, w: World, target: Key, o: Offer, env: Env)
    requires target in h.channels && Judge(h, w, target, o, env.disconnected) == Accepted
    ensures var h', key := OnOffer(h, w, target, o, env).host, LinkKey(h, w, target);
      && key in h'.links
      && (h'.links[key].paymentHash == o.htlc.paymentHash <==>
            (key in h.links ==> h.links[key].paymentHash == o.htlc.paymentHash))
  {
    hide Judge, OnHostAdd, LocalOf;
    AcceptedFits(h, w, target, o, env.disconnected);
  }

  // ---- One event ---------------------------------------------------------------------------

  ghost predicate HostGrows(w: World, h: Host, h': Host) {
    && h.channels.Keys <= h'.channels.Keys && NewLinksServed(w, h, h')
    && forall p :: p in h'.channels && p !in h.channels ==> Pool(h'.channels[p].data) == []
  }

  predicate Adopting(e: HostEvent, p: Key) {
    e.Within? && e.peer == p && e.e.PeerLcss?
  }

  ghost predicate PoolsFrom(h: Host, h': Host, e: HostEvent) {
    forall p :: p in h.channels && p in h'.channels && !Adopting(e, p) ==> PoolFrom(h.channels[p], h'.channels[p])
  }

  lemma {:induction false} SamePool(c: Channel)
    ensures PoolFrom(c, c)
  {
  }

  /** What continues is an event of its own. */
  lemma {:induction false} ContinuedGrows(w: World, h: Host, h': Host, e: HostEvent)
    requires Continues(w, h, h')
    ensures HostGrows(w, h, h') && PoolsFrom(h, h', e)
  {
    hide Pool, PoolFrom, Serves;
    forall p | p in h.channels
      ensures PoolFrom(h.channels[p], h'.channels[p])
    {
      assert Extends(h.channels[p], h'.channels[p]);
    }
  }

  /** One channel is stored, and the handler continues from there. */
  lemma {:induction false} StoredGrows(w: World, h: Host, peer: Key, c: Channel, h': Host, e: HostEvent)
    requires peer in h.channels ==> PoolFrom(h.channels[peer], c) || Adopting(e, peer)
    requires peer !in h.channels ==> Pool(c.data) == [] && c.given == []
    requires Continues(w, Put(h, peer, c), h')
    requires peer !in h.channels ==> h' == Put(h, peer, c)
    ensures HostGrows(w, h, h') && PoolsFrom(h, h', e)
  {
    hide Pool, PoolFrom, Serves;
    var h1 := Put(h, peer, c);
    forall p | p in h.channels && !Adopting(e, p)
      ensures PoolFrom(h.channels[p], h'.channels[p])
    {
      SamePool(h.channels[p]);
      assert Extends(h1.channels[p], h'.channels[p]);
      PoolFromTwice(h.channels[p], h1.channels[p], h'.channels[p]);
    }
    assert NewLinksServed(w, h, h');
  }

  lemma {:induction false} StateUpdatePool(c: Channel, k: Keys, msg: StateUpdate, day: U32)
    requires Invariant(c)
    ensures PoolFrom(c, OnStateUpdate(c, k, msg, day).channel)
  {
    hide OnStateUpdate, Fold, Invariant;
    var c' := OnStateUpdate(c, k, msg, day).channel;
    StateUpdateShape(c, k, msg, day);
    if c'.data.uncommitted == [] && c'.data.lcss.outgoing != [] && c'.data.lcss.outgoing != c.data.lcss.outgoing {
      forall g | g in c'.data.lcss.outgoing
        ensures g in Pool(c.data)
      {
        Origin(c.data.lcss, c.data.uncommitted, g);
      }
    }
  }

  /** A state update stores what the queue leads to, a state without HTLCs of the host, or what was there. */
  lemma {:induction false} StateUpdateShape(c: Channel, k: Keys, msg: StateUpdate, day: U32)
    requires Invariant(c)
    ensures var c' := OnStateUpdate(c, k, msg, day).channel;
      && c'.given == c.given
      && (|| (c'.data.uncommitted == c.data.uncommitted && c'.data.lcss.outgoing == c.data.lcss.outgoing)
          || (c'.data.uncommitted == [] && c'.data.lcss.outgoing == [])
          || (c'.data.uncommitted == [] && Fold(c.data.lcss, c.data.uncommitted).Ok?
              && c'.data.lcss.outgoing == Fold(c.data.lcss, c.data.uncommitted).value.outgoing))
  {
    hide SoundState, QueueSound, Fold, Encodes, Deduplicate, LocalOf, RemoteOf, DroppedIds, UncountedIds, HtlcsEncode;
    RepairedIsSame(c);
  }

  /** Events within a channel bring no HTLC of the host without a grant, unless they adopt a state. */
  lemma {:induction false} WithinPool(c: Channel, k: Keys, fallback: Policy, e: Event)
    requires Invariant(c) && Possible(c, k, e) && StaysWithin(e) && !e.PeerLcss?
    ensures PoolFrom(c, Respond(c, k, fallback, e).channel)
  {
    hide Invariant, Respond, Possible, LocalOf, AddsOf, Withdraw, Unopened;
    var c' := Respond(c, k, fallback, e).channel;
    EventMoves(c, k, fallback, e);
    OutgoingStays(c, k, fallback, e);
    if Grows(c, c') || Adds(c, c', k.channelId) {
      var u := c'.data.uncommitted[|c.data.uncommitted|];
      PoolPush(c.data, u);
      if Adds(c, c', k.channelId) {
        assert c'.given[|c.given|] == Grant(u.u.htlc.id, u.u.htlc.paymentHash);
      }
    } else if c'.data.uncommitted == [] {
      NoAdds();
    }
  }

  lemma {:induction false} NoAdds()
    ensures AddsOf(LocalOf([])) == []
  {
  }

  lemma {:induction false} OutgoingStays(c: Channel, k: Keys, fallback: Policy, e: Event)
    requires Possible(c, k, e) && StaysWithin(e) && !e.PeerLcss?
    ensures Respond(c, k, fallback, e).channel.data.lcss.outgoing == c.data.lcss.outgoing
  {
    hide OnResize, Possible;
    if e.PeerResize? {
      ResizeKeepsHtlcs(c, k, e.newCapacitySat, e.clientSigned, fallback);
    } else {
      OtherEventsKeepState(c, k, fallback, e);
    }
  }

  lemma {:induction false} ResizeKeepsHtlcs(c: Channel, k: Keys, sat: U64, clientSigned: bool, fallback: Policy)
    ensures OnResize(c, k, sat, clientSigned, fallback).channel.data.lcss.outgoing == c.data.lcss.outgoing
  {
    hide Encodes, DeriveStatus, RoutingFor;
  }

  lemma {:induction false} AdoptionKeepsGrants(c: Channel, k: Keys, msg: Cross)
    ensures OnLcss(c, k, msg).channel.given == c.given
  {
    hide VerifyRemoteSig, Reverse, DroppedIds, UncountedIds;
  }

  lemma {:induction false} StateMessageGrows(w: World, h: Host, e: HostEvent)
    requires HostInvariant(w, h) && e.StateMessage?
    ensures var h' := OnStateMessage(h, w, e.peer, e.msg, e.env).host; HostGrows(w, h, h') && PoolsFrom(h, h', e)
  {
    hide HostInvariant, Invariant, OnStateUpdate, CommitsQueue, DispatchAll, RelayFailures, Deduplicate, Continues, PoolFrom, Pool, HostGrows, PoolsFrom;
    var peer := e.peer;
    ApartContinues(w, h, h);
    ContinuedGrows(w, h, h, e);
    if peer in h.channels {
      var c := h.channels[peer];
      var reply := OnStateUpdate(c, KeysOf(w, peer), e.msg, BlockDay(h));
      ChannelIsKept(w, h, peer);
      StateUpdatePool(c, KeysOf(w, peer), e.msg, BlockDay(h));
      var h1, d := Put(h, peer, reply.channel), reply.channel.data;
      ApartContinues(w, h1, h1);
      StoredGrows(w, h, peer, reply.channel, h1, e);
      DispatchAllContinues(w, h1, peer, c.data, d, d.lcss.incoming, e.env);
      var h2 := DispatchAll(h1, w, peer, c.data, d, d.lcss.incoming, e.env).host;
      StoredGrows(w, h, peer, reply.channel, h2, e);
      RelayContinues(w, h2, w.scidOf(peer), Deduplicate(c.data.uncommitted), SideOf(h1, peer));
      var h3 := RelayFailures(h2, w, w.scidOf(peer), Deduplicate(c.data.uncommitted), SideOf(h1, peer)).host;
      ContinuesTwice(w, h1, h2, h3);
      StoredGrows(w, h, peer, reply.channel, h3, e);
    }
  }

  lemma {:induction false} WithinGrows(w: World, h: Host, e: HostEvent)
    requires HostInvariant(w, h) && e.Within? && Allowed(h, w, e)
    ensures var h' := React(h, w, e).host; HostGrows(w, h, h') && PoolsFrom(h, h', e)
  {
    hide HostInvariant, Invariant, Respond, Continues, PoolFrom, Pool, HostGrows, PoolsFrom, Possible, Disciplined;
    var c := h.channels[e.peer];
    var c' := Respond(c, KeysOf(w, e.peer), h.policy, e.e).channel;
    ChannelIsKept(w, h, e.peer);
    if !e.e.PeerLcss? {
      WithinPool(c, KeysOf(w, e.peer), h.policy, e.e);
    }
    ApartContinues(w, Put(h, e.peer, c'), Put(h, e.peer, c'));
    StoredGrows(w, h, e.peer, c', Put(h, e.peer, c'), e);
  }

  // ---- Recovery and opening ----------------------------------------------------------------

  /** Writing loaded data back loses nothing that links were made for: the channel got no HTLC meanwhile. */
  lemma {:induction false} WrittenBackGrows(w: World, h: Host, mid: Host, peer: Key, c: Channel, e: HostEvent)
    requires peer in h.channels && Continues(w, h, mid) && SameGrants(h, mid, peer)
    requires c.data.lcss == h.channels[peer].data.lcss && c.data.uncommitted == h.channels[peer].data.uncommitted
    requires c.given == mid.channels[peer].given
    ensures HostGrows(w, h, Put(mid, peer, c)) && PoolsFrom(h, Put(mid, peer, c), e)
  {
    hide Pool, PoolFrom, Serves;
    var h' := Put(mid, peer, c);
    WrittenBackPool(h.channels[peer], mid.channels[peer], c);
    forall at | at in h'.links
      ensures (at in h.links && h.links[at] == h'.links[at]) || Serves(w, h', at, h'.links[at])
    {
      if Serves(w, mid, at, mid.links[at]) {
        StillServes(w, mid, peer, c, at, mid.links[at]);
      }
    }
    forall p | p in h.channels
      ensures PoolFrom(h.channels[p], h'.channels[p])
    {
      assert Extends(h.channels[p], mid.channels[p]);
    }
  }

  lemma {:induction false} WrittenBackPool(before: Channel, mid: Channel, c: Channel)
    requires Extends(before, mid) && mid.given == before.given && c.given == mid.given
    requires c.data.lcss == before.data.lcss && c.data.uncommitted == before.data.uncommitted
    ensures PoolFrom(before, c)
    ensures forall g :: g in Pool(mid.data) ==> g in Pool(c.data)
  {
    hide LocalOf, AddsOf;
    PoolOfSame(c.data, before.data);
    forall g | g in Pool(mid.data)
      ensures g in Pool(c.data)
    {
      assert !GrantedSince(|before.given|, mid.given, g);
    }
  }

  lemma {:induction false} StillServes(w: World, mid: Host, peer: Key, c: Channel, at: Place, link: ForwardLink)
    requires Serves(w, mid, at, link) && peer in mid.channels
    requires forall g :: g in Pool(mid.channels[peer].data) ==> g in Pool(c.data)
    ensures Serves(w, Put(mid, peer, c), at, link)
  {
    hide Pool;
    assert Hosts(Put(mid, peer, c), w, at.0) == Hosts(mid, w, at.0);
  }

  lemma {:induction false} PoolOfSame(d: ChannelData, d': ChannelData)
    requires d.lcss == d'.lcss && d.uncommitted == d'.uncommitted
    ensures Pool(d) == Pool(d')
  {
  }

  lemma {:induction false} RecoverGrows(w: World, h: Host, peer: Key, queryOutgoing: bool, env: U64 -> Env, e: HostEvent)
    requires HostInvariant(w, h) && Honest(env)
    ensures var h' := RecoverChannel(h, w, peer, queryOutgoing, env).host; HostGrows(w, h, h') && PoolsFrom(h, h', e)
  {
    hide HostInvariant, Continues, HostGrows, PoolsFrom, RecoverIncoming, RecoverOutgoing, DeriveStatus, Honest;
    ApartContinues(w, h, h);
    ContinuedGrows(w, h, h, e);
    if peer in h.channels && DeriveStatus(h.channels[peer].data) == Active {
      var c := h.channels[peer];
      var done := RecoverIncoming(h, w, peer, c.data, c.data.lcss.incoming, env).host;
      RecoverIncomingContinues(w, h, peer, c.data, c.data.lcss.incoming, env);
      RecoverIncomingKeeps(w, h, peer, c.data, c.data.lcss.incoming, env);
      ContinuedGrows(w, h, done, e);
      var mid := RecoverOutgoingContinues(w, done, peer, c.data, c.data.lcss.outgoing);
      ContinuesTwice(w, h, done, mid);
      SameGrantsTwice(h, done, mid, peer);
      ContinuedGrows(w, h, mid, e);
      var written := MarkErrored(mid.channels[peer].(data := c.data), HtlcOutlived);
      WrittenBackGrows(w, h, mid, peer, written, e);
    }
  }

  lemma {:induction false} GrowsTwice(w: World, h: Host, h': Host, h'': Host, e: HostEvent)
    requires HostGrows(w, h, h') && PoolsFrom(h, h', e) && HostGrows(w, h', h'') && PoolsFrom(h', h'', e)
    requires h'.links == h.links && h'.channels.Keys == h.channels.Keys && h''.channels.Keys == h.channels.Keys && !e.Within?
    ensures HostGrows(w, h, h'') && PoolsFrom(h, h'', e)
  {
    hide Pool, PoolFrom, Serves;
    forall p | p in h.channels
      ensures PoolFrom(h.channels[p], h''.channels[p])
    {
      PoolFromTwice(h.channels[p], h'.channels[p], h''.channels[p]);
    }
  }

  lemma {:induction false} InvokeGrows(w: World, h: Host, e: HostEvent)
    requires HostInvariant(w, h) && e.Invoke? && Allowed(h, w, e)
    ensures var h' := React(h, w, e).host; HostGrows(w, h, h') && PoolsFrom(h, h', e)
  {
    hide HostInvariant, Invariant, Tracked, Continues, HostGrows, PoolsFrom, RecoverChannel, OnReconnect, DeriveStatus, Repaired, NewChannel, Honest, Pool, PoolFrom;
    var peer := e.peer;
    ApartContinues(w, h, h);
    ContinuedGrows(w, h, h, e);
    if peer !in h.channels || DeriveStatus(h.channels[peer].data) in {NotOpened, Suspended} {
      if e.granted.Some? {
        var c := NewChannel(e.granted.value, e.refund);
        OpenedGrows(w, h, peer, e.granted.value, e.refund);
        ApartContinues(w, Put(h, peer, c), Put(h, peer, c));
        StoredGrows(w, h, peer, c, Put(h, peer, c), e);
      }
    } else {
      var c := h.channels[peer];
      ChannelIsKept(w, h, peer);
      RepairedIsSame(c);
      PutBack(h, peer);
      var c' := OnReconnect(c, KeysOf(w, peer), BlockDay(h)).channel;
      ReconnectPool(c, KeysOf(w, peer), BlockDay(h));
      var h1 := Put(h, peer, c');
      ApartContinues(w, h1, h1);
      StoredGrows(w, h, peer, c', h1, e);
      ReconnectKeeps(c, KeysOf(w, peer), BlockDay(h));
      ReconnectMoves(c, KeysOf(w, peer), BlockDay(h));
      MovedKeeps(w, h, peer, c');
      RecoverGrows(w, h1, peer, true, e.env, e);
      RecoverKeys(w, h1, peer, true, e.env);
      GrowsTwice(w, h, h1, RecoverChannel(h1, w, peer, true, e.env).host, e);
    }
  }

  lemma {:induction false} ReconnectPool(c: Channel, k: Keys, day: U32)
    requires Invariant(c)
    ensures PoolFrom(c, OnReconnect(c, k, day).channel)
  {
    hide Invariant, SignedNext, Deduplicate;
    RepairedIsSame(c);
    SamePool(c);
  }

  lemma {:induction false} OpenedGrows(w: World, h: Host, peer: Key, p: Policy, refund: Bytes)
    requires HostInvariant(w, h) && p.initialClientBalance <= p.capacity
    requires peer in h.channels ==> DeriveStatus(h.channels[peer].data) in {NotOpened, Suspended}
    ensures var c := NewChannel(p, refund);
      && Pool(c.data) == [] && c.given == []
      && (peer in h.channels ==> PoolFrom(h.channels[peer], c))
  {
    hide HostInvariant, SoundState, QueueSound, HtlcsEncode, Stamped, Numbered, AllGranted, GivenAccounted;
    if peer in h.channels {
      ChannelIsKept(w, h, peer);
    }
    NoAdds();
  }

  lemma {:induction false} RecoverKeys(w: World, h: Host, peer: Key, queryOutgoing: bool, env: U64 -> Env)
    ensures RecoverChannel(h, w, peer, queryOutgoing, env).host.channels.Keys == h.channels.Keys
  {
    hide Extends, NewLinksServed, RecoverIncoming, RecoverOutgoing, DeriveStatus, SameGrants;
    if peer in h.channels && DeriveStatus(h.channels[peer].data) == Active {
      var c := h.channels[peer];
      var done := RecoverIncoming(h, w, peer, c.data, c.data.lcss.incoming, env).host;
      RecoverIncomingContinues(w, h, peer, c.data, c.data.lcss.incoming, env);
      var mid := RecoverOutgoingContinues(w, done, peer, c.data, c.data.lcss.outgoing);
    }
  }

  // ---- Runs --------------------------------------------------------------------------------

  lemma {:induction false} EventGrows(w: World, h: Host, e: HostEvent)
    requires HostInvariant(w, h) && Allowed(h, w, e)
    ensures var h' := React(h, w, e).host; HostGrows(w, h, h') && PoolsFrom(h, h', e)
  {
    hide HostInvariant, Continues, HostGrows, PoolsFrom, OnInvoke, OnStateMessage, OnFulfill, LearnPreimages, Respond, OnOffer,
         RecoverChannel, Enforce, OnPaymentResult, Possible, Disciplined, Honest, TrueReport;
    var h' := React(h, w, e).host;
    match e
    case Invoke(_, _, _, _) => InvokeGrows(w, h, e);
    case StateMessage(_, _, _) => StateMessageGrows(w, h, e);
    case Within(_, _) => WithinGrows(w, h, e);
    case Recover(peer, queryOutgoing, env) => RecoverGrows(w, h, peer, queryOutgoing, env, e);
    case FulfillMessage(peer, r) => FulfillContinues(w, h, peer, r); ContinuedGrows(w, h, h', e);
    case Offered(peer, o, env) => OfferContinues(w, h, peer, o, env); ContinuedGrows(w, h, h', e);
    case Watchdog(peers, now) => EnforceContinues(w, h, peers, now); ContinuedGrows(w, h, h', e);
    case PaymentReported(at, status) => PaymentContinues(w, h, at, status); ContinuedGrows(w, h, h', e);
    case PreimagesReplied(preimages) => LearningIsApart(h, preimages); ApartContinues(w, h, h'); ContinuedGrows(w, h, h', e);
    case _ => ApartContinues(w, h, h'); ContinuedGrows(w, h, h', e);
  }

  lemma {:induction false} LearningIsApart(h: Host, preimages: seq<Bytes32>)
    ensures LearnPreimages(h, preimages) == h.(preimages := LearnPreimages(h, preimages).preimages)
    ensures h.preimages.Keys <= LearnPreimages(h, preimages).preimages.Keys
  {
    if preimages != [] {
      LearningIsApart(h, preimages[..|preimages| - 1]);
    }
  }

  /** The link under the key of an HTLC waits for another payment hash. */
  ghost predicate Disagrees(w: World, h: Host, p: Key, g: Htlc) {
    var key := (w.scidOf(p), g.id);
    key in h.links && h.links[key].paymentHash != g.paymentHash
  }

  /** In that event the host added the HTLC to the channel, or the channel adopted a state that has it. */
  ghost predicate Came(h: Host, e: HostEvent, h': Host, p: Key, g: Htlc) {
    && p in h.channels && p in h'.channels && g !in Pool(h.channels[p].data) && g in Pool(h'.channels[p].data)
    && (Adopting(e, p) || GrantedSince(|h.channels[p].given|, h'.channels[p].given, g))
  }

  /**
   * The HTLC came in the `i`-th event, when a link for another payment hash held its key; and both are
   * still there after the `n`-th.
   */
  ghost predicate KeyWasTaken(trace: seq<Host>, es: seq<HostEvent>, w: World, i: nat, n: nat, p: Key, g: Htlc)
    requires |trace| == |es| + 1 && i < n <= |es|
  {
    && Came(trace[i], es[i], trace[i + 1], p, g) && Disagrees(w, trace[i], p, g)
    && (forall m :: i < m <= n ==> Stays(w, trace[i], trace[m], p, g))
  }

  ghost predicate Stays(w: World, h: Host, h': Host, p: Key, g: Htlc) {
    var key := (w.scidOf(p), g.id);
    && p in h'.channels && g in Pool(h'.channels[p].data)
    && key in h.links && key in h'.links && h'.links[key] == h.links[key]
  }

  ghost predicate Alone(w: World, h: Host, p: Key) {
    forall q :: q in h.channels && w.scidOf(q) == w.scidOf(p) ==> q == p
  }

  /** A link made in an event agrees with the HTLC of its key. */
  lemma {:induction false} ServedAgrees(w: World, h: Host, p: Key, g: Htlc, link: ForwardLink)
    requires HostInvariant(w, h) && p in h.channels && g in Pool(h.channels[p].data) && Alone(w, h, p)
    requires Serves(w, h, (w.scidOf(p), g.id), link)
    ensures link.paymentHash == g.paymentHash
  {
    hide HostInvariant, SoundState, Tracked, Fold, LocalOf, AddsOf, RemoteOf, KeysDistinct, Distinct;
    assert Hosts(h, w, w.scidOf(p));
    ChannelIsKept(w, h, p);
    var d := h.channels[p].data;
    var x :| x in Pool(d) && x.id == g.id && x.paymentHash == link.paymentHash;
    OneOfEachId(Pool(d), x, g);
  }

  lemma {:induction false} OneOfEachId(hs: seq<Htlc>, x: Htlc, g: Htlc)
    requires Increasing(hs) && x in hs && g in hs && x.id == g.id
    ensures x == g
  {
  }

  lemma {:induction false} DisagreementCame(w: World, h: Host, e: HostEvent, p: Key, g: Htlc)
    requires HostInvariant(w, h) && Allowed(h, w, e)
    requires var h' := React(h, w, e).host;
      p in h'.channels && g in Pool(h'.channels[p].data) && Disagrees(w, h', p, g) && Alone(w, h', p)
    ensures var h' := React(h, w, e).host;
      && Stays(w, h, h', p, g) && Disagrees(w, h, p, g)
      && (Came(h, e, h', p, g) || (p in h.channels && g in Pool(h.channels[p].data)))
  {
    hide HostInvariant, React, Allowed, Pool, Serves, PoolFrom;
    var h', key := React(h, w, e).host, (w.scidOf(p), g.id);
    EveryHostEventKeeps(w, h, e);
    EventGrows(w, h, e);
    if Serves(w, h', key, h'.links[key]) {
      ServedAgrees(w, h', p, g, h'.links[key]);
    }
    if p in h.channels && g !in Pool(h.channels[p].data) && !Adopting(e, p) {
      FromGrant(h.channels[p], h'.channels[p], g);
    }
  }

  lemma {:induction false} FromGrant(c: Channel, c': Channel, g: Htlc)
    requires PoolFrom(c, c') && g in Pool(c'.data) && g !in Pool(c.data)
    ensures GrantedSince(|c.given|, c'.given, g)
  {
  }

  lemma {:induction false} DisagreementGoesBack(trace: seq<Host>, es: seq<HostEvent>, w: World, n: nat, p: Key, g: Htlc) returns (i: nat)
    requires IsHostRun(trace, es, w) && n < |trace| && p in trace[n].channels && g in Pool(trace[n].channels[p].data)
    requires Disagrees(w, trace[n], p, g) && Alone(w, trace[n], p)
    ensures i < n && KeyWasTaken(trace, es, w, i, n, p, g)
  {
    hide HostInvariant, React, Allowed, Pool, Starts, GrantedSince;
    i := 0;
    if n == 0 {
      NoChannels(trace[0]);
    } else {
      ReachableHost(trace, es, w, n - 1);
      assert trace[n - 1 + 1] == React(trace[n - 1], w, es[n - 1]).host;
      DisagreementCame(w, trace[n - 1], es[n - 1], p, g);
      if p in trace[n - 1].channels && g in Pool(trace[n - 1].channels[p].data) {
        AloneBefore(w, trace[n - 1], es[n - 1], p);
        i := DisagreementGoesBack(trace, es, w, n - 1, p, g);
      } else {
        i := n - 1;
      }
    }
  }

  lemma {:induction false} NoChannels(h: Host)
    requires Starts(h)
    ensures h.channels == map[]
  {
  }

  lemma {:induction false} AloneBefore(w: World, h: Host, e: HostEvent, p: Key)
    requires HostInvariant(w, h) && Allowed(h, w, e) && Alone(w, React(h, w, e).host, p)
    ensures Alone(w, h, p)
  {
    hide HostInvariant, React, Allowed, NewLinksServed, PoolFrom, Pool;
    EventGrows(w, h, e);
  }

  /**
   * At every moment of every run, for every HTLC of the host that a channel holds, committed or pending:
   * the link under its key waits for another payment hash if and only if a link for another hash held
   * the key when the HTLC was added or adopted, and has stayed since.
   */
  lemma {:induction false} LinkDisagreesIff(trace: seq<Host>, es: seq<HostEvent>, w: World, n: nat, p: Key, g: Htlc)
    requires IsHostRun(trace, es, w) && n < |trace| && p in trace[n].channels && g in Pool(trace[n].channels[p].data)
    requires Alone(w, trace[n], p)
    ensures Disagrees(w, trace[n], p, g) <==> exists i :: 0 <= i < n && KeyWasTaken(trace, es, w, i, n, p, g)
  {
    hide React, Allowed, Pool, Came, Starts;
    if Disagrees(w, trace[n], p, g) {
      var i := DisagreementGoesBack(trace, es, w, n, p, g);
    }
    if i :| 0 <= i < n && KeyWasTaken(trace, es, w, i, n, p, g) {
      assert Stays(w, trace[i], trace[n], p, g);
    }
  }
}

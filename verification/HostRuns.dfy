/** Every run of the whole host: all channels, the links between them and the answers sent upstream. */
module HostRuns {
  import opened Base
  import opened State
  import opened StateLaws
  import opened HtlcIds
  import opened Channel
  import opened ChannelLaws
  import opened ChannelRuns
  import opened ChannelIds
  import opened ChannelTheorems
  import opened Conservation
  import opened Forwarding
  import opened ForwardingLaws

  datatype HostEvent =
    | Invoke(peer: Key, granted: Option<Policy>, refund: Bytes, env: U64 -> Env)
    | StateMessage(peer: Key, msg: StateUpdate, env: U64 -> Env)
    | FulfillMessage(peer: Key, r: PendingUpdate)
    | PreimagesReplied(preimages: seq<Bytes32>)
    | Within(peer: Key, e: Event)
    | Offered(peer: Key, o: Offer, offerEnv: Env)
    | Recover(peer: Key, queryOutgoing: bool, env: U64 -> Env)
    | Watchdog(peers: seq<Key>, now: nat)
    | PaymentReported(at: Place, status: PaymentStatus)
    | NewBlock(height: U32)
    | NewPolicy(policy: Policy)
    | NewConnections(reachable: set<Key>)

  /** The events of one channel that concern no other: the rest are handled above it. */
  predicate StaysWithin(e: Event) {
    || e.PeerAdd? || e.PeerFail? || e.PeerFailMalformed? || e.PeerError? || e.PeerLcss? || e.PeerResize?
    || e.HostDirectPayment? || e.AcceptResize? || e.SetChannel? || e.ProposeOverride?
  }

  predicate TrueReport(status: PaymentStatus, hash: Bytes32) {
    status.Succeeded? ==> SHA256(status.preimage) == hash
  }

  /** The node names a preimage only if it is one of the payment asked about. */
  ghost predicate Honest(env: U64 -> Env) {
    forall id: U64, hash: Bytes32 :: TrueReport(env(id).payment(hash), hash)
  }

  ghost predicate Allowed(h: Host, w: World, e: HostEvent) {
    && (e.Invoke? || e.Recover? ==> Honest(e.env))
    && (e.Invoke? && e.granted.Some? ==> e.granted.value.initialClientBalance <= e.granted.value.capacity)
    && (e.FulfillMessage? ==> e.r.Fulfill?)
    && (e.Within? ==> StaysWithin(e.e) && e.peer in h.channels && Admissible(h.channels[e.peer], KeysOf(w, e.peer), e.e))
    && (e.PaymentReported? && e.at in h.links ==> TrueReport(e.status, h.links[e.at].paymentHash))
  }

  ghost function React(h: Host, w: World, e: HostEvent): Outcome
    requires Allowed(h, w, e)
  {
    match e
    case Invoke(peer, granted, refund, env) => OnInvoke(h, w, peer, granted, refund, env)
    case StateMessage(peer, msg, env) => OnStateMessage(h, w, peer, msg, env)
    case FulfillMessage(peer, r) => OnFulfill(h, w, peer, r)
    case PreimagesReplied(preimages) => Outcome(LearnPreimages(h, preimages), Ok(()))
    case Within(peer, e) =>
      var reply := Respond(h.channels[peer], KeysOf(w, peer), h.policy, e);
      Outcome(Put(h, peer, reply.channel), reply.result)
    case Offered(peer, o, env) => OnOffer(h, w, peer, o, env)
    case Recover(peer, queryOutgoing, env) => RecoverChannel(h, w, peer, queryOutgoing, env)
    case Watchdog(peers, now) => Enforce(h, w, peers, now)
    case PaymentReported(at, status) => OnPaymentResult(h, w, at, status)
    case NewBlock(height) => Outcome(h.(height := height), Ok(()))
    case NewPolicy(policy) => Outcome(h.(policy := policy), Ok(()))
    case NewConnections(reachable) => Outcome(h.(reachable := reachable), Ok(()))
  }

  // ---- Committed HTLCs ---------------------------------------------------------------------

  lemma {:induction false} FailBackKeeps(w: World, h: Host, peer: Key, htlc: Htlc)
    requires HostInvariant(w, h)
    ensures HostInvariant(w, FailBack(h, w, peer, htlc).host) && forall p :: SameGrants(h, FailBack(h, w, peer, htlc).host, p)
  {
    hide HostInvariant, SendLocal, SameGrants;
    var r := Fail(w.channelIdOf(peer), htlc.id, FailureFor(w, htlc));
    SendLocalKeeps(w, h, peer, r);
    forall p
      ensures SameGrants(h, FailBack(h, w, peer, htlc).host, p)
    {
      SendLocalSameGrants(h, w, peer, r, p);
    }
  }

  lemma {:induction false} SameGrantsTwice(h: Host, h': Host, h'': Host, peer: Key)
    requires SameGrants(h, h', peer) && SameGrants(h', h'', peer)
    ensures SameGrants(h, h'', peer)
  {
  }

  /** An offer leaves every channel but its target alone. */
  lemma {:induction false} OfferSparesOthers(h: Host, w: World, target: Key, o: Offer, env: Env, peer: Key)
    requires peer != target
    ensures SameGrants(h, OnOffer(h, w, target, o, env).host, peer)
  {
    hide Judge, OnHostAdd;
  }

  lemma {:induction false} ToHostedKeeps(w: World, h: Host, peer: Key, target: Key, htlc: Htlc, relay: Relay, env: Env)
    requires HostInvariant(w, h) && peer != target
    ensures var h' := ToHosted(h, w, peer, target, htlc, relay, env).host; HostInvariant(w, h') && SameGrants(h, h', peer)
  {
    hide HostInvariant, OnOffer, FailBack, SameGrants;
    var from, o := (w.scidOf(peer), htlc.id), OfferOf(w, peer, target, htlc, relay);
    var offered := OnOffer(h, w, target, o, env).host;
    OnOfferKeeps(w, h, target, o, env);
    OfferSparesOthers(h, w, target, o, env, peer);
    var failed := FailBack(offered, w, peer, htlc).host;
    FailBackKeeps(w, offered, peer, htlc);
    SameGrantsTwice(h, offered, failed, peer);
    if Linked(failed, from) {
      var at := failed.links[LinkOf(failed, w, from)].outgoing;
      DropLinkKeeps(w, failed, at);
      DroppingSparesAll(failed, at, peer);
      SameGrantsTwice(h, failed, DropLink(failed, at), peer);
    }
  }

  lemma {:induction false} DroppingSparesAll(h: Host, at: Place, peer: Key)
    ensures SameGrants(h, DropLink(h, at), peer)
  {
  }

  lemma {:induction false} ToNormalKeeps(w: World, h: Host, peer: Key, htlc: Htlc, relay: Relay, env: Env)
    requires HostInvariant(w, h)
    ensures var h' := ToNormal(h, w, peer, htlc, relay, env).host; HostInvariant(w, h') && SameGrants(h, h', peer)
  {
    hide HostInvariant, FailBack, LatestIsOpen, SameGrants;
    var from, at := (w.scidOf(peer), htlc.id), (relay.scid, htlc.id);
    var link := ForwardLink(from, at, None, None, htlc.paymentHash, Some(relay.sharedSecret), |h.offers|, None);
    LogOfferKeeps(w, h, from);
    AddLinkKeeps(w, LogOffer(h, from), at, link);
    var linked := AddLink(LogOffer(h, from), at, link);
    assert SameGrants(h, linked, peer) by { LinkingSparesAll(h, from, at, link, peer); }
    var failed := FailBack(linked, w, peer, htlc).host;
    FailBackKeeps(w, linked, peer, htlc);
    DropLinkKeeps(w, failed, at);
    DroppingSparesAll(failed, at, peer);
    SameGrantsTwice(h, linked, failed, peer);
    SameGrantsTwice(h, failed, DropLink(failed, at), peer);
  }

  lemma {:induction false} LinkingSparesAll(h: Host, from: Place, at: Place, link: ForwardLink, peer: Key)
    ensures SameGrants(h, AddLink(LogOffer(h, from), at, link), peer)
  {
  }

  lemma {:induction false} DispatchIncomingKeeps(w: World, h: Host, peer: Key, d: ChannelData, htlc: Htlc, env: Env)
    requires HostInvariant(w, h)
    ensures var h' := DispatchIncoming(h, w, peer, d, htlc, env).host; HostInvariant(w, h') && SameGrants(h, h', peer)
  {
    hide HostInvariant, FailBack, ToHosted, ToNormal, SendLocal, WithinLimits, PaysEnough;
    FailBackKeeps(w, h, peer, htlc);
    var malformed := FailMalformed(w.channelIdOf(peer), htlc.id, w.hashOnion(htlc.onion), 0xc005);
    SendLocalKeeps(w, h, peer, malformed);
    SendLocalSameGrants(h, w, peer, malformed, peer);
    var peeled := w.peel(htlc.onion, htlc.paymentHash);
    if peeled.Some? {
      ToNormalKeeps(w, h, peer, htlc, peeled.value, env);
      var target := PeerFor(h, w, peeled.value.scid);
      if target.Some? && target.value != peer {
        ToHostedKeeps(w, h, peer, target.value, htlc, peeled.value, env);
      }
    }
  }

  lemma {:induction false} DispatchAllKeeps(w: World, h: Host, peer: Key, before: ChannelData, d: ChannelData, hs: seq<Htlc>, env: U64 -> Env)
    requires HostInvariant(w, h)
    ensures HostInvariant(w, DispatchAll(h, w, peer, before, d, hs, env).host)
  {
    hide HostInvariant, DispatchIncoming, HasId;
    if hs != [] {
      var htlc := hs[|hs| - 1];
      DispatchAllKeeps(w, h, peer, before, d, hs[..|hs| - 1], env);
      DispatchIncomingKeeps(w, DispatchAll(h, w, peer, before, d, hs[..|hs| - 1], env).host, peer, d, htlc, env(htlc.id));
    }
  }

  lemma {:induction false} RelayFailuresKeeps(w: World, h: Host, scid: nat, us: seq<Update>, side: Side)
    requires HostInvariant(w, h)
    ensures HostInvariant(w, RelayFailures(h, w, scid, us, side).host)
  {
    hide HostInvariant, ResolveFail;
    if us != [] {
      var u := us[|us| - 1];
      RelayFailuresKeeps(w, h, scid, us[..|us| - 1], side);
      if FailureOf(u).Some? {
        ResolveFailKeeps(w, RelayFailures(h, w, scid, us[..|us| - 1], side).host, (scid, u.u.id), FailureOf(u).value, side);
      }
    }
  }

  lemma {:induction false} StateMessageKeeps(w: World, h: Host, peer: Key, msg: StateUpdate, env: U64 -> Env)
    requires HostInvariant(w, h)
    ensures HostInvariant(w, OnStateMessage(h, w, peer, msg, env).host)
  {
    hide HostInvariant, Invariant, Moves, OnStateUpdate, CommitsQueue, DispatchAll, RelayFailures, Deduplicate;
    if peer in h.channels {
      var c := h.channels[peer];
      var reply := OnStateUpdate(c, KeysOf(w, peer), msg, BlockDay(h));
      ChannelIsKept(w, h, peer);
      StateUpdateKeeps(c, KeysOf(w, peer), msg, BlockDay(h));
      StateUpdateMoves(c, KeysOf(w, peer), msg, BlockDay(h));
      MovedKeeps(w, h, peer, reply.channel);
      var h' := Put(h, peer, reply.channel);
      var d := reply.channel.data;
      DispatchAllKeeps(w, h', peer, c.data, d, d.lcss.incoming, env);
      RelayFailuresKeeps(w, DispatchAll(h', w, peer, c.data, d, d.lcss.incoming, env).host, w.scidOf(peer),
                         Deduplicate(c.data.uncommitted), SideOf(h', peer));
    }
  }

  lemma {:induction false} PaymentResultKeeps(w: World, h: Host, at: Place, status: PaymentStatus)
    requires HostInvariant(w, h) && (at in h.links ==> TrueReport(status, h.links[at].paymentHash))
    ensures var h' := OnPaymentResult(h, w, at, status).host;
      HostInvariant(w, h') && forall p :: SameGrants(h, h', p)
  {
    hide HostInvariant, SendLocal, DropLink, SameGrants;
    forall p
      ensures SameGrants(h, OnPaymentResult(h, w, at, status).host, p)
    {
      PaymentSparesLogs(h, w, at, status, p);
    }
    if at in h.links && PeerFor(h, w, h.links[at].incoming.0).Some? {
      var link := h.links[at];
      var source := PeerFor(h, w, link.incoming.0).value;
      if status.Succeeded? {
        var known := h.(preimages := h.preimages[link.paymentHash := status.preimage]);
        var r := Fulfill(w.channelIdOf(source), link.incoming.1, status.preimage);
        PreimagesKeep(w, h, known.preimages);
        SendLocalKeeps(w, known, source, r);
        DropLinkKeeps(w, SendLocal(known, w, source, r).host, at);
      } else if status.Failed? {
        var r := Fail(w.channelIdOf(source), link.incoming.1, WrapFailure(w, link, status.failure));
        SendLocalKeeps(w, h, source, r);
        DropLinkKeeps(w, SendLocal(h, w, source, r).host, at);
      }
    }
  }

  lemma {:induction false} PaymentSparesLogs(h: Host, w: World, at: Place, status: PaymentStatus, peer: Key)
    ensures SameGrants(h, OnPaymentResult(h, w, at, status).host, peer)
  {
    hide SendLocal;
    if at in h.links && PeerFor(h, w, h.links[at].incoming.0).Some? {
      var link := h.links[at];
      var source := PeerFor(h, w, link.incoming.0).value;
      if status.Succeeded? {
        var known := h.(preimages := h.preimages[link.paymentHash := status.preimage]);
        SendLocalSameGrants(known, w, source, Fulfill(w.channelIdOf(source), link.incoming.1, status.preimage), peer);
      } else if status.Failed? {
        SendLocalSameGrants(h, w, source, Fail(w.channelIdOf(source), link.incoming.1, WrapFailure(w, link, status.failure)), peer);
      }
    }
  }

  lemma {:induction false} LearnPreimagesKeeps(w: World, h: Host, preimages: seq<Bytes32>)
    requires HostInvariant(w, h)
    ensures HostInvariant(w, LearnPreimages(h, preimages))
  {
    hide HostInvariant;
    if preimages != [] {
      var p, learned := preimages[|preimages| - 1], LearnPreimages(h, preimages[..|preimages| - 1]);
      LearnPreimagesKeeps(w, h, preimages[..|preimages| - 1]);
      PreimagesKeep(w, learned, learned.preimages[SHA256(p) := p]);
    }
  }

  // ---- Recovery ----------------------------------------------------------------------------

  lemma {:induction false} RecoverOneIncomingKeeps(w: World, h: Host, peer: Key, d: ChannelData, htlc: Htlc, env: Env)
    requires HostInvariant(w, h) && forall hash: Bytes32 :: TrueReport(env.payment(hash), hash)
    ensures var h' := RecoverOneIncoming(h, w, peer, d, htlc, env).host; HostInvariant(w, h') && SameGrants(h, h', peer)
  {
    hide HostInvariant, DispatchIncoming, OnPaymentResult, HasKey, TrueReport;
    DispatchIncomingKeeps(w, h, peer, d, htlc, env);
    var from := (w.scidOf(peer), htlc.id);
    if Linked(h, from) {
      var at := LinkOf(h, w, from);
      LinkIsKeyed(w, h, at);
      PaymentResultKeeps(w, h, h.links[at].outgoing, env.payment(h.links[at].paymentHash));
    }
  }

  lemma {:induction false} LinkIsKeyed(w: World, h: Host, at: Place)
    requires HostInvariant(w, h) && at in h.links
    ensures h.links[at].outgoing == at
  {
    hide ChannelsSound, LinksGranted, CallsTracked, CallsFit, PreimagesSound;
  }

  lemma {:induction false} RecoverIncomingKeeps(w: World, h: Host, peer: Key, d: ChannelData, hs: seq<Htlc>, env: U64 -> Env)
    requires HostInvariant(w, h) && Honest(env)
    ensures var h' := RecoverIncoming(h, w, peer, d, hs, env).host; HostInvariant(w, h') && SameGrants(h, h', peer)
  {
    hide HostInvariant, RecoverOneIncoming, TrueReport;
    if hs != [] {
      var done := RecoverIncoming(h, w, peer, d, hs[..|hs| - 1], env).host;
      RecoverIncomingKeeps(w, h, peer, d, hs[..|hs| - 1], env);
      RecoverOneIncomingKeeps(w, done, peer, d, hs[|hs| - 1], env(hs[|hs| - 1].id));
    }
  }

  lemma {:induction false} RecoverChannelKeeps(w: World, h: Host, peer: Key, queryOutgoing: bool, env: U64 -> Env)
    requires HostInvariant(w, h) && Honest(env)
    ensures HostInvariant(w, RecoverChannel(h, w, peer, queryOutgoing, env).host)
  {
    hide HostInvariant, Kept, Invariant, Tracked, RecoverIncoming, RecoverOutgoing, DeriveStatus;
    if peer in h.channels && DeriveStatus(h.channels[peer].data) == Active {
      var c := h.channels[peer];
      var done := RecoverIncoming(h, w, peer, c.data, c.data.lcss.incoming, env).host;
      RecoverIncomingKeeps(w, h, peer, c.data, c.data.lcss.incoming, env);
      ChannelIsKept(w, h, peer);
      assert Kept(c.(data := c.data), w.channelIdOf(peer)) by { KeptIs(c, w.channelIdOf(peer)); }
      MayStillWriteBack(w, h, done, peer, c.data);
      RecoverOutgoingKeeps(w, done, peer, c.data, c.data.lcss.outgoing);
    }
  }

  lemma {:induction false} KeptIs(c: Channel, channelId: Bytes32)
    requires Invariant(c) && Tracked(c, channelId)
    ensures Kept(c, channelId)
  {
    hide Invariant, Tracked;
  }

  /** A new channel may take the place of one that was only offered. */
  lemma {:induction false} OpenedKeeps(w: World, h: Host, peer: Key, p: Policy, refund: Bytes)
    requires HostInvariant(w, h) && p.initialClientBalance <= p.capacity
    requires peer in h.channels ==> DeriveStatus(h.channels[peer].data) in {NotOpened, Suspended}
    ensures HostInvariant(w, Put(h, peer, NewChannel(p, refund)))
  {
    hide HostInvariant, Invariant, Tracked, NewChannel;
    NewChannelIsSound(p, refund);
    NewChannelIsTracked(p, refund, w.channelIdOf(peer));
    KeptIs(NewChannel(p, refund), w.channelIdOf(peer));
    if peer in h.channels {
      ChannelIsKept(w, h, peer);
      OfferedOnlyIsBlank(h.channels[peer], NewChannel(p, refund), w.channelIdOf(peer));
    }
    PutKeeps(w, h, peer, NewChannel(p, refund));
  }

  lemma {:induction false} OfferedOnlyIsBlank(c: Channel, c': Channel, channelId: Bytes32)
    requires Invariant(c) && Tracked(c, channelId) && DeriveStatus(c.data) in {NotOpened, Suspended}
    ensures LogsGrow(c, c')
  {
    hide SoundState, QueueSound, HtlcsEncode, Stamped, Numbered, AllGranted, IsPending;
    assert c.given == [];
    assert forall id: U64 :: !WasGiven(c.given, id);
    assert c.withdrawn == {};
  }

  lemma {:induction false} InvokeKeeps(w: World, h: Host, peer: Key, granted: Option<Policy>, refund: Bytes, env: U64 -> Env)
    requires HostInvariant(w, h) && Honest(env)
    requires granted.Some? ==> granted.value.initialClientBalance <= granted.value.capacity
    ensures HostInvariant(w, OnInvoke(h, w, peer, granted, refund, env).host)
  {
    hide HostInvariant, Invariant, Tracked, Moves, OnReconnect, RecoverChannel, DeriveStatus, NewChannel, Repaired, Honest;
    if granted.Some? && (peer !in h.channels || DeriveStatus(h.channels[peer].data) in {NotOpened, Suspended}) {
      OpenedKeeps(w, h, peer, granted.value, refund);
    }
    if peer in h.channels {
      var c := h.channels[peer];
      var reply := OnReconnect(c, KeysOf(w, peer), BlockDay(h));
      ChannelIsKept(w, h, peer);
      RepairedIsSame(c);
      assert Put(h, peer, c) == h by { PutBack(h, peer); }
      ReconnectKeeps(c, KeysOf(w, peer), BlockDay(h));
      ReconnectMoves(c, KeysOf(w, peer), BlockDay(h));
      MovedKeeps(w, h, peer, reply.channel);
      RecoverChannelKeeps(w, Put(h, peer, reply.channel), peer, true, env);
    }
  }

  /** Storing a channel over itself changes nothing. */
  lemma {:induction false} PutBack(h: Host, peer: Key)
    requires peer in h.channels
    ensures Put(h, peer, h.channels[peer]) == h
  {
    assert h.channels[peer := h.channels[peer]] == h.channels;
  }

  /** There is only one success. */
  lemma {:induction false} OneSuccess(r: Result<(), ChannelError>)
    ensures r.Ok? ==> r == Ok(())
  {
    match r {
      case Ok(value) => assert value == ();
      case Err(_) =>
    }
  }

  // ---- Runs --------------------------------------------------------------------------------

  lemma {:induction false} SurroundingsKeep(w: World, h: Host, h': Host)
    requires HostInvariant(w, h) && h' == h.(height := h'.height, policy := h'.policy, reachable := h'.reachable)
    ensures HostInvariant(w, h')
  {
    hide Kept, InTime;
    assert forall at, link :: LinkGranted(h, at, link) ==> LinkGranted(h', at, link);
    assert forall i :: 0 <= i < |h.calls| ==> Fitting(h, h.calls[i]) ==> Fitting(h', h.calls[i]);
  }

  lemma {:induction false} WithinKeeps(w: World, h: Host, peer: Key, e: Event)
    requires HostInvariant(w, h) && peer in h.channels && Admissible(h.channels[peer], KeysOf(w, peer), e)
    ensures HostInvariant(w, Put(h, peer, Respond(h.channels[peer], KeysOf(w, peer), h.policy, e).channel))
  {
    hide HostInvariant, Invariant, Moves, Respond, Possible, Disciplined;
    ChannelIsKept(w, h, peer);
    EveryEventKeeps(h.channels[peer], KeysOf(w, peer), h.policy, e);
    EventMoves(h.channels[peer], KeysOf(w, peer), h.policy, e);
    MovedKeeps(w, h, peer, Respond(h.channels[peer], KeysOf(w, peer), h.policy, e).channel);
  }

  lemma {:induction false} EveryHostEventKeeps(w: World, h: Host, e: HostEvent)
    requires HostInvariant(w, h) && Allowed(h, w, e)
    ensures HostInvariant(w, React(h, w, e).host)
  {
    hide HostInvariant, OnInvoke, OnStateMessage, OnFulfill, LearnPreimages, Respond, OnOffer, RecoverChannel, Enforce, OnPaymentResult,
         Possible, Disciplined, Honest, TrueReport;
    match e
    case Invoke(peer, granted, refund, env) => InvokeKeeps(w, h, peer, granted, refund, env);
    case StateMessage(peer, msg, env) => StateMessageKeeps(w, h, peer, msg, env);
    case FulfillMessage(peer, r) => OnFulfillKeeps(w, h, peer, r);
    case PreimagesReplied(preimages) => LearnPreimagesKeeps(w, h, preimages);
    case Within(peer, e) => WithinKeeps(w, h, peer, e);
    case Offered(peer, o, env) => OnOfferKeeps(w, h, peer, o, env);
    case Recover(peer, queryOutgoing, env) => RecoverChannelKeeps(w, h, peer, queryOutgoing, env);
    case Watchdog(peers, now) => EnforceKeeps(w, h, peers, now);
    case PaymentReported(at, status) => PaymentResultKeeps(w, h, at, status);
    case _ => SurroundingsKeep(w, h, React(h, w, e).host);
  }

  ghost predicate IsHostRun(trace: seq<Host>, es: seq<HostEvent>, w: World) {
    && |trace| == |es| + 1 && Starts(trace[0])
    && forall i :: 0 <= i < |es| ==> Allowed(trace[i], w, es[i]) && trace[i + 1] == React(trace[i], w, es[i]).host
  }

  predicate Starts(h: Host) {
    h.channels == map[] && h.links == map[] && h.preimages == map[] && h.offers == [] && h.calls == []
  }

  lemma {:induction false} ReachableHost(trace: seq<Host>, es: seq<HostEvent>, w: World, n: nat)
    requires IsHostRun(trace, es, w) && n < |trace|
    ensures HostInvariant(w, trace[n])
  {
    hide HostInvariant, React, Allowed;
    if n == 0 {
      EmptyHost(w, trace[0]);
    } else {
      ReachableHost(trace, es, w, n - 1);
      EveryHostEventKeeps(w, trace[n - 1], es[n - 1]);
      assert trace[n - 1 + 1] == React(trace[n - 1], w, es[n - 1]).host;
    }
  }

  lemma {:induction false} EmptyHost(w: World, h: Host)
    requires Starts(h)
    ensures HostInvariant(w, h)
  {
  }

  /**
   * In every run, each offered HTLC is answered upstream at most once, whether through its link or
   * without one; an answer is given only to an HTLC that was offered from that very place.
   */
  lemma {:induction false} AnsweredAtMostOnce(trace: seq<Host>, es: seq<HostEvent>, w: World, n: nat)
    requires IsHostRun(trace, es, w) && n < |trace|
    ensures var calls, offers := trace[n].calls, trace[n].offers;
      && (forall i, j :: 0 <= i < j < |calls| ==> calls[i].offer != calls[j].offer)
      && (forall i :: 0 <= i < |calls| ==> calls[i].offer < |offers| && offers[calls[i].offer] == calls[i].place)
  {
    hide IsHostRun, Kept, CallsFit;
    ReachableHost(trace, es, w, n);
  }

  /** In every run, a preimage is passed upstream through a link only while there is time to claim it. */
  lemma {:induction false} PreimagesArriveInTime(trace: seq<Host>, es: seq<HostEvent>, w: World, n: nat, i: nat)
    requires IsHostRun(trace, es, w) && n < |trace| && i < |trace[n].calls|
    requires trace[n].calls[i].via.Some? && trace[n].calls[i].answer.Settle?
    ensures var v := trace[n].calls[i].via.value;
      v.link.upstreamExpiry.Some? && v.height + v.side.delta < v.link.upstreamExpiry.value
  {
    hide IsHostRun, Kept, LinksTracked, LinksGranted, CallsTracked, Fitting;
    ReachableHost(trace, es, w, n);
    assert InTime(trace[n].calls[i]);
  }

  /**
   * In every run, a preimage passed upstream through a link is the one the upstream HTLC waits for, if
   * it came from the channel the link was made for and the id was never withdrawn in that channel.
   */
  lemma {:induction false} PreimagesFitTheirLinks(trace: seq<Host>, es: seq<HostEvent>, w: World, n: nat, i: nat)
    requires IsHostRun(trace, es, w) && n < |trace| && i < |trace[n].calls|
    requires trace[n].calls[i].via.Some? && trace[n].calls[i].answer.Settle?
    requires var v := trace[n].calls[i].via.value;
      v.link.target == Some(v.side.peer) && v.side.peer in trace[n].channels
      && v.link.outgoing.1 !in trace[n].channels[v.side.peer].withdrawn
    ensures SHA256(trace[n].calls[i].answer.preimage) == trace[n].calls[i].via.value.link.paymentHash
  {
    hide IsHostRun, Kept, LinksTracked, LinksGranted, CallsTracked, InTime;
    ReachableHost(trace, es, w, n);
    assert Fitting(trace[n], trace[n].calls[i]);
  }

  /**
   * The exact condition of one settlement, which the host could check and does not: the preimage it
   * passes on fits the link if and only if the link has the payment hash of the HTLC just fulfilled.
   */
  lemma {:induction false} SettlementFitsIff(h: Host, w: World, peer: Key, r: PendingUpdate)
    requires r.Fulfill? && peer in h.channels && Accepts(h.channels[peer].data, r)
    requires var hs := h.channels[peer].data.lcss.outgoing;
      SettlementIsSafe(h, w, peer, hs[Position(hs, r.id)]) == Ok(true)
    requires (w.scidOf(peer), r.id) in h.links && !Hosts(h, w, h.links[(w.scidOf(peer), r.id)].incoming.0)
    ensures var link, hs := h.links[(w.scidOf(peer), r.id)], h.channels[peer].data.lcss.outgoing;
      && OnFulfill(h, w, peer, r).host.calls ==
           h.calls + [Call(link.offer, link.incoming, Settle(r.preimage), Some(Via(link, SideOf(h, peer), h.height)))]
      && (SHA256(r.preimage) == link.paymentHash <==> hs[Position(hs, r.id)].paymentHash == link.paymentHash)
  {
    hide SettlementIsSafe, OnUpdateFulfill;
    var link, safe := h.links[(w.scidOf(peer), r.id)], true;
    var h' := Put(h, peer, OnUpdateFulfill(h.channels[peer], r, safe).channel);
    assert Hosts(h', w, link.incoming.0) == Hosts(h, w, link.incoming.0);
  }

  /**
   * In every run and every channel, no HTLC has two resolutions queued, let alone a fulfill and a fail;
   * and every queue folds, so that balances never fail to cover what is pending.
   */
  lemma {:induction false} ResolvedAtMostOnce(trace: seq<Host>, es: seq<HostEvent>, w: World, n: nat, peer: Key)
    requires IsHostRun(trace, es, w) && n < |trace| && peer in trace[n].channels
    ensures var d := trace[n].channels[peer].data;
      && (forall i, j :: 0 <= i < j < |d.uncommitted| && ResolutionKey(d.uncommitted[i]).Some? ==>
            ResolutionKey(d.uncommitted[i]) != ResolutionKey(d.uncommitted[j]))
      && Fold(d.lcss, d.uncommitted).Ok?
  {
    hide IsHostRun, HostInvariant, SoundState, Fold, AddsOf, LocalOf, RemoteOf, Tracked;
    ReachableHost(trace, es, w, n);
    ChannelIsKept(w, trace[n], peer);
    assert QueueSound(trace[n].channels[peer].data.lcss, trace[n].channels[peer].data.uncommitted);
  }

  /** In every run of the host, every state that a channel stores, proposes or ever signed is backed by the capacity. */
  lemma {:induction false} CapacityIsConservedEverywhere(trace: seq<Host>, es: seq<HostEvent>, w: World, n: nat, peer: Key)
    requires IsHostRun(trace, es, w) && n < |trace| && peer in trace[n].channels
    ensures var c := trace[n].channels[peer];
      && Backed(CoveredOf(c.data.lcss))
      && (c.data.proposedOverride.Some? ==> Backed(CoveredOf(c.data.proposedOverride.value)))
      && forall s :: s in c.signed ==> Backed(s)
  {
    hide IsHostRun, HostInvariant, QueueSound, Tracked, Sum;
    ReachableHost(trace, es, w, n);
    ChannelIsKept(w, trace[n], peer);
  }

  /**
   * In every run of the host, the HTLCs of either side of a channel never share an id; and the id the
   * host gives next was given before exactly if it was withdrawn.
   */
  lemma {:induction false} IdsStayDistinctEverywhere(trace: seq<Host>, es: seq<HostEvent>, w: World, n: nat, peer: Key)
    requires IsHostRun(trace, es, w) && n < |trace| && peer in trace[n].channels
    ensures var c := trace[n].channels[peer];
      && Distinct(Pool(c.data)) && Distinct(c.data.lcss.incoming + AddsOf(RemoteOf(c.data.uncommitted)))
      && (CountersFit(c.data) ==> (WasGiven(c.given, NextHtlcId(c.data)) <==> NextHtlcId(c.data) in c.withdrawn))
  {
    hide IsHostRun, HostInvariant, SoundState, Tracked, Fold, LocalOf, RemoteOf, AddsOf, WasGiven;
    ReachableHost(trace, es, w, n);
    ChannelIsKept(w, trace[n], peer);
    if CountersFit(trace[n].channels[peer].data) {
      NextIdIsNewIff(trace[n].channels[peer], w.channelIdOf(peer));
    }
  }

  /** In every run of the host, a peer that folds the replay in any order that folds accepts the host's signature. */
  lemma {:induction false} ReplayAgreesEverywhere(trace: seq<Host>, es: seq<HostEvent>, w: World, n: nat, peer: Key,
                                                  peerQueue: seq<Update>, signed: Cross)
    requires IsHostRun(trace, es, w) && n < |trace| && peer in trace[n].channels
    requires var d := trace[n].channels[peer].data;
      && SignedNext(d.lcss, d.uncommitted, KeysOf(w, peer), BlockDay(trace[n])) == Ok(signed)
      && RemoteOf(peerQueue) == Replay(d.uncommitted, w.channelIdOf(peer)) && LocalOf(peerQueue) == RemoteOf(d.uncommitted)
      && Fold(Reverse(d.lcss), peerQueue).Ok?
    ensures var mine := Fold(Reverse(trace[n].channels[peer].data.lcss), peerQueue).value;
      VerifyRemoteSig(mine.(blockDay := BlockDay(trace[n]), remoteSigOfLocal := signed.localSigOfRemote), w.hostKey)
  {
    hide IsHostRun, HostInvariant, Invariant, SignedNext, VerifyRemoteSig, Fold, Replay, LocalOf, RemoteOf, Reverse, AllGranted, GivenAccounted;
    ReachableHost(trace, es, w, n);
    ChannelIsKept(w, trace[n], peer);
    PeerAcceptsReplay(trace[n].channels[peer], KeysOf(w, peer), BlockDay(trace[n]), peerQueue, signed);
  }
}

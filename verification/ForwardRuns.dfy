/**
 * Forwards between two hosted channels over a run of the host: from the state update that dispatches the
 * HTLC to a moment when both channels committed what became of it.
 */
module ForwardRuns {
  import opened Base
  import opened State
  import opened StateLaws
  import opened HtlcIds
  import opened Hosted = Channel
  import opened ChannelLaws
  import opened ChannelRuns
  import opened ChannelIds
  import opened ChannelTheorems
  import opened Forwarding
  import opened ForwardingLaws
  import opened HostRuns
  import opened HostSteps
  import opened LinkRuns
  import opened Fees

  // ---- Undisturbed events ------------------------------------------------------------------

  /** The queue only grows, or it becomes part of the state. */
  ghost predicate Quiet(c: Hosted.Channel, c': Hosted.Channel) {
    || (c'.data.lcss == c.data.lcss && c.data.uncommitted <= c'.data.uncommitted)
    || Absorbs(c, c')
  }

  ghost predicate Absorbs(c: Hosted.Channel, c': Hosted.Channel) {
    && c'.data.lcss != c.data.lcss && Fold(c.data.lcss, c.data.uncommitted).Ok?
    && NetOf(c'.data.lcss) == NetOf(Fold(c.data.lcss, c.data.uncommitted).value)
  }

  /**
   * The channel is not open, an override is accepted, a state is adopted, the channel is resized, or a
   * recovery writes back the data it loaded.
   */
  ghost predicate Disturbs(h: Host, e: HostEvent, h': Host, p: Key)
    requires p in h.channels && p in h'.channels
  {
    var d, d' := h.channels[p].data, h'.channels[p].data;
    || !d.established
    || (d.proposedOverride.Some? && d'.proposedOverride.None?)
    || (e.Within? && e.peer == p && (e.e.PeerLcss? || e.e.PeerResize?) && d'.lcss != d.lcss)
    || ((e.Recover? || e.Invoke?) && e.peer == p && d'.localErrors != d.localErrors)
  }

  lemma {:induction false} ExtendedIsQuiet(w: World, h: Host, h': Host, p: Key)
    requires Continues(w, h, h') && p in h.channels
    ensures p in h'.channels && Quiet(h.channels[p], h'.channels[p])
  {
    hide PoolFrom, NewLinksServed, Absorbs;
    assert Extends(h.channels[p], h'.channels[p]);
  }

  /** What continues from a quietly stored channel is quiet. */
  lemma {:induction false} StoredIsQuiet(w: World, h: Host, peer: Key, c: Hosted.Channel, h': Host, p: Key)
    requires peer in h.channels && p in h.channels && Continues(w, Put(h, peer, c), h')
    requires peer == p ==> Quiet(h.channels[p], c)
    ensures p in h'.channels && Quiet(h.channels[p], h'.channels[p])
  {
    hide PoolFrom, NewLinksServed, Fold;
    assert Extends(Put(h, peer, c).channels[p], h'.channels[p]);
  }

  lemma {:induction false} StateUpdateIsQuiet(c: Hosted.Channel, k: Keys, msg: StateUpdate, day: U32)
    requires Invariant(c) && c.data.established
    requires var c' := OnStateUpdate(c, k, msg, day).channel; !(c.data.proposedOverride.Some? && c'.data.proposedOverride.None?)
    ensures Quiet(c, OnStateUpdate(c, k, msg, day).channel)
  {
    hide SoundState, QueueSound, Fold, Encodes, Deduplicate, LocalOf, RemoteOf, DroppedIds, UncountedIds, HtlcsEncode, OnOpening;
    RepairedIsSame(c);
    var c' := OnStateUpdate(c, k, msg, day).channel;
    if DeriveStatus(c.data) == Active && c' != c && c'.data.lcss != c.data.lcss {
      assert NetOf(c'.data.lcss) == NetOf(Fold(c.data.lcss, c.data.uncommitted).value);
    } else if DeriveStatus(c.data) == Active && c' != c {
      CommitAdvancesAlways(c, k, msg, day);
    }
  }

  /** A commit moves a counter, so it changes the stored state. */
  lemma {:induction false} CommitAdvancesAlways(c: Hosted.Channel, k: Keys, msg: StateUpdate, day: U32)
    requires Invariant(c) && DeriveStatus(c.data) == Active
    requires OnStateUpdate(c, k, msg, day).channel != c
    ensures OnStateUpdate(c, k, msg, day).channel.data.lcss != c.data.lcss
  {
    hide SoundState, Encodes, Deduplicate, HtlcsEncode;
    RepairedIsSame(c);
    FoldKeepsHeader(c.data.lcss, c.data.uncommitted);
    SidesPartition(c.data.uncommitted);
  }

  /** Events within a channel keep its queue at the front, unless they adopt a state. */
  lemma {:induction false} WithinIsQuiet(c: Hosted.Channel, k: Keys, fallback: Policy, e: Event)
    requires Possible(c, k, e) && StaysWithin(e)
    requires Respond(c, k, fallback, e).channel.data.lcss == c.data.lcss
    ensures c.data.uncommitted <= Respond(c, k, fallback, e).channel.data.uncommitted
  {
    hide Fold, Encodes, HasId, HasKey, LocalOf, DeriveStatus, OnSetChannel, OnResize, OnLcss, Listens;
    if e.SetChannel? {
      var init, remote := SetChannelShape(c, k, e.params, e.force, e.day, fallback);
    } else if e.PeerResize? {
      ResizeKeepsQueue(c, k, e.newCapacitySat, e.clientSigned, fallback);
    } else if e.PeerLcss? {
      UnadoptedKeepsQueue(c, k, e.lcss);
    }
  }

  lemma {:induction false} ResizeKeepsQueue(c: Hosted.Channel, k: Keys, sat: U64, clientSigned: bool, fallback: Policy)
    ensures OnResize(c, k, sat, clientSigned, fallback).channel.data.uncommitted == c.data.uncommitted
  {
    hide Encodes, DeriveStatus, RoutingFor;
  }

  lemma {:induction false} UnadoptedKeepsQueue(c: Hosted.Channel, k: Keys, msg: Cross)
    requires OnLcss(c, k, msg).channel.data.lcss == c.data.lcss
    ensures OnLcss(c, k, msg).channel.data.uncommitted == c.data.uncommitted
  {
    hide VerifyRemoteSig, Reverse, DroppedIds, UncountedIds;
  }

  /** A state update is stored, and what it sets off continues from there. */
  lemma {:induction false} StateMessageStores(w: World, h: Host, peer: Key, msg: StateUpdate, env: U64 -> Env) returns (h1: Host)
    requires peer in h.channels
    ensures h1 == Put(h, peer, OnStateUpdate(h.channels[peer], KeysOf(w, peer), msg, BlockDay(h)).channel)
    ensures Continues(w, h1, OnStateMessage(h, w, peer, msg, env).host)
  {
    hide OnStateUpdate, CommitsQueue, DispatchAll, RelayFailures, Deduplicate, Continues;
    var c := h.channels[peer];
    var c' := OnStateUpdate(c, KeysOf(w, peer), msg, BlockDay(h)).channel;
    h1 := Put(h, peer, c');
    ApartContinues(w, h1, h1);
    DispatchAllContinues(w, h1, peer, c.data, c'.data, c'.data.lcss.incoming, env);
    var h2 := DispatchAll(h1, w, peer, c.data, c'.data, c'.data.lcss.incoming, env).host;
    RelayContinues(w, h2, w.scidOf(peer), Deduplicate(c.data.uncommitted), SideOf(h1, peer));
    ContinuesTwice(w, h1, h2, RelayFailures(h2, w, w.scidOf(peer), Deduplicate(c.data.uncommitted), SideOf(h1, peer)).host);
  }

  lemma {:induction false} StandingStays(w: World, h: Host, h': Host, p: Key)
    requires Continues(w, h, h') && p in h.channels
    ensures p in h'.channels && SameStanding(h.channels[p].data, h'.channels[p].data)
    ensures h.channels[p].data.uncommitted <= h'.channels[p].data.uncommitted
  {
    hide PoolFrom, NewLinksServed, SameStanding;
    assert Extends(h.channels[p], h'.channels[p]);
  }

  lemma {:induction false} StateMessageIsQuiet(w: World, h: Host, e: HostEvent, p: Key)
    requires HostInvariant(w, h) && e.StateMessage? && p in h.channels
    requires var h' := OnStateMessage(h, w, e.peer, e.msg, e.env).host; p in h'.channels ==> !Disturbs(h, e, h', p)
    ensures var h' := OnStateMessage(h, w, e.peer, e.msg, e.env).host; p in h'.channels && Quiet(h.channels[p], h'.channels[p])
  {
    hide HostInvariant, Invariant, OnStateUpdate, OnStateMessage, Continues, Quiet;
    var peer := e.peer;
    var h' := OnStateMessage(h, w, peer, e.msg, e.env).host;
    if peer in h.channels {
      var h1 := StateMessageStores(w, h, peer, e.msg, e.env);
      var c, c' := h.channels[peer], h1.channels[peer];
      StandingStays(w, h1, h', p);
      if peer == p {
        ChannelIsKept(w, h, p);
        StateUpdateIsQuiet(c, KeysOf(w, p), e.msg, BlockDay(h));
      }
      StoredIsQuiet(w, h, peer, c', h', p);
    } else {
      NoSuchChannel(w, h, peer, e.msg, e.env);
      ApartContinues(w, h, h);
      ExtendedIsQuiet(w, h, h, p);
    }
  }

  lemma {:induction false} NoSuchChannel(w: World, h: Host, peer: Key, msg: StateUpdate, env: U64 -> Env)
    requires peer !in h.channels
    ensures OnStateMessage(h, w, peer, msg, env).host == h
  {
  }

  lemma {:induction false} WithinStaysQuiet(w: World, h: Host, e: HostEvent, p: Key)
    requires e.Within? && Allowed(h, w, e) && p in h.channels && !Disturbs(h, e, React(h, w, e).host, p)
    ensures var h' := React(h, w, e).host; p in h'.channels && Quiet(h.channels[p], h'.channels[p])
  {
    hide Respond, Possible, Disciplined, Absorbs;
    if e.peer == p {
      var c, k := h.channels[p], KeysOf(w, p);
      if !e.e.PeerLcss? && !e.e.PeerResize? {
        OtherEventsKeepState(c, k, h.policy, e.e);
      }
      WithinIsQuiet(c, k, h.policy, e.e);
    }
  }

  lemma {:induction false} RecoverIsQuiet(w: World, h: Host, peer: Key, queryOutgoing: bool, env: U64 -> Env, p: Key)
    requires p in h.channels
    requires var h' := RecoverChannel(h, w, peer, queryOutgoing, env).host;
      p in h'.channels && peer == p ==> h'.channels[p].data.localErrors == h.channels[p].data.localErrors
    ensures var h' := RecoverChannel(h, w, peer, queryOutgoing, env).host; p in h'.channels && Quiet(h.channels[p], h'.channels[p])
  {
    hide Continues, Quiet, RecoverIncoming, RecoverOutgoing, DeriveStatus, SameGrants;
    ApartContinues(w, h, h);
    ExtendedIsQuiet(w, h, h, p);
    if peer in h.channels && DeriveStatus(h.channels[peer].data) == Active {
      var c := h.channels[peer];
      var done := RecoverIncoming(h, w, peer, c.data, c.data.lcss.incoming, env).host;
      RecoverIncomingContinues(w, h, peer, c.data, c.data.lcss.incoming, env);
      ExtendedIsQuiet(w, h, done, p);
      var mid := RecoverOutgoingContinues(w, done, peer, c.data, c.data.lcss.outgoing);
      ContinuesTwice(w, h, done, mid);
      ExtendedIsQuiet(w, h, mid, p);
    }
  }

  lemma {:induction false} InvokeIsQuiet(w: World, h: Host, e: HostEvent, p: Key)
    requires HostInvariant(w, h) && e.Invoke? && Allowed(h, w, e) && p in h.channels
    requires var h' := React(h, w, e).host; p in h'.channels ==> !Disturbs(h, e, h', p)
    ensures var h' := React(h, w, e).host; p in h'.channels && Quiet(h.channels[p], h'.channels[p])
  {
    hide HostInvariant, Invariant, Continues, Quiet, RecoverChannel, OnReconnect, Repaired, NewChannel, Honest;
    var peer := e.peer;
    ApartContinues(w, h, h);
    ExtendedIsQuiet(w, h, h, p);
    if peer in h.channels && DeriveStatus(h.channels[peer].data) !in {NotOpened, Suspended} {
      var c := h.channels[peer];
      ChannelIsKept(w, h, peer);
      RepairedIsSame(c);
      PutBack(h, peer);
      var c' := OnReconnect(c, KeysOf(w, peer), BlockDay(h)).channel;
      ReconnectKeepsData(c, KeysOf(w, peer), BlockDay(h));
      var h1 := Put(h, peer, c');
      SameIsQuiet(c, c');
      if React(h, w, e).host == RecoverChannel(h1, w, peer, true, e.env).host && React(h, w, e).host != h1 && React(h, w, e).host != h {
        if p == peer {
          LaterIsQuiet(w, h1, peer, e.env, p, c);
        } else {
          RecoverIsQuiet(w, h1, peer, true, e.env, p);
        }
      }
    } else if peer == p {
      StandingOfUnopened(w, h, p);
    }
  }

  lemma {:induction false} StandingOfUnopened(w: World, h: Host, p: Key)
    requires HostInvariant(w, h) && p in h.channels && DeriveStatus(h.channels[p].data) in {NotOpened, Suspended}
    ensures !h.channels[p].data.established
  {
    hide HostInvariant, SoundState, QueueSound, HtlcsEncode, Tracked;
    ChannelIsKept(w, h, p);
  }

  lemma {:induction false} SameIsQuiet(c: Hosted.Channel, c': Hosted.Channel)
    requires c'.data == c.data
    ensures forall d: Hosted.Channel :: Quiet(c', d) ==> Quiet(c, d)
    ensures Quiet(c, c')
  {
  }

  lemma {:induction false} LaterIsQuiet(w: World, h1: Host, peer: Key, env: U64 -> Env, p: Key, c: Hosted.Channel)
    requires p == peer && p in h1.channels && h1.channels[p].data == c.data
    requires var h' := RecoverChannel(h1, w, peer, true, env).host;
      p in h'.channels ==> h'.channels[p].data.localErrors == c.data.localErrors
    ensures var h' := RecoverChannel(h1, w, peer, true, env).host; p in h'.channels && Quiet(h1.channels[p], h'.channels[p])
  {
    hide RecoverChannel, Quiet;
    RecoverIsQuiet(w, h1, peer, true, env, p);
  }

  lemma {:induction false} ReconnectKeepsData(c: Hosted.Channel, k: Keys, day: U32)
    requires Invariant(c)
    ensures OnReconnect(c, k, day).channel.data == c.data
  {
    hide Invariant, SignedNext, Deduplicate;
    RepairedIsSame(c);
  }

  /** An event that does not disturb the channel grows its queue or absorbs it. */
  lemma {:induction false} EventIsQuiet(w: World, h: Host, e: HostEvent, p: Key)
    requires HostInvariant(w, h) && Allowed(h, w, e) && p in h.channels
    requires var h' := React(h, w, e).host; p in h'.channels ==> !Disturbs(h, e, h', p)
    ensures var h' := React(h, w, e).host; p in h'.channels && Quiet(h.channels[p], h'.channels[p])
  {
    hide HostInvariant, Continues, Quiet, OnInvoke, OnStateMessage, OnFulfill, LearnPreimages, Respond, OnOffer, RecoverChannel, Enforce,
         OnPaymentResult, Possible, Disciplined, Honest, TrueReport;
    var h' := React(h, w, e).host;
    match e
    case Invoke(_, _, _, _) => InvokeIsQuiet(w, h, e, p);
    case StateMessage(_, _, _) => StateMessageIsQuiet(w, h, e, p);
    case Within(_, _) => WithinStaysQuiet(w, h, e, p);
    case Recover(peer, queryOutgoing, env) => RecoverIsQuiet(w, h, peer, queryOutgoing, env, p);
    case FulfillMessage(peer, r) => FulfillContinues(w, h, peer, r); ExtendedIsQuiet(w, h, h', p);
    case Offered(peer, o, env) => OfferContinues(w, h, peer, o, env); ExtendedIsQuiet(w, h, h', p);
    case Watchdog(peers, now) => EnforceContinues(w, h, peers, now); ExtendedIsQuiet(w, h, h', p);
    case PaymentReported(at, status) => PaymentContinues(w, h, at, status); ExtendedIsQuiet(w, h, h', p);
    case PreimagesReplied(preimages) => LearningIsApart(h, preimages); ApartContinues(w, h, h'); ExtendedIsQuiet(w, h, h', p);
    case _ => ApartContinues(w, h, h'); ExtendedIsQuiet(w, h, h', p);
  }

  // ---- The history of a channel ------------------------------------------------------------

  ghost predicate Undisturbed(trace: seq<Host>, es: seq<HostEvent>, p: Key, a: nat, b: nat)
    requires |trace| == |es| + 1 && a <= b <= |es|
  {
    && p in trace[a].channels
    && forall m :: a <= m < b && p in trace[m].channels && p in trace[m + 1].channels ==> !Disturbs(trace[m], es[m], trace[m + 1], p)
  }

  function DataOf(h: Host, p: Key): Option<ChannelData> {
    if p in h.channels then Some(h.channels[p].data) else None
  }

  /** The updates that the channel committed between two moments, in order. */
  ghost function Committed(trace: seq<Host>, p: Key, a: nat, b: nat): seq<Update>
    requires a <= b < |trace|
  {
    if a == b then []
    else
      var done, d, d' := Committed(trace, p, a, b - 1), DataOf(trace[b - 1], p), DataOf(trace[b], p);
      if d.Some? && d'.Some? && d'.value.lcss != d.value.lcss then done + d.value.uncommitted else done
  }

  /** Those, and the ones pending at the end. */
  ghost function History(trace: seq<Host>, p: Key, a: nat, b: nat): seq<Update>
    requires a <= b < |trace| && p in trace[b].channels
  {
    Committed(trace, p, a, b) + trace[b].channels[p].data.uncommitted
  }

  lemma {:induction false} QuietlyCommitted(l: Cross, done: seq<Update>, c: Hosted.Channel, c': Hosted.Channel)
    requires Quiet(c, c') && Invariant(c) && Fold(l, done).Ok? && NetOf(c.data.lcss) == NetOf(Fold(l, done).value)
    ensures var done' := if c'.data.lcss != c.data.lcss then done + c.data.uncommitted else done;
      && Fold(l, done').Ok? && NetOf(c'.data.lcss) == NetOf(Fold(l, done').value)
      && done + c.data.uncommitted <= done' + c'.data.uncommitted
  {
    hide SoundState, Fold, LocalOf, RemoteOf, AddsOf, Distinct, Increasing, KeysDistinct, HtlcsEncode;
    assert QueueSound(c.data.lcss, c.data.uncommitted);
    CommitsCompose(l, done, c.data.lcss, c.data.uncommitted);
  }

  /**
   * While nothing disturbs a channel, its stored state is what its committed updates make of the state at
   * the start, and its history only grows.
   */
  lemma {:induction false} HistoryFolds(trace: seq<Host>, es: seq<HostEvent>, w: World, p: Key, a: nat, b: nat)
    requires IsHostRun(trace, es, w) && a <= b < |trace| && Undisturbed(trace, es, p, a, b)
    ensures p in trace[b].channels
    ensures var l, done := trace[a].channels[p].data.lcss, Committed(trace, p, a, b);
      && Fold(l, done).Ok? && NetOf(trace[b].channels[p].data.lcss) == NetOf(Fold(l, done).value)
      && trace[a].channels[p].data.uncommitted <= History(trace, p, a, b)
  {
    hide HostInvariant, Invariant, React, Allowed, Disturbs, Quiet, Starts, Committed, Fold;
    if a < b {
      HistoryFolds(trace, es, w, p, a, b - 1);
      StepIsQuiet(trace, es, w, p, a, b - 1);
      QuietlyCommitted(trace[a].channels[p].data.lcss, Committed(trace, p, a, b - 1), trace[b - 1].channels[p], trace[b].channels[p]);
      CommittedStep(trace, p, a, b);
    } else {
      NothingCommittedYet(trace, p, a);
    }
  }

  lemma {:induction false} StepIsQuiet(trace: seq<Host>, es: seq<HostEvent>, w: World, p: Key, a: nat, m: nat)
    requires IsHostRun(trace, es, w) && a <= m < |es| && Undisturbed(trace, es, p, a, m + 1) && p in trace[m].channels
    ensures p in trace[m + 1].channels && Quiet(trace[m].channels[p], trace[m + 1].channels[p]) && Invariant(trace[m].channels[p])
  {
    hide HostInvariant, Invariant, React, Allowed, Disturbs, Quiet, Starts;
    ReachableHost(trace, es, w, m);
    assert trace[m + 1] == React(trace[m], w, es[m]).host;
    EventIsQuiet(w, trace[m], es[m], p);
    ChannelIsKept(w, trace[m], p);
  }

  lemma {:induction false} CommittedStep(trace: seq<Host>, p: Key, a: nat, b: nat)
    requires a < b < |trace| && p in trace[b - 1].channels && p in trace[b].channels
    ensures var d, d' := trace[b - 1].channels[p].data, trace[b].channels[p].data;
      Committed(trace, p, a, b) ==
      if d'.lcss != d.lcss then Committed(trace, p, a, b - 1) + d.uncommitted else Committed(trace, p, a, b - 1)
  {
  }

  lemma {:induction false} NothingCommittedYet(trace: seq<Host>, p: Key, a: nat)
    requires a < |trace| && p in trace[a].channels
    ensures var l := trace[a].channels[p].data.lcss;
      && Committed(trace, p, a, a) == [] && Fold(l, []) == Ok(l)
      && History(trace, p, a, a) == trace[a].channels[p].data.uncommitted
  {
  }

  // ---- Forwards ----------------------------------------------------------------------------

  /**
   * The `s`-th event is a state update with which the peer of `source` commits the HTLC; `mid` is the host
   * just before its dispatch, and that adds `g` to the channel `target`.
   */
  ghost predicate DispatchedIn(trace: seq<Host>, es: seq<HostEvent>, w: World, s: nat, n: nat, source: Key, mid: Host, htlc: Htlc,
                               target: Key, g: Htlc)
    requires |trace| == |es| + 1 && s < |es|
  {
    && es[s].StateMessage? && es[s].peer == source && source in trace[s].channels && source in trace[s].reachable
    && var c := trace[s].channels[source];
    && var reply := OnStateUpdate(c, KeysOf(w, source), es[s].msg, BlockDay(trace[s]));
    && var d := reply.channel.data;
    && reply.result.Ok? && CommitsQueue(c, reply.channel)
    && n < |d.lcss.incoming| && htlc == d.lcss.incoming[n] && !HasId(c.data.lcss.incoming, htlc.id)
    && Outcome(mid, Ok(())) == DispatchAll(Put(trace[s], source, reply.channel), w, source, c.data, d, d.lcss.incoming[..n], es[s].env)
    && DispatchAdds(mid, w, source, d, htlc, es[s].env(htlc.id), target, g)
  }

  /** After the event the source holds the HTLC, and the target's queue starts with what was pending and `g`. */
  lemma {:induction false} DispatchedLeads(trace: seq<Host>, es: seq<HostEvent>, w: World, s: nat, n: nat, source: Key, mid: Host, htlc: Htlc,
                                           target: Key, g: Htlc)
    requires IsHostRun(trace, es, w) && s < |es| && DispatchedIn(trace, es, w, s, n, source, mid, htlc, target, g)
    ensures source in trace[s + 1].channels && htlc in trace[s + 1].channels[source].data.lcss.incoming
    ensures target in mid.channels && target in trace[s + 1].channels
    ensures trace[s + 1].channels[target].data.lcss == mid.channels[target].data.lcss
    ensures mid.channels[target].data.uncommitted + [Local(Add(g))] <= trace[s + 1].channels[target].data.uncommitted
    ensures HostInvariant(w, mid)
    ensures htlc.amount - g.amount >= DemandedFee(RoutingFor(mid.channels[target].data, mid.policy), g.amount)
  {
    hide HostInvariant, Invariant, Tracked, OnStateUpdate, DispatchIncoming, DispatchAll, RelayFailures, Deduplicate, Continues, CommitsQueue, HasId,
         React, Allowed, Starts, RoutingFor, DemandedFee;
    var h, e := trace[s], es[s];
    var c := h.channels[source];
    var reply := OnStateUpdate(c, KeysOf(w, source), e.msg, BlockDay(h));
    var h1, d := Put(h, source, reply.channel), reply.channel.data;
    var hs := d.lcss.incoming;
    assert trace[s + 1] == OnStateMessage(h, w, source, e.msg, e.env).host by { ReactsTo(trace, es, w, s); }
    ReachableHost(trace, es, w, s);
    ChannelIsKept(w, h, source);
    StateUpdateKeeps(c, KeysOf(w, source), e.msg, BlockDay(h));
    StateUpdateMoves(c, KeysOf(w, source), e.msg, BlockDay(h));
    MovedKeeps(w, h, source, reply.channel);
    DispatchAllKeeps(w, h1, source, c.data, d, hs[..n], e.env);
    DispatchAllContinues(w, h1, source, c.data, d, hs[..n], e.env);
    DispatchSecuresFee(mid, w, source, reply.channel, htlc, e.env(htlc.id), target, g);
    var next := DispatchIncoming(mid, w, source, d, htlc, e.env(htlc.id)).host;
    DispatchContinues(w, mid, source, d, htlc, e.env(htlc.id));
    assert hs[..n + 1][..n] == hs[..n];
    assert DispatchAll(h1, w, source, c.data, d, hs[..n + 1], e.env).host == next by { NextDispatch(h1, w, source, c.data, d, hs, n, e.env, mid); }
    DispatchGoesOn(w, h1, source, c.data, d, hs, n + 1, e.env);
    var all := DispatchAll(h1, w, source, c.data, d, hs, e.env).host;
    RelayContinues(w, all, w.scidOf(source), Deduplicate(c.data.uncommitted), SideOf(h1, source));
    var end := RelayFailures(all, w, w.scidOf(source), Deduplicate(c.data.uncommitted), SideOf(h1, source)).host;
    assert trace[s + 1] == all || trace[s + 1] == end;
    ContinuesTwice(w, next, all, end);
    ContinuesTwice(w, mid, next, trace[s + 1]);
    ContinuesTwice(w, h1, mid, trace[s + 1]);
    StandingStays(w, h1, trace[s + 1], source);
    StandingStays(w, mid, next, target);
    StandingStays(w, next, trace[s + 1], target);
  }

  lemma {:induction false} ReactsTo(trace: seq<Host>, es: seq<HostEvent>, w: World, s: nat)
    requires IsHostRun(trace, es, w) && s < |es| && es[s].StateMessage?
    ensures trace[s + 1] == OnStateMessage(trace[s], w, es[s].peer, es[s].msg, es[s].env).host
  {
    hide OnStateMessage, Allowed, Starts;
  }

  lemma {:induction false} NextDispatch(h1: Host, w: World, source: Key, before: ChannelData, d: ChannelData, hs: seq<Htlc>, n: nat, env: U64 -> Env, mid: Host)
    requires n < |hs| && !HasId(before.lcss.incoming, hs[n].id)
    requires DispatchAll(h1, w, source, before, d, hs[..n], env) == Outcome(mid, Ok(()))
    ensures DispatchAll(h1, w, source, before, d, hs[..n + 1], env) == DispatchIncoming(mid, w, source, d, hs[n], env(hs[n].id))
  {
    hide DispatchIncoming, HasId;
    assert hs[..n + 1][..n] == hs[..n];
  }

  /** In a list without repeated ids an id names the HTLC that has it. */
  lemma {:induction false} MemberIsNamed(hs: seq<Htlc>, h: Htlc)
    requires Distinct(hs) && h in hs
    ensures Names(hs, h)
  {
    var i :| 0 <= i < |hs| && hs[i] == h;
    assert forall m :: 0 <= m < i ==> hs[m].id != h.id;
    PositionIs(hs, h.id, i);
  }

  lemma {:induction false} IncomingIsDistinct(c: Hosted.Channel)
    requires Invariant(c)
    ensures Distinct(c.data.lcss.incoming)
  {
    hide QueueSound, Sum;
  }

  /** The id that a channel gives next is not in use in any state its queue passes through to the end. */
  lemma {:induction false} NextIdIsUnused(c: Hosted.Channel, id: U64)
    requires Invariant(c) && id == NextHtlcId(c.data)
    ensures !HasId(Fold(c.data.lcss, c.data.uncommitted).value.outgoing, id)
  {
    hide SoundState, LocalOf, AddsOf, RemoteOf, KeysDistinct, HtlcsEncode, Distinct;
    var t, pool := Fold(c.data.lcss, c.data.uncommitted).value, Pool(c.data);
    forall i | 0 <= i < |t.outgoing|
      ensures t.outgoing[i].id != id
    {
      Origin(c.data.lcss, c.data.uncommitted, t.outgoing[i]);
      assert t.outgoing[i] in pool;
    }
  }

  /** The first resolutions of the two HTLCs among the committed updates, at `i` and `k`. */
  ghost predicate Resolves(qs: seq<Update>, i: nat, qt: seq<Update>, j: nat, k: nat, htlc: Htlc, g: Htlc) {
    && i < |qs| && ResolutionKey(qs[i]) == Some((true, htlc.id)) && Unresolved(qs, 0, i, true, htlc.id)
    && j < k < |qt| && ResolutionKey(qt[k]) == Some((false, g.id)) && Unresolved(qt, j + 1, k, false, g.id)
  }

  /** The run contains the life of the forward. */
  lemma {:induction false} RunHasForward(trace: seq<Host>, es: seq<HostEvent>, w: World, s: nat, n: nat, source: Key, mid: Host, htlc: Htlc,
                                         target: Key, g: Htlc, b: nat, i: nat, k: nat)
    requires IsHostRun(trace, es, w) && s < b < |trace| && DispatchedIn(trace, es, w, s, n, source, mid, htlc, target, g)
    requires Undisturbed(trace, es, source, s + 1, b) && Undisturbed(trace, es, target, s + 1, b) && target in mid.channels
    requires Resolves(Committed(trace, source, s + 1, b), i, Committed(trace, target, s + 1, b), |mid.channels[target].data.uncommitted|, k, htlc, g)
    ensures ForwardIn(trace[s + 1].channels[source].data.lcss, Committed(trace, source, s + 1, b), i,
                      trace[s + 1].channels[target].data.lcss, Committed(trace, target, s + 1, b),
                      |mid.channels[target].data.uncommitted|, k, htlc, g)
  {
    hide HostInvariant, Invariant, Tracked, React, Allowed, Starts, DispatchedIn, Undisturbed, Committed, Unresolved, Names, HasId, Fold,
         LocalOf, Distinct;
    DispatchedAdds(trace, es, w, s, n, source, mid, htlc, target, g);
    DispatchedLeads(trace, es, w, s, n, source, mid, htlc, target, g);
    HistoryFolds(trace, es, w, source, s + 1, b);
    HistoryFolds(trace, es, w, target, s + 1, b);
    ReachableHost(trace, es, w, s + 1);
    ChannelIsKept(w, trace[s + 1], source);
    IncomingIsDistinct(trace[s + 1].channels[source]);
    MemberIsNamed(trace[s + 1].channels[source].data.lcss.incoming, htlc);
    ChannelIsKept(w, mid, target);
    var q, qt := mid.channels[target].data.uncommitted, Committed(trace, target, s + 1, b);
    PrefixOfCommitted(q + [Local(Add(g))], trace[s + 1].channels[target].data.uncommitted, qt, trace[b].channels[target].data.uncommitted);
    PrefixLast(q, Local(Add(g)), qt);
    NextIdIsUnused(mid.channels[target], g.id);
  }

  lemma {:induction false} DispatchedAdds(trace: seq<Host>, es: seq<HostEvent>, w: World, s: nat, n: nat, source: Key, mid: Host, htlc: Htlc,
                                          target: Key, g: Htlc)
    requires |trace| == |es| + 1 && s < |es| && DispatchedIn(trace, es, w, s, n, source, mid, htlc, target, g)
    ensures target in mid.channels && g.id == NextHtlcId(mid.channels[target].data)
  {
    hide OnStateUpdate, DispatchIncoming, DispatchAll, CommitsQueue, HasId, PaysEnough, LocalOf;
    var c := trace[s].channels[source];
    var d := OnStateUpdate(c, KeysOf(w, source), es[s].msg, BlockDay(trace[s])).channel.data;
    DispatchedIsPaid(mid, w, source, d, htlc, es[s].env(htlc.id), target, g);
  }

  lemma {:induction false} PrefixOfCommitted(a: seq<Update>, q: seq<Update>, done: seq<Update>, rest: seq<Update>)
    requires a <= q && q <= done + rest && |a| <= |done|
    ensures a <= done
  {
    assert forall i :: 0 <= i < |a| ==> a[i] == q[i] == (done + rest)[i];
  }

  lemma {:induction false} NetIsBalance(l: Cross, l': Cross)
    requires NetOf(l) == NetOf(l')
    ensures l.localBalance == l'.localBalance && l.remoteBalance == l'.remoteBalance
  {
  }

  /**
   * In every run: a state update dispatches a committed HTLC to another hosted channel, nothing disturbs
   * the two channels up to a later moment, and by then both committed a fulfill of what the forward added.
   * Then the host's two stored balances rose, apart from what the other committed updates did, by exactly
   * the difference of the two amounts, and that covers the fee the target's policy demanded.
   */
  lemma {:induction false} ForwardEarnsFee(trace: seq<Host>, es: seq<HostEvent>, w: World, s: nat, n: nat, source: Key, mid: Host, htlc: Htlc,
                                           target: Key, g: Htlc, b: nat, i: nat, k: nat)
    requires IsHostRun(trace, es, w) && s < b < |trace| && DispatchedIn(trace, es, w, s, n, source, mid, htlc, target, g)
    requires Undisturbed(trace, es, source, s + 1, b) && Undisturbed(trace, es, target, s + 1, b) && target in mid.channels
    requires var qs, qt := Committed(trace, source, s + 1, b), Committed(trace, target, s + 1, b);
      && Resolves(qs, i, qt, |mid.channels[target].data.uncommitted|, k, htlc, g) && qs[i].u.Fulfill? && qt[k].u.Fulfill?
    ensures source in trace[s + 1].channels && target in trace[s + 1].channels && source in trace[b].channels && target in trace[b].channels
    ensures var l, l', qs := trace[s + 1].channels[source].data.lcss, trace[b].channels[source].data.lcss, Committed(trace, source, s + 1, b);
      var t, t', qt := trace[s + 1].channels[target].data.lcss, trace[b].channels[target].data.lcss, Committed(trace, target, s + 1, b);
      l'.localBalance + t'.localBalance ==
      l.localBalance + t.localBalance
      + GainWithout(l, qs, {i}, |qs|) + GainWithout(t, qt, {|mid.channels[target].data.uncommitted|, k}, |qt|)
      + (htlc.amount - g.amount)
    ensures htlc.amount - g.amount >= DemandedFee(RoutingFor(mid.channels[target].data, mid.policy), g.amount)
  {
    hide HostInvariant, React, Allowed, Starts, DispatchedIn, Undisturbed, Committed, Unresolved, ForwardIn, Fold, GainWithout, PeerGain, RoutingFor, DemandedFee;
    DispatchedLeads(trace, es, w, s, n, source, mid, htlc, target, g);
    RunHasForward(trace, es, w, s, n, source, mid, htlc, target, g, b, i, k);
    HistoryFolds(trace, es, w, source, s + 1, b);
    HistoryFolds(trace, es, w, target, s + 1, b);
    var l, qs := trace[s + 1].channels[source].data.lcss, Committed(trace, source, s + 1, b);
    var t, qt := trace[s + 1].channels[target].data.lcss, Committed(trace, target, s + 1, b);
    ForwardBalances(l, qs, i, t, qt, |mid.channels[target].data.uncommitted|, k, htlc, g);
    NetIsBalance(trace[b].channels[source].data.lcss, Fold(l, qs).value);
    NetIsBalance(trace[b].channels[target].data.lcss, Fold(t, qt).value);
  }

  /**
   * In every run, a forward that both channels committed as failed leaves no trace in the host's two
   * balances: they are what the other committed updates make them. The target's peer gained nothing, and
   * the peer that sent the HTLC has its whole amount back.
   */
  lemma {:induction false} FailedForwardRestores(trace: seq<Host>, es: seq<HostEvent>, w: World, s: nat, n: nat, source: Key, mid: Host, htlc: Htlc,
                                                 target: Key, g: Htlc, b: nat, i: nat, k: nat)
    requires IsHostRun(trace, es, w) && s < b < |trace| && DispatchedIn(trace, es, w, s, n, source, mid, htlc, target, g)
    requires Undisturbed(trace, es, source, s + 1, b) && Undisturbed(trace, es, target, s + 1, b) && target in mid.channels
    requires var qs, qt := Committed(trace, source, s + 1, b), Committed(trace, target, s + 1, b);
      && Resolves(qs, i, qt, |mid.channels[target].data.uncommitted|, k, htlc, g) && !qs[i].u.Fulfill? && !qt[k].u.Fulfill?
    ensures source in trace[s + 1].channels && target in trace[s + 1].channels && source in trace[b].channels && target in trace[b].channels
    ensures var l, qs := trace[s + 1].channels[source].data.lcss, Committed(trace, source, s + 1, b);
      && trace[b].channels[source].data.lcss.localBalance == l.localBalance + GainWithout(l, qs, {i}, |qs|)
      && PeerGain(l, qs, i) == htlc.amount
    ensures var t, qt, j := trace[s + 1].channels[target].data.lcss, Committed(trace, target, s + 1, b), |mid.channels[target].data.uncommitted|;
      && trace[b].channels[target].data.lcss.localBalance == t.localBalance + GainWithout(t, qt, {j, k}, |qt|)
      && PeerGain(t, qt, j) == 0 == PeerGain(t, qt, k)
  {
    hide HostInvariant, React, Allowed, Starts, DispatchedIn, Undisturbed, Committed, Unresolved, ForwardIn, Fold, GainWithout, PeerGain, RoutingFor, DemandedFee;
    DispatchedLeads(trace, es, w, s, n, source, mid, htlc, target, g);
    RunHasForward(trace, es, w, s, n, source, mid, htlc, target, g, b, i, k);
    HistoryFolds(trace, es, w, source, s + 1, b);
    HistoryFolds(trace, es, w, target, s + 1, b);
    var l, qs := trace[s + 1].channels[source].data.lcss, Committed(trace, source, s + 1, b);
    var t, qt := trace[s + 1].channels[target].data.lcss, Committed(trace, target, s + 1, b);
    ForwardBalances(l, qs, i, t, qt, |mid.channels[target].data.uncommitted|, k, htlc, g);
    NetIsBalance(trace[b].channels[source].data.lcss, Fold(l, qs).value);
    NetIsBalance(trace[b].channels[target].data.lcss, Fold(t, qt).value);
  }
}

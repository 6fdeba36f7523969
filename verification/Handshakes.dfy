/**
 * What each handler of one channel is for: exactly which messages it takes, and what the channel, its next
 * state and its terms then are.
 */
module Handshakes {
  import opened Base
  import opened State
  import opened StateLaws
  import opened HtlcIds
  import opened Hosted = Channel
  import opened ChannelLaws
  import opened ChannelRuns
  import opened ChannelTheorems

  // ---- Signatures --------------------------------------------------------------------------

  /** The state with both signatures: the peer's over the host's view, the host's over the peer's. */
  function CrossSignedBy(l: Cross, k: Keys, sig: Sig): Cross {
    l.(remoteSigOfLocal := sig, localSigOfRemote := Signed(k.host, CoveredOf(Reverse(l))))
  }

  lemma {:induction false} SigningIff(l: Cross, k: Keys, sig: Sig)
    ensures var s := l.(remoteSigOfLocal := sig);
      && (VerifyRemoteSig(s, k.peer) <==> Encodes(l) && sig == Signed(k.peer, CoveredOf(l)))
      && (Encodes(l) ==> SignWith(s, k.host) == Some(CrossSignedBy(l, k, sig)))
  {
    hide HtlcsEncode;
  }

  // ---- Opening -----------------------------------------------------------------------------

  /** The state a channel opens with: fresh counters, no HTLCs, the day the peer names. */
  function OpeningState(d: ChannelData, blockDay: U32): Cross {
    d.lcss.(blockDay := blockDay, localUpdates := 0, remoteUpdates := 0, incoming := [], outgoing := [])
  }

  /** A channel is opened exactly by the peer's signature of the opening state, its day off by at most one. */
  lemma {:induction false} OpeningIff(c: Hosted.Channel, k: Keys, msg: StateUpdate, day: U32)
    requires DeriveStatus(c.data) == Opening
    ensures var l := OpeningState(c.data, msg.blockDay);
      OnStateUpdate(c, k, msg, day) ==
        if msg.blockDay <= day + 1 && day <= msg.blockDay + 1 && Encodes(l) && msg.sig == Signed(k.peer, CoveredOf(l)) then
          Reply(c.(data := c.data.(lcss := CrossSignedBy(l, k, msg.sig), established := true), signed := c.signed + {CoveredOf(l)}), Ok(()))
        else Reply(c, Ok(()))
  {
    hide DeriveStatus, Encodes, VerifyRemoteSig, SignWith;
    SigningIff(OpeningState(c.data, msg.blockDay), k, msg.sig);
  }

  /** A new channel gives the client the balance of the policy, the host the rest of the capacity, and is not yet open. */
  lemma {:induction false} NewChannelSplits(p: Policy, refund: Bytes, fallback: Policy)
    requires p.initialClientBalance <= p.capacity
    ensures var d := NewChannel(p, refund).data;
      && d.lcss.remoteBalance == p.initialClientBalance && d.lcss.localBalance + d.lcss.remoteBalance == p.capacity
      && d.lcss.init == Init(p.maxInFlight, p.htlcMinimum, p.maxAccepted, p.capacity, p.initialClientBalance, [])
      && d.lcss.isHost && d.lcss.refund == d.refund == refund && d.lcss.incoming == d.lcss.outgoing == [] && d.uncommitted == []
      && RoutingFor(d, fallback) == Routing(p.feeBase, p.feePpm, p.cltvDelta, p.capacity)
      && DeriveStatus(d) == (if refund == [] then NotOpened else Opening)
  {
  }

  // ---- Commit ------------------------------------------------------------------------------

  /** The message is the peer's signature, of today, of the state that the queue leads to. */
  predicate Agrees(l: Cross, q: seq<Update>, k: Keys, msg: StateUpdate, day: U32) {
    match Fold(l, q)
    case Err(_) => false
    case Ok(next) =>
      && msg.localUpdates == next.remoteUpdates && msg.remoteUpdates == next.localUpdates && msg.blockDay == day
      && Encodes(next.(blockDay := day)) && msg.sig == Signed(k.peer, CoveredOf(next.(blockDay := day)))
  }

  /**
   * An active channel commits its repaired queue exactly when the message agrees with the state the queue
   * leads to; otherwise only the repair is kept.
   */
  lemma {:induction false} CommitIff(c: Hosted.Channel, k: Keys, msg: StateUpdate, day: U32)
    requires DeriveStatus(c.data) == Active
    ensures var q, got := Deduplicate(c.data.uncommitted), OnStateUpdate(c, k, msg, day);
      if q != [] && Agrees(c.data.lcss, q, k, msg, day) then
        var next := Fold(c.data.lcss, q).value.(blockDay := day);
        got == Reply(c.(data := c.data.(lcss := CrossSignedBy(next, k, msg.sig), uncommitted := []), signed := c.signed + {CoveredOf(next)}), Ok(()))
      else got.channel == c.(data := c.data.(uncommitted := q)) && (got.result.Err? ==> Fold(c.data.lcss, q).Err?)
  {
    hide DeriveStatus, Encodes, VerifyRemoteSig, SignWith, Deduplicate, Fold, LocalOf, RemoteOf;
    var q := Deduplicate(c.data.uncommitted);
    if Fold(c.data.lcss, q).Ok? {
      FoldKeepsHeader(c.data.lcss, q);
      SigningIff(Fold(c.data.lcss, q).value.(blockDay := day), k, msg.sig);
    }
  }

  /** A commit always shows: it moves a counter. */
  lemma {:induction false} CommitShows(c: Hosted.Channel, k: Keys, msg: StateUpdate, day: U32)
    requires DeriveStatus(c.data) == Active
    ensures var q := Deduplicate(c.data.uncommitted);
      OnStateUpdate(c, k, msg, day).channel.data.lcss != c.data.lcss <==> q != [] && Agrees(c.data.lcss, q, k, msg, day)
  {
    hide DeriveStatus, Encodes, OnStateUpdate, Deduplicate, Fold, LocalOf, RemoteOf;
    var q := Deduplicate(c.data.uncommitted);
    CommitIff(c, k, msg, day);
    if Fold(c.data.lcss, q).Ok? {
      FoldKeepsHeader(c.data.lcss, q);
      SidesPartition(q);
    }
  }

  /**
   * Two honest parties agree: a peer that folds both sides' updates in any order that folds, and signs the
   * result, makes the host store the mirror of the peer's state, on which the host's signature verifies.
   */
  lemma {:induction false} HonestCommitAgrees(c: Hosted.Channel, k: Keys, day: U32, peerQueue: seq<Update>)
    requires var q := Deduplicate(c.data.uncommitted);
      && DeriveStatus(c.data) == Active && q != [] && Fold(c.data.lcss, q).Ok?
      && LocalOf(peerQueue) == RemoteOf(q) && RemoteOf(peerQueue) == LocalOf(q) && Fold(Reverse(c.data.lcss), peerQueue).Ok?
      && Encodes(Fold(Reverse(c.data.lcss), peerQueue).value)
    ensures var mine := Fold(Reverse(c.data.lcss), peerQueue).value.(blockDay := day);
      var sig := Signed(k.peer, CoveredOf(Reverse(mine)));
      var got := OnStateUpdate(c, k, StateUpdate(day, mine.localUpdates, mine.remoteUpdates, sig), day);
      && got.result.Ok? && got.channel.data.uncommitted == []
      && got.channel.data.lcss == CrossSignedBy(Reverse(mine), k, sig)
      && VerifyRemoteSig(mine.(remoteSigOfLocal := got.channel.data.lcss.localSigOfRemote), k.host)
  {
    hide DeriveStatus, Deduplicate, Fold, LocalOf, RemoteOf, OnStateUpdate, Agrees, HtlcsEncode;
    var q := Deduplicate(c.data.uncommitted);
    var mine := Fold(Reverse(c.data.lcss), peerQueue).value.(blockDay := day);
    var msg := StateUpdate(day, mine.localUpdates, mine.remoteUpdates, Signed(k.peer, CoveredOf(Reverse(mine))));
    PeerComputesMirror(c.data.lcss, q, peerQueue);
    CommitIff(c, k, msg, day);
    MirrorAgrees(c.data.lcss, q, k, msg, day);
  }

  lemma {:induction false} MirrorAgrees(l: Cross, q: seq<Update>, k: Keys, msg: StateUpdate, day: U32)
    requires Fold(l, q).Ok? && Encodes(Reverse(Fold(l, q).value))
    requires var mine := Reverse(Fold(l, q).value).(blockDay := day);
      msg == StateUpdate(day, mine.localUpdates, mine.remoteUpdates, Signed(k.peer, CoveredOf(Reverse(mine))))
    ensures Agrees(l, q, k, msg, day)
    ensures Reverse(Reverse(Fold(l, q).value).(blockDay := day)) == Fold(l, q).value.(blockDay := day)
  {
    hide Fold, HtlcsEncode;
  }

  // ---- Override ----------------------------------------------------------------------------

  /** A proposed override is accepted exactly by the peer's signature, of today, of the proposed state. */
  lemma {:induction false} OverrideIff(c: Hosted.Channel, k: Keys, msg: StateUpdate, day: U32)
    requires DeriveStatus(c.data) == Overriding
    ensures var l, got := c.data.proposedOverride.value, OnStateUpdate(c, k, msg, day);
      if msg.localUpdates == l.remoteUpdates && msg.remoteUpdates == l.localUpdates && msg.blockDay == day
         && Encodes(l) && msg.sig == Signed(k.peer, CoveredOf(l)) then
        && got.result.Ok? && DeriveStatus(got.channel.data) == Active && CoveredOf(l) in got.channel.signed
        && got.channel.data == c.data.(lcss := CrossSignedBy(l, k, msg.sig), uncommitted := [], localErrors := [],
                                       remoteErrors := [], proposedOverride := None, established := true)
      else got == Reply(c, Ok(()))
  {
    hide Encodes, VerifyRemoteSig, SignWith, DroppedIds, UncountedIds;
    var l := c.data.proposedOverride.value;
    SigningIff(l, k, msg.sig);
    assert l.(remoteSigOfLocal := l.remoteSigOfLocal) == l;
  }

  /** The state an override proposes: no HTLCs, the balances, both counters one further. */
  predicate Proposes(d: ChannelData, d': ChannelData, k: Keys, init: Init, local: nat, remote: nat, day: U32) {
    && d'.proposedOverride.Some?
    && var l := d'.proposedOverride.value;
       && l.isHost && l.refund == d.refund && l.init == init && l.blockDay == day
       && l.localBalance == local && l.remoteBalance == remote && l.incoming == [] && l.outgoing == []
       && l.localUpdates == d.lcss.localUpdates + 1 && l.remoteUpdates == d.lcss.remoteUpdates + 1
       && l.localSigOfRemote == Signed(k.host, CoveredOf(Reverse(l))) && Encodes(l)
       && d'.localErrors != [] && d.localErrors <= d'.localErrors
  }

  lemma {:induction false} SigningProposes(c: Hosted.Channel, k: Keys, init: Init, local: U64, remote: U64, day: U32, d: ChannelData, why: Fault)
    requires d == c.data.(routing := d.routing, channelUpdatePending := d.channelUpdatePending)
    ensures var got := ProposeSigned(c, k, OverrideState(c.data, init, local, remote, day), d, why);
      if init.capacity <= OVERFLOW_MAX && init.initialClientBalance <= OVERFLOW_MAX && local <= OVERFLOW_MAX && remote <= OVERFLOW_MAX then
        && got.result.Ok? && Proposes(c.data, got.channel.data, k, init, local, remote, day)
        && got.channel.data == d.(proposedOverride := got.channel.data.proposedOverride, localErrors := got.channel.data.localErrors)
        && CoveredOf(got.channel.data.proposedOverride.value) in got.channel.signed
      else got == Reply(c, Err(EncodeFailed))
  {
  }

  /** The host may propose an override exactly for an errored channel, with any balance up to the capacity. */
  lemma {:induction false} ProposeOverrideIff(c: Hosted.Channel, k: Keys, newLocal: Option<U64>, day: U32)
    ensures var d, got := c.data, OnProposeOverride(c, k, newLocal, day);
      var local := if newLocal.Some? then newLocal.value else d.lcss.localBalance;
      if (DeriveStatus(d) == Errored || DeriveStatus(d) == Overriding) && local <= d.lcss.init.capacity
         && d.lcss.init.capacity <= OVERFLOW_MAX && d.lcss.init.initialClientBalance <= OVERFLOW_MAX then
        && got.result.Ok? && Proposes(d, got.channel.data, k, d.lcss.init, local, d.lcss.init.capacity - local, day)
        && got.channel.data == d.(proposedOverride := got.channel.data.proposedOverride, localErrors := got.channel.data.localErrors)
        && (!d.suspended ==> DeriveStatus(got.channel.data) == Overriding)
      else got.result.Err? && got.channel == c
  {
  }

  // ---- Updates of the peer -----------------------------------------------------------------

  /** The state that the queue leads to, or the error; in a sound channel it always folds. */
  function NextState(c: Hosted.Channel): Result<Cross, StateError> {
    Fold(c.data.lcss, c.data.uncommitted)
  }

  /**
   * An HTLC of the peer is taken exactly by an active channel in which its balance covers it, and moves its
   * amount from that balance into flight; one that is not covered is an error of the channel.
   */
  lemma {:induction false} PeerAddIff(c: Hosted.Channel, h: Htlc)
    requires NextState(c).Ok?
    ensures var got, next := OnUpdateAdd(c, h), NextState(c).value;
      if DeriveStatus(c.data) != Active then got == Reply(c, Ok(()))
      else if h.amount > next.remoteBalance then
        got == Reply(c.(data := c.data.(localErrors := c.data.localErrors + [AddAboveBalance])), Ok(()))
      else
        && got == Reply(c.(data := c.data.(uncommitted := c.data.uncommitted + [Remote(Add(h))])), Ok(()))
        && NextState(got.channel) == Ok(next.(remoteBalance := next.remoteBalance - h.amount, incoming := next.incoming + [h],
                                              remoteUpdates := next.remoteUpdates + 1))
  {
    hide DeriveStatus, Fold;
    Pushed(c.data.lcss, c.data.uncommitted, Remote(Add(h)));
  }

  /** A committed HTLC of the host, the first with its id, that nothing of the peer resolves yet. */
  predicate StillOpen(d: ChannelData, id: U64) {
    && (exists i :: 0 <= i < |d.lcss.outgoing| && d.lcss.outgoing[i].id == id)
    && forall i :: 0 <= i < |d.uncommitted| ==> ResolutionKey(d.uncommitted[i]) != Some((false, id))
  }

  /** Failures count on active and errored channels, the malformed kind not once the host missed a delivery. */
  lemma {:induction false} PeerFailIff(c: Hosted.Channel, r: PendingUpdate)
    requires r.Fail? || r.FailMalformed?
    ensures var got := if r.Fail? then OnUpdateFail(c, r) else OnUpdateFailMalformed(c, r);
      var heard := DeriveStatus(c.data) == Active || DeriveStatus(c.data) == Errored;
      if !heard || !StillOpen(c.data, r.id) || (r.FailMalformed? && DeliveryFailed in c.data.localErrors) then got == Reply(c, Ok(()))
      else if r.Fail? && r.reason == [] then
        got == Reply(c.(data := c.data.(localErrors := c.data.localErrors + [EmptyReason])), Ok(()))
      else got == Reply(c.(data := c.data.(uncommitted := c.data.uncommitted + [Remote(r)])), Ok(()))
  {
    hide DeriveStatus;
  }

  /** A failure that is taken gives the amount of the HTLC back to the host. */
  lemma {:induction false} FailureRefunds(c: Hosted.Channel, r: PendingUpdate)
    requires Invariant(c) && (r.Fail? || r.FailMalformed?) && StillOpen(c.data, r.id) && (r.Fail? ==> r.reason != [])
    requires DeriveStatus(c.data) == Active
    ensures Position(c.data.lcss.outgoing, r.id) < |c.data.lcss.outgoing|
    ensures var got := if r.Fail? then OnUpdateFail(c, r) else OnUpdateFailMalformed(c, r);
      && NextState(c).Ok? && NextState(got.channel).Ok?
      && NextState(got.channel).value.localBalance ==
           NextState(c).value.localBalance + c.data.lcss.outgoing[Position(c.data.lcss.outgoing, r.id)].amount
      && NextState(got.channel).value.remoteBalance == NextState(c).value.remoteBalance
  {
    hide Invariant, SoundState, QueueSound, Fold, Total;
    PeerFailIff(c, r);
    ActiveIsFaultless(c.data);
    ResolvingCommitted(c, r);
  }

  lemma {:induction false} ActiveIsFaultless(d: ChannelData)
    requires DeriveStatus(d) == Active
    ensures d.localErrors == [] && d.remoteErrors == [] && d.proposedOverride.None?
  {
  }

  lemma {:induction false} ResolvingCommitted(c: Hosted.Channel, r: PendingUpdate)
    requires Invariant(c) && !r.Add? && StillOpen(c.data, r.id)
    requires Position(c.data.lcss.outgoing, r.id) < |c.data.lcss.outgoing| ==>
      PreimageMatches(r, c.data.lcss.outgoing[Position(c.data.lcss.outgoing, r.id)])
    ensures var l, q := c.data.lcss, c.data.uncommitted;
      && Position(l.outgoing, r.id) < |l.outgoing| && Fold(l, q).Ok? && Fold(l, q + [Remote(r)]).Ok?
      && var t, t', amount := Fold(l, q).value, Fold(l, q + [Remote(r)]).value, l.outgoing[Position(l.outgoing, r.id)].amount;
         if r.Fulfill? then t'.remoteBalance == t.remoteBalance + amount && t'.localBalance == t.localBalance
         else t'.localBalance == t.localBalance + amount && t'.remoteBalance == t.remoteBalance
  {
    hide Fold, Sum, LocalOf, RemoteOf, AddsOf, Distinct, Increasing, AtMost, HtlcsEncode;
    var l, q := c.data.lcss, c.data.uncommitted;
    assert HasId(l.outgoing, r.id) && !HasKey(q, (false, r.id));
    CommittedStaysOpen(l, q, r.id);
    CommittedResolves(l, q, r);
    Pushed(l, q, Remote(r));
  }

  /** A fulfill that is taken pays the peer the amount of the HTLC. */
  lemma {:induction false} FulfillPays(c: Hosted.Channel, r: PendingUpdate)
    requires Invariant(c) && r.Fulfill? && StillOpen(c.data, r.id) && DeriveStatus(c.data) == Active
    requires Position(c.data.lcss.outgoing, r.id) < |c.data.lcss.outgoing| ==>
      c.data.lcss.outgoing[Position(c.data.lcss.outgoing, r.id)].paymentHash == SHA256(r.preimage)
    ensures Position(c.data.lcss.outgoing, r.id) < |c.data.lcss.outgoing|
    ensures var got := OnUpdateFulfill(c, r, true);
      && got == Reply(c.(data := c.data.(uncommitted := c.data.uncommitted + [Remote(r)])), Ok(()))
      && NextState(c).Ok? && NextState(got.channel).Ok?
      && NextState(got.channel).value.remoteBalance ==
           NextState(c).value.remoteBalance + c.data.lcss.outgoing[Position(c.data.lcss.outgoing, r.id)].amount
      && NextState(got.channel).value.localBalance == NextState(c).value.localBalance
  {
    hide Invariant, Fold;
    ActiveIsFaultless(c.data);
    ResolvingCommitted(c, r);
  }

  // ---- Updates of the host -----------------------------------------------------------------

  /** A direct payment is taken exactly when the host's balance covers it, under the next number. */
  lemma {:induction false} DirectPaymentIff(c: Hosted.Channel, k: Keys, h: Htlc, day: U32)
    requires CountersFit(c.data) && NextState(c).Ok?
    ensures var got, next := OnDirectPayment(c, k, h, day), NextState(c).value;
      var g := h.(id := c.data.lcss.localUpdates + |LocalOf(c.data.uncommitted)| + 1, channelId := k.channelId);
      var q := c.data.uncommitted + [Local(Add(g))];
      if DeriveStatus(c.data) == Active && h.amount <= next.localBalance && SignedNext(c.data.lcss, q, k, day).Ok? then
        && got.result.Ok?
        && got.channel == c.(data := c.data.(uncommitted := q), given := c.given + [Grant(g.id, g.paymentHash)], signed := got.channel.signed)
        && NextState(got.channel) == Ok(next.(localBalance := next.localBalance - h.amount, outgoing := next.outgoing + [g],
                                              localUpdates := next.localUpdates + 1))
      else got.channel == c && got.result.Err?
  {
    hide DeriveStatus, Fold, Encodes, LocalOf;
    var g := h.(id := NextHtlcId(c.data), channelId := k.channelId);
    Pushed(c.data.lcss, c.data.uncommitted, Local(Add(g)));
  }

  /** After a reconnect the host has signed, with today's day, the state that its repaired queue leads to. */
  lemma {:induction false} ReconnectSigns(c: Hosted.Channel, k: Keys, day: U32)
    ensures var q, got := Deduplicate(c.data.uncommitted), OnReconnect(c, k, day);
      && got.channel == c.(data := c.data.(uncommitted := q), signed := got.channel.signed)
      && (q != [] && Fold(c.data.lcss, q).Ok? && Encodes(Fold(c.data.lcss, q).value.(blockDay := day)) ==>
            got.result.Ok? && got.channel.signed == c.signed + {CoveredOf(Fold(c.data.lcss, q).value.(blockDay := day))})
      && (q == [] ==> got.result.Ok? && got.channel.signed == c.signed)
  {
    hide Fold, Deduplicate, HtlcsEncode;
  }

  // ---- Capacity and parameters -------------------------------------------------------------

  /**
   * A resize that is carried out takes or gives the difference of the capacities to the host's balance alone,
   * raises the in-flight limit and the routing maximum to the new capacity, and uses up the authorization.
   */
  lemma {:induction false} ResizeIff(c: Hosted.Channel, k: Keys, sat: U64, clientSigned: bool, fallback: Policy)
    ensures var got, d := OnResize(c, k, sat, clientSigned, fallback), c.data;
      if TakesResize(d, sat, clientSigned) then
        var d', before := got.channel.data, RoutingFor(d, fallback);
        && got.result.Ok? && d'.acceptingResizeSat == None && d'.channelUpdatePending
        && d'.lcss == d.lcss.(init := d.lcss.init.(capacity := sat * 1000, maxInFlight := sat * 1000),
                              localBalance := d'.lcss.localBalance, localSigOfRemote := Signed(k.host, CoveredOf(Reverse(d'.lcss))))
        && d'.lcss.localBalance - d.lcss.localBalance == d'.lcss.init.capacity - d.lcss.init.capacity
        && RoutingFor(d', fallback) == Routing(before.feeBase, before.feePpm, before.cltvDelta, sat * 1000)
        && d' == d.(lcss := d'.lcss, acceptingResizeSat := None, channelUpdatePending := true, routing := d'.routing)
        && got.channel.signed == c.signed + {CoveredOf(d'.lcss)}
      else got.channel == c
  {
    hide DeriveStatus, HtlcsEncode;
  }

  /** What the host last authorized is what a resize may ask for, once; without an authorization none goes through. */
  lemma {:induction false} ResizeNeedsAuthorization(c: Hosted.Channel, k: Keys, allowed: Option<U64>, sat: U64, again: U64, fallback: Policy)
    ensures var accepted := OnAcceptResize(c, allowed).channel;
      var resized := OnResize(accepted, k, sat, true, fallback).channel;
      && accepted == c.(data := c.data.(acceptingResizeSat := allowed))
      && (allowed.None? || sat > allowed.value ==> resized == accepted)
      && (resized != accepted ==> OnResize(resized, k, again, true, fallback).channel == resized)
  {
    hide DeriveStatus, Encodes, CoveredOf;
  }

  /** The routing policy of a channel keeps each field that the request does not name and takes each that it does. */
  predicate TakesRouting(before: Routing, p: Params, after: Routing) {
    && (if p.feeBase.Some? then after.feeBase == p.feeBase.value else after.feeBase == before.feeBase)
    && (if p.feePpm.Some? then after.feePpm == p.feePpm.value else after.feePpm == before.feePpm)
    && (if p.cltvDelta.Some? then after.cltvDelta == p.cltvDelta.value else after.cltvDelta == before.cltvDelta)
    && (if p.htlcMaximum.Some? then after.htlcMaximum == p.htlcMaximum.value else after.htlcMaximum == before.htlcMaximum)
  }

  /** So do the parameters of the state, whose limit in flight follows the capacity. */
  predicate TakesInit(before: Init, p: Params, after: Init) {
    && (if p.capacity.Some? then after.capacity == after.maxInFlight == p.capacity.value
        else after.capacity == before.capacity && after.maxInFlight == before.maxInFlight)
    && (if p.initialClientBalance.Some? then after.initialClientBalance == p.initialClientBalance.value
        else after.initialClientBalance == before.initialClientBalance)
    && (if p.htlcMinimum.Some? then after.htlcMinimum == p.htlcMinimum.value else after.htlcMinimum == before.htlcMinimum)
    && (if p.maxAccepted.Some? then after.maxAccepted == p.maxAccepted.value else after.maxAccepted == before.maxAccepted)
    && after.features == before.features
  }

  /** The request concerns the state and not only the routing policy. */
  predicate Concerned(p: Params) {
    p.capacity.Some? || p.initialClientBalance.Some? || p.htlcMinimum.Some? || p.maxAccepted.Some?
  }

  /** Nothing is committed or pending in the channel. */
  predicate Idle(d: ChannelData) {
    d.lcss.incoming == [] && d.lcss.outgoing == [] && d.uncommitted == []
  }

  /**
   * A change of parameters that goes through reaches the field of its own name, in the routing policy and in
   * the state it proposes, which gives the client what was asked for and the host the rest; an idle active
   * channel whose state is not concerned stays in service.
   */
  lemma {:induction false} SetChannelReaches(c: Hosted.Channel, k: Keys, p: Params, force: bool, day: U32, fallback: Policy)
    requires OnSetChannel(c, k, p, force, day, fallback).result.Ok? && p != Params(None, None, None, None, None, None, None, None)
    ensures var d, d' := c.data, OnSetChannel(c, k, p, force, day, fallback).channel.data;
      var routing := RoutingFor(d', fallback);
      && TakesRouting(RoutingFor(d, fallback), p, routing) && d'.routing == Some(routing) && d'.channelUpdatePending
      && d'.lcss == d.lcss && d'.uncommitted == d.uncommitted
      && (DeriveStatus(d) == Active ==> Idle(d) && (Concerned(p) ==> force))
      && if Concerned(p) || DeriveStatus(d) == Overriding then
           && d'.proposedOverride.Some? && DeriveStatus(d') == Overriding
           && var base, l := if DeriveStatus(d) == Overriding then d.proposedOverride.value else d.lcss, d'.proposedOverride.value;
              && TakesInit(base.init, p, l.init)
              && l.remoteBalance == (if p.initialClientBalance.Some? then p.initialClientBalance.value else base.remoteBalance)
              && l.remoteBalance <= l.init.capacity && l.init.initialClientBalance <= l.init.capacity
              && Proposes(d, d', k, l.init, l.init.capacity - l.remoteBalance, l.remoteBalance, day)
              && l.init.htlcMinimum <= routing.htlcMaximum <= l.init.capacity
         else
           DeriveStatus(d') == Active && d'.proposedOverride.None? && d.lcss.init.htlcMinimum <= routing.htlcMaximum <= d.lcss.init.capacity
  {
    hide CoveredOf, Encodes, ProposeSigned;
    var d := c.data;
    var base := if DeriveStatus(d) == Overriding then d.proposedOverride.value else d.lcss;
    var init, remote := NewInit(base.init, p), Or(p.initialClientBalance, base.remoteBalance);
    if remote <= init.capacity {
      SigningProposes(c, k, init, init.capacity - remote, remote, day, SetChannelData(d, p, fallback), ParameterOverride);
    }
  }

  /**
   * A change goes through exactly for an idle active channel, forced if it concerns the state, or for one
   * with an override proposed, provided the minimum, the maximum, the capacity and the client's share keep
   * their order.
   */
  lemma {:induction false} SetChannelIff(c: Hosted.Channel, k: Keys, p: Params, force: bool, day: U32, fallback: Policy, init: Init, routing: Routing)
    requires p != Params(None, None, None, None, None, None, None, None) && TakesRouting(RoutingFor(c.data, fallback), p, routing)
    requires var base := if DeriveStatus(c.data) == Overriding then c.data.proposedOverride.value else c.data.lcss; TakesInit(base.init, p, init)
    ensures var d, got := c.data, OnSetChannel(c, k, p, force, day, fallback);
      var status := DeriveStatus(d);
      var base := if status == Overriding then d.proposedOverride.value else d.lcss;
      var remote := if p.initialClientBalance.Some? then p.initialClientBalance.value else base.remoteBalance;
      && (got.result.Ok? <==>
           && (status == Overriding || (status == Active && Idle(d) && (Concerned(p) ==> force)))
           && init.htlcMinimum <= routing.htlcMaximum <= init.capacity
           && (Concerned(p) || status == Overriding ==>
                 init.initialClientBalance <= init.capacity && remote <= init.capacity <= OVERFLOW_MAX))
      && (got.result.Err? ==> got.channel == c)
  {
    hide CoveredOf, Encodes, ProposeSigned;
    var d := c.data;
    var base := if DeriveStatus(d) == Overriding then d.proposedOverride.value else d.lcss;
    var remote := Or(p.initialClientBalance, base.remoteBalance);
    assert NewInit(base.init, p) == init && NewRouting(RoutingFor(d, fallback), p) == routing;
    if remote <= init.capacity {
      SigningProposes(c, k, init, init.capacity - remote, remote, day, SetChannelData(d, p, fallback), ParameterOverride);
    }
  }

  // ---- Reconciliation ----------------------------------------------------------------------

  /**
   * The peer's state is adopted exactly when the host's own signature and the peer's verify on it and it is
   * ahead: no counter lower and one higher. A wrong signature is an error of the channel.
   */
  lemma {:induction false} AdoptionIff(c: Hosted.Channel, k: Keys, msg: Cross)
    ensures var d, got, mine := c.data, OnLcss(c, k, msg), Reverse(msg);
      var own, others := Encodes(msg) && msg.remoteSigOfLocal == Signed(k.host, CoveredOf(msg)), msg.localSigOfRemote == Signed(k.peer, CoveredOf(mine));
      if !own || !others then
        && got.result.Err?
        && got.channel == c.(data := d.(localErrors := d.localErrors + [if own then PeerSignatureWrong else OwnSignatureWrong]))
      else if mine.localUpdates >= d.lcss.localUpdates && mine.remoteUpdates >= d.lcss.remoteUpdates
              && mine.localUpdates + mine.remoteUpdates > d.lcss.localUpdates + d.lcss.remoteUpdates then
        got.result.Ok? && got.channel.data == d.(lcss := mine, uncommitted := []) && got.channel.signed == c.signed
      else got == Reply(c, Ok(()))
  {
    hide DroppedIds, UncountedIds, HtlcsEncode;
  }
}

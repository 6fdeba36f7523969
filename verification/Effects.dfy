/**
 * What the handlers of the host achieve, told without their parts: which HTLC is resolved and with what,
 * which link goes, which HTLC is added and when, and whom an answer reaches.
 */
module Effects {
  import opened Base
  import opened State
  import opened StateLaws
  import opened HtlcIds
  import opened Hosted = Channel
  import opened ChannelRuns
  import opened ChannelIds
  import opened Forwarding
  import opened ForwardingLaws
  import opened HostRuns
  import opened HostSteps

  // ---- Resolutions -------------------------------------------------------------------------

  /** The resolution that carries an answer to the HTLC of the peer with this id. */
  function Told(channelId: Bytes32, id: U64, answer: Answer): Update
    requires !answer.FailCode?
  {
    Local(if answer.Settle? then Fulfill(channelId, id, answer.preimage) else Fail(channelId, id, answer.failure))
  }

  /** One queue grows by one update, signed or not; channels, calls and preimages stay otherwise. */
  predicate Queues(h: Host, h': Host, s: Key, u: Update) {
    && s in h.channels && s in h'.channels
    && h' == h.(channels := h'.channels, links := h'.links)
    && h'.channels == h.channels[s := h.channels[s].(
         data := h.channels[s].data.(uncommitted := h.channels[s].data.uncommitted + [u]), signed := h'.channels[s].signed)]
  }

  /** One call is made, for the offer that the link serves and at the place it came from. */
  predicate Calls(h: Host, h': Host, link: ForwardLink, answer: Answer) {
    && h' == h.(calls := h'.calls, links := h'.links)
    && |h'.calls| == |h.calls| + 1 && h.calls <= h'.calls
    && var c := h'.calls[|h.calls|]; c.offer == link.offer && c.place == link.incoming && c.answer == answer
  }

  ghost predicate FirstBehind(h: Host, w: World, s: Key, scid: nat) {
    && s in h.channels && w.scidOf(s) == scid
    && forall q :: q in h.channels && w.scidOf(q) == scid ==> s <= q
  }

  /**
   * The link goes and its answer reaches exactly the HTLC it came from: in the queue of the hosted
   * channel that still has that HTLC committed, or by a call when it came over a normal channel.
   */
  ghost predicate Settles(w: World, h: Host, h': Host, at: Place, answer: Answer)
    requires !answer.FailCode?
  {
    && at in h.links && h'.links == h.links - {at}
    && var from := h.links[at].incoming;
       && (forall s: Key :: FirstBehind(h, w, s, from.0) ==>
             if HasId(h.channels[s].data.lcss.incoming, from.1)
             then Queues(h, h', s, Told(w.channelIdOf(s), from.1, answer))
             else h' == h.(links := h'.links))
       && (!Hosts(h, w, from.0) ==> Calls(h, h', h.links[at], answer))
  }

  /** The queue with the update folds to a state that can be signed. */
  predicate Signable(h: Host, w: World, s: Key, u: Update) {
    s in h.channels && SignedNext(h.channels[s].data.lcss, h.channels[s].data.uncommitted + [u], KeysOf(w, s), BlockDay(h)).Ok?
  }

  /** A resolution goes out when it can be signed and the peer is there. */
  predicate GoesOut(h: Host, w: World, s: Key, u: Update) {
    s in h.reachable && Signable(h, w, s, u)
  }

  /** A resolution that does not go out is stored all the same, if it can be signed. */
  predicate StoresOnly(h: Host, w: World, h': Host, s: Key, u: Update) {
    h'.links == h.links && if Signable(h, w, s, u) then Queues(h, h', s, u) else h' == h
  }

  lemma {:induction false} FirstIsPeerFor(h: Host, w: World, scid: nat)
    ensures Hosts(h, w, scid) <==> PeerFor(h, w, scid).Some?
    ensures forall s: Key :: FirstBehind(h, w, s, scid) <==> PeerFor(h, w, scid) == Some(s)
  {
    forall s: Key | FirstBehind(h, w, s, scid)
      ensures PeerFor(h, w, scid) == Some(s)
    {
      assert Hosts(h, w, scid);
    }
  }

  lemma {:induction false} SendingQueues(h: Host, w: World, s: Key, r: PendingUpdate)
    requires !r.Add? && s in h.channels
    ensures var out := SendLocal(h, w, s, r);
      if HasId(h.channels[s].data.lcss.incoming, r.id) then
        && (out.result.Ok? <==> GoesOut(h, w, s, Local(r)))
        && (out.result.Ok? ==> Queues(h, out.host, s, Local(r)))
        && StoresOnly(h, w, out.host, s, Local(r))
      else out == Outcome(h, Ok(()))
    ensures SendLocal(h, w, s, r).host.links == h.links
  {
    hide SignedNext, HasId;
    PutBack(h, s);
  }

  /** The answer goes out at once over a normal channel, and to a hosted one if its resolution does. */
  ghost predicate AnswerPasses(h: Host, w: World, from: Place, answer: Answer)
    requires !answer.FailCode?
  {
    forall s: Key :: FirstBehind(h, w, s, from.0) ==>
      HasId(h.channels[s].data.lcss.incoming, from.1) ==> GoesOut(h, w, s, Told(w.channelIdOf(s), from.1, answer))
  }

  /** The answer to the link at this place, if there is one, passes and settles it, or fails and leaves it. */
  ghost predicate Answers(w: World, h: Host, got: Outcome, at: Place, answer: Answer)
    requires !answer.FailCode?
  {
    if at in h.links then
      && (got.result.Ok? <==> AnswerPasses(h, w, h.links[at].incoming, answer))
      && (if got.result.Ok? then Settles(w, h, got.host, at, answer) else Keeps(w, h, got.host, h.links[at].incoming, answer))
    else got == Outcome(h, Ok(()))
  }

  /** An answer that does not pass leaves the link; its resolution stays stored if it can be signed. */
  ghost predicate Keeps(w: World, h: Host, h': Host, from: Place, answer: Answer)
    requires !answer.FailCode?
  {
    forall s: Key :: FirstBehind(h, w, s, from.0) ==> StoresOnly(h, w, h', s, Told(w.channelIdOf(s), from.1, answer))
  }

  predicate Conveys(r: PendingUpdate, answer: Answer) {
    match answer
    case Settle(p) => r.Fulfill? && r.preimage == p
    case FailOnion(f) => r.Fail? && r.reason == f
    case FailCode(_) => false
  }

  lemma {:induction false} ResolvingSettles(h: Host, w: World, at: Place, r: PendingUpdate, side: Side, answer: Answer)
    requires Conveys(r, answer)
    ensures Answers(w, h, ResolveForward(h, w, at, r, side), at, answer)
  {
    hide SendLocal, GoesOut, FirstBehind;
    if at in h.links {
      var link := h.links[at];
      FirstIsPeerFor(h, w, link.incoming.0);
      if Hosts(h, w, link.incoming.0) {
        var s := PeerFor(h, w, link.incoming.0).value;
        var r' := Addressed(r, w.channelIdOf(s), link.incoming.1);
        SendingQueues(h, w, s, r');
        assert Local(r') == Told(w.channelIdOf(s), link.incoming.1, answer);
      }
    }
  }

  /** The failure as the sender of the upstream HTLC gets it: wrapped, if the link knows a secret shared with it. */
  function Wrapped(w: World, link: ForwardLink, failure: Bytes): (answer: Answer)
    ensures answer.FailOnion?
  {
    match link.sharedSecret
    case Some(secret) => FailOnion(w.wrap(secret, failure))
    case None => FailOnion(failure)
  }

  lemma {:induction false} FailingSettles(h: Host, w: World, at: Place, failure: Bytes, side: Side)
    ensures var out := ResolveFail(h, w, at, failure, side);
      if at in h.links then Answers(w, h, out, at, Wrapped(w, h.links[at], failure)) else out == Outcome(h, Ok(()))
  {
    hide ResolveForward, AnswerPasses, Settles;
    var reason := if at in h.links then WrapFailure(w, h.links[at], failure) else failure;
    ResolvingSettles(h, w, at, Fail(w.channelIdOf(0), 0, reason), side, FailOnion(reason));
  }

  // ---- Fulfills and reports ----------------------------------------------------------------

  /** The fulfill resolves this committed HTLC, the first with its id, for the first time and before its deadlines. */
  predicate Earns(d: ChannelData, r: PendingUpdate, out: Htlc)
    requires r.Fulfill?
  {
    && (DeriveStatus(d) == Active || DeriveStatus(d) == Errored)
    && DeliveryFailed !in d.localErrors && HtlcExpired !in d.localErrors
    && (forall i :: 0 <= i < |d.uncommitted| ==> ResolutionKey(d.uncommitted[i]) != Some((false, r.id)))
    && Position(d.lcss.outgoing, r.id) < |d.lcss.outgoing| && d.lcss.outgoing[Position(d.lcss.outgoing, r.id)] == out
    && SHA256(r.preimage) == out.paymentHash
  }

  lemma {:induction false} EarnsIsAccepted(d: ChannelData, r: PendingUpdate)
    requires r.Fulfill?
    ensures Accepts(d, r) <==> exists out :: Earns(d, r, out)
    ensures forall out :: Earns(d, r, out) ==> d.lcss.outgoing[Position(d.lcss.outgoing, r.id)] == out
  {
    hide DeriveStatus;
    HasIdIsPosition(d.lcss.outgoing, r.id);
    if Accepts(d, r) {
      assert Earns(d, r, d.lcss.outgoing[Position(d.lcss.outgoing, r.id)]);
    }
  }

  /** The HTLC that the link leads to, if it came over a normal channel, can still be claimed after this one. */
  ghost predicate LeavesTime(h: Host, w: World, peer: Key, out: Htlc)
    requires peer in h.channels
  {
    var at := (w.scidOf(peer), out.id);
    at in h.links && !Hosts(h, w, h.links[at].incoming.0) ==>
      && h.links[at].upstreamExpiry.Some? && h.height < out.cltvExpiry
      && out.cltvExpiry + RoutingFor(h.channels[peer].data, h.policy).cltvDelta <= h.links[at].upstreamExpiry.value
  }

  /** The height needed to claim the upstream HTLC is more than 32 bits can hold. */
  ghost predicate Overflows(h: Host, w: World, peer: Key, out: Htlc)
    requires peer in h.channels
  {
    var at := (w.scidOf(peer), out.id);
    && at in h.links && !Hosts(h, w, h.links[at].incoming.0) && h.links[at].upstreamExpiry.Some?
    && out.cltvExpiry + RoutingFor(h.channels[peer].data, h.policy).cltvDelta >= 0x1_0000_0000
  }

  /** The verdict on a settlement: there is time, there is none, or the sum overflows. */
  lemma {:induction false} SafeIff(h: Host, w: World, peer: Key, out: Htlc)
    requires peer in h.channels
    ensures SettlementIsSafe(h, w, peer, out) ==
      if Overflows(h, w, peer, out) then Err(InvalidMessage) else Ok(LeavesTime(h, w, peer, out))
    ensures Overflows(h, w, peer, out) ==> !LeavesTime(h, w, peer, out)
  {
    hide RoutingFor;
  }

  /** The host once it has stored the fulfill and its preimage. */
  function Taken(h: Host, peer: Key, r: PendingUpdate): Host
    requires peer in h.channels && r.Fulfill?
  {
    var c := h.channels[peer];
    h.(channels := h.channels[peer := c.(data := c.data.(uncommitted := c.data.uncommitted + [Remote(r)]))],
       preimages := h.preimages[SHA256(r.preimage) := r.preimage])
  }

  lemma {:induction false} TakingPushes(c: Hosted.Channel, r: PendingUpdate, out: Htlc, safe: bool)
    requires r.Fulfill? && Earns(c.data, r, out)
    ensures OnUpdateFulfill(c, r, safe).channel == if safe then Push(c, Remote(r)) else MarkErrored(c, FulfillTooLate)
  {
    hide DeriveStatus;
    HasIdIsPosition(c.data.lcss.outgoing, r.id);
  }

  /**
   * A fulfill that resolves an HTLC of the host while there is time is stored with its preimage, and then
   * settles exactly the HTLC that its link leads to.
   */
  lemma {:induction false} FulfillSettles(h: Host, w: World, peer: Key, r: PendingUpdate, out: Htlc)
    requires peer in h.channels && r.Fulfill? && Earns(h.channels[peer].data, r, out) && LeavesTime(h, w, peer, out)
    ensures Answers(w, Taken(h, peer, r), OnFulfill(h, w, peer, r), (w.scidOf(peer), r.id), Settle(r.preimage))
  {
    hide Earns, LeavesTime, Accepts, SettlementIsSafe, OnUpdateFulfill, ResolveForward, Answers;
    var c := h.channels[peer];
    EarnsIsAccepted(c.data, r);
    EarnsIsFirst(c.data, r, out);
    SafeIff(h, w, peer, out);
    TakingPushes(c, r, out, true);
    var taken := Taken(h, peer, r);
    ResolvingSettles(taken, w, (w.scidOf(peer), r.id), Fulfill(w.channelIdOf(0), 0, r.preimage), SideOf(h, peer), Settle(r.preimage));
  }

  lemma {:induction false} EarnsIsFirst(d: ChannelData, r: PendingUpdate, out: Htlc)
    requires r.Fulfill? && Earns(d, r, out)
    ensures Position(d.lcss.outgoing, r.id) < |d.lcss.outgoing| && d.lcss.outgoing[Position(d.lcss.outgoing, r.id)] == out && out.id == r.id
  {
    hide DeriveStatus;
  }

  /** Without time left, the fulfill of a committed HTLC settles nothing and errors the channel. */
  lemma {:induction false} FulfillTooLateIsRefused(h: Host, w: World, peer: Key, r: PendingUpdate, out: Htlc)
    requires peer in h.channels && r.Fulfill? && Earns(h.channels[peer].data, r, out) && !LeavesTime(h, w, peer, out)
    ensures var c := h.channels[peer];
      OnFulfill(h, w, peer, r) ==
        if Overflows(h, w, peer, out) then Outcome(h, Err(InvalidMessage))
        else Outcome(h.(channels := h.channels[peer := c.(data := c.data.(localErrors := c.data.localErrors + [FulfillTooLate]))]), Ok(()))
  {
    hide Earns, LeavesTime, Overflows, Accepts, SettlementIsSafe, OnUpdateFulfill, ResolveForward;
    var c := h.channels[peer];
    EarnsIsAccepted(c.data, r);
    EarnsIsFirst(c.data, r, out);
    SafeIff(h, w, peer, out);
    TakingPushes(c, r, out, false);
  }

  /** Any other fulfill is ignored. */
  lemma {:induction false} OtherFulfillsAreIgnored(h: Host, w: World, peer: Key, r: PendingUpdate)
    requires peer in h.channels && r.Fulfill? && forall out :: !Earns(h.channels[peer].data, r, out)
    ensures OnFulfill(h, w, peer, r) == Outcome(h, Ok(()))
  {
    hide Earns, Accepts, SettlementIsSafe, OnUpdateFulfill, ResolveForward;
    EarnsIsAccepted(h.channels[peer].data, r);
  }

  /** A report about an onion settles or fails exactly the hosted HTLC its link came from. */
  lemma {:induction false} ReportSettles(h: Host, w: World, at: Place, status: PaymentStatus)
    ensures var got := OnPaymentResult(h, w, at, status);
      if at in h.links && Hosts(h, w, h.links[at].incoming.0) && (status.Succeeded? || status.Failed?) then
        var link := h.links[at];
        var answer := if status.Succeeded? then Settle(status.preimage) else Wrapped(w, link, status.failure);
        var known := if status.Succeeded? then h.(preimages := h.preimages[link.paymentHash := status.preimage]) else h;
        Answers(w, known, got, at, answer)
      else got == Outcome(h, Ok(()))
  {
    hide SendLocal, GoesOut, FirstBehind;
    if at in h.links && Hosts(h, w, h.links[at].incoming.0) && (status.Succeeded? || status.Failed?) {
      var link := h.links[at];
      var s := PeerFor(h, w, link.incoming.0).value;
      var answer := if status.Succeeded? then Settle(status.preimage) else Wrapped(w, link, status.failure);
      var known := if status.Succeeded? then h.(preimages := h.preimages[link.paymentHash := status.preimage]) else h;
      var r := if status.Succeeded? then Fulfill(w.channelIdOf(s), link.incoming.1, status.preimage)
               else Fail(w.channelIdOf(s), link.incoming.1, WrapFailure(w, link, status.failure));
      FirstIsPeerFor(h, w, link.incoming.0);
      FirstIsPeerFor(known, w, link.incoming.0);
      assert forall q: Key :: FirstBehind(known, w, q, link.incoming.0) <==> FirstBehind(h, w, q, link.incoming.0) by { SameFirst(h, known, w, link.incoming.0); }
      SendingQueues(known, w, s, r);
      assert Local(r) == Told(w.channelIdOf(s), link.incoming.1, answer);
    }
  }

  lemma {:induction false} SameFirst(h: Host, h': Host, w: World, scid: nat)
    requires h'.channels.Keys == h.channels.Keys
    ensures forall q: Key :: FirstBehind(h', w, q, scid) <==> FirstBehind(h, w, q, scid)
    ensures Hosts(h', w, scid) <==> Hosts(h, w, scid)
  {
    assert forall q :: q in h.channels <==> q in h'.channels;
  }

  // ---- Answers along a pass ----------------------------------------------------------------

  predicate QueuedSince(q: seq<Update>, q': seq<Update>, u: Update) {
    exists i :: |q| <= i < |q'| && q'[i] == u
  }

  predicate CalledSince(calls: seq<Call>, calls': seq<Call>, link: ForwardLink, answer: Answer) {
    exists i :: |calls| <= i < |calls'| && calls'[i].offer == link.offer && calls'[i].place == link.incoming && calls'[i].answer == answer
  }

  /** Between two moments the answer reached the HTLC that the link came from. */
  ghost predicate PassedOn(w: World, h: Host, h': Host, link: ForwardLink, answer: Answer)
    requires !answer.FailCode?
  {
    && (forall s: Key :: FirstBehind(h, w, s, link.incoming.0) && HasId(h.channels[s].data.lcss.incoming, link.incoming.1) ==>
          s in h'.channels && QueuedSince(h.channels[s].data.uncommitted, h'.channels[s].data.uncommitted,
                                          Told(w.channelIdOf(s), link.incoming.1, answer)))
    && (!Hosts(h, w, link.incoming.0) ==> CalledSince(h.calls, h'.calls, link, answer))
  }

  lemma {:induction false} SettledIsPassedOn(w: World, h: Host, h': Host, at: Place, answer: Answer)
    requires !answer.FailCode? && Settles(w, h, h', at, answer)
    ensures at !in h'.links && PassedOn(w, h, h', h.links[at], answer)
  {
    hide FirstBehind, HasId;
    var from := h.links[at].incoming;
    forall s: Key | s in h.channels && FirstBehind(h, w, s, from.0) && HasId(h.channels[s].data.lcss.incoming, from.1)
      ensures s in h'.channels
      ensures QueuedSince(h.channels[s].data.uncommitted, h'.channels[s].data.uncommitted, Told(w.channelIdOf(s), from.1, answer))
    {
      var n := |h.channels[s].data.uncommitted|;
      assert h'.channels[s].data.uncommitted[n] == Told(w.channelIdOf(s), from.1, answer);
    }
    if !Hosts(h, w, from.0) {
      assert h'.calls[|h.calls|].offer == h.links[at].offer;
    }
  }

  /** An answer passed on in the middle was passed on, looked at from earlier and later. */
  lemma {:induction false} PassedOnWider(w: World, h: Host, h1: Host, h2: Host, h': Host, link: ForwardLink, answer: Answer)
    requires !answer.FailCode? && PassedOn(w, h1, h2, link, answer)
    requires Continues(w, h, h1) && Continues(w, h2, h')
    ensures PassedOn(w, h, h', link, answer)
  {
    hide PoolFrom, NewLinksServed, HasId, Told;
    SameFirst(h, h1, w, link.incoming.0);
    var id := link.incoming.1;
    forall s: Key | s in h.channels && FirstBehind(h, w, s, link.incoming.0) && HasId(h.channels[s].data.lcss.incoming, id)
      ensures s in h'.channels
      ensures QueuedSince(h.channels[s].data.uncommitted, h'.channels[s].data.uncommitted, Told(w.channelIdOf(s), id, answer))
    {
      assert Extends(h.channels[s], h1.channels[s]) && Extends(h2.channels[s], h'.channels[s]);
      var i :| |h1.channels[s].data.uncommitted| <= i < |h2.channels[s].data.uncommitted|
               && h2.channels[s].data.uncommitted[i] == Told(w.channelIdOf(s), id, answer);
      assert h'.channels[s].data.uncommitted[i] == h2.channels[s].data.uncommitted[i];
    }
    if !Hosts(h, w, link.incoming.0) {
      var i :| |h1.calls| <= i < |h2.calls| && h2.calls[i].offer == link.offer && h2.calls[i].place == link.incoming
               && h2.calls[i].answer == answer;
      assert h'.calls[i] == h2.calls[i] && |h.calls| <= i;
      assert CalledSince(h.calls, h'.calls, link, answer);
    }
  }

  // ---- The watchdog ------------------------------------------------------------------------

  /** The link of a pending HTLC of the host whose commit deadline has passed. */
  predicate OverdueAt(h: Host, w: World, p: Key, at: Place, now: nat)
    requires p in h.channels
  {
    var q := h.channels[p].data.uncommitted;
    && at in h.links && h.links[at].commitDeadline.Some? && h.links[at].commitDeadline.value <= now
    && at.0 == w.scidOf(p) && exists i :: 0 <= i < |q| && q[i].Local? && q[i].u.Add? && q[i].u.htlc.id == at.1
  }

  /** The link of a committed HTLC of the host that expired, when the upstream HTLC can expire too. */
  predicate ExpiredAt(h: Host, w: World, p: Key, at: Place)
    requires p in h.channels
  {
    var hs := h.channels[p].data.lcss.outgoing;
    && at in h.links && h.links[at].upstreamExpiry.Some?
    && at.0 == w.scidOf(p) && exists i :: 0 <= i < |hs| && hs[i].id == at.1 && hs[i].cltvExpiry <= h.height
  }

  function Faulted(h: Host, p: Key, fault: Fault): Host
    requires p in h.channels
  {
    var c := h.channels[p];
    h.(channels := h.channels[p := c.(data := c.data.(localErrors := c.data.localErrors + [fault]))])
  }

  lemma {:induction false} FirstLate(h: Host, w: World, p: Key, now: nat)
    requires p in h.channels
    ensures var d := h.channels[p].data;
      var i, j := FirstOverdue(h.links, w.scidOf(p), d.uncommitted, now), FirstExpired(h.links, w.scidOf(p), d.lcss.outgoing, h.height);
      && (if i < |d.uncommitted| then OverdueAt(h, w, p, (w.scidOf(p), d.uncommitted[i].u.htlc.id), now)
          else forall at :: !OverdueAt(h, w, p, at, now))
      && (if j < |d.lcss.outgoing| then ExpiredAt(h, w, p, (w.scidOf(p), d.lcss.outgoing[j].id))
          else forall at :: !ExpiredAt(h, w, p, at))
  {
  }

  /**
   * One channel of the pass: if a pending HTLC is overdue or a committed one expired, the channel gets the
   * error and the upstream HTLC behind one such HTLC fails with the code for it; otherwise nothing happens.
   */
  lemma {:induction false} WatchdogFailsOne(h: Host, w: World, p: Key, now: nat) returns (at: Place)
    requires p in h.channels && DeriveStatus(h.channels[p].data) == Active
    ensures var got := EnforceOne(h, w, p, now);
      if exists b :: OverdueAt(h, w, p, b, now) then
        OverdueAt(h, w, p, at, now) && Answers(w, Faulted(h, p, DeliveryFailed), got, at, Wrapped(w, h.links[at], [0x10, 0x07]))
      else if exists b :: ExpiredAt(h, w, p, b) then
        ExpiredAt(h, w, p, at) && Answers(w, Faulted(h, p, HtlcExpired), got, at, Wrapped(w, h.links[at], [0x40, 0x08]))
      else got == Outcome(h, Ok(()))
  {
    hide DeriveStatus, OverdueAt, ExpiredAt, Answers, ResolveFail, Wrapped;
    var d, scid := h.channels[p].data, w.scidOf(p);
    var i, j := FirstOverdue(h.links, scid, d.uncommitted, now), FirstExpired(h.links, scid, d.lcss.outgoing, h.height);
    FirstLate(h, w, p, now);
    at := (0, 0);
    if i < |d.uncommitted| {
      at := (scid, d.uncommitted[i].u.htlc.id);
      LateIsLinked(h, w, p, at, now);
      FailingSettles(Faulted(h, p, DeliveryFailed), w, at, TEMPORARY_FAILURE, SideOf(h, p));
    } else if j < |d.lcss.outgoing| {
      at := (scid, d.lcss.outgoing[j].id);
      LateIsLinked(h, w, p, at, now);
      FailingSettles(Faulted(h, p, HtlcExpired), w, at, PERMANENT_FAILURE, SideOf(h, p));
    }
  }

  lemma {:induction false} LateIsLinked(h: Host, w: World, p: Key, at: Place, now: nat)
    requires p in h.channels && (OverdueAt(h, w, p, at, now) || ExpiredAt(h, w, p, at))
    ensures at in h.links && at.0 == w.scidOf(p)
  {
  }

  /** A channel that only gets resolutions of the host queued, and whose own links stay. */
  ghost predicate Spared(w: World, h: Host, h': Host, p: Key) {
    && p in h.channels && p in h'.channels && h'.height == h.height
    && h'.channels[p].data == h.channels[p].data.(uncommitted := h'.channels[p].data.uncommitted)
    && h.channels[p].data.uncommitted <= h'.channels[p].data.uncommitted
    && (forall i :: |h.channels[p].data.uncommitted| <= i < |h'.channels[p].data.uncommitted| ==> !h'.channels[p].data.uncommitted[i].u.Add?)
    && (forall at: Place :: at.0 == w.scidOf(p) ==>
          (at in h.links <==> at in h'.links) && (at in h.links && at in h'.links ==> h'.links[at] == h.links[at]))
  }

  lemma {:induction false} SparedTwice(w: World, h: Host, h': Host, h'': Host, p: Key)
    requires Spared(w, h, h', p) && Spared(w, h', h'', p)
    ensures Spared(w, h, h'', p)
  {
    var q, q', q'' := h.channels[p].data.uncommitted, h'.channels[p].data.uncommitted, h''.channels[p].data.uncommitted;
    assert forall i :: |q| <= i < |q'| ==> q''[i] == q'[i];
  }

  /** What is late in a spared channel was late before, and the other way round. */
  lemma {:induction false} SparedIsAsLate(w: World, h: Host, h': Host, p: Key, now: nat)
    requires Spared(w, h, h', p)
    ensures forall at :: OverdueAt(h', w, p, at, now) <==> OverdueAt(h, w, p, at, now)
    ensures forall at :: ExpiredAt(h', w, p, at) <==> ExpiredAt(h, w, p, at)
    ensures DeriveStatus(h'.channels[p].data) == DeriveStatus(h.channels[p].data)
  {
    var q, q' := h.channels[p].data.uncommitted, h'.channels[p].data.uncommitted;
    assert forall i :: 0 <= i < |q| ==> q'[i] == q[i];
    assert forall i :: 0 <= i < |q'| && q'[i].u.Add? ==> i < |q|;
  }

  lemma {:induction false} SettlingSpares(w: World, h: Host, h': Host, at: Place, answer: Answer, p: Key)
    requires !answer.FailCode? && Settles(w, h, h', at, answer) && p in h.channels && at.0 != w.scidOf(p)
    ensures Spared(w, h, h', p)
  {
    hide HasId;
    var from := h.links[at].incoming;
    FirstIsPeerFor(h, w, from.0);
    if Hosts(h, w, from.0) {
      var s := PeerFor(h, w, from.0).value;
      assert FirstBehind(h, w, s, from.0);
    }
  }

  lemma {:induction false} EnforceOneSpares(h: Host, w: World, q: Key, now: nat, p: Key)
    requires EnforceOne(h, w, q, now).result.Ok? && p in h.channels && w.scidOf(q) != w.scidOf(p)
    ensures Spared(w, h, EnforceOne(h, w, q, now).host, p)
  {
    hide OverdueAt, ExpiredAt, Settles, AnswerPasses, EnforceOne, DeriveStatus;
    var h' := EnforceOne(h, w, q, now).host;
    if !(q in h.channels && DeriveStatus(h.channels[q].data) == Active) {
      EnforceOneIdle(h, w, q, now);
    } else {
      var at := WatchdogFailsOne(h, w, q, now);
      if h' != h {
        LateIsLinked(h, w, q, at, now);
        var fault := if exists b :: OverdueAt(h, w, q, b, now) then DeliveryFailed else HtlcExpired;
        SettlingSpares(w, Faulted(h, q, fault), h', at, Wrapped(w, h.links[at], if fault == DeliveryFailed then [0x10, 0x07] else [0x40, 0x08]), p);
      }
    }
  }

  lemma {:induction false} EnforceOneIdle(h: Host, w: World, q: Key, now: nat)
    requires !(q in h.channels && DeriveStatus(h.channels[q].data) == Active)
    ensures EnforceOne(h, w, q, now) == Outcome(h, Ok(()))
  {
    hide DeriveStatus;
  }

  lemma {:induction false} EnforceSpares(h: Host, w: World, peers: seq<Key>, now: nat, p: Key)
    requires Enforce(h, w, peers, now).result.Ok? && p in h.channels
    requires forall i :: 0 <= i < |peers| ==> w.scidOf(peers[i]) != w.scidOf(p)
    ensures Spared(w, h, Enforce(h, w, peers, now).host, p)
  {
    hide EnforceOne;
    if peers != [] {
      var done := Enforce(h, w, peers[..|peers| - 1], now).host;
      EnforceSpares(h, w, peers[..|peers| - 1], now, p);
      EnforceOneSpares(done, w, peers[|peers| - 1], now, p);
      SparedTwice(w, h, done, EnforceOne(done, w, peers[|peers| - 1], now).host, p);
    }
  }

  ghost predicate OneFailed(w: World, h: Host, h': Host, p: Key, at: Place, failure: Bytes) {
    && at in h.links && at !in h'.links && PassedOn(w, h, h', h.links[at], Wrapped(w, h.links[at], failure))
    && p in h'.channels && DeriveStatus(h'.channels[p].data) != Active
  }

  /** What the pass owes a channel that was active. */
  ghost predicate Enforced(w: World, h: Host, h': Host, p: Key, now: nat)
    requires p in h.channels
  {
    if exists at :: OverdueAt(h, w, p, at, now) then exists at :: OverdueAt(h, w, p, at, now) && OneFailed(w, h, h', p, at, [0x10, 0x07])
    else if exists at :: ExpiredAt(h, w, p, at) then exists at :: ExpiredAt(h, w, p, at) && OneFailed(w, h, h', p, at, [0x40, 0x08])
    else true
  }

  lemma {:induction false} EnforceOneEnforces(h: Host, w: World, p: Key, now: nat)
    requires EnforceOne(h, w, p, now).result.Ok? && p in h.channels && DeriveStatus(h.channels[p].data) == Active
    ensures Enforced(w, h, EnforceOne(h, w, p, now).host, p, now)
  {
    hide OverdueAt, ExpiredAt, Settles, AnswerPasses, EnforceOne, DeriveStatus, PassedOn;
    var h' := EnforceOne(h, w, p, now).host;
    var at := WatchdogFailsOne(h, w, p, now);
    if exists b :: OverdueAt(h, w, p, b, now) {
      LateIsLinked(h, w, p, at, now);
      LateFails(w, h, h', p, DeliveryFailed, at, [0x10, 0x07], now);
    } else if exists b :: ExpiredAt(h, w, p, b) {
      LateIsLinked(h, w, p, at, now);
      LateFails(w, h, h', p, HtlcExpired, at, [0x40, 0x08], now);
    }
  }

  lemma {:induction false} LateFails(w: World, h: Host, h': Host, p: Key, fault: Fault, at: Place, failure: Bytes, now: nat)
    requires p in h.channels && (OverdueAt(h, w, p, at, now) || ExpiredAt(h, w, p, at))
    requires at in h.links && Settles(w, Faulted(h, p, fault), h', at, Wrapped(w, h.links[at], failure))
    ensures OneFailed(w, h, h', p, at, failure)
  {
    hide OverdueAt, ExpiredAt, PassedOn, Extends, PoolFrom, HasId;
    var faulted, answer := Faulted(h, p, fault), Wrapped(w, h.links[at], failure);
    SettledIsPassedOn(w, faulted, h', at, answer);
    SameExtends(h.channels[p], faulted.channels[p]);
    PutContinues(w, h, p, faulted.channels[p]);
    ApartContinues(w, h', h');
    PassedOnWider(w, h, faulted, h', h', h.links[at], answer);
    FaultStays(w, faulted, h', at, answer, p);
  }

  lemma {:induction false} FaultStays(w: World, h: Host, h': Host, at: Place, answer: Answer, p: Key)
    requires !answer.FailCode? && Settles(w, h, h', at, answer) && p in h.channels && h.channels[p].data.localErrors != []
    ensures p in h'.channels && DeriveStatus(h'.channels[p].data) != Active
  {
    hide HasId;
    var from := h.links[at].incoming;
    FirstIsPeerFor(h, w, from.0);
    if Hosts(h, w, from.0) {
      var s := PeerFor(h, w, from.0).value;
      assert FirstBehind(h, w, s, from.0);
    }
  }

  /**
   * A pass that reports no error fails, for every active channel it visits that holds a late HTLC, the
   * upstream HTLC behind one such HTLC, and takes that channel out of service.
   */
  lemma {:induction false} WatchdogFails(h: Host, w: World, peers: seq<Key>, now: nat, n: nat)
    requires Enforce(h, w, peers, now).result.Ok? && n < |peers|
    requires forall i, j :: 0 <= i < j < |peers| ==> w.scidOf(peers[i]) != w.scidOf(peers[j])
    requires peers[n] in h.channels && DeriveStatus(h.channels[peers[n]].data) == Active
    ensures Enforced(w, h, Enforce(h, w, peers, now).host, peers[n], now)
  {
    hide EnforceOne, Enforced, Spared, DeriveStatus;
    var p, front := peers[n], peers[..|peers| - 1];
    var done, h' := Enforce(h, w, front, now).host, Enforce(h, w, peers, now).host;
    EnforceContinues(w, h, front, now);
    if n < |front| {
      WatchdogFails(h, w, front, now, n);
      EnforceOneContinues(w, done, peers[|front|], now);
      EnforceOneClears(done, w, peers[|front|], now);
      EnforcedLater(w, h, done, h', p, now);
    } else {
      EnforceSpares(h, w, front, now, p);
      SparedIsHere(w, h, done, p);
      SparedIsAsLate(w, h, done, p, now);
      EnforceOneEnforces(done, w, p, now);
      EnforcedEarlier(w, h, done, h', p, now);
    }
  }

  /** No two hosted channels share a short channel id. */
  ghost predicate ScidsDiffer(w: World, h: Host) {
    forall p, q :: p in h.channels && q in h.channels && p != q ==> w.scidOf(p) != w.scidOf(q)
  }

  /** So it is for every active channel when the pass goes over all of them, each once. */
  lemma {:induction false} WatchdogFailsAll(h: Host, w: World, peers: seq<Key>, now: nat)
    requires Enforce(h, w, peers, now).result.Ok? && ScidsDiffer(w, h)
    requires (forall p :: p in peers <==> p in h.channels) && forall i, j :: 0 <= i < j < |peers| ==> peers[i] < peers[j]
    ensures forall p :: p in h.channels && DeriveStatus(h.channels[p].data) == Active ==>
      Enforced(w, h, Enforce(h, w, peers, now).host, p, now)
  {
    hide Enforce, Enforced, DeriveStatus;
    forall p | p in h.channels && DeriveStatus(h.channels[p].data) == Active
      ensures Enforced(w, h, Enforce(h, w, peers, now).host, p, now)
    {
      var n :| 0 <= n < |peers| && peers[n] == p;
      WatchdogFails(h, w, peers, now, n);
    }
  }

  lemma {:induction false} SparedIsHere(w: World, h: Host, h': Host, p: Key)
    requires Spared(w, h, h', p)
    ensures p in h'.channels
  {
  }

  lemma {:induction false} EnforcedLater(w: World, h: Host, h1: Host, h': Host, p: Key, now: nat)
    requires p in h.channels && Enforced(w, h, h1, p, now) && Continues(w, h1, h') && AllCalmer(h1, h')
    ensures Enforced(w, h, h', p, now)
  {
    hide OverdueAt, ExpiredAt, PassedOn, Continues, DeriveStatus;
    ApartContinues(w, h, h);
    forall at, failure | OneFailed(w, h, h1, p, at, failure)
      ensures OneFailed(w, h, h', p, at, failure)
    {
      assert Calmer(h1.channels[p], h'.channels[p]);
      PassedOnWider(w, h, h, h1, h', h.links[at], Wrapped(w, h.links[at], failure));
    }
  }

  lemma {:induction false} EnforcedEarlier(w: World, h: Host, h1: Host, h': Host, p: Key, now: nat)
    requires p in h.channels && Spared(w, h, h1, p) && Enforced(w, h1, h', p, now) && Continues(w, h, h1)
    requires forall at :: OverdueAt(h1, w, p, at, now) <==> OverdueAt(h, w, p, at, now)
    requires forall at :: ExpiredAt(h1, w, p, at) <==> ExpiredAt(h, w, p, at)
    ensures Enforced(w, h, h', p, now)
  {
    hide OverdueAt, ExpiredAt, PassedOn, Continues, DeriveStatus;
    ApartContinues(w, h', h');
    forall at, failure | OneFailed(w, h1, h', p, at, failure) && at.0 == w.scidOf(p)
      ensures OneFailed(w, h, h', p, at, failure)
    {
      PassedOnWider(w, h, h1, h', h', h1.links[at], Wrapped(w, h1.links[at], failure));
    }
    forall at | OverdueAt(h, w, p, at, now) || ExpiredAt(h, w, p, at)
      ensures at.0 == w.scidOf(p)
    {
      LateIsLinked(h, w, p, at, now);
    }
  }

  // ---- Recovery of HTLCs of the host -------------------------------------------------------

  /** An HTLC of the host that is committed, that nothing pending resolves, and whose preimage is known. */
  predicate Recoverable(h: Host, stored: ChannelData, out: Htlc) {
    !HasKey(stored.uncommitted, (false, out.id)) && out.paymentHash in h.preimages
  }

  lemma {:induction false} SettledElsewhere(w: World, h: Host, h': Host, at: Place, answer: Answer, peer: Key, out: Htlc)
    requires !answer.FailCode? && Settles(w, h, h', at, answer) && peer in h.channels
    ensures peer in h'.channels && h'.preimages == h.preimages
    ensures at != (w.scidOf(peer), out.id) ==> (LeavesTime(h', w, peer, out) <==> LeavesTime(h, w, peer, out))
  {
    hide HasId;
    var from := h.links[at].incoming;
    FirstIsPeerFor(h, w, from.0);
    if Hosts(h, w, from.0) {
      assert FirstBehind(h, w, PeerFor(h, w, from.0).value, from.0);
    }
    var own := (w.scidOf(peer), out.id);
    if own in h.links {
      SameFirst(h, h', w, h.links[own].incoming.0);
    }
  }

  /** One HTLC of the recovery: its link is settled if it can be, and nothing else happens. */
  ghost predicate StepsOn(w: World, h: Host, h1: Host, peer: Key, stored: ChannelData, out: Htlc) {
    var at := (w.scidOf(peer), out.id);
    if Recoverable(h, stored, out) && at in h.links then Settles(w, h, h1, at, Settle(h.preimages[out.paymentHash])) else h1 == h
  }

  /** The settlement of this HTLC, if there is one to make, passes. */
  ghost predicate StepPasses(w: World, h: Host, peer: Key, stored: ChannelData, out: Htlc) {
    var at := (w.scidOf(peer), out.id);
    Recoverable(h, stored, out) && at in h.links ==> AnswerPasses(h, w, h.links[at].incoming, Settle(h.preimages[out.paymentHash]))
  }

  lemma {:induction false} RecoverStep(h: Host, w: World, peer: Key, stored: ChannelData, hs: seq<Htlc>) returns (h1: Host)
    requires hs != [] && peer in h.channels
    requires LeavesTime(h, w, peer, hs[0]) || HasKey(stored.uncommitted, (false, hs[0].id))
    ensures if StepPasses(w, h, peer, stored, hs[0]) then
        && RecoverOutgoing(h, w, peer, stored, hs) == RecoverOutgoing(h1, w, peer, stored, hs[1..])
        && StepsOn(w, h, h1, peer, stored, hs[0]) && Continues(w, h, h1)
      else RecoverOutgoing(h, w, peer, stored, hs).result.Err?
  {
    hide LeavesTime, Overflows, ResolveForward, SettlementIsSafe, HasKey, Settles, AnswerPasses, Continues;
    h1 := h;
    SafeIff(h, w, peer, hs[0]);
    ApartContinues(w, h, h);
    if Recoverable(h, stored, hs[0]) {
      var p := h.preimages[hs[0].paymentHash];
      var at, r := (w.scidOf(peer), hs[0].id), Fulfill(w.channelIdOf(0), 0, p);
      ResolvingSettles(h, w, at, r, SideOf(h, peer), Settle(p));
      ResolveForwardContinues(w, h, at, r, SideOf(h, peer));
      h1 := ResolveForward(h, w, at, r, SideOf(h, peer)).host;
    }
  }

  lemma {:induction false} FaultlessContinues(h: Host, w: World, peer: Key, stored: ChannelData, hs: seq<Htlc>)
    requires Faultless(RecoverOutgoing(h, w, peer, stored, hs).host, peer)
    ensures Continues(w, h, RecoverOutgoing(h, w, peer, stored, hs).host)
  {
    hide Continues, RecoverOutgoing;
    var mid := RecoverOutgoingContinues(w, h, peer, stored, hs);
  }

  predicate Faultless(h: Host, peer: Key) {
    peer in h.channels && h.channels[peer].data.localErrors == []
  }

  /** An HTLC of the host that nothing resolves and that leaves no time ends the recovery with an error of the channel. */
  lemma {:induction false} RecoveryFaults(h: Host, w: World, peer: Key, stored: ChannelData, hs: seq<Htlc>)
    requires hs != [] && peer in h.channels
    requires !LeavesTime(h, w, peer, hs[0]) && !HasKey(stored.uncommitted, (false, hs[0].id))
    ensures RecoverOutgoing(h, w, peer, stored, hs) ==
      if Overflows(h, w, peer, hs[0]) then Outcome(h, Err(InvalidMessage))
      else Outcome(h.(channels := h.channels[peer := h.channels[peer].(data := stored.(localErrors := stored.localErrors + [HtlcOutlived]))]), Ok(()))
  {
    hide LeavesTime, Overflows, SettlementIsSafe, HasKey;
    SafeIff(h, w, peer, hs[0]);
  }

  /**
   * A recovery that reports no error and leaves the channel without one settles the upstream HTLC behind
   * every committed HTLC of the host that nothing resolves and whose preimage is known, all of them in time.
   */
  lemma {:induction false} RecoverySettles(h: Host, w: World, peer: Key, stored: ChannelData, hs: seq<Htlc>, k: nat)
    requires peer in h.channels && k < |hs| && Distinct(hs)
    requires RecoverOutgoing(h, w, peer, stored, hs).result.Ok? && Faultless(RecoverOutgoing(h, w, peer, stored, hs).host, peer)
    ensures var at, h' := (w.scidOf(peer), hs[k].id), RecoverOutgoing(h, w, peer, stored, hs).host;
      && (HasKey(stored.uncommitted, (false, hs[k].id)) || LeavesTime(h, w, peer, hs[k]))
      && (Recoverable(h, stored, hs[k]) && at in h.links ==>
            at !in h'.links && PassedOn(w, h, h', h.links[at], Settle(h.preimages[hs[k].paymentHash])))
    decreases |hs|
  {
    hide LeavesTime, Overflows, RecoverOutgoing, HasKey, StepsOn, StepPasses, PassedOn, Continues;
    if !LeavesTime(h, w, peer, hs[0]) && !HasKey(stored.uncommitted, (false, hs[0].id)) {
      RecoveryFaults(h, w, peer, stored, hs);
      assert false;
    } else {
      var h1 := RecoverStep(h, w, peer, stored, hs);
      var h' := RecoverOutgoing(h1, w, peer, stored, hs[1..]).host;
      FaultlessContinues(h1, w, peer, stored, hs[1..]);
      RecoveryAddsNoLink(h1, w, peer, stored, hs[1..]);
      if k == 0 {
        StepPassesOn(w, h, h1, h', peer, stored, hs[0]);
      } else {
        StepLeaves(w, h, h1, peer, stored, hs[0], hs[k]);
        RecoverySettles(h1, w, peer, stored, hs[1..], k - 1);
        var at := (w.scidOf(peer), hs[k].id);
        if Recoverable(h, stored, hs[k]) && at in h.links {
          LaterPassesOn(w, h, h1, h', h.links[at], Settle(h.preimages[hs[k].paymentHash]));
        }
      }
    }
  }

  lemma {:induction false} StepPassesOn(w: World, h: Host, h1: Host, h': Host, peer: Key, stored: ChannelData, out: Htlc)
    requires StepsOn(w, h, h1, peer, stored, out) && Continues(w, h1, h') && h'.links.Keys <= h1.links.Keys
    ensures var at := (w.scidOf(peer), out.id);
      Recoverable(h, stored, out) && at in h.links ==>
        at !in h'.links && PassedOn(w, h, h', h.links[at], Settle(h.preimages[out.paymentHash]))
  {
    hide Continues, Settles, PassedOn, HasKey;
    var at := (w.scidOf(peer), out.id);
    if Recoverable(h, stored, out) && at in h.links {
      var answer := Settle(h.preimages[out.paymentHash]);
      SettledIsPassedOn(w, h, h1, at, answer);
      ApartContinues(w, h, h);
      PassedOnWider(w, h, h, h1, h', h.links[at], answer);
    }
  }

  /** Recovering one HTLC leaves the others as they were. */
  lemma {:induction false} StepLeaves(w: World, h: Host, h1: Host, peer: Key, stored: ChannelData, out: Htlc, other: Htlc)
    requires StepsOn(w, h, h1, peer, stored, out) && peer in h.channels && other.id != out.id
    ensures peer in h1.channels && (LeavesTime(h1, w, peer, other) <==> LeavesTime(h, w, peer, other))
    ensures h1.preimages == h.preimages
    ensures var at := (w.scidOf(peer), other.id);
      (at in h.links <==> at in h1.links) && (at in h.links && at in h1.links ==> h1.links[at] == h.links[at])
  {
    hide LeavesTime, HasKey;
    var at := (w.scidOf(peer), out.id);
    if Recoverable(h, stored, out) && at in h.links {
      SettledElsewhere(w, h, h1, at, Settle(h.preimages[out.paymentHash]), peer, other);
    }
  }

  lemma {:induction false} RecoveryAddsNoLink(h: Host, w: World, peer: Key, stored: ChannelData, hs: seq<Htlc>)
    ensures RecoverOutgoing(h, w, peer, stored, hs).host.links.Keys <= h.links.Keys
    decreases |hs|
  {
    hide SendLocal, SettlementIsSafe, HasKey;
    if hs != [] {
      RecoveryAddsNoLink(h, w, peer, stored, hs[1..]);
      if hs[0].paymentHash in h.preimages && peer in h.channels {
        var at, r := (w.scidOf(peer), hs[0].id), Fulfill(w.channelIdOf(0), 0, h.preimages[hs[0].paymentHash]);
        ResolvingSettles(h, w, at, r, SideOf(h, peer), Settle(r.preimage));
        RecoveryAddsNoLink(ResolveForward(h, w, at, r, SideOf(h, peer)).host, w, peer, stored, hs[1..]);
      }
    }
  }

  lemma {:induction false} LaterPassesOn(w: World, h: Host, h1: Host, h': Host, link: ForwardLink, answer: Answer)
    requires !answer.FailCode? && PassedOn(w, h1, h', link, answer) && Continues(w, h, h1)
    ensures PassedOn(w, h, h', link, answer)
  {
    hide PassedOn, Continues;
    ApartContinues(w, h', h');
    PassedOnWider(w, h, h1, h', h', link, answer);
  }

  // ---- Failures that a commit relays -------------------------------------------------------

  /** The peer fails the HTLC with this id; a malformed one fails with its code and the hash of its onion. */
  predicate Tells(u: Update, id: U64, failure: Bytes) {
    && u.Remote? && !u.u.Add? && u.u.id == id
    && (|| (u.u.Fail? && failure == u.u.reason)
        || (u.u.FailMalformed? && failure == [u.u.code / 256, u.u.code % 256] + u.u.shaOfOnion))
  }

  predicate ToldOf(us: seq<Update>, id: U64, failure: Bytes) {
    exists i :: 0 <= i < |us| && Tells(us[i], id, failure)
  }

  /** The link goes because one of the updates fails its HTLC. */
  predicate Relayed(h: Host, h': Host, scid: nat, us: seq<Update>, at: Place, failure: Bytes) {
    at in h.links && at !in h'.links && at.0 == scid && ToldOf(us, at.1, failure)
  }

  /** Links go exactly where an update of the peer fails the HTLC. */
  ghost predicate RelaysLinks(h: Host, h': Host, scid: nat, us: seq<Update>) {
    && (forall at :: at in h'.links ==> at in h.links && h'.links[at] == h.links[at])
    && (forall at :: at in h.links ==> (at !in h'.links <==> exists failure: Bytes :: at.0 == scid && ToldOf(us, at.1, failure)))
  }

  ghost predicate RelaysAll(w: World, h: Host, h': Host, scid: nat, us: seq<Update>) {
    forall at :: at in h.links && at !in h'.links ==>
      exists failure: Bytes :: Relayed(h, h', scid, us, at, failure) && PassedOn(w, h, h', h.links[at], Wrapped(w, h.links[at], failure))
  }

  /** The call answers a link that went. */
  ghost predicate CallsFor(w: World, h: Host, h': Host, scid: nat, us: seq<Update>, call: Call, at: Place, failure: Bytes) {
    && Relayed(h, h', scid, us, at, failure) && !Hosts(h, w, h.links[at].incoming.0)
    && call.offer == h.links[at].offer && call.place == h.links[at].incoming && call.answer == Wrapped(w, h.links[at], failure)
  }

  /** The update answers a link that went. */
  ghost predicate QueuesFor(w: World, h: Host, h': Host, scid: nat, us: seq<Update>, s: Key, u: Update, at: Place, failure: Bytes) {
    && Relayed(h, h', scid, us, at, failure) && FirstBehind(h, w, s, h.links[at].incoming.0)
    && u == Told(w.channelIdOf(s), h.links[at].incoming.1, Wrapped(w, h.links[at], failure))
  }

  ghost predicate CallAnswers(w: World, h: Host, h': Host, scid: nat, us: seq<Update>, call: Call) {
    exists at: Place, failure: Bytes :: CallsFor(w, h, h', scid, us, call, at, failure)
  }

  ghost predicate UpdateAnswers(w: World, h: Host, h': Host, scid: nat, us: seq<Update>, s: Key, u: Update) {
    exists at: Place, failure: Bytes :: QueuesFor(w, h, h', scid, us, s, u, at, failure)
  }

  ghost predicate CallsOnly(w: World, h: Host, h': Host, scid: nat, us: seq<Update>, calls: seq<Call>) {
    forall i :: |h.calls| <= i < |calls| ==> CallAnswers(w, h, h', scid, us, calls[i])
  }

  ghost predicate QueuesOnly(w: World, h: Host, h': Host, scid: nat, us: seq<Update>, s: Key, q: seq<Update>)
    requires s in h.channels
  {
    forall i :: |h.channels[s].data.uncommitted| <= i < |q| ==> UpdateAnswers(w, h, h', scid, us, s, q[i])
  }

  /** Whatever is called or queued answers a link that went. */
  ghost predicate RelaysOnly(w: World, h: Host, h': Host, scid: nat, us: seq<Update>) {
    && h'.preimages == h.preimages && CallsOnly(w, h, h', scid, us, h'.calls)
    && forall s: Key :: s in h.channels ==> s in h'.channels && QueuesOnly(w, h, h', scid, us, s, h'.channels[s].data.uncommitted)
  }

  ghost predicate Relays(w: World, h: Host, h': Host, scid: nat, us: seq<Update>) {
    Continues(w, h, h') && RelaysLinks(h, h', scid, us) && RelaysAll(w, h, h', scid, us) && RelaysOnly(w, h, h', scid, us)
  }

  lemma {:induction false} ToldOfPush(us: seq<Update>, u: Update)
    ensures forall id: U64, failure: Bytes :: ToldOf(us + [u], id, failure) <==> ToldOf(us, id, failure) || Tells(u, id, failure)
  {
    forall id: U64, failure: Bytes
      ensures ToldOf(us + [u], id, failure) <==> ToldOf(us, id, failure) || Tells(u, id, failure)
    {
      if ToldOf(us, id, failure) {
        var i :| 0 <= i < |us| && Tells(us[i], id, failure);
        assert Tells((us + [u])[i], id, failure);
      }
      if Tells(u, id, failure) {
        assert Tells((us + [u])[|us|], id, failure);
      }
    }
  }

  ghost predicate FailsNothing(h: Host, scid: nat, u: Update) {
    forall id: U64, failure: Bytes :: Tells(u, id, failure) ==> (scid, id) !in h.links
  }

  ghost predicate FailsOne(w: World, h: Host, h': Host, scid: nat, u: Update, id: U64, failure: Bytes) {
    Tells(u, id, failure) && (scid, id) in h.links && Settles(w, h, h', (scid, id), Wrapped(w, h.links[(scid, id)], failure))
  }

  lemma {:induction false} RelayingNext(w: World, h: Host, scid: nat, us: seq<Update>, side: Side) returns (id: U64, failure: Bytes)
    requires us != [] && RelayFailures(h, w, scid, us, side).result.Ok?
    ensures var h1, h' := RelayFailures(h, w, scid, us[..|us| - 1], side), RelayFailures(h, w, scid, us, side).host;
      && h1.result.Ok? && Continues(w, h1.host, h')
      && ((h' == h1.host && FailsNothing(h', scid, us[|us| - 1])) || FailsOne(w, h1.host, h', scid, us[|us| - 1], id, failure))
  {
    hide ResolveFail, Settles, AnswerPasses, Wrapped, Continues;
    var u, h1 := us[|us| - 1], RelayFailures(h, w, scid, us[..|us| - 1], side).host;
    id, failure := 0, [];
    ApartContinues(w, h1, h1);
    if FailureOf(u).Some? {
      id, failure := u.u.id, FailureOf(u).value;
      FailingSettles(h1, w, (scid, id), failure, side);
      ResolveFailContinues(w, h1, (scid, id), failure, side);
    }
  }

  /**
   * After a relay without errors the link of every HTLC that a committed update of the peer fails is gone,
   * its answer, wrapped for the sender, is passed on, and nothing else was answered.
   */
  lemma {:induction false} FailuresAreRelayed(w: World, h: Host, scid: nat, us: seq<Update>, side: Side)
    requires RelayFailures(h, w, scid, us, side).result.Ok?
    ensures Relays(w, h, RelayFailures(h, w, scid, us, side).host, scid, us)
  {
    hide Relays, FailsNothing, FailsOne, Continues;
    var h' := RelayFailures(h, w, scid, us, side).host;
    if us == [] {
      NothingRelayed(w, h, scid);
    } else {
      var front, u := us[..|us| - 1], us[|us| - 1];
      assert us == front + [u];
      var h1 := RelayFailures(h, w, scid, front, side).host;
      var id, failure := RelayingNext(w, h, scid, us, side);
      FailuresAreRelayed(w, h, scid, front, side);
      if FailsOne(w, h1, h', scid, u, id, failure) {
        RelayedOneMore(w, h, h1, h', scid, front, u, id, failure);
      } else {
        IdleRelay(w, h, h1, scid, front, u);
      }
    }
  }

  lemma {:induction false} NothingRelayed(w: World, h: Host, scid: nat)
    ensures Relays(w, h, h, scid, [])
  {
    hide Continues;
    ApartContinues(w, h, h);
  }

  lemma {:induction false} IdleRelay(w: World, h: Host, h1: Host, scid: nat, us: seq<Update>, u: Update)
    requires Relays(w, h, h1, scid, us) && FailsNothing(h1, scid, u)
    ensures Relays(w, h, h1, scid, us + [u])
  {
    hide Tells, ToldOf, Wrapped, PassedOn, Continues;
    ToldOfPush(us, u);
    IdleIsOnly(w, h, h1, scid, us, u);
  }

  /** Each link that went earlier has gone later. */
  ghost predicate StaysRelayed(h: Host, h1: Host, h2: Host, scid: nat, us: seq<Update>, us': seq<Update>) {
    forall at: Place, failure: Bytes :: Relayed(h, h1, scid, us, at, failure) ==> Relayed(h, h2, scid, us', at, failure)
  }

  lemma {:induction false} CallsOnlyLater(w: World, h: Host, h1: Host, h2: Host, scid: nat, us: seq<Update>, us': seq<Update>, calls: seq<Call>)
    requires CallsOnly(w, h, h1, scid, us, calls) && StaysRelayed(h, h1, h2, scid, us, us')
    ensures CallsOnly(w, h, h2, scid, us', calls)
  {
    hide Relayed, Wrapped;
    forall i | |h.calls| <= i < |calls|
      ensures CallAnswers(w, h, h2, scid, us', calls[i])
    {
      assert CallAnswers(w, h, h1, scid, us, calls[i]);
      var at: Place, failure: Bytes :| CallsFor(w, h, h1, scid, us, calls[i], at, failure);
      assert Relayed(h, h2, scid, us', at, failure);
      assert CallsFor(w, h, h2, scid, us', calls[i], at, failure);
    }
  }

  lemma {:induction false} QueuesOnlyLater(w: World, h: Host, h1: Host, h2: Host, scid: nat, us: seq<Update>, us': seq<Update>, s: Key, q: seq<Update>)
    requires s in h.channels && QueuesOnly(w, h, h1, scid, us, s, q) && StaysRelayed(h, h1, h2, scid, us, us')
    ensures QueuesOnly(w, h, h2, scid, us', s, q)
  {
    hide Relayed, Wrapped;
    forall i | |h.channels[s].data.uncommitted| <= i < |q|
      ensures UpdateAnswers(w, h, h2, scid, us', s, q[i])
    {
      assert UpdateAnswers(w, h, h1, scid, us, s, q[i]);
      var at: Place, failure: Bytes :| QueuesFor(w, h, h1, scid, us, s, q[i], at, failure);
      assert Relayed(h, h2, scid, us', at, failure);
      assert QueuesFor(w, h, h2, scid, us', s, q[i], at, failure);
    }
  }

  lemma {:induction false} IdleIsOnly(w: World, h: Host, h1: Host, scid: nat, us: seq<Update>, u: Update)
    requires RelaysOnly(w, h, h1, scid, us) && StaysRelayed(h, h1, h1, scid, us, us + [u])
    ensures RelaysOnly(w, h, h1, scid, us + [u])
  {
    hide CallsOnly, QueuesOnly, StaysRelayed;
    CallsOnlyLater(w, h, h1, h1, scid, us, us + [u], h1.calls);
    forall s: Key | s in h.channels
      ensures s in h1.channels && QueuesOnly(w, h, h1, scid, us + [u], s, h1.channels[s].data.uncommitted)
    {
      QueuesOnlyLater(w, h, h1, h1, scid, us, us + [u], s, h1.channels[s].data.uncommitted);
    }
  }

  lemma {:induction false} RelayedOneMore(w: World, h: Host, h1: Host, h2: Host, scid: nat, us: seq<Update>, u: Update, id: U64, failure: Bytes)
    requires Relays(w, h, h1, scid, us) && FailsOne(w, h1, h2, scid, u, id, failure) && Continues(w, h1, h2)
    ensures Relays(w, h, h2, scid, us + [u])
  {
    hide RelaysLinks, RelaysAll, RelaysOnly, Continues, FailsOne;
    ContinuesTwice(w, h, h1, h2);
    OneMoreLink(w, h, h1, h2, scid, us, u, id, failure);
    OneMorePassed(w, h, h1, h2, scid, us, u, id, failure);
    OneMoreOnly(w, h, h1, h2, scid, us, u, id, failure);
  }

  lemma {:induction false} OneMoreLink(w: World, h: Host, h1: Host, h2: Host, scid: nat, us: seq<Update>, u: Update, id: U64, failure: Bytes)
    requires RelaysLinks(h, h1, scid, us) && FailsOne(w, h1, h2, scid, u, id, failure)
    ensures RelaysLinks(h, h2, scid, us + [u])
    ensures Relayed(h, h2, scid, us + [u], (scid, id), failure)
    ensures StaysRelayed(h, h1, h2, scid, us, us + [u])
    ensures h2.links == h1.links - {(scid, id)} && (scid, id) in h.links && h.links[(scid, id)] == h1.links[(scid, id)]
  {
    hide ToldOf, Wrapped, Queues, Calls, FirstBehind;
    ToldOfPush(us, u);
  }

  lemma {:induction false} OneMorePassed(w: World, h: Host, h1: Host, h2: Host, scid: nat, us: seq<Update>, u: Update, id: U64, failure: Bytes)
    requires RelaysLinks(h, h1, scid, us) && RelaysAll(w, h, h1, scid, us) && FailsOne(w, h1, h2, scid, u, id, failure)
    requires Continues(w, h, h1) && Continues(w, h1, h2)
    ensures RelaysAll(w, h, h2, scid, us + [u])
  {
    hide ToldOf, Wrapped, Settles, PassedOn, Continues, Tells, Relayed;
    OneMoreLink(w, h, h1, h2, scid, us, u, id, failure);
    SettledIsPassedOn(w, h1, h2, (scid, id), Wrapped(w, h1.links[(scid, id)], failure));
    ApartContinues(w, h, h);
    ApartContinues(w, h2, h2);
    forall at | at in h.links && at !in h2.links
      ensures exists f: Bytes :: Relayed(h, h2, scid, us + [u], at, f) && PassedOn(w, h, h2, h.links[at], Wrapped(w, h.links[at], f))
    {
      if at in h1.links {
        PassedOnWider(w, h, h1, h2, h2, h.links[at], Wrapped(w, h.links[at], failure));
      } else {
        var f: Bytes :| Relayed(h, h1, scid, us, at, f) && PassedOn(w, h, h1, h.links[at], Wrapped(w, h.links[at], f));
        PassedOnWider(w, h, h, h1, h2, h.links[at], Wrapped(w, h.links[at], f));
      }
    }
  }

  lemma {:induction false} OneMoreOnly(w: World, h: Host, h1: Host, h2: Host, scid: nat, us: seq<Update>, u: Update, id: U64, failure: Bytes)
    requires RelaysLinks(h, h1, scid, us) && RelaysOnly(w, h, h1, scid, us) && FailsOne(w, h1, h2, scid, u, id, failure)
    requires Continues(w, h, h1) && Continues(w, h1, h2)
    ensures RelaysOnly(w, h, h2, scid, us + [u])
  {
    hide CallsOnly, QueuesOnly, StaysRelayed, Continues, RelaysLinks, Relayed, FailsOne;
    var us' := us + [u];
    OneMoreLink(w, h, h1, h2, scid, us, u, id, failure);
    CallsOnlyLater(w, h, h1, h2, scid, us, us', h1.calls);
    OneMoreCall(w, h, h1, h2, scid, us, u, id, failure);
    forall s: Key | s in h.channels
      ensures s in h2.channels && QueuesOnly(w, h, h2, scid, us', s, h2.channels[s].data.uncommitted)
    {
      QueuesOnlyLater(w, h, h1, h2, scid, us, us', s, h1.channels[s].data.uncommitted);
      OneMoreQueued(w, h, h1, h2, scid, us, u, id, failure, s);
    }
  }

  lemma {:induction false} SettledReaches(w: World, h: Host, h': Host, at: Place, answer: Answer, s: Key)
    requires !answer.FailCode? && Settles(w, h, h', at, answer) && s in h.channels
    ensures s in h'.channels && h'.preimages == h.preimages
    ensures var q, q' := h.channels[s].data.uncommitted, h'.channels[s].data.uncommitted;
      q' == q || (FirstBehind(h, w, s, h.links[at].incoming.0) && q' == q + [Told(w.channelIdOf(s), h.links[at].incoming.1, answer)])
  {
    hide HasId;
    var from := h.links[at].incoming;
    FirstIsPeerFor(h, w, from.0);
    if Hosts(h, w, from.0) {
      assert FirstBehind(h, w, PeerFor(h, w, from.0).value, from.0);
    }
  }

  lemma {:induction false} SettledCalls(w: World, h: Host, h': Host, at: Place, answer: Answer)
    requires !answer.FailCode? && Settles(w, h, h', at, answer)
    ensures h'.preimages == h.preimages
    ensures h'.calls == h.calls || (!Hosts(h, w, h.links[at].incoming.0) && Calls(h, h', h.links[at], answer))
  {
    hide HasId;
    var from := h.links[at].incoming;
    FirstIsPeerFor(h, w, from.0);
    if Hosts(h, w, from.0) {
      assert FirstBehind(h, w, PeerFor(h, w, from.0).value, from.0);
    }
  }

  lemma {:induction false} OneMoreCall(w: World, h: Host, h1: Host, h2: Host, scid: nat, us: seq<Update>, u: Update, id: U64, failure: Bytes)
    requires CallsOnly(w, h, h2, scid, us + [u], h1.calls) && FailsOne(w, h1, h2, scid, u, id, failure)
    requires Relayed(h, h2, scid, us + [u], (scid, id), failure)
    requires (scid, id) in h.links && h.links[(scid, id)] == h1.links[(scid, id)] && Continues(w, h, h1)
    ensures CallsOnly(w, h, h2, scid, us + [u], h2.calls) && h2.preimages == h1.preimages
  {
    hide ToldOf, Wrapped, Extends, Tells, HasId, Relayed, NewLinksServed, Settles;
    var at, us' := (scid, id), us + [u];
    SettledCalls(w, h1, h2, at, Wrapped(w, h1.links[at], failure));
    SameFirst(h, h1, w, h.links[at].incoming.0);
    if h2.calls != h1.calls {
      assert CallsFor(w, h, h2, scid, us', h2.calls[|h1.calls|], at, failure);
      assert forall i :: 0 <= i < |h1.calls| ==> h2.calls[i] == h1.calls[i];
    }
  }

  lemma {:induction false} OneMoreQueued(w: World, h: Host, h1: Host, h2: Host, scid: nat, us: seq<Update>, u: Update, id: U64, failure: Bytes, s: Key)
    requires s in h.channels && s in h1.channels && FailsOne(w, h1, h2, scid, u, id, failure)
    requires QueuesOnly(w, h, h2, scid, us + [u], s, h1.channels[s].data.uncommitted)
    requires Relayed(h, h2, scid, us + [u], (scid, id), failure)
    requires (scid, id) in h.links && h.links[(scid, id)] == h1.links[(scid, id)] && Continues(w, h, h1)
    ensures s in h2.channels && QueuesOnly(w, h, h2, scid, us + [u], s, h2.channels[s].data.uncommitted)
  {
    hide ToldOf, Wrapped, Extends, Tells, HasId, Relayed, NewLinksServed, Settles, Told, FirstBehind;
    var at, us', q := (scid, id), us + [u], h1.channels[s].data.uncommitted;
    SettledReaches(w, h1, h2, at, Wrapped(w, h1.links[at], failure), s);
    SameFirst(h, h1, w, h.links[at].incoming.0);
    if h2.channels[s].data.uncommitted != q {
      assert QueuesFor(w, h, h2, scid, us', s, h2.channels[s].data.uncommitted[|q|], at, failure);
    }
  }
}

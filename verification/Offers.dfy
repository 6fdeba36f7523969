/**
 * Which HTLCs the host takes on, with which terms, and what it answers to the others: HTLCs offered to a
 * hosted channel, and HTLCs that a peer committed and asks to forward.
 */
module Offers {
  import opened Base
  import opened State
  import opened StateLaws
  import opened HtlcIds
  import opened Hosted = Channel
  import opened ChannelLaws
  import opened ChannelRuns
  import opened Forwarding
  import opened ForwardingLaws
  import opened HostRuns
  import opened HostSteps
  import opened DispatchLaws
  import opened Fees
  import opened Handshakes
  import opened Effects

  // ---- Offers ------------------------------------------------------------------------------

  /** The number the channel gives to its next HTLC, as long as it fits. */
  predicate HasNumber(d: ChannelData) {
    d.lcss.localUpdates + |LocalOf(d.uncommitted)| + 1 < 0x1_0000_0000
  }

  /** The HTLC a channel gets for an offer: what was offered, under the channel's id and its next number. */
  function Given(d: ChannelData, channelId: Bytes32, o: Offer): Htlc
    requires HasNumber(d)
  {
    Htlc(channelId, d.lcss.localUpdates + |LocalOf(d.uncommitted)| + 1, o.htlc.amount, o.htlc.paymentHash, o.htlc.cltvExpiry,
         o.htlc.onion, o.htlc.tlv)
  }

  /** If the offer came over a normal channel and says when it expires, this one expires earlier by the delta. */
  ghost predicate ClaimableInTime(h: Host, w: World, peer: Key, o: Offer)
    requires peer in h.channels
  {
    o.upstreamExpiry.Some? && !Hosts(h, w, o.from.0) ==>
      o.htlc.cltvExpiry + RoutingFor(h.channels[peer].data, h.policy).cltvDelta <= o.upstreamExpiry.value
  }

  /** With the HTLC added the queue folds, and the state it leads to respects the channel's limits. */
  predicate FitsChannel(d: ChannelData, g: Htlc) {
    match Fold(d.lcss, d.uncommitted + [Local(Add(g))])
    case Err(_) => false
    case Ok(t) =>
      && |t.incoming| + |t.outgoing| <= d.lcss.init.maxAccepted
      && (Sum(t.incoming) + Sum(t.outgoing) <= d.lcss.init.maxInFlight || d.lcss.init.maxInFlight == U64_BOUND - 1)
  }

  ghost predicate MayTake(h: Host, w: World, peer: Key, o: Offer, disconnected: bool)
    requires peer in h.channels
  {
    var d := h.channels[peer].data;
    && DeriveStatus(d) == Active && !disconnected && o.htlc.paymentHash !in h.preimages
    && ClaimableInTime(h, w, peer, o)
    && d.lcss.init.htlcMinimum <= o.htlc.amount <= RoutingFor(d, h.policy).htlcMaximum
    && HasNumber(d) && FitsChannel(d, Given(d, w.channelIdOf(peer), o))
  }

  lemma {:induction false} SumOfOne(g: Htlc)
    ensures Sum([g]) == g.amount
  {
    assert [g][1..] == [];
  }

  lemma {:induction false} FitsIff(d: ChannelData, g: Htlc)
    ensures FitsChannel(d, g) <==> match Fold(d.lcss, d.uncommitted)
      case Err(_) => false
      case Ok(next) =>
        && g.amount <= next.localBalance && |next.incoming| + |next.outgoing| + 1 <= d.lcss.init.maxAccepted
        && Saturated(Sum(next.incoming) + Sum(next.outgoing) + g.amount) <= d.lcss.init.maxInFlight
  {
    hide Fold, Sum;
    Pushed(d.lcss, d.uncommitted, Local(Add(g)));
    if Fold(d.lcss, d.uncommitted).Ok? {
      SumConcat(Fold(d.lcss, d.uncommitted).value.outgoing, [g]);
      assert Sum([g]) == g.amount by { SumOfOne(g); }
    }
  }

  lemma {:induction false} AcceptedIff(h: Host, w: World, peer: Key, o: Offer, disconnected: bool)
    requires peer in h.channels
    ensures Judge(h, w, peer, o, disconnected) == Accepted <==> MayTake(h, w, peer, o, disconnected)
  {
    hide Fold, Sum, FitsChannel, DeriveStatus, LocalOf, RoutingFor;
    var d := h.channels[peer].data;
    if HasNumber(d) {
      FitsIff(d, Given(d, w.channelIdOf(peer), o));
    }
  }

  /** Queued with its number; an error is recorded when a message is lost. */
  lemma {:induction false} AddingQueues(c: Hosted.Channel, k: Keys, g: Htlc, day: U32, addSent: bool, stateSent: bool)
    ensures var reply, q := OnHostAdd(c, k, g, day, addSent, stateSent), c.data.uncommitted + [Local(Add(g))];
      var signed := SignedNext(c.data.lcss, q, k, day).Ok?;
      var lost := !addSent || (signed && !stateSent);
      && (reply.result.Ok? <==> addSent && stateSent && signed)
      && reply.channel == c.(
           data := c.data.(uncommitted := q, localErrors := if lost then c.data.localErrors + [DeliveryFailed] else c.data.localErrors),
           signed := reply.channel.signed, given := c.given + [Grant(g.id, g.paymentHash)])
  {
    hide SignedNext;
  }

  /** The link that an offer gets, unless its place is taken. */
  function OfferLink(o: Offer, at: Place, peer: Key, now: nat, offer: nat): ForwardLink {
    ForwardLink(o.from, at, o.upstreamExpiry, Some(now + 30), o.htlc.paymentHash, o.sharedSecret, offer, Some(peer))
  }

  /**
   * An offer is taken exactly if it may be: then the HTLC as offered is queued and linked to where it came
   * from; and otherwise no channel and no link changes.
   */
  lemma {:induction false} OfferTakenIff(h: Host, w: World, peer: Key, o: Offer, env: Env)
    requires peer in h.channels
    ensures var got, c := OnOffer(h, w, peer, o, env), h.channels[peer];
      if MayTake(h, w, peer, o, env.disconnected) then
        var g := Given(c.data, w.channelIdOf(peer), o);
        var at, q := (w.scidOf(peer), g.id), c.data.uncommitted + [Local(Add(g))];
        var signed := SignedNext(c.data.lcss, q, KeysOf(w, peer), BlockDay(h)).Ok?;
        var lost := !env.addSent || (signed && !env.stateSent);
        && (got.result.Ok? <==> env.addSent && env.stateSent && signed)
        && peer in got.host.channels
        && got.host == h.(
             channels := h.channels[peer := c.(
               data := c.data.(uncommitted := q, localErrors := if lost then c.data.localErrors + [DeliveryFailed] else c.data.localErrors),
               signed := got.host.channels[peer].signed, given := c.given + [Grant(g.id, g.paymentHash)])],
             links := if at in h.links then h.links else h.links[at := OfferLink(o, at, peer, env.now, |h.offers|)],
             offers := h.offers + [o.from])
      else got.host == h.(offers := h.offers + [o.from], calls := got.host.calls)
  {
    hide Judge, MayTake, SignedNext, LocalOf, OnHostAdd;
    AcceptedIff(h, w, peer, o, env.disconnected);
    if MayTake(h, w, peer, o, env.disconnected) {
      AcceptedFits(h, w, peer, o, env.disconnected);
      var c := h.channels[peer];
      AddingQueues(c, KeysOf(w, peer), Given(c.data, w.channelIdOf(peer), o), BlockDay(h), env.addSent, env.stateSent);
    }
  }

  /** What is answered to an offer, if anything, and else the error. */
  ghost predicate AnswersOffer(h: Host, o: Offer, got: Outcome, answer: Answer) {
    got == Outcome(h.(offers := h.offers + [o.from], calls := h.calls + [Call(|h.offers|, o.from, answer, None)]), Ok(()))
  }

  ghost predicate RefusesOffer(h: Host, o: Offer, got: Outcome) {
    got.result.Err? && got.host == h.(offers := h.offers + [o.from])
  }

  /** An offer that is not taken gets the answer of the first test it fails. */
  lemma {:induction false} OfferAnswered(h: Host, w: World, peer: Key, o: Offer, env: Env)
    requires peer in h.channels && !MayTake(h, w, peer, o, env.disconnected)
    ensures var got, d := OnOffer(h, w, peer, o, env), h.channels[peer].data;
      if DeriveStatus(d) != Active then RefusesOffer(h, o, got)
      else if env.disconnected then AnswersOffer(h, o, got, FailCode(0x1007))
      else if o.htlc.paymentHash in h.preimages then AnswersOffer(h, o, got, Settle(h.preimages[o.htlc.paymentHash]))
      else if !ClaimableInTime(h, w, peer, o) then
        if o.htlc.cltvExpiry + RoutingFor(d, h.policy).cltvDelta >= 0x1_0000_0000 then RefusesOffer(h, o, got)
        else AnswersOffer(h, o, got, FailCode(0x100d))
      else if o.htlc.amount < d.lcss.init.htlcMinimum then AnswersOffer(h, o, got, FailCode(0x400e))
      else if o.htlc.amount > RoutingFor(d, h.policy).htlcMaximum then AnswersOffer(h, o, got, FailCode(0x1007))
      else if Fold(d.lcss, d.uncommitted).Err? then RefusesOffer(h, o, got)
      else if HasNumber(d) || o.htlc.amount > Fold(d.lcss, d.uncommitted).value.localBalance then AnswersOffer(h, o, got, FailCode(0x1007))
      else got.result.Err? || AnswersOffer(h, o, got, FailCode(0x1007))
  {
    hide Fold, Sum, FitsChannel, DeriveStatus, LocalOf, RoutingFor;
    var d := h.channels[peer].data;
    if HasNumber(d) {
      FitsIff(d, Given(d, w.channelIdOf(peer), o));
    }
  }

  // ---- Fees --------------------------------------------------------------------------------

  /** The base fee and a rate on whole millions, as far as 64 bits go. */
  lemma {:induction false} DemandedFeeIs(r: Routing, amount: U64)
    ensures DemandedFee(r, amount) == if amount / 1_000_000 * r.feePpm + r.feeBase < U64_BOUND then amount / 1_000_000 * r.feePpm + r.feeBase else U64_BOUND - 1
    ensures !Saturates(r, amount) ==> DemandedFee(r, amount) == BoltFee(r, amount / MILLION * MILLION)
  {
    var whole := amount / MILLION;
    assert whole * MILLION * r.feePpm == whole * r.feePpm * MILLION;
    DivideShifted(whole * r.feePpm, 0);
  }

  /** After a change of parameters a forward pays the fee just set, each part of it by its own name. */
  lemma {:induction false} SetFeeIsDemanded(c: Hosted.Channel, k: Keys, p: Params, force: bool, day: U32, fallback: Policy, amount: U64)
    requires OnSetChannel(c, k, p, force, day, fallback).result.Ok? && p != Params(None, None, None, None, None, None, None, None)
    ensures var before, after := RoutingFor(c.data, fallback), RoutingFor(OnSetChannel(c, k, p, force, day, fallback).channel.data, fallback);
      var base, ppm := if p.feeBase.Some? then p.feeBase.value else before.feeBase, if p.feePpm.Some? then p.feePpm.value else before.feePpm;
      && DemandedFee(after, amount) == (if amount / 1_000_000 * ppm + base < U64_BOUND then amount / 1_000_000 * ppm + base else U64_BOUND - 1)
      && after.cltvDelta == (if p.cltvDelta.Some? then p.cltvDelta.value else before.cltvDelta)
      && after.htlcMaximum == (if p.htlcMaximum.Some? then p.htlcMaximum.value else before.htlcMaximum)
  {
    hide OnSetChannel, DemandedFee, RoutingFor;
    SetChannelReaches(c, k, p, force, day, fallback);
    DemandedFeeIs(RoutingFor(OnSetChannel(c, k, p, force, day, fallback).channel.data, fallback), amount);
  }

  // ---- Committed HTLCs ---------------------------------------------------------------------

  /** A resolution of the host for an HTLC of this peer: queued if the HTLC is committed and the message goes out. */
  ghost predicate Replies(h: Host, w: World, peer: Key, r: PendingUpdate, got: Outcome)
    requires !r.Add?
  {
    && peer in h.channels
    && if HasId(h.channels[peer].data.lcss.incoming, r.id) then
         && (got.result.Ok? <==> GoesOut(h, w, peer, Local(r)))
         && (got.result.Ok? ==> Queues(h, got.host, peer, Local(r)))
         && StoresOnly(h, w, got.host, peer, Local(r))
       else got == Outcome(h, Ok(()))
  }

  /** The committed state leaves room for the HTLC, which is not too small. */
  predicate HasRoom(d: ChannelData, htlc: Htlc) {
    && d.lcss.init.htlcMinimum <= htlc.amount
    && |d.lcss.incoming| + |d.lcss.outgoing| <= d.lcss.init.maxAccepted
    && Sum(d.lcss.incoming) + Sum(d.lcss.outgoing) <= d.lcss.init.maxInFlight
  }

  /** The HTLC brings the amount with its fee and expires late enough; the largest numbers count as enough. */
  predicate BringsEnough(r: Routing, height: U32, htlc: Htlc, relay: Relay) {
    && (height + 2 <= relay.cltv || relay.cltv == 0xffff_ffff)
    && (relay.amount + DemandedFee(r, relay.amount) <= htlc.amount || htlc.amount == U64_BOUND - 1)
    && (relay.cltv + r.cltvDelta <= htlc.cltvExpiry || htlc.cltvExpiry == 0xffff_ffff)
  }

  /** A temporary failure, wrapped for the sender when the onion gave a secret shared with it. */
  function BackToSender(w: World, peer: Key, htlc: Htlc, secret: Option<Bytes32>): PendingUpdate {
    Fail(w.channelIdOf(peer), htlc.id, if secret.Some? then w.wrap(secret.value, [0x10, 0x07]) else [0x10, 0x07])
  }

  function NormalLink(w: World, peer: Key, htlc: Htlc, relay: Relay, offer: nat): ForwardLink {
    ForwardLink((w.scidOf(peer), htlc.id), (relay.scid, htlc.id), None, None, htlc.paymentHash, Some(relay.sharedSecret), offer, None)
  }

  /** The host with the HTLC handed to the node and linked under the next channel, unless that place is taken. */
  function HandedOver(h: Host, w: World, peer: Key, htlc: Htlc, relay: Relay): Host {
    var at := (relay.scid, htlc.id);
    h.(offers := h.offers + [(w.scidOf(peer), htlc.id)],
       links := if at in h.links then h.links else h.links[at := NormalLink(w, peer, htlc, relay, |h.offers|)])
  }

  /** The HTLC offered to the next hosted channel: what the onion asks for, against the same payment hash. */
  function Onward(w: World, peer: Key, target: Key, htlc: Htlc, relay: Relay): Offer {
    Offer(Htlc(w.channelIdOf(target), 0, relay.amount, htlc.paymentHash, relay.cltv, relay.onion, []),
          (w.scidOf(peer), htlc.id), Some(relay.sharedSecret), Some(relay.cltv))
  }

  lemma {:induction false} FailingBackReplies(h: Host, w: World, peer: Key, htlc: Htlc)
    requires peer in h.channels
    ensures var peeled := w.peel(htlc.onion, htlc.paymentHash);
      Replies(h, w, peer, BackToSender(w, peer, htlc, if peeled.Some? then Some(peeled.value.sharedSecret) else None), FailBack(h, w, peer, htlc))
  {
    hide SendLocal, HasId, GoesOut, StoresOnly;
    SendingQueues(h, w, peer, Fail(w.channelIdOf(peer), htlc.id, FailureFor(w, htlc)));
  }

  lemma {:induction false} EnoughIsPaid(r: Routing, height: U32, htlc: Htlc, relay: Relay)
    ensures PaysEnough(r, height, htlc, relay) <==> BringsEnough(r, height, htlc, relay)
  {
    hide DemandedFee;
  }

  /** A committed HTLC without room, without a readable onion or without enough to forward goes back. */
  lemma {:induction false} DispatchFailsBack(h: Host, w: World, peer: Key, d: ChannelData, htlc: Htlc, env: Env)
    requires peer in h.channels
    ensures var got, peeled := DispatchIncoming(h, w, peer, d, htlc, env), w.peel(htlc.onion, htlc.paymentHash);
      && (!HasRoom(d, htlc) && peeled.None? ==> Replies(h, w, peer, BackToSender(w, peer, htlc, None), got))
      && (HasRoom(d, htlc) && peeled.None? ==>
            Replies(h, w, peer, FailMalformed(w.channelIdOf(peer), htlc.id, w.hashOnion(htlc.onion), 0xc005), got))
      && (peeled.Some? ==>
            var relay := peeled.value;
            && (forall t: Key :: FirstBehind(h, w, t, relay.scid) && t == peer && HasRoom(d, htlc) && relay.amount <= htlc.amount ==>
                  got == Outcome(h, Err(InvalidMessage)))
            && (|| !HasRoom(d, htlc) || htlc.amount < relay.amount
                || (exists t: Key :: FirstBehind(h, w, t, relay.scid) && t != peer && t in h.channels &&
                      !BringsEnough(RoutingFor(h.channels[t].data, h.policy), h.height, htlc, relay)) ==>
                  Replies(h, w, peer, BackToSender(w, peer, htlc, Some(relay.sharedSecret)), got)))
  {
    hide FailBack, SendLocal, ToHosted, ToNormal, PaysEnough, BringsEnough, RoutingFor, Sum, Replies, FirstBehind;
    FailingBackReplies(h, w, peer, htlc);
    var malformed := FailMalformed(w.channelIdOf(peer), htlc.id, w.hashOnion(htlc.onion), 0xc005);
    assert Replies(h, w, peer, malformed, SendLocal(h, w, peer, malformed)) by { SendingReplies(h, w, peer, malformed); }
    var peeled := w.peel(htlc.onion, htlc.paymentHash);
    if peeled.Some? {
      FirstIsPeerFor(h, w, peeled.value.scid);
      var target := PeerFor(h, w, peeled.value.scid);
      if target.Some? {
        EnoughIsPaid(RoutingFor(h.channels[target.value].data, h.policy), h.height, htlc, peeled.value);
      }
    }
  }

  lemma {:induction false} SendingReplies(h: Host, w: World, peer: Key, r: PendingUpdate)
    requires peer in h.channels && !r.Add?
    ensures Replies(h, w, peer, r, SendLocal(h, w, peer, r))
  {
    hide SendLocal, HasId, GoesOut, StoresOnly;
    SendingQueues(h, w, peer, r);
  }

  /** The forward may go on: there is room, and the next channel, if hosted, is another and gets enough. */
  ghost predicate GoesOn(h: Host, w: World, peer: Key, d: ChannelData, htlc: Htlc, relay: Relay) {
    && w.peel(htlc.onion, htlc.paymentHash) == Some(relay) && HasRoom(d, htlc) && relay.amount <= htlc.amount
    && forall t: Key :: FirstBehind(h, w, t, relay.scid) ==>
         t in h.channels && t != peer && BringsEnough(RoutingFor(h.channels[t].data, h.policy), h.height, htlc, relay)
  }

  /**
   * A forward that may go on is handed to the node for a normal channel, or offered to the hosted one; if
   * that fails the HTLC goes back and its link is dropped. `sent` is the outcome of failing it back.
   */
  lemma {:induction false} DispatchForwards(h: Host, w: World, peer: Key, d: ChannelData, htlc: Htlc, relay: Relay, env: Env) returns (sent: Outcome)
    requires peer in h.channels && GoesOn(h, w, peer, d, htlc, relay)
    ensures var got, back := DispatchIncoming(h, w, peer, d, htlc, env), BackToSender(w, peer, htlc, Some(relay.sharedSecret));
      && (!Hosts(h, w, relay.scid) ==>
            var over := HandedOver(h, w, peer, htlc, relay);
            if env.onionSent then got == Outcome(over, Ok(()))
            else
              && Replies(over, w, peer, back, sent)
              && got == if sent.result.Ok? then Outcome(sent.host.(links := sent.host.links - {(relay.scid, htlc.id)}), Ok(())) else sent)
      && (forall t: Key :: FirstBehind(h, w, t, relay.scid) ==>
            var offered := OnOffer(h, w, t, Onward(w, peer, t, htlc, relay), env);
            if offered.result.Ok? then got == offered
            else
              && Replies(offered.host, w, peer, back, sent)
              && if sent.result.Ok? then got.result.Ok? && LosesLink(w, sent.host, got.host, (w.scidOf(peer), htlc.id)) else got == sent)
  {
    hide FailBack, SendLocal, OnOffer, PaysEnough, BringsEnough, RoutingFor, Sum, Replies, FirstBehind;
    FirstIsPeerFor(h, w, relay.scid);
    var target := PeerFor(h, w, relay.scid);
    if target.None? {
      var over := HandedOver(h, w, peer, htlc, relay);
      sent := FailBack(over, w, peer, htlc);
      FailingBackReplies(over, w, peer, htlc);
    } else {
      EnoughIsPaid(RoutingFor(h.channels[target.value].data, h.policy), h.height, htlc, relay);
      var offered := OnOffer(h, w, target.value, Onward(w, peer, target.value, htlc, relay), env);
      sent := FailBack(offered.host, w, peer, htlc);
      OfferKeepsPeers(h, w, target.value, Onward(w, peer, target.value, htlc, relay), env);
      FailingBackReplies(offered.host, w, peer, htlc);
    }
  }

  /** The first link that serves the HTLC, if there is one, goes from the place it leads to. */
  ghost predicate LosesLink(w: World, h: Host, h': Host, from: Place) {
    if Linked(h, from) then h' == h.(links := h.links - {h.links[LinkOf(h, w, from)].outgoing}) else h' == h
  }

  lemma {:induction false} OfferKeepsPeers(h: Host, w: World, target: Key, o: Offer, env: Env)
    requires target in h.channels
    ensures OnOffer(h, w, target, o, env).host.channels.Keys == h.channels.Keys
  {
    hide Judge, OnHostAdd;
  }
}

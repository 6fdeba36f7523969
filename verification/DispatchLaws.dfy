/** What becomes of an HTLC that a peer committed: exactly when nothing is left waiting to decide it. */
module DispatchLaws {
  import opened Base
  import opened State
  import opened StateLaws
  import opened HtlcIds
  import opened Hosted = Channel
  import opened Forwarding

  /** A resolution of the HTLC is queued, or a link waits for one. */
  ghost predicate AccountedFor(h: Host, w: World, peer: Key, id: U64) {
    || (peer in h.channels && HasKey(h.channels[peer].data.uncommitted, (true, id)))
    || Linked(h, (w.scidOf(peer), id))
  }

  /** The key under which a forward to a hosted channel would be linked. */
  function LinkKey(h: Host, w: World, target: Key): (nat, nat)
    requires target in h.channels
  {
    (w.scidOf(target), NextHtlcId(h.channels[target].data))
  }

  /** Both messages of the new HTLC get through and the state with it can be signed. */
  ghost predicate AddGoesOut(h: Host, w: World, target: Key, o: Offer, env: Env)
    requires target in h.channels
  {
    var d := h.channels[target].data;
    && env.addSent && env.stateSent && CountersFit(d)
    && SignedNext(d.lcss, d.uncommitted + [Local(Add(Stamp(d, w.channelIdOf(target), o.htlc)))], KeysOf(w, target), BlockDay(h)).Ok?
  }

  /**
   * A forward is lost when the target declines it, because the answer goes to the node, which knows no
   * such HTLC; and when it is announced to the target although the key of its link is taken, because
   * the store keeps the older link. Only a later recovery dispatches such an HTLC again.
   */
  ghost predicate HostedForwardIsLost(h: Host, w: World, peer: Key, target: Key, htlc: Htlc, relay: Relay, env: Env)
    requires target in h.channels
  {
    var o := OfferOf(w, peer, target, htlc, relay);
    match Judge(h, w, target, o, env.disconnected)
    case Refused(_) => false
    case Answered(_) => true
    case Accepted => LinkKey(h, w, target) in h.links && AddGoesOut(h, w, target, o, env)
  }

  ghost predicate IsLost(h: Host, w: World, peer: Key, d: ChannelData, htlc: Htlc, env: Env) {
    var peeled := w.peel(htlc.onion, htlc.paymentHash);
    && WithinLimits(d, htlc) && peeled.Some? && peeled.value.amount <= htlc.amount
    && match PeerFor(h, w, peeled.value.scid)
       case None => env.onionSent && (peeled.value.scid, htlc.id) in h.links
       case Some(target) =>
         && PaysEnough(RoutingFor(h.channels[target].data, h.policy), h.height, htlc, peeled.value)
         && HostedForwardIsLost(h, w, peer, target, htlc, peeled.value, env)
  }

  lemma {:induction false} SentIsQueued(h: Host, w: World, peer: Key, r: PendingUpdate)
    requires !r.Add? && peer in h.channels && HasId(h.channels[peer].data.lcss.incoming, r.id)
    requires SendLocal(h, w, peer, r).result.Ok?
    ensures var h' := SendLocal(h, w, peer, r).host;
      peer in h'.channels && HasKey(h'.channels[peer].data.uncommitted, (true, r.id))
  {
    hide SignedNext, HasId;
    var q' := SendLocal(h, w, peer, r).host.channels[peer].data.uncommitted;
    assert ResolutionKey(q'[|q'| - 1]) == Some((true, r.id));
  }

  lemma {:induction false} FailBackIsQueued(h: Host, w: World, peer: Key, htlc: Htlc)
    requires peer in h.channels && HasId(h.channels[peer].data.lcss.incoming, htlc.id)
    requires FailBack(h, w, peer, htlc).result.Ok?
    ensures var h' := FailBack(h, w, peer, htlc).host;
      peer in h'.channels && HasKey(h'.channels[peer].data.uncommitted, (true, htlc.id))
  {
    hide SendLocal, HasId, HasKey;
    SentIsQueued(h, w, peer, Fail(w.channelIdOf(peer), htlc.id, FailureFor(w, htlc)));
  }

  /** What an offer does to the links and to channels other than its target. */
  lemma {:induction false} OfferShape(h: Host, w: World, target: Key, o: Offer, env: Env, peer: Key)
    requires target in h.channels && peer in h.channels && peer != target
    ensures var out := OnOffer(h, w, target, o, env);
      && peer in out.host.channels && out.host.channels[peer] == h.channels[peer]
      && match Judge(h, w, target, o, env.disconnected)
         case Refused(_) => out.result.Err?
         case Answered(_) => out.result.Ok? && out.host.links == h.links
         case Accepted =>
           (out.result.Ok? <==> AddGoesOut(h, w, target, o, env)) &&
           if LinkKey(h, w, target) in h.links then out.host.links == h.links
           else Linked(out.host, o.from)
  {
    hide Judge, SignedNext;
    if Judge(h, w, target, o, env.disconnected) == Accepted {
      AcceptedFits(h, w, target, o, env.disconnected);
      var at := (w.scidOf(target), NextHtlcId(h.channels[target].data) as U64);
      assert at !in h.links ==> OnOffer(h, w, target, o, env).host.links[at].incoming == o.from;
    }
  }

  lemma {:induction false} HostedForward(h: Host, w: World, peer: Key, target: Key, htlc: Htlc, relay: Relay, env: Env)
    requires peer in h.channels && target in h.channels && peer != target
    requires HasId(h.channels[peer].data.lcss.incoming, htlc.id) && !AccountedFor(h, w, peer, htlc.id)
    requires ToHosted(h, w, peer, target, htlc, relay, env).result.Ok?
    ensures AccountedFor(ToHosted(h, w, peer, target, htlc, relay, env).host, w, peer, htlc.id) <==>
      !HostedForwardIsLost(h, w, peer, target, htlc, relay, env)
  {
    hide OnOffer, Judge, FailBack, HasId, HasKey, AddGoesOut;
    var o := OfferOf(w, peer, target, htlc, relay);
    var offered := OnOffer(h, w, target, o, env);
    OfferShape(h, w, target, o, env, peer);
    if offered.result.Err? {
      FailBackIsQueued(offered.host, w, peer, htlc);
    }
  }

  lemma {:induction false} NormalForward(h: Host, w: World, peer: Key, htlc: Htlc, relay: Relay, env: Env)
    requires peer in h.channels && HasId(h.channels[peer].data.lcss.incoming, htlc.id) && !AccountedFor(h, w, peer, htlc.id)
    requires ToNormal(h, w, peer, htlc, relay, env).result.Ok?
    ensures AccountedFor(ToNormal(h, w, peer, htlc, relay, env).host, w, peer, htlc.id) <==>
      !(env.onionSent && (relay.scid, htlc.id) in h.links)
  {
    hide FailBack, HasId, HasKey;
    var from, at := (w.scidOf(peer), htlc.id), (relay.scid, htlc.id);
    var link := ForwardLink(from, at, None, None, htlc.paymentHash, Some(relay.sharedSecret), |h.offers|, None);
    var linked := AddLink(LogOffer(h, from), at, link);
    if !env.onionSent {
      FailBackIsQueued(linked, w, peer, htlc);
    } else if at !in h.links {
      assert linked.links[at].incoming == from;
    }
  }

  /**
   * After a dispatch that reports no error, a committed HTLC of the peer is either queued for a
   * resolution or linked to the HTLC that will decide it, exactly unless its forward is lost.
   */
  lemma {:induction false} DispatchedUnlessLost(h: Host, w: World, peer: Key, d: ChannelData, htlc: Htlc, env: Env)
    requires peer in h.channels && HasId(h.channels[peer].data.lcss.incoming, htlc.id) && !AccountedFor(h, w, peer, htlc.id)
    requires DispatchIncoming(h, w, peer, d, htlc, env).result.Ok?
    ensures AccountedFor(DispatchIncoming(h, w, peer, d, htlc, env).host, w, peer, htlc.id) <==> !IsLost(h, w, peer, d, htlc, env)
  {
    hide FailBack, SendLocal, ToHosted, ToNormal, HostedForwardIsLost, WithinLimits, PaysEnough, HasId, HasKey, Linked;
    var peeled := w.peel(htlc.onion, htlc.paymentHash);
    if !WithinLimits(d, htlc) || (peeled.Some? && htlc.amount < peeled.value.amount) {
      FailBackIsQueued(h, w, peer, htlc);
    } else if peeled.None? {
      SentIsQueued(h, w, peer, FailMalformed(w.channelIdOf(peer), htlc.id, w.hashOnion(htlc.onion), 0xc005));
    } else {
      var target := PeerFor(h, w, peeled.value.scid);
      if target.None? {
        NormalForward(h, w, peer, htlc, peeled.value, env);
      } else if PaysEnough(RoutingFor(h.channels[target.value].data, h.policy), h.height, htlc, peeled.value) {
        HostedForward(h, w, peer, target.value, htlc, peeled.value, env);
      } else {
        FailBackIsQueued(h, w, peer, htlc);
      }
    }
  }

  /** The other way to lose a forward: the target takes it under a key that an older link still holds. */
  lemma {:induction false} TakenKeyLoses(h: Host, w: World, peer: Key, target: Key, htlc: Htlc, relay: Relay, env: Env)
    requires peer in h.channels && target in h.channels && peer != target
    requires Judge(h, w, target, OfferOf(w, peer, target, htlc, relay), env.disconnected) == Accepted
    requires AddGoesOut(h, w, target, OfferOf(w, peer, target, htlc, relay), env) && LinkKey(h, w, target) in h.links
    ensures HostedForwardIsLost(h, w, peer, target, htlc, relay, env)
    ensures var out := ToHosted(h, w, peer, target, htlc, relay, env);
      out.result.Ok? && out.host.channels[peer] == h.channels[peer] && out.host.links == h.links
  {
    hide OnOffer, Judge, AddGoesOut;
    OfferShape(h, w, target, OfferOf(w, peer, target, htlc, relay), env, peer);
  }

  /** A forward to an active hosted channel whose peer is known to be disconnected is always lost. */
  lemma {:induction false} DisconnectedTargetLoses(h: Host, w: World, peer: Key, target: Key, htlc: Htlc, relay: Relay, env: Env)
    requires target in h.channels && DeriveStatus(h.channels[target].data) == Active && env.disconnected
    ensures HostedForwardIsLost(h, w, peer, target, htlc, relay, env)
    ensures var out := ToHosted(h, w, peer, target, htlc, relay, env);
      out.result.Ok? && out.host.channels == h.channels && out.host.links == h.links
  {
    hide DeriveStatus;
    assert Judge(h, w, target, OfferOf(w, peer, target, htlc, relay), true) == Answered(FailCode(TEMPORARY));
  }
}

/**
 * What a commit and a recovery set in motion: every HTLC that needs deciding is accounted for or its
 * forward is lost, every failure of the peer reaches its sender, and what the parts queue and answer.
 */
module Commits {
  import opened Base
  import opened State
  import opened StateLaws
  import opened HtlcIds
  import opened Hosted = Channel
  import opened ChannelLaws
  import opened ChannelRuns
  import opened ChannelIds
  import opened Forwarding
  import opened ForwardingLaws
  import opened HostRuns
  import opened HostSteps
  import opened LinkRuns
  import opened Handshakes
  import opened DispatchLaws
  import opened Effects

  // ---- Links and answers while HTLCs are dispatched ----------------------------------------

  /** Every link lies under the place it leads to; on a normal channel that place repeats the id it came from. */
  ghost predicate Keyed(h: Host, w: World) {
    forall at :: at in h.links ==> h.links[at].outgoing == at && (Hosts(h, w, at.0) || at.1 == h.links[at].incoming.1)
  }

  /** The link may go with an HTLC of this peer: it serves that HTLC, or its key on a normal channel is the HTLC's id. */
  ghost predicate GoesWith(h: Host, w: World, peer: Key, hs: seq<Htlc>, at: Place)
    requires at in h.links
  {
    exists g :: g in hs && (h.links[at].incoming == (w.scidOf(peer), g.id) || (at.1 == g.id && !Hosts(h, w, at.0)))
  }

  ghost predicate LinksStay(w: World, peer: Key, h: Host, h': Host, hs: seq<Htlc>) {
    && h'.channels.Keys == h.channels.Keys
    && (Keyed(h, w) ==> Keyed(h', w))
    && (Keyed(h, w) ==> forall at :: at in h.links ==> (at in h'.links && h'.links[at] == h.links[at]) || GoesWith(h, w, peer, hs, at))
  }

  /** Other channels than the peer's get nothing but HTLCs, and no call answers a link. */
  ghost predicate OnlyOffers(peer: Key, h: Host, h': Host) {
    && (forall p :: p in h.channels && p != peer ==> p in h'.channels && OnlyAdds(h.channels[p].data.uncommitted, h'.channels[p].data.uncommitted))
    && h.calls <= h'.calls && (forall i :: |h.calls| <= i < |h'.calls| ==> h'.calls[i].via.None?)
  }

  predicate OnlyAdds(q: seq<Update>, q': seq<Update>) {
    q <= q' && forall i :: |q| <= i < |q'| ==> q'[i].Local? && q'[i].u.Add?
  }

  lemma {:induction false} LinksStayTwice(w: World, peer: Key, h: Host, h1: Host, h2: Host, hs: seq<Htlc>)
    requires LinksStay(w, peer, h, h1, hs) && LinksStay(w, peer, h1, h2, hs)
    ensures LinksStay(w, peer, h, h2, hs)
  {
    if Keyed(h, w) {
      forall at | at in h.links
        ensures (at in h2.links && h2.links[at] == h.links[at]) || GoesWith(h, w, peer, hs, at)
      {
        SameFirst(h, h1, w, at.0);
      }
    }
  }

  lemma {:induction false} LinksStayMore(w: World, peer: Key, h: Host, h': Host, hs: seq<Htlc>, all: seq<Htlc>)
    requires LinksStay(w, peer, h, h', hs) && forall g :: g in hs ==> g in all
    ensures LinksStay(w, peer, h, h', all)
  {
  }

  lemma {:induction false} OnlyOffersTwice(peer: Key, h: Host, h1: Host, h2: Host)
    requires OnlyOffers(peer, h, h1) && OnlyOffers(peer, h1, h2)
    ensures OnlyOffers(peer, h, h2)
  {
    forall p | p in h.channels && p != peer
      ensures p in h2.channels && OnlyAdds(h.channels[p].data.uncommitted, h2.channels[p].data.uncommitted)
    {
      var q, q1, q2 := h.channels[p].data.uncommitted, h1.channels[p].data.uncommitted, h2.channels[p].data.uncommitted;
      assert OnlyAdds(q, q1) && OnlyAdds(q1, q2);
      assert forall i :: |q| <= i < |q1| ==> q2[i] == q1[i];
    }
    assert forall i :: |h.calls| <= i < |h1.calls| ==> h2.calls[i] == h1.calls[i];
  }

  // ---- Parts of a dispatch -----------------------------------------------------------------

  lemma {:induction false} SameLinksStay(w: World, peer: Key, h: Host, h': Host, hs: seq<Htlc>)
    requires h'.channels.Keys == h.channels.Keys && h'.links == h.links
    ensures LinksStay(w, peer, h, h', hs)
  {
    hide GoesWith;
  }

  lemma {:induction false} SendingStays(w: World, h: Host, peer: Key, r: PendingUpdate, hs: seq<Htlc>)
    requires !r.Add? && peer in h.channels
    ensures LinksStay(w, peer, h, SendLocal(h, w, peer, r).host, hs) && OnlyOffers(peer, h, SendLocal(h, w, peer, r).host)
  {
    hide OnLocalResolve, HasId, LinksStay;
    SameLinksStay(w, peer, h, SendLocal(h, w, peer, r).host, hs);
  }

  lemma {:induction false} AddingQueuesOne(c: Hosted.Channel, k: Keys, g: Htlc, day: U32, addSent: bool, stateSent: bool)
    ensures OnHostAdd(c, k, g, day, addSent, stateSent).channel.data.uncommitted == c.data.uncommitted + [Local(Add(g))]
  {
    hide SignedNext;
  }

  lemma {:induction false} OfferingStays(w: World, h: Host, peer: Key, target: Key, o: Offer, env: Env, hs: seq<Htlc>)
    requires target in h.channels
    ensures LinksStay(w, peer, h, OnOffer(h, w, target, o, env).host, hs) && OnlyOffers(peer, h, OnOffer(h, w, target, o, env).host)
  {
    hide Judge, OnHostAdd, LinksStay, OnlyOffers, LocalOf;
    var h', logged := OnOffer(h, w, target, o, env).host, LogOffer(h, o.from);
    SameLinksStay(w, peer, h, logged, hs);
    SameLinksStay(w, peer, h, h.(offers := h'.offers, calls := h'.calls), hs);
    if Judge(h, w, target, o, env.disconnected) == Accepted {
      AcceptedFits(h, w, target, o, env.disconnected);
      TakingStays(w, h, peer, target, o, env, hs);
    } else {
      AnsweringOffers(h, w, peer, target, o, env);
    }
  }

  lemma {:induction false} AnsweringOffers(h: Host, w: World, peer: Key, target: Key, o: Offer, env: Env)
    requires target in h.channels && Judge(h, w, target, o, env.disconnected) != Accepted
    ensures OnlyOffers(peer, h, OnOffer(h, w, target, o, env).host)
  {
    hide Judge;
  }

  lemma {:induction false} TakingStays(w: World, h: Host, peer: Key, target: Key, o: Offer, env: Env, hs: seq<Htlc>)
    requires target in h.channels && Judge(h, w, target, o, env.disconnected) == Accepted && CountersFit(h.channels[target].data)
    ensures LinksStay(w, peer, h, OnOffer(h, w, target, o, env).host, hs) && OnlyOffers(peer, h, OnOffer(h, w, target, o, env).host)
  {
    hide Judge, OnHostAdd, LinksStay, NextHtlcId, CountersFit;
    var c, h' := h.channels[target], OnOffer(h, w, target, o, env).host;
    var g := Stamp(c.data, w.channelIdOf(target), o.htlc);
    AddingQueuesOne(c, KeysOf(w, target), g, BlockDay(h), env.addSent, env.stateSent);
    var at := (w.scidOf(target), g.id);
    NewLinkStays(w, h, h', peer, at, LinkFor(o, at, g.paymentHash, env.now, |h.offers|, target), hs);
  }

  /** One link more, of a hosted channel. */
  lemma {:induction false} NewLinkStays(w: World, h: Host, h': Host, peer: Key, at: Place, link: ForwardLink, hs: seq<Htlc>)
    requires h'.channels.Keys == h.channels.Keys && link.outgoing == at && Hosts(h, w, at.0)
    requires h'.links == if at in h.links then h.links else h.links[at := link]
    ensures LinksStay(w, peer, h, h', hs)
  {
    hide GoesWith, Hosts;
    forall b: Place
      ensures Hosts(h', w, b.0) <==> Hosts(h, w, b.0)
    {
      SameFirst(h, h', w, b.0);
    }
  }

  lemma {:induction false} DroppingStays(w: World, h: Host, peer: Key, htlc: Htlc, at: Place)
    requires at in h.links && Keyed(h, w) ==> GoesWith(h, w, peer, [htlc], at)
    ensures LinksStay(w, peer, h, DropLink(h, at), [htlc]) && OnlyOffers(peer, h, DropLink(h, at))
  {
    hide GoesWith;
  }

  lemma {:induction false} ToHostedStays(w: World, h: Host, peer: Key, target: Key, htlc: Htlc, relay: Relay, env: Env)
    requires peer in h.channels && target in h.channels
    ensures var h' := ToHosted(h, w, peer, target, htlc, relay, env).host;
      LinksStay(w, peer, h, h', [htlc]) && OnlyOffers(peer, h, h')
  {
    hide OnOffer, SendLocal, LinksStay, OnlyOffers;
    var from, o := (w.scidOf(peer), htlc.id), OfferOf(w, peer, target, htlc, relay);
    var offered := OnOffer(h, w, target, o, env).host;
    OfferingStays(w, h, peer, target, o, env, [htlc]);
    SameKeys(w, peer, h, offered, [htlc]);
    var failed := FailBack(offered, w, peer, htlc).host;
    SendingStays(w, offered, peer, Fail(w.channelIdOf(peer), htlc.id, FailureFor(w, htlc)), [htlc]);
    LinksStayTwice(w, peer, h, offered, failed, [htlc]);
    OnlyOffersTwice(peer, h, offered, failed);
    if Linked(failed, from) {
      var at := failed.links[LinkOf(failed, w, from)].outgoing;
      assert htlc in [htlc];
      DroppingStays(w, failed, peer, htlc, at);
      LinksStayTwice(w, peer, h, failed, DropLink(failed, at), [htlc]);
      OnlyOffersTwice(peer, h, failed, DropLink(failed, at));
    }
  }

  lemma {:induction false} SameKeys(w: World, peer: Key, h: Host, h': Host, hs: seq<Htlc>)
    requires LinksStay(w, peer, h, h', hs)
    ensures h'.channels.Keys == h.channels.Keys
  {
  }

  lemma {:induction false} ToNormalStays(w: World, h: Host, peer: Key, htlc: Htlc, relay: Relay, env: Env)
    requires peer in h.channels && !Hosts(h, w, relay.scid)
    ensures var h' := ToNormal(h, w, peer, htlc, relay, env).host;
      LinksStay(w, peer, h, h', [htlc]) && OnlyOffers(peer, h, h')
  {
    hide SendLocal, LinksStay, OnlyOffers;
    var from, at := (w.scidOf(peer), htlc.id), (relay.scid, htlc.id);
    var link := ForwardLink(from, at, None, None, htlc.paymentHash, Some(relay.sharedSecret), |h.offers|, None);
    var linked := AddLink(LogOffer(h, from), at, link);
    LinkingStays(w, h, peer, from, at, link, [htlc]);
    var failed := FailBack(linked, w, peer, htlc).host;
    SendingStays(w, linked, peer, Fail(w.channelIdOf(peer), htlc.id, FailureFor(w, htlc)), [htlc]);
    SameKeys(w, peer, linked, failed, [htlc]);
    LinksStayTwice(w, peer, h, linked, failed, [htlc]);
    OnlyOffersTwice(peer, h, linked, failed);
    assert htlc in [htlc];
    SameFirst(h, failed, w, relay.scid);
    DroppingStays(w, failed, peer, htlc, at);
    LinksStayTwice(w, peer, h, failed, DropLink(failed, at), [htlc]);
    OnlyOffersTwice(peer, h, failed, DropLink(failed, at));
  }

  lemma {:induction false} LinkingStays(w: World, h: Host, peer: Key, from: Place, at: Place, link: ForwardLink, hs: seq<Htlc>)
    requires link.outgoing == at && at.1 == link.incoming.1
    ensures var h' := AddLink(LogOffer(h, from), at, link); LinksStay(w, peer, h, h', hs) && OnlyOffers(peer, h, h')
  {
    hide GoesWith;
  }

  lemma {:induction false} DispatchStays(w: World, h: Host, peer: Key, d: ChannelData, htlc: Htlc, env: Env)
    requires peer in h.channels
    ensures var h' := DispatchIncoming(h, w, peer, d, htlc, env).host;
      LinksStay(w, peer, h, h', [htlc]) && OnlyOffers(peer, h, h')
  {
    hide ToHosted, ToNormal, SendLocal, WithinLimits, PaysEnough, LinksStay, OnlyOffers;
    SameLinksStay(w, peer, h, h, [htlc]);
    NoOffers(peer, h);
    SendingStays(w, h, peer, Fail(w.channelIdOf(peer), htlc.id, FailureFor(w, htlc)), [htlc]);
    SendingStays(w, h, peer, FailMalformed(w.channelIdOf(peer), htlc.id, w.hashOnion(htlc.onion), 0xc005), [htlc]);
    var peeled := w.peel(htlc.onion, htlc.paymentHash);
    if peeled.Some? {
      var target := PeerFor(h, w, peeled.value.scid);
      if target.Some? {
        ToHostedStays(w, h, peer, target.value, htlc, peeled.value, env);
      } else {
        ToNormalStays(w, h, peer, htlc, peeled.value, env);
      }
    }
  }

  lemma {:induction false} NoOffers(peer: Key, h: Host)
    ensures OnlyOffers(peer, h, h)
  {
  }

  // ---- Every dispatched HTLC is accounted for ----------------------------------------------

  lemma {:induction false} AccountedStays(w: World, h: Host, h': Host, peer: Key, id: U64, hs: seq<Htlc>)
    requires peer in h.channels && AccountedFor(h, w, peer, id) && Keyed(h, w) && Continues(w, h, h') && LinksStay(w, peer, h, h', hs)
    requires forall g :: g in hs ==> g.id != id
    ensures AccountedFor(h', w, peer, id)
  {
    hide PoolFrom, NewLinksServed;
    assert Extends(h.channels[peer], h'.channels[peer]);
    if Linked(h, (w.scidOf(peer), id)) {
      var at :| at in h.links && h.links[at].incoming == (w.scidOf(peer), id);
      assert !GoesWith(h, w, peer, hs, at);
    } else {
      KeyStays(h.channels[peer].data.uncommitted, h'.channels[peer].data.uncommitted, (true, id));
    }
  }

  lemma {:induction false} KeyStays(q: seq<Update>, q': seq<Update>, key: (bool, U64))
    requires HasKey(q, key) && q <= q'
    ensures HasKey(q', key)
  {
    var i :| 0 <= i < |q| && ResolutionKey(q[i]) == Some(key);
    assert ResolutionKey(q'[i]) == Some(key);
  }

  lemma {:induction false} SentIsAccounted(h: Host, w: World, peer: Key, r: PendingUpdate)
    requires !r.Add? && peer in h.channels && HasId(h.channels[peer].data.lcss.incoming, r.id) && SendLocal(h, w, peer, r).result.Ok?
    ensures AccountedFor(SendLocal(h, w, peer, r).host, w, peer, r.id)
  {
    hide SendLocal, HasId, HasKey;
    SentIsQueued(h, w, peer, r);
  }

  lemma {:induction false} DroppedIsAccounted(h: Host, w: World, peer: Key, id: U64, at: Place)
    requires peer in h.channels && HasKey(h.channels[peer].data.uncommitted, (true, id))
    ensures AccountedFor(DropLink(h, at), w, peer, id)
  {
    hide HasKey;
  }

  lemma {:induction false} HostedIsAccounted(h: Host, w: World, peer: Key, target: Key, htlc: Htlc, relay: Relay, env: Env)
    requires peer in h.channels && target in h.channels && peer != target
    requires HasId(h.channels[peer].data.lcss.incoming, htlc.id) && ToHosted(h, w, peer, target, htlc, relay, env).result.Ok?
    ensures HostedForwardIsLost(h, w, peer, target, htlc, relay, env) || AccountedFor(ToHosted(h, w, peer, target, htlc, relay, env).host, w, peer, htlc.id)
  {
    hide OnOffer, Judge, SendLocal, HasId, HasKey, AddGoesOut;
    var o := OfferOf(w, peer, target, htlc, relay);
    var offered := OnOffer(h, w, target, o, env);
    OfferShape(h, w, target, o, env, peer);
    if offered.result.Err? {
      var r := Fail(w.channelIdOf(peer), htlc.id, FailureFor(w, htlc));
      SentIsAccounted(offered.host, w, peer, r);
      SentIsQueued(offered.host, w, peer, r);
      var failed := FailBack(offered.host, w, peer, htlc).host;
      if Linked(failed, o.from) {
        DroppedIsAccounted(failed, w, peer, htlc.id, failed.links[LinkOf(failed, w, o.from)].outgoing);
      }
    } else if !HostedForwardIsLost(h, w, peer, target, htlc, relay, env) {
      NewLinkWaits(h, w, target, o, env);
    }
  }

  /** An accepted offer whose key is free gets a link under a hosted channel. */
  lemma {:induction false} NewLinkWaits(h: Host, w: World, target: Key, o: Offer, env: Env)
    requires target in h.channels && Judge(h, w, target, o, env.disconnected) == Accepted && LinkKey(h, w, target) !in h.links
    ensures var h' := OnOffer(h, w, target, o, env).host;
      Linked(h', o.from)
  {
    hide Judge, OnHostAdd, LocalOf;
    AcceptedFits(h, w, target, o, env.disconnected);
    var h', at := OnOffer(h, w, target, o, env).host, (w.scidOf(target), NextHtlcId(h.channels[target].data) as U64);
    assert at in h'.links && h'.links[at].incoming == o.from;
    assert target in h'.channels;
  }

  lemma {:induction false} NormalIsAccounted(h: Host, w: World, peer: Key, htlc: Htlc, relay: Relay, env: Env)
    requires peer in h.channels && HasId(h.channels[peer].data.lcss.incoming, htlc.id) && ToNormal(h, w, peer, htlc, relay, env).result.Ok?
    ensures (env.onionSent && (relay.scid, htlc.id) in h.links) || AccountedFor(ToNormal(h, w, peer, htlc, relay, env).host, w, peer, htlc.id)
  {
    hide SendLocal, HasId, HasKey;
    var from, at := (w.scidOf(peer), htlc.id), (relay.scid, htlc.id);
    var link := ForwardLink(from, at, None, None, htlc.paymentHash, Some(relay.sharedSecret), |h.offers|, None);
    var linked := AddLink(LogOffer(h, from), at, link);
    if !env.onionSent {
      var r := Fail(w.channelIdOf(peer), htlc.id, FailureFor(w, htlc));
      SentIsAccounted(linked, w, peer, r);
      SentIsQueued(linked, w, peer, r);
      DroppedIsAccounted(FailBack(linked, w, peer, htlc).host, w, peer, htlc.id, at);
    } else if at !in h.links {
      assert linked.links[at].incoming == from;
    }
  }

  /** After a dispatch without errors an HTLC is accounted for, or its forward was lost. */
  lemma {:induction false} DispatchedIsAccounted(h: Host, w: World, peer: Key, d: ChannelData, htlc: Htlc, env: Env)
    requires peer in h.channels && HasId(h.channels[peer].data.lcss.incoming, htlc.id)
    requires DispatchIncoming(h, w, peer, d, htlc, env).result.Ok?
    ensures IsLost(h, w, peer, d, htlc, env) || AccountedFor(DispatchIncoming(h, w, peer, d, htlc, env).host, w, peer, htlc.id)
  {
    hide SendLocal, ToHosted, ToNormal, HostedForwardIsLost, WithinLimits, PaysEnough, HasId, AccountedFor;
    var peeled := w.peel(htlc.onion, htlc.paymentHash);
    var back, malformed := Fail(w.channelIdOf(peer), htlc.id, FailureFor(w, htlc)), FailMalformed(w.channelIdOf(peer), htlc.id, w.hashOnion(htlc.onion), 0xc005);
    if SendLocal(h, w, peer, back).result.Ok? {
      SentIsAccounted(h, w, peer, back);
    }
    if SendLocal(h, w, peer, malformed).result.Ok? {
      SentIsAccounted(h, w, peer, malformed);
    }
    if peeled.Some? {
      var target := PeerFor(h, w, peeled.value.scid);
      if target.Some? && target.value != peer && ToHosted(h, w, peer, target.value, htlc, peeled.value, env).result.Ok? {
        HostedIsAccounted(h, w, peer, target.value, htlc, peeled.value, env);
      } else if target.None? && ToNormal(h, w, peer, htlc, peeled.value, env).result.Ok? {
        NormalIsAccounted(h, w, peer, htlc, peeled.value, env);
      }
    }
  }

  lemma {:induction false} DispatchAllStays(w: World, h: Host, peer: Key, before: ChannelData, d: ChannelData, hs: seq<Htlc>, env: U64 -> Env)
    requires peer in h.channels
    ensures var h' := DispatchAll(h, w, peer, before, d, hs, env).host; LinksStay(w, peer, h, h', hs) && OnlyOffers(peer, h, h')
  {
    hide DispatchIncoming, HasId, LinksStay, OnlyOffers;
    if hs == [] {
      SameLinksStay(w, peer, h, h, hs);
      NoOffers(peer, h);
    } else {
      var front, htlc := hs[..|hs| - 1], hs[|hs| - 1];
      var done := DispatchAll(h, w, peer, before, d, front, env).host;
      DispatchAllStays(w, h, peer, before, d, front, env);
      SameKeys(w, peer, h, done, front);
      LinksStayMore(w, peer, h, done, front, hs);
      DispatchStays(w, done, peer, d, htlc, env(htlc.id));
      var h' := DispatchIncoming(done, w, peer, d, htlc, env(htlc.id)).host;
      LinksStayMore(w, peer, done, h', [htlc], hs);
      LinksStayTwice(w, peer, h, done, h', hs);
      OnlyOffersTwice(peer, h, done, h');
    }
  }

  /** When its turn came the forward was lost, or the HTLC is accounted for in the end. */
  ghost predicate DecidedSince(w: World, h: Host, here: Host, h': Host, peer: Key, d: ChannelData, htlc: Htlc, env: Env) {
    Continues(w, h, here) && Continues(w, here, h') && (IsLost(here, w, peer, d, htlc, env) || AccountedFor(h', w, peer, htlc.id))
  }

  ghost predicate Decided(w: World, h: Host, h': Host, peer: Key, d: ChannelData, htlc: Htlc, env: Env) {
    exists here :: DecidedSince(w, h, here, h', peer, d, htlc, env)
  }

  lemma {:induction false} DispatchAllAccounts(w: World, h: Host, peer: Key, before: ChannelData, d: ChannelData, hs: seq<Htlc>, env: U64 -> Env, n: nat)
    returns (here: Host)
    requires peer in h.channels && Keyed(h, w) && Distinct(hs) && DispatchAll(h, w, peer, before, d, hs, env).result.Ok?
    requires n < |hs| && HasId(h.channels[peer].data.lcss.incoming, hs[n].id) && !HasId(before.lcss.incoming, hs[n].id)
    ensures DecidedSince(w, h, here, DispatchAll(h, w, peer, before, d, hs, env).host, peer, d, hs[n], env(hs[n].id))
  {
    hide DispatchIncoming, HasId, LinksStay, OnlyOffers, Continues, IsLost, AccountedFor;
    var front, htlc := hs[..|hs| - 1], hs[|hs| - 1];
    var done := DispatchAll(h, w, peer, before, d, front, env).host;
    var h' := DispatchAll(h, w, peer, before, d, hs, env).host;
    DispatchAllContinues(w, h, peer, before, d, front, env);
    if n < |front| {
      here := DispatchAllAccounts(w, h, peer, before, d, front, env, n);
      if !HasId(before.lcss.incoming, htlc.id) {
        StillThere(w, h, done, peer);
        DispatchContinues(w, done, peer, d, htlc, env(htlc.id));
        ContinuesTwice(w, here, done, h');
        DispatchStays(w, done, peer, d, htlc, env(htlc.id));
        DispatchAllStays(w, h, peer, before, d, front, env);
        StaysKeyed(w, peer, h, done, front);
        if AccountedFor(done, w, peer, hs[n].id) {
          AccountedStays(w, done, h', peer, hs[n].id, [htlc]);
        }
      }
    } else {
      here := done;
      StillThere(w, h, done, peer);
      DispatchContinues(w, done, peer, d, htlc, env(htlc.id));
      DispatchedIsAccounted(done, w, peer, d, htlc, env(htlc.id));
    }
  }

  lemma {:induction false} StillThere(w: World, h: Host, h': Host, peer: Key)
    requires Continues(w, h, h') && peer in h.channels
    ensures peer in h'.channels && h'.channels[peer].data.lcss == h.channels[peer].data.lcss
    ensures h.channels[peer].data.uncommitted <= h'.channels[peer].data.uncommitted
  {
    hide PoolFrom, NewLinksServed;
    assert Extends(h.channels[peer], h'.channels[peer]);
  }

  lemma {:induction false} StaysKeyed(w: World, peer: Key, h: Host, h': Host, hs: seq<Htlc>)
    requires LinksStay(w, peer, h, h', hs) && Keyed(h, w)
    ensures Keyed(h', w)
  {
    hide GoesWith;
  }

  // ---- A commit ----------------------------------------------------------------------------

  /** The host once it has stored what a state update made of the channel. */
  ghost function Stored(h: Host, w: World, peer: Key, msg: StateUpdate): Host
    requires peer in h.channels
  {
    h.(channels := h.channels[peer := OnStateUpdate(h.channels[peer], KeysOf(w, peer), msg, BlockDay(h)).channel])
  }

  lemma {:induction false} CommittingEmpties(c: Hosted.Channel, k: Keys, msg: StateUpdate, day: U32)
    requires DeriveStatus(c.data) == Active && OnStateUpdate(c, k, msg, day).channel.data.lcss != c.data.lcss
    ensures OnStateUpdate(c, k, msg, day).result == Ok(())
    ensures CommitsQueue(c, OnStateUpdate(c, k, msg, day).channel)
  {
    hide Fold, Deduplicate, VerifyRemoteSig, SignWith, LocalOf, RemoteOf;
  }

  /**
   * A state update that replaces the state of an active channel and reports no error leaves every HTLC that
   * the new state brings accounted for, unless its forward was lost when its turn came; then it relays exactly
   * the failures of the committed queue.
   */
  lemma {:induction false} CommitDispatchesAndRelays(w: World, h: Host, peer: Key, msg: StateUpdate, env: U64 -> Env) returns (mid: Host)
    requires peer in h.channels && DeriveStatus(h.channels[peer].data) == Active && OnStateMessage(h, w, peer, msg, env).result.Ok?
    requires Stored(h, w, peer, msg).channels[peer].data.lcss != h.channels[peer].data.lcss
    ensures var c, c', h1 := h.channels[peer], Stored(h, w, peer, msg).channels[peer], Stored(h, w, peer, msg);
      && peer in h.reachable
      && Continues(w, h1, mid) && LinksStay(w, peer, h1, mid, c'.data.lcss.incoming) && OnlyOffers(peer, h1, mid)
      && Relays(w, mid, OnStateMessage(h, w, peer, msg, env).host, w.scidOf(peer), Deduplicate(c.data.uncommitted))
      && (Keyed(h, w) && Distinct(c'.data.lcss.incoming) ==>
            forall n :: 0 <= n < |c'.data.lcss.incoming| && !HasId(c.data.lcss.incoming, c'.data.lcss.incoming[n].id) ==>
              Decided(w, h1, mid, peer, c'.data, c'.data.lcss.incoming[n], env(c'.data.lcss.incoming[n].id)))
  {
    hide OnStateUpdate, DispatchAll, RelayFailures, Deduplicate, Continues, LinksStay, OnlyOffers, Relays, DecidedSince, HasId, DeriveStatus;
    var c, h1 := h.channels[peer], Stored(h, w, peer, msg);
    var c' := h1.channels[peer];
    var hs := c'.data.lcss.incoming;
    CommittingEmpties(c, KeysOf(w, peer), msg, BlockDay(h));
    mid := DispatchAll(h1, w, peer, c.data, c'.data, hs, env).host;
    DispatchAllContinues(w, h1, peer, c.data, c'.data, hs, env);
    DispatchAllStays(w, h1, peer, c.data, c'.data, hs, env);
    FailuresAreRelayed(w, mid, w.scidOf(peer), Deduplicate(c.data.uncommitted), SideOf(h1, peer));
    if Keyed(h, w) && Distinct(hs) {
      forall n | 0 <= n < |hs| && !HasId(c.data.lcss.incoming, hs[n].id)
        ensures Decided(w, h1, mid, peer, c'.data, hs[n], env(hs[n].id))
      {
        assert HasId(hs, hs[n].id) by { OwnId(hs, n); }
        var here := DispatchAllAccounts(w, h1, peer, c.data, c'.data, hs, env, n);
      }
    }
  }

  lemma {:induction false} OwnId(hs: seq<Htlc>, n: nat)
    requires n < |hs|
    ensures HasId(hs, hs[n].id)
  {
  }

  /**
   * Every HTLC of the host that the commit made failed has lost its link, and its failure has reached the
   * HTLC the link came from, unless that one only came with the same commit.
   */
  lemma {:induction false} FailuresReachSenders(w: World, h: Host, peer: Key, msg: StateUpdate, env: U64 -> Env, id: U64, failure: Bytes)
    requires peer in h.channels && DeriveStatus(h.channels[peer].data) == Active && OnStateMessage(h, w, peer, msg, env).result.Ok?
    requires Stored(h, w, peer, msg).channels[peer].data.lcss != h.channels[peer].data.lcss
    requires Keyed(h, w) && ToldOf(Deduplicate(h.channels[peer].data.uncommitted), id, failure)
    ensures var at, h1, h' := (w.scidOf(peer), id), Stored(h, w, peer, msg), OnStateMessage(h, w, peer, msg, env).host;
      && at !in h'.links
      && (at in h.links && (forall g :: g in h1.channels[peer].data.lcss.incoming ==> h.links[at].incoming != (w.scidOf(peer), g.id)) ==>
            exists f :: ToldOf(Deduplicate(h.channels[peer].data.uncommitted), id, f) && PassedOn(w, h1, h', h.links[at], Wrapped(w, h.links[at], f)))
  {
    hide OnStateMessage, Deduplicate, Continues, LinksStay, OnlyOffers, DeriveStatus, PassedOn, Wrapped, RelaysOnly, ToldOf;
    var at, h1, h' := (w.scidOf(peer), id), Stored(h, w, peer, msg), OnStateMessage(h, w, peer, msg, env).host;
    var mid := CommitDispatchesAndRelays(w, h, peer, msg, env);
    var q, hs := Deduplicate(h.channels[peer].data.uncommitted), h1.channels[peer].data.lcss.incoming;
    if at in h.links && forall g :: g in hs ==> h.links[at].incoming != (w.scidOf(peer), g.id) {
      OwnLinkStays(w, h1, mid, peer, hs, at);
      var f: Bytes :| Relayed(mid, h', w.scidOf(peer), q, at, f) && PassedOn(w, mid, h', mid.links[at], Wrapped(w, mid.links[at], f));
      LaterPassesOn(w, h1, mid, h', h.links[at], Wrapped(w, h.links[at], f));
    }
  }

  lemma {:induction false} OwnLinkStays(w: World, h: Host, h': Host, peer: Key, hs: seq<Htlc>, at: Place)
    requires LinksStay(w, peer, h, h', hs) && Keyed(h, w) && at in h.links && peer in h.channels && at.0 == w.scidOf(peer)
    requires forall g :: g in hs ==> h.links[at].incoming != (w.scidOf(peer), g.id)
    ensures at in h'.links && h'.links[at] == h.links[at]
  {
    assert Hosts(h, w, at.0);
  }

  // ---- A recovery --------------------------------------------------------------------------

  /**
   * What recovery does for one committed HTLC of the peer: nothing if it is being resolved or waits for a
   * hosted channel; what the node reports if its onion went out over a normal one; else it is dispatched.
   */
  lemma {:induction false} RecoveryOfOne(h: Host, w: World, peer: Key, d: ChannelData, htlc: Htlc, env: Env)
    requires Keyed(h, w) && peer in h.channels
    ensures var from, got := (w.scidOf(peer), htlc.id), RecoverOneIncoming(h, w, peer, d, htlc, env);
      if HasKey(d.uncommitted, (true, htlc.id)) then got == Outcome(h, Ok(()))
      else if !Linked(h, from) then got == DispatchIncoming(h, w, peer, d, htlc, env)
      else
        var at := LinkOf(h, w, from);
        var link := h.links[at];
        if Hosts(h, w, at.0) then got == Outcome(h, Ok(()))
        else match env.payment(link.paymentHash)
          case Succeeded(p) => Answers(w, h.(preimages := h.preimages[link.paymentHash := p]), got, at, Settle(p))
          case Failed(failure) => Answers(w, h, got, at, Wrapped(w, link, failure))
          case Unknown => got == DispatchIncoming(h, w, peer, d, htlc, env)
          case _ => got == Outcome(h, Ok(()))
  {
    hide DispatchIncoming, OnPaymentResult, HasKey, Answers;
    var from := (w.scidOf(peer), htlc.id);
    if Linked(h, from) {
      var at := LinkOf(h, w, from);
      assert Hosts(h, w, h.links[at].incoming.0);
      ReportSettles(h, w, at, env.payment(h.links[at].paymentHash));
    }
  }

  lemma {:induction false} SettlingStays(w: World, peer: Key, h: Host, h': Host, at: Place, answer: Answer, htlc: Htlc)
    requires !answer.FailCode? && Settles(w, h, h', at, answer) && h.links[at].incoming == (w.scidOf(peer), htlc.id)
    ensures LinksStay(w, peer, h, h', [htlc])
  {
    hide HasId;
    var from := h.links[at].incoming;
    FirstIsPeerFor(h, w, from.0);
    if Hosts(h, w, from.0) {
      assert FirstBehind(h, w, PeerFor(h, w, from.0).value, from.0);
    }
    assert htlc in [htlc];
    assert h'.channels.Keys == h.channels.Keys;
    forall b | b in h.links
      ensures Hosts(h', w, b.0) <==> Hosts(h, w, b.0)
    {
      SameFirst(h, h', w, b.0);
    }
  }

  lemma {:induction false} RecoverOneStays(h: Host, w: World, peer: Key, d: ChannelData, htlc: Htlc, env: Env)
    requires Keyed(h, w) && peer in h.channels
    ensures LinksStay(w, peer, h, RecoverOneIncoming(h, w, peer, d, htlc, env).host, [htlc])
  {
    hide DispatchIncoming, LinksStay, OnlyOffers, HasKey, Keyed, SendLocal;
    SameLinksStay(w, peer, h, h, [htlc]);
    DispatchStays(w, h, peer, d, htlc, env);
    var from := (w.scidOf(peer), htlc.id);
    if Linked(h, from) {
      KeyedAt(h, w, LinkOf(h, w, from));
      ReportStays(h, w, peer, htlc, LinkOf(h, w, from), env.payment(h.links[LinkOf(h, w, from)].paymentHash));
    }
  }

  lemma {:induction false} KeyedAt(h: Host, w: World, at: Place)
    requires Keyed(h, w) && at in h.links
    ensures h.links[at].outgoing == at
  {
  }

  lemma {:induction false} ReportStays(h: Host, w: World, peer: Key, htlc: Htlc, at: Place, status: PaymentStatus)
    requires at in h.links && h.links[at].incoming == (w.scidOf(peer), htlc.id) && peer in h.channels
    ensures LinksStay(w, peer, h, OnPaymentResult(h, w, at, status).host, [htlc])
  {
    hide LinksStay, SendLocal, OnlyOffers;
    var link, source := h.links[at], PeerFor(h, w, h.links[at].incoming.0).value;
    var known := if status.Succeeded? then h.(preimages := h.preimages[link.paymentHash := status.preimage]) else h;
    SameLinksStay(w, peer, h, h, [htlc]);
    SameLinksStay(w, peer, h, known, [htlc]);
    if status.Succeeded? || status.Failed? {
      var r := if status.Succeeded? then Fulfill(w.channelIdOf(source), link.incoming.1, status.preimage)
               else Fail(w.channelIdOf(source), link.incoming.1, WrapFailure(w, link, status.failure));
      var sent := SendLocal(known, w, source, r).host;
      assert source in known.channels;
      SendingKeepsLinks(w, known, source, r);
      SameLinksStay(w, peer, known, sent, [htlc]);
      LinksStayTwice(w, peer, h, known, sent, [htlc]);
      assert htlc in [htlc];
      DroppingStays(w, sent, peer, htlc, at);
      LinksStayTwice(w, peer, h, sent, DropLink(sent, at), [htlc]);
    }
  }

  lemma {:induction false} SendingKeepsLinks(w: World, h: Host, source: Key, r: PendingUpdate)
    requires !r.Add? && source in h.channels
    ensures var h' := SendLocal(h, w, source, r).host; h'.links == h.links && h'.channels.Keys == h.channels.Keys
  {
    hide OnLocalResolve, HasId;
  }

  lemma {:induction false} RecoveredIsAccounted(h: Host, w: World, peer: Key, d: ChannelData, htlc: Htlc, env: Env)
    requires Keyed(h, w) && peer in h.channels && HasId(h.channels[peer].data.lcss.incoming, htlc.id)
    requires FirstBehind(h, w, peer, w.scidOf(peer)) && d.uncommitted <= h.channels[peer].data.uncommitted
    requires RecoverOneIncoming(h, w, peer, d, htlc, env).result.Ok?
    ensures IsLost(h, w, peer, d, htlc, env) || AccountedFor(RecoverOneIncoming(h, w, peer, d, htlc, env).host, w, peer, htlc.id)
  {
    hide DispatchIncoming, IsLost, HasKey, HasId, Keyed, OnPaymentResult;
    var got := RecoverOneIncoming(h, w, peer, d, htlc, env);
    if HasKey(d.uncommitted, (true, htlc.id)) {
      KeyStays(d.uncommitted, h.channels[peer].data.uncommitted, (true, htlc.id));
    } else if !Linked(h, (w.scidOf(peer), htlc.id)) {
      DispatchedIsAccounted(h, w, peer, d, htlc, env);
    } else {
      var at := LinkOf(h, w, (w.scidOf(peer), htlc.id));
      var status := env.payment(h.links[at].paymentHash);
      RecoveryOfOne(h, w, peer, d, htlc, env);
      if !Hosts(h, w, at.0) && status.Unknown? {
        DispatchedIsAccounted(h, w, peer, d, htlc, env);
      } else if !Hosts(h, w, at.0) && status.Succeeded? {
        var known := h.(preimages := h.preimages[h.links[at].paymentHash := status.preimage]);
        SameFirst(h, known, w, w.scidOf(peer));
        SettledIsAccounted(w, known, got.host, peer, htlc.id, at, Settle(status.preimage));
      } else if !Hosts(h, w, at.0) && status.Failed? {
        SettledIsAccounted(w, h, got.host, peer, htlc.id, at, Wrapped(w, h.links[at], status.failure));
      }
    }
  }

  lemma {:induction false} SettledIsAccounted(w: World, h: Host, h': Host, peer: Key, id: U64, at: Place, answer: Answer)
    requires !answer.FailCode? && Settles(w, h, h', at, answer) && FirstBehind(h, w, peer, w.scidOf(peer))
    requires h.links[at].incoming == (w.scidOf(peer), id) && peer in h.channels && HasId(h.channels[peer].data.lcss.incoming, id)
    ensures AccountedFor(h', w, peer, id)
  {
    hide HasId;
    var q, q' := h.channels[peer].data.uncommitted, h'.channels[peer].data.uncommitted;
    assert ResolutionKey(q'[|q|]) == Some((true, id));
  }

  lemma {:induction false} RecoverIncomingStays(w: World, h: Host, peer: Key, d: ChannelData, hs: seq<Htlc>, env: U64 -> Env)
    requires Keyed(h, w) && peer in h.channels
    ensures LinksStay(w, peer, h, RecoverIncoming(h, w, peer, d, hs, env).host, hs)
  {
    hide RecoverOneIncoming, LinksStay, Keyed;
    if hs == [] {
      SameLinksStay(w, peer, h, h, hs);
    } else {
      var front, htlc := hs[..|hs| - 1], hs[|hs| - 1];
      var done := RecoverIncoming(h, w, peer, d, front, env).host;
      RecoverIncomingStays(w, h, peer, d, front, env);
      SameKeys(w, peer, h, done, front);
      StaysKeyed(w, peer, h, done, front);
      LinksStayMore(w, peer, h, done, front, hs);
      RecoverOneStays(done, w, peer, d, htlc, env(htlc.id));
      var h' := RecoverOneIncoming(done, w, peer, d, htlc, env(htlc.id)).host;
      LinksStayMore(w, peer, done, h', [htlc], hs);
      LinksStayTwice(w, peer, h, done, h', hs);
    }
  }

  /** Every committed HTLC of the peer is accounted for after a recovery, unless its forward was lost. */
  lemma {:induction false} RecoverIncomingAccounts(w: World, h: Host, peer: Key, d: ChannelData, hs: seq<Htlc>, env: U64 -> Env, n: nat)
    returns (here: Host)
    requires Keyed(h, w) && FirstBehind(h, w, peer, w.scidOf(peer)) && Distinct(hs)
    requires d.uncommitted <= h.channels[peer].data.uncommitted && RecoverIncoming(h, w, peer, d, hs, env).result.Ok?
    requires n < |hs| && HasId(h.channels[peer].data.lcss.incoming, hs[n].id)
    ensures DecidedSince(w, h, here, RecoverIncoming(h, w, peer, d, hs, env).host, peer, d, hs[n], env(hs[n].id))
  {
    hide RecoverOneIncoming, HasId, LinksStay, Continues, IsLost, AccountedFor, FirstBehind, Keyed;
    var front, htlc := hs[..|hs| - 1], hs[|hs| - 1];
    var done, h' := RecoverIncoming(h, w, peer, d, front, env).host, RecoverIncoming(h, w, peer, d, hs, env).host;
    FirstIsHere(h, w, peer);
    RecoverIncomingContinues(w, h, peer, d, front, env);
    RecoverIncomingStays(w, h, peer, d, front, env);
    StaysKeyed(w, peer, h, done, front);
    StillThere(w, h, done, peer);
    SameKeys(w, peer, h, done, front);
    SameFirst(h, done, w, w.scidOf(peer));
    RecoverOneContinues(w, done, peer, d, htlc, env(htlc.id));
    if n < |front| {
      here := RecoverIncomingAccounts(w, h, peer, d, front, env, n);
      ContinuesTwice(w, here, done, h');
      RecoverOneStays(done, w, peer, d, htlc, env(htlc.id));
      if AccountedFor(done, w, peer, hs[n].id) {
        AccountedStays(w, done, h', peer, hs[n].id, [htlc]);
      }
    } else {
      here := done;
      RecoveredIsAccounted(done, w, peer, d, htlc, env(htlc.id));
    }
  }

  lemma {:induction false} FirstIsHere(h: Host, w: World, peer: Key)
    requires FirstBehind(h, w, peer, w.scidOf(peer))
    ensures peer in h.channels
  {
  }

  /**
   * The recovery of an active channel that reports no error accounts for every committed HTLC of the peer,
   * unless its forward was lost; and with the HTLCs of the host included it settles each whose preimage is
   * known, or leaves the channel with an error.
   */
  lemma {:induction false} RecoveryDecides(w: World, h: Host, peer: Key, queryOutgoing: bool, env: U64 -> Env) returns (mid: Host)
    requires FirstBehind(h, w, peer, w.scidOf(peer)) && DeriveStatus(h.channels[peer].data) == Active && Keyed(h, w)
    requires Distinct(h.channels[peer].data.lcss.incoming) && Distinct(h.channels[peer].data.lcss.outgoing)
    requires RecoverChannel(h, w, peer, queryOutgoing, env).result.Ok?
    ensures Continues(w, h, mid)
    ensures var d := h.channels[peer].data; forall n :: 0 <= n < |d.lcss.incoming| ==>
      Decided(w, h, mid, peer, d, d.lcss.incoming[n], env(d.lcss.incoming[n].id))
    ensures var d, h' := h.channels[peer].data, RecoverChannel(h, w, peer, queryOutgoing, env).host;
      if queryOutgoing then Faultless(h', peer) ==> forall k :: 0 <= k < |d.lcss.outgoing| ==> SettledIn(w, mid, h', peer, d, d.lcss.outgoing[k])
      else h' == mid
  {
    hide RecoverIncoming, RecoverOutgoing, HasId, Continues, DeriveStatus, FirstBehind, Keyed, DecidedSince, Recoverable, LeavesTime, HasKey, PassedOn;
    FirstIsHere(h, w, peer);
    var d := h.channels[peer].data;
    mid := RecoverIncoming(h, w, peer, d, d.lcss.incoming, env).host;
    RecoverIncomingContinues(w, h, peer, d, d.lcss.incoming, env);
    StillThere(w, h, mid, peer);
    forall n | 0 <= n < |d.lcss.incoming|
      ensures Decided(w, h, mid, peer, d, d.lcss.incoming[n], env(d.lcss.incoming[n].id))
    {
      OwnId(d.lcss.incoming, n);
      var here := RecoverIncomingAccounts(w, h, peer, d, d.lcss.incoming, env, n);
    }
    var h' := RecoverChannel(h, w, peer, queryOutgoing, env).host;
    if queryOutgoing && Faultless(h', peer) {
      forall k | 0 <= k < |d.lcss.outgoing|
        ensures SettledIn(w, mid, h', peer, d, d.lcss.outgoing[k])
      {
        RecoverySettles(mid, w, peer, d, d.lcss.outgoing, k);
      }
    }
  }

  /** Unless it is resolved already there is time for this HTLC, and with its preimage known its link is settled. */
  ghost predicate SettledIn(w: World, h: Host, h': Host, peer: Key, d: ChannelData, out: Htlc)
    requires peer in h.channels
  {
    var at := (w.scidOf(peer), out.id);
    && (HasKey(d.uncommitted, (false, out.id)) || LeavesTime(h, w, peer, out))
    && (Recoverable(h, d, out) && at in h.links ==>
          at !in h'.links && PassedOn(w, h, h', h.links[at], Settle(h.preimages[out.paymentHash])))
  }

  // ---- Links in every run ------------------------------------------------------------------

  /** No link is new or changed, and no channel goes. */
  ghost predicate Sheds(h: Host, h': Host) {
    h.channels.Keys <= h'.channels.Keys && forall at :: at in h'.links ==> at in h.links && h'.links[at] == h.links[at]
  }

  lemma {:induction false} ShedStaysKeyed(w: World, h: Host, h': Host)
    requires Keyed(h, w) && Sheds(h, h')
    ensures Keyed(h', w)
  {
    assert forall scid :: Hosts(h, w, scid) ==> Hosts(h', w, scid) by {
      forall scid | Hosts(h, w, scid)
        ensures Hosts(h', w, scid)
      {
        var p :| p in h.channels && w.scidOf(p) == scid;
        assert p in h'.channels;
      }
    }
  }

  lemma {:induction false} ResolvingSheds(h: Host, w: World, at: Place, r: PendingUpdate, side: Side)
    requires r.Fulfill? || r.Fail?
    ensures Sheds(h, ResolveForward(h, w, at, r, side).host)
  {
    hide SendLocal;
    if at in h.links && Hosts(h, w, h.links[at].incoming.0) {
      var source := PeerFor(h, w, h.links[at].incoming.0).value;
      SendingKeepsLinks(w, h, source, Addressed(r, w.channelIdOf(source), h.links[at].incoming.1));
    }
  }

  lemma {:induction false} FailingSheds(h: Host, w: World, at: Place, failure: Bytes, side: Side)
    ensures Sheds(h, ResolveFail(h, w, at, failure, side).host)
  {
    hide ResolveForward, Sheds;
    var reason := if at in h.links then WrapFailure(w, h.links[at], failure) else failure;
    ResolvingSheds(h, w, at, Fail(w.channelIdOf(0), 0, reason), side);
  }

  lemma {:induction false} RelayingSheds(h: Host, w: World, scid: nat, us: seq<Update>, side: Side)
    ensures Sheds(h, RelayFailures(h, w, scid, us, side).host)
  {
    hide ResolveFail;
    if us != [] {
      var u, done := us[|us| - 1], RelayFailures(h, w, scid, us[..|us| - 1], side).host;
      RelayingSheds(h, w, scid, us[..|us| - 1], side);
      if FailureOf(u).Some? {
        FailingSheds(done, w, (scid, u.u.id), FailureOf(u).value, side);
      }
    }
  }

  lemma {:induction false} RecoveringSheds(h: Host, w: World, peer: Key, stored: ChannelData, hs: seq<Htlc>)
    ensures Sheds(h, RecoverOutgoing(h, w, peer, stored, hs).host)
    decreases |hs|
  {
    hide ResolveForward, SettlementIsSafe, HasKey;
    if hs != [] && peer in h.channels {
      RecoveringSheds(h, w, peer, stored, hs[1..]);
      if hs[0].paymentHash in h.preimages {
        var at, r := (w.scidOf(peer), hs[0].id), Fulfill(w.channelIdOf(0), 0, h.preimages[hs[0].paymentHash]);
        ResolvingSheds(h, w, at, r, SideOf(h, peer));
        RecoveringSheds(ResolveForward(h, w, at, r, SideOf(h, peer)).host, w, peer, stored, hs[1..]);
      }
    }
  }

  lemma {:induction false} EnforcingSheds(h: Host, w: World, peers: seq<Key>, now: nat)
    ensures Sheds(h, Enforce(h, w, peers, now).host)
  {
    hide EnforceOne, DeriveStatus, Clear, Calmer;
    if peers != [] {
      var done := Enforce(h, w, peers[..|peers| - 1], now).host;
      EnforcingSheds(h, w, peers[..|peers| - 1], now);
      EnforceOneClears(done, w, peers[|peers| - 1], now);
    }
  }

  lemma {:induction false} FulfillingSheds(h: Host, w: World, peer: Key, r: PendingUpdate)
    requires r.Fulfill?
    ensures Sheds(h, OnFulfill(h, w, peer, r).host)
  {
    hide ResolveForward, Accepts, SettlementIsSafe, OnUpdateFulfill;
    if peer in h.channels && Accepts(h.channels[peer].data, r) {
      AcceptsAt(h.channels[peer].data, r);
      var c := h.channels[peer];
      var h' := Put(h, peer, OnUpdateFulfill(c, r, true).channel).(preimages := h.preimages[SHA256(r.preimage) := r.preimage]);
      ResolvingSheds(h', w, (w.scidOf(peer), r.id), Fulfill(w.channelIdOf(0), 0, r.preimage), SideOf(h, peer));
    }
  }

  lemma {:induction false} ReportingSheds(h: Host, w: World, at: Place, status: PaymentStatus)
    ensures Sheds(h, OnPaymentResult(h, w, at, status).host)
  {
    hide Answers, AnswerPasses, SendLocal;
    if at in h.links && Hosts(h, w, h.links[at].incoming.0) {
      var link, source := h.links[at], PeerFor(h, w, h.links[at].incoming.0).value;
      var known := if status.Succeeded? then h.(preimages := h.preimages[link.paymentHash := status.preimage]) else h;
      if status.Succeeded? || status.Failed? {
        SendingKeepsLinks(w, known, source, if status.Succeeded? then Fulfill(w.channelIdOf(source), link.incoming.1, status.preimage)
                                            else Fail(w.channelIdOf(source), link.incoming.1, WrapFailure(w, link, status.failure)));
      }
    }
  }

  lemma {:induction false} StateMessageStaysKeyed(w: World, h: Host, peer: Key, msg: StateUpdate, env: U64 -> Env)
    requires Keyed(h, w)
    ensures Keyed(OnStateMessage(h, w, peer, msg, env).host, w)
  {
    hide OnStateUpdate, DispatchAll, RelayFailures, Deduplicate, LinksStay, OnlyOffers, CommitsQueue, Keyed;
    if peer in h.channels {
      var c, h1 := h.channels[peer], Stored(h, w, peer, msg);
      var d := h1.channels[peer].data;
      ShedStaysKeyed(w, h, h1);
      DispatchAllStays(w, h1, peer, c.data, d, d.lcss.incoming, env);
      var mid := DispatchAll(h1, w, peer, c.data, d, d.lcss.incoming, env).host;
      StaysKeyed(w, peer, h1, mid, d.lcss.incoming);
      RelayingSheds(mid, w, w.scidOf(peer), Deduplicate(c.data.uncommitted), SideOf(h1, peer));
      ShedStaysKeyed(w, mid, RelayFailures(mid, w, w.scidOf(peer), Deduplicate(c.data.uncommitted), SideOf(h1, peer)).host);
    }
  }

  lemma {:induction false} RecoveryStaysKeyed(w: World, h: Host, peer: Key, queryOutgoing: bool, env: U64 -> Env)
    requires Keyed(h, w)
    ensures Keyed(RecoverChannel(h, w, peer, queryOutgoing, env).host, w)
  {
    hide RecoverIncoming, RecoverOutgoing, Keyed, LinksStay, DeriveStatus, Sheds;
    if peer in h.channels {
      var d := h.channels[peer].data;
      RecoverIncomingStays(w, h, peer, d, d.lcss.incoming, env);
      var mid := RecoverIncoming(h, w, peer, d, d.lcss.incoming, env).host;
      StaysKeyed(w, peer, h, mid, d.lcss.incoming);
      RecoveringSheds(mid, w, peer, d, d.lcss.outgoing);
      ShedStaysKeyed(w, mid, RecoverOutgoing(mid, w, peer, d, d.lcss.outgoing).host);
    }
  }

  lemma {:induction false} InvokeStaysKeyed(w: World, h: Host, peer: Key, granted: Option<Policy>, refund: Bytes, env: U64 -> Env)
    requires Keyed(h, w) && (granted.Some? ==> granted.value.initialClientBalance <= granted.value.capacity)
    ensures Keyed(OnInvoke(h, w, peer, granted, refund, env).host, w)
  {
    hide Keyed, OnReconnect, RecoverChannel, DeriveStatus, NewChannel, Repaired;
    if granted.Some? {
      ShedStaysKeyed(w, h, Put(h, peer, NewChannel(granted.value, refund)));
    }
    if peer in h.channels {
      var reply := OnReconnect(h.channels[peer], KeysOf(w, peer), BlockDay(h));
      ShedStaysKeyed(w, h, Put(h, peer, Repaired(h.channels[peer])));
      ShedStaysKeyed(w, h, Put(h, peer, reply.channel));
      RecoveryStaysKeyed(w, Put(h, peer, reply.channel), peer, true, env);
    }
  }

  lemma {:induction false} EventStaysKeyed(w: World, h: Host, e: HostEvent)
    requires Keyed(h, w) && Allowed(h, w, e)
    ensures Keyed(React(h, w, e).host, w)
  {
    hide Keyed, OnInvoke, OnStateMessage, OnFulfill, LearnPreimages, Respond, OnOffer, RecoverChannel, Enforce, OnPaymentResult,
         Possible, Disciplined, Honest, TrueReport, LinksStay, OnlyOffers;
    var h' := React(h, w, e).host;
    match e
    case Invoke(peer, granted, refund, env) => InvokeStaysKeyed(w, h, peer, granted, refund, env);
    case StateMessage(peer, msg, env) => StateMessageStaysKeyed(w, h, peer, msg, env);
    case FulfillMessage(peer, r) => FulfillingSheds(h, w, peer, r); ShedStaysKeyed(w, h, h');
    case PreimagesReplied(preimages) => LearningIsApart(h, preimages); ShedStaysKeyed(w, h, h');
    case Offered(peer, o, env) =>
      if peer in h.channels {
        OfferingStays(w, h, peer, peer, o, env, []);
        StaysKeyed(w, peer, h, h', []);
      } else {
        OfferToNobody(w, h, peer, o, env);
        ShedStaysKeyed(w, h, h');
      }
    case Recover(peer, queryOutgoing, env) => RecoveryStaysKeyed(w, h, peer, queryOutgoing, env);
    case Watchdog(peers, now) => EnforcingSheds(h, w, peers, now); ShedStaysKeyed(w, h, h');
    case PaymentReported(at, status) => ReportingSheds(h, w, at, status); ShedStaysKeyed(w, h, h');
    case _ => ShedStaysKeyed(w, h, h');
  }

  lemma {:induction false} OfferToNobody(w: World, h: Host, peer: Key, o: Offer, env: Env)
    requires peer !in h.channels
    ensures OnOffer(h, w, peer, o, env) == Outcome(LogOffer(h, o.from), Err(NotFound))
  {
  }

  /** In every run links lie under the places they lead to, which on a normal channel repeat the id they came from. */
  lemma {:induction false} KeyedInEveryRun(trace: seq<Host>, es: seq<HostEvent>, w: World, n: nat)
    requires IsHostRun(trace, es, w) && n < |trace|
    ensures Keyed(trace[n], w)
  {
    hide Keyed, React, Allowed;
    if n == 0 {
      NoLinksAreKeyed(w, trace[0]);
    } else {
      KeyedInEveryRun(trace, es, w, n - 1);
      EventStaysKeyed(w, trace[n - 1], es[n - 1]);
      assert trace[n - 1 + 1] == React(trace[n - 1], w, es[n - 1]).host;
    }
  }

  lemma {:induction false} NoLinksAreKeyed(w: World, h: Host)
    requires Starts(h)
    ensures Keyed(h, w)
  {
  }

  // ---- Preimages and invokes ---------------------------------------------------------------

  predicate Hashes(ps: seq<Bytes32>, hash: Bytes32) {
    exists i :: 0 <= i < |ps| && SHA256(ps[i]) == hash
  }

  /** The preimages a peer replies with are known afterwards, and what was known of other hashes stays. */
  lemma {:induction false} RepliesAreLearned(h: Host, ps: seq<Bytes32>, hash: Bytes32)
    ensures var h' := LearnPreimages(h, ps);
      && (hash in h'.preimages <==> hash in h.preimages || Hashes(ps, hash))
      && (hash in h'.preimages ==> if Hashes(ps, hash) then h'.preimages[hash] in ps && SHA256(h'.preimages[hash]) == hash
                                   else hash in h.preimages && h'.preimages[hash] == h.preimages[hash])
  {
    if ps != [] {
      var front, p := ps[..|ps| - 1], ps[|ps| - 1];
      RepliesAreLearned(h, front, hash);
      if Hashes(front, hash) {
        var i :| 0 <= i < |front| && SHA256(front[i]) == hash;
        assert SHA256(ps[i]) == hash;
      }
      if Hashes(ps, hash) && SHA256(p) != hash {
        var i :| 0 <= i < |ps| && SHA256(ps[i]) == hash;
        assert SHA256(front[i]) == hash;
      }
    }
  }

  /** An invoke recovers a channel that is opening or active, once its peer got the repaired and signed queue. */
  lemma {:induction false} InvokeRecovers(w: World, h: Host, peer: Key, granted: Option<Policy>, refund: Bytes, env: U64 -> Env)
    requires peer in h.channels && DeriveStatus(h.channels[peer].data) in {Opening, Active} && peer in h.reachable
    requires granted.Some? ==> granted.value.initialClientBalance <= granted.value.capacity
    requires var c := h.channels[peer];
      Deduplicate(c.data.uncommitted) == [] || SignedNext(c.data.lcss, Deduplicate(c.data.uncommitted), KeysOf(w, peer), BlockDay(h)).Ok?
    ensures var c, got := h.channels[peer], OnInvoke(h, w, peer, granted, refund, env);
      exists s :: got == Outcome(RecoverChannel(h.(channels := h.channels[peer := c.(
        data := c.data.(uncommitted := Deduplicate(c.data.uncommitted)), signed := s)]), w, peer, true, env).host, Ok(()))
  {
    hide DeriveStatus, SignedNext, RecoverChannel, Deduplicate;
    var s := OnReconnect(h.channels[peer], KeysOf(w, peer), BlockDay(h)).channel.signed;
  }

  /** Otherwise an invoke opens a channel, if a secret grants one, or leaves everything as it is. */
  lemma {:induction false} InvokeOpensOrWaits(w: World, h: Host, peer: Key, granted: Option<Policy>, refund: Bytes, env: U64 -> Env)
    requires granted.Some? ==> granted.value.initialClientBalance <= granted.value.capacity
    ensures var got := OnInvoke(h, w, peer, granted, refund, env);
      if peer !in h.channels || DeriveStatus(h.channels[peer].data) in {NotOpened, Suspended} then
        got.result.Ok? && got.host == if granted.Some? then h.(channels := h.channels[peer := NewChannel(granted.value, refund)]) else h
      else if DeriveStatus(h.channels[peer].data) in {Errored, Overriding} then got == Outcome(h, Ok(()))
      else if peer !in h.reachable then
        var c := h.channels[peer];
        got == Outcome(h.(channels := h.channels[peer := c.(data := c.data.(uncommitted := Deduplicate(c.data.uncommitted)))]), Err(NotSent))
      else true
  {
    hide DeriveStatus, OnReconnect, RecoverChannel, Deduplicate, NewChannel;
  }

  // ---- Passes compose ----------------------------------------------------------------------

  /** A pass over some channels and then over others is one pass over all, and stops at the first error. */
  lemma {:induction false} EnforceComposes(h: Host, w: World, front: seq<Key>, back: seq<Key>, now: nat)
    ensures var first := Enforce(h, w, front, now);
      Enforce(h, w, front + back, now) == if first.result.Ok? then Enforce(first.host, w, back, now) else first
    ensures forall p :: Enforce(h, w, [p], now) == EnforceOne(h, w, p, now)
  {
    hide EnforceOne;
    assert forall p: Key :: [p][..0] == [];
    if back == [] {
      assert front + back == front;
      AnySuccess(Enforce(h, w, front, now));
    } else {
      assert (front + back)[..|front + back| - 1] == front + back[..|back| - 1];
      EnforceComposes(h, w, front, back[..|back| - 1], now);
    }
  }

  lemma {:induction false} AnySuccess(o: Outcome)
    ensures o.result.Ok? ==> o == Outcome(o.host, Ok(()))
  {
    OneSuccess(o.result);
  }

  lemma {:induction false} RelayComposes(h: Host, w: World, scid: nat, front: seq<Update>, back: seq<Update>, side: Side)
    ensures var first := RelayFailures(h, w, scid, front, side);
      RelayFailures(h, w, scid, front + back, side) == if first.result.Ok? then RelayFailures(first.host, w, scid, back, side) else first
  {
    hide ResolveFail, FailureOf;
    if back == [] {
      assert front + back == front;
      AnySuccess(RelayFailures(h, w, scid, front, side));
    } else {
      assert (front + back)[..|front + back| - 1] == front + back[..|back| - 1];
      RelayComposes(h, w, scid, front, back[..|back| - 1], side);
    }
  }

  /** One update of the peer is relayed without error exactly if the answer to its link, if any, passes. */
  lemma {:induction false} RelayPassesIff(h: Host, w: World, scid: nat, u: Update, side: Side)
    ensures RelayFailures(h, w, scid, [u], side).result.Ok? <==>
      forall id: U64, failure: Bytes :: Tells(u, id, failure) && (scid, id) in h.links ==>
        AnswerPasses(h, w, h.links[(scid, id)].incoming, Wrapped(w, h.links[(scid, id)], failure))
  {
    hide ResolveFail, AnswerPasses, Wrapped, Settles, Keeps;
    assert [u][..0] == [];
    if FailureOf(u).Some? {
      FailingSettles(h, w, (scid, u.u.id), FailureOf(u).value, side);
      assert Tells(u, u.u.id, FailureOf(u).value);
    }
  }

  lemma {:induction false} DispatchComposes(h: Host, w: World, peer: Key, before: ChannelData, d: ChannelData, front: seq<Htlc>, back: seq<Htlc>, env: U64 -> Env)
    ensures var first := DispatchAll(h, w, peer, before, d, front, env);
      DispatchAll(h, w, peer, before, d, front + back, env) ==
        if first.result.Ok? then DispatchAll(first.host, w, peer, before, d, back, env) else first
    ensures forall x: Htlc ::
      DispatchAll(h, w, peer, before, d, [x], env) ==
        if HasId(before.lcss.incoming, x.id) then Outcome(h, Ok(())) else DispatchIncoming(h, w, peer, d, x, env(x.id))
  {
    hide DispatchIncoming, HasId;
    assert forall x: Htlc :: [x][..0] == [];
    if back == [] {
      assert front + back == front;
      AnySuccess(DispatchAll(h, w, peer, before, d, front, env));
    } else {
      assert (front + back)[..|front + back| - 1] == front + back[..|back| - 1];
      DispatchComposes(h, w, peer, before, d, front, back[..|back| - 1], env);
    }
  }

  lemma {:induction false} RecoverComposes(h: Host, w: World, peer: Key, d: ChannelData, front: seq<Htlc>, back: seq<Htlc>, env: U64 -> Env)
    ensures var first := RecoverIncoming(h, w, peer, d, front, env);
      RecoverIncoming(h, w, peer, d, front + back, env) == if first.result.Ok? then RecoverIncoming(first.host, w, peer, d, back, env) else first
    ensures forall x: Htlc :: RecoverIncoming(h, w, peer, d, [x], env) == RecoverOneIncoming(h, w, peer, d, x, env(x.id))
  {
    hide RecoverOneIncoming;
    assert forall x: Htlc :: [x][..0] == [];
    if back == [] {
      assert front + back == front;
      AnySuccess(RecoverIncoming(h, w, peer, d, front, env));
    } else {
      assert (front + back)[..|front + back| - 1] == front + back[..|back| - 1];
      RecoverComposes(h, w, peer, d, front, back[..|back| - 1], env);
    }
  }

  /** A state update that replaces the state fails only if the peer is gone, or with its dispatch or its relay. */
  lemma {:induction false} CommitFailsIff(w: World, h: Host, peer: Key, msg: StateUpdate, env: U64 -> Env)
    requires peer in h.channels && DeriveStatus(h.channels[peer].data) == Active
    requires Stored(h, w, peer, msg).channels[peer].data.lcss != h.channels[peer].data.lcss
    ensures var c, h1 := h.channels[peer], Stored(h, w, peer, msg);
      var d := h1.channels[peer].data;
      var dispatched := DispatchAll(h1, w, peer, c.data, d, d.lcss.incoming, env);
      OnStateMessage(h, w, peer, msg, env).result.Err? <==>
        || peer !in h.reachable || dispatched.result.Err?
        || RelayFailures(dispatched.host, w, w.scidOf(peer), Deduplicate(c.data.uncommitted), SideOf(h1, peer)).result.Err?
  {
    hide OnStateUpdate, DispatchAll, RelayFailures, Deduplicate, DeriveStatus;
    CommittingEmpties(h.channels[peer], KeysOf(w, peer), msg, BlockDay(h));
  }

  /** A state update that commits nothing stores what the channel makes of it, and does no more. */
  lemma {:induction false} OtherStateUpdates(w: World, h: Host, peer: Key, msg: StateUpdate, env: U64 -> Env)
    requires peer in h.channels
    requires DeriveStatus(h.channels[peer].data) != Active || Stored(h, w, peer, msg).channels[peer].data.lcss == h.channels[peer].data.lcss
    ensures OnStateMessage(h, w, peer, msg, env) ==
      Outcome(Stored(h, w, peer, msg), OnStateUpdate(h.channels[peer], KeysOf(w, peer), msg, BlockDay(h)).result)
  {
    hide OnStateUpdate, DispatchAll, RelayFailures, Deduplicate, DeriveStatus, Agrees;
    if DeriveStatus(h.channels[peer].data) == Active {
      CommitShows(h.channels[peer], KeysOf(w, peer), msg, BlockDay(h));
      CommitIff(h.channels[peer], KeysOf(w, peer), msg, BlockDay(h));
    }
  }
}

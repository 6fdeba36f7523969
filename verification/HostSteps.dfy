/**
 * What the parts of a handler do to channels and links: queues, logs, calls and known preimages only grow,
 * the host's HTLCs come only with a grant, and every new link is made for an HTLC that its channel then holds.
 */
module HostSteps {
  import opened Base
  import opened State
  import opened StateLaws
  import opened HtlcIds
  import opened Channel
  import opened ChannelLaws
  import opened ChannelRuns
  import opened ChannelIds
  import opened ChannelTheorems
  import opened Forwarding
  import opened ForwardingLaws
  import opened HostRuns

  /** The id was given to the HTLC after the first `n` grants. */
  predicate GrantedSince(n: nat, given: seq<Grant>, g: Htlc) {
    exists i :: n <= i < |given| && given[i] == Grant(g.id, g.paymentHash)
  }

  /** No HTLC of the host is new without a grant. */
  ghost predicate PoolFrom(c: Channel, c': Channel) {
    && c.given <= c'.given
    && forall g :: g in Pool(c'.data) ==> g in Pool(c.data) || GrantedSince(|c.given|, c'.given, g)
  }

  predicate SameStanding(d: ChannelData, d': ChannelData) {
    d'.lcss == d.lcss && d'.proposedOverride == d.proposedOverride && d'.established == d.established
  }

  /** State and standing stay, and the queue only grows. */
  ghost predicate Extends(c: Channel, c': Channel) {
    SameStanding(c.data, c'.data) && c.data.uncommitted <= c'.data.uncommitted && PoolFrom(c, c')
  }

  /** The link was made for a channel that holds the HTLC of the key, or for no hosted channel. */
  ghost predicate Serves(w: World, h: Host, at: Place, link: ForwardLink) {
    match link.target
    case None => !Hosts(h, w, at.0)
    case Some(q) => q in h.channels && at.0 == w.scidOf(q) && Holds(h.channels[q].data, at.1, link.paymentHash)
  }

  predicate Holds(d: ChannelData, id: U64, hash: Bytes32) {
    exists x :: x in Pool(d) && x.id == id && x.paymentHash == hash
  }

  ghost predicate NewLinksServed(w: World, h: Host, h': Host) {
    forall at :: at in h'.links ==> (at in h.links && h.links[at] == h'.links[at]) || Serves(w, h', at, h'.links[at])
  }

  ghost predicate Continues(w: World, h: Host, h': Host) {
    && h'.channels.Keys == h.channels.Keys
    && (forall p :: p in h.channels ==> Extends(h.channels[p], h'.channels[p]))
    && NewLinksServed(w, h, h')
    && h.calls <= h'.calls && h.preimages.Keys <= h'.preimages.Keys
  }

  // ---- The relations compose ---------------------------------------------------------------

  lemma {:induction false} PoolGrows(c: Channel, c': Channel)
    requires Extends(c, c')
    ensures forall g :: g in Pool(c.data) ==> g in Pool(c'.data)
  {
    hide LocalOf, AddsOf;
    var q, q' := c.data.uncommitted, c'.data.uncommitted;
    assert q'[..|q|] == q;
    forall g | g in Pool(c.data)
      ensures g in Pool(c'.data)
    {
      SidesGrow(q', |q|, g);
    }
  }

  lemma {:induction false} PoolFromTwice(c: Channel, c': Channel, c'': Channel)
    requires PoolFrom(c, c') && PoolFrom(c', c'')
    ensures PoolFrom(c, c'')
  {
    hide Pool;
    forall g | g in Pool(c''.data)
      ensures g in Pool(c.data) || GrantedSince(|c.given|, c''.given, g)
    {
      if g in Pool(c'.data) && g !in Pool(c.data) {
        var i :| |c.given| <= i < |c'.given| && c'.given[i] == Grant(g.id, g.paymentHash);
        assert c''.given[i] == Grant(g.id, g.paymentHash);
      } else if g !in Pool(c'.data) {
        var i :| |c'.given| <= i < |c''.given| && c''.given[i] == Grant(g.id, g.paymentHash);
        assert |c.given| <= i;
      }
    }
  }

  lemma {:induction false} ServesLater(w: World, h: Host, h': Host, at: Place, link: ForwardLink)
    requires Serves(w, h, at, link) && h'.channels.Keys == h.channels.Keys
    requires forall p :: p in h.channels ==> Extends(h.channels[p], h'.channels[p])
    ensures Serves(w, h', at, link)
  {
    hide Pool, Extends;
    if link.target.Some? {
      var q := link.target.value;
      PoolGrows(h.channels[q], h'.channels[q]);
    } else {
      assert Hosts(h', w, at.0) == Hosts(h, w, at.0);
    }
  }

  lemma {:induction false} ContinuesTwice(w: World, h: Host, h': Host, h'': Host)
    requires Continues(w, h, h') && Continues(w, h', h'')
    ensures Continues(w, h, h'')
  {
    hide Pool, PoolFrom, Serves;
    forall p | p in h.channels
      ensures Extends(h.channels[p], h''.channels[p])
    {
      assert Extends(h.channels[p], h'.channels[p]) && Extends(h'.channels[p], h''.channels[p]);
      PoolFromTwice(h.channels[p], h'.channels[p], h''.channels[p]);
    }
    forall at | at in h''.links
      ensures (at in h.links && h.links[at] == h''.links[at]) || Serves(w, h'', at, h''.links[at])
    {
      if at in h'.links && h'.links[at] == h''.links[at] && Serves(w, h', at, h'.links[at]) {
        ServesLater(w, h', h'', at, h'.links[at]);
      }
    }
  }

  lemma {:induction false} ExtendsItself(c: Channel)
    ensures Extends(c, c)
  {
  }

  /** Only other fields of the host change, or links go. */
  lemma {:induction false} ApartContinues(w: World, h: Host, h': Host)
    requires h'.channels == h.channels && h.calls <= h'.calls && h.preimages.Keys <= h'.preimages.Keys
    requires forall at :: at in h'.links ==> at in h.links && h'.links[at] == h.links[at]
    ensures Continues(w, h, h')
  {
    hide Pool, PoolFrom;
    forall p | p in h.channels
      ensures Extends(h.channels[p], h'.channels[p])
    {
      ExtendsItself(h.channels[p]);
    }
  }

  lemma {:induction false} PutContinues(w: World, h: Host, peer: Key, c: Channel)
    requires peer in h.channels && Extends(h.channels[peer], c)
    ensures Continues(w, h, Put(h, peer, c))
  {
    hide Extends;
    forall p | p in h.channels
      ensures Extends(h.channels[p], Put(h, peer, c).channels[p])
    {
      ExtendsItself(h.channels[p]);
    }
  }

  // ---- Channels ----------------------------------------------------------------------------

  /** A queue that grows by something else than an HTLC of the host. */
  lemma {:induction false} PushExtends(c: Channel, c': Channel, u: Update)
    requires !(u.Local? && u.u.Add?) && c'.given == c.given
    requires SameStanding(c.data, c'.data) && c'.data.uncommitted == c.data.uncommitted + [u]
    ensures Extends(c, c')
  {
    hide LocalOf, AddsOf;
    PoolPush(c.data, u);
  }

  lemma {:induction false} SameExtends(c: Channel, c': Channel)
    requires c'.given == c.given && SameStanding(c.data, c'.data) && c'.data.uncommitted == c.data.uncommitted
    ensures Extends(c, c')
  {
  }

  lemma {:induction false} AddExtends(c: Channel, c': Channel, h: Htlc)
    requires c'.given == c.given + [Grant(h.id, h.paymentHash)]
    requires SameStanding(c.data, c'.data) && c'.data.uncommitted == c.data.uncommitted + [Local(Add(h))]
    ensures Extends(c, c') && h in Pool(c'.data)
  {
    hide LocalOf, AddsOf;
    PoolPush(c.data, Local(Add(h)));
    assert c'.given[|c.given|] == Grant(h.id, h.paymentHash);
    var adds := AddsOf(LocalOf(c.data.uncommitted));
    assert (adds + [h])[|adds|] == h;
  }

  lemma {:induction false} ResolveExtends(c: Channel, k: Keys, r: PendingUpdate, day: U32)
    requires !r.Add?
    ensures Extends(c, OnLocalResolve(c, k, r, day).channel)
  {
    hide SignedNext, HasId, Extends;
    var c' := OnLocalResolve(c, k, r, day).channel;
    if c'.data.uncommitted == c.data.uncommitted + [Local(r)] {
      PushExtends(c, c', Local(r));
    } else {
      SameExtends(c, c');
    }
  }

  lemma {:induction false} HostAddExtends(c: Channel, k: Keys, h: Htlc, day: U32, addSent: bool, stateSent: bool)
    ensures var c' := OnHostAdd(c, k, h, day, addSent, stateSent).channel; Extends(c, c') && h in Pool(c'.data)
  {
    hide SignedNext, Extends, Pool;
    AddExtends(c, OnHostAdd(c, k, h, day, addSent, stateSent).channel, h);
  }

  // ---- Parts of handlers -------------------------------------------------------------------

  lemma {:induction false} SendLocalContinues(w: World, h: Host, peer: Key, r: PendingUpdate)
    requires !r.Add?
    ensures Continues(w, h, SendLocal(h, w, peer, r).host)
  {
    hide Continues, OnLocalResolve, HasId, Extends;
    if peer in h.channels {
      ResolveExtends(h.channels[peer], KeysOf(w, peer), r, BlockDay(h));
      PutContinues(w, h, peer, OnLocalResolve(h.channels[peer], KeysOf(w, peer), r, BlockDay(h)).channel);
    } else {
      ApartContinues(w, h, h);
    }
  }

  lemma {:induction false} ResolveForwardContinues(w: World, h: Host, at: Place, r: PendingUpdate, side: Side)
    requires r.Fulfill? || r.Fail?
    ensures Continues(w, h, ResolveForward(h, w, at, r, side).host)
  {
    hide Continues, SendLocal;
    ApartContinues(w, h, h);
    if at in h.links {
      var link := h.links[at];
      if Hosts(h, w, link.incoming.0) {
        var source := PeerFor(h, w, link.incoming.0).value;
        var r' := Addressed(r, w.channelIdOf(source), link.incoming.1);
        var sent := SendLocal(h, w, source, r').host;
        SendLocalContinues(w, h, source, r');
        ApartContinues(w, sent, DropLink(sent, at));
        ContinuesTwice(w, h, sent, DropLink(sent, at));
      } else {
        ApartContinues(w, h, SettleUpstream(h, at, AnswerOf(r), side));
      }
    }
  }

  lemma {:induction false} ResolveFailContinues(w: World, h: Host, at: Place, failure: Bytes, side: Side)
    ensures Continues(w, h, ResolveFail(h, w, at, failure, side).host)
  {
    hide Continues, ResolveForward;
    var reason := if at in h.links then WrapFailure(w, h.links[at], failure) else failure;
    ResolveForwardContinues(w, h, at, Fail(w.channelIdOf(0), 0, reason), side);
  }

  lemma {:induction false} OfferContinues(w: World, h: Host, target: Key, o: Offer, env: Env)
    ensures Continues(w, h, OnOffer(h, w, target, o, env).host)
  {
    hide Continues, Judge, OnHostAdd;
    ApartContinues(w, h, LogOffer(h, o.from));
    if target in h.channels && Judge(h, w, target, o, env.disconnected).Answered? {
      ApartContinues(w, h, OnOffer(h, w, target, o, env).host);
    } else if target in h.channels && Judge(h, w, target, o, env.disconnected) == Accepted {
      AcceptContinues(w, h, target, o, env);
    }
  }

  lemma {:induction false} AcceptContinues(w: World, h: Host, target: Key, o: Offer, env: Env)
    requires target in h.channels && Judge(h, w, target, o, env.disconnected) == Accepted
    ensures Continues(w, h, OnOffer(h, w, target, o, env).host)
  {
    hide Judge, OnHostAdd, Extends, Pool, LocalOf;
    AcceptedFits(h, w, target, o, env.disconnected);
    var c := h.channels[target];
    var htlc := Stamp(c.data, w.channelIdOf(target), o.htlc);
    var h' := OnOffer(h, w, target, o, env).host;
    HostAddExtends(c, KeysOf(w, target), htlc, BlockDay(h), env.addSent, env.stateSent);
    forall p | p in h.channels
      ensures Extends(h.channels[p], h'.channels[p])
    {
      ExtendsItself(h.channels[p]);
    }
    assert htlc in Pool(h'.channels[target].data);
    assert Holds(h'.channels[target].data, htlc.id, htlc.paymentHash);
  }

  lemma {:induction false} ToHostedContinues(w: World, h: Host, peer: Key, target: Key, htlc: Htlc, relay: Relay, env: Env)
    ensures Continues(w, h, ToHosted(h, w, peer, target, htlc, relay, env).host)
  {
    hide Continues, OnOffer, SendLocal;
    var from, o := (w.scidOf(peer), htlc.id), OfferOf(w, peer, target, htlc, relay);
    var offered := OnOffer(h, w, target, o, env).host;
    OfferContinues(w, h, target, o, env);
    var failed := FailBack(offered, w, peer, htlc).host;
    SendLocalContinues(w, offered, peer, Fail(w.channelIdOf(peer), htlc.id, FailureFor(w, htlc)));
    ContinuesTwice(w, h, offered, failed);
    ApartContinues(w, failed, DropLinkFor(failed, w, from));
    ContinuesTwice(w, h, failed, DropLinkFor(failed, w, from));
  }

  lemma {:induction false} ToNormalContinues(w: World, h: Host, peer: Key, htlc: Htlc, relay: Relay, env: Env)
    requires !Hosts(h, w, relay.scid)
    ensures Continues(w, h, ToNormal(h, w, peer, htlc, relay, env).host)
  {
    hide Continues, SendLocal;
    var from, at := (w.scidOf(peer), htlc.id), (relay.scid, htlc.id);
    var link := ForwardLink(from, at, None, None, htlc.paymentHash, Some(relay.sharedSecret), |h.offers|, None);
    var linked := AddLink(LogOffer(h, from), at, link);
    LinkContinues(w, h, from, at, link);
    var failed := FailBack(linked, w, peer, htlc).host;
    SendLocalContinues(w, linked, peer, Fail(w.channelIdOf(peer), htlc.id, FailureFor(w, htlc)));
    ContinuesTwice(w, h, linked, failed);
    ApartContinues(w, failed, DropLink(failed, at));
    ContinuesTwice(w, h, failed, DropLink(failed, at));
  }

  lemma {:induction false} LinkContinues(w: World, h: Host, from: Place, at: Place, link: ForwardLink)
    requires link.target == None && !Hosts(h, w, at.0)
    ensures Continues(w, h, AddLink(LogOffer(h, from), at, link))
  {
    hide Extends;
    var h' := AddLink(LogOffer(h, from), at, link);
    assert !Hosts(h', w, at.0);
    forall p | p in h.channels
      ensures Extends(h.channels[p], h'.channels[p])
    {
      ExtendsItself(h.channels[p]);
    }
  }

  lemma {:induction false} DispatchContinues(w: World, h: Host, peer: Key, d: ChannelData, htlc: Htlc, env: Env)
    ensures Continues(w, h, DispatchIncoming(h, w, peer, d, htlc, env).host)
  {
    hide Continues, ToHosted, ToNormal, SendLocal, WithinLimits, PaysEnough;
    ApartContinues(w, h, h);
    SendLocalContinues(w, h, peer, Fail(w.channelIdOf(peer), htlc.id, FailureFor(w, htlc)));
    SendLocalContinues(w, h, peer, FailMalformed(w.channelIdOf(peer), htlc.id, w.hashOnion(htlc.onion), 0xc005));
    var peeled := w.peel(htlc.onion, htlc.paymentHash);
    if peeled.Some? {
      var target := PeerFor(h, w, peeled.value.scid);
      if target.Some? {
        ToHostedContinues(w, h, peer, target.value, htlc, peeled.value, env);
      } else {
        ToNormalContinues(w, h, peer, htlc, peeled.value, env);
      }
    }
  }

  lemma {:induction false} DispatchAllContinues(w: World, h: Host, peer: Key, before: ChannelData, d: ChannelData, hs: seq<Htlc>, env: U64 -> Env)
    ensures Continues(w, h, DispatchAll(h, w, peer, before, d, hs, env).host)
  {
    hide Continues, DispatchIncoming, HasId;
    if hs == [] {
      ApartContinues(w, h, h);
    } else {
      var htlc, done := hs[|hs| - 1], DispatchAll(h, w, peer, before, d, hs[..|hs| - 1], env).host;
      DispatchAllContinues(w, h, peer, before, d, hs[..|hs| - 1], env);
      DispatchContinues(w, done, peer, d, htlc, env(htlc.id));
      ContinuesTwice(w, h, done, DispatchIncoming(done, w, peer, d, htlc, env(htlc.id)).host);
    }
  }

  /** The dispatch of later HTLCs continues from where the earlier ones led. */
  lemma {:induction false} DispatchGoesOn(w: World, h: Host, peer: Key, before: ChannelData, d: ChannelData, hs: seq<Htlc>, n: nat, env: U64 -> Env)
    requires n <= |hs|
    ensures Continues(w, DispatchAll(h, w, peer, before, d, hs[..n], env).host, DispatchAll(h, w, peer, before, d, hs, env).host)
    decreases |hs|
  {
    hide Continues, DispatchIncoming, HasId;
    var here := DispatchAll(h, w, peer, before, d, hs[..n], env).host;
    if n == |hs| {
      assert hs[..n] == hs;
      ApartContinues(w, here, here);
    } else {
      var front, htlc := hs[..|hs| - 1], hs[|hs| - 1];
      assert front[..n] == hs[..n];
      DispatchGoesOn(w, h, peer, before, d, front, n, env);
      var done := DispatchAll(h, w, peer, before, d, front, env).host;
      DispatchContinues(w, done, peer, d, htlc, env(htlc.id));
      ContinuesTwice(w, here, done, DispatchIncoming(done, w, peer, d, htlc, env(htlc.id)).host);
    }
  }

  lemma {:induction false} RelayContinues(w: World, h: Host, scid: nat, us: seq<Update>, side: Side)
    ensures Continues(w, h, RelayFailures(h, w, scid, us, side).host)
  {
    hide Continues, ResolveFail;
    if us == [] {
      ApartContinues(w, h, h);
    } else {
      var u, done := us[|us| - 1], RelayFailures(h, w, scid, us[..|us| - 1], side).host;
      RelayContinues(w, h, scid, us[..|us| - 1], side);
      if FailureOf(u).Some? {
        ResolveFailContinues(w, done, (scid, u.u.id), FailureOf(u).value, side);
        ContinuesTwice(w, h, done, ResolveFail(done, w, (scid, u.u.id), FailureOf(u).value, side).host);
      }
    }
  }

  lemma {:induction false} PaymentContinues(w: World, h: Host, at: Place, status: PaymentStatus)
    ensures Continues(w, h, OnPaymentResult(h, w, at, status).host)
  {
    hide Continues, SendLocal;
    ApartContinues(w, h, h);
    if at in h.links && PeerFor(h, w, h.links[at].incoming.0).Some? {
      var link, source := h.links[at], PeerFor(h, w, h.links[at].incoming.0).value;
      if status.Succeeded? {
        var known := h.(preimages := h.preimages[link.paymentHash := status.preimage]);
        ApartContinues(w, h, known);
        SentContinues(w, h, known, source, Fulfill(w.channelIdOf(source), link.incoming.1, status.preimage), at);
      } else if status.Failed? {
        SentContinues(w, h, h, source, Fail(w.channelIdOf(source), link.incoming.1, WrapFailure(w, link, status.failure)), at);
      }
    }
  }

  lemma {:induction false} SentContinues(w: World, h: Host, h': Host, source: Key, r: PendingUpdate, at: Place)
    requires Continues(w, h, h') && !r.Add?
    ensures Continues(w, h, Dropped(SendLocal(h', w, source, r), at).host)
  {
    hide Continues, SendLocal;
    var sent := SendLocal(h', w, source, r).host;
    SendLocalContinues(w, h', source, r);
    ContinuesTwice(w, h, h', sent);
    ApartContinues(w, sent, DropLink(sent, at));
    ContinuesTwice(w, h, sent, DropLink(sent, at));
  }

  lemma {:induction false} RecoverOneContinues(w: World, h: Host, peer: Key, d: ChannelData, htlc: Htlc, env: Env)
    ensures Continues(w, h, RecoverOneIncoming(h, w, peer, d, htlc, env).host)
  {
    hide Continues, DispatchIncoming, OnPaymentResult, HasKey;
    ApartContinues(w, h, h);
    DispatchContinues(w, h, peer, d, htlc, env);
    var from := (w.scidOf(peer), htlc.id);
    if Linked(h, from) {
      var link := h.links[LinkOf(h, w, from)];
      PaymentContinues(w, h, link.outgoing, env.payment(link.paymentHash));
    }
  }

  lemma {:induction false} RecoverIncomingContinues(w: World, h: Host, peer: Key, d: ChannelData, hs: seq<Htlc>, env: U64 -> Env)
    ensures Continues(w, h, RecoverIncoming(h, w, peer, d, hs, env).host)
  {
    hide Continues, RecoverOneIncoming;
    if hs == [] {
      ApartContinues(w, h, h);
    } else {
      var htlc, done := hs[|hs| - 1], RecoverIncoming(h, w, peer, d, hs[..|hs| - 1], env).host;
      RecoverIncomingContinues(w, h, peer, d, hs[..|hs| - 1], env);
      RecoverOneContinues(w, done, peer, d, htlc, env(htlc.id));
      ContinuesTwice(w, h, done, RecoverOneIncoming(done, w, peer, d, htlc, env(htlc.id)).host);
    }
  }

  /** Recovery of HTLCs of the host continues, and may then write the loaded data back. */
  ghost predicate MayEndWriting(w: World, h: Host, mid: Host, h': Host, peer: Key, stored: ChannelData) {
    && Continues(w, h, mid) && SameGrants(h, mid, peer)
    && (h' == mid || (peer in mid.channels && h' == Put(mid, peer, MarkErrored(mid.channels[peer].(data := stored), HtlcOutlived))))
  }

  lemma {:induction false} RecoverOutgoingContinues(w: World, h: Host, peer: Key, stored: ChannelData, hs: seq<Htlc>) returns (mid: Host)
    ensures MayEndWriting(w, h, mid, RecoverOutgoing(h, w, peer, stored, hs).host, peer, stored)
    decreases |hs|
  {
    hide Continues, ResolveForward, SettlementIsSafe, HasKey;
    mid := h;
    ApartContinues(w, h, h);
    if hs != [] && peer in h.channels {
      if HasKey(stored.uncommitted, (false, hs[0].id)) {
        mid := RecoverOutgoingContinues(w, h, peer, stored, hs[1..]);
      } else if SettlementIsSafe(h, w, peer, hs[0]) == Ok(true) {
        if hs[0].paymentHash !in h.preimages {
          mid := RecoverOutgoingContinues(w, h, peer, stored, hs[1..]);
        } else {
          var at, p := (w.scidOf(peer), hs[0].id), h.preimages[hs[0].paymentHash];
          var r := Fulfill(w.channelIdOf(0), 0, p);
          var sent := ResolveForward(h, w, at, r, SideOf(h, peer));
          ResolveForwardContinues(w, h, at, r, SideOf(h, peer));
          ResolveSameGrants(h, w, at, r, SideOf(h, peer), peer);
          mid := sent.host;
          if sent.result.Ok? {
            mid := RecoverOutgoingContinues(w, sent.host, peer, stored, hs[1..]);
            ContinuesTwice(w, h, sent.host, mid);
          }
        }
      }
    }
  }

  lemma {:induction false} EnforceOneContinues(w: World, h: Host, peer: Key, now: nat)
    ensures Continues(w, h, EnforceOne(h, w, peer, now).host)
  {
    hide Continues, ResolveFail, Expired, DeriveStatus;
    ApartContinues(w, h, h);
    if peer in h.channels {
      var c, scid := h.channels[peer], w.scidOf(peer);
      var i := FirstOverdue(h.links, scid, c.data.uncommitted, now);
      var j := FirstExpired(h.links, scid, c.data.lcss.outgoing, h.height);
      if i < |c.data.uncommitted| && c.data.uncommitted[i].u.Add? {
        FailingContinues(w, h, peer, DeliveryFailed, (scid, c.data.uncommitted[i].u.htlc.id), TEMPORARY_FAILURE);
      }
      if j < |c.data.lcss.outgoing| {
        FailingContinues(w, h, peer, HtlcExpired, (scid, c.data.lcss.outgoing[j].id), PERMANENT_FAILURE);
      }
    }
  }

  lemma {:induction false} FailingContinues(w: World, h: Host, peer: Key, fault: Fault, at: Place, failure: Bytes)
    requires peer in h.channels
    ensures Continues(w, h, ResolveFail(Put(h, peer, MarkErrored(h.channels[peer], fault)), w, at, failure, SideOf(h, peer)).host)
  {
    hide Continues, ResolveFail, Extends;
    var marked := Put(h, peer, MarkErrored(h.channels[peer], fault));
    SameExtends(h.channels[peer], MarkErrored(h.channels[peer], fault));
    PutContinues(w, h, peer, MarkErrored(h.channels[peer], fault));
    ResolveFailContinues(w, marked, at, failure, SideOf(h, peer));
    ContinuesTwice(w, h, marked, ResolveFail(marked, w, at, failure, SideOf(h, peer)).host);
  }

  lemma {:induction false} EnforceContinues(w: World, h: Host, peers: seq<Key>, now: nat)
    ensures Continues(w, h, Enforce(h, w, peers, now).host)
  {
    hide Continues, EnforceOne;
    if peers == [] {
      ApartContinues(w, h, h);
    } else {
      var done := Enforce(h, w, peers[..|peers| - 1], now).host;
      EnforceContinues(w, h, peers[..|peers| - 1], now);
      EnforceOneContinues(w, done, peers[|peers| - 1], now);
      ContinuesTwice(w, h, done, EnforceOne(done, w, peers[|peers| - 1], now).host);
    }
  }

  lemma {:induction false} FulfillContinues(w: World, h: Host, peer: Key, r: PendingUpdate)
    requires r.Fulfill?
    ensures Continues(w, h, OnFulfill(h, w, peer, r).host)
  {
    hide Continues, ResolveForward, SettlementIsSafe, OnUpdateFulfill, Accepts, Extends;
    ApartContinues(w, h, h);
    if peer in h.channels && Accepts(h.channels[peer].data, r) {
      AcceptsAt(h.channels[peer].data, r);
      var c, hs := h.channels[peer], h.channels[peer].data.lcss.outgoing;
      var verdict := SettlementIsSafe(h, w, peer, hs[Position(hs, r.id)]);
      if verdict.Ok? {
        FulfillExtends(c, r, verdict.value);
        var c' := OnUpdateFulfill(c, r, verdict.value).channel;
        PutContinues(w, h, peer, c');
        var stored := Put(h, peer, c').(preimages := h.preimages[SHA256(r.preimage) := r.preimage]);
        ApartContinues(w, Put(h, peer, c'), stored);
        ContinuesTwice(w, h, Put(h, peer, c'), stored);
        var f := Fulfill(w.channelIdOf(0), 0, r.preimage);
        ResolveForwardContinues(w, stored, (w.scidOf(peer), r.id), f, SideOf(h, peer));
        ContinuesTwice(w, h, stored, ResolveForward(stored, w, (w.scidOf(peer), r.id), f, SideOf(h, peer)).host);
      }
    }
  }

  lemma {:induction false} AcceptsAt(d: ChannelData, r: PendingUpdate)
    requires r.Fulfill? && Accepts(d, r)
    ensures Position(d.lcss.outgoing, r.id) < |d.lcss.outgoing|
  {
  }

  lemma {:induction false} FulfillExtends(c: Channel, r: PendingUpdate, safe: bool)
    requires r.Fulfill?
    ensures Extends(c, OnUpdateFulfill(c, r, safe).channel)
  {
    hide HasKey, HasId, Extends, Listens;
    var c' := OnUpdateFulfill(c, r, safe).channel;
    if c' == Push(c, Remote(r)) {
      PushExtends(c, c', Remote(r));
    } else {
      SameExtends(c, c');
    }
  }
}

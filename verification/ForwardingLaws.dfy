/** What every handler keeps across all channels, links and answers to upstream HTLCs. */
module ForwardingLaws {
  import opened Base
  import opened State
  import opened StateLaws
  import opened HtlcIds
  import opened Channel
  import opened ChannelLaws
  import opened ChannelRuns
  import opened ChannelIds
  import opened Forwarding

  ghost predicate Kept(c: Channel, channelId: Bytes32) {
    Invariant(c) && Tracked(c, channelId)
  }

  ghost predicate ChannelsSound(w: World, h: Host) {
    forall p :: p in h.channels ==> Kept(h.channels[p], w.channelIdOf(p))
  }

  /** Every link lies under its own key and serves an offer of its own. */
  ghost predicate LinksTracked(h: Host) {
    && (forall at :: at in h.links ==>
         && h.links[at].outgoing == at
         && h.links[at].offer < |h.offers| && h.offers[h.links[at].offer] == h.links[at].incoming)
    && (forall at, at' :: at in h.links && at' in h.links && h.links[at].offer == h.links[at'].offer ==> at == at')
  }

  /** A link to a hosted channel was made for an HTLC that the channel was given under the id of the key. */
  predicate LinkGranted(h: Host, at: Place, link: ForwardLink) {
    link.target.Some? ==>
      link.target.value in h.channels && Grant(at.1, link.paymentHash) in h.channels[link.target.value].given
  }

  ghost predicate LinksGranted(h: Host) {
    forall at :: at in h.links ==> LinkGranted(h, at, h.links[at])
  }

  /** No offer is answered twice, and none that a live link still serves has been answered. */
  ghost predicate CallsTracked(h: Host) {
    && (forall i :: 0 <= i < |h.calls| ==>
         h.calls[i].offer < |h.offers| && h.offers[h.calls[i].offer] == h.calls[i].place)
    && (forall i, j :: 0 <= i < j < |h.calls| ==> h.calls[i].offer != h.calls[j].offer)
    && (forall i, at :: 0 <= i < |h.calls| && at in h.links ==> h.calls[i].offer != h.links[at].offer)
  }

  /** A preimage passed upstream through a link leaves time to claim the upstream HTLC. */
  predicate InTime(c: Call) {
    c.via.Some? && c.answer.Settle? ==>
      var v := c.via.value; v.link.upstreamExpiry.Some? && v.height + v.side.delta < v.link.upstreamExpiry.value
  }

  /**
   * A preimage passed upstream through the link of the channel it came from is the one the link waits
   * for, unless the id was withdrawn in that channel.
   */
  predicate Fitting(h: Host, c: Call) {
    c.via.Some? && c.answer.Settle? && c.via.value.link.target == Some(c.via.value.side.peer) ==>
      var v := c.via.value;
      && v.side.peer in h.channels
      && (SHA256(c.answer.preimage) == v.link.paymentHash || v.link.outgoing.1 in h.channels[v.side.peer].withdrawn)
  }

  ghost predicate CallsFit(h: Host) {
    forall i :: 0 <= i < |h.calls| ==> InTime(h.calls[i]) && Fitting(h, h.calls[i])
  }

  ghost predicate PreimagesSound(h: Host) {
    forall hash :: hash in h.preimages ==> SHA256(h.preimages[hash]) == hash
  }

  ghost predicate HostInvariant(w: World, h: Host) {
    && ChannelsSound(w, h) && LinksTracked(h) && LinksGranted(h) && CallsTracked(h) && CallsFit(h)
    && PreimagesSound(h)
  }

  // ---- Parts -------------------------------------------------------------------------------

  /** The logs of a channel only grow. */
  predicate LogsGrow(c: Channel, c': Channel) {
    (forall g :: g in c.given ==> g in c'.given) && c.withdrawn <= c'.withdrawn
  }

  lemma {:induction false} MovesGrowLogs(c: Channel, c': Channel, channelId: Bytes32)
    requires Moves(c, c', channelId)
    ensures LogsGrow(c, c')
  {
    hide NothingInvented, Unopened, DroppedIds, UncountedIds;
  }

  lemma {:induction false} PutKeeps(w: World, h: Host, peer: Key, c: Channel)
    requires HostInvariant(w, h) && Kept(c, w.channelIdOf(peer))
    requires peer in h.channels ==> LogsGrow(h.channels[peer], c)
    ensures HostInvariant(w, Put(h, peer, c))
  {
    hide Kept, InTime;
    var h' := Put(h, peer, c);
    assert forall at :: at in h.links ==> LinkGranted(h, at, h.links[at]) ==> LinkGranted(h', at, h.links[at]);
    assert forall i :: 0 <= i < |h.calls| ==> Fitting(h, h.calls[i]) ==> Fitting(h', h.calls[i]);
  }

  /** A channel that moves stays kept, and so does the host. */
  lemma {:induction false} MovedKeeps(w: World, h: Host, peer: Key, c': Channel)
    requires HostInvariant(w, h) && peer in h.channels
    requires Invariant(c') && Moves(h.channels[peer], c', w.channelIdOf(peer))
    ensures HostInvariant(w, Put(h, peer, c'))
  {
    hide Invariant, Tracked, Moves, LogsGrow, LinksTracked, LinksGranted, CallsTracked, CallsFit, PreimagesSound;
    MoveKeeps(h.channels[peer], c', w.channelIdOf(peer));
    MovesGrowLogs(h.channels[peer], c', w.channelIdOf(peer));
    PutKeeps(w, h, peer, c');
  }

  lemma {:induction false} DropLinkKeeps(w: World, h: Host, at: Place)
    requires HostInvariant(w, h)
    ensures HostInvariant(w, DropLink(h, at))
  {
    hide Kept, InTime;
    var h' := DropLink(h, at);
    assert forall b :: b in h'.links ==> LinkGranted(h, b, h'.links[b]) ==> LinkGranted(h', b, h'.links[b]);
    assert forall i :: 0 <= i < |h.calls| ==> Fitting(h, h.calls[i]) ==> Fitting(h', h.calls[i]);
  }

  lemma {:induction false} SendLocalKeeps(w: World, h: Host, peer: Key, r: PendingUpdate)
    requires HostInvariant(w, h) && !r.Add?
    ensures HostInvariant(w, SendLocal(h, w, peer, r).host)
  {
    hide HostInvariant, Invariant, Moves, OnLocalResolve, HasId;
    if peer in h.channels {
      ChannelIsKept(w, h, peer);
      HostResolveKeeps(h.channels[peer], KeysOf(w, peer), r, BlockDay(h));
      ResolveMoves(h.channels[peer], KeysOf(w, peer), r, BlockDay(h));
      MovedKeeps(w, h, peer, OnLocalResolve(h.channels[peer], KeysOf(w, peer), r, BlockDay(h)).channel);
    }
  }

  lemma {:induction false} ChannelIsKept(w: World, h: Host, peer: Key)
    requires HostInvariant(w, h) && peer in h.channels
    ensures Invariant(h.channels[peer]) && Tracked(h.channels[peer], w.channelIdOf(peer))
  {
    hide Invariant, Tracked, LinksTracked, LinksGranted, CallsTracked, CallsFit, PreimagesSound;
    assert Kept(h.channels[peer], w.channelIdOf(peer));
  }

  /** The link at this place, if it leads to a normal channel, can still be settled in time. */
  ghost predicate Timely(h: Host, w: World, at: Place, delta: U16) {
    at in h.links && !Hosts(h, w, h.links[at].incoming.0) ==>
      h.links[at].upstreamExpiry.Some? && h.height + delta < h.links[at].upstreamExpiry.value
  }

  /** The link at this place, if it was made for this channel, waits for this preimage or its id was withdrawn. */
  predicate Fits(h: Host, at: Place, peer: Key, preimage: Bytes32) {
    at in h.links && h.links[at].target == Some(peer) ==>
      peer in h.channels && (SHA256(preimage) == h.links[at].paymentHash || at.1 in h.channels[peer].withdrawn)
  }

  lemma {:induction false} SettleUpstreamKeeps(w: World, h: Host, at: Place, answer: Answer, side: Side)
    requires HostInvariant(w, h) && at in h.links
    requires answer.Settle? ==> h.links[at].upstreamExpiry.Some? && h.height + side.delta < h.links[at].upstreamExpiry.value
    requires answer.Settle? ==> Fits(h, at, side.peer, answer.preimage)
    ensures HostInvariant(w, SettleUpstream(h, at, answer, side))
  {
    hide Kept;
    var h' := SettleUpstream(h, at, answer, side);
    var n := |h.calls|;
    assert forall i :: 0 <= i < n ==> h'.calls[i] == h.calls[i];
    assert forall b :: b in h'.links ==> LinkGranted(h, b, h'.links[b]) ==> LinkGranted(h', b, h'.links[b]);
    assert InTime(h'.calls[n]) && Fitting(h', h'.calls[n]);
    assert CallsFit(h') by {
      forall i | 0 <= i < n
        ensures InTime(h'.calls[i]) && Fitting(h', h'.calls[i])
      {
        assert Fitting(h, h.calls[i]);
      }
    }
    assert CallsTracked(h');
  }

  /** One `resolve_htlc` call per link: the link goes when the call is made. */
  lemma {:induction false} ResolveForwardKeeps(w: World, h: Host, at: Place, r: PendingUpdate, side: Side)
    requires HostInvariant(w, h) && (r.Fulfill? || r.Fail?)
    requires r.Fulfill? ==> Timely(h, w, at, side.delta) && Fits(h, at, side.peer, r.preimage)
    ensures HostInvariant(w, ResolveForward(h, w, at, r, side).host)
  {
    hide HostInvariant, SendLocal, SettleUpstream, Fits;
    if at in h.links {
      var link := h.links[at];
      if Hosts(h, w, link.incoming.0) {
        var source := PeerFor(h, w, link.incoming.0).value;
        var r' := Addressed(r, w.channelIdOf(source), link.incoming.1);
        SendLocalKeeps(w, h, source, r');
        DropLinkKeeps(w, SendLocal(h, w, source, r').host, at);
      } else {
        SettleUpstreamKeeps(w, h, at, AnswerOf(r), side);
      }
    }
  }

  lemma {:induction false} ResolveFailKeeps(w: World, h: Host, at: Place, failure: Bytes, side: Side)
    requires HostInvariant(w, h)
    ensures HostInvariant(w, ResolveFail(h, w, at, failure, side).host)
  {
    hide HostInvariant, ResolveForward;
    var reason := if at in h.links then WrapFailure(w, h.links[at], failure) else failure;
    ResolveForwardKeeps(w, h, at, Fail(w.channelIdOf(0), 0, reason), side);
  }

  // ---- Fulfills ----------------------------------------------------------------------------

  /** The test before a settlement is exactly what makes it timely. */
  lemma {:induction false} SafeIsTimely(h: Host, w: World, peer: Key, out: Htlc, h': Host)
    requires peer in h.channels && SettlementIsSafe(h, w, peer, out) == Ok(true)
    requires h'.links == h.links && h'.height == h.height && h'.channels.Keys == h.channels.Keys
    ensures Timely(h', w, (w.scidOf(peer), out.id), DeltaOf(h, h.channels[peer]))
  {
    var at := (w.scidOf(peer), out.id);
    if at in h.links {
      assert Hosts(h, w, h.links[at].incoming.0) == Hosts(h', w, h.links[at].incoming.0);
    }
  }

  /** Two grants of one id that was never withdrawn are the same grant. */
  lemma {:induction false} GrantIsUnique(c: Channel, id: U64, a: Bytes32, b: Bytes32)
    requires GivenAccounted(c) && Grant(id, a) in c.given && Grant(id, b) in c.given && id !in c.withdrawn
    ensures a == b
  {
    hide IsPending, WasGiven;
    var i :| 0 <= i < |c.given| && c.given[i] == Grant(id, a);
    var j :| 0 <= j < |c.given| && c.given[j] == Grant(id, b);
  }

  /** The preimage of an HTLC the channel was given fits the link made for that channel. */
  lemma {:induction false} GrantedFits(w: World, h: Host, peer: Key, out: Htlc, preimage: Bytes32)
    requires HostInvariant(w, h) && peer in h.channels && Granted(h.channels[peer].given, out)
    requires SHA256(preimage) == out.paymentHash
    ensures Fits(h, (w.scidOf(peer), out.id), peer, preimage)
  {
    hide Invariant, ChannelsSound, LinksTracked, CallsTracked, CallsFit, PreimagesSound;
    var at := (w.scidOf(peer), out.id);
    ChannelIsAccounted(w, h, peer);
    if at in h.links && h.links[at].target == Some(peer) && out.id !in h.channels[peer].withdrawn {
      assert LinkGranted(h, at, h.links[at]);
      GrantIsUnique(h.channels[peer], out.id, out.paymentHash, h.links[at].paymentHash);
    }
  }

  lemma {:induction false} ChannelIsAccounted(w: World, h: Host, peer: Key)
    requires HostInvariant(w, h) && peer in h.channels
    ensures GivenAccounted(h.channels[peer]) && AllGranted(h.channels[peer])
  {
    hide HostInvariant, GivenAccounted, AllGranted;
    ChannelIsKept(w, h, peer);
  }

  lemma {:induction false} CommittedIsGranted(w: World, h: Host, peer: Key, out: Htlc)
    requires HostInvariant(w, h) && peer in h.channels && out in h.channels[peer].data.lcss.outgoing
    ensures Granted(h.channels[peer].given, out)
  {
    hide HostInvariant, GivenAccounted;
    ChannelIsAccounted(w, h, peer);
    assert out in Pool(h.channels[peer].data);
  }

  lemma {:induction false} OnFulfillKeeps(w: World, h: Host, peer: Key, r: PendingUpdate)
    requires HostInvariant(w, h) && r.Fulfill?
    ensures HostInvariant(w, OnFulfill(h, w, peer, r).host)
  {
    hide HostInvariant, Invariant, Moves, ResolveForward, OnUpdateFulfill, SettlementIsSafe, Fits, Granted;
    if peer in h.channels && Accepts(h.channels[peer].data, r) {
      var c := h.channels[peer];
      var out := c.data.lcss.outgoing[Position(c.data.lcss.outgoing, r.id)];
      var verdict := SettlementIsSafe(h, w, peer, out);
      if verdict.Ok? {
        ChannelIsKept(w, h, peer);
        PeerFulfillKeeps(c, r, verdict.value);
        PeerUpdateMoves(c, AnyHtlc(), r, verdict.value, w.channelIdOf(peer));
        var c' := OnUpdateFulfill(c, r, verdict.value).channel;
        var h' := Put(h, peer, c');
        MovedKeeps(w, h, peer, c');
        if verdict.value {
          var stored := h'.(preimages := h.preimages[SHA256(r.preimage) := r.preimage]);
          CommittedIsGranted(w, h, peer, out);
          MovesGrowLogs(c, c', w.channelIdOf(peer));
          assert Granted(c'.given, out) by { GrantedGrows(c, c', out); }
          PreimagesKeep(w, h', stored.preimages);
          SafeIsTimely(h, w, peer, out, stored);
          GrantedFits(w, stored, peer, out, r.preimage);
          ResolveForwardKeeps(w, stored, (w.scidOf(peer), r.id), Fulfill(w.channelIdOf(0), 0, r.preimage), SideOf(h, peer));
        }
      }
    }
  }

  lemma {:induction false} GrantedGrows(c: Channel, c': Channel, out: Htlc)
    requires LogsGrow(c, c') && Granted(c.given, out)
    ensures Granted(c'.given, out)
  {
  }

  /** More preimages may be known, each under its own hash. */
  lemma {:induction false} PreimagesKeep(w: World, h: Host, preimages: map<Bytes32, Bytes32>)
    requires HostInvariant(w, h)
    requires forall hash :: hash in preimages ==>
      (hash in h.preimages && preimages[hash] == h.preimages[hash]) || SHA256(preimages[hash]) == hash
    ensures HostInvariant(w, h.(preimages := preimages))
  {
    hide Kept, InTime;
    var h' := h.(preimages := preimages);
    assert forall at :: at in h.links ==> LinkGranted(h, at, h.links[at]) ==> LinkGranted(h', at, h.links[at]);
    assert forall i :: 0 <= i < |h.calls| ==> Fitting(h, h.calls[i]) ==> Fitting(h', h.calls[i]);
  }

  // ---- Recovery of HTLCs of the host -------------------------------------------------------

  /** Resolving leaves the logs of every channel as they are. */
  ghost predicate SameGrants(h: Host, h': Host, peer: Key) {
    peer in h.channels ==>
      && peer in h'.channels
      && h'.channels[peer].given == h.channels[peer].given && h'.channels[peer].withdrawn == h.channels[peer].withdrawn
  }

  lemma {:induction false} SendLocalSameGrants(h: Host, w: World, source: Key, r: PendingUpdate, peer: Key)
    requires !r.Add?
    ensures SameGrants(h, SendLocal(h, w, source, r).host, peer)
  {
    hide SignedNext, HasId;
  }

  lemma {:induction false} ResolveSameGrants(h: Host, w: World, at: Place, r: PendingUpdate, side: Side, peer: Key)
    requires r.Fulfill? || r.Fail?
    ensures SameGrants(h, ResolveForward(h, w, at, r, side).host, peer)
  {
    hide SendLocal;
    if at in h.links && Hosts(h, w, h.links[at].incoming.0) {
      var source := PeerFor(h, w, h.links[at].incoming.0).value;
      SendLocalSameGrants(h, w, source, Addressed(r, w.channelIdOf(source), h.links[at].incoming.1), peer);
    }
  }

  /** A channel would still be kept if earlier data were written back. */
  ghost predicate MayWriteBack(w: World, h: Host, peer: Key, stored: ChannelData) {
    peer in h.channels && Kept(h.channels[peer].(data := stored), w.channelIdOf(peer)) && DeriveStatus(stored) == Active
  }

  lemma {:induction false} MayStillWriteBack(w: World, h: Host, h': Host, peer: Key, stored: ChannelData)
    requires HostInvariant(w, h') && MayWriteBack(w, h, peer, stored) && SameGrants(h, h', peer)
    ensures MayWriteBack(w, h', peer, stored)
  {
    hide HostInvariant, SoundState, QueueSound, HtlcsEncode, Stamped, Numbered, IsPending, WasGiven, Granted;
    ChannelIsKept(w, h', peer);
    var c, c' := h.channels[peer].(data := stored), h'.channels[peer].(data := stored);
    assert GivenAccounted(c) && AllGranted(c);
    assert GivenAccounted(c');
    assert AllGranted(h'.channels[peer]);
  }

  lemma {:induction false} WriteBackKeeps(w: World, h: Host, peer: Key, stored: ChannelData)
    requires HostInvariant(w, h) && MayWriteBack(w, h, peer, stored)
    ensures HostInvariant(w, Put(h, peer, MarkErrored(h.channels[peer].(data := stored), HtlcOutlived)))
  {
    hide HostInvariant, Invariant, Tracked, Moves, DeriveStatus, LogsGrow;
    var c := h.channels[peer].(data := stored);
    ErrorsKeep(c, HtlcOutlived, []);
    ErrorMoves(c, HtlcOutlived, [], w.channelIdOf(peer));
    MoveKeeps(c, MarkErrored(c, HtlcOutlived), w.channelIdOf(peer));
    assert LogsGrow(h.channels[peer], MarkErrored(c, HtlcOutlived)) by { SameLogsGrow(h.channels[peer], MarkErrored(c, HtlcOutlived)); }
    PutKeeps(w, h, peer, MarkErrored(c, HtlcOutlived));
  }

  lemma {:induction false} SameLogsGrow(c: Channel, c': Channel)
    requires SameLogs(c, c')
    ensures LogsGrow(c, c')
  {
  }

  lemma {:induction false} RecoverOutgoingKeeps(w: World, h: Host, peer: Key, stored: ChannelData, hs: seq<Htlc>)
    requires HostInvariant(w, h) && (peer in h.channels ==> MayWriteBack(w, h, peer, stored))
    requires forall out :: out in hs ==> out in stored.lcss.outgoing
    ensures HostInvariant(w, RecoverOutgoing(h, w, peer, stored, hs).host)
    decreases |hs|
  {
    hide HostInvariant, MayWriteBack, ResolveFulfill, SettlementIsSafe, HasKey;
    if hs != [] && peer in h.channels {
      var out := hs[0];
      WriteBackKeeps(w, h, peer, stored);
      if HasKey(stored.uncommitted, (false, out.id)) {
        RecoverOutgoingKeeps(w, h, peer, stored, hs[1..]);
      } else if SettlementIsSafe(h, w, peer, out) == Ok(true) {
        if out.paymentHash !in h.preimages {
          RecoverOutgoingKeeps(w, h, peer, stored, hs[1..]);
        } else {
          RecoverOneKeeps(w, h, peer, stored, out);
          var sent := ResolveFulfill(h, w, (w.scidOf(peer), out.id), h.preimages[out.paymentHash], SideOf(h, peer));
          if sent.result.Ok? {
            RecoverOutgoingKeeps(w, sent.host, peer, stored, hs[1..]);
          }
        }
      }
    }
  }

  lemma {:induction false} RecoverOneKeeps(w: World, h: Host, peer: Key, stored: ChannelData, out: Htlc)
    requires HostInvariant(w, h) && MayWriteBack(w, h, peer, stored) && out in stored.lcss.outgoing
    requires SettlementIsSafe(h, w, peer, out) == Ok(true) && out.paymentHash in h.preimages
    ensures var h' := ResolveFulfill(h, w, (w.scidOf(peer), out.id), h.preimages[out.paymentHash], SideOf(h, peer)).host;
      HostInvariant(w, h') && MayWriteBack(w, h', peer, stored)
  {
    hide HostInvariant, ResolveForward, SettlementIsSafe, Kept, Fits, Granted, DeriveStatus;
    var at, p := (w.scidOf(peer), out.id), h.preimages[out.paymentHash];
    var r := Fulfill(w.channelIdOf(0), 0, p);
    StoredIsGranted(w, h, peer, stored, out);
    PreimageIsSound(w, h, out.paymentHash);
    SafeIsTimely(h, w, peer, out, h);
    GrantedFits(w, h, peer, out, p);
    ResolveForwardKeeps(w, h, at, r, SideOf(h, peer));
    ResolveSameGrants(h, w, at, r, SideOf(h, peer), peer);
    MayStillWriteBack(w, h, ResolveForward(h, w, at, r, SideOf(h, peer)).host, peer, stored);
  }

  lemma {:induction false} StoredIsGranted(w: World, h: Host, peer: Key, stored: ChannelData, out: Htlc)
    requires MayWriteBack(w, h, peer, stored) && out in stored.lcss.outgoing
    ensures Granted(h.channels[peer].given, out)
  {
    hide Invariant, GivenAccounted, Granted;
    var c := h.channels[peer].(data := stored);
    assert out in Pool(c.data);
  }

  lemma {:induction false} PreimageIsSound(w: World, h: Host, hash: Bytes32)
    requires HostInvariant(w, h) && hash in h.preimages
    ensures SHA256(h.preimages[hash]) == hash
  {
    hide ChannelsSound, LinksTracked, LinksGranted, CallsTracked, CallsFit;
  }

  // ---- Offers ------------------------------------------------------------------------------

  /** The latest offer is neither answered nor served by a link yet. */
  ghost predicate LatestIsOpen(h: Host, from: Place) {
    var n := |h.offers| - 1;
    && n >= 0 && h.offers[n] == from
    && (forall at :: at in h.links ==> h.links[at].offer < n)
    && (forall i :: 0 <= i < |h.calls| ==> h.calls[i].offer < n)
  }

  lemma {:induction false} LogOfferKeeps(w: World, h: Host, from: Place)
    requires HostInvariant(w, h)
    ensures HostInvariant(w, LogOffer(h, from)) && LatestIsOpen(LogOffer(h, from), from)
  {
    hide Kept, InTime;
    var h' := LogOffer(h, from);
    assert forall i :: 0 <= i < |h.offers| ==> h'.offers[i] == h.offers[i];
    assert forall at :: at in h.links ==> LinkGranted(h, at, h.links[at]) ==> LinkGranted(h', at, h.links[at]);
    assert forall i :: 0 <= i < |h.calls| ==> Fitting(h, h.calls[i]) ==> Fitting(h', h.calls[i]);
    assert ChannelsSound(w, h');
  }

  lemma {:induction false} AnswerLatestKeeps(w: World, h: Host, from: Place, answer: Answer)
    requires HostInvariant(w, h) && LatestIsOpen(h, from)
    ensures HostInvariant(w, AnswerLatest(h, from, answer))
  {
    hide Kept;
    var h' := AnswerLatest(h, from, answer);
    assert forall at :: at in h.links ==> LinkGranted(h, at, h.links[at]) ==> LinkGranted(h', at, h.links[at]);
    assert CallsFit(h') by {
      forall i | 0 <= i < |h'.calls|
        ensures InTime(h'.calls[i]) && Fitting(h', h'.calls[i])
      {
        assert i < |h.calls| ==> Fitting(h, h.calls[i]) && h'.calls[i] == h.calls[i];
      }
    }
  }

  lemma {:induction false} AddedIsTracked(h: Host, at: Place, link: ForwardLink)
    requires LinksTracked(h) && CallsTracked(h) && LatestIsOpen(h, link.incoming) && link.offer == |h.offers| - 1
    requires link.outgoing == at
    ensures LinksTracked(AddLink(h, at, link)) && CallsTracked(AddLink(h, at, link))
  {
  }

  lemma {:induction false} AddedIsGranted(h: Host, at: Place, link: ForwardLink)
    requires LinksGranted(h) && CallsFit(h) && LinkGranted(h, at, link)
    ensures LinksGranted(AddLink(h, at, link)) && CallsFit(AddLink(h, at, link))
  {
    hide InTime;
    var h' := AddLink(h, at, link);
    assert forall i :: 0 <= i < |h.calls| ==> Fitting(h, h.calls[i]) ==> Fitting(h', h.calls[i]);
    assert forall b, l :: LinkGranted(h, b, l) ==> LinkGranted(h', b, l);
  }

  lemma {:induction false} AddLinkKeeps(w: World, h: Host, at: Place, link: ForwardLink)
    requires HostInvariant(w, h) && LatestIsOpen(h, link.incoming) && link.offer == |h.offers| - 1
    requires link.outgoing == at && LinkGranted(h, at, link)
    ensures HostInvariant(w, AddLink(h, at, link))
  {
    hide Kept, LinksTracked, LinksGranted, CallsTracked, CallsFit, LinkGranted;
    AddedIsTracked(h, at, link);
    AddedIsGranted(h, at, link);
  }

  lemma {:induction false} AcceptedMayAdd(h: Host, w: World, peer: Key, o: Offer, disconnected: bool)
    requires peer in h.channels && Judge(h, w, peer, o, disconnected) == Accepted
    ensures CountersFit(h.channels[peer].data)
    ensures var d := h.channels[peer].data;
      MayHostAdd(d, KeysOf(w, peer), Stamp(d, w.channelIdOf(peer), o.htlc))
  {
    hide Sum;
  }

  lemma {:induction false} OnOfferKeeps(w: World, h: Host, peer: Key, o: Offer, env: Env)
    requires HostInvariant(w, h)
    ensures HostInvariant(w, OnOffer(h, w, peer, o, env).host)
  {
    hide HostInvariant, Judge, OnHostAdd, AnswerLatest, LatestIsOpen, AddLink;
    LogOfferKeeps(w, h, o.from);
    if peer in h.channels && Judge(h, w, peer, o, env.disconnected).Answered? {
      AnswerLatestKeeps(w, LogOffer(h, o.from), o.from, Judge(h, w, peer, o, env.disconnected).answer);
    }
    if peer in h.channels && Judge(h, w, peer, o, env.disconnected) == Accepted {
      AcceptKeeps(w, h, peer, o, env);
    }
  }

  /**
   * The source creates the link before it stores the HTLC; for the invariant the HTLC comes first, and
   * the two writes do not interfere.
   */
  lemma {:induction false} AcceptKeeps(w: World, h: Host, peer: Key, o: Offer, env: Env)
    requires HostInvariant(w, h) && peer in h.channels && Judge(h, w, peer, o, env.disconnected) == Accepted
    ensures HostInvariant(w, OnOffer(h, w, peer, o, env).host)
  {
    hide HostInvariant, Judge, OnHostAdd, LatestIsOpen, Invariant, Moves, MayHostAdd;
    AcceptedMayAdd(h, w, peer, o, env.disconnected);
    var c := h.channels[peer];
    var htlc := Stamp(c.data, w.channelIdOf(peer), o.htlc);
    var at := (w.scidOf(peer), htlc.id);
    var link := LinkFor(o, at, htlc.paymentHash, env.now, |h.offers|, peer);
    var c' := OnHostAdd(c, KeysOf(w, peer), htlc, BlockDay(h), env.addSent, env.stateSent).channel;
    var logged := LogOffer(h, o.from);
    LogOfferKeeps(w, h, o.from);
    ChannelIsKept(w, h, peer);
    HostAddKeeps(c, KeysOf(w, peer), htlc, BlockDay(h), env.addSent, env.stateSent);
    HostAddMoves(c, KeysOf(w, peer), htlc, BlockDay(h), env.addSent, env.stateSent);
    MovedKeeps(w, logged, peer, c');
    AddIsGiven(c, KeysOf(w, peer), htlc, BlockDay(h), env.addSent, env.stateSent);
    LatestStaysOpen(logged, o.from, peer, c');
    AddLinkKeeps(w, Put(logged, peer, c'), at, link);
    assert AddLink(Put(logged, peer, c'), at, link) == Put(AddLink(logged, at, link), peer, c');
  }

  lemma {:induction false} LatestStaysOpen(h: Host, from: Place, peer: Key, c: Channel)
    requires LatestIsOpen(h, from)
    ensures LatestIsOpen(Put(h, peer, c), from)
  {
  }

  lemma {:induction false} AddIsGiven(c: Channel, k: Keys, h: Htlc, day: U32, addSent: bool, stateSent: bool)
    ensures Grant(h.id, h.paymentHash) in OnHostAdd(c, k, h, day, addSent, stateSent).channel.given
  {
    hide SignedNext;
  }

  // ---- The watchdog ------------------------------------------------------------------------

  lemma {:induction false} MarkKeeps(w: World, h: Host, peer: Key, fault: Fault)
    requires HostInvariant(w, h) && peer in h.channels
    ensures HostInvariant(w, Put(h, peer, MarkErrored(h.channels[peer], fault)))
  {
    hide HostInvariant, Invariant, Moves;
    ChannelIsKept(w, h, peer);
    ErrorsKeep(h.channels[peer], fault, []);
    ErrorMoves(h.channels[peer], fault, [], w.channelIdOf(peer));
    MovedKeeps(w, h, peer, MarkErrored(h.channels[peer], fault));
  }

  lemma {:induction false} EnforceOneKeeps(w: World, h: Host, peer: Key, now: nat)
    requires HostInvariant(w, h)
    ensures HostInvariant(w, EnforceOne(h, w, peer, now).host)
  {
    hide HostInvariant, ResolveFail, Expired, DeriveStatus;
    if peer in h.channels {
      var c, scid := h.channels[peer], w.scidOf(peer);
      var i := FirstOverdue(h.links, scid, c.data.uncommitted, now);
      var j := FirstExpired(h.links, scid, c.data.lcss.outgoing, h.height);
      MarkKeeps(w, h, peer, DeliveryFailed);
      MarkKeeps(w, h, peer, HtlcExpired);
      if i < |c.data.uncommitted| && c.data.uncommitted[i].u.Add? {
        ResolveFailKeeps(w, Put(h, peer, MarkErrored(c, DeliveryFailed)), (scid, c.data.uncommitted[i].u.htlc.id),
                         TEMPORARY_FAILURE, SideOf(h, peer));
      }
      if j < |c.data.lcss.outgoing| {
        ResolveFailKeeps(w, Put(h, peer, MarkErrored(c, HtlcExpired)), (scid, c.data.lcss.outgoing[j].id),
                         PERMANENT_FAILURE, SideOf(h, peer));
      }
    }
  }

  lemma {:induction false} EnforceKeeps(w: World, h: Host, peers: seq<Key>, now: nat)
    requires HostInvariant(w, h)
    ensures HostInvariant(w, Enforce(h, w, peers, now).host)
  {
    hide HostInvariant, EnforceOne;
    if peers != [] {
      EnforceKeeps(w, h, peers[..|peers| - 1], now);
      EnforceOneKeeps(w, Enforce(h, w, peers[..|peers| - 1], now).host, peers[|peers| - 1], now);
    }
  }

  /** An active channel has nothing overdue pending and nothing expired committed. */
  ghost predicate Clear(h: Host, w: World, p: Key, now: nat) {
    p in h.channels && DeriveStatus(h.channels[p].data) == Active ==>
      && (forall i :: 0 <= i < |h.channels[p].data.uncommitted| ==>
           !Overdue(h.links, w.scidOf(p), h.channels[p].data.uncommitted[i], now))
      && (forall i :: 0 <= i < |h.channels[p].data.lcss.outgoing| ==>
           !Expired(h.links, w.scidOf(p), h.channels[p].data.lcss.outgoing[i], h.height))
  }

  /** A channel grew by at most a resolution of the host, or is no longer active. */
  predicate Calmer(c: Channel, c': Channel) {
    DeriveStatus(c'.data) == Active ==>
      && DeriveStatus(c.data) == Active && c'.data.lcss == c.data.lcss
      && |c.data.uncommitted| <= |c'.data.uncommitted| <= |c.data.uncommitted| + 1
      && c.data.uncommitted <= c'.data.uncommitted
      && (|c'.data.uncommitted| > |c.data.uncommitted| ==> !c'.data.uncommitted[|c.data.uncommitted|].u.Add?)
  }

  ghost predicate AllCalmer(h: Host, h': Host) {
    && h'.height == h.height && h'.channels.Keys == h.channels.Keys
    && (forall at :: at in h'.links ==> at in h.links && h'.links[at] == h.links[at])
    && (forall p :: p in h.channels ==> Calmer(h.channels[p], h'.channels[p]))
  }

  lemma {:induction false} CalmerStaysClear(h: Host, h': Host, w: World, p: Key, now: nat)
    requires AllCalmer(h, h') && Clear(h, w, p, now)
    ensures Clear(h', w, p, now)
  {
    if p in h'.channels && DeriveStatus(h'.channels[p].data) == Active {
      var q, q' := h.channels[p].data.uncommitted, h'.channels[p].data.uncommitted;
      assert Calmer(h.channels[p], h'.channels[p]);
      forall i | 0 <= i < |q'|
        ensures !Overdue(h'.links, w.scidOf(p), q'[i], now)
      {
        if i < |q| {
          assert q'[i] == q[i];
        }
      }
      forall i | 0 <= i < |h'.channels[p].data.lcss.outgoing|
        ensures !Expired(h'.links, w.scidOf(p), h'.channels[p].data.lcss.outgoing[i], h'.height)
      {
        assert !Expired(h.links, w.scidOf(p), h.channels[p].data.lcss.outgoing[i], h.height);
      }
    }
  }

  lemma {:induction false} ResolveIsCalmer(c: Channel, k: Keys, r: PendingUpdate, day: U32)
    requires !r.Add?
    ensures Calmer(c, OnLocalResolve(c, k, r, day).channel)
    ensures DeriveStatus(c.data) != Active ==> DeriveStatus(OnLocalResolve(c, k, r, day).channel.data) != Active
  {
    hide Fold, Encodes, HasId;
  }

  /** Failing one link disturbs no other channel's clearance. */
  lemma {:induction false} ResolveFailIsCalmer(h: Host, w: World, at: Place, failure: Bytes, side: Side)
    ensures AllCalmer(h, ResolveFail(h, w, at, failure, side).host)
  {
    hide OnLocalResolve, DeriveStatus;
    if at in h.links && Hosts(h, w, h.links[at].incoming.0) {
      var source := PeerFor(h, w, h.links[at].incoming.0).value;
      var r := Fail(w.channelIdOf(source), h.links[at].incoming.1, WrapFailure(w, h.links[at], failure));
      ResolveIsCalmer(h.channels[source], KeysOf(w, source), r, BlockDay(h));
    }
  }

  lemma {:induction false} MarkingIsCalmer(h: Host, peer: Key, error: Fault)
    requires peer in h.channels
    ensures AllCalmer(h, Put(h, peer, MarkErrored(h.channels[peer], error)))
    ensures DeriveStatus(MarkErrored(h.channels[peer], error).data) != Active
  {
  }

  lemma {:induction false} CalmerTransitive(h: Host, h': Host, h'': Host)
    requires AllCalmer(h, h')
    requires AllCalmer(h', h'')
    requires forall p :: p in h.channels ==> h'.channels[p] == h.channels[p] || DeriveStatus(h'.channels[p].data) != Active
    ensures AllCalmer(h, h'')
  {
    hide DeriveStatus;
  }

  lemma {:induction false} FailingIsCalmer(h: Host, w: World, peer: Key, error: Fault, at: Place, failure: Bytes, side: Side)
    requires peer in h.channels
    ensures var h' := Put(h, peer, MarkErrored(h.channels[peer], error));
      var h'' := ResolveFail(h', w, at, failure, side).host;
      AllCalmer(h, h'') && Calmer(h'.channels[peer], h''.channels[peer]) && DeriveStatus(h''.channels[peer].data) != Active
  {
    hide DeriveStatus, ResolveFail;
    var h' := Put(h, peer, MarkErrored(h.channels[peer], error));
    MarkingIsCalmer(h, peer, error);
    ResolveFailIsCalmer(h', w, at, failure, side);
    CalmerTransitive(h, h', ResolveFail(h', w, at, failure, side).host);
  }

  lemma {:induction false} EnforceOneClears(h: Host, w: World, peer: Key, now: nat)
    ensures AllCalmer(h, EnforceOne(h, w, peer, now).host)
    ensures Clear(EnforceOne(h, w, peer, now).host, w, peer, now)
  {
    hide ResolveFail, AllCalmer;
    AllCalmerReflexive(h);
    if peer in h.channels && DeriveStatus(h.channels[peer].data) == Active {
      var c, scid := h.channels[peer], w.scidOf(peer);
      var i := FirstOverdue(h.links, scid, c.data.uncommitted, now);
      var j := FirstExpired(h.links, scid, c.data.lcss.outgoing, h.height);
      if i < |c.data.uncommitted| {
        FailingIsCalmer(h, w, peer, DeliveryFailed, (scid, c.data.uncommitted[i].u.htlc.id), TEMPORARY_FAILURE, SideOf(h, peer));
      } else if j < |c.data.lcss.outgoing| {
        FailingIsCalmer(h, w, peer, HtlcExpired, (scid, c.data.lcss.outgoing[j].id), PERMANENT_FAILURE, SideOf(h, peer));
      }
    }
  }

  lemma {:induction false} AllCalmerReflexive(h: Host)
    ensures AllCalmer(h, h)
  {
  }

  /**
   * After a pass that reports no error, none of the channels it visited is both active and holding a
   * pending HTLC past its commit deadline or a committed one past its expiry.
   */
  lemma {:induction false} WatchdogClears(h: Host, w: World, peers: seq<Key>, now: nat, n: nat)
    requires Enforce(h, w, peers, now).result.Ok? && n < |peers|
    ensures Clear(Enforce(h, w, peers, now).host, w, peers[n], now)
  {
    hide EnforceOne, AllCalmer, Clear;
    var last := |peers| - 1;
    var done := Enforce(h, w, peers[..last], now);
    EnforceOneClears(done.host, w, peers[last], now);
    if n < last {
      WatchdogClears(h, w, peers[..last], now, n);
      CalmerStaysClear(done.host, Enforce(h, w, peers, now).host, w, peers[n], now);
    }
  }

  /** A pass over all channels leaves no channel both active and late. */
  lemma {:induction false} WatchdogClearsAll(h: Host, w: World, peers: seq<Key>, now: nat, p: Key)
    requires Enforce(h, w, peers, now).result.Ok? && (forall p :: p in h.channels ==> p in peers)
    ensures Clear(Enforce(h, w, peers, now).host, w, p, now)
  {
    hide Enforce, Clear;
    if p in peers {
      var n :| 0 <= n < |peers| && peers[n] == p;
      WatchdogClears(h, w, peers, now, n);
    } else {
      EnforceKeepsKeys(h, w, peers, now);
      assert p !in Enforce(h, w, peers, now).host.channels;
      AbsentIsClear(Enforce(h, w, peers, now).host, w, p, now);
    }
  }

  lemma {:induction false} AbsentIsClear(h: Host, w: World, p: Key, now: nat)
    requires p !in h.channels
    ensures Clear(h, w, p, now)
  {
  }

  lemma {:induction false} EnforceKeepsKeys(h: Host, w: World, peers: seq<Key>, now: nat)
    ensures Enforce(h, w, peers, now).host.channels.Keys == h.channels.Keys
  {
    hide EnforceOne;
    if peers != [] {
      EnforceKeepsKeys(h, w, peers[..|peers| - 1], now);
      EnforceOneClears(Enforce(h, w, peers[..|peers| - 1], now).host, w, peers[|peers| - 1], now);
    }
  }
}

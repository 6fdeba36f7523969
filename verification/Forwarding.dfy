/**
 * The host with all its channels and the links between HTLCs it forwards: what the handlers of
 * src/channel.rs that look beyond one channel do. Each function is one atomic handler.
 */
module Forwarding {
  import opened Base
  import opened State
  import opened StateLaws
  import opened HtlcIds
  import opened Channel

  /** A short channel id and an HTLC id: where an HTLC came from, or the key of a link. */
  type Place = (nat, U64)

  /**
   * `offer` and `target` only log: the number of the offered HTLC that the link serves, and the hosted
   * channel it was made for, if any.
   */
  datatype ForwardLink = ForwardLink(
    incoming: Place, outgoing: Place, upstreamExpiry: Option<U32>, commitDeadline: Option<nat>,
    paymentHash: Bytes32, sharedSecret: Option<Bytes32>, offer: nat, target: Option<Key>)

  /** What peeling an onion yields: where to forward, how much, until when, and the rest of the onion. */
  datatype Relay = Relay(amount: U64, cltv: U32, scid: nat, onion: Bytes, sharedSecret: Bytes32)

  /**
   * What a host computes from keys and never changes. `rank` is the order in which the store lists the
   * keys of links; peers are listed in the order of their keys.
   */
  datatype World = World(
    hostKey: Key, scidOf: Key -> nat, channelIdOf: Key -> Bytes32, rank: Place -> nat,
    peel: (Bytes, Bytes32) -> Option<Relay>, wrap: (Bytes32, Bytes) -> Bytes, hashOnion: Bytes -> Bytes32)

  datatype Answer = Settle(preimage: Bytes32) | FailOnion(failure: Bytes) | FailCode(code: U16)

  /** A channel whose HTLC is resolved, and its CLTV delta. Only logs keep it. */
  datatype Side = Side(peer: Key, delta: U16)

  /** The link a call went through, the channel on its other side, and the height at that time. */
  datatype Via = Via(link: ForwardLink, side: Side, height: U32)

  /** One call of `resolve_htlc`. `offer` numbers the HTLC offered to the host that the call answers. */
  datatype Call = Call(offer: nat, place: Place, answer: Answer, via: Option<Via>)

  /**
   * `reachable` holds the peers that messages currently get through to. `offers` and `calls` only log:
   * which HTLCs came and what was answered.
   */
  datatype Host = Host(
    channels: map<Key, Channel>, links: map<Place, ForwardLink>, preimages: map<Bytes32, Bytes32>,
    height: U32, policy: Policy, reachable: set<Key>,
    offers: seq<Place>, calls: seq<Call>)

  datatype Outcome = Outcome(host: Host, result: Result<(), ChannelError>)

  function KeysOf(w: World, peer: Key): Keys {
    Keys(w.hostKey, peer, w.channelIdOf(peer))
  }

  function BlockDay(h: Host): U32 { h.height / 144 }

  function Put(h: Host, peer: Key, c: Channel): Host {
    h.(channels := h.channels[peer := c])
  }

  ghost predicate Hosts(h: Host, w: World, scid: nat) {
    exists p :: p in h.channels && w.scidOf(p) == scid
  }

  /** The first hosted peer behind a short channel id. */
  ghost function PeerFor(h: Host, w: World, scid: nat): (r: Option<Key>)
    ensures r.Some? <==> Hosts(h, w, scid)
    ensures r.Some? ==> r.value in h.channels && w.scidOf(r.value) == scid
    ensures r.Some? ==> forall q :: q in h.channels && w.scidOf(q) == scid ==> r.value <= q
  {
    if Hosts(h, w, scid) then
      var behind := set p | p in h.channels && w.scidOf(p) == scid;
      var some :| some in h.channels && w.scidOf(some) == scid;
      LeastExists(behind, some);
      var p :| p in behind && forall q :: q in behind ==> p <= q;
      assert forall q :: q in h.channels && w.scidOf(q) == scid ==> q in behind;
      Some(p)
    else None
  }

  lemma {:induction false} LeastExists(s: set<nat>, p: nat)
    requires p in s
    ensures exists q :: q in s && forall r :: r in s ==> q <= r
  {
    if q :| q in s && q < p {
      LeastExists(s, q);
    }
  }

  function DropLink(h: Host, at: Place): Host {
    h.(links := h.links - {at})
  }

  function DeltaOf(h: Host, c: Channel): U16 {
    RoutingFor(c.data, h.policy).cltvDelta
  }

  function SideOf(h: Host, peer: Key): Side
    requires peer in h.channels
  {
    Side(peer, DeltaOf(h, h.channels[peer]))
  }

  // ---- Resolutions -------------------------------------------------------------------------

  /** The resolution is stored first and sent then, so a failed message leaves it stored. */
  function SendLocal(h: Host, w: World, peer: Key, r: PendingUpdate): Outcome
    requires !r.Add?
  {
    if peer !in h.channels then Outcome(h, Err(NotFound))
    else
      var reply := OnLocalResolve(h.channels[peer], KeysOf(w, peer), r, BlockDay(h));
      var undelivered := reply.result.Ok? && HasId(h.channels[peer].data.lcss.incoming, r.id) && peer !in h.reachable;
      Outcome(Put(h, peer, reply.channel), if undelivered then Err(NotSent) else reply.result)
  }

  function SettleUpstream(h: Host, at: Place, answer: Answer, side: Side): Host
    requires at in h.links
  {
    var link := h.links[at];
    DropLink(h.(calls := h.calls + [Call(link.offer, link.incoming, answer, Some(Via(link, side, h.height)))]), at)
  }

  function AnswerOf(r: PendingUpdate): Answer
    requires r.Fulfill? || r.Fail?
  {
    if r.Fulfill? then Settle(r.preimage) else FailOnion(r.reason)
  }

  /** `side` is the channel whose HTLC was resolved; only the log reads it. */
  ghost function ResolveForward(h: Host, w: World, at: Place, r: PendingUpdate, side: Side): Outcome
    requires r.Fulfill? || r.Fail?
  {
    if at !in h.links then Outcome(h, Ok(()))
    else
      match PeerFor(h, w, h.links[at].incoming.0)
      case Some(source) =>
        var sent := SendLocal(h, w, source, Addressed(r, w.channelIdOf(source), h.links[at].incoming.1));
        if sent.result.Err? then sent else Outcome(DropLink(sent.host, at), Ok(()))
      case None =>
        Outcome(SettleUpstream(h, at, AnswerOf(r), side), Ok(()))
  }

  /** The same resolution for the HTLC on the incoming side of a link. */
  function Addressed(r: PendingUpdate, channelId: Bytes32, id: U64): PendingUpdate
    requires r.Fulfill? || r.Fail?
  {
    if r.Fulfill? then Fulfill(channelId, id, r.preimage) else Fail(channelId, id, r.reason)
  }

  ghost function ResolveFulfill(h: Host, w: World, at: Place, preimage: Bytes32, side: Side): Outcome
  {
    ResolveForward(h, w, at, Fulfill(w.channelIdOf(0), 0, preimage), side)
  }

  function WrapFailure(w: World, link: ForwardLink, failure: Bytes): Bytes {
    if link.sharedSecret.Some? then w.wrap(link.sharedSecret.value, failure) else failure
  }

  ghost function ResolveFail(h: Host, w: World, at: Place, failure: Bytes, side: Side): Outcome
  {
    var reason := if at in h.links then WrapFailure(w, h.links[at], failure) else failure;
    ResolveForward(h, w, at, Fail(w.channelIdOf(0), 0, reason), side)
  }

  // ---- Fulfills of the peer ----------------------------------------------------------------

  /** Whether settling this HTLC leaves the host time to claim the upstream one. */
  ghost function SettlementIsSafe(h: Host, w: World, peer: Key, out: Htlc): Result<bool, ChannelError>
    requires peer in h.channels
  {
    var at := (w.scidOf(peer), out.id);
    if at !in h.links then Ok(true)
    else if PeerFor(h, w, h.links[at].incoming.0).Some? then Ok(true)
    else if h.links[at].upstreamExpiry.None? then Ok(false)
    else
      var needed := out.cltvExpiry + DeltaOf(h, h.channels[peer]);
      if needed >= 0x1_0000_0000 then Err(InvalidMessage)
      else Ok(h.height < out.cltvExpiry && needed <= h.links[at].upstreamExpiry.value)
  }

  /** The fulfill names a committed HTLC of the host, for the first time and with the right preimage. */
  predicate Accepts(d: ChannelData, r: PendingUpdate)
    requires r.Fulfill?
  {
    && Listens(d) && DeliveryFailed !in d.localErrors && HtlcExpired !in d.localErrors
    && !HasKey(d.uncommitted, (false, r.id)) && HasId(d.lcss.outgoing, r.id)
    && Position(d.lcss.outgoing, r.id) < |d.lcss.outgoing|
    && d.lcss.outgoing[Position(d.lcss.outgoing, r.id)].paymentHash == SHA256(r.preimage)
  }

  ghost function OnFulfill(h: Host, w: World, peer: Key, r: PendingUpdate): Outcome
    requires r.Fulfill?
  {
    if peer !in h.channels then Outcome(h, Err(NotFound))
    else
      var c := h.channels[peer];
      if !Accepts(c.data, r) then Outcome(h, Ok(()))
      else
        match SettlementIsSafe(h, w, peer, c.data.lcss.outgoing[Position(c.data.lcss.outgoing, r.id)])
        case Err(e) => Outcome(h, Err(e))
        case Ok(safe) =>
          var h' := Put(h, peer, OnUpdateFulfill(c, r, safe).channel);
          if !safe then Outcome(h', Ok(()))
          else
            ResolveFulfill(h'.(preimages := h.preimages[SHA256(r.preimage) := r.preimage]), w,
                           (w.scidOf(peer), r.id), r.preimage, SideOf(h, peer))
  }

  /** Settles the committed HTLCs whose preimage the host already knows; stops at the first unsafe one. */
  ghost function RecoverOutgoing(h: Host, w: World, peer: Key, stored: ChannelData, hs: seq<Htlc>): Outcome
    decreases |hs|
  {
    if hs == [] then Outcome(h, Ok(()))
    else if peer !in h.channels then Outcome(h, Err(NotFound))
    else if HasKey(stored.uncommitted, (false, hs[0].id)) then RecoverOutgoing(h, w, peer, stored, hs[1..])
    else
      match SettlementIsSafe(h, w, peer, hs[0])
      case Err(e) => Outcome(h, Err(e))
      case Ok(safe) =>
        if !safe then
          var c := MarkErrored(h.channels[peer].(data := stored), HtlcOutlived);
          Outcome(Put(h, peer, c), Ok(()))
        else if hs[0].paymentHash !in h.preimages then RecoverOutgoing(h, w, peer, stored, hs[1..])
        else
          var sent := ResolveFulfill(h, w, (w.scidOf(peer), hs[0].id), h.preimages[hs[0].paymentHash], SideOf(h, peer));
          if sent.result.Err? then sent else RecoverOutgoing(sent.host, w, peer, stored, hs[1..])
  }

  // ---- HTLCs offered to a hosted channel ---------------------------------------------------

  const COMMIT_TIMEOUT: nat := 30

  datatype Offer = Offer(htlc: Htlc, from: Place, sharedSecret: Option<Bytes32>, upstreamExpiry: Option<U32>)

  /** What becomes of an offer: an error, an answer to the sender at once, or a new HTLC. */
  datatype Verdict = Refused(e: ChannelError) | Answered(answer: Answer) | Accepted

  const TEMPORARY: U16 := 0x1007
  const INCORRECT_EXPIRY: U16 := 0x100d
  const BELOW_MINIMUM: U16 := 0x400e

  function Saturated(n: nat): nat { if n < U64_BOUND then n else U64_BOUND - 1 }

  ghost function Judge(h: Host, w: World, peer: Key, o: Offer, disconnected: bool): Verdict
    requires peer in h.channels
  {
    var d := h.channels[peer].data;
    var init, routing := d.lcss.init, RoutingFor(d, h.policy);
    var needed := o.htlc.cltvExpiry + routing.cltvDelta;
    if DeriveStatus(d) != Active then Refused(ChannelErrored)
    else if disconnected then Answered(FailCode(TEMPORARY))
    else if o.htlc.paymentHash in h.preimages then Answered(Settle(h.preimages[o.htlc.paymentHash]))
    else if o.upstreamExpiry.Some? && !Hosts(h, w, o.from.0) && needed >= 0x1_0000_0000 then Refused(InvalidMessage)
    else if o.upstreamExpiry.Some? && !Hosts(h, w, o.from.0) && o.upstreamExpiry.value < needed then Answered(FailCode(INCORRECT_EXPIRY))
    else if o.htlc.amount < init.htlcMinimum then Answered(FailCode(BELOW_MINIMUM))
    else if o.htlc.amount > routing.htlcMaximum then Answered(FailCode(TEMPORARY))
    else
      match Fold(d.lcss, d.uncommitted)
      case Err(e) => Refused(StateFailed(e))
      case Ok(next) =>
        if o.htlc.amount > next.localBalance then Answered(FailCode(TEMPORARY))
        else if |next.incoming| + |next.outgoing| + 1 > init.maxAccepted then Answered(FailCode(TEMPORARY))
        else if Saturated(Sum(next.incoming) + Sum(next.outgoing) + o.htlc.amount) > init.maxInFlight then Answered(FailCode(TEMPORARY))
        else if !CountersFit(d) then Refused(CountersExhausted)
        else Accepted
  }

  lemma {:induction false} AcceptedFits(h: Host, w: World, peer: Key, o: Offer, disconnected: bool)
    requires peer in h.channels && Judge(h, w, peer, o, disconnected) == Accepted
    ensures CountersFit(h.channels[peer].data)
  {
    hide Fold, DeriveStatus, Sum, LocalOf;
  }

  function Stamp(d: ChannelData, channelId: Bytes32, htlc: Htlc): Htlc
    requires CountersFit(d)
  {
    htlc.(channelId := channelId, id := NextHtlcId(d))
  }

  /** A link under a key already in use stays as it is: the store refuses to create it again. */
  function AddLink(h: Host, at: Place, link: ForwardLink): Host {
    if at in h.links then h else h.(links := h.links[at := link])
  }

  function LogOffer(h: Host, from: Place): Host {
    h.(offers := h.offers + [from])
  }

  /** The latest offer is answered without a link. */
  function AnswerLatest(h: Host, from: Place, answer: Answer): Host
    requires |h.offers| > 0
  {
    h.(calls := h.calls + [Call(|h.offers| - 1, from, answer, None)])
  }

  /**
   * What the surroundings contribute to one handled HTLC: the clock, which messages went through, and
   * what the node knows of the payment with a given hash.
   */
  datatype Env = Env(now: nat, disconnected: bool, addSent: bool, stateSent: bool, onionSent: bool,
                     payment: Bytes32 -> PaymentStatus)

  datatype PaymentStatus = Succeeded(preimage: Bytes32) | Failed(failure: Bytes) | Pending | Unknown

  ghost function OnOffer(h: Host, w: World, peer: Key, o: Offer, env: Env): Outcome
  {
    if peer !in h.channels then Outcome(LogOffer(h, o.from), Err(NotFound))
    else
      match Judge(h, w, peer, o, env.disconnected)
      case Refused(e) => Outcome(LogOffer(h, o.from), Err(e))
      case Answered(answer) => Outcome(AnswerLatest(LogOffer(h, o.from), o.from, answer), Ok(()))
      case Accepted =>
        var c := h.channels[peer];
        var htlc := Stamp(c.data, w.channelIdOf(peer), o.htlc);
        var at := (w.scidOf(peer), htlc.id);
        var reply := OnHostAdd(c, KeysOf(w, peer), htlc, BlockDay(h), env.addSent, env.stateSent);
        Outcome(Put(AddLink(LogOffer(h, o.from), at, LinkFor(o, at, htlc.paymentHash, env.now, |h.offers|, peer)), peer, reply.channel), reply.result)
  }

  function LinkFor(o: Offer, at: Place, paymentHash: Bytes32, now: nat, offer: nat, target: Key): ForwardLink {
    ForwardLink(o.from, at, o.upstreamExpiry, Some(now + COMMIT_TIMEOUT), paymentHash, o.sharedSecret, offer, Some(target))
  }

  // ---- HTLCs that a peer committed ---------------------------------------------------------

  const MILLION: nat := 1_000_000

  /** The fee asked for a forward: the amount is divided first, so only whole millions pay the rate. */
  function DemandedFee(r: Routing, amount: U64): U64 {
    Saturated(Saturated(amount / MILLION * r.feePpm) + r.feeBase)
  }

  function Saturated32(n: nat): U32 { if n < 0x1_0000_0000 then n else 0xffff_ffff }

  /** The relay asks for no more than the HTLC brings, in money and in time. */
  predicate PaysEnough(r: Routing, height: U32, htlc: Htlc, relay: Relay) {
    && Saturated32(height + 2) <= relay.cltv
    && Saturated(relay.amount + DemandedFee(r, relay.amount)) <= htlc.amount
    && Saturated32(relay.cltv + r.cltvDelta) <= htlc.cltvExpiry
  }

  predicate WithinLimits(d: ChannelData, htlc: Htlc) {
    var l := d.lcss;
    && l.init.htlcMinimum <= htlc.amount
    && |l.incoming| + |l.outgoing| <= l.init.maxAccepted
    && Sum(l.incoming) + Sum(l.outgoing) <= l.init.maxInFlight
  }

  const TEMPORARY_FAILURE: Bytes := [0x10, 0x07]
  const PERMANENT_FAILURE: Bytes := [0x40, 0x08]

  function FailureFor(w: World, htlc: Htlc): Bytes {
    match w.peel(htlc.onion, htlc.paymentHash)
    case Some(relay) => w.wrap(relay.sharedSecret, TEMPORARY_FAILURE)
    case None => TEMPORARY_FAILURE
  }

  function FailBack(h: Host, w: World, peer: Key, htlc: Htlc): Outcome {
    SendLocal(h, w, peer, Fail(w.channelIdOf(peer), htlc.id, FailureFor(w, htlc)))
  }

  ghost predicate Linked(h: Host, from: Place) {
    exists at :: at in h.links && h.links[at].incoming == from
  }

  /** The first link in the store that serves the HTLC at the given place. */
  ghost function LinkOf(h: Host, w: World, from: Place): (at: Place)
    requires Linked(h, from)
    ensures at in h.links && h.links[at].incoming == from
    ensures forall b :: b in h.links && h.links[b].incoming == from ==> w.rank(at) <= w.rank(b)
  {
    var ranks := set at | at in h.links && h.links[at].incoming == from :: w.rank(at);
    var some :| some in h.links && h.links[some].incoming == from;
    LeastExists(ranks, w.rank(some));
    var at :| at in h.links && h.links[at].incoming == from && forall r :: r in ranks ==> w.rank(at) <= r;
    assert forall b :: b in h.links && h.links[b].incoming == from ==> w.rank(b) in ranks;
    at
  }

  ghost function DropLinkFor(h: Host, w: World, from: Place): Host {
    if Linked(h, from) then DropLink(h, h.links[LinkOf(h, w, from)].outgoing) else h
  }

  function Forwarded(w: World, target: Key, htlc: Htlc, relay: Relay): Htlc {
    Htlc(w.channelIdOf(target), 0, relay.amount, htlc.paymentHash, relay.cltv, relay.onion, [])
  }

  /** The expiry of the outgoing HTLC is passed on as the upstream one. */
  function OfferOf(w: World, peer: Key, target: Key, htlc: Htlc, relay: Relay): Offer {
    Offer(Forwarded(w, target, htlc, relay), (w.scidOf(peer), htlc.id), Some(relay.sharedSecret), Some(relay.cltv))
  }

  ghost function ToHosted(h: Host, w: World, peer: Key, target: Key, htlc: Htlc, relay: Relay, env: Env): Outcome
  {
    var from := (w.scidOf(peer), htlc.id);
    var offered := OnOffer(h, w, target, OfferOf(w, peer, target, htlc, relay), env);
    if offered.result.Ok? then offered
    else
      var failed := FailBack(offered.host, w, peer, htlc);
      if failed.result.Err? then failed else Outcome(DropLinkFor(failed.host, w, from), Ok(()))
  }

  /** A link to a normal channel is keyed by the incoming id. */
  function ToNormal(h: Host, w: World, peer: Key, htlc: Htlc, relay: Relay, env: Env): Outcome
  {
    var from, at := (w.scidOf(peer), htlc.id), (relay.scid, htlc.id);
    var link := ForwardLink(from, at, None, None, htlc.paymentHash, Some(relay.sharedSecret), |h.offers|, None);
    var linked := AddLink(LogOffer(h, from), at, link);
    if env.onionSent then Outcome(linked, Ok(()))
    else
      var failed := FailBack(linked, w, peer, htlc);
      if failed.result.Err? then failed else Outcome(DropLink(failed.host, at), Ok(()))
  }

  /** `d` is the channel as committed; later changes to it are not looked at. */
  ghost function DispatchIncoming(h: Host, w: World, peer: Key, d: ChannelData, htlc: Htlc, env: Env): Outcome
  {
    if !WithinLimits(d, htlc) then FailBack(h, w, peer, htlc)
    else
      match w.peel(htlc.onion, htlc.paymentHash)
      case None => SendLocal(h, w, peer, FailMalformed(w.channelIdOf(peer), htlc.id, w.hashOnion(htlc.onion), 0xc005))
      case Some(relay) =>
        if htlc.amount < relay.amount then FailBack(h, w, peer, htlc)
        else
          match PeerFor(h, w, relay.scid)
          case None => ToNormal(h, w, peer, htlc, relay, env)
          case Some(target) =>
            if target == peer then Outcome(h, Err(InvalidMessage))
            else if !PaysEnough(RoutingFor(h.channels[target].data, h.policy), h.height, htlc, relay) then FailBack(h, w, peer, htlc)
            else ToHosted(h, w, peer, target, htlc, relay, env)
  }

  /** The HTLCs of the new state that the old one did not have. */
  ghost function DispatchAll(h: Host, w: World, peer: Key, before: ChannelData, d: ChannelData, hs: seq<Htlc>, env: U64 -> Env): Outcome
  {
    if hs == [] then Outcome(h, Ok(()))
    else
      var htlc := hs[|hs| - 1];
      var done := DispatchAll(h, w, peer, before, d, hs[..|hs| - 1], env);
      if done.result.Err? || HasId(before.lcss.incoming, htlc.id) then done
      else DispatchIncoming(done.host, w, peer, d, htlc, env(htlc.id))
  }

  /** The failure that a committed update of the peer sends back, if any. */
  function FailureOf(u: Update): Option<Bytes> {
    if u.Local? then None
    else if u.u.Fail? then Some(u.u.reason)
    else if u.u.FailMalformed? then Some([u.u.code / 256, u.u.code % 256] + u.u.shaOfOnion)
    else None
  }

  ghost function RelayFailures(h: Host, w: World, scid: nat, us: seq<Update>, side: Side): Outcome
  {
    if us == [] then Outcome(h, Ok(()))
    else
      var u := us[|us| - 1];
      var done := RelayFailures(h, w, scid, us[..|us| - 1], side);
      if done.result.Err? || FailureOf(u).None? then done
      else ResolveFail(done.host, w, (scid, u.u.id), FailureOf(u).value, side)
  }

  /** Whether a state update made an active channel commit its queue. */
  predicate CommitsQueue(c: Channel, c': Channel) {
    DeriveStatus(c.data) == Active && Deduplicate(c.data.uncommitted) != [] && c'.data.uncommitted == []
  }

  ghost function OnStateMessage(h: Host, w: World, peer: Key, msg: StateUpdate, env: U64 -> Env): Outcome
  {
    if peer !in h.channels then Outcome(h, Err(NotFound))
    else
      var c := h.channels[peer];
      var reply := OnStateUpdate(c, KeysOf(w, peer), msg, BlockDay(h));
      var h' := Put(h, peer, reply.channel);
      if reply.result.Err? || !CommitsQueue(c, reply.channel) then Outcome(h', reply.result)
      else if peer !in h.reachable then Outcome(h', Err(NotSent))
      else
        var dispatched := DispatchAll(h', w, peer, c.data, reply.channel.data, reply.channel.data.lcss.incoming, env);
        if dispatched.result.Err? then dispatched
        else RelayFailures(dispatched.host, w, w.scidOf(peer), Deduplicate(c.data.uncommitted), SideOf(h', peer))
  }

  /** The node reports how an onion sent over a normal channel fared. */
  ghost function OnPaymentResult(h: Host, w: World, at: Place, status: PaymentStatus): Outcome
  {
    if at !in h.links || PeerFor(h, w, h.links[at].incoming.0).None? then Outcome(h, Ok(()))
    else
      var link := h.links[at];
      var source := PeerFor(h, w, link.incoming.0).value;
      match status
      case Succeeded(preimage) =>
        Dropped(SendLocal(h.(preimages := h.preimages[link.paymentHash := preimage]), w, source,
                          Fulfill(w.channelIdOf(source), link.incoming.1, preimage)), at)
      case Failed(failure) =>
        Dropped(SendLocal(h, w, source, Fail(w.channelIdOf(source), link.incoming.1, WrapFailure(w, link, failure))), at)
      case _ => Outcome(h, Ok(()))
  }

  function Dropped(sent: Outcome, at: Place): Outcome {
    if sent.result.Err? then sent else Outcome(DropLink(sent.host, at), Ok(()))
  }

  /** The preimages a peer replies with, each stored under its own hash. */
  function LearnPreimages(h: Host, preimages: seq<Bytes32>): Host
  {
    if preimages == [] then h
    else
      var p := preimages[|preimages| - 1];
      var learned := LearnPreimages(h, preimages[..|preimages| - 1]);
      learned.(preimages := learned.preimages[SHA256(p) := p])
  }

  // ---- Recovery of committed HTLCs ---------------------------------------------------------

  ghost function RecoverOneIncoming(h: Host, w: World, peer: Key, d: ChannelData, htlc: Htlc, env: Env): Outcome
  {
    var from := (w.scidOf(peer), htlc.id);
    if HasKey(d.uncommitted, (true, htlc.id)) then Outcome(h, Ok(()))
    else if !Linked(h, from) then DispatchIncoming(h, w, peer, d, htlc, env)
    else
      var link := h.links[LinkOf(h, w, from)];
      var status := env.payment(link.paymentHash);
      if PeerFor(h, w, link.outgoing.0).Some? then Outcome(h, Ok(()))
      else if status.Unknown? then DispatchIncoming(h, w, peer, d, htlc, env)
      else OnPaymentResult(h, w, link.outgoing, status)
  }

  ghost function RecoverIncoming(h: Host, w: World, peer: Key, d: ChannelData, hs: seq<Htlc>, env: U64 -> Env): Outcome
  {
    if hs == [] then Outcome(h, Ok(()))
    else
      var done := RecoverIncoming(h, w, peer, d, hs[..|hs| - 1], env);
      if done.result.Err? then done
      else RecoverOneIncoming(done.host, w, peer, d, hs[|hs| - 1], env(hs[|hs| - 1].id))
  }

  ghost function RecoverChannel(h: Host, w: World, peer: Key, queryOutgoing: bool, env: U64 -> Env): Outcome
  {
    if peer !in h.channels || DeriveStatus(h.channels[peer].data) != Active then Outcome(h, Ok(()))
    else
      var c := h.channels[peer];
      var done := RecoverIncoming(h, w, peer, c.data, c.data.lcss.incoming, env);
      if done.result.Err? || !queryOutgoing then done
      else RecoverOutgoing(done.host, w, peer, c.data, c.data.lcss.outgoing)
  }

  /** An invoke opens a channel or, when there is one, starts the reconciliation. */
  ghost function OnInvoke(h: Host, w: World, peer: Key, granted: Option<Policy>, refund: Bytes, env: U64 -> Env): Outcome
    requires granted.Some? ==> granted.value.initialClientBalance <= granted.value.capacity
  {
    if peer !in h.channels || DeriveStatus(h.channels[peer].data) in {NotOpened, Suspended} then
      Outcome(if granted.Some? then Put(h, peer, NewChannel(granted.value, refund)) else h, Ok(()))
    else if DeriveStatus(h.channels[peer].data) in {Errored, Overriding} then Outcome(h, Ok(()))
    else if peer !in h.reachable then Outcome(Put(h, peer, Repaired(h.channels[peer])), Err(NotSent))
    else
      var reply := OnReconnect(h.channels[peer], KeysOf(w, peer), BlockDay(h));
      var h' := Put(h, peer, reply.channel);
      if reply.result.Err? then Outcome(h', reply.result)
      else Outcome(RecoverChannel(h', w, peer, true, env).host, Ok(()))
  }

  // ---- The watchdog ------------------------------------------------------------------------

  /** A pending HTLC of the host whose peer had to commit it by now. */
  predicate Overdue(links: map<Place, ForwardLink>, scid: nat, u: Update, now: nat) {
    && u.Local? && u.u.Add? && (scid, u.u.htlc.id) in links
    && links[(scid, u.u.htlc.id)].commitDeadline.Some? && links[(scid, u.u.htlc.id)].commitDeadline.value <= now
  }

  /** A committed HTLC of the host that expired; its link records an upstream expiry. */
  predicate Expired(links: map<Place, ForwardLink>, scid: nat, htlc: Htlc, height: U32) {
    && (scid, htlc.id) in links && links[(scid, htlc.id)].upstreamExpiry.Some?
    && htlc.cltvExpiry <= height
  }

  function FirstOverdue(links: map<Place, ForwardLink>, scid: nat, q: seq<Update>, now: nat): (i: nat)
    ensures i <= |q| && (i < |q| ==> Overdue(links, scid, q[i], now))
    ensures forall j :: 0 <= j < i ==> !Overdue(links, scid, q[j], now)
  {
    if q == [] || Overdue(links, scid, q[0], now) then 0 else 1 + FirstOverdue(links, scid, q[1..], now)
  }

  function FirstExpired(links: map<Place, ForwardLink>, scid: nat, hs: seq<Htlc>, height: U32): (i: nat)
    ensures i <= |hs| && (i < |hs| ==> Expired(links, scid, hs[i], height))
    ensures forall j :: 0 <= j < i ==> !Expired(links, scid, hs[j], height)
  {
    if hs == [] || Expired(links, scid, hs[0], height) then 0 else 1 + FirstExpired(links, scid, hs[1..], height)
  }

  /** One channel of the pass: at most one HTLC is failed, and its channel stops being active. */
  ghost function EnforceOne(h: Host, w: World, peer: Key, now: nat): Outcome
  {
    if peer !in h.channels || DeriveStatus(h.channels[peer].data) != Active then Outcome(h, Ok(()))
    else
      var c, scid := h.channels[peer], w.scidOf(peer);
      var i := FirstOverdue(h.links, scid, c.data.uncommitted, now);
      var j := FirstExpired(h.links, scid, c.data.lcss.outgoing, h.height);
      if i < |c.data.uncommitted| then
        ResolveFail(Put(h, peer, MarkErrored(c, DeliveryFailed)), w, (scid, c.data.uncommitted[i].u.htlc.id),
                    TEMPORARY_FAILURE, SideOf(h, peer))
      else if j < |c.data.lcss.outgoing| then
        ResolveFail(Put(h, peer, MarkErrored(c, HtlcExpired)), w, (scid, c.data.lcss.outgoing[j].id),
                    PERMANENT_FAILURE, SideOf(h, peer))
      else Outcome(h, Ok(()))
  }

  ghost function Enforce(h: Host, w: World, peers: seq<Key>, now: nat): Outcome
  {
    if peers == [] then Outcome(h, Ok(()))
    else
      var done := Enforce(h, w, peers[..|peers| - 1], now);
      if done.result.Err? then done
      else EnforceOne(done.host, w, peers[|peers| - 1], now)
  }
}

/**
 * One hosted channel as the host stores it, and what each handler of src/channel.rs does to it.
 * Signatures are ideal: a signature is the pair of its signer and the fields it covers.
 */
module Channel {
  import opened Base
  import opened State
  import opened StateLaws
  import opened HtlcIds

  type Key = nat

  /** The fields that the signature hash of a state covers. */
  datatype Covered = Covered(
    refund: Bytes, capacity: U64, initialClientBalance: U64, blockDay: U32,
    localBalance: U64, remoteBalance: U64, localUpdates: nat, remoteUpdates: nat,
    incoming: seq<Htlc>, outgoing: seq<Htlc>, isHost: bool)

  datatype Sig = NoSig | Signed(signer: Key, content: Covered)

  type Cross = Lcss<Sig>

  function CoveredOf(l: Cross): Covered {
    Covered(l.refund, l.init.capacity, l.init.initialClientBalance, l.blockDay, l.localBalance, l.remoteBalance,
            l.localUpdates, l.remoteUpdates, l.incoming, l.outgoing, l.isHost)
  }

  /** Whether the material of the signature hash can be written at all. */
  predicate Encodes(l: Cross) {
    && l.init.capacity <= OVERFLOW_MAX && l.init.initialClientBalance <= OVERFLOW_MAX
    && l.localBalance <= OVERFLOW_MAX && l.remoteBalance <= OVERFLOW_MAX
    && HtlcsEncode(l.incoming) && HtlcsEncode(l.outgoing)
  }

  /** Signs the peer's view of the state. */
  function SignWith(l: Cross, key: Key): Option<Cross> {
    if Encodes(Reverse(l)) then Some(l.(localSigOfRemote := Signed(key, CoveredOf(Reverse(l))))) else None
  }

  predicate VerifyRemoteSig(l: Cross, key: Key) {
    Encodes(l) && l.remoteSigOfLocal == Signed(key, CoveredOf(l))
  }

  datatype Routing = Routing(feeBase: U32, feePpm: U32, cltvDelta: U16, htlcMaximum: U64)

  datatype Policy = Policy(
    capacity: U64, initialClientBalance: U64, maxInFlight: U64, htlcMinimum: U64, maxAccepted: U16,
    feeBase: U32, feePpm: U32, cltvDelta: U16)

  function RoutingOf(p: Policy): Routing {
    Routing(p.feeBase, p.feePpm, p.cltvDelta, p.capacity)
  }

  datatype ChannelData = ChannelData(
    lcss: Cross, uncommitted: seq<Update>, localErrors: seq<Fault>, remoteErrors: seq<string>,
    suspended: bool, proposedOverride: Option<Cross>, refund: Bytes, established: bool,
    acceptingResizeSat: Option<U64>, routing: Option<Routing>, channelUpdatePending: bool)

  datatype Status = NotOpened | Opening | Active | Errored | Overriding | Suspended

  function DeriveStatus(d: ChannelData): Status {
    if d.suspended then Suspended
    else if d.proposedOverride.Some? then Overriding
    else if d.localErrors != [] || d.remoteErrors != [] then Errored
    else if !d.established then
      if d.lcss.localUpdates == 0 && d.lcss.remoteUpdates == 0 && d.refund == [] then NotOpened else Opening
    else Active
  }

  /** The error texts the host records on its own side, one constructor per text. */
  datatype Fault =
    | DeliveryFailed | HtlcExpired | HtlcOutlived | FulfillTooLate | AddAboveBalance | EmptyReason
    | HostOverride | ParameterOverride | OwnSignatureWrong | PeerSignatureWrong

  datatype ChannelError = NotFound | StateFailed(e: StateError) | EncodeFailed | ChannelErrored | InvalidMessage | NotSent | CountersExhausted

  /** An id the host gave to an HTLC, and the payment hash of that HTLC. */
  datatype Grant = Grant(id: U64, hash: Bytes32)

  /**
   * A channel with three logs that no handler reads: every state the host has signed for it, in the
   * host's view; every id the host gave to an HTLC; and the ids it gave that a new state left above
   * its counter, where they may be given again.
   */
  datatype Channel = Channel(data: ChannelData, signed: set<Covered>, given: seq<Grant>, withdrawn: set<U64>)

  datatype Reply = Reply(channel: Channel, result: Result<(), ChannelError>)

  /** The two public keys of a channel and the channel id derived from them. */
  datatype Keys = Keys(host: Key, peer: Key, channelId: Bytes32)

  datatype StateUpdate = StateUpdate(blockDay: U32, localUpdates: nat, remoteUpdates: nat, sig: Sig)

  function Keep(c: Channel): Reply { Reply(c, Ok(())) }

  function Save(c: Channel, d: ChannelData): Reply { Reply(c.(data := d), Ok(())) }

  function Refuse(c: Channel, e: ChannelError): Reply { Reply(c, Err(e)) }

  function MarkErrored(c: Channel, error: Fault): Channel {
    c.(data := c.data.(localErrors := c.data.localErrors + [error]))
  }

  function MarkRemoteErrored(c: Channel, error: string): Channel {
    c.(data := c.data.(remoteErrors := c.data.remoteErrors + [error]))
  }

  function Log(c: Channel, l: Cross): Channel {
    c.(signed := c.signed + {CoveredOf(l)})
  }

  function Give(c: Channel, h: Htlc): Channel {
    c.(given := c.given + [Grant(h.id, h.paymentHash)])
  }

  /** The ids of pending HTLCs of the host that a new state with this counter drops and leaves above it. */
  function DroppedIds(d: ChannelData, counter: nat): set<U64> {
    set h <- AddsOf(LocalOf(d.uncommitted)) | counter < h.id :: h.id
  }

  /** The ids that the old counter covered and a lower new one does not. */
  function UncountedIds(c: Channel, counter: nat): set<U64> {
    set g <- c.given | counter < g.id <= c.data.lcss.localUpdates :: g.id
  }

  /** Logs what is lost when a state replaces the stored one and the queue with it. */
  function Withdraw(c: Channel, l: Cross): Channel {
    c.(withdrawn := c.withdrawn + DroppedIds(c.data, l.localUpdates) + UncountedIds(c, l.localUpdates))
  }

  // ---- Resolutions and their keys ----------------------------------------------------------

  /** The side and the id of a resolution; an add has no key. */
  function ResolutionKey(u: Update): Option<(bool, U64)> {
    if u.u.Add? then None else Some((u.Local?, u.u.id))
  }

  predicate HasKey(q: seq<Update>, key: (bool, U64)) {
    exists i :: 0 <= i < |q| && ResolutionKey(q[i]) == Some(key)
  }

  /** Keeps the first resolution of each key. */
  function Deduplicate(q: seq<Update>): seq<Update> {
    if q == [] then []
    else
      var p, u := q[..|q| - 1], q[|q| - 1];
      if ResolutionKey(u).Some? && HasKey(p, ResolutionKey(u).value) then Deduplicate(p)
      else Deduplicate(p) + [u]
  }

  method DeduplicateUncommitted(updates: seq<Update>) returns (kept: seq<Update>)
    ensures kept == Deduplicate(updates)
  {
    var seen: set<(bool, U64)> := {};
    kept := [];
    for i := 0 to |updates|
      invariant forall key :: key in seen <==> HasKey(updates[..i], key)
      invariant kept == Deduplicate(updates[..i])
    {
      var key := ResolutionKey(updates[i]);
      ghost var p, q := updates[..i], updates[..i + 1];
      assert q[..|q| - 1] == p && q[|q| - 1] == updates[i];
      assert forall k :: HasKey(q, k) <==> HasKey(p, k) || key == Some(k) by {
        assert forall j :: 0 <= j < i ==> q[j] == p[j];
        assert forall k :: HasKey(p, k) ==> HasKey(q, k) by {
          forall k | HasKey(p, k) ensures HasKey(q, k) {
            var j :| 0 <= j < |p| && ResolutionKey(p[j]) == Some(k);
            assert ResolutionKey(q[j]) == Some(k);
          }
        }
        assert ResolutionKey(q[i]) == key;
      }
      if key.None? || key.value !in seen {
        kept := kept + [updates[i]];
      }
      if key.Some? {
        seen := seen + {key.value};
      }
    }
    assert updates[..|updates|] == updates;
  }

  // ---- Establishment -----------------------------------------------------------------------

  function InitOf(p: Policy): Init {
    Init(p.maxInFlight, p.htlcMinimum, p.maxAccepted, p.capacity, p.initialClientBalance, [])
  }

  /** The source subtracts without a check: a policy must not give the client more than the capacity. */
  function NewChannel(p: Policy, refund: Bytes): Channel
    requires p.initialClientBalance <= p.capacity
  {
    var lcss := Lcss(true, refund, InitOf(p), 0, p.capacity - p.initialClientBalance, p.initialClientBalance,
                     0, 0, [], [], NoSig, NoSig);
    Channel(ChannelData(lcss, [], [], [], false, None, refund, false, None, Some(RoutingOf(p)), false), {}, [], {})
  }

  function AbsDiff(a: nat, b: nat): nat { if a < b then b - a else a - b }

  function OnOpening(c: Channel, k: Keys, msg: StateUpdate, day: U32): Reply {
    if AbsDiff(msg.blockDay, day) > 1 then Keep(c)
    else
      var lcss := c.data.lcss.(blockDay := msg.blockDay, localUpdates := 0, remoteUpdates := 0,
                               incoming := [], outgoing := [], remoteSigOfLocal := msg.sig);
      if !VerifyRemoteSig(lcss, k.peer) then Keep(c)
      else
        match SignWith(lcss, k.host)
        case None => Refuse(c, EncodeFailed)
        case Some(l) => Save(Log(c, l), c.data.(lcss := l, established := true))
  }

  // ---- Commit ------------------------------------------------------------------------------

  function Repaired(c: Channel): Channel {
    c.(data := c.data.(uncommitted := Deduplicate(c.data.uncommitted)))
  }

  function OnActive(stored: Channel, k: Keys, msg: StateUpdate, day: U32): Reply {
    OnRepaired(Repaired(stored), k, msg, day)
  }

  function OnRepaired(c: Channel, k: Keys, msg: StateUpdate, day: U32): Reply {
    var d := c.data;
    if d.uncommitted == [] then Keep(c)
    else if msg.localUpdates != d.lcss.remoteUpdates + |RemoteOf(d.uncommitted)| then Keep(c)
    else if msg.remoteUpdates != d.lcss.localUpdates + |LocalOf(d.uncommitted)| then Keep(c)
    else if msg.blockDay != day then Keep(c)
    else
      match Fold(d.lcss, d.uncommitted)
      case Err(e) => Refuse(c, StateFailed(e))
      case Ok(next) =>
        var lcss := next.(blockDay := msg.blockDay, remoteSigOfLocal := msg.sig);
        if !VerifyRemoteSig(lcss, k.peer) then Keep(c)
        else
          match SignWith(lcss, k.host)
          case None => Refuse(c, EncodeFailed)
          case Some(l) => Save(Log(c, l), d.(lcss := l, uncommitted := []))
  }

  function OnOverrideAcceptance(c: Channel, k: Keys, msg: StateUpdate, day: U32): Reply {
    var d := c.data;
    if d.proposedOverride.None? then Refuse(c, InvalidMessage)
    else
      var proposed := d.proposedOverride.value;
      if msg.localUpdates != proposed.remoteUpdates || msg.remoteUpdates != proposed.localUpdates then Keep(c)
      else if msg.blockDay != day then Keep(c)
      else
        var lcss := proposed.(remoteSigOfLocal := msg.sig);
        if !VerifyRemoteSig(lcss, k.peer) then Keep(c)
        else
          match SignWith(lcss, k.host)
          case None => Refuse(c, EncodeFailed)
          case Some(l) => Save(Log(Withdraw(c, l), l), d.(lcss := l, uncommitted := [], localErrors := [], remoteErrors := [],
                                                          suspended := false, proposedOverride := None, established := true))
  }

  function OnStateUpdate(c: Channel, k: Keys, msg: StateUpdate, day: U32): Reply {
    match DeriveStatus(c.data)
    case Opening => OnOpening(c, k, msg, day)
    case Overriding => OnOverrideAcceptance(c, k, msg, day)
    case Active => OnActive(c, k, msg, day)
    case _ => Keep(c)
  }

  // ---- Updates of the peer -----------------------------------------------------------------

  function Push(c: Channel, u: Update): Channel {
    c.(data := c.data.(uncommitted := c.data.uncommitted + [u]))
  }

  function OnUpdateAdd(c: Channel, h: Htlc): Reply {
    if DeriveStatus(c.data) != Active then Keep(c)
    else
      match Fold(c.data.lcss, c.data.uncommitted)
      case Err(e) => Refuse(c, StateFailed(e))
      case Ok(next) =>
        if h.amount > next.remoteBalance
        then Keep(MarkErrored(c, AddAboveBalance))
        else Keep(Push(c, Remote(Add(h))))
  }

  predicate Listens(d: ChannelData) {
    DeriveStatus(d) == Active || DeriveStatus(d) == Errored
  }

  /** `safe` is the verdict on the upstream expiry, which only the links of the controller can give. */
  function OnUpdateFulfill(c: Channel, r: PendingUpdate, safe: bool): Reply
    requires r.Fulfill?
  {
    var d := c.data;
    if !Listens(d) || DeliveryFailed in d.localErrors || HtlcExpired in d.localErrors then Keep(c)
    else if HasKey(d.uncommitted, (false, r.id)) || !HasId(d.lcss.outgoing, r.id) then Keep(c)
    else
      HasIdIsPosition(d.lcss.outgoing, r.id);
      if d.lcss.outgoing[Position(d.lcss.outgoing, r.id)].paymentHash != SHA256(r.preimage) then Keep(c)
      else if !safe then Keep(MarkErrored(c, FulfillTooLate))
      else Keep(Push(c, Remote(r)))
  }

  function OnUpdateFail(c: Channel, r: PendingUpdate): Reply
    requires r.Fail?
  {
    var d := c.data;
    if !Listens(d) || HasKey(d.uncommitted, (false, r.id)) || !HasId(d.lcss.outgoing, r.id) then Keep(c)
    else if r.reason == [] then Keep(MarkErrored(c, EmptyReason))
    else Keep(Push(c, Remote(r)))
  }

  function OnUpdateFailMalformed(c: Channel, r: PendingUpdate): Reply
    requires r.FailMalformed?
  {
    var d := c.data;
    if !Listens(d) || DeliveryFailed in d.localErrors then Keep(c)
    else if HasKey(d.uncommitted, (false, r.id)) || !HasId(d.lcss.outgoing, r.id) then Keep(c)
    else Keep(Push(c, Remote(r)))
  }

  // ---- Updates of the host -----------------------------------------------------------------

  /** The next state with today's block day, signed; `None` when the signature cannot be made. */
  function SignedNext(l: Cross, q: seq<Update>, k: Keys, day: U32): Result<Cross, ChannelError> {
    match Fold(l, q)
    case Err(e) => Err(StateFailed(e))
    case Ok(next) =>
      match SignWith(next.(blockDay := day), k.host)
      case None => Err(EncodeFailed)
      case Some(s) => Ok(s)
  }

  /** Resolves an HTLC of the peer: nothing is stored unless the longer queue still folds. */
  function OnLocalResolve(c: Channel, k: Keys, r: PendingUpdate, day: U32): Reply
    requires !r.Add?
  {
    if !HasId(c.data.lcss.incoming, r.id) then Keep(c)
    else
      var pushed := Push(c, Local(r));
      match SignedNext(c.data.lcss, pushed.data.uncommitted, k, day)
      case Err(e) => Refuse(c, e)
      case Ok(s) => Keep(Log(pushed, s))
  }

  /** The number the next host-added HTLC gets. */
  function NextHtlcId(d: ChannelData): nat {
    d.lcss.localUpdates + |LocalOf(d.uncommitted)| + 1
  }

  /** `addSent` and `stateSent` say which of the two messages to the peer went through. */
  function OnHostAdd(c: Channel, k: Keys, h: Htlc, day: U32, addSent: bool, stateSent: bool): Reply {
    var pushed := Give(Push(c, Local(Add(h))), h);
    if !addSent then Reply(MarkErrored(pushed, DeliveryFailed), Err(ChannelErrored))
    else
      match SignedNext(c.data.lcss, pushed.data.uncommitted, k, day)
      case Err(e) => Reply(pushed, Err(e))
      case Ok(s) =>
        if stateSent then Keep(Log(pushed, s))
        else Reply(MarkErrored(Log(pushed, s), DeliveryFailed), Err(ChannelErrored))
  }

  /** Update counters are 32-bit numbers that are taken not to run out. */
  predicate CountersFit(d: ChannelData) {
    NextHtlcId(d) < 0x1_0000_0000
  }

  function OnDirectPayment(c: Channel, k: Keys, h: Htlc, day: U32): Reply
    requires CountersFit(c.data)
  {
    if DeriveStatus(c.data) != Active then Refuse(c, ChannelErrored)
    else
      match Fold(c.data.lcss, c.data.uncommitted)
      case Err(e) => Refuse(c, StateFailed(e))
      case Ok(next) =>
        if h.amount > next.localBalance then Refuse(c, InvalidMessage)
        else
          var added := h.(id := NextHtlcId(c.data), channelId := k.channelId);
          var pushed := Give(Push(c, Local(Add(added))), added);
          match SignedNext(c.data.lcss, pushed.data.uncommitted, k, day)
          case Err(e) => Refuse(c, e)
          case Ok(s) => Keep(Log(pushed, s))
  }

  function OnReconnect(stored: Channel, k: Keys, day: U32): Reply {
    var c := Repaired(stored);
    if c.data.uncommitted == [] then Keep(c)
    else
      match SignedNext(c.data.lcss, c.data.uncommitted, k, day)
      case Err(e) => Refuse(c, e)
      case Ok(s) => Keep(Log(c, s))
  }

  /** The host's own updates as the peer receives them again after a reconnect. */
  function Replay(q: seq<Update>, channelId: Bytes32): seq<PendingUpdate> {
    if q == [] then []
    else
      var u := q[|q| - 1];
      Replay(q[..|q| - 1], channelId) +
      (if u.Remote? then [] else if u.u.Add? then [Add(u.u.htlc.(channelId := channelId))] else [u.u])
  }

  // ---- Capacity, parameters and overrides --------------------------------------------------

  function RoutingFor(d: ChannelData, fallback: Policy): Routing {
    if d.routing.Some? then d.routing.value else RoutingOf(fallback)
  }

  function OnResize(c: Channel, k: Keys, newCapacitySat: U64, clientSigned: bool, fallback: Policy): Reply {
    var d := c.data;
    if DeriveStatus(d) != Active || !clientSigned || d.acceptingResizeSat.None? then Keep(c)
    else if newCapacitySat > d.acceptingResizeSat.value then Keep(c)
    else if newCapacitySat * 1000 >= U64_BOUND then Refuse(c, InvalidMessage)
    else
      var capacity := newCapacitySat * 1000;
      var local := d.lcss.localBalance + capacity - d.lcss.init.capacity;
      if capacity <= d.lcss.remoteBalance then Keep(c)
      else if !(0 <= local < U64_BOUND) then Refuse(c, InvalidMessage)
      else
        var lcss := d.lcss.(init := d.lcss.init.(capacity := capacity, maxInFlight := capacity), localBalance := local);
        match SignWith(lcss, k.host)
        case None => Refuse(c, EncodeFailed)
        case Some(l) => Save(Log(c, l), d.(lcss := l, acceptingResizeSat := None, channelUpdatePending := true,
                                           routing := Some(RoutingFor(d, fallback).(htlcMaximum := capacity))))
  }

  function OnAcceptResize(c: Channel, maxCapacitySat: Option<U64>): Reply {
    Save(c, c.data.(acceptingResizeSat := maxCapacitySat))
  }

  /** The fresh, HTLC-free state an override proposes: both counters move past the stored ones. */
  function OverrideState(d: ChannelData, init: Init, local: U64, remote: U64, day: U32): Cross {
    Lcss(true, d.refund, init, day, local, remote, d.lcss.localUpdates + 1, d.lcss.remoteUpdates + 1, [], [], NoSig, NoSig)
  }

  function ProposeSigned(c: Channel, k: Keys, proposal: Cross, d: ChannelData, why: Fault): Reply {
    match SignWith(proposal, k.host)
    case None => Refuse(c, EncodeFailed)
    case Some(l) => Save(Log(c, l), d.(proposedOverride := Some(l),
                                       localErrors := if d.localErrors == [] then [why] else d.localErrors))
  }

  function OnProposeOverride(c: Channel, k: Keys, newLocal: Option<U64>, day: U32): Reply {
    var d := c.data;
    if DeriveStatus(d) != Errored && DeriveStatus(d) != Overriding then Refuse(c, InvalidMessage)
    else
      var capacity := d.lcss.init.capacity;
      var local := if newLocal.Some? then newLocal.value else d.lcss.localBalance;
      if local > capacity then Refuse(c, InvalidMessage)
      else ProposeSigned(c, k, OverrideState(d, d.lcss.init, local, capacity - local, day), d, HostOverride)
  }

  datatype Params = Params(
    capacity: Option<U64>, initialClientBalance: Option<U64>, feeBase: Option<U32>, feePpm: Option<U32>,
    cltvDelta: Option<U16>, htlcMinimum: Option<U64>, htlcMaximum: Option<U64>, maxAccepted: Option<U16>)

  predicate IsEmpty(p: Params) {
    p == Params(None, None, None, None, None, None, None, None)
  }

  predicate AffectsLcss(p: Params) {
    p.capacity.Some? || p.initialClientBalance.Some? || p.htlcMinimum.Some? || p.maxAccepted.Some?
  }

  function Or<T>(o: Option<T>, otherwise: T): T {
    if o.Some? then o.value else otherwise
  }

  function NewRouting(r: Routing, p: Params): Routing {
    Routing(Or(p.feeBase, r.feeBase), Or(p.feePpm, r.feePpm), Or(p.cltvDelta, r.cltvDelta), Or(p.htlcMaximum, r.htlcMaximum))
  }

  function NewInit(i: Init, p: Params): Init {
    i.(capacity := Or(p.capacity, i.capacity), maxInFlight := Or(p.capacity, i.maxInFlight),
       initialClientBalance := Or(p.initialClientBalance, i.initialClientBalance),
       htlcMinimum := Or(p.htlcMinimum, i.htlcMinimum), maxAccepted := Or(p.maxAccepted, i.maxAccepted))
  }

  function OnSetChannel(c: Channel, k: Keys, p: Params, force: bool, day: U32, fallback: Policy): Reply {
    var d := c.data;
    var status := DeriveStatus(d);
    if IsEmpty(p) then Keep(c)
    else if status != Active && status != Overriding then Refuse(c, InvalidMessage)
    else if status == Active && (d.lcss.incoming != [] || d.lcss.outgoing != [] || d.uncommitted != []) then
      Refuse(c, InvalidMessage)
    else if status == Active && AffectsLcss(p) && !force then Refuse(c, InvalidMessage)
    else
      var routing := NewRouting(RoutingFor(d, fallback), p);
      var d' := d.(routing := Some(routing), channelUpdatePending := true);
      var overrides := AffectsLcss(p) || status == Overriding;
      var base := if status == Overriding then d.proposedOverride.value else d.lcss;
      var init := if overrides then NewInit(base.init, p) else d.lcss.init;
      var remote := Or(p.initialClientBalance, base.remoteBalance);
      if overrides && init.initialClientBalance > init.capacity then Refuse(c, InvalidMessage)
      else if overrides && remote > init.capacity then Refuse(c, InvalidMessage)
      else if routing.htlcMaximum > init.capacity || init.htlcMinimum > routing.htlcMaximum then Refuse(c, InvalidMessage)
      else if overrides then
        ProposeSigned(c, k, OverrideState(d, init, init.capacity - remote, remote, day), d', ParameterOverride)
      else Save(c, d')
  }

  // ---- Reconciliation ----------------------------------------------------------------------

  /** `msg` is in the peer's view: its remote signature must be the host's own. */
  function OnLcss(c: Channel, k: Keys, msg: Cross): Reply {
    var reversed := Reverse(msg);
    if !VerifyRemoteSig(msg, k.host) then
      Reply(MarkErrored(c, OwnSignatureWrong), Err(ChannelErrored))
    else if !VerifyRemoteSig(reversed, k.peer) then
      Reply(MarkErrored(c, PeerSignatureWrong), Err(ChannelErrored))
    else if reversed.localUpdates < c.data.lcss.localUpdates || reversed.remoteUpdates < c.data.lcss.remoteUpdates then
      Keep(c)
    else if reversed.localUpdates == c.data.lcss.localUpdates && reversed.remoteUpdates == c.data.lcss.remoteUpdates then
      Keep(c)
    else Save(Withdraw(c, reversed), c.data.(lcss := reversed, uncommitted := []))
  }
}

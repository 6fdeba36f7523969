/** Every run of one hosted channel: what each event keeps, and so what every reachable channel satisfies. */
module ChannelRuns {
  import opened Base
  import opened State
  import opened StateLaws
  import opened HtlcIds
  import opened Channel
  import opened ChannelLaws

  datatype Event =
    | PeerStateUpdate(msg: StateUpdate, day: U32)
    | PeerAdd(h: Htlc)
    | PeerFulfill(r: PendingUpdate, safe: bool)
    | PeerFail(r: PendingUpdate)
    | PeerFailMalformed(r: PendingUpdate)
    | PeerError(text: string)
    | PeerLcss(lcss: Cross)
    | PeerResize(newCapacitySat: U64, clientSigned: bool)
    | PeerReconnect(day: U32)
    | HostAdd(h: Htlc, day: U32, addSent: bool, stateSent: bool)
    | HostDirectPayment(h: Htlc, day: U32)
    | HostResolve(r: PendingUpdate, day: U32)
    | HostError(fault: Fault)
    | AcceptResize(maxCapacitySat: Option<U64>)
    | SetChannel(params: Params, force: bool, day: U32)
    | ProposeOverride(newLocal: Option<U64>, day: U32)

  predicate WellFormed(e: Event) {
    && (e.PeerFulfill? ==> e.r.Fulfill?)
    && (e.PeerFail? ==> e.r.Fail?)
    && (e.PeerFailMalformed? ==> e.r.FailMalformed?)
    && (e.HostResolve? ==> !e.r.Add?)
  }

  /** The checks `channel_handle_htlc_add_with_upstream_expiry` makes before it adds an HTLC. */
  predicate MayHostAdd(d: ChannelData, k: Keys, h: Htlc) {
    && h.channelId == k.channelId
    && DeriveStatus(d) == Active
    && Fold(d.lcss, d.uncommitted).Ok?
    && h.amount <= Fold(d.lcss, d.uncommitted).value.localBalance
    && h.id == NextHtlcId(d)
  }

  /** A resize that shrinks the channel may not take more than the pending updates leave. */
  predicate ResizeFits(d: ChannelData, newCapacitySat: U64) {
    Fold(d.lcss, d.uncommitted).Ok? ==>
      d.lcss.init.capacity <= newCapacitySat * 1000 + LowWater(d.lcss, d.uncommitted)
  }

  /** What no environment can do otherwise: it cannot forge the host's signature, and counters do not run out. */
  predicate Possible(c: Channel, k: Keys, e: Event) {
    && WellFormed(e)
    && (e.PeerLcss? && VerifyRemoteSig(e.lcss, k.host) ==> CoveredOf(Reverse(e.lcss)) in c.signed)
    && (e.HostAdd? ==> MayHostAdd(c.data, k, e.h))
    && (e.HostDirectPayment? ==> CountersFit(c.data))
  }

  /** The peer does not reuse the id of an HTLC that is still there, and shrinks only what is free. */
  predicate Disciplined(c: Channel, e: Event) {
    && (e.PeerAdd? ==> !HasId(c.data.lcss.incoming + AddsOf(RemoteOf(c.data.uncommitted)), e.h.id))
    && (e.PeerResize? ==> ResizeFits(c.data, e.newCapacitySat))
  }

  predicate Admissible(c: Channel, k: Keys, e: Event) {
    Possible(c, k, e) && Disciplined(c, e)
  }

  function Respond(c: Channel, k: Keys, fallback: Policy, e: Event): Reply
    requires Possible(c, k, e)
  {
    match e
    case PeerStateUpdate(msg, day) => OnStateUpdate(c, k, msg, day)
    case PeerAdd(h) => OnUpdateAdd(c, h)
    case PeerFulfill(r, safe) => OnUpdateFulfill(c, r, safe)
    case PeerFail(r) => OnUpdateFail(c, r)
    case PeerFailMalformed(r) => OnUpdateFailMalformed(c, r)
    case PeerError(text) => Keep(MarkRemoteErrored(c, text))
    case PeerLcss(lcss) => OnLcss(c, k, lcss)
    case PeerResize(sat, clientSigned) => OnResize(c, k, sat, clientSigned, fallback)
    case PeerReconnect(day) => OnReconnect(c, k, day)
    case HostAdd(h, day, addSent, stateSent) => OnHostAdd(c, k, h, day, addSent, stateSent)
    case HostDirectPayment(h, day) => OnDirectPayment(c, k, h, day)
    case HostResolve(r, day) => OnLocalResolve(c, k, r, day)
    case HostError(fault) => Keep(MarkErrored(c, fault))
    case AcceptResize(max) => OnAcceptResize(c, max)
    case SetChannel(params, force, day) => OnSetChannel(c, k, params, force, day, fallback)
    case ProposeOverride(newLocal, day) => OnProposeOverride(c, k, newLocal, day)
  }

  // ---- Deduplication -----------------------------------------------------------------------

  /** A queue that resolves nothing twice is its own repair. */
  lemma {:induction false} DeduplicateKeeps(q: seq<Update>)
    requires KeysDistinct(q)
    ensures Deduplicate(q) == q
  {
    if q != [] {
      var p, u := q[..|q| - 1], q[|q| - 1];
      assert forall i :: 0 <= i < |p| ==> p[i] == q[i];
      DeduplicateKeeps(p);
      assert ResolutionKey(u).Some? ==> !HasKey(p, ResolutionKey(u).value);
      assert q == p + [u];
    }
  }

  lemma {:induction false} HasKeyInserted(p: seq<Update>, u: Update, rest: seq<Update>, key: (bool, U64))
    requires ResolutionKey(u).Some? && HasKey(p, ResolutionKey(u).value)
    ensures HasKey(p + [u] + rest, key) <==> HasKey(p + rest, key)
  {
    var a, b := p + [u] + rest, p + rest;
    if HasKey(b, key) {
      var i :| 0 <= i < |b| && ResolutionKey(b[i]) == Some(key);
      assert ResolutionKey(a[if i < |p| then i else i + 1]) == Some(key);
    }
    if HasKey(a, key) {
      var i :| 0 <= i < |a| && ResolutionKey(a[i]) == Some(key);
      if i == |p| {
        var j :| 0 <= j < |p| && ResolutionKey(p[j]) == Some(ResolutionKey(u).value);
        assert ResolutionKey(b[j]) == Some(key);
      } else {
        assert ResolutionKey(b[if i < |p| then i else i - 1]) == Some(key);
      }
    }
  }

  /** A later copy of a resolution, wherever it was put, leaves no trace in the repaired queue. */
  lemma {:induction false} DeduplicateDropsCopy(p: seq<Update>, u: Update, rest: seq<Update>)
    requires ResolutionKey(u).Some? && HasKey(p, ResolutionKey(u).value)
    ensures Deduplicate(p + [u] + rest) == Deduplicate(p + rest)
  {
    if rest == [] {
      assert p + [u] + rest == p + [u] && p + rest == p;
      assert (p + [u])[..|p + [u]| - 1] == p;
    } else {
      var front, last := rest[..|rest| - 1], rest[|rest| - 1];
      DeduplicateDropsCopy(p, u, front);
      assert (p + [u] + rest)[..|p + [u] + rest| - 1] == p + [u] + front;
      assert (p + rest)[..|p + rest| - 1] == p + front;
      if ResolutionKey(last).Some? {
        HasKeyInserted(p, u, front, ResolutionKey(last).value);
      }
    }
  }

  lemma {:induction false} DeduplicateHasKeys(q: seq<Update>, key: (bool, U64))
    ensures HasKey(Deduplicate(q), key) <==> HasKey(q, key)
  {
    if q != [] {
      var p, u := q[..|q| - 1], q[|q| - 1];
      DeduplicateHasKeys(p, key);
      assert q == p + [u];
      HasKeyPush(p, u, key);
      HasKeyPush(Deduplicate(p), u, key);
    }
  }

  lemma {:induction false} HasKeyPush(p: seq<Update>, u: Update, key: (bool, U64))
    ensures HasKey(p + [u], key) <==> HasKey(p, key) || ResolutionKey(u) == Some(key)
  {
    var q := p + [u];
    assert q[|p|] == u;
    if HasKey(p, key) {
      var i :| 0 <= i < |p| && ResolutionKey(p[i]) == Some(key);
      assert ResolutionKey(q[i]) == Some(key);
    }
  }

  /** The elements of a queue that are marked to be kept. */
  function Chosen(q: seq<Update>, keep: seq<bool>): seq<Update>
    requires |keep| == |q|
  {
    if q == [] then []
    else Chosen(q[..|q| - 1], keep[..|q| - 1]) + (if keep[|q| - 1] then [q[|q| - 1]] else [])
  }

  /** What is not kept repeats the key of something before it. */
  ghost predicate LaterCopies(q: seq<Update>, keep: seq<bool>)
    requires |keep| == |q|
  {
    forall i :: 0 <= i < |q| && !keep[i] ==> ResolutionKey(q[i]).Some? && HasKey(q[..i], ResolutionKey(q[i]).value)
  }

  /** Any number of later copies of resolutions, put anywhere into a queue without repetitions, are all taken out again. */
  lemma {:induction false} DeduplicateRestores(q: seq<Update>, keep: seq<bool>)
    requires |keep| == |q| && LaterCopies(q, keep) && KeysDistinct(Chosen(q, keep))
    ensures Deduplicate(q) == Chosen(q, keep)
  {
    hide HasKey;
    if q != [] {
      var n := |q| - 1;
      var p, u, chosen := q[..n], q[n], Chosen(q[..n], keep[..n]);
      assert forall i :: 0 <= i < n ==> p[..i] == q[..i];
      assert KeysDistinct(chosen) by {
        assert forall i :: 0 <= i < |chosen| ==> chosen[i] == Chosen(q, keep)[i];
      }
      DeduplicateRestores(p, keep[..n]);
      if keep[n] && ResolutionKey(u).Some? {
        DeduplicateHasKeys(p, ResolutionKey(u).value);
        NotBefore(chosen, u);
      }
    }
  }

  lemma {:induction false} NotBefore(p: seq<Update>, u: Update)
    requires KeysDistinct(p + [u]) && ResolutionKey(u).Some?
    ensures !HasKey(p, ResolutionKey(u).value)
  {
    var q := p + [u];
    forall i | 0 <= i < |p|
      ensures ResolutionKey(p[i]) != ResolutionKey(u)
    {
      assert q[i] == p[i] && q[|p|] == u;
    }
  }

  // ---- What each handler keeps -------------------------------------------------------------

  lemma {:induction false} RepairedIsSame(c: Channel)
    requires Invariant(c)
    ensures Repaired(c) == c
  {
    DeduplicateKeeps(c.data.uncommitted);
  }

  /** Moving to a sound new state with an empty queue keeps the invariant. */
  lemma {:induction false} InstallKeeps(c: Channel, d: ChannelData, l: Cross, c': Channel)
    requires Invariant(c) && SoundState(CoveredOf(l)) && d.lcss == l && d.uncommitted == [] && !d.suspended
    requires d.proposedOverride == c.data.proposedOverride || d.proposedOverride.None?
    requires !Unopened(d) && HtlcsEncode(l.incoming) && HtlcsEncode(l.outgoing)
    requires c'.data == d && c'.signed <= c.signed + {CoveredOf(l)}
    ensures Invariant(c')
  {
    hide SoundState, QueueSound, HtlcsEncode;
    EmptyQueueSound(l);
  }

  lemma {:induction false} OpeningShape(c: Channel, k: Keys, msg: StateUpdate, day: U32)
    ensures var r := OnOpening(c, k, msg, day).channel;
      r == c || (
        && var l := r.data.lcss;
        && r == Log(c, l).(data := c.data.(lcss := l, established := true))
        && l.incoming == [] && l.outgoing == [] && l.isHost == c.data.lcss.isHost && l.init == c.data.lcss.init
        && l.localBalance == c.data.lcss.localBalance && l.remoteBalance == c.data.lcss.remoteBalance)
  {
  }

  lemma {:induction false} OpeningKeeps(c: Channel, k: Keys, msg: StateUpdate, day: U32)
    requires Invariant(c) && DeriveStatus(c.data) == Opening
    ensures Invariant(OnOpening(c, k, msg, day).channel)
  {
    hide SoundState, QueueSound;
    var r := OnOpening(c, k, msg, day).channel;
    OpeningShape(c, k, msg, day);
    if r != c {
      IdleIsBalanced(c.data.lcss);
      IdleIsSound(r.data.lcss);
      InstallKeeps(c, r.data, r.data.lcss, r);
    }
  }

  lemma {:induction false} ActiveKeeps(c: Channel, k: Keys, msg: StateUpdate, day: U32)
    requires Invariant(c) && DeriveStatus(c.data) == Active
    ensures Invariant(OnActive(c, k, msg, day).channel)
  {
    hide SoundState;
    RepairedIsSame(c);
    var d := c.data;
    NextIsSound(d.lcss, d.uncommitted, msg.blockDay);
    var lcss := Fold(d.lcss, d.uncommitted).value.(blockDay := msg.blockDay, remoteSigOfLocal := msg.sig);
    var r := OnActive(c, k, msg, day).channel;
    if r != c {
      InstallKeeps(c, r.data, r.data.lcss, r);
    }
  }

  lemma {:induction false} OverrideAcceptanceKeeps(c: Channel, k: Keys, msg: StateUpdate, day: U32)
    requires Invariant(c)
    ensures Invariant(OnOverrideAcceptance(c, k, msg, day).channel)
  {
    hide SoundState, QueueSound;
    var r := OnOverrideAcceptance(c, k, msg, day).channel;
    if r != c {
      InstallKeeps(c, r.data, r.data.lcss, r);
    }
  }

  lemma {:induction false} PushKeeps(c: Channel, u: Update)
    requires Invariant(c) && !Unopened(c.data) && QueueSound(c.data.lcss, c.data.uncommitted + [u])
    ensures Invariant(Push(c, u))
  {
    hide SoundState, QueueSound;
  }

  lemma {:induction false} LogNextKeeps(c: Channel, k: Keys, day: U32)
    requires Invariant(c) && !Unopened(c.data)
    ensures var s := SignedNext(c.data.lcss, c.data.uncommitted, k, day);
      s.Ok? ==> Invariant(Log(c, s.value))
  {
    hide SoundState;
    NextIsSound(c.data.lcss, c.data.uncommitted, day);
  }

  /** The channel is active and the peer's balance covers the HTLC: the only things the source looks at. */
  predicate TakesAdd(d: ChannelData, h: Htlc) {
    DeriveStatus(d) == Active && Fold(d.lcss, d.uncommitted).Ok? && h.amount <= Fold(d.lcss, d.uncommitted).value.remoteBalance
  }

  /** The source does not look at the id of a new HTLC: one it takes keeps the invariant exactly if its id is not in use. */
  lemma {:induction false} PeerAddKeepsIff(c: Channel, h: Htlc)
    requires Invariant(c)
    ensures Invariant(OnUpdateAdd(c, h).channel) <==>
      (TakesAdd(c.data, h) ==> !HasId(c.data.lcss.incoming + AddsOf(RemoteOf(c.data.uncommitted)), h.id))
  {
    hide SoundState, HtlcsEncode, QueueSound, HasId, AddsOf, RemoteOf;
    var d := c.data;
    assert Fold(d.lcss, d.uncommitted).Ok? by { QueueFolds(d.lcss, d.uncommitted); }
    if TakesAdd(d, h) {
      assert OnUpdateAdd(c, h).channel == Push(c, Remote(Add(h)));
      PushRemoteAddIff(d.lcss, d.uncommitted, h);
      if QueueSound(d.lcss, d.uncommitted + [Remote(Add(h))]) {
        PushKeeps(c, Remote(Add(h)));
      }
    } else {
      ErrorsKeep(c, AddAboveBalance, []);
    }
  }

  lemma {:induction false} QueueFolds(l: Cross, q: seq<Update>)
    requires QueueSound(l, q)
    ensures Fold(l, q).Ok?
  {
  }

  lemma {:induction false} PeerResolveKeeps(c: Channel, r: PendingUpdate)
    requires Invariant(c) && !r.Add? && Listens(c.data)
    requires !HasKey(c.data.uncommitted, (false, r.id)) && HasId(c.data.lcss.outgoing, r.id)
    requires var hs := c.data.lcss.outgoing; Position(hs, r.id) < |hs| ==> PreimageMatches(r, hs[Position(hs, r.id)])
    ensures Invariant(Push(c, Remote(r)))
  {
    PushRemoteResolveKeeps(c.data.lcss, c.data.uncommitted, r);
    PushKeeps(c, Remote(r));
  }

  lemma {:induction false} PeerFulfillKeeps(c: Channel, r: PendingUpdate, safe: bool)
    requires Invariant(c) && r.Fulfill?
    ensures Invariant(OnUpdateFulfill(c, r, safe).channel)
  {
    hide SoundState, QueueSound;
    if OnUpdateFulfill(c, r, safe).channel == Push(c, Remote(r)) && OnUpdateFulfill(c, r, safe).channel != c {
      HasIdIsPosition(c.data.lcss.outgoing, r.id);
      PeerResolveKeeps(c, r);
    }
  }

  lemma {:induction false} PeerFailKeeps(c: Channel, r: PendingUpdate)
    requires Invariant(c) && (r.Fail? || r.FailMalformed?)
    ensures r.Fail? ==> Invariant(OnUpdateFail(c, r).channel)
    ensures r.FailMalformed? ==> Invariant(OnUpdateFailMalformed(c, r).channel)
  {
    hide SoundState, QueueSound;
    var c' := if r.Fail? then OnUpdateFail(c, r).channel else OnUpdateFailMalformed(c, r).channel;
    if c' != c {
      assert c' == Push(c, Remote(r)) || c' == MarkErrored(c, EmptyReason);
      PeerResolveKeeps(c, r);
      ErrorsKeep(c, EmptyReason, []);
    }
  }

  lemma {:induction false} HostResolveKeeps(c: Channel, k: Keys, r: PendingUpdate, day: U32)
    requires Invariant(c) && !r.Add?
    ensures Invariant(OnLocalResolve(c, k, r, day).channel)
  {
    hide SoundState, QueueSound;
    var pushed := Push(c, Local(r));
    if HasId(c.data.lcss.incoming, r.id) && Fold(c.data.lcss, pushed.data.uncommitted).Ok? {
      PushLocalResolveKeeps(c.data.lcss, c.data.uncommitted, r);
      PushKeeps(c, Local(r));
      LogNextKeeps(pushed, k, day);
    }
  }

  lemma {:induction false} HostAddKeeps(c: Channel, k: Keys, h: Htlc, day: U32, addSent: bool, stateSent: bool)
    requires Invariant(c) && MayHostAdd(c.data, k, h)
    ensures Invariant(OnHostAdd(c, k, h, day, addSent, stateSent).channel)
    ensures !HasId(c.data.lcss.outgoing + AddsOf(LocalOf(c.data.uncommitted)), h.id)
  {
    hide SoundState, QueueSound;
    PushLocalAddKeeps(c.data.lcss, c.data.uncommitted, h);
    PushKeeps(c, Local(Add(h)));
    LogNextKeeps(Push(c, Local(Add(h))), k, day);
  }

  lemma {:induction false} DirectPaymentKeeps(c: Channel, k: Keys, h: Htlc, day: U32)
    requires Invariant(c) && CountersFit(c.data)
    ensures Invariant(OnDirectPayment(c, k, h, day).channel)
  {
    hide SoundState;
    var d := c.data;
    if DeriveStatus(d) == Active && h.amount <= Fold(d.lcss, d.uncommitted).value.localBalance {
      HostAddKeeps(c, k, h.(id := NextHtlcId(d), channelId := k.channelId), day, true, true);
    }
  }

  lemma {:induction false} ReconnectKeeps(c: Channel, k: Keys, day: U32)
    requires Invariant(c)
    ensures Invariant(OnReconnect(c, k, day).channel)
  {
    hide SoundState, QueueSound;
    RepairedIsSame(c);
    if c.data.uncommitted != [] {
      LogNextKeeps(c, k, day);
    }
  }

  lemma {:induction false} LcssKeeps(c: Channel, k: Keys, msg: Cross)
    requires Invariant(c)
    requires VerifyRemoteSig(msg, k.host) ==> CoveredOf(Reverse(msg)) in c.signed
    ensures Invariant(OnLcss(c, k, msg).channel)
  {
    hide SoundState, QueueSound;
    var r := OnLcss(c, k, msg).channel;
    if VerifyRemoteSig(msg, k.host) && VerifyRemoteSig(Reverse(msg), k.peer) && r != c {
      InstallKeeps(c, r.data, Reverse(msg), r);
    } else {
      ErrorsKeep(c, OwnSignatureWrong, []);
      ErrorsKeep(c, PeerSignatureWrong, []);
    }
  }

  lemma {:induction false} ProposeKeeps(c: Channel, k: Keys, init: Init, local: U64, remote: U64, day: U32, d: ChannelData, why: Fault)
    requires Invariant(c) && local + remote == init.capacity
    requires d.lcss == c.data.lcss && d.uncommitted == c.data.uncommitted && !d.suspended
    requires d.localErrors == c.data.localErrors
    ensures Invariant(ProposeSigned(c, k, OverrideState(c.data, init, local, remote, day), d, why).channel)
  {
    hide SoundState, QueueSound;
    var proposal := OverrideState(c.data, init, local, remote, day);
    var reply := ProposeSigned(c, k, proposal, d, why).channel;
    if SignWith(proposal, k.host).Some? {
      IdleIsSound(proposal);
      assert reply.data.proposedOverride == SignWith(proposal, k.host);
    }
  }

  lemma {:induction false} ProposeOverrideKeeps(c: Channel, k: Keys, newLocal: Option<U64>, day: U32)
    requires Invariant(c)
    ensures Invariant(OnProposeOverride(c, k, newLocal, day).channel)
  {
    hide Invariant;
    var r, d, capacity := OnProposeOverride(c, k, newLocal, day).channel, c.data, c.data.lcss.init.capacity;
    if r != c {
      var local := if newLocal.Some? then newLocal.value else d.lcss.localBalance;
      assert local <= capacity;
      var why := HostOverride;
      assert r == ProposeSigned(c, k, OverrideState(d, d.lcss.init, local, capacity - local, day), d, why).channel;
      ProposeKeeps(c, k, d.lcss.init, local, capacity - local, day, d, why);
    }
  }

  function SetChannelData(d: ChannelData, p: Params, fallback: Policy): ChannelData {
    d.(routing := Some(NewRouting(RoutingFor(d, fallback), p)), channelUpdatePending := true)
  }

  /** `set_channel` changes nothing, or the routing policy, or proposes an override of exactly the new capacity. */
  lemma {:induction false} SetChannelShape(c: Channel, k: Keys, p: Params, force: bool, day: U32, fallback: Policy)
    returns (init: Init, remote: U64)
    ensures remote <= init.capacity
    ensures var r, d' := OnSetChannel(c, k, p, force, day, fallback).channel, SetChannelData(c.data, p, fallback);
      || r == c
      || r == c.(data := d')
      || r == ProposeSigned(c, k, OverrideState(c.data, init, init.capacity - remote, remote, day), d',
                            ParameterOverride).channel
  {
    var r, d, d' := OnSetChannel(c, k, p, force, day, fallback).channel, c.data, SetChannelData(c.data, p, fallback);
    init, remote := d.lcss.init, 0;
    if r != c && r != c.(data := d') {
      var base := if DeriveStatus(d) == Overriding then d.proposedOverride.value else d.lcss;
      init, remote := NewInit(base.init, p), Or(p.initialClientBalance, base.remoteBalance);
    }
  }

  lemma {:induction false} SetChannelKeeps(c: Channel, k: Keys, p: Params, force: bool, day: U32, fallback: Policy)
    requires Invariant(c)
    ensures Invariant(OnSetChannel(c, k, p, force, day, fallback).channel)
  {
    hide SoundState, QueueSound;
    var d' := SetChannelData(c.data, p, fallback);
    var init, remote := SetChannelShape(c, k, p, force, day, fallback);
    PolicyKeeps(c, d');
    ProposeKeeps(c, k, init, init.capacity - remote, remote, day, d', ParameterOverride);
  }

  /** Fields outside the state, the queue, the errors and the override do not matter. */
  lemma {:induction false} PolicyKeeps(c: Channel, d: ChannelData)
    requires Invariant(c)
    requires d == c.data.(routing := d.routing, channelUpdatePending := d.channelUpdatePending,
                          acceptingResizeSat := d.acceptingResizeSat)
    ensures Invariant(c.(data := d))
  {
    hide SoundState, QueueSound;
  }

  lemma {:induction false} ErrorsKeep(c: Channel, fault: Fault, text: string)
    requires Invariant(c)
    ensures Invariant(MarkErrored(c, fault)) && Invariant(MarkRemoteErrored(c, text))
  {
    hide SoundState, QueueSound;
  }

  /** The stored state after a resize to `capacity`, before the host signs it again. */
  function Resized(l: Cross, capacity: U64): Cross
    requires 0 <= l.localBalance + capacity - l.init.capacity < U64_BOUND
  {
    l.(init := l.init.(capacity := capacity, maxInFlight := capacity),
       localBalance := l.localBalance + capacity - l.init.capacity)
  }

  /**
   * A resize keeps the pending queue foldable exactly when it takes no more than the lowest local
   * balance on the way through the queue.
   */
  lemma {:induction false} ResizeFoldsIff(l: Cross, q: seq<Update>, capacity: U64)
    requires SoundState(CoveredOf(l)) && Fold(l, q).Ok?
    requires 0 <= l.localBalance + capacity - l.init.capacity < U64_BOUND
    ensures Fold(Resized(l, capacity), q).Ok? <==> l.init.capacity <= capacity + LowWater(l, q)
  {
    var delta := capacity - l.init.capacity;
    FoldShift(l, q, delta);
    FoldIgnoresHeader(Resized(l, capacity), Shift(l, delta), q);
  }

  lemma {:induction false} ResizedIsSound(l: Cross, q: seq<Update>, capacity: U64, sig: Sig)
    requires SoundState(CoveredOf(l)) && QueueSound(l, q)
    requires 0 <= l.localBalance + capacity - l.init.capacity < U64_BOUND
    requires l.init.capacity <= capacity + LowWater(l, q)
    ensures var l' := Resized(l, capacity).(localSigOfRemote := sig);
      SoundState(CoveredOf(l')) && QueueSound(l', q)
  {
    var l' := Resized(l, capacity).(localSigOfRemote := sig);
    ResizeFoldsIff(l, q, capacity);
    FoldIgnoresHeader(Resized(l, capacity), l', q);
  }

  /** The channel is active, the resize is agreed on both sides, in range, and the new state can be signed. */
  predicate TakesResize(d: ChannelData, newCapacitySat: U64, clientSigned: bool) {
    var capacity := newCapacitySat * 1000;
    && DeriveStatus(d) == Active && clientSigned && d.acceptingResizeSat.Some? && newCapacitySat <= d.acceptingResizeSat.value
    && capacity < U64_BOUND && d.lcss.remoteBalance < capacity
    && 0 <= d.lcss.localBalance + capacity - d.lcss.init.capacity < U64_BOUND
    && Encodes(Reverse(Resized(d.lcss, capacity)))
  }

  /** A resize that is carried out keeps the invariant exactly if it takes no more than the queue leaves. */
  lemma {:induction false} ResizeKeepsIff(c: Channel, k: Keys, newCapacitySat: U64, clientSigned: bool, fallback: Policy)
    requires Invariant(c)
    ensures Invariant(OnResize(c, k, newCapacitySat, clientSigned, fallback).channel) <==>
      (TakesResize(c.data, newCapacitySat, clientSigned) ==> ResizeFits(c.data, newCapacitySat))
  {
    hide SoundState, HtlcsEncode, Encodes;
    var d := c.data;
    var reply := OnResize(c, k, newCapacitySat, clientSigned, fallback);
    if TakesResize(d, newCapacitySat, clientSigned) {
      var capacity := newCapacitySat * 1000;
      var l := reply.channel.data.lcss;
      assert l == Resized(d.lcss, capacity).(localSigOfRemote := l.localSigOfRemote);
      ResizeFoldsIff(d.lcss, d.uncommitted, capacity);
      FoldIgnoresHeader(Resized(d.lcss, capacity), l, d.uncommitted);
      if ResizeFits(d, newCapacitySat) {
        ResizedIsSound(d.lcss, d.uncommitted, capacity, l.localSigOfRemote);
      }
    }
  }

  // ---- Runs --------------------------------------------------------------------------------

  lemma {:induction false} StateUpdateKeeps(c: Channel, k: Keys, msg: StateUpdate, day: U32)
    requires Invariant(c)
    ensures Invariant(OnStateUpdate(c, k, msg, day).channel)
  {
    match DeriveStatus(c.data)
    case Opening => OpeningKeeps(c, k, msg, day);
    case Overriding => OverrideAcceptanceKeeps(c, k, msg, day);
    case Active => ActiveKeeps(c, k, msg, day);
    case _ =>
  }

  predicate FromPeer(e: Event) {
    e.PeerStateUpdate? || e.PeerAdd? || e.PeerFulfill? || e.PeerFail? || e.PeerFailMalformed? || e.PeerError?
    || e.PeerLcss? || e.PeerResize? || e.PeerReconnect?
  }

  lemma {:induction false} PeerEventKeeps(c: Channel, k: Keys, fallback: Policy, e: Event)
    requires Invariant(c) && Admissible(c, k, e) && FromPeer(e)
    ensures Invariant(Respond(c, k, fallback, e).channel)
  {
    hide Invariant;
    match e
    case PeerStateUpdate(msg, day) => StateUpdateKeeps(c, k, msg, day);
    case PeerAdd(h) => PeerAddKeepsIff(c, h);
    case PeerFulfill(r, safe) => PeerFulfillKeeps(c, r, safe);
    case PeerFail(r) => PeerFailKeeps(c, r);
    case PeerFailMalformed(r) => PeerFailKeeps(c, r);
    case PeerError(text) => ErrorsKeep(c, EmptyReason, text);
    case PeerLcss(lcss) => LcssKeeps(c, k, lcss);
    case PeerResize(sat, clientSigned) => ResizeKeepsIff(c, k, sat, clientSigned, fallback);
    case PeerReconnect(day) => ReconnectKeeps(c, k, day);
  }

  lemma {:induction false} SetChannelEventKeeps(c: Channel, k: Keys, fallback: Policy, e: Event)
    requires Invariant(c) && Admissible(c, k, e) && e.SetChannel?
    ensures Invariant(Respond(c, k, fallback, e).channel)
  {
    var r := OnSetChannel(c, k, e.params, e.force, e.day, fallback).channel;
    SetChannelKeeps(c, k, e.params, e.force, e.day, fallback);
    assert Respond(c, k, fallback, e).channel == r;
  }

  predicate FromOperator(e: Event) {
    e.AcceptResize? || e.SetChannel? || e.ProposeOverride?
  }

  lemma {:induction false} OperatorEventKeeps(c: Channel, k: Keys, fallback: Policy, e: Event)
    requires Invariant(c) && Admissible(c, k, e) && FromOperator(e)
    ensures Invariant(Respond(c, k, fallback, e).channel)
  {
    hide Invariant;
    match e
    case AcceptResize(max) => PolicyKeeps(c, c.data.(acceptingResizeSat := max));
    case SetChannel(params, force, day) => SetChannelEventKeeps(c, k, fallback, e);
    case ProposeOverride(newLocal, day) => ProposeOverrideKeeps(c, k, newLocal, day);
  }

  lemma {:induction false} HostEventKeeps(c: Channel, k: Keys, fallback: Policy, e: Event)
    requires Invariant(c) && Admissible(c, k, e) && !FromPeer(e) && !FromOperator(e)
    ensures Invariant(Respond(c, k, fallback, e).channel)
  {
    hide Invariant;
    match e
    case HostAdd(h, day, addSent, stateSent) => HostAddKeeps(c, k, h, day, addSent, stateSent);
    case HostDirectPayment(h, day) => DirectPaymentKeeps(c, k, h, day);
    case HostResolve(r, day) => HostResolveKeeps(c, k, r, day);
    case HostError(fault) => ErrorsKeep(c, fault, []);
  }

  /** No event that the environment may cause takes a channel out of the invariant. */
  lemma {:induction false} EveryEventKeeps(c: Channel, k: Keys, fallback: Policy, e: Event)
    requires Invariant(c) && Admissible(c, k, e)
    ensures Invariant(Respond(c, k, fallback, e).channel)
  {
    hide Invariant;
    if FromPeer(e) {
      PeerEventKeeps(c, k, fallback, e);
    } else if FromOperator(e) {
      OperatorEventKeeps(c, k, fallback, e);
    } else {
      HostEventKeeps(c, k, fallback, e);
    }
  }

  /** `trace` lists the channel before each event and after the last one. */
  predicate IsRun(trace: seq<Channel>, es: seq<Event>, k: Keys, fallback: Policy) {
    && |trace| == |es| + 1
    && forall i :: 0 <= i < |es| ==>
         Admissible(trace[i], k, es[i]) && trace[i + 1] == Respond(trace[i], k, fallback, es[i]).channel
  }

  lemma {:induction false} NewChannelIsSound(p: Policy, refund: Bytes)
    requires p.initialClientBalance <= p.capacity
    ensures Invariant(NewChannel(p, refund))
  {
    hide SoundState, QueueSound;
    var l := NewChannel(p, refund).data.lcss;
    IdleIsSound(l);
    EmptyQueueSound(l);
  }

  /** Every channel of every run that starts with a new channel satisfies the invariant. */
  lemma {:induction false} ReachableIsSound(trace: seq<Channel>, es: seq<Event>, k: Keys, fallback: Policy,
                                            policy: Policy, refund: Bytes, n: nat)
    requires IsRun(trace, es, k, fallback) && n < |trace|
    requires policy.initialClientBalance <= policy.capacity && trace[0] == NewChannel(policy, refund)
    ensures Invariant(trace[n])
  {
    hide Invariant, Respond, Admissible;
    if n == 0 {
      NewChannelIsSound(policy, refund);
    } else {
      ReachableIsSound(trace, es, k, fallback, policy, refund, n - 1);
      EveryEventKeeps(trace[n - 1], k, fallback, es[n - 1]);
    }
  }
}

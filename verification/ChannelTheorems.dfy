/** What the channel invariant gives: conservation, signatures, counters, ids and the peer's agreement. */
module ChannelTheorems {
  import opened Base
  import opened State
  import opened StateLaws
  import opened HtlcIds
  import opened Channel
  import opened ChannelLaws
  import opened ChannelRuns
  import opened ChannelIds

  /**
   * In every run the HTLCs of either side, committed or pending, never share an id, and the next id
   * the host gives is among none of its own.
   */
  lemma {:induction false} IdsStayDistinct(trace: seq<Channel>, es: seq<Event>, k: Keys, fallback: Policy,
                                           policy: Policy, refund: Bytes, n: nat)
    requires IsRun(trace, es, k, fallback) && n < |trace|
    requires policy.initialClientBalance <= policy.capacity && trace[0] == NewChannel(policy, refund)
    ensures var d := trace[n].data;
      && Distinct(Pool(d)) && Distinct(d.lcss.incoming + AddsOf(RemoteOf(d.uncommitted)))
      && (CountersFit(d) ==> !HasId(Pool(d), NextHtlcId(d)))
  {
    hide IsRun, Respond, NewChannel, SoundState, Fold, LocalOf, RemoteOf, AddsOf;
    ReachableIsSound(trace, es, k, fallback, policy, refund, n);
  }

  // ---- Errors of the fold ------------------------------------------------------------------

  lemma {:induction false} TotalIsCapacity(l: Cross)
    requires SoundState(CoveredOf(l))
    ensures Total(l) == l.init.capacity
  {
  }

  /**
   * No handler ever fails because the stored queue does not fold. Only a resolution by the host can
   * be refused by the fold, because it names an HTLC already resolved or brings a wrong preimage, and
   * then nothing is stored; an overflow is never reported.
   */
  lemma {:induction false} QueueNeverFails(c: Channel, k: Keys, fallback: Policy, e: Event)
    requires Invariant(c) && Admissible(c, k, e)
    ensures Fold(c.data.lcss, c.data.uncommitted).Ok?
    ensures var r := Respond(c, k, fallback, e);
      StateError(r) ==>
        e.HostResolve? && r.channel == c && r.result.error.e != Overflow
  {
    if e.HostResolve? {
      HostResolveRefusal(c, k, e.r, e.day);
    } else if e.HostAdd? {
      HostAddFolds(c, k, e.h, e.day, e.addSent, e.stateSent);
    } else if e.HostDirectPayment? {
      DirectPaymentFolds(c, k, e.h, e.day);
    } else if e.PeerStateUpdate? || e.PeerReconnect? {
      RepairedFolds(c, k, e);
    } else {
      OtherEventsDoNotFold(c, k, fallback, e);
    }
  }

  /** So in every run the stored queue folds before each event, and no event reports an overflow. */
  lemma {:induction false} EveryQueueFolds(trace: seq<Channel>, es: seq<Event>, k: Keys, fallback: Policy,
                                           policy: Policy, refund: Bytes, n: nat)
    requires IsRun(trace, es, k, fallback) && n < |trace|
    requires policy.initialClientBalance <= policy.capacity && trace[0] == NewChannel(policy, refund)
    ensures Fold(trace[n].data.lcss, trace[n].data.uncommitted).Ok?
    ensures Deduplicate(trace[n].data.uncommitted) == trace[n].data.uncommitted
    ensures n < |es| ==> Respond(trace[n], k, fallback, es[n]).result != Err(StateFailed(Overflow))
  {
    hide Fold, Deduplicate, Respond, SoundState, LocalOf, RemoteOf, Admissible;
    ReachableIsSound(trace, es, k, fallback, policy, refund, n);
    RepairedIsSame(trace[n]);
    if n < |es| {
      QueueNeverFails(trace[n], k, fallback, es[n]);
    }
  }

  predicate StateError(r: Reply) {
    r.result.Err? && r.result.error.StateFailed?
  }

  lemma {:induction false} HostResolveRefusal(c: Channel, k: Keys, r: PendingUpdate, day: U32)
    requires Invariant(c) && !r.Add?
    ensures var reply := OnLocalResolve(c, k, r, day);
      StateError(reply) ==> reply.channel == c && reply.result.error.e != Overflow
  {
    TotalIsCapacity(c.data.lcss);
    NoOverflow(c.data.lcss, c.data.uncommitted + [Local(r)]);
  }

  lemma {:induction false} HostAddFolds(c: Channel, k: Keys, h: Htlc, day: U32, addSent: bool, stateSent: bool)
    requires Invariant(c) && MayHostAdd(c.data, k, h)
    ensures !StateError(OnHostAdd(c, k, h, day, addSent, stateSent))
  {
    PushLocalAddKeeps(c.data.lcss, c.data.uncommitted, h);
  }

  lemma {:induction false} RepairedFolds(c: Channel, k: Keys, e: Event)
    requires Invariant(c)
    ensures e.PeerStateUpdate? ==> !StateError(OnStateUpdate(c, k, e.msg, e.day))
    ensures e.PeerReconnect? ==> !StateError(OnReconnect(c, k, e.day))
  {
    hide SoundState, Fold, Encodes, Deduplicate, LocalOf, RemoteOf, KeysDistinct;
    RepairedIsSame(c);
  }

  lemma {:induction false} DirectPaymentFolds(c: Channel, k: Keys, h: Htlc, day: U32)
    requires Invariant(c) && CountersFit(c.data)
    ensures !StateError(OnDirectPayment(c, k, h, day))
  {
    hide SoundState;
    if h.amount <= Fold(c.data.lcss, c.data.uncommitted).value.localBalance {
      PushLocalAddKeeps(c.data.lcss, c.data.uncommitted, h.(id := NextHtlcId(c.data), channelId := k.channelId));
    }
  }

  lemma {:induction false} OtherEventsDoNotFold(c: Channel, k: Keys, fallback: Policy, e: Event)
    requires Admissible(c, k, e) && Fold(c.data.lcss, c.data.uncommitted).Ok?
    requires !e.HostResolve? && !e.HostAdd? && !e.HostDirectPayment? && !e.PeerStateUpdate? && !e.PeerReconnect?
    ensures !StateError(Respond(c, k, fallback, e))
  {
    hide Fold, Encodes;
  }

  // ---- Signatures and counters -------------------------------------------------------------

  /** Both parties signed the state, each over the other's view. */
  predicate CrossSigned(l: Cross, k: Keys) {
    VerifyRemoteSig(l, k.peer) && VerifyRemoteSig(Reverse(l), k.host)
  }

  lemma {:induction false} SigningCrossSigns(l: Cross, k: Keys)
    requires VerifyRemoteSig(l, k.peer) && SignWith(l, k.host).Some?
    ensures CrossSigned(SignWith(l, k.host).value, k)
  {
    var s := SignWith(l, k.host).value;
    assert CoveredOf(s) == CoveredOf(l);
    assert CoveredOf(Reverse(s)) == CoveredOf(Reverse(l));
  }

  /** Every event that replaces the stored state, except a resize, stores a cross-signed one. */
  lemma {:induction false} StoredStateIsCrossSigned(c: Channel, k: Keys, fallback: Policy, e: Event)
    requires Possible(c, k, e) && !e.PeerResize?
    requires Respond(c, k, fallback, e).channel.data.lcss != c.data.lcss
    ensures e.PeerStateUpdate? || e.PeerLcss?
    ensures CrossSigned(Respond(c, k, fallback, e).channel.data.lcss, k)
  {
    match e
    case PeerStateUpdate(msg, day) => CommitIsCrossSigned(c, k, msg, day);
    case PeerLcss(lcss) => AdoptionIsCrossSigned(c, k, lcss);
    case _ => OtherEventsKeepState(c, k, fallback, e);
  }

  lemma {:induction false} OtherEventsKeepState(c: Channel, k: Keys, fallback: Policy, e: Event)
    requires Possible(c, k, e) && !e.PeerStateUpdate? && !e.PeerLcss? && !e.PeerResize?
    ensures Respond(c, k, fallback, e).channel.data.lcss == c.data.lcss
  {
    hide Respond;
    if FromPeer(e) {
      PeerEventKeepsState(c, k, fallback, e);
    } else if FromOperator(e) {
      OperatorEventKeepsState(c, k, fallback, e);
    } else {
      HostEventKeepsState(c, k, fallback, e);
    }
  }

  lemma {:induction false} PeerEventKeepsState(c: Channel, k: Keys, fallback: Policy, e: Event)
    requires Possible(c, k, e) && FromPeer(e) && !e.PeerStateUpdate? && !e.PeerLcss? && !e.PeerResize?
    ensures Respond(c, k, fallback, e).channel.data.lcss == c.data.lcss
  {
    hide Fold, Deduplicate, Encodes, HasId, HasKey, DeriveStatus, VerifyRemoteSig, LowWater, OnStateUpdate, OnLcss, OnResize,
         OnUpdateAdd, OnUpdateFulfill, OnUpdateFail, OnUpdateFailMalformed;
    if WellFormed(e) && (e.PeerAdd? || e.PeerFulfill? || e.PeerFail? || e.PeerFailMalformed?) {
      PeerUpdateKeepsState(c, e);
    }
  }

  lemma {:induction false} PeerUpdateKeepsState(c: Channel, e: Event)
    requires WellFormed(e)
    ensures e.PeerAdd? ==> OnUpdateAdd(c, e.h).channel.data.lcss == c.data.lcss
    ensures e.PeerFulfill? ==> OnUpdateFulfill(c, e.r, e.safe).channel.data.lcss == c.data.lcss
    ensures e.PeerFail? ==> OnUpdateFail(c, e.r).channel.data.lcss == c.data.lcss
    ensures e.PeerFailMalformed? ==> OnUpdateFailMalformed(c, e.r).channel.data.lcss == c.data.lcss
  {
    hide Fold, HasId, HasKey, DeriveStatus, Listens;
  }

  lemma {:induction false} OperatorEventKeepsState(c: Channel, k: Keys, fallback: Policy, e: Event)
    requires Possible(c, k, e) && FromOperator(e)
    ensures Respond(c, k, fallback, e).channel.data.lcss == c.data.lcss
  {
    hide OnSetChannel, Encodes, DeriveStatus, VerifyRemoteSig, Reverse, Fold;
    if e.SetChannel? {
      var init, remote := SetChannelShape(c, k, e.params, e.force, e.day, fallback);
    }
  }

  lemma {:induction false} HostEventKeepsState(c: Channel, k: Keys, fallback: Policy, e: Event)
    requires Possible(c, k, e) && !FromPeer(e) && !FromOperator(e)
    ensures Respond(c, k, fallback, e).channel.data.lcss == c.data.lcss
  {
    hide Fold, Encodes, HasId, DeriveStatus, VerifyRemoteSig, Reverse, LocalOf;
  }

  lemma {:induction false} ReverseTwice(l: Cross)
    ensures Reverse(Reverse(l)) == l
  {
  }

  lemma {:induction false} AdoptionShape(c: Channel, k: Keys, msg: Cross)
    requires OnLcss(c, k, msg).channel.data.lcss != c.data.lcss
    ensures OnLcss(c, k, msg).channel.data.lcss == Reverse(msg)
    ensures VerifyRemoteSig(msg, k.host) && VerifyRemoteSig(Reverse(msg), k.peer)
    ensures Advances(c.data.lcss, Reverse(msg))
  {
    hide VerifyRemoteSig, Reverse;
    assert OnLcss(c, k, msg) == Save(Withdraw(c, Reverse(msg)), c.data.(lcss := Reverse(msg), uncommitted := []));
  }

  lemma {:induction false} AdoptionIsCrossSigned(c: Channel, k: Keys, msg: Cross)
    requires OnLcss(c, k, msg).channel.data.lcss != c.data.lcss
    ensures CrossSigned(OnLcss(c, k, msg).channel.data.lcss, k)
  {
    hide OnLcss, VerifyRemoteSig, Reverse;
    AdoptionShape(c, k, msg);
    ReverseTwice(msg);
  }

  /** The state a `state_update` of the peer leads to, before the host signs it. */
  function Candidate(c: Channel, msg: StateUpdate): Option<Cross> {
    match DeriveStatus(c.data)
    case Opening =>
      Some(c.data.lcss.(blockDay := msg.blockDay, localUpdates := 0, remoteUpdates := 0,
                        incoming := [], outgoing := [], remoteSigOfLocal := msg.sig))
    case Active =>
      var q := Deduplicate(c.data.uncommitted);
      if Fold(c.data.lcss, q).Ok?
      then Some(Fold(c.data.lcss, q).value.(blockDay := msg.blockDay, remoteSigOfLocal := msg.sig))
      else None
    case Overriding => Some(c.data.proposedOverride.value.(remoteSigOfLocal := msg.sig))
    case _ => None
  }

  lemma {:induction false} CommitShape(c: Channel, k: Keys, msg: StateUpdate, day: U32)
    requires OnStateUpdate(c, k, msg, day).channel.data.lcss != c.data.lcss
    ensures var l := Candidate(c, msg);
      && l.Some? && VerifyRemoteSig(l.value, k.peer)
      && SignWith(l.value, k.host) == Some(OnStateUpdate(c, k, msg, day).channel.data.lcss)
  {
    hide Fold, Encodes, Deduplicate, LocalOf, RemoteOf;
  }

  lemma {:induction false} CommitIsCrossSigned(c: Channel, k: Keys, msg: StateUpdate, day: U32)
    requires OnStateUpdate(c, k, msg, day).channel.data.lcss != c.data.lcss
    ensures CrossSigned(OnStateUpdate(c, k, msg, day).channel.data.lcss, k)
  {
    CommitShape(c, k, msg, day);
    SigningCrossSigns(Candidate(c, msg).value, k);
  }

  /** Neither counter goes down and one goes up. */
  predicate Advances(before: Cross, after: Cross) {
    && before.localUpdates <= after.localUpdates && before.remoteUpdates <= after.remoteUpdates
    && before.localUpdates + before.remoteUpdates < after.localUpdates + after.remoteUpdates
  }

  lemma {:induction false} SidesPartition(q: seq<Update>)
    ensures |LocalOf(q)| + |RemoteOf(q)| == |q|
  {
    if q != [] {
      SidesPartition(q[..|q| - 1]);
    }
  }

  /** A commit on an active channel and an adoption of the peer's state move the counters forward. */
  lemma {:induction false} CountersAdvance(c: Channel, k: Keys, fallback: Policy, e: Event)
    requires Invariant(c) && Admissible(c, k, e)
    requires e.PeerLcss? || (e.PeerStateUpdate? && DeriveStatus(c.data) == Active)
    requires Respond(c, k, fallback, e).channel.data.lcss != c.data.lcss
    ensures Advances(c.data.lcss, Respond(c, k, fallback, e).channel.data.lcss)
  {
    hide Invariant, OnStateUpdate, OnLcss, Fold, Encodes, Reverse;
    if e.PeerStateUpdate? {
      CommitAdvances(c, k, e.msg, e.day);
    } else {
      AdoptionShape(c, k, e.lcss);
    }
  }

  lemma {:induction false} CommitAdvances(c: Channel, k: Keys, msg: StateUpdate, day: U32)
    requires Invariant(c) && DeriveStatus(c.data) == Active
    requires OnStateUpdate(c, k, msg, day).channel.data.lcss != c.data.lcss
    ensures Advances(c.data.lcss, OnStateUpdate(c, k, msg, day).channel.data.lcss)
  {
    hide SoundState, Encodes;
    RepairedIsSame(c);
    CommitShape(c, k, msg, day);
    FoldKeepsHeader(c.data.lcss, c.data.uncommitted);
    SidesPartition(c.data.uncommitted);
    assert c.data.uncommitted != [];
  }

  /** A freshly proposed override raises both counters of the state it was proposed against. */
  lemma {:induction false} OverrideRaisesBoth(c: Channel, k: Keys, fallback: Policy, e: Event)
    requires Possible(c, k, e) && (e.SetChannel? || e.ProposeOverride?)
    requires Respond(c, k, fallback, e).channel.data.proposedOverride != c.data.proposedOverride
    ensures var d := Respond(c, k, fallback, e).channel.data;
      && d.lcss == c.data.lcss && d.proposedOverride.Some?
      && d.proposedOverride.value.localUpdates == c.data.lcss.localUpdates + 1
      && d.proposedOverride.value.remoteUpdates == c.data.lcss.remoteUpdates + 1
  {
    hide OnSetChannel, Encodes, Fold, DeriveStatus, VerifyRemoteSig, Reverse, RoutingFor, LowWater;
    if e.SetChannel? {
      var init, remote := SetChannelShape(c, k, e.params, e.force, e.day, fallback);
    }
  }

  /** The host took over the peer's state. */
  predicate Adopts(c: Channel, e: Event, c': Channel) {
    e.PeerLcss? && c'.data.lcss != c.data.lcss
  }

  /** While one proposal stands, only an adoption changes the stored state. */
  lemma {:induction false} ProposalStands(c: Channel, k: Keys, fallback: Policy, e: Event)
    requires Possible(c, k, e) && c.data.proposedOverride.Some?
    requires Respond(c, k, fallback, e).channel.data.proposedOverride == c.data.proposedOverride
    ensures var c' := Respond(c, k, fallback, e).channel;
      if Adopts(c, e, c') then Advances(c.data.lcss, c'.data.lcss) else c'.data.lcss == c.data.lcss
  {
    hide Fold, Encodes, Reverse, VerifyRemoteSig, OnActive, OnOpening;
    match e
    case PeerStateUpdate(msg, day) =>
    case PeerLcss(lcss) =>
      if OnLcss(c, k, lcss).channel.data.lcss != c.data.lcss {
        AdoptionShape(c, k, lcss);
      }
    case PeerResize(sat, clientSigned) =>
    case _ => OtherEventsKeepState(c, k, fallback, e);
  }

  /** The proposal made by the `i`-th event is still the one in force before the `j`-th. */
  predicate StandsBetween(trace: seq<Channel>, es: seq<Event>, i: nat, j: nat)
    requires |trace| == |es| + 1
  {
    && i < j < |trace| && (es[i].SetChannel? || es[i].ProposeOverride?)
    && trace[i + 1].data.proposedOverride != trace[i].data.proposedOverride
    && forall m :: i < m <= j ==> trace[m].data.proposedOverride == trace[i + 1].data.proposedOverride
  }

  predicate NoAdoption(trace: seq<Channel>, es: seq<Event>, i: nat, j: nat)
    requires |trace| == |es| + 1 && i < j < |trace|
  {
    forall m :: i < m < j ==> !Adopts(trace[m], es[m], trace[m + 1])
  }

  /** Until then the stored state is the one the proposal was made against, or it moved ahead by adoptions. */
  lemma {:induction false} CountersWhileStanding(trace: seq<Channel>, es: seq<Event>, k: Keys, fallback: Policy, i: nat, j: nat)
    requires IsRun(trace, es, k, fallback) && StandsBetween(trace, es, i, j)
    ensures var l, l', p := trace[i].data.lcss, trace[j].data.lcss, trace[j].data.proposedOverride;
      && p.Some? && p.value.localUpdates == l.localUpdates + 1 && p.value.remoteUpdates == l.remoteUpdates + 1
      && if NoAdoption(trace, es, i, j) then l' == l else Advances(l, l')
    decreases j
  {
    hide Respond, Possible, Disciplined, Advances;
    if j == i + 1 {
      OverrideRaisesBoth(trace[i], k, fallback, es[i]);
    } else {
      var m := j - 1;
      CountersWhileStanding(trace, es, k, fallback, i, m);
      assert trace[m + 1].data.proposedOverride == trace[m].data.proposedOverride;
      ProposalStands(trace[m], k, fallback, es[m]);
      AdvancesFurther(trace[i].data.lcss, trace[m].data.lcss, trace[j].data.lcss);
      assert NoAdoption(trace, es, i, j) <==> NoAdoption(trace, es, i, m) && !Adopts(trace[m], es[m], trace[m + 1]);
    }
  }

  lemma {:induction false} AdvancesFurther(a: Cross, b: Cross, c: Cross)
    ensures (a == b || Advances(a, b)) && Advances(b, c) ==> Advances(a, c)
  {
  }

  /**
   * An accepted override raises both counters of the state it replaces by exactly one, if and only if
   * the host adopted no state of the peer between the proposal and the acceptance.
   */
  lemma {:induction false} AcceptedOverrideRaisesBothIff(trace: seq<Channel>, es: seq<Event>, k: Keys, fallback: Policy, i: nat, j: nat)
    requires IsRun(trace, es, k, fallback) && StandsBetween(trace, es, i, j) && j < |es|
    requires es[j].PeerStateUpdate? && trace[j + 1].data.proposedOverride.None?
    ensures var before, after := trace[j].data.lcss, trace[j + 1].data.lcss;
      && after.localUpdates == trace[i].data.lcss.localUpdates + 1 && after.remoteUpdates == trace[i].data.lcss.remoteUpdates + 1
      && (after.localUpdates == before.localUpdates + 1 && after.remoteUpdates == before.remoteUpdates + 1
          <==> NoAdoption(trace, es, i, j))
  {
    hide OnOverrideAcceptance, Fold, Encodes, Reverse, VerifyRemoteSig, Possible, Disciplined, StandsBetween, NoAdoption, OnActive, OnOpening;
    CountersWhileStanding(trace, es, k, fallback, i, j);
    AcceptanceShape(trace[j], k, es[j].msg, es[j].day);
  }

  // ---- Agreement with the peer -------------------------------------------------------------

  lemma {:induction false} ReplayIsLocal(q: seq<Update>, channelId: Bytes32)
    requires Stamped(q, channelId)
    ensures Replay(q, channelId) == LocalOf(q)
  {
    if q != [] {
      assert forall i :: 0 <= i < |q| - 1 ==> q[..|q| - 1][i] == q[i];
      ReplayIsLocal(q[..|q| - 1], channelId);
      var u := q[|q| - 1];
      if u.Local? && u.u.Add? {
        assert u.u.htlc.(channelId := channelId) == u.u.htlc;
      }
    }
  }

  /**
   * After a reconnect the peer folds the replayed updates of the host into its own pending ones, in
   * whatever order it keeps them. If its fold succeeds, the signature the host sends along verifies
   * on the state the peer computed.
   */
  lemma {:induction false} PeerAcceptsReplay(c: Channel, k: Keys, day: U32, peerQueue: seq<Update>, signed: Cross)
    requires Invariant(c) && Stamped(c.data.uncommitted, k.channelId)
    requires SignedNext(c.data.lcss, c.data.uncommitted, k, day) == Ok(signed)
    requires RemoteOf(peerQueue) == Replay(c.data.uncommitted, k.channelId)
    requires LocalOf(peerQueue) == RemoteOf(c.data.uncommitted)
    requires Fold(Reverse(c.data.lcss), peerQueue).Ok?
    ensures var mine := Fold(Reverse(c.data.lcss), peerQueue).value;
      VerifyRemoteSig(mine.(blockDay := day, remoteSigOfLocal := signed.localSigOfRemote), k.host)
  {
    hide SoundState, Encodes;
    ReplayIsLocal(c.data.uncommitted, k.channelId);
    PeerComputesMirror(c.data.lcss, c.data.uncommitted, peerQueue);
    var next := Fold(c.data.lcss, c.data.uncommitted).value;
    assert Reverse(next.(blockDay := day)) == Reverse(next).(blockDay := day);
    EncodesIgnoresSigs(Reverse(next).(blockDay := day), signed.localSigOfRemote);
  }

  /** So it is for every channel of every run: the host's HTLCs are stamped, and the peer accepts the replay. */
  lemma {:induction false} ReplayAgreesInEveryRun(
      trace: seq<Channel>, es: seq<Event>, k: Keys, fallback: Policy, policy: Policy, refund: Bytes, n: nat,
      day: U32, peerQueue: seq<Update>, signed: Cross)
    requires IsRun(trace, es, k, fallback) && n < |trace|
    requires policy.initialClientBalance <= policy.capacity && trace[0] == NewChannel(policy, refund)
    ensures Stamped(trace[n].data.uncommitted, k.channelId)
    ensures var d := trace[n].data;
      && SignedNext(d.lcss, d.uncommitted, k, day) == Ok(signed)
      && RemoteOf(peerQueue) == Replay(d.uncommitted, k.channelId) && LocalOf(peerQueue) == RemoteOf(d.uncommitted)
      && Fold(Reverse(d.lcss), peerQueue).Ok? ==>
        VerifyRemoteSig(Fold(Reverse(d.lcss), peerQueue).value.(blockDay := day, remoteSigOfLocal := signed.localSigOfRemote), k.host)
  {
    hide Invariant, Respond, Admissible, SignedNext, VerifyRemoteSig, Fold, Replay, LocalOf, RemoteOf, Reverse, AllGranted, GivenAccounted;
    TrackedInEveryRun(trace, es, k, fallback, policy, refund, n);
    var d := trace[n].data;
    if && SignedNext(d.lcss, d.uncommitted, k, day) == Ok(signed)
       && RemoteOf(peerQueue) == Replay(d.uncommitted, k.channelId) && LocalOf(peerQueue) == RemoteOf(d.uncommitted)
       && Fold(Reverse(d.lcss), peerQueue).Ok? {
      PeerAcceptsReplay(trace[n], k, day, peerQueue, signed);
    }
  }

  lemma {:induction false} EncodesIgnoresSigs(l: Cross, sig: Sig)
    ensures Encodes(l.(remoteSigOfLocal := sig)) == Encodes(l)
    ensures CoveredOf(l.(remoteSigOfLocal := sig)) == CoveredOf(l)
  {
  }

  // ---- A shrinking resize under pending updates --------------------------------------------

  function PendingHtlc(amount: U64): Htlc {
    Htlc(Zeros(32), 1, amount, Zeros(32), 0, Zeros(ONION_SIZE), [])
  }

  /** An active channel of 1000 sat, all of it the host's, with one pending HTLC of 600 sat. */
  function CrowdedChannel(): Channel {
    var init := Init(1_000_000, 0, 12, 1_000_000, 0, []);
    var lcss := Lcss(true, [1], init, 0, 1_000_000, 0, 0, 0, [], [], NoSig, NoSig);
    Channel(ChannelData(lcss, [Local(Add(PendingHtlc(600_000)))], [], [], false, None, [1], true, Some(500), None, false), {}, [], {})
  }

  lemma {:induction false} CrowdedIsSound()
    ensures Invariant(CrowdedChannel())
  {
    hide SoundState, QueueSound;
    var h := PendingHtlc(600_000);
    var idle := CrowdedChannel().(data := CrowdedChannel().data.(uncommitted := []));
    IdleIsSound(idle.data.lcss);
    EmptyQueueSound(idle.data.lcss);
    PushLocalAddKeeps(idle.data.lcss, [], h);
    PushKeeps(idle, Local(Add(h)));
    assert [] + [Local(Add(h))] == [Local(Add(h))];
  }

  /**
   * `handle_resize_channel` looks at the stored balance only: it shrinks this channel to 500 sat and
   * stores a queue that no longer folds. `ResizeFoldsIff` says exactly when that happens.
   */
  lemma {:induction false} ResizeCanStrandQueue(k: Keys, fallback: Policy)
    ensures Invariant(CrowdedChannel())
    ensures var r := OnResize(CrowdedChannel(), k, 500, true, fallback);
      && r.result.Ok? && r.channel.data.lcss.init.capacity == 500_000
      && Fold(r.channel.data.lcss, r.channel.data.uncommitted) == Err(NegativeBalance(500_000, 600_000))
  {
    hide SoundState, QueueSound;
    CrowdedIsSound();
    var c, r := CrowdedChannel(), OnResize(CrowdedChannel(), k, 500, true, fallback);
    assert c.data.uncommitted[..0] == [];
    assert Fold(r.channel.data.lcss, []) == Ok(r.channel.data.lcss);
  }
}

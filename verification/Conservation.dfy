/**
 * Conservation in every run, whatever the peer does: it may reuse ids and shrink the channel under its
 * pending updates.
 */
module Conservation {
  import opened Base
  import opened State
  import opened StateLaws
  import opened HtlcIds
  import opened Channel
  import opened ChannelLaws
  import opened ChannelRuns

  /** The capacity of a state is exactly what the two sides own in it. */
  ghost predicate Backed(s: Covered) {
    s.localBalance + s.remoteBalance + Sum(s.incoming) + Sum(s.outgoing) == s.capacity
  }

  ghost predicate AllBacked(c: Channel) {
    var d := c.data;
    && Backed(CoveredOf(d.lcss))
    && (d.proposedOverride.Some? ==> Backed(CoveredOf(d.proposedOverride.value)))
    && (forall s :: s in c.signed ==> Backed(s))
    && !d.suspended
    && (Unopened(d) ==> c.signed == {} && d.uncommitted == [] && d.lcss.incoming == [] && d.lcss.outgoing == [])
  }

  // ---- States ------------------------------------------------------------------------------

  lemma {:induction false} FoldedIsBacked(l: Cross, q: seq<Update>, day: U32)
    requires Backed(CoveredOf(l)) && Fold(l, q).Ok?
    ensures Backed(CoveredOf(Fold(l, q).value.(blockDay := day)))
  {
    FoldConserves(l, q);
    FoldKeepsHeader(l, q);
  }

  lemma {:induction false} SignedNextIsBacked(l: Cross, q: seq<Update>, k: Keys, day: U32)
    requires Backed(CoveredOf(l))
    ensures var s := SignedNext(l, q, k, day); s.Ok? ==> Backed(CoveredOf(s.value))
  {
    hide Fold, Encodes, Backed;
    if Fold(l, q).Ok? {
      FoldedIsBacked(l, q, day);
      SigsDoNotMatter(Fold(l, q).value.(blockDay := day));
    }
  }

  lemma {:induction false} SigsDoNotMatter(l: Cross)
    ensures forall a: Sig, b: Sig :: CoveredOf(l.(remoteSigOfLocal := a, localSigOfRemote := b)) == CoveredOf(l)
    ensures forall a: Sig :: CoveredOf(l.(localSigOfRemote := a)) == CoveredOf(l)
  {
  }

  lemma {:induction false} IdleIsBacked(l: Cross)
    requires l.incoming == [] && l.outgoing == []
    ensures Backed(CoveredOf(l)) <==> l.localBalance + l.remoteBalance == l.init.capacity
  {
  }

  // ---- Handlers ----------------------------------------------------------------------------

  /** State and override stay, and what is signed anew is backed. */
  lemma {:induction false} StaysBacked(c: Channel, c': Channel)
    requires AllBacked(c) && c'.data.lcss == c.data.lcss && !c'.data.suspended
    requires c'.data.proposedOverride == c.data.proposedOverride
    requires forall s :: s in c'.signed ==> s in c.signed || Backed(s)
    requires Unopened(c'.data) ==> Unopened(c.data) && c'.data.uncommitted == c.data.uncommitted && c'.signed == c.signed
    ensures AllBacked(c')
  {
    hide Backed;
  }

  /** A backed state is installed, and nothing else is signed. */
  lemma {:induction false} InstalledIsBacked(c: Channel, c': Channel)
    requires AllBacked(c) && Backed(CoveredOf(c'.data.lcss)) && !c'.data.suspended && !Unopened(c'.data)
    requires c'.data.proposedOverride == c.data.proposedOverride || c'.data.proposedOverride.None?
    requires c'.signed <= c.signed + {CoveredOf(c'.data.lcss)}
    ensures AllBacked(c')
  {
    hide Backed;
  }

  lemma {:induction false} OpeningBacks(c: Channel, k: Keys, msg: StateUpdate, day: U32)
    requires AllBacked(c) && DeriveStatus(c.data) == Opening
    ensures AllBacked(OnOpening(c, k, msg, day).channel)
  {
    hide Backed, OnOpening;
    var c' := OnOpening(c, k, msg, day).channel;
    OpeningShape(c, k, msg, day);
    if c' != c {
      IdleIsBacked(c.data.lcss);
      IdleIsBacked(c'.data.lcss);
      InstalledIsBacked(c, c');
    }
  }

  lemma {:induction false} RepairBacks(c: Channel)
    requires AllBacked(c)
    ensures AllBacked(Repaired(c))
  {
    hide Backed;
  }

  lemma {:induction false} CommitBacks(c: Channel, k: Keys, msg: StateUpdate, day: U32)
    requires AllBacked(c) && DeriveStatus(c.data) == Active
    ensures AllBacked(OnRepaired(c, k, msg, day).channel)
  {
    hide Backed, VerifyRemoteSig, Encodes, LocalOf, RemoteOf, Fold;
    var c' := OnRepaired(c, k, msg, day).channel;
    if c' != c {
      FoldedIsBacked(c.data.lcss, c.data.uncommitted, msg.blockDay);
      SigsDoNotMatter(Fold(c.data.lcss, c.data.uncommitted).value.(blockDay := msg.blockDay));
      InstalledIsBacked(c, c');
    }
  }

  lemma {:induction false} OverrideBacks(c: Channel, k: Keys, msg: StateUpdate, day: U32)
    requires AllBacked(c)
    ensures AllBacked(OnOverrideAcceptance(c, k, msg, day).channel)
  {
    hide Backed, VerifyRemoteSig, Encodes, DroppedIds, UncountedIds;
    var c' := OnOverrideAcceptance(c, k, msg, day).channel;
    if c' != c {
      SigsDoNotMatter(c.data.proposedOverride.value);
      InstalledIsBacked(c, c');
    }
  }

  lemma {:induction false} StateUpdateBacks(c: Channel, k: Keys, msg: StateUpdate, day: U32)
    requires AllBacked(c)
    ensures AllBacked(OnStateUpdate(c, k, msg, day).channel)
  {
    hide AllBacked, OnOpening, OnRepaired, OnOverrideAcceptance;
    match DeriveStatus(c.data)
    case Opening => OpeningBacks(c, k, msg, day);
    case Overriding => OverrideBacks(c, k, msg, day);
    case Active =>
      RepairBacks(c);
      CommitBacks(Repaired(c), k, msg, day);
    case _ =>
  }

  lemma {:induction false} LcssBacks(c: Channel, k: Keys, msg: Cross)
    requires AllBacked(c)
    requires VerifyRemoteSig(msg, k.host) ==> CoveredOf(Reverse(msg)) in c.signed
    ensures AllBacked(OnLcss(c, k, msg).channel)
  {
    hide Backed, VerifyRemoteSig, Reverse, DroppedIds, UncountedIds;
    var c' := OnLcss(c, k, msg).channel;
    if c'.data.lcss != c.data.lcss {
      InstalledIsBacked(c, c');
    } else {
      StaysBacked(c, c');
    }
  }

  lemma {:induction false} PeerUpdateBacks(c: Channel, h: Htlc, r: PendingUpdate, safe: bool)
    requires AllBacked(c)
    ensures AllBacked(OnUpdateAdd(c, h).channel)
    ensures r.Fulfill? ==> AllBacked(OnUpdateFulfill(c, r, safe).channel)
    ensures r.Fail? ==> AllBacked(OnUpdateFail(c, r).channel)
    ensures r.FailMalformed? ==> AllBacked(OnUpdateFailMalformed(c, r).channel)
  {
    hide Backed, Fold, HasKey, HasId;
  }

  lemma {:induction false} ResizeBacks(c: Channel, k: Keys, sat: U64, clientSigned: bool, fallback: Policy)
    requires AllBacked(c)
    ensures AllBacked(OnResize(c, k, sat, clientSigned, fallback).channel)
  {
    hide Sum, Encodes, RoutingFor;
    var c' := OnResize(c, k, sat, clientSigned, fallback).channel;
    if c' != c {
      InstalledIsBacked(c, c');
    }
  }

  lemma {:induction false} ReconnectBacks(c: Channel, k: Keys, day: U32)
    requires AllBacked(c)
    ensures AllBacked(OnReconnect(c, k, day).channel)
  {
    hide Backed, SignedNext;
    RepairBacks(c);
    var repaired := Repaired(c);
    SignedNextIsBacked(repaired.data.lcss, repaired.data.uncommitted, k, day);
    StaysBacked(repaired, OnReconnect(c, k, day).channel);
  }

  lemma {:induction false} ResolveBacks(c: Channel, k: Keys, r: PendingUpdate, day: U32)
    requires AllBacked(c) && !r.Add?
    ensures AllBacked(OnLocalResolve(c, k, r, day).channel)
  {
    hide Backed, SignedNext;
    SignedNextIsBacked(c.data.lcss, c.data.uncommitted + [Local(r)], k, day);
    if HasId(c.data.lcss.incoming, r.id) {
      StaysBacked(c, OnLocalResolve(c, k, r, day).channel);
    }
  }

  lemma {:induction false} HostAddBacks(c: Channel, k: Keys, h: Htlc, day: U32, addSent: bool, stateSent: bool)
    requires AllBacked(c) && DeriveStatus(c.data) == Active
    ensures AllBacked(OnHostAdd(c, k, h, day, addSent, stateSent).channel)
  {
    hide Backed, SignedNext;
    SignedNextIsBacked(c.data.lcss, c.data.uncommitted + [Local(Add(h))], k, day);
    StaysBacked(c, OnHostAdd(c, k, h, day, addSent, stateSent).channel);
  }

  lemma {:induction false} DirectPaymentBacks(c: Channel, k: Keys, h: Htlc, day: U32)
    requires AllBacked(c) && CountersFit(c.data)
    ensures AllBacked(OnDirectPayment(c, k, h, day).channel)
  {
    hide AllBacked, SignedNext, LocalOf, Fold;
    var r := OnDirectPayment(c, k, h, day);
    if r.channel != c {
      HostAddBacks(c, k, h.(id := NextHtlcId(c.data), channelId := k.channelId), day, true, true);
    }
  }

  lemma {:induction false} ProposalBacks(c: Channel, k: Keys, init: Init, local: U64, remote: U64, day: U32, d: ChannelData, why: Fault)
    requires AllBacked(c) && local + remote == init.capacity
    requires d.lcss == c.data.lcss && d.uncommitted == c.data.uncommitted && !d.suspended && d.localErrors == c.data.localErrors
    ensures AllBacked(ProposeSigned(c, k, OverrideState(c.data, init, local, remote, day), d, why).channel)
  {
    hide Backed, Encodes;
    var proposal := OverrideState(c.data, init, local, remote, day);
    IdleIsBacked(proposal);
    SigsDoNotMatter(proposal);
    var c' := ProposeSigned(c, k, proposal, d, why).channel;
    if c' != c {
      assert Backed(CoveredOf(c'.data.proposedOverride.value));
    }
  }

  lemma {:induction false} OperatorBacks(c: Channel, k: Keys, fallback: Policy, e: Event)
    requires AllBacked(c) && FromOperator(e) && Possible(c, k, e)
    ensures AllBacked(Respond(c, k, fallback, e).channel)
  {
    hide Backed, ProposeSigned, OnSetChannel;
    match e
    case AcceptResize(max) => StaysBacked(c, c.(data := c.data.(acceptingResizeSat := max)));
    case ProposeOverride(newLocal, day) =>
      var local := if newLocal.Some? then newLocal.value else c.data.lcss.localBalance;
      if local <= c.data.lcss.init.capacity {
        ProposalBacks(c, k, c.data.lcss.init, local, c.data.lcss.init.capacity - local, day, c.data, HostOverride);
      }
    case SetChannel(params, force, day) =>
      var d' := SetChannelData(c.data, params, fallback);
      var init, remote := SetChannelShape(c, k, params, force, day, fallback);
      StaysBacked(c, c.(data := d'));
      ProposalBacks(c, k, init, init.capacity - remote, remote, day, d', ParameterOverride);
  }

  /** Every event that is possible at all keeps every state backed. */
  lemma {:induction false} EventBacks(c: Channel, k: Keys, fallback: Policy, e: Event)
    requires AllBacked(c) && Possible(c, k, e)
    ensures AllBacked(Respond(c, k, fallback, e).channel)
  {
    hide AllBacked, OnStateUpdate, OnUpdateAdd, OnUpdateFulfill, OnUpdateFail, OnUpdateFailMalformed, OnLcss,
         OnResize, OnReconnect, OnHostAdd, OnDirectPayment, OnLocalResolve, OnSetChannel, OnProposeOverride, LocalOf, Fold;
    match e
    case PeerStateUpdate(msg, day) => StateUpdateBacks(c, k, msg, day);
    case PeerAdd(h) => PeerUpdateBacks(c, h, Add(h), true);
    case PeerFulfill(r, safe) => ResolutionBacks(c, r, safe);
    case PeerFail(r) => ResolutionBacks(c, r, true);
    case PeerFailMalformed(r) => ResolutionBacks(c, r, true);
    case PeerError(text) => ErrorBacks(c, EmptyReason, text);
    case PeerLcss(lcss) => LcssBacks(c, k, lcss);
    case PeerResize(sat, clientSigned) => ResizeBacks(c, k, sat, clientSigned, fallback);
    case PeerReconnect(day) => ReconnectBacks(c, k, day);
    case HostAdd(h, day, addSent, stateSent) => HostAddBacks(c, k, h, day, addSent, stateSent);
    case HostDirectPayment(h, day) => DirectPaymentBacks(c, k, h, day);
    case HostResolve(r, day) => ResolveBacks(c, k, r, day);
    case HostError(fault) => ErrorBacks(c, fault, []);
    case _ => OperatorBacks(c, k, fallback, e);
  }

  lemma {:induction false} ResolutionBacks(c: Channel, r: PendingUpdate, safe: bool)
    requires AllBacked(c)
    ensures r.Fulfill? ==> AllBacked(OnUpdateFulfill(c, r, safe).channel)
    ensures r.Fail? ==> AllBacked(OnUpdateFail(c, r).channel)
    ensures r.FailMalformed? ==> AllBacked(OnUpdateFailMalformed(c, r).channel)
  {
    hide AllBacked, OnUpdateFulfill, OnUpdateFail, OnUpdateFailMalformed, OnUpdateAdd;
    PeerUpdateBacks(c, Htlc(Zeros(32), 0, 0, Zeros(32), 0, [], []), r, safe);
  }

  lemma {:induction false} ErrorBacks(c: Channel, fault: Fault, text: string)
    requires AllBacked(c)
    ensures AllBacked(MarkErrored(c, fault)) && AllBacked(MarkRemoteErrored(c, text))
  {
    hide Backed;
  }

  // ---- Runs --------------------------------------------------------------------------------

  /** A run in which the peer may do whatever signatures allow. */
  predicate IsAnyRun(trace: seq<Channel>, es: seq<Event>, k: Keys, fallback: Policy) {
    && |trace| == |es| + 1
    && forall i :: 0 <= i < |es| ==>
         Possible(trace[i], k, es[i]) && trace[i + 1] == Respond(trace[i], k, fallback, es[i]).channel
  }

  lemma {:induction false} BackedInEveryRun(trace: seq<Channel>, es: seq<Event>, k: Keys, fallback: Policy,
                                            policy: Policy, refund: Bytes, n: nat)
    requires IsAnyRun(trace, es, k, fallback) && n < |trace|
    requires policy.initialClientBalance <= policy.capacity && trace[0] == NewChannel(policy, refund)
    ensures AllBacked(trace[n])
  {
    hide AllBacked, Respond, Possible;
    if n == 0 {
      NewChannelIsBacked(policy, refund);
    } else {
      BackedInEveryRun(trace, es, k, fallback, policy, refund, n - 1);
      EventBacks(trace[n - 1], k, fallback, es[n - 1]);
      assert trace[n - 1 + 1] == Respond(trace[n - 1], k, fallback, es[n - 1]).channel;
    }
  }

  lemma {:induction false} NewChannelIsBacked(p: Policy, refund: Bytes)
    requires p.initialClientBalance <= p.capacity
    ensures AllBacked(NewChannel(p, refund))
  {
    hide Backed;
    IdleIsBacked(NewChannel(p, refund).data.lcss);
  }

  /**
   * In every run, however the peer behaves, the stored state, the proposed override and every state
   * ever signed are backed.
   */
  lemma {:induction false} CapacityIsConserved(trace: seq<Channel>, es: seq<Event>, k: Keys, fallback: Policy,
                                               policy: Policy, refund: Bytes, n: nat)
    requires IsAnyRun(trace, es, k, fallback) && n < |trace|
    requires policy.initialClientBalance <= policy.capacity && trace[0] == NewChannel(policy, refund)
    ensures Backed(CoveredOf(trace[n].data.lcss))
    ensures trace[n].data.proposedOverride.Some? ==> Backed(CoveredOf(trace[n].data.proposedOverride.value))
    ensures forall s :: s in trace[n].signed ==> Backed(s)
  {
    hide Backed, Respond, Possible, NewChannel;
    BackedInEveryRun(trace, es, k, fallback, policy, refund, n);
  }
}

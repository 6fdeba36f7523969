/**
 * The ids the host gives to its HTLCs: which HTLC an id names over a whole run, and exactly when the
 * next id is one that was given before.
 */
module ChannelIds {
  import opened Base
  import opened State
  import opened StateLaws
  import opened HtlcIds
  import opened Channel
  import opened ChannelLaws
  import opened ChannelRuns

  /** Every HTLC the host adds carries the id of the channel. */
  ghost predicate Stamped(q: seq<Update>, channelId: Bytes32) {
    forall i :: 0 <= i < |q| && q[i].Local? && q[i].u.Add? ==> q[i].u.htlc.channelId == channelId
  }

  /** A pending HTLC of the host has the number its update will have. */
  ghost predicate Numbered(counter: nat, us: seq<PendingUpdate>) {
    forall i :: 0 <= i < |us| && us[i].Add? ==> us[i].htlc.id == counter + i + 1
  }

  /** The committed and the pending HTLCs of the host. */
  function Pool(d: ChannelData): seq<Htlc> {
    d.lcss.outgoing + AddsOf(LocalOf(d.uncommitted))
  }

  predicate IsPending(d: ChannelData, id: U64) {
    HasId(AddsOf(LocalOf(d.uncommitted)), id)
  }

  predicate Granted(given: seq<Grant>, h: Htlc) {
    Grant(h.id, h.paymentHash) in given
  }

  predicate WasGiven(given: seq<Grant>, id: U64) {
    exists i :: 0 <= i < |given| && given[i].id == id
  }

  /** Every HTLC of the host that is stored or that it ever signed was given its id. */
  ghost predicate AllGranted(c: Channel) {
    && (forall h :: h in Pool(c.data) ==> Granted(c.given, h))
    && (forall s, h :: s in c.signed && h in s.outgoing ==> Granted(c.given, h))
  }

  /** An id that was given is counted, pending or withdrawn; and only withdrawn ones were given twice. */
  ghost predicate GivenAccounted(c: Channel) {
    && (forall i :: 0 <= i < |c.given| ==>
          c.given[i].id <= c.data.lcss.localUpdates || IsPending(c.data, c.given[i].id) || c.given[i].id in c.withdrawn)
    && (forall i, j :: 0 <= i < j < |c.given| && c.given[i].id == c.given[j].id ==> c.given[i].id in c.withdrawn)
    && (forall id :: id in c.withdrawn ==> WasGiven(c.given, id))
  }

  ghost predicate Tracked(c: Channel, channelId: Bytes32) {
    && Stamped(c.data.uncommitted, channelId)
    && Numbered(c.data.lcss.localUpdates, LocalOf(c.data.uncommitted))
    && AllGranted(c) && GivenAccounted(c)
    && (Unopened(c.data) ==> c.given == [])
  }

  // ---- How a channel moves -----------------------------------------------------------------

  /** New signatures and the new state name only HTLCs that the channel knew. */
  ghost predicate NothingInvented(c: Channel, c': Channel) {
    && (forall h :: h in c'.data.lcss.outgoing ==> h in Pool(c.data) || exists s :: s in c.signed && h in s.outgoing)
    && (forall s, h :: s in c'.signed && s !in c.signed && h in s.outgoing ==> h in Pool(c'.data))
    && (Unopened(c'.data) ==> Unopened(c.data))
  }

  predicate SameLogs(c: Channel, c': Channel) {
    c'.given == c.given && c'.withdrawn == c.withdrawn
  }

  predicate StaysPut(c: Channel, c': Channel) {
    && c'.data.uncommitted == c.data.uncommitted && c'.data.lcss.localUpdates == c.data.lcss.localUpdates
    && c'.data.lcss.outgoing == c.data.lcss.outgoing && SameLogs(c, c')
  }

  /** One more update that is not an HTLC of the host. */
  predicate Grows(c: Channel, c': Channel) {
    && |c'.data.uncommitted| == |c.data.uncommitted| + 1
    && var u := c'.data.uncommitted[|c.data.uncommitted|];
    && c'.data.uncommitted == c.data.uncommitted + [u] && !(u.Local? && u.u.Add?)
    && c'.data.lcss == c.data.lcss && SameLogs(c, c')
  }

  /** One more HTLC of the host, under the next id. */
  predicate Adds(c: Channel, c': Channel, channelId: Bytes32) {
    && |c'.data.uncommitted| == |c.data.uncommitted| + 1
    && var u := c'.data.uncommitted[|c.data.uncommitted|];
    && u.Local? && u.u.Add? && u.u.htlc.id == NextHtlcId(c.data) && u.u.htlc.channelId == channelId
    && c'.data.uncommitted == c.data.uncommitted + [u] && c'.data.lcss == c.data.lcss
    && c'.given == Give(c, u.u.htlc).given && c'.withdrawn == c.withdrawn && !Unopened(c'.data)
  }

  /** The queue becomes part of the state. */
  predicate Commits(c: Channel, c': Channel) {
    && c'.data.uncommitted == [] && SameLogs(c, c')
    && c'.data.lcss.localUpdates == c.data.lcss.localUpdates + |LocalOf(c.data.uncommitted)|
  }

  /** Another state replaces the stored one and the queue. */
  predicate Replaces(c: Channel, c': Channel) {
    && c'.data.uncommitted == [] && c'.given == c.given
    && c'.withdrawn == Withdraw(c, c'.data.lcss).withdrawn
  }

  predicate Opens(c: Channel, c': Channel) {
    Unopened(c.data) && c'.data.uncommitted == [] && SameLogs(c, c')
  }

  ghost predicate Moves(c: Channel, c': Channel, channelId: Bytes32) {
    && NothingInvented(c, c')
    && (StaysPut(c, c') || Grows(c, c') || Adds(c, c', channelId) || Commits(c, c') || Replaces(c, c') || Opens(c, c'))
  }

  // ---- What a move keeps -------------------------------------------------------------------

  lemma {:induction false} AddsOfMember(us: seq<PendingUpdate>, h: Htlc)
    ensures h in AddsOf(us) <==> Add(h) in us
  {
    if us != [] {
      AddsOfMember(us[..|us| - 1], h);
      assert us == us[..|us| - 1] + [us[|us| - 1]];
    }
  }

  /** What one more update does to the pending HTLCs of the host. */
  lemma {:induction false} PoolPush(d: ChannelData, u: Update)
    ensures var d' := d.(uncommitted := d.uncommitted + [u]);
      && LocalOf(d'.uncommitted) == (if u.Local? then LocalOf(d.uncommitted) + [u.u] else LocalOf(d.uncommitted))
      && var adds := AddsOf(LocalOf(d.uncommitted));
      && AddsOf(LocalOf(d'.uncommitted)) == if u.Local? && u.u.Add? then adds + [u.u.htlc] else adds
  {
    var us := LocalOf(d.uncommitted);
    Pushed(d.lcss, d.uncommitted, u);
    if u.Local? {
      assert (us + [u.u])[..|us + [u.u]| - 1] == us;
    } else {
      assert us + [] == us;
    }
    assert AddsOf(us) + [] == AddsOf(us);
  }

  lemma {:induction false} HasIdPush(hs: seq<Htlc>, h: Htlc, id: U64)
    ensures HasId(hs + [h], id) <==> HasId(hs, id) || h.id == id
  {
    var all := hs + [h];
    assert all[|hs|] == h;
    if HasId(hs, id) {
      var i :| 0 <= i < |hs| && hs[i].id == id;
      assert all[i].id == id;
    }
  }

  lemma {:induction false} QueueMoveKeeps(c: Channel, c': Channel, channelId: Bytes32)
    requires Tracked(c, channelId) && (StaysPut(c, c') || Grows(c, c') || Adds(c, c', channelId))
    ensures Stamped(c'.data.uncommitted, channelId)
    ensures Numbered(c'.data.lcss.localUpdates, LocalOf(c'.data.uncommitted))
  {
    hide AllGranted, GivenAccounted, Unopened, LocalOf, AddsOf;
    if !StaysPut(c, c') {
      PoolPush(c.data, c'.data.uncommitted[|c.data.uncommitted|]);
    }
  }

  lemma {:induction false} GrantsKeep(c: Channel, c': Channel, channelId: Bytes32)
    requires AllGranted(c) && Moves(c, c', channelId)
    ensures AllGranted(c')
  {
    hide Withdraw, Unopened, Granted;
    GrantsGrow(c, c', channelId);
    PoolIsKnown(c, c', channelId);
    forall h | h in Pool(c'.data)
      ensures Granted(c'.given, h)
    {
      if h in c'.data.lcss.outgoing && h !in Pool(c.data) {
        var s :| s in c.signed && h in s.outgoing;
        assert Granted(c.given, h);
      }
    }
  }

  lemma {:induction false} GrantsGrow(c: Channel, c': Channel, channelId: Bytes32)
    requires Moves(c, c', channelId)
    ensures forall h :: Granted(c.given, h) ==> Granted(c'.given, h)
  {
    hide NothingInvented, Unopened, Withdraw;
  }

  lemma {:induction false} PoolIsKnown(c: Channel, c': Channel, channelId: Bytes32)
    requires Moves(c, c', channelId)
    ensures forall h :: h in Pool(c'.data) ==> h in c'.data.lcss.outgoing || h in Pool(c.data) || Granted(c'.given, h)
  {
    hide NothingInvented, Unopened, Withdraw;
    if Grows(c, c') || Adds(c, c', channelId) {
      PoolPush(c.data, c'.data.uncommitted[|c.data.uncommitted|]);
    }
  }

  /** The next id is neither counted nor pending. */
  lemma {:induction false} NextIdIsFree(c: Channel)
    requires Invariant(c)
    ensures NextHtlcId(c.data) > c.data.lcss.localUpdates
    ensures forall id: U64 :: IsPending(c.data, id) ==> id < NextHtlcId(c.data)
  {
    hide SoundState, Fold, Distinct, Increasing, KeysDistinct;
    var hs, adds := c.data.lcss.outgoing, AddsOf(LocalOf(c.data.uncommitted));
    forall i | 0 <= i < |adds|
      ensures adds[i].id < NextHtlcId(c.data)
    {
      assert (hs + adds)[|hs| + i] == adds[i];
    }
  }

  lemma {:induction false} PendingAfterAdd(c: Channel, c': Channel, channelId: Bytes32)
    requires Adds(c, c', channelId)
    ensures forall id: U64 :: IsPending(c'.data, id) <==> IsPending(c.data, id) || id == NextHtlcId(c.data)
  {
    hide LocalOf, AddsOf, HasId, Unopened;
    var h := c'.data.uncommitted[|c.data.uncommitted|].u.htlc;
    PoolPush(c.data, Local(Add(h)));
    forall id: U64
      ensures IsPending(c'.data, id) <==> IsPending(c.data, id) || id == h.id
    {
      HasIdPush(AddsOf(LocalOf(c.data.uncommitted)), h, id);
    }
  }

  lemma {:induction false} AddingAccounts(c: Channel, c': Channel, channelId: Bytes32)
    requires Invariant(c) && GivenAccounted(c) && Adds(c, c', channelId)
    ensures GivenAccounted(c')
  {
    hide Invariant, Unopened, IsPending, LocalOf, WasGiven;
    NextIdIsFree(c);
    PendingAfterAdd(c, c', channelId);
    WasGivenGrows(c.given, c'.given);
    assert forall i :: 0 <= i < |c.given| ==> c'.given[i] == c.given[i];
  }

  lemma {:induction false} WasGivenGrows(given: seq<Grant>, given': seq<Grant>)
    requires given <= given'
    ensures forall id :: WasGiven(given, id) ==> WasGiven(given', id)
  {
    forall id | WasGiven(given, id)
      ensures WasGiven(given', id)
    {
      var i :| 0 <= i < |given| && given[i].id == id;
      assert given'[i].id == id;
    }
  }

  lemma {:induction false} PendingWasGiven(c: Channel, id: U64)
    requires AllGranted(c) && IsPending(c.data, id)
    ensures WasGiven(c.given, id)
  {
    var adds := AddsOf(LocalOf(c.data.uncommitted));
    var i :| 0 <= i < |adds| && adds[i].id == id;
    assert adds[i] in Pool(c.data);
    var j :| 0 <= j < |c.given| && c.given[j] == Grant(adds[i].id, adds[i].paymentHash);
  }

  lemma {:induction false} DroppedArePending(d: ChannelData, counter: nat, id: U64)
    ensures id in DroppedIds(d, counter) <==> counter < id && IsPending(d, id)
  {
  }

  lemma {:induction false} UncountedWereGiven(c: Channel, counter: nat, id: U64)
    ensures id in UncountedIds(c, counter) <==> counter < id <= c.data.lcss.localUpdates && WasGiven(c.given, id)
  {
  }

  lemma {:induction false} ReplacingAccounts(c: Channel, c': Channel)
    requires AllGranted(c) && GivenAccounted(c) && Replaces(c, c')
    ensures GivenAccounted(c')
  {
    hide AllGranted, IsPending, WasGiven, DroppedIds, UncountedIds;
    var counter := c'.data.lcss.localUpdates;
    forall id: U64
      ensures id in c'.withdrawn <==>
        (|| id in c.withdrawn
         || (counter < id && (IsPending(c.data, id) || (id <= c.data.lcss.localUpdates && WasGiven(c.given, id)))))
    {
      DroppedArePending(c.data, counter, id);
      UncountedWereGiven(c, counter, id);
    }
    forall id | id in c'.withdrawn
      ensures WasGiven(c'.given, id)
    {
      if IsPending(c.data, id) {
        PendingWasGiven(c, id);
      }
    }
    forall i | 0 <= i < |c.given|
      ensures WasGiven(c.given, c.given[i].id)
    {
      GivenAt(c.given, i);
    }
  }

  lemma {:induction false} GivenAt(given: seq<Grant>, i: nat)
    requires i < |given|
    ensures WasGiven(given, given[i].id)
  {
  }

  lemma {:induction false} CommittingAccounts(c: Channel, c': Channel)
    requires Invariant(c) && GivenAccounted(c) && Commits(c, c')
    ensures GivenAccounted(c')
  {
    hide Invariant, WasGiven, IsPending;
    NextIdIsFree(c);
  }

  lemma {:induction false} GrowingAccounts(c: Channel, c': Channel)
    requires GivenAccounted(c) && (StaysPut(c, c') || Grows(c, c'))
    ensures GivenAccounted(c')
  {
    hide WasGiven;
    if Grows(c, c') {
      PoolPush(c.data, c'.data.uncommitted[|c.data.uncommitted|]);
    }
  }

  /** However a channel moves, its ids stay tracked. */
  lemma {:induction false} MoveKeeps(c: Channel, c': Channel, channelId: Bytes32)
    requires Invariant(c) && Tracked(c, channelId) && Moves(c, c', channelId)
    ensures Tracked(c', channelId)
  {
    hide Invariant, AllGranted, GivenAccounted, StaysPut, Grows, Adds, Commits, Replaces, Unopened;
    GrantsKeep(c, c', channelId);
    if StaysPut(c, c') || Grows(c, c') {
      QueueMoveKeeps(c, c', channelId);
      GrowingAccounts(c, c');
      LogsStay(c, c', channelId);
    } else if Adds(c, c', channelId) {
      QueueMoveKeeps(c, c', channelId);
      AddingAccounts(c, c', channelId);
      LogsStay(c, c', channelId);
    } else {
      QueueGone(c', channelId, c);
      if Commits(c, c') {
        CommittingAccounts(c, c');
      } else if Replaces(c, c') {
        ReplacingAccounts(c, c');
      } else {
        NothingGiven(c, c');
      }
    }
  }

  lemma {:induction false} LogsStay(c: Channel, c': Channel, channelId: Bytes32)
    requires StaysPut(c, c') || Grows(c, c') || Adds(c, c', channelId)
    ensures c'.given == c.given || !Unopened(c'.data)
  {
  }

  lemma {:induction false} QueueGone(c': Channel, channelId: Bytes32, c: Channel)
    requires Commits(c, c') || Replaces(c, c') || Opens(c, c')
    ensures Stamped(c'.data.uncommitted, channelId) && c'.given == c.given
    ensures Numbered(c'.data.lcss.localUpdates, LocalOf(c'.data.uncommitted))
  {
  }

  lemma {:induction false} NothingGiven(c: Channel, c': Channel)
    requires GivenAccounted(c) && c.given == [] && Opens(c, c')
    ensures GivenAccounted(c')
  {
    assert forall id :: !WasGiven(c.given, id);
  }

  // ---- Every event is a move ---------------------------------------------------------------

  lemma {:induction false} NoMove(c: Channel, channelId: Bytes32)
    ensures Moves(c, c, channelId)
  {
    hide Grows, Adds, Commits, Replaces, Opens;
  }

  /** A state signed for the stored queue names only stored HTLCs. */
  lemma {:induction false} SignedNextIsKnown(d: ChannelData, k: Keys, day: U32)
    ensures var s := SignedNext(d.lcss, d.uncommitted, k, day);
      s.Ok? ==> forall h :: h in s.value.outgoing ==> h in Pool(d)
  {
    hide Encodes;
    var s := SignedNext(d.lcss, d.uncommitted, k, day);
    if s.Ok? {
      forall h | h in s.value.outgoing
        ensures h in Pool(d)
      {
        Origin(d.lcss, d.uncommitted, h);
      }
    }
  }

  lemma {:induction false} OpeningMoves(c: Channel, k: Keys, msg: StateUpdate, day: U32)
    requires Invariant(c) && DeriveStatus(c.data) == Opening
    ensures Moves(c, OnOpening(c, k, msg, day).channel, k.channelId)
  {
    hide SoundState, QueueSound, OnOpening, HtlcsEncode, Grows, Adds, Commits, Replaces;
    OpeningShape(c, k, msg, day);
    NoMove(c, k.channelId);
  }

  lemma {:induction false} ActiveMoves(c: Channel, k: Keys, msg: StateUpdate, day: U32)
    requires Invariant(c) && DeriveStatus(c.data) == Active
    ensures Moves(c, OnActive(c, k, msg, day).channel, k.channelId)
  {
    hide SoundState, QueueSound, HtlcsEncode, StaysPut, Grows, Adds, Replaces, Opens, VerifyRemoteSig, Encodes, Deduplicate;
    RepairedIsSame(c);
    NoMove(c, k.channelId);
    var c' := OnActive(c, k, msg, day).channel;
    if c' != c {
      FoldKeepsHeader(c.data.lcss, c.data.uncommitted);
      forall h | h in c'.data.lcss.outgoing
        ensures h in Pool(c.data)
      {
        Origin(c.data.lcss, c.data.uncommitted, h);
      }
      assert Commits(c, c');
      assert NothingInvented(c, c');
    }
  }

  lemma {:induction false} OverrideMoves(c: Channel, k: Keys, msg: StateUpdate, day: U32)
    requires Invariant(c)
    ensures Moves(c, OnOverrideAcceptance(c, k, msg, day).channel, k.channelId)
  {
    hide SoundState, QueueSound, HtlcsEncode, StaysPut, Grows, Adds, Commits, Opens, VerifyRemoteSig, Encodes, DroppedIds, UncountedIds;
    NoMove(c, k.channelId);
    var c' := OnOverrideAcceptance(c, k, msg, day).channel;
    if c' != c {
      assert Replaces(c, c');
      assert NothingInvented(c, c');
    }
  }

  lemma {:induction false} StateUpdateMoves(c: Channel, k: Keys, msg: StateUpdate, day: U32)
    requires Invariant(c)
    ensures Moves(c, OnStateUpdate(c, k, msg, day).channel, k.channelId)
  {
    hide Invariant, Moves, OnOpening, OnActive, OnOverrideAcceptance;
    match DeriveStatus(c.data)
    case Opening => OpeningMoves(c, k, msg, day);
    case Overriding => OverrideMoves(c, k, msg, day);
    case Active => ActiveMoves(c, k, msg, day);
    case _ => NoMove(c, k.channelId);
  }

  lemma {:induction false} LcssMoves(c: Channel, k: Keys, msg: Cross)
    requires Invariant(c)
    requires VerifyRemoteSig(msg, k.host) ==> CoveredOf(Reverse(msg)) in c.signed
    ensures Moves(c, OnLcss(c, k, msg).channel, k.channelId)
  {
    hide SoundState, QueueSound, HtlcsEncode, Grows, Adds, Commits, Opens, VerifyRemoteSig, DroppedIds, UncountedIds;
    NoMove(c, k.channelId);
    var c' := OnLcss(c, k, msg).channel;
    if c'.data.lcss != c.data.lcss || c'.data.uncommitted != c.data.uncommitted {
      assert c' == Withdraw(c, Reverse(msg)).(data := c'.data) && c'.data.lcss == Reverse(msg);
      assert CoveredOf(Reverse(msg)).outgoing == c'.data.lcss.outgoing;
      assert Replaces(c, c');
    }
  }

  /** Handlers that leave state, queue and logs alone and sign at most what is stored. */
  lemma {:induction false} StillMoves(c: Channel, c': Channel, channelId: Bytes32)
    requires StaysPut(c, c') && (Unopened(c'.data) ==> Unopened(c.data))
    requires forall s, h :: s in c'.signed && s !in c.signed && h in s.outgoing ==> h in Pool(c.data)
    ensures Moves(c, c', channelId)
  {
    hide Grows, Adds, Commits, Replaces, Opens;
    assert Pool(c'.data) == Pool(c.data);
  }

  lemma {:induction false} GrowthMoves(c: Channel, c': Channel, channelId: Bytes32)
    requires Grows(c, c') && (Unopened(c'.data) ==> Unopened(c.data))
    requires forall s, h :: s in c'.signed && s !in c.signed && h in s.outgoing ==> h in Pool(c'.data)
    ensures Moves(c, c', channelId)
  {
    hide StaysPut, Grows, Adds, Commits, Replaces, Opens;
    assert c'.data.lcss == c.data.lcss by { GrowsKeepsState(c, c'); }
  }

  lemma {:induction false} GrowsKeepsState(c: Channel, c': Channel)
    requires Grows(c, c')
    ensures c'.data.lcss == c.data.lcss
  {
  }

  lemma {:induction false} PushMoves(c: Channel, u: Update, channelId: Bytes32)
    requires !(u.Local? && u.u.Add?)
    ensures Moves(c, Push(c, u), channelId)
  {
    GrowthMoves(c, Push(c, u), channelId);
  }

  lemma {:induction false} ErrorMoves(c: Channel, fault: Fault, text: string, channelId: Bytes32)
    ensures Moves(c, MarkErrored(c, fault), channelId) && Moves(c, MarkRemoteErrored(c, text), channelId)
  {
    StillMoves(c, MarkErrored(c, fault), channelId);
    StillMoves(c, MarkRemoteErrored(c, text), channelId);
  }

  lemma {:induction false} PeerUpdateMoves(c: Channel, h: Htlc, r: PendingUpdate, safe: bool, channelId: Bytes32)
    ensures Moves(c, OnUpdateAdd(c, h).channel, channelId)
    ensures r.Fulfill? ==> Moves(c, OnUpdateFulfill(c, r, safe).channel, channelId)
    ensures r.Fail? ==> Moves(c, OnUpdateFail(c, r).channel, channelId)
    ensures r.FailMalformed? ==> Moves(c, OnUpdateFailMalformed(c, r).channel, channelId)
  {
    hide Moves, Fold, HasKey, HasId, DeriveStatus;
    NoMove(c, channelId);
    PushMoves(c, Remote(Add(h)), channelId);
    PushMoves(c, Remote(r), channelId);
    ErrorMoves(c, AddAboveBalance, [], channelId);
    ErrorMoves(c, FulfillTooLate, [], channelId);
    ErrorMoves(c, EmptyReason, [], channelId);
  }

  lemma {:induction false} ResizeMoves(c: Channel, k: Keys, sat: U64, clientSigned: bool, fallback: Policy)
    ensures Moves(c, OnResize(c, k, sat, clientSigned, fallback).channel, k.channelId)
  {
    hide Moves, Encodes, RoutingFor;
    NoMove(c, k.channelId);
    var c' := OnResize(c, k, sat, clientSigned, fallback).channel;
    if c' != c {
      StillMoves(c, c', k.channelId);
    }
  }

  lemma {:induction false} ReconnectMoves(c: Channel, k: Keys, day: U32)
    requires Invariant(c)
    ensures Moves(c, OnReconnect(c, k, day).channel, k.channelId)
  {
    hide Moves, SignedNext, Deduplicate, Invariant;
    RepairedIsSame(c);
    SignedNextIsKnown(c.data, k, day);
    StillMoves(c, OnReconnect(c, k, day).channel, k.channelId);
  }

  lemma {:induction false} ResolveMoves(c: Channel, k: Keys, r: PendingUpdate, day: U32)
    requires !r.Add? && Invariant(c)
    ensures Moves(c, OnLocalResolve(c, k, r, day).channel, k.channelId)
  {
    hide Moves, SignedNext, HasId, SoundState, QueueSound, HtlcsEncode;
    NoMove(c, k.channelId);
    var c' := OnLocalResolve(c, k, r, day).channel;
    if c' != c {
      SignedNextIsKnown(Push(c, Local(r)).data, k, day);
      GrowthMoves(c, c', k.channelId);
    }
  }

  /** An HTLC of the host under the next id, however far its two messages got. */
  lemma {:induction false} HostAddMoves(c: Channel, k: Keys, h: Htlc, day: U32, addSent: bool, stateSent: bool)
    requires MayHostAdd(c.data, k, h)
    ensures Moves(c, OnHostAdd(c, k, h, day, addSent, stateSent).channel, k.channelId)
  {
    hide SignedNext, StaysPut, Grows, Commits, Replaces, Opens, LocalOf, AddsOf, Fold;
    SignedNextIsKnown(Push(c, Local(Add(h))).data, k, day);
    assert Adds(c, OnHostAdd(c, k, h, day, addSent, stateSent).channel, k.channelId);
  }

  lemma {:induction false} DirectPaymentMoves(c: Channel, k: Keys, h: Htlc, day: U32)
    requires CountersFit(c.data)
    ensures Moves(c, OnDirectPayment(c, k, h, day).channel, k.channelId)
  {
    hide Moves, SignedNext, LocalOf, Fold;
    NoMove(c, k.channelId);
    var r := OnDirectPayment(c, k, h, day);
    if r.channel != c {
      HostAddMoves(c, k, h.(id := NextHtlcId(c.data), channelId := k.channelId), day, true, true);
    }
  }

  lemma {:induction false} ProposalMoves(c: Channel, k: Keys, init: Init, local: U64, remote: U64, day: U32, d: ChannelData, why: Fault)
    requires d.lcss == c.data.lcss && d.uncommitted == c.data.uncommitted
    ensures Moves(c, ProposeSigned(c, k, OverrideState(c.data, init, local, remote, day), d, why).channel, k.channelId)
  {
    hide Moves, Encodes;
    NoMove(c, k.channelId);
    var c' := ProposeSigned(c, k, OverrideState(c.data, init, local, remote, day), d, why).channel;
    if c' != c {
      StillMoves(c, c', k.channelId);
    }
  }

  lemma {:induction false} OperatorMoves(c: Channel, k: Keys, fallback: Policy, e: Event)
    requires FromOperator(e) && Possible(c, k, e)
    ensures Moves(c, Respond(c, k, fallback, e).channel, k.channelId)
  {
    hide Moves, ProposeSigned, OnSetChannel, DeriveStatus;
    NoMove(c, k.channelId);
    match e
    case AcceptResize(max) => StillMoves(c, c.(data := c.data.(acceptingResizeSat := max)), k.channelId);
    case ProposeOverride(newLocal, day) =>
      var local := if newLocal.Some? then newLocal.value else c.data.lcss.localBalance;
      if local <= c.data.lcss.init.capacity {
        ProposalMoves(c, k, c.data.lcss.init, local, c.data.lcss.init.capacity - local, day, c.data, HostOverride);
      }
    case SetChannel(params, force, day) =>
      var d' := SetChannelData(c.data, params, fallback);
      var init, remote := SetChannelShape(c, k, params, force, day, fallback);
      StillMoves(c, c.(data := d'), k.channelId);
      ProposalMoves(c, k, init, init.capacity - remote, remote, day, d', ParameterOverride);
  }

  /** Every event, whatever the peer does, is a move. */
  lemma {:induction false} EventMoves(c: Channel, k: Keys, fallback: Policy, e: Event)
    requires Invariant(c) && Possible(c, k, e)
    ensures Moves(c, Respond(c, k, fallback, e).channel, k.channelId)
  {
    hide Moves, Invariant, OnStateUpdate, OnUpdateAdd, OnUpdateFulfill, OnUpdateFail, OnUpdateFailMalformed, OnLcss,
         OnResize, OnReconnect, OnHostAdd, OnDirectPayment, OnLocalResolve, OnSetChannel, OnProposeOverride, MayHostAdd, LocalOf;
    match e
    case PeerStateUpdate(msg, day) => StateUpdateMoves(c, k, msg, day);
    case PeerAdd(h) => PeerUpdateMoves(c, h, Add(h), true, k.channelId);
    case PeerFulfill(r, safe) => PeerUpdateMoves(c, AnyHtlc(), r, safe, k.channelId);
    case PeerFail(r) => PeerUpdateMoves(c, AnyHtlc(), r, true, k.channelId);
    case PeerFailMalformed(r) => PeerUpdateMoves(c, AnyHtlc(), r, true, k.channelId);
    case PeerError(text) => ErrorMoves(c, EmptyReason, text, k.channelId);
    case PeerLcss(lcss) => LcssMoves(c, k, lcss);
    case PeerResize(sat, clientSigned) => ResizeMoves(c, k, sat, clientSigned, fallback);
    case PeerReconnect(day) => ReconnectMoves(c, k, day);
    case HostAdd(h, day, addSent, stateSent) => HostAddMoves(c, k, h, day, addSent, stateSent);
    case HostDirectPayment(h, day) => DirectPaymentMoves(c, k, h, day);
    case HostResolve(r, day) => ResolveMoves(c, k, r, day);
    case HostError(fault) => ErrorMoves(c, fault, [], k.channelId);
    case _ => OperatorMoves(c, k, fallback, e);
  }

  function AnyHtlc(): Htlc {
    Htlc(Zeros(32), 0, 0, Zeros(32), 0, [], [])
  }

  // ---- When the next id was given before ---------------------------------------------------

  lemma {:induction false} NewChannelIsTracked(p: Policy, refund: Bytes, channelId: Bytes32)
    requires p.initialClientBalance <= p.capacity
    ensures Tracked(NewChannel(p, refund), channelId)
  {
  }

  lemma {:induction false} TrackedInEveryRun(trace: seq<Channel>, es: seq<Event>, k: Keys, fallback: Policy,
                                             policy: Policy, refund: Bytes, n: nat)
    requires IsRun(trace, es, k, fallback) && n < |trace|
    requires policy.initialClientBalance <= policy.capacity && trace[0] == NewChannel(policy, refund)
    ensures Invariant(trace[n]) && Tracked(trace[n], k.channelId)
  {
    hide Invariant, Tracked, Moves, Respond, Possible, Disciplined;
    ReachableIsSound(trace, es, k, fallback, policy, refund, n);
    if n == 0 {
      NewChannelIsTracked(policy, refund, k.channelId);
    } else {
      TrackedInEveryRun(trace, es, k, fallback, policy, refund, n - 1);
      EventMoves(trace[n - 1], k, fallback, es[n - 1]);
      assert trace[n - 1 + 1] == Respond(trace[n - 1], k, fallback, es[n - 1]).channel;
      MoveKeeps(trace[n - 1], trace[n], k.channelId);
    }
  }

  lemma {:induction false} NextIdIsNewIff(c: Channel, channelId: Bytes32)
    requires Invariant(c) && Tracked(c, channelId) && CountersFit(c.data)
    ensures WasGiven(c.given, NextHtlcId(c.data)) <==> NextHtlcId(c.data) in c.withdrawn
  {
    hide Invariant, IsPending, AllGranted, LocalOf;
    NextIdIsFree(c);
  }

  /** The peer accepted an override, or the host took over the peer's state. */
  predicate Installs(c: Channel, e: Event, c': Channel) {
    || (e.PeerStateUpdate? && c.data.proposedOverride.Some? && c'.data.proposedOverride.None?)
    || (e.PeerLcss? && c'.data.lcss != c.data.lcss)
  }

  /**
   * The event installs a state whose counter is below an id that the host gave: to an HTLC that is
   * still pending and is dropped, or to one that the old counter covered.
   */
  predicate TakesBack(c: Channel, e: Event, c': Channel, id: U64) {
    && Installs(c, e, c') && c'.data.lcss.localUpdates < id
    && (IsPending(c.data, id) || (id <= c.data.lcss.localUpdates && WasGiven(c.given, id)))
  }

  lemma {:induction false} WithdrawnBy(c: Channel, k: Keys, fallback: Policy, e: Event)
    requires Possible(c, k, e) && Invariant(c)
    ensures var c' := Respond(c, k, fallback, e).channel;
      c'.withdrawn == if Installs(c, e, c') then Withdraw(c, c'.data.lcss).withdrawn else c.withdrawn
  {
    hide Withdraw, Invariant;
    match e
    case PeerStateUpdate(msg, day) => StateUpdateWithdraws(c, k, msg, day);
    case PeerLcss(lcss) => LcssWithdraws(c, k, lcss);
    case _ => OthersWithdrawNothing(c, k, fallback, e);
  }

  lemma {:induction false} StateUpdateWithdraws(c: Channel, k: Keys, msg: StateUpdate, day: U32)
    ensures var c' := OnStateUpdate(c, k, msg, day).channel;
      c'.withdrawn ==
        if c.data.proposedOverride.Some? && c'.data.proposedOverride.None? then Withdraw(c, c'.data.lcss).withdrawn else c.withdrawn
  {
    hide Fold, Encodes, DroppedIds, UncountedIds, Deduplicate, LocalOf, RemoteOf;
  }

  lemma {:induction false} LcssWithdraws(c: Channel, k: Keys, msg: Cross)
    ensures var c' := OnLcss(c, k, msg).channel;
      c'.withdrawn == if c'.data.lcss != c.data.lcss then Withdraw(c, c'.data.lcss).withdrawn else c.withdrawn
  {
    hide VerifyRemoteSig, Reverse, DroppedIds, UncountedIds;
  }

  lemma {:induction false} OthersWithdrawNothing(c: Channel, k: Keys, fallback: Policy, e: Event)
    requires Possible(c, k, e) && !e.PeerStateUpdate? && !e.PeerLcss?
    ensures Respond(c, k, fallback, e).channel.withdrawn == c.withdrawn
  {
    hide Fold, Encodes, Deduplicate, LocalOf, HasId, HasKey, DeriveStatus, OnSetChannel, OnUpdateFulfill, OnUpdateFail,
         OnUpdateFailMalformed, OnResize;
    if e.SetChannel? {
      var init, remote := SetChannelShape(c, k, e.params, e.force, e.day, fallback);
    } else if e.PeerResize? {
      ResizeWithdrawsNothing(c, k, e.newCapacitySat, e.clientSigned, fallback);
    } else if e.PeerFulfill? || e.PeerFail? || e.PeerFailMalformed? {
      ResolutionWithdrawsNothing(c, e);
    }
  }

  lemma {:induction false} ResizeWithdrawsNothing(c: Channel, k: Keys, sat: U64, clientSigned: bool, fallback: Policy)
    ensures OnResize(c, k, sat, clientSigned, fallback).channel.withdrawn == c.withdrawn
  {
    hide Encodes, DeriveStatus, RoutingFor;
  }

  lemma {:induction false} ResolutionWithdrawsNothing(c: Channel, e: Event)
    requires WellFormed(e)
    ensures e.PeerFulfill? ==> OnUpdateFulfill(c, e.r, e.safe).channel.withdrawn == c.withdrawn
    ensures e.PeerFail? ==> OnUpdateFail(c, e.r).channel.withdrawn == c.withdrawn
    ensures e.PeerFailMalformed? ==> OnUpdateFailMalformed(c, e.r).channel.withdrawn == c.withdrawn
  {
    hide HasKey, HasId, Listens;
  }

  /** An event withdraws exactly the ids it takes back. */
  lemma {:induction false} WithdrawnIff(c: Channel, k: Keys, fallback: Policy, e: Event, id: U64)
    requires Possible(c, k, e) && Invariant(c)
    ensures var c' := Respond(c, k, fallback, e).channel;
      id in c'.withdrawn <==> id in c.withdrawn || TakesBack(c, e, c', id)
  {
    hide Respond, Possible, Invariant, Installs, IsPending, WasGiven, DroppedIds, UncountedIds;
    var c' := Respond(c, k, fallback, e).channel;
    WithdrawnBy(c, k, fallback, e);
    DroppedArePending(c.data, c'.data.lcss.localUpdates, id);
    UncountedWereGiven(c, c'.data.lcss.localUpdates, id);
  }

  /** Some event before the `n`-th took the id back. */
  ghost predicate TakenBack(trace: seq<Channel>, es: seq<Event>, n: nat, id: U64)
    requires |trace| == |es| + 1 && n <= |es|
  {
    exists i :: 0 <= i < n && TakesBack(trace[i], es[i], trace[i + 1], id)
  }

  lemma {:induction false} WithdrawnInRun(trace: seq<Channel>, es: seq<Event>, k: Keys, fallback: Policy,
                                          policy: Policy, refund: Bytes, n: nat, id: U64)
    requires IsRun(trace, es, k, fallback) && n < |trace|
    requires policy.initialClientBalance <= policy.capacity && trace[0] == NewChannel(policy, refund)
    ensures id in trace[n].withdrawn <==> TakenBack(trace, es, n, id)
  {
    hide Respond, Possible, Disciplined, TakesBack, Invariant;
    if n > 0 {
      WithdrawnInRun(trace, es, k, fallback, policy, refund, n - 1, id);
      ReachableIsSound(trace, es, k, fallback, policy, refund, n - 1);
      WithdrawnIff(trace[n - 1], k, fallback, es[n - 1], id);
      assert trace[n - 1 + 1] == Respond(trace[n - 1], k, fallback, es[n - 1]).channel;
      assert TakesBack(trace[n - 1], es[n - 1], trace[n - 1 + 1], id) ==> TakenBack(trace, es, n, id);
    }
  }

  /**
   * At every moment of every run, the id the host will give next is one it gave before if and only if
   * some accepted override or adopted state took that id back.
   */
  lemma {:induction false} NextIdRepeatsIff(trace: seq<Channel>, es: seq<Event>, k: Keys, fallback: Policy,
                                            policy: Policy, refund: Bytes, n: nat)
    requires IsRun(trace, es, k, fallback) && n < |trace| && CountersFit(trace[n].data)
    requires policy.initialClientBalance <= policy.capacity && trace[0] == NewChannel(policy, refund)
    ensures WasGiven(trace[n].given, NextHtlcId(trace[n].data)) <==> TakenBack(trace, es, n, NextHtlcId(trace[n].data))
  {
    hide Respond, Possible, Disciplined, TakenBack, Invariant, Tracked, LocalOf, WasGiven, NewChannel;
    TrackedInEveryRun(trace, es, k, fallback, policy, refund, n);
    NextIdIsNewIff(trace[n], k.channelId);
    WithdrawnInRun(trace, es, k, fallback, policy, refund, n, NextHtlcId(trace[n].data));
  }

  lemma {:induction false} PendingIsAt(counter: nat, us: seq<PendingUpdate>, i: nat)
    requires Numbered(counter, us) && counter + i + 1 < U64_BOUND
    ensures HasId(AddsOf(us), counter + i + 1) <==> i < |us| && us[i].Add?
  {
    hide AddsOf;
    var adds := AddsOf(us);
    if HasId(adds, counter + i + 1) {
      var j :| 0 <= j < |adds| && adds[j].id == counter + i + 1;
      AddsOfMember(us, adds[j]);
      var m :| 0 <= m < |us| && us[m] == Add(adds[j]);
    }
    if i < |us| && us[i].Add? {
      AddsOfMember(us, us[i].htlc);
      var j :| 0 <= j < |adds| && adds[j] == us[i].htlc;
    }
  }

  /**
   * Accepting an override that was proposed against the stored state: the next id is one given before
   * exactly if the second pending update of the host adds an HTLC, or an earlier installation took it back.
   */
  lemma {:induction false} AcceptedOverrideRepeatsIff(c: Channel, k: Keys, msg: StateUpdate, day: U32)
    requires Invariant(c) && Tracked(c, k.channelId) && c.data.lcss.localUpdates + 2 < U64_BOUND
    requires c.data.proposedOverride.Some?
    requires c.data.proposedOverride.value.localUpdates == c.data.lcss.localUpdates + 1
    requires OnOverrideAcceptance(c, k, msg, day).channel.data.proposedOverride.None?
    ensures var c', us := OnOverrideAcceptance(c, k, msg, day).channel, LocalOf(c.data.uncommitted);
      && NextHtlcId(c'.data) == c.data.lcss.localUpdates + 2
      && (WasGiven(c'.given, NextHtlcId(c'.data)) <==>
            (|us| >= 2 && us[1].Add?) || NextHtlcId(c'.data) in c.withdrawn)
  {
    hide Invariant, OnOverrideAcceptance, AllGranted, WasGiven, AddsOf;
    var c', id := OnOverrideAcceptance(c, k, msg, day).channel, c.data.lcss.localUpdates + 2;
    AcceptanceShape(c, k, msg, day);
    PendingIsAt(c.data.lcss.localUpdates, LocalOf(c.data.uncommitted), 1);
    if IsPending(c.data, id) {
      PendingWasGiven(c, id);
    }
    if WasGiven(c.given, id) {
      GivenIsAccounted(c, id);
    }
  }

  lemma {:induction false} AcceptanceShape(c: Channel, k: Keys, msg: StateUpdate, day: U32)
    requires c.data.proposedOverride.Some?
    requires OnOverrideAcceptance(c, k, msg, day).channel.data.proposedOverride.None?
    ensures var c' := OnOverrideAcceptance(c, k, msg, day).channel;
      && c'.given == c.given && c'.data.uncommitted == [] && NextHtlcId(c'.data) == c'.data.lcss.localUpdates + 1
      && c'.data.lcss.localUpdates == c.data.proposedOverride.value.localUpdates
      && c'.data.lcss.remoteUpdates == c.data.proposedOverride.value.remoteUpdates
  {
    hide Encodes, DroppedIds, UncountedIds;
  }

  lemma {:induction false} GivenIsAccounted(c: Channel, id: U64)
    requires GivenAccounted(c) && WasGiven(c.given, id)
    ensures id <= c.data.lcss.localUpdates || IsPending(c.data, id) || id in c.withdrawn
  {
    hide IsPending;
  }
}

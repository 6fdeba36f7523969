/**
 * The channel controller of src/channel.rs as the object it is: handlers load a channel, edit a copy,
 * and store it. Each handler is proved against the function that gives its effect on the whole host.
 */
module Controller {
  import opened Base
  import opened State
  import opened StateLaws
  import opened HtlcIds
  import opened Hosted = Channel
  import opened ChannelRuns
  import opened Forwarding
  import opened ForwardingLaws
  import opened HostRuns
  import opened Effects

  /** The later of two writes wins. */
  lemma {:induction false} PutTwice(h: Host, peer: Key, c: Hosted.Channel, c': Hosted.Channel)
    ensures Put(Put(h, peer, c), peer, c') == Put(h, peer, c')
  {
    assert h.channels[peer := c][peer := c'] == h.channels[peer := c'];
  }

  /** What a handler of one channel does to the host; without the channel it reports that and no more. */
  ghost predicate Handled(h: Host, h': Host, peer: Key, reply: Reply, r: Result<(), ChannelError>) {
    h' == Put(h, peer, reply.channel) && r == reply.result
  }

  lemma {:induction false} DeduplicateShortens(q: seq<Update>)
    ensures |Deduplicate(q)| <= |q| && (|Deduplicate(q)| == |q| ==> Deduplicate(q) == q)
  {
    if q != [] {
      DeduplicateShortens(q[..|q| - 1]);
      assert q == q[..|q| - 1] + [q[|q| - 1]];
    }
  }

  lemma {:induction false} FailureHasId(u: Update)
    ensures FailureOf(u).Some? ==> !u.u.Add?
  {
  }

  lemma {:induction false} DispatchStops(h: Host, w: World, peer: Key, before: ChannelData, d: ChannelData, hs: seq<Htlc>, n: nat, env: U64 -> Env)
    requires n <= |hs| && DispatchAll(h, w, peer, before, d, hs[..n], env).result.Err?
    ensures DispatchAll(h, w, peer, before, d, hs, env) == DispatchAll(h, w, peer, before, d, hs[..n], env)
    decreases |hs| - n
  {
    if n == |hs| {
      assert hs[..n] == hs;
    } else {
      assert hs[..n + 1][..n] == hs[..n];
      DispatchStops(h, w, peer, before, d, hs, n + 1, env);
    }
  }

  lemma {:induction false} RecoveryStops(h: Host, w: World, peer: Key, d: ChannelData, hs: seq<Htlc>, n: nat, env: U64 -> Env)
    requires n <= |hs| && RecoverIncoming(h, w, peer, d, hs[..n], env).result.Err?
    ensures RecoverIncoming(h, w, peer, d, hs, env) == RecoverIncoming(h, w, peer, d, hs[..n], env)
    decreases |hs| - n
  {
    if n == |hs| {
      assert hs[..n] == hs;
    } else {
      assert hs[..n + 1][..n] == hs[..n];
      RecoveryStops(h, w, peer, d, hs, n + 1, env);
    }
  }

  lemma {:induction false} NothingToRelay(h: Host, w: World, scid: nat, us: seq<Update>, side: Side)
    ensures RelayFailures(h, w, scid, us[..0], side) == Outcome(h, Ok(()))
  {
  }

  lemma {:induction false} RelayNext(h: Host, w: World, scid: nat, us: seq<Update>, n: nat, side: Side)
    requires n < |us|
    ensures var done := RelayFailures(h, w, scid, us[..n], side);
      RelayFailures(h, w, scid, us[..n + 1], side) ==
      if done.result.Err? || FailureOf(us[n]).None? then done
      else ResolveFail(done.host, w, (scid, us[n].u.id), FailureOf(us[n]).value, side)
  {
    assert us[..n + 1][..n] == us[..n];
  }

  /** Once a failure cannot be passed on, the later ones are not tried. */
  lemma {:induction false} RelayStops(h: Host, w: World, scid: nat, us: seq<Update>, n: nat, side: Side)
    requires n <= |us| && RelayFailures(h, w, scid, us[..n], side).result.Err?
    ensures RelayFailures(h, w, scid, us, side) == RelayFailures(h, w, scid, us[..n], side)
    decreases |us| - n
  {
    if n == |us| {
      assert us[..n] == us;
    } else {
      assert us[..n + 1][..n] == us[..n];
      RelayStops(h, w, scid, us, n + 1, side);
    }
  }

  /** The first error ends a pass. */
  lemma {:induction false} EnforceStops(h: Host, w: World, peers: seq<Key>, n: nat, now: nat)
    requires n <= |peers| && Enforce(h, w, peers[..n], now).result.Err?
    ensures Enforce(h, w, peers, now) == Enforce(h, w, peers[..n], now)
    decreases |peers| - n
  {
    if n == |peers| {
      assert peers[..n] == peers;
    } else {
      assert peers[..n + 1][..n] == peers[..n];
      EnforceStops(h, w, peers, n + 1, now);
    }
  }

  lemma {:induction false} FirstExists(w: World, s: set<Place>, some: Place)
    requires some in s
    ensures exists at :: at in s && forall b :: b in s ==> w.rank(at) <= w.rank(b)
  {
    var ranks := set at | at in s :: w.rank(at);
    LeastExists(ranks, w.rank(some));
    var least :| least in ranks && forall r :: r in ranks ==> least <= r;
    var at :| at in s && w.rank(at) == least;
    assert forall b :: b in s ==> w.rank(b) in ranks;
  }

  /** If the host was sound before, it is sound after. */
  ghost predicate StaysSound(w: World, h: Host, h': Host) {
    HostInvariant(w, h) ==> HostInvariant(w, h')
  }

  /** An event that concerns one channel keeps the host sound, if the channel is there and the peer disciplined. */
  lemma {:induction false} WithinIsSound(w: World, h: Host, peer: Key, e: Event)
    requires peer in h.channels && Admissible(h.channels[peer], KeysOf(w, peer), e)
    ensures StaysSound(w, h, Put(h, peer, Respond(h.channels[peer], KeysOf(w, peer), h.policy, e).channel))
  {
    hide HostInvariant, Respond, Possible, Disciplined;
    if HostInvariant(w, h) {
      WithinKeeps(w, h, peer, e);
    }
  }

  /** Nothing is asked of failures, proposals and new parameters. */
  lemma {:induction false} AlwaysAdmissible(c: Hosted.Channel, k: Keys, e: Event)
    requires WellFormed(e) && !e.PeerAdd? && !e.PeerLcss? && !e.PeerResize? && !e.HostAdd? && !e.HostDirectPayment?
    ensures Admissible(c, k, e)
  {
  }

  lemma {:induction false} ResizeIsSound(w: World, h: Host, peer: Key, sat: U64, clientSigned: bool)
    requires peer in h.channels && Admissible(h.channels[peer], KeysOf(w, peer), PeerResize(sat, clientSigned))
    ensures StaysSound(w, h, Put(h, peer, OnResize(h.channels[peer], KeysOf(w, peer), sat, clientSigned, h.policy).channel))
  {
    hide StaysSound, OnResize, Possible, Disciplined;
    WithinIsSound(w, h, peer, PeerResize(sat, clientSigned));
  }

  lemma {:induction false} SetChannelIsSound(w: World, h: Host, peer: Key, params: Params, force: bool)
    requires peer in h.channels
    ensures StaysSound(w, h, Put(h, peer, OnSetChannel(h.channels[peer], KeysOf(w, peer), params, force, h.height / 144, h.policy).channel))
  {
    hide StaysSound, OnSetChannel, Possible, Disciplined;
    AlwaysAdmissible(h.channels[peer], KeysOf(w, peer), SetChannel(params, force, h.height / 144));
    WithinIsSound(w, h, peer, SetChannel(params, force, h.height / 144));
  }

  /** What the logs of a channel hold beside its data. */
  datatype Logs = Logs(signed: set<Covered>, given: seq<Grant>, withdrawn: set<U64>)

  class ChannelController {
    const w: World
    var channels: map<Key, ChannelData>
    var links: map<Place, ForwardLink>
    var preimages: map<Bytes32, Bytes32>
    var height: U32
    var policy: Policy
    var reachable: set<Key>
    /** The HTLCs offered to the host and the answers it gave, in order. */
    var offers: seq<Place>
    var calls: seq<Call>
    ghost var logs: map<Key, Logs>

    /** The store lists different keys at different places. */
    ghost predicate Valid()
      reads this
    {
      && logs.Keys == channels.Keys
      && (forall a: Place, b: Place :: w.rank(a) == w.rank(b) ==> a == b)
    }

    ghost function ChannelAt(peer: Key): Hosted.Channel
      requires Valid() && peer in channels
      reads this
    {
      Channel(channels[peer], logs[peer].signed, logs[peer].given, logs[peer].withdrawn)
    }

    /** The host this object stands for. */
    ghost function View(): (h: Host)
      requires Valid()
      reads this
      ensures h.channels.Keys == channels.Keys
    {
      Host(map p | p in channels :: ChannelAt(p), links, preimages, height, policy, reachable, offers, calls)
    }

    constructor (w: World, policy: Policy)
      requires forall a: Place, b: Place :: w.rank(a) == w.rank(b) ==> a == b
      ensures Valid() && this.w == w
      ensures View() == Host(map[], map[], map[], 0, policy, {}, [], [])
    {
      this.w := w;
      channels, links, preimages, logs := map[], map[], map[], map[];
      height, this.policy, reachable, offers, calls := 0, policy, {}, [], [];
      new;
      assert View().channels == map[];
    }

    // ---- Storage ---------------------------------------------------------------------------

    /** Stores a channel, new or not; `c` says what its logs become. */
    method Store(peer: Key, data: ChannelData, ghost c: Hosted.Channel)
      requires Valid() && c.data == data
      modifies this
      ensures Valid() && channels.Keys == old(channels.Keys) + {peer} && height == old(height)
      ensures View() == Put(old(View()), peer, c)
    {
      ghost var h := View();
      channels := channels[peer := data];
      logs := logs[peer := Logs(c.signed, c.given, c.withdrawn)];
      assert View().channels == h.channels[peer := c];
    }

    method SaveChannel(peer: Key, data: ChannelData)
      requires Valid()
      modifies this
      ensures Valid() && channels.Keys == old(channels.Keys) + {peer}
      ensures View() == Put(old(View()), peer,
                            if peer in old(channels) then old(ChannelAt(peer)).(data := data) else Channel(data, {}, [], {}))
    {
      Store(peer, data, if peer in channels then ChannelAt(peer).(data := data) else Channel(data, {}, [], {}));
    }

    /** Stores a channel together with a state that was signed for it on the way. */
    method SaveSigned(peer: Key, data: ChannelData, l: Cross)
      requires Valid() && peer in channels
      modifies this
      ensures Valid() && channels.Keys == old(channels.Keys)
      ensures View() == Put(old(View()), peer, Log(old(ChannelAt(peer)).(data := data), l))
    {
      Store(peer, data, Log(ChannelAt(peer).(data := data), l));
    }

    method SaveErrored(peer: Key, data: ChannelData, fault: Fault)
      requires Valid() && peer in channels
      modifies this
      ensures Valid() && channels.Keys == old(channels.Keys)
      ensures View() == Put(old(View()), peer, MarkErrored(old(ChannelAt(peer)).(data := data), fault))
    {
      SaveChannel(peer, data.(localErrors := data.localErrors + [fault]));
    }

    /** The hosted peers in the order in which the store lists their keys. */
    method ListChannels() returns (peers: seq<Key>)
      ensures forall i, j :: 0 <= i < j < |peers| ==> peers[i] < peers[j]
      ensures forall p :: p in peers <==> p in channels
    {
      peers := [];
      var rest := channels.Keys;
      while rest != {}
        invariant rest <= channels.Keys
        invariant forall i, j :: 0 <= i < j < |peers| ==> peers[i] < peers[j]
        invariant forall p, q :: p in peers && q in rest ==> p < q
        invariant forall p :: p in channels <==> p in peers || p in rest
        decreases rest
      {
        ghost var some :| some in rest;
        LeastExists(rest, some);
        var p :| p in rest && forall q :: q in rest ==> p <= q;
        assert forall i :: 0 <= i < |peers| ==> peers[i] in peers;
        peers, rest := peers + [p], rest - {p};
      }
    }

    method PeerForHostedScid(scid: nat) returns (peer: Option<Key>)
      requires Valid()
      ensures peer == PeerFor(View(), w, scid)
    {
      var peers := ListChannels();
      for i := 0 to |peers|
        invariant forall j :: 0 <= j < i ==> w.scidOf(peers[j]) != scid
      {
        if w.scidOf(peers[i]) == scid {
          assert peers[i] in View().channels;
          assert Hosts(View(), w, scid);
          return Some(peers[i]);
        }
      }
      peer := None;
    }

    /** The first link in the order of the store that serves the HTLC at the given place. */
    method ForwardLinkForIncoming(from: Place) returns (link: Option<ForwardLink>)
      requires Valid()
      ensures link == if Linked(View(), from) then Some(View().links[LinkOf(View(), w, from)]) else None
    {
      var rest := links.Keys;
      while rest != {}
        invariant rest <= links.Keys
        invariant forall at :: at in links && at !in rest ==> links[at].incoming != from
        decreases rest
      {
        ghost var some :| some in rest;
        FirstExists(w, rest, some);
        var at :| at in rest && forall b :: b in rest ==> w.rank(at) <= w.rank(b);
        if links[at].incoming == from {
          assert at in View().links;
          assert Linked(View(), from);
          ghost var first := LinkOf(View(), w, from);
          assert first in rest && w.rank(first) == w.rank(at);
          return Some(links[at]);
        }
        rest := rest - {at};
      }
      link := None;
    }

    /** The pending queue of a channel folded into its next state. */
    method NextState(data: ChannelData) returns (r: Result<Cross, StateError>)
      ensures r == Fold(data.lcss, data.uncommitted)
    {
      var sm := new StateManager(data.lcss);
      sm.uncommitted := data.uncommitted;
      r := sm.LcssNext();
    }

    method StateUpdateForUncommitted(peer: Key, data: ChannelData) returns (r: Result<Cross, ChannelError>)
      ensures r == SignedNext(data.lcss, data.uncommitted, KeysOf(w, peer), height / 144)
    {
      var next := NextState(data);
      if next.Err? {
        return Err(StateFailed(next.error));
      }
      var l := next.value.(blockDay := height / 144);
      var s := SignWith(l, w.hostKey);
      if s.None? {
        return Err(EncodeFailed);
      }
      r := Ok(s.value);
    }

    // ---- Updates of the peer ---------------------------------------------------------------

    method HandleUpdateAdd(peer: Key, htlc: Htlc) returns (r: Result<(), ChannelError>)
      requires Valid()
      modifies this
      ensures Valid()
      ensures peer !in old(channels) ==> r == Err(NotFound) && View() == old(View())
      ensures peer in old(channels) ==> Handled(old(View()), View(), peer, OnUpdateAdd(old(ChannelAt(peer)), htlc), r)
      ensures peer in old(channels) && Admissible(old(ChannelAt(peer)), KeysOf(w, peer), PeerAdd(htlc)) ==>
        StaysSound(w, old(View()), View())
    {
      hide HostInvariant, Possible, Disciplined, Fold, DeriveStatus;
      if peer !in channels {
        return Err(NotFound);
      }
      if Admissible(ChannelAt(peer), KeysOf(w, peer), PeerAdd(htlc)) {
        WithinIsSound(w, View(), peer, PeerAdd(htlc));
      }
      PutBack(View(), peer);
      var data := channels[peer];
      if DeriveStatus(data) != Active {
        return Ok(());
      }
      var next := NextState(data);
      if next.Err? {
        return Err(StateFailed(next.error));
      }
      if htlc.amount > next.value.remoteBalance {
        SaveErrored(peer, data, AddAboveBalance);
        return Ok(());
      }
      SaveChannel(peer, data.(uncommitted := data.uncommitted + [Remote(Add(htlc))]));
      r := Ok(());
    }

    method HandleUpdateFail(peer: Key, msg: PendingUpdate) returns (r: Result<(), ChannelError>)
      requires Valid() && msg.Fail?
      modifies this
      ensures Valid()
      ensures peer !in old(channels) ==> r == Err(NotFound) && View() == old(View())
      ensures peer in old(channels) ==> Handled(old(View()), View(), peer, OnUpdateFail(old(ChannelAt(peer)), msg), r)
      ensures StaysSound(w, old(View()), View())
    {
      hide HostInvariant, Possible, Disciplined, HasKey, HasId, DeriveStatus;
      if peer !in channels {
        return Err(NotFound);
      }
      AlwaysAdmissible(ChannelAt(peer), KeysOf(w, peer), Event.PeerFail(msg));
      WithinIsSound(w, View(), peer, Event.PeerFail(msg));
      PutBack(View(), peer);
      var data := channels[peer];
      var status := DeriveStatus(data);
      if status != Active && status != Errored {
        return Ok(());
      }
      if HasKey(data.uncommitted, (false, msg.id)) {
        return Ok(());
      }
      if !HasId(data.lcss.outgoing, msg.id) {
        return Ok(());
      }
      if msg.reason == [] {
        SaveErrored(peer, data, EmptyReason);
        return Ok(());
      }
      SaveChannel(peer, data.(uncommitted := data.uncommitted + [Remote(msg)]));
      r := Ok(());
    }

    method HandleUpdateFailMalformed(peer: Key, msg: PendingUpdate) returns (r: Result<(), ChannelError>)
      requires Valid() && msg.FailMalformed?
      modifies this
      ensures Valid()
      ensures peer !in old(channels) ==> r == Err(NotFound) && View() == old(View())
      ensures peer in old(channels) ==> Handled(old(View()), View(), peer, OnUpdateFailMalformed(old(ChannelAt(peer)), msg), r)
      ensures StaysSound(w, old(View()), View())
    {
      hide HostInvariant, Possible, Disciplined, HasKey, HasId, DeriveStatus;
      if peer !in channels {
        return Err(NotFound);
      }
      AlwaysAdmissible(ChannelAt(peer), KeysOf(w, peer), Event.PeerFailMalformed(msg));
      WithinIsSound(w, View(), peer, Event.PeerFailMalformed(msg));
      PutBack(View(), peer);
      var data := channels[peer];
      var status := DeriveStatus(data);
      if status != Active && status != Errored {
        return Ok(());
      }
      if DeliveryFailed in data.localErrors {
        return Ok(());
      }
      if HasKey(data.uncommitted, (false, msg.id)) {
        return Ok(());
      }
      if !HasId(data.lcss.outgoing, msg.id) {
        return Ok(());
      }
      SaveChannel(peer, data.(uncommitted := data.uncommitted + [Remote(msg)]));
      r := Ok(());
    }

    // ---- State updates ---------------------------------------------------------------------

    /** Writes the queue back only when it got shorter. */
    method RepairDuplicates(peer: Key) returns (data: ChannelData)
      requires Valid() && peer in channels
      modifies this
      ensures Valid() && channels.Keys == old(channels.Keys)
      ensures View() == Put(old(View()), peer, Repaired(old(ChannelAt(peer)))) && data == channels[peer]
      ensures height == old(height)
    {
      data := channels[peer];
      PutBack(View(), peer);
      var kept := DeduplicateUncommitted(data.uncommitted);
      DeduplicateShortens(data.uncommitted);
      if |kept| != |data.uncommitted| {
        data := data.(uncommitted := kept);
        SaveChannel(peer, data);
      }
    }

    method HandleOpening(peer: Key, data: ChannelData, msg: StateUpdate) returns (r: Result<(), ChannelError>)
      requires Valid() && peer in channels && data == channels[peer]
      modifies this
      ensures Valid()
      ensures Handled(old(View()), View(), peer, OnOpening(old(ChannelAt(peer)), KeysOf(w, peer), msg, old(height) / 144), r)
    {
      hide Encodes;
      PutBack(View(), peer);
      if AbsDiff(msg.blockDay, height / 144) > 1 {
        return Ok(());
      }
      var lcss := data.lcss.(blockDay := msg.blockDay, localUpdates := 0, remoteUpdates := 0, incoming := [], outgoing := []);
      lcss := lcss.(remoteSigOfLocal := msg.sig);
      if !VerifyRemoteSig(lcss, peer) {
        return Ok(());
      }
      var own := SignWith(lcss, w.hostKey);
      if own.None? {
        return Err(EncodeFailed);
      }
      SaveSigned(peer, data.(lcss := own.value, established := true), own.value);
      r := Ok(());
    }

    /** Commits the queue. What the commit sets off in other channels is not part of this step. */
    method HandleActive(peer: Key, msg: StateUpdate) returns (r: Result<(), ChannelError>)
      requires Valid() && peer in channels
      modifies this
      ensures Valid()
      ensures Handled(old(View()), View(), peer, OnActive(old(ChannelAt(peer)), KeysOf(w, peer), msg, old(height) / 144), r)
    {
      hide OnRepaired, Deduplicate;
      var data := RepairDuplicates(peer);
      r := CommitQueue(peer, data, msg);
    }

    method CommitQueue(peer: Key, data: ChannelData, msg: StateUpdate) returns (r: Result<(), ChannelError>)
      requires Valid() && peer in channels && data == channels[peer]
      modifies this
      ensures Valid()
      ensures Handled(old(View()), View(), peer, OnRepaired(old(ChannelAt(peer)), KeysOf(w, peer), msg, old(height) / 144), r)
    {
      hide Encodes, Fold, LocalOf, RemoteOf, VerifyRemoteSig, SignWith;
      PutBack(View(), peer);
      if data.uncommitted == [] {
        return Ok(());
      }
      var sm := new StateManager(data.lcss);
      sm.uncommitted := data.uncommitted;
      var expectedLocal, expectedRemote := sm.NextLocalUpdates(), sm.NextRemoteUpdates();
      if msg.localUpdates < expectedRemote || msg.remoteUpdates < expectedLocal {
        return Ok(());
      }
      if msg.localUpdates != expectedRemote || msg.remoteUpdates != expectedLocal {
        return Ok(());
      }
      if msg.blockDay != height / 144 {
        return Ok(());
      }
      var next := sm.LcssNext();
      if next.Err? {
        return Err(StateFailed(next.error));
      }
      var lcss := next.value.(blockDay := msg.blockDay, remoteSigOfLocal := msg.sig);
      if !VerifyRemoteSig(lcss, peer) {
        return Ok(());
      }
      var own := SignWith(lcss, w.hostKey);
      if own.None? {
        return Err(EncodeFailed);
      }
      SaveSigned(peer, data.(lcss := own.value, uncommitted := []), own.value);
      r := Ok(());
    }

    method HandleOverrideAcceptance(peer: Key, data: ChannelData, msg: StateUpdate) returns (r: Result<(), ChannelError>)
      requires Valid() && peer in channels && data == channels[peer]
      modifies this
      ensures Valid()
      ensures Handled(old(View()), View(), peer, OnOverrideAcceptance(old(ChannelAt(peer)), KeysOf(w, peer), msg, old(height) / 144), r)
    {
      hide Encodes, DroppedIds, UncountedIds, LocalOf;
      PutBack(View(), peer);
      if data.proposedOverride.None? {
        return Err(InvalidMessage);
      }
      var lcss := data.proposedOverride.value;
      if msg.localUpdates != lcss.remoteUpdates || msg.remoteUpdates != lcss.localUpdates {
        return Ok(());
      }
      if msg.blockDay != height / 144 {
        return Ok(());
      }
      lcss := lcss.(remoteSigOfLocal := msg.sig);
      if !VerifyRemoteSig(lcss, peer) {
        return Ok(());
      }
      var own := SignWith(lcss, w.hostKey);
      if own.None? {
        return Err(EncodeFailed);
      }
      var data' := ChannelData(own.value, [], [], [], false, None, data.refund, true, data.acceptingResizeSat,
                           data.routing, data.channelUpdatePending);
      Store(peer, data', Log(Withdraw(ChannelAt(peer), own.value), own.value).(data := data'));
      r := Ok(());
    }

    /** A state update by the status of the channel; what a commit sets off comes after it. */
    method ApplyStateUpdate(peer: Key, msg: StateUpdate) returns (r: Result<(), ChannelError>)
      requires Valid() && peer in channels
      modifies this
      ensures Valid()
      ensures Handled(old(View()), View(), peer, OnStateUpdate(old(ChannelAt(peer)), KeysOf(w, peer), msg, old(height) / 144), r)
    {
      hide OnOpening, OnActive, OnOverrideAcceptance, DeriveStatus;
      PutBack(View(), peer);
      var data := channels[peer];
      match DeriveStatus(data) {
        case Opening => r := HandleOpening(peer, data, msg);
        case Overriding => r := HandleOverrideAcceptance(peer, data, msg);
        case Active => r := HandleActive(peer, msg);
        case _ => r := Ok(());
      }
    }

    // ---- Reconciliation, capacity and overrides --------------------------------------------

    method HandleLcss(peer: Key, msg: Cross) returns (r: Result<(), ChannelError>)
      requires Valid()
      modifies this
      ensures Valid()
      ensures peer !in old(channels) ==> r == Err(NotFound) && View() == old(View())
      ensures peer in old(channels) ==> Handled(old(View()), View(), peer, OnLcss(old(ChannelAt(peer)), KeysOf(w, peer), msg), r)
      ensures peer in old(channels) && Admissible(old(ChannelAt(peer)), KeysOf(w, peer), PeerLcss(msg)) ==>
        StaysSound(w, old(View()), View())
    {
      hide HostInvariant, Possible, Disciplined, VerifyRemoteSig, Reverse, DroppedIds, UncountedIds, LocalOf;
      if peer !in channels {
        return Err(NotFound);
      }
      if Admissible(ChannelAt(peer), KeysOf(w, peer), PeerLcss(msg)) {
        WithinIsSound(w, View(), peer, PeerLcss(msg));
      }
      PutBack(View(), peer);
      var data := channels[peer];
      if !VerifyRemoteSig(msg, w.hostKey) {
        SaveErrored(peer, data, OwnSignatureWrong);
        return Err(ChannelErrored);
      }
      var reversed := Reverse(msg);
      if !VerifyRemoteSig(reversed, peer) {
        SaveErrored(peer, data, PeerSignatureWrong);
        return Err(ChannelErrored);
      }
      if reversed.localUpdates < data.lcss.localUpdates || reversed.remoteUpdates < data.lcss.remoteUpdates {
        return Ok(());
      } else if reversed.localUpdates == data.lcss.localUpdates && reversed.remoteUpdates == data.lcss.remoteUpdates {
        return Ok(());
      }
      data := data.(lcss := reversed, uncommitted := []);
      Store(peer, data, Withdraw(ChannelAt(peer), reversed).(data := data));
      r := Ok(());
    }

    method HandleResizeChannel(peer: Key, newCapacitySat: U64, clientSigned: bool) returns (r: Result<(), ChannelError>)
      requires Valid()
      modifies this
      ensures Valid()
      ensures peer !in old(channels) ==> r == Err(NotFound) && View() == old(View())
      ensures peer in old(channels) ==>
        Handled(old(View()), View(), peer,
                OnResize(old(ChannelAt(peer)), KeysOf(w, peer), newCapacitySat, clientSigned, old(policy)), r)
      ensures peer in old(channels) && Admissible(old(ChannelAt(peer)), KeysOf(w, peer), PeerResize(newCapacitySat, clientSigned)) ==>
        StaysSound(w, old(View()), View())
    {
      hide HostInvariant, Possible, Disciplined, Encodes, DeriveStatus;
      if peer !in channels {
        return Err(NotFound);
      }
      if Admissible(ChannelAt(peer), KeysOf(w, peer), PeerResize(newCapacitySat, clientSigned)) {
        ResizeIsSound(w, View(), peer, newCapacitySat, clientSigned);
      }
      PutBack(View(), peer);
      var data := channels[peer];
      if DeriveStatus(data) != Active || !clientSigned || data.acceptingResizeSat.None? {
        return Ok(());
      }
      if newCapacitySat > data.acceptingResizeSat.value {
        return Ok(());
      }
      if newCapacitySat * 1000 >= U64_BOUND {
        return Err(InvalidMessage);
      }
      var capacity := newCapacitySat * 1000;
      if capacity <= data.lcss.remoteBalance {
        return Ok(());
      }
      var before := data.lcss.init.capacity;
      var local: int;
      if capacity >= before {
        local := data.lcss.localBalance + (capacity - before);
      } else {
        local := data.lcss.localBalance - (before - capacity);
      }
      if local < 0 || local >= U64_BOUND {
        return Err(InvalidMessage);
      }
      var lcss := data.lcss.(init := data.lcss.init.(capacity := capacity, maxInFlight := capacity), localBalance := local);
      var routing := RoutingFor(data, policy).(htlcMaximum := capacity);
      var own := SignWith(lcss, w.hostKey);
      if own.None? {
        return Err(EncodeFailed);
      }
      SaveSigned(peer, data.(lcss := own.value, acceptingResizeSat := None, channelUpdatePending := true, routing := Some(routing)),
                 own.value);
      r := Ok(());
    }

    method ProposeOverride(peer: Key, newLocal: Option<U64>) returns (r: Result<(), ChannelError>)
      requires Valid()
      modifies this
      ensures Valid()
      ensures peer !in old(channels) ==> r == Err(NotFound) && View() == old(View())
      ensures peer in old(channels) ==>
        Handled(old(View()), View(), peer, OnProposeOverride(old(ChannelAt(peer)), KeysOf(w, peer), newLocal, old(height) / 144), r)
      ensures StaysSound(w, old(View()), View())
    {
      hide HostInvariant, Possible, Disciplined, ProposeSigned, DeriveStatus, OverrideState;
      if peer !in channels {
        return Err(NotFound);
      }
      AlwaysAdmissible(ChannelAt(peer), KeysOf(w, peer), Event.ProposeOverride(newLocal, height / 144));
      WithinIsSound(w, View(), peer, Event.ProposeOverride(newLocal, height / 144));
      PutBack(View(), peer);
      var data := channels[peer];
      if DeriveStatus(data) != Errored && DeriveStatus(data) != Overriding {
        return Err(InvalidMessage);
      }
      var capacity := data.lcss.init.capacity;
      var local := if newLocal.Some? then newLocal.value else data.lcss.localBalance;
      if local > capacity {
        return Err(InvalidMessage);
      }
      r := StoreProposal(peer, OverrideState(data, data.lcss.init, local, capacity - local, height / 144), data, HostOverride);
    }

    method SetChannel(peer: Key, params: Params, force: bool) returns (r: Result<(), ChannelError>)
      requires Valid()
      modifies this
      ensures Valid()
      ensures peer !in old(channels) ==> r == Err(NotFound) && View() == old(View())
      ensures peer in old(channels) ==>
        Handled(old(View()), View(), peer,
                OnSetChannel(old(ChannelAt(peer)), KeysOf(w, peer), params, force, old(height) / 144, old(policy)), r)
      ensures StaysSound(w, old(View()), View())
    {
      hide HostInvariant, Possible, Disciplined, Encodes, AffectsLcss, IsEmpty, NewRouting, NewInit, ProposeSigned, OverrideState;
      if peer !in channels {
        return Err(NotFound);
      }
      SetChannelIsSound(w, View(), peer, params, force);
      PutBack(View(), peer);
      var data := channels[peer];
      if IsEmpty(params) {
        return Ok(());
      }
      var status := DeriveStatus(data);
      if status != Active && status != Overriding {
        return Err(InvalidMessage);
      }
      if status == Active && (data.lcss.incoming != [] || data.lcss.outgoing != [] || data.uncommitted != []) {
        return Err(InvalidMessage);
      }
      if status == Active && AffectsLcss(params) && !force {
        return Err(InvalidMessage);
      }
      var routing := NewRouting(RoutingFor(data, policy), params);
      var updated := data.(routing := Some(routing), channelUpdatePending := true);
      if AffectsLcss(params) || status == Overriding {
        var base := if status == Overriding then data.proposedOverride.value else data.lcss;
        var init := NewInit(base.init, params);
        if init.initialClientBalance > init.capacity {
          return Err(InvalidMessage);
        }
        var remote := Or(params.initialClientBalance, base.remoteBalance);
        if remote > init.capacity {
          return Err(InvalidMessage);
        }
        if routing.htlcMaximum > init.capacity || init.htlcMinimum > routing.htlcMaximum {
          return Err(InvalidMessage);
        }
        r := StoreProposal(peer, OverrideState(data, init, init.capacity - remote, remote, height / 144), updated, ParameterOverride);
        return;
      }
      if routing.htlcMaximum > data.lcss.init.capacity || data.lcss.init.htlcMinimum > routing.htlcMaximum {
        return Err(InvalidMessage);
      }
      SaveChannel(peer, updated);
      r := Ok(());
    }

    /** Signs a proposed override and stores it; a channel without an error gets one. */
    method StoreProposal(peer: Key, proposal: Cross, data: ChannelData, why: Fault) returns (r: Result<(), ChannelError>)
      requires Valid() && peer in channels
      modifies this
      ensures Valid()
      ensures Handled(old(View()), View(), peer, ProposeSigned(old(ChannelAt(peer)), KeysOf(w, peer), proposal, data, why), r)
    {
      hide Encodes;
      PutBack(View(), peer);
      var own := SignWith(proposal, w.hostKey);
      if own.None? {
        return Err(EncodeFailed);
      }
      var errors := data.localErrors;
      if errors == [] {
        errors := [why];
      }
      SaveSigned(peer, data.(proposedOverride := Some(own.value), localErrors := errors), own.value);
      r := Ok(());
    }

    // ---- Resolutions and links -------------------------------------------------------------

    method DropLinkAt(at: Place)
      requires Valid()
      modifies this
      ensures Valid() && channels.Keys == old(channels.Keys)
      ensures View() == DropLink(old(View()), at)
    {
      ghost var h := View();
      links := links - {at};
      assert View().channels == h.channels;
    }

    /** The node is told how an HTLC of a normal channel ends. */
    method ResolveHtlc(call: Call)
      requires Valid()
      modifies this
      ensures Valid() && channels.Keys == old(channels.Keys)
      ensures View() == old(View()).(calls := old(calls) + [call])
    {
      ghost var h := View();
      calls := calls + [call];
      assert View().channels == h.channels;
    }

    method StorePreimage(hash: Bytes32, preimage: Bytes32)
      requires Valid()
      modifies this
      ensures Valid() && channels == old(channels) && channels.Keys == old(channels.Keys)
      ensures View() == old(View()).(preimages := old(preimages)[hash := preimage])
    {
      ghost var h := View();
      preimages := preimages[hash := preimage];
      assert View().channels == h.channels;
    }

    /** `send_local_fulfill` and its siblings: queue a resolution, sign the result, store, then send. */
    method SendLocalResolution(peer: Key, u: PendingUpdate) returns (r: Result<(), ChannelError>)
      requires Valid() && !u.Add?
      modifies this
      ensures Valid() && channels.Keys == old(channels.Keys)
      ensures Outcome(View(), r) == SendLocal(old(View()), w, peer, u)
    {
      hide Fold, Encodes, HasId;
      if peer !in channels {
        return Err(NotFound);
      }
      PutBack(View(), peer);
      var data := channels[peer];
      if !HasId(data.lcss.incoming, u.id) {
        return Ok(());
      }
      data := data.(uncommitted := data.uncommitted + [Local(u)]);
      var update := StateUpdateForUncommitted(peer, data);
      if update.Err? {
        return Err(update.error);
      }
      SaveSigned(peer, data, update.value);
      r := if peer in reachable then Ok(()) else Err(NotSent);
    }

    /** `resolve_forward_fulfill` and `resolve_forward_fail` once the failure is wrapped. */
    method ResolveLink(at: Place, u: PendingUpdate, side: Side) returns (r: Result<(), ChannelError>)
      requires Valid() && (u.Fulfill? || u.Fail?)
      modifies this
      ensures Valid() && channels.Keys == old(channels.Keys)
      ensures Outcome(View(), r) == ResolveForward(old(View()), w, at, u, side)
      ensures r.Ok? ==> r == Ok(())
    {
      hide SendLocal;
      if at !in links {
        return Ok(());
      }
      var link := links[at];
      var source := PeerForHostedScid(link.incoming.0);
      if source.Some? {
        r := SendLocalResolution(source.value, Addressed(u, w.channelIdOf(source.value), link.incoming.1));
        if r.Err? {
          return;
        }
      } else {
        ResolveHtlc(Call(link.offer, link.incoming, AnswerOf(u), Some(Via(link, side, height))));
      }
      DropLinkAt(at);
      r := Ok(());
    }

    method ResolveForwardFail(at: Place, failure: Bytes, side: Side) returns (r: Result<(), ChannelError>)
      requires Valid()
      modifies this
      ensures Valid() && channels.Keys == old(channels.Keys)
      ensures Outcome(View(), r) == ResolveFail(old(View()), w, at, failure, side)
      ensures r.Ok? ==> r == Ok(())
    {
      hide ResolveForward;
      var reason := failure;
      if at in links {
        reason := WrapFailure(w, links[at], failure);
      }
      r := ResolveLink(at, Fail(w.channelIdOf(0), 0, reason), side);
    }

    /** Passes on the failures of a committed queue, up to the first that cannot be passed on. */
    method RelayCommittedFailures(scid: nat, us: seq<Update>, side: Side) returns (r: Result<(), ChannelError>)
      requires Valid()
      modifies this
      ensures Valid()
      ensures Outcome(View(), r) == RelayFailures(old(View()), w, scid, us, side)
    {
      hide ResolveFail, FailureOf, RelayFailures;
      ghost var h := View();
      NothingToRelay(h, w, scid, us, side);
      for i := 0 to |us|
        invariant Valid()
        invariant RelayFailures(h, w, scid, us[..i], side) == Outcome(View(), Ok(()))
      {
        RelayNext(h, w, scid, us, i, side);
        if FailureOf(us[i]).Some? {
          FailureHasId(us[i]);
          var sent := ResolveForwardFail((scid, us[i].u.id), FailureOf(us[i]).value, side);
          if sent.Err? {
            RelayStops(h, w, scid, us, i + 1, side);
            return sent;
          }
        }
      }
      assert us[..|us|] == us;
      r := Ok(());
    }

    // ---- Fulfills --------------------------------------------------------------------------

    method HostedSettlementIsSafe(peer: Key, out: Htlc) returns (r: Result<bool, ChannelError>)
      requires Valid() && peer in channels
      ensures r == SettlementIsSafe(View(), w, peer, out)
    {
      var at := (w.scidOf(peer), out.id);
      if at !in links {
        return Ok(true);
      }
      var source := PeerForHostedScid(links[at].incoming.0);
      if source.Some? {
        return Ok(true);
      }
      if links[at].upstreamExpiry.None? {
        return Ok(false);
      }
      var needed := out.cltvExpiry + RoutingFor(channels[peer], policy).cltvDelta;
      if needed >= 0x1_0000_0000 {
        return Err(InvalidMessage);
      }
      r := Ok(height < out.cltvExpiry && needed <= links[at].upstreamExpiry.value);
    }

    method HandleUpdateFulfill(peer: Key, msg: PendingUpdate) returns (r: Result<(), ChannelError>)
      requires Valid() && msg.Fulfill?
      modifies this
      ensures Valid()
      ensures Outcome(View(), r) == OnFulfill(old(View()), w, peer, msg)
      ensures StaysSound(w, old(View()), View())
    {
      hide HostInvariant, ResolveForward, SettlementIsSafe, HasKey, HasId, DeriveStatus;
      if HostInvariant(w, View()) {
        OnFulfillKeeps(w, View(), peer, msg);
      }
      if peer !in channels {
        return Err(NotFound);
      }
      var data := channels[peer];
      var status := DeriveStatus(data);
      if status != Active && status != Errored {
        return Ok(());
      }
      if DeliveryFailed in data.localErrors || HtlcExpired in data.localErrors {
        return Ok(());
      }
      if HasKey(data.uncommitted, (false, msg.id)) {
        return Ok(());
      }
      var i := Position(data.lcss.outgoing, msg.id);
      HasIdIsPosition(data.lcss.outgoing, msg.id);
      if i == |data.lcss.outgoing| {
        return Ok(());
      }
      if data.lcss.outgoing[i].paymentHash != SHA256(msg.preimage) {
        return Ok(());
      }
      assert Accepts(data, msg);
      ghost var h := View();
      var safe := HostedSettlementIsSafe(peer, data.lcss.outgoing[i]);
      if safe.Err? {
        return Err(safe.error);
      }
      if !safe.value {
        SaveErrored(peer, data, FulfillTooLate);
        return Ok(());
      }
      var side := Side(peer, RoutingFor(data, policy).cltvDelta);
      StorePreimage(data.lcss.outgoing[i].paymentHash, msg.preimage);
      SaveChannel(peer, data.(uncommitted := data.uncommitted + [Remote(msg)]));
      r := ResolveLink((w.scidOf(peer), msg.id), Fulfill(w.channelIdOf(0), 0, msg.preimage), side);
    }

    /** Settles what the host already has the preimage for; `data` was loaded when the recovery began. */
    method RecoverOutgoingHtlcs(peer: Key, data: ChannelData) returns (r: Result<(), ChannelError>)
      requires Valid()
      modifies this
      ensures Valid()
      ensures Outcome(View(), r) == RecoverOutgoing(old(View()), w, peer, data, data.lcss.outgoing)
    {
      hide ResolveForward, SettlementIsSafe, HasKey;
      var hs := data.lcss.outgoing;
      ghost var goal := RecoverOutgoing(View(), w, peer, data, hs);
      for i := 0 to |hs|
        invariant Valid()
        invariant RecoverOutgoing(View(), w, peer, data, hs[i..]) == goal
      {
        var out := hs[i];
        assert hs[i..][0] == out && hs[i..][1..] == hs[i + 1..];
        if peer !in channels {
          return Err(NotFound);
        }
        if HasKey(data.uncommitted, (false, out.id)) {
          continue;
        }
        var safe := HostedSettlementIsSafe(peer, out);
        if safe.Err? {
          return Err(safe.error);
        }
        if !safe.value {
          SaveErrored(peer, data, HtlcOutlived);
          return Ok(());
        }
        if out.paymentHash in preimages {
          var side := Side(peer, RoutingFor(channels[peer], policy).cltvDelta);
          var sent := ResolveLink((w.scidOf(peer), out.id), Fulfill(w.channelIdOf(0), 0, preimages[out.paymentHash]), side);
          if sent.Err? {
            return sent;
          }
        }
      }
      r := Ok(());
    }

    method HandleOutgoingPaymentResult(at: Place, status: PaymentStatus) returns (r: Result<(), ChannelError>)
      requires Valid()
      modifies this
      ensures Valid()
      ensures Outcome(View(), r) == OnPaymentResult(old(View()), w, at, status)
      ensures (at in old(links) ==> TrueReport(status, old(links)[at].paymentHash)) ==> StaysSound(w, old(View()), View())
    {
      hide HostInvariant, SendLocal;
      if (at in links ==> TrueReport(status, links[at].paymentHash)) && HostInvariant(w, View()) {
        PaymentResultKeeps(w, View(), at, status);
      }
      if at !in links {
        return Ok(());
      }
      var link := links[at];
      var source := PeerForHostedScid(link.incoming.0);
      if source.None? {
        return Ok(());
      }
      var id := w.channelIdOf(source.value);
      match status {
        case Succeeded(preimage) =>
          StorePreimage(link.paymentHash, preimage);
          r := SendLocalResolution(source.value, Fulfill(id, link.incoming.1, preimage));
        case Failed(failure) =>
          r := SendLocalResolution(source.value, Fail(id, link.incoming.1, WrapFailure(w, link, failure)));
        case _ =>
          return Ok(());
      }
      if r.Err? {
        return;
      }
      DropLinkAt(at);
      r := Ok(());
    }

    // ---- HTLCs offered to a hosted channel -------------------------------------------------

    method LogOffered(from: Place)
      requires Valid()
      modifies this
      ensures Valid() && channels == old(channels) && logs == old(logs)
      ensures View() == LogOffer(old(View()), from)
    {
      ghost var h := View();
      offers := offers + [from];
      assert View().channels == h.channels;
    }

    /** The checks on an offer, in the order the source makes them. */
    method JudgeOffer(peer: Key, o: Offer, disconnected: bool) returns (v: Verdict)
      requires Valid() && peer in channels
      ensures v == Judge(View(), w, peer, o, disconnected)
    {
      hide Fold, DeriveStatus, Sum, LocalOf;
      var data := channels[peer];
      if DeriveStatus(data) != Active {
        return Refused(ChannelErrored);
      }
      if disconnected {
        return Answered(FailCode(TEMPORARY));
      }
      if o.htlc.paymentHash in preimages {
        return Answered(Settle(preimages[o.htlc.paymentHash]));
      }
      var routing := RoutingFor(data, policy);
      var source := PeerForHostedScid(o.from.0);
      if o.upstreamExpiry.Some? && source.None? {
        if o.htlc.cltvExpiry + routing.cltvDelta >= 0x1_0000_0000 {
          return Refused(InvalidMessage);
        }
        if o.upstreamExpiry.value < o.htlc.cltvExpiry + routing.cltvDelta {
          return Answered(FailCode(INCORRECT_EXPIRY));
        }
      }
      if o.htlc.amount < data.lcss.init.htlcMinimum {
        return Answered(FailCode(BELOW_MINIMUM));
      }
      if o.htlc.amount > routing.htlcMaximum {
        return Answered(FailCode(TEMPORARY));
      }
      var next := NextState(data);
      if next.Err? {
        return Refused(StateFailed(next.error));
      }
      if o.htlc.amount > next.value.localBalance {
        return Answered(FailCode(TEMPORARY));
      }
      if |next.value.incoming| + |next.value.outgoing| + 1 > data.lcss.init.maxAccepted {
        return Answered(FailCode(TEMPORARY));
      }
      var inFlight := Sum(next.value.incoming) + Sum(next.value.outgoing);
      if Saturated(inFlight + o.htlc.amount) > data.lcss.init.maxInFlight {
        return Answered(FailCode(TEMPORARY));
      }
      if !CountersFit(data) {
        return Refused(CountersExhausted);
      }
      v := Accepted;
    }

    /** The new HTLC and its link are stored before anything is sent; a failed message errors the channel. */
    method AddHtlc(peer: Key, data: ChannelData, htlc: Htlc, addSent: bool, stateSent: bool) returns (r: Result<(), ChannelError>)
      requires Valid() && peer in channels && data == channels[peer]
      modifies this
      ensures Valid()
      ensures Handled(old(View()), View(), peer,
                      OnHostAdd(old(ChannelAt(peer)), KeysOf(w, peer), htlc, old(height) / 144, addSent, stateSent), r)
    {
      hide Fold, Encodes;
      ghost var h := View();
      var added := data.(uncommitted := data.uncommitted + [Local(Add(htlc))]);
      ghost var stored := Give(ChannelAt(peer).(data := added), htlc);
      Store(peer, added, stored);
      if !addSent {
        SaveErrored(peer, added, DeliveryFailed);
        PutTwice(h, peer, stored, ChannelAt(peer));
        return Err(ChannelErrored);
      }
      var update := StateUpdateForUncommitted(peer, added);
      if update.Err? {
        return Err(update.error);
      }
      SaveSigned(peer, added, update.value);
      PutTwice(h, peer, stored, ChannelAt(peer));
      if !stateSent {
        ghost var c := ChannelAt(peer);
        SaveErrored(peer, added, DeliveryFailed);
        PutTwice(h, peer, c, ChannelAt(peer));
        return Err(ChannelErrored);
      }
      r := Ok(());
    }

    method CreateLink(at: Place, link: ForwardLink)
      requires Valid()
      modifies this
      ensures Valid() && channels == old(channels) && logs == old(logs) && height == old(height)
      ensures View() == AddLink(old(View()), at, link)
    {
      ghost var h := View();
      if at !in links {
        links := links[at := link];
      }
      assert View().channels == h.channels;
    }

    method HandleHtlcAdd(peer: Key, o: Offer, env: Env) returns (r: Result<(), ChannelError>)
      requires Valid()
      modifies this
      ensures Valid()
      ensures Outcome(View(), r) == OnOffer(old(View()), w, peer, o, env)
      ensures StaysSound(w, old(View()), View())
    {
      hide OnOffer, HostInvariant;
      if HostInvariant(w, View()) {
        OnOfferKeeps(w, View(), peer, o, env);
      }
      r := TakeOffer(peer, o, env);
    }

    method TakeOffer(peer: Key, o: Offer, env: Env) returns (r: Result<(), ChannelError>)
      requires Valid()
      modifies this
      ensures Valid()
      ensures Outcome(View(), r) == OnOffer(old(View()), w, peer, o, env)
    {
      hide Judge, OnHostAdd, LocalOf;
      if peer !in channels {
        LogOffered(o.from);
        return Err(NotFound);
      }
      var verdict := JudgeOffer(peer, o, env.disconnected);
      ghost var h := View();
      LogOffered(o.from);
      match verdict {
        case Refused(e) =>
          return Err(e);
        case Answered(answer) =>
          ResolveHtlc(Call(|offers| - 1, o.from, answer, None));
          return Ok(());
        case Accepted =>
          AcceptedFits(h, w, peer, o, env.disconnected);
          var data := channels[peer];
          var htlc := o.htlc.(channelId := w.channelIdOf(peer), id := NextHtlcId(data));
          var at := (w.scidOf(peer), htlc.id);
          CreateLink(at, ForwardLink(o.from, at, o.upstreamExpiry, Some(env.now + COMMIT_TIMEOUT), htlc.paymentHash, o.sharedSecret, |offers| - 1, Some(peer)));
          r := AddHtlc(peer, data, htlc, env.addSent, env.stateSent);
      }
    }

    // ---- The watchdog ----------------------------------------------------------------------

    static method FindOverdue(links: map<Place, ForwardLink>, scid: nat, q: seq<Update>, now: nat) returns (i: nat)
      ensures i == FirstOverdue(links, scid, q, now)
    {
      hide Overdue;
      i := 0;
      while i < |q| && !Overdue(links, scid, q[i], now)
        invariant i <= |q|
        invariant forall j :: 0 <= j < i ==> !Overdue(links, scid, q[j], now)
      {
        i := i + 1;
      }
    }

    static method FindExpired(links: map<Place, ForwardLink>, scid: nat, hs: seq<Htlc>, height: U32) returns (i: nat)
      ensures i == FirstExpired(links, scid, hs, height)
    {
      hide Expired;
      i := 0;
      while i < |hs| && !Expired(links, scid, hs[i], height)
        invariant i <= |hs|
        invariant forall j :: 0 <= j < i ==> !Expired(links, scid, hs[j], height)
      {
        i := i + 1;
      }
    }

    /** Fails the first late HTLC of one active channel, pending ones first. */
    method EnforceChannel(peer: Key, now: nat) returns (r: Result<(), ChannelError>)
      requires Valid()
      modifies this
      ensures Valid()
      ensures Outcome(View(), r) == EnforceOne(old(View()), w, peer, now)
      ensures r.Ok? ==> r == Ok(())
    {
      hide ResolveFail, DeriveStatus;
      if peer !in channels || DeriveStatus(channels[peer]) != Active {
        return Ok(());
      }
      var data, scid := channels[peer], w.scidOf(peer);
      var side := Side(peer, RoutingFor(data, policy).cltvDelta);
      var i := FindOverdue(links, scid, data.uncommitted, now);
      if i < |data.uncommitted| {
        SaveErrored(peer, data, DeliveryFailed);
        r := ResolveForwardFail((scid, data.uncommitted[i].u.htlc.id), TEMPORARY_FAILURE, side);
        return;
      }
      var j := FindExpired(links, scid, data.lcss.outgoing, height);
      if j < |data.lcss.outgoing| {
        SaveErrored(peer, data, HtlcExpired);
        r := ResolveForwardFail((scid, data.lcss.outgoing[j].id), PERMANENT_FAILURE, side);
        return;
      }
      r := Ok(());
    }

    /**
     * A pass over all channels: after one without error no active channel holds anything late, and one late
     * HTLC of each that was active has failed upstream.
     */
    method EnforceForwardDeadlines(now: nat) returns (r: Result<(), ChannelError>, ghost peers: seq<Key>)
      requires Valid()
      modifies this
      ensures Valid()
      ensures (forall p :: p in peers <==> p in old(channels)) && Outcome(View(), r) == Enforce(old(View()), w, peers, now)
      ensures StaysSound(w, old(View()), View())
      ensures r.Ok? ==> forall p :: Clear(View(), w, p, now)
      ensures r.Ok? && ScidsDiffer(w, old(View())) ==> forall p :: p in old(View()).channels ==>
        DeriveStatus(old(View()).channels[p].data) == Active ==> Enforced(w, old(View()), View(), p, now)
    {
      hide Enforce, HostInvariant, Clear, ScidsDiffer, Enforced, DeriveStatus;
      var listed := ListChannels();
      peers := listed;
      ghost var h := View();
      if HostInvariant(w, h) {
        EnforceKeeps(w, h, peers, now);
      }
      r := EnforceChannels(listed, now);
      if r.Ok? {
        forall p
          ensures Clear(View(), w, p, now)
        {
          WatchdogClearsAll(h, w, peers, now, p);
        }
        if ScidsDiffer(w, h) {
          WatchdogFailsAll(h, w, peers, now);
        }
      }
    }

    method EnforceChannels(peers: seq<Key>, now: nat) returns (r: Result<(), ChannelError>)
      requires Valid()
      modifies this
      ensures Valid()
      ensures Outcome(View(), r) == Enforce(old(View()), w, peers, now)
    {
      hide EnforceOne;
      ghost var h := View();
      for i := 0 to |peers|
        invariant Valid()
        invariant Enforce(h, w, peers[..i], now) == Outcome(View(), Ok(()))
      {
        assert peers[..i + 1][..i] == peers[..i];
        r := EnforceChannel(peers[i], now);
        if r.Err? {
          EnforceStops(h, w, peers, i + 1, now);
          return;
        }
      }
      assert peers[..|peers|] == peers;
      r := Ok(());
    }

    // ---- HTLCs that a peer committed -------------------------------------------------------

    method SendLocalFail(peer: Key, htlc: Htlc) returns (r: Result<(), ChannelError>)
      requires Valid()
      modifies this
      ensures Valid()
      ensures Outcome(View(), r) == FailBack(old(View()), w, peer, htlc)
    {
      hide SendLocal;
      var peeled := w.peel(htlc.onion, htlc.paymentHash);
      var reason := TEMPORARY_FAILURE;
      if peeled.Some? {
        reason := w.wrap(peeled.value.sharedSecret, TEMPORARY_FAILURE);
      }
      r := SendLocalResolution(peer, Fail(w.channelIdOf(peer), htlc.id, reason));
    }

    /** Offers the forwarded HTLC to its hosted target; if that fails, fails the HTLC back and drops its link. */
    method ForwardToHosted(peer: Key, target: Key, htlc: Htlc, relay: Relay, env: Env) returns (r: Result<(), ChannelError>)
      requires Valid()
      modifies this
      ensures Valid()
      ensures Outcome(View(), r) == ToHosted(old(View()), w, peer, target, htlc, relay, env)
    {
      hide OnOffer, FailBack, HostInvariant;
      r := HandleHtlcAdd(target, OfferOf(w, peer, target, htlc, relay), env);
      if r.Ok? {
        return;
      }
      r := SendLocalFail(peer, htlc);
      if r.Err? {
        return;
      }
      var link := ForwardLinkForIncoming((w.scidOf(peer), htlc.id));
      if link.Some? {
        DropLinkAt(link.value.outgoing);
      }
      r := Ok(());
    }

    /** Makes the link of a forward to a normal channel and hands the onion to the node. */
    method ForwardToNormal(peer: Key, htlc: Htlc, relay: Relay, env: Env) returns (r: Result<(), ChannelError>)
      requires Valid()
      modifies this
      ensures Valid()
      ensures Outcome(View(), r) == ToNormal(old(View()), w, peer, htlc, relay, env)
    {
      hide FailBack;
      var from, at := (w.scidOf(peer), htlc.id), (relay.scid, htlc.id);
      LogOffered(from);
      CreateLink(at, ForwardLink(from, at, None, None, htlc.paymentHash, Some(relay.sharedSecret), |offers| - 1, None));
      if env.onionSent {
        return Ok(());
      }
      r := SendLocalFail(peer, htlc);
      if r.Err? {
        return;
      }
      DropLinkAt(at);
      r := Ok(());
    }

    /** Relays a committed HTLC of the peer or fails it back; `data` is the channel as committed. */
    method DispatchCommittedIncoming(peer: Key, data: ChannelData, htlc: Htlc, env: Env) returns (r: Result<(), ChannelError>)
      requires Valid()
      modifies this
      ensures Valid()
      ensures Outcome(View(), r) == DispatchIncoming(old(View()), w, peer, data, htlc, env)
    {
      hide FailBack, ToHosted, ToNormal, SendLocal, WithinLimits, PaysEnough;
      if !WithinLimits(data, htlc) {
        r := SendLocalFail(peer, htlc);
        return;
      }
      var peeled := w.peel(htlc.onion, htlc.paymentHash);
      if peeled.None? {
        r := SendLocalResolution(peer, FailMalformed(w.channelIdOf(peer), htlc.id, w.hashOnion(htlc.onion), 0xc005));
        return;
      }
      var relay := peeled.value;
      if htlc.amount < relay.amount {
        r := SendLocalFail(peer, htlc);
        return;
      }
      var target := PeerForHostedScid(relay.scid);
      if target.None? {
        r := ForwardToNormal(peer, htlc, relay, env);
        return;
      }
      if target.value == peer {
        return Err(InvalidMessage);
      }
      if !PaysEnough(RoutingFor(channels[target.value], policy), height, htlc, relay) {
        r := SendLocalFail(peer, htlc);
        return;
      }
      r := ForwardToHosted(peer, target.value, htlc, relay, env);
    }

    /** Dispatches the HTLCs that a commit brought, then passes on the failures it contained. */
    method DispatchCommittedEffects(peer: Key, before: ChannelData, data: ChannelData, committed: seq<Update>, side: Side, env: U64 -> Env)
      returns (r: Result<(), ChannelError>)
      requires Valid()
      modifies this
      ensures Valid()
      ensures var done := DispatchAll(old(View()), w, peer, before, data, data.lcss.incoming, env);
        Outcome(View(), r) == if done.result.Err? then done else RelayFailures(done.host, w, w.scidOf(peer), committed, side)
    {
      hide DispatchIncoming, RelayFailures, HasId;
      ghost var h, hs := View(), data.lcss.incoming;
      for i := 0 to |data.lcss.incoming|
        invariant Valid()
        invariant DispatchAll(h, w, peer, before, data, hs[..i], env) == Outcome(View(), Ok(()))
      {
        assert hs[..i + 1][..i] == hs[..i];
        var htlc := data.lcss.incoming[i];
        if HasId(before.lcss.incoming, htlc.id) {
          continue;
        }
        r := DispatchCommittedIncoming(peer, data, htlc, env(htlc.id));
        if r.Err? {
          DispatchStops(h, w, peer, before, data, hs, i + 1, env);
          return;
        }
        OneSuccess(r);
      }
      assert hs[..|hs|] == hs;
      r := RelayCommittedFailures(w.scidOf(peer), committed, side);
    }

    method HandleStateUpdate(peer: Key, msg: StateUpdate, env: U64 -> Env) returns (r: Result<(), ChannelError>)
      requires Valid()
      modifies this
      ensures Valid()
      ensures Outcome(View(), r) == OnStateMessage(old(View()), w, peer, msg, env)
      ensures StaysSound(w, old(View()), View())
    {
      hide OnStateUpdate, DispatchAll, RelayFailures, Deduplicate, DeriveStatus, HostInvariant;
      if HostInvariant(w, View()) {
        StateMessageKeeps(w, View(), peer, msg, env);
      }
      if peer !in channels {
        return Err(NotFound);
      }
      var before := channels[peer];
      r := ApplyStateUpdate(peer, msg);
      if r.Err? {
        return;
      }
      var data := channels[peer];
      var committed := DeduplicateUncommitted(before.uncommitted);
      if DeriveStatus(before) != Active || committed == [] || data.uncommitted != [] {
        return;
      }
      if peer !in reachable {
        return Err(NotSent);
      }
      r := DispatchCommittedEffects(peer, before, data, committed, Side(peer, RoutingFor(data, policy).cltvDelta), env);
    }

    // ---- Recovery, opening and learning ----------------------------------------------------

    method RecoverIncomingHtlc(peer: Key, data: ChannelData, htlc: Htlc, env: Env) returns (r: Result<(), ChannelError>)
      requires Valid()
      modifies this
      ensures Valid()
      ensures Outcome(View(), r) == RecoverOneIncoming(old(View()), w, peer, data, htlc, env)
    {
      hide DispatchIncoming, OnPaymentResult, HasKey, HostInvariant;
      if HasKey(data.uncommitted, (true, htlc.id)) {
        return Ok(());
      }
      var link := ForwardLinkForIncoming((w.scidOf(peer), htlc.id));
      if link.None? {
        r := DispatchCommittedIncoming(peer, data, htlc, env);
        return;
      }
      var target := PeerForHostedScid(link.value.outgoing.0);
      if target.Some? {
        return Ok(());
      }
      var status := env.payment(link.value.paymentHash);
      if status.Unknown? {
        r := DispatchCommittedIncoming(peer, data, htlc, env);
      } else {
        r := HandleOutgoingPaymentResult(link.value.outgoing, status);
      }
    }

    method RecoverChannelHtlcs(peer: Key, queryOutgoing: bool, env: U64 -> Env) returns (r: Result<(), ChannelError>)
      requires Valid()
      modifies this
      ensures Valid()
      ensures Outcome(View(), r) == RecoverChannel(old(View()), w, peer, queryOutgoing, env)
      ensures Honest(env) ==> StaysSound(w, old(View()), View())
    {
      hide RecoverOneIncoming, RecoverOutgoing, DeriveStatus, HostInvariant, Honest;
      if Honest(env) && HostInvariant(w, View()) {
        RecoverChannelKeeps(w, View(), peer, queryOutgoing, env);
      }
      if peer !in channels || DeriveStatus(channels[peer]) != Active {
        return Ok(());
      }
      var data := channels[peer];
      ghost var h, hs := View(), data.lcss.incoming;
      for i := 0 to |data.lcss.incoming|
        invariant Valid()
        invariant RecoverIncoming(h, w, peer, data, hs[..i], env) == Outcome(View(), Ok(()))
      {
        assert hs[..i + 1][..i] == hs[..i];
        r := RecoverIncomingHtlc(peer, data, data.lcss.incoming[i], env(data.lcss.incoming[i].id));
        if r.Err? {
          RecoveryStops(h, w, peer, data, hs, i + 1, env);
          return;
        }
        OneSuccess(r);
      }
      assert hs[..|hs|] == hs;
      r := Ok(());
      if queryOutgoing {
        r := RecoverOutgoingHtlcs(peer, data);
      }
    }

    /** A peer connected: what it committed is recovered. */
    method HandleConnect(peer: Key, env: U64 -> Env) returns (r: Result<(), ChannelError>)
      requires Valid()
      modifies this
      ensures Valid()
      ensures Outcome(View(), r) == RecoverChannel(old(View()), w, peer, true, env)
      ensures Honest(env) ==> StaysSound(w, old(View()), View())
    {
      r := RecoverChannelHtlcs(peer, true, env);
    }

    /** Opens a channel under the granted policy, or reconciles the one there is. */
    method HandleInvoke(peer: Key, granted: Option<Policy>, refund: Bytes, env: U64 -> Env) returns (r: Result<(), ChannelError>)
      requires Valid() && (granted.Some? ==> granted.value.initialClientBalance <= granted.value.capacity)
      modifies this
      ensures Valid()
      ensures Outcome(View(), r) == OnInvoke(old(View()), w, peer, granted, refund, env)
      ensures Honest(env) ==> StaysSound(w, old(View()), View())
    {
      hide RecoverChannel, SignedNext, DeriveStatus, HostInvariant, Honest, Deduplicate;
      if Honest(env) && HostInvariant(w, View()) {
        InvokeKeeps(w, View(), peer, granted, refund, env);
      }
      if peer !in channels || DeriveStatus(channels[peer]) in {NotOpened, Suspended} {
        if granted.Some? {
          var p := granted.value;
          var lcss := Lcss(true, refund, InitOf(p), 0, p.capacity - p.initialClientBalance, p.initialClientBalance,
                           0, 0, [], [], NoSig, NoSig);
          var data := ChannelData(lcss, [], [], [], false, None, refund, false, None, Some(RoutingOf(p)), false);
          Store(peer, data, Channel(data, {}, [], {}));
        }
        return Ok(());
      }
      if DeriveStatus(channels[peer]) in {Errored, Overriding} {
        return Ok(());
      }
      var data := RepairDuplicates(peer);
      if peer !in reachable {
        return Err(NotSent);
      }
      ghost var h := old(View());
      ghost var repaired := ChannelAt(peer);
      if data.uncommitted != [] {
        var update := StateUpdateForUncommitted(peer, data);
        if update.Err? {
          return Err(update.error);
        }
        SaveSigned(peer, data, update.value);
        PutTwice(h, peer, repaired, ChannelAt(peer));
      }
      r := RecoverChannelHtlcs(peer, true, env);
      r := Ok(());
    }

    method HandleReplyPreimages(replied: seq<Bytes32>)
      requires Valid()
      modifies this
      ensures Valid()
      ensures View() == LearnPreimages(old(View()), replied)
      ensures StaysSound(w, old(View()), View())
    {
      hide HostInvariant;
      if HostInvariant(w, View()) {
        LearnPreimagesKeeps(w, View(), replied);
      }
      ghost var h := View();
      for i := 0 to |replied|
        invariant Valid()
        invariant View() == LearnPreimages(h, replied[..i])
      {
        assert replied[..i + 1][..i] == replied[..i];
        StorePreimage(SHA256(replied[i]), replied[i]);
      }
      assert replied[..|replied|] == replied;
    }
  }
}

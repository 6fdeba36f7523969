/** What every handler keeps: the invariant of a stored channel and of everything the host signs. */
module ChannelLaws {
  import opened Base
  import opened State
  import opened StateLaws
  import opened HtlcIds
  import opened Channel

  // ---- The invariant -----------------------------------------------------------------------

  /** The two balances and the HTLCs in flight make up the capacity; no list repeats an id. */
  ghost predicate SoundState(s: Covered) {
    && s.isHost
    && s.localBalance + s.remoteBalance + Sum(s.incoming) + Sum(s.outgoing) == s.capacity
    && Distinct(s.incoming)
    && Increasing(s.outgoing) && AtMost(s.outgoing, s.localUpdates)
  }

  ghost predicate KeysDistinct(q: seq<Update>) {
    forall i, j :: 0 <= i < j < |q| && ResolutionKey(q[i]).Some? ==> ResolutionKey(q[i]) != ResolutionKey(q[j])
  }

  /** A pending queue folds, resolves nothing twice, and adds no HTLC under an id already taken. */
  ghost predicate QueueSound(l: Cross, q: seq<Update>) {
    && Fold(l, q).Ok?
    && Distinct(l.incoming + AddsOf(RemoteOf(q)))
    && Increasing(l.outgoing + AddsOf(LocalOf(q)))
    && AtMost(l.outgoing + AddsOf(LocalOf(q)), l.localUpdates + |LocalOf(q)|)
    && KeysDistinct(q)
  }

  /** A channel that was offered to the peer and neither opened nor errored. */
  predicate Unopened(d: ChannelData) {
    !d.established && d.localErrors == [] && d.remoteErrors == [] && d.proposedOverride.None?
  }

  ghost predicate Invariant(c: Channel) {
    var d := c.data;
    && SoundState(CoveredOf(d.lcss))
    && HtlcsEncode(d.lcss.incoming) && HtlcsEncode(d.lcss.outgoing)
    && QueueSound(d.lcss, d.uncommitted)
    && (d.proposedOverride.Some? ==>
          var l := d.proposedOverride.value; SoundState(CoveredOf(l)) && l.incoming == [] && l.outgoing == [])
    && (forall s :: s in c.signed ==> SoundState(s))
    && !d.suspended
    && (Unopened(d) ==> c.signed == {} && d.uncommitted == [] && d.lcss.incoming == [] && d.lcss.outgoing == [])
  }

  // ---- Queues ------------------------------------------------------------------------------

  lemma {:induction false} Pushed<S>(l: Lcss<S>, q: seq<Update>, u: Update)
    ensures Fold(l, q + [u]) == (var t :- Fold(l, q); Step(t, u))
    ensures LocalOf(q + [u]) == LocalOf(q) + (if u.Local? then [u.u] else [])
    ensures RemoteOf(q + [u]) == RemoteOf(q) + (if u.Remote? then [u.u] else [])
  {
    assert (q + [u])[..|q + [u]| - 1] == q;
  }

  lemma {:induction false} PushedLocal<S>(l: Lcss<S>, q: seq<Update>, u: PendingUpdate)
    ensures LocalOf(q + [Local(u)]) == LocalOf(q) + [u] && RemoteOf(q + [Local(u)]) == RemoteOf(q)
  {
    Pushed(l, q, Local(u));
    assert RemoteOf(q) + [] == RemoteOf(q);
  }

  lemma {:induction false} PushedRemote<S>(l: Lcss<S>, q: seq<Update>, u: PendingUpdate)
    ensures RemoteOf(q + [Remote(u)]) == RemoteOf(q) + [u] && LocalOf(q + [Remote(u)]) == LocalOf(q)
  {
    Pushed(l, q, Remote(u));
    assert LocalOf(q) + [] == LocalOf(q);
  }

  lemma {:induction false} EmptyQueueSound(l: Cross)
    requires SoundState(CoveredOf(l))
    ensures QueueSound(l, [])
  {
    assert l.incoming + [] == l.incoming && l.outgoing + [] == l.outgoing;
  }

  /** Without HTLCs a state is sound when the two balances make up the capacity. */
  lemma {:induction false} IdleIsSound(l: Cross)
    requires l.isHost && l.incoming == [] && l.outgoing == []
    requires l.localBalance + l.remoteBalance == l.init.capacity
    ensures SoundState(CoveredOf(l))
  {
  }

  lemma {:induction false} IdleIsBalanced(l: Cross)
    requires SoundState(CoveredOf(l)) && l.incoming == [] && l.outgoing == []
    ensures l.isHost && l.localBalance + l.remoteBalance == l.init.capacity
  {
  }

  /** A key in the queue is a claim of its side. */
  lemma {:induction false} KeysAreClaims(q: seq<Update>, id: U64)
    ensures HasKey(q, (true, id)) ==> Claims(ClaimsOf(LocalOf(q)), id)
    ensures HasKey(q, (false, id)) <== Claims(ClaimsOf(RemoteOf(q)), id)
  {
    if q != [] {
      var p, u := q[..|q| - 1], q[|q| - 1];
      assert q == p + [u];
      KeysAreClaims(p, id);
      if HasKey(q, (true, id)) {
        LocalKeyIsClaim(p, u, id);
      }
      if Claims(ClaimsOf(RemoteOf(q)), id) {
        RemoteClaimIsKey(p, u, id);
      }
    }
  }

  /** The claims of one side grow by one with each resolution of that side. */
  lemma {:induction false} ClaimsPush(us: seq<PendingUpdate>, u: PendingUpdate)
    ensures ClaimsOf(us + [u]) == if u.Add? then ClaimsOf(us) else ClaimsOf(us) + [ClaimOf(u)]
  {
    if u.Add? {
      PushAdd(us, u.htlc);
    } else {
      PushResolution(us, u);
    }
  }

  lemma {:induction false} SideClaims(p: seq<Update>, u: Update)
    ensures ClaimsOf(LocalOf(p + [u])) == ClaimsOf(LocalOf(p)) + (if u.Local? && !u.u.Add? then [ClaimOf(u.u)] else [])
    ensures ClaimsOf(RemoteOf(p + [u])) == ClaimsOf(RemoteOf(p)) + (if u.Remote? && !u.u.Add? then [ClaimOf(u.u)] else [])
  {
    var q := p + [u];
    assert q[..|q| - 1] == p;
    if u.Local? {
      ClaimsPush(LocalOf(p), u.u);
      assert RemoteOf(q) == RemoteOf(p);
    } else {
      ClaimsPush(RemoteOf(p), u.u);
      assert LocalOf(q) == LocalOf(p);
    }
  }

  lemma {:induction false} LocalKeyIsClaim(p: seq<Update>, u: Update, id: U64)
    requires HasKey(p, (true, id)) ==> Claims(ClaimsOf(LocalOf(p)), id)
    requires HasKey(p + [u], (true, id))
    ensures Claims(ClaimsOf(LocalOf(p + [u])), id)
  {
    var cs, cs' := ClaimsOf(LocalOf(p)), ClaimsOf(LocalOf(p + [u]));
    SideClaims(p, u);
    var i :| 0 <= i < |p + [u]| && ResolutionKey((p + [u])[i]) == Some((true, id));
    if i == |p| {
      assert cs'[|cs|].id == id;
    } else {
      assert ResolutionKey(p[i]) == Some((true, id));
      var j :| 0 <= j < |cs| && cs[j].id == id;
      assert cs'[j].id == id;
    }
  }

  lemma {:induction false} RemoteClaimIsKey(p: seq<Update>, u: Update, id: U64)
    requires Claims(ClaimsOf(RemoteOf(p)), id) ==> HasKey(p, (false, id))
    requires Claims(ClaimsOf(RemoteOf(p + [u])), id)
    ensures HasKey(p + [u], (false, id))
  {
    var cs, cs' := ClaimsOf(RemoteOf(p)), ClaimsOf(RemoteOf(p + [u]));
    SideClaims(p, u);
    var i :| 0 <= i < |cs'| && cs'[i].id == id;
    if i == |cs| {
      assert ResolutionKey((p + [u])[|p|]) == Some((false, id));
    } else {
      assert cs[i].id == id;
      var j :| 0 <= j < |p| && ResolutionKey(p[j]) == Some((false, id));
      assert ResolutionKey((p + [u])[j]) == Some((false, id));
    }
  }

  lemma {:induction false} KeysPush(q: seq<Update>, u: Update)
    requires KeysDistinct(q)
    requires ResolutionKey(u).Some? ==> !HasKey(q, ResolutionKey(u).value)
    ensures KeysDistinct(q + [u])
  {
    var q' := q + [u];
    forall i, j | 0 <= i < j < |q'| && ResolutionKey(q'[i]).Some?
      ensures ResolutionKey(q'[i]) != ResolutionKey(q'[j])
    {
      assert q'[i] == q[i];
    }
  }

  /** An HTLC of the peer that its balance covers keeps the queue sound exactly when its id is not in use. */
  lemma {:induction false} PushRemoteAddIff(l: Cross, q: seq<Update>, h: Htlc)
    requires QueueSound(l, q) && h.amount <= Fold(l, q).value.remoteBalance
    ensures QueueSound(l, q + [Remote(Add(h))]) <==> !HasId(l.incoming + AddsOf(RemoteOf(q)), h.id)
  {
    hide Sum;
    Pushed(l, q, Remote(Add(h)));
    PushedRemote(l, q, Add(h));
    PushAdd(RemoteOf(q), h);
    KeysPush(q, Remote(Add(h)));
    var pool := l.incoming + AddsOf(RemoteOf(q));
    assert l.incoming + (AddsOf(RemoteOf(q)) + [h]) == pool + [h];
    DistinctPush(pool, h);
  }

  /** The id the host gives its next HTLC is above every id it still uses. */
  lemma {:induction false} PushLocalAddKeeps(l: Cross, q: seq<Update>, h: Htlc)
    requires QueueSound(l, q) && h.amount <= Fold(l, q).value.localBalance
    requires h.id == l.localUpdates + |LocalOf(q)| + 1
    ensures QueueSound(l, q + [Local(Add(h))])
    ensures !HasId(l.outgoing + AddsOf(LocalOf(q)), h.id)
  {
    hide Sum, Distinct, RemoteOf;
    Pushed(l, q, Local(Add(h)));
    PushedLocal(l, q, Add(h));
    PushAdd(LocalOf(q), h);
    KeysPush(q, Local(Add(h)));
    var pool := l.outgoing + AddsOf(LocalOf(q));
    assert l.outgoing + (AddsOf(LocalOf(q)) + [h]) == pool + [h];
  }

  /** With distinct ids in the pool, a second resolution of one HTLC would not have folded. */
  lemma {:induction false} PushLocalResolveKeeps(l: Cross, q: seq<Update>, r: PendingUpdate)
    requires QueueSound(l, q) && !r.Add? && Fold(l, q + [Local(r)]).Ok?
    ensures QueueSound(l, q + [Local(r)])
  {
    var q' := q + [Local(r)];
    PushedLocal(l, q, r);
    PushResolution(LocalOf(q), r);
    FoldIsNormal(l, q');
    var pool, cs := l.incoming + AddsOf(RemoteOf(q)), ClaimsOf(LocalOf(q));
    DrainClaimsOnce(pool, cs + [ClaimOf(r)]);
    KeysAreClaims(q, r.id);
    forall j | 0 <= j < |cs|
      ensures cs[j].id != r.id
    {
      assert (cs + [ClaimOf(r)])[j].id != (cs + [ClaimOf(r)])[|cs|].id;
    }
    KeysPush(q, Local(r));
  }

  /** A resolution of the peer folds when it names a committed HTLC that no pending one resolves. */
  lemma {:induction false} PushRemoteResolveKeeps(l: Cross, q: seq<Update>, r: PendingUpdate)
    requires SoundState(CoveredOf(l)) && QueueSound(l, q) && !r.Add?
    requires !HasKey(q, (false, r.id)) && HasId(l.outgoing, r.id)
    requires Position(l.outgoing, r.id) < |l.outgoing| ==> PreimageMatches(r, l.outgoing[Position(l.outgoing, r.id)])
    ensures QueueSound(l, q + [Remote(r)])
  {
    CommittedResolves(l, q, r);
    PushedRemote(l, q, r);
    PushResolution(RemoteOf(q), r);
    KeysPush(q, Remote(r));
  }

  lemma {:induction false} CommittedResolves(l: Cross, q: seq<Update>, r: PendingUpdate)
    requires Total(l) < U64_BOUND && Fold(l, q).Ok? && !r.Add?
    requires !HasKey(q, (false, r.id)) && HasId(l.outgoing, r.id)
    requires Position(l.outgoing, r.id) < |l.outgoing| ==> PreimageMatches(r, l.outgoing[Position(l.outgoing, r.id)])
    ensures Fold(l, q + [Remote(r)]).Ok?
  {
    hide Sum;
    CommittedStaysOpen(l, q, r.id);
    FoldConserves(l, q);
    NoStepOverflows(Fold(l, q).value, Remote(r));
    Pushed(l, q, Remote(r));
  }

  /** A committed HTLC of the host that no pending update resolves is still there after the fold. */
  lemma {:induction false} CommittedStaysOpen(l: Cross, q: seq<Update>, id: U64)
    requires Fold(l, q).Ok? && !HasKey(q, (false, id)) && HasId(l.outgoing, id)
    ensures var t := Fold(l, q).value;
      && Position(l.outgoing, id) < |l.outgoing| && Position(t.outgoing, id) < |t.outgoing|
      && t.outgoing[Position(t.outgoing, id)] == l.outgoing[Position(l.outgoing, id)]
  {
    var pool, cs := l.outgoing + AddsOf(LocalOf(q)), ClaimsOf(RemoteOf(q));
    FoldIsNormal(l, q);
    PositionConcat(l.outgoing, AddsOf(LocalOf(q)), id);
    HasIdIsPosition(pool, id);
    KeysAreClaims(q, id);
    DrainKeepsUnclaimed(pool, cs, id);
  }

  /** The state a sound queue leads to is sound, whatever block day and signatures it then gets. */
  lemma {:induction false} NextIsSound(l: Cross, q: seq<Update>, day: U32)
    requires SoundState(CoveredOf(l)) && QueueSound(l, q)
    ensures SoundState(CoveredOf(Fold(l, q).value.(blockDay := day)))
  {
    FoldConserves(l, q);
    FoldKeepsHeader(l, q);
    NextKeepsIds(l, q);
  }

  lemma {:induction false} NextKeepsIds(l: Cross, q: seq<Update>)
    requires QueueSound(l, q)
    ensures var t := Fold(l, q).value;
      Distinct(t.incoming) && Increasing(t.outgoing) && AtMost(t.outgoing, t.localUpdates)
  {
    FoldIsNormal(l, q);
    DrainKeepsOrder(l.incoming + AddsOf(RemoteOf(q)), ClaimsOf(LocalOf(q)), 0);
    DrainKeepsOrder(l.outgoing + AddsOf(LocalOf(q)), ClaimsOf(RemoteOf(q)), l.localUpdates + |LocalOf(q)|);
  }
}

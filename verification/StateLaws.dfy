/** Laws of the fold: conservation, the peer's mirror, confluence, and the effect of a resize. */
module StateLaws {
  import opened Base
  import opened State

  // ---- Conservation ----------------------------------------------------------------------

  function Sum(hs: seq<Htlc>): nat {
    if hs == [] then 0 else hs[0].amount + Sum(hs[1..])
  }

  /** Everything the two sides own in a state, in flight or not. */
  function Total<S>(s: Lcss<S>): nat {
    s.localBalance + s.remoteBalance + Sum(s.incoming) + Sum(s.outgoing)
  }

  lemma {:induction false} SumConcat(a: seq<Htlc>, b: seq<Htlc>)
    ensures Sum(a + b) == Sum(a) + Sum(b)
  {
    if a == [] {
      assert a + b == b;
    } else {
      assert (a + b)[1..] == a[1..] + b;
      SumConcat(a[1..], b);
    }
  }

  lemma {:induction false} SumWithout(hs: seq<Htlc>, i: nat)
    requires i < |hs|
    ensures Sum(Without(hs, i)) + hs[i].amount == Sum(hs)
  {
    assert hs == hs[..i] + ([hs[i]] + hs[i + 1..]);
    SumConcat(hs[..i], [hs[i]] + hs[i + 1..]);
    SumConcat([hs[i]], hs[i + 1..]);
    SumConcat(hs[..i], hs[i + 1..]);
    assert Sum([hs[i]]) == hs[i].amount;
  }

  lemma {:induction false} StepConserves<S>(s: Lcss<S>, u: Update)
    requires Step(s, u).Ok?
    ensures Total(Step(s, u).value) == Total(s)
  {
    if u.u.Add? {
      SumConcat(if u.Local? then s.outgoing else s.incoming, [u.u.htlc]);
    } else {
      var hs := if u.Local? then s.incoming else s.outgoing;
      SumWithout(hs, Position(hs, u.u.id));
    }
  }

  /** A fold moves money between the two balances and the HTLCs and neither creates nor loses any. */
  lemma {:induction false} FoldConserves<S>(s: Lcss<S>, q: seq<Update>)
    requires Fold(s, q).Ok?
    ensures Total(Fold(s, q).value) == Total(s)
  {
    if q != [] {
      FoldConserves(s, q[..|q| - 1]);
      StepConserves(Fold(s, q[..|q| - 1]).value, q[|q| - 1]);
    }
  }

  lemma {:induction false} AmountBelowTotal<S>(s: Lcss<S>, i: nat)
    ensures i < |s.incoming| ==> s.localBalance + s.remoteBalance + s.incoming[i].amount <= Total(s)
    ensures i < |s.outgoing| ==> s.localBalance + s.remoteBalance + s.outgoing[i].amount <= Total(s)
  {
    if i < |s.incoming| {
      SumWithout(s.incoming, i);
    }
    if i < |s.outgoing| {
      SumWithout(s.outgoing, i);
    }
  }

  lemma {:induction false} NoStepOverflows<S>(s: Lcss<S>, u: Update)
    requires Total(s) < U64_BOUND
    ensures Step(s, u) != Err(Overflow)
  {
    if !u.u.Add? {
      AmountBelowTotal(s, Position(if u.Local? then s.incoming else s.outgoing, u.u.id));
    }
  }

  /** The overflow checks of the fold cannot fire once the total fits a machine word. */
  lemma {:induction false} NoOverflow<S>(s: Lcss<S>, q: seq<Update>)
    requires Total(s) < U64_BOUND
    ensures Fold(s, q) != Err(Overflow)
  {
    if q != [] {
      var p := q[..|q| - 1];
      NoOverflow(s, p);
      if Fold(s, p).Ok? {
        FoldConserves(s, p);
        NoStepOverflows(Fold(s, p).value, q[|q| - 1]);
      }
    }
  }

  // ---- The peer's view -------------------------------------------------------------------

  function Reverse<S>(s: Lcss<S>): Lcss<S> {
    s.(isHost := !s.isHost,
       localBalance := s.remoteBalance, remoteBalance := s.localBalance,
       localUpdates := s.remoteUpdates, remoteUpdates := s.localUpdates,
       incoming := s.outgoing, outgoing := s.incoming,
       remoteSigOfLocal := s.localSigOfRemote, localSigOfRemote := s.remoteSigOfLocal)
  }

  function Flip(u: Update): Update {
    if u.Local? then Remote(u.u) else Local(u.u)
  }

  function FlipAll(q: seq<Update>): (r: seq<Update>)
    ensures |r| == |q| && forall i :: 0 <= i < |q| ==> r[i] == Flip(q[i])
  {
    seq(|q|, i requires 0 <= i < |q| => Flip(q[i]))
  }

  function Mirrored<S>(r: Result<Lcss<S>, StateError>): Result<Lcss<S>, StateError> {
    var t :- r;
    Ok(Reverse(t))
  }

  lemma {:induction false} StepMirror<S>(s: Lcss<S>, u: Update)
    ensures Step(Reverse(s), Flip(u)) == Mirrored(Step(s, u))
  {
    assert Flip(u).u == u.u;
    if u.Local? {
      if u.u.Add? {
        assert Step(s, u) == LocalAdd(s, u.u.htlc);
      } else {
        assert Step(s, u) == LocalResolve(s, u.u);
      }
    } else {
      if u.u.Add? {
        assert Step(s, u) == RemoteAdd(s, u.u.htlc);
      } else {
        assert Step(s, u) == RemoteResolve(s, u.u);
      }
    }
  }

  /** Folding the flipped queue on the peer's view is the peer's view of the fold, errors included. */
  lemma {:induction false} FoldMirror<S>(s: Lcss<S>, q: seq<Update>)
    ensures Fold(Reverse(s), FlipAll(q)) == Mirrored(Fold(s, q))
  {
    if q != [] {
      var p := q[..|q| - 1];
      FoldMirror(s, p);
      assert FlipAll(q)[..|q| - 1] == FlipAll(p);
      if Fold(s, p).Ok? {
        StepMirror(Fold(s, p).value, q[|q| - 1]);
      }
    }
  }

  lemma {:induction false} FlipSwapsSides(q: seq<Update>)
    ensures LocalOf(FlipAll(q)) == RemoteOf(q) && RemoteOf(FlipAll(q)) == LocalOf(q)
  {
    if q != [] {
      FlipSwapsSides(q[..|q| - 1]);
      assert FlipAll(q)[..|q| - 1] == FlipAll(q[..|q| - 1]);
    }
  }

  // ---- Confluence ------------------------------------------------------------------------

  function AddsOf(us: seq<PendingUpdate>): seq<Htlc> {
    if us == [] then []
    else AddsOf(us[..|us| - 1]) + (if us[|us| - 1].Add? then [us[|us| - 1].htlc] else [])
  }

  /** The sum of the amounts a side adds. */
  function Offered(us: seq<PendingUpdate>): nat {
    if us == [] then 0
    else Offered(us[..|us| - 1]) + (if us[|us| - 1].Add? then us[|us| - 1].htlc.amount else 0)
  }

  /** What a resolution does to the HTLC it names. */
  datatype Claim = Claim(id: U64, fulfill: bool)

  function ClaimOf(r: PendingUpdate): Claim
    requires !r.Add?
  {
    Claim(r.id, r.Fulfill?)
  }

  function ClaimsOf(us: seq<PendingUpdate>): seq<Claim> {
    if us == [] then []
    else ClaimsOf(us[..|us| - 1]) + (if us[|us| - 1].Add? then [] else [ClaimOf(us[|us| - 1])])
  }

  /** What is left of a list of HTLCs after some resolutions, with the sums fulfilled and refunded. */
  datatype Drained = Drained(rest: seq<Htlc>, fulfilled: nat, refunded: nat)

  function Settle(d: Drained, c: Claim): Option<Drained> {
    var i := Position(d.rest, c.id);
    if i == |d.rest| then None
    else if c.fulfill then Some(Drained(Without(d.rest, i), d.fulfilled + d.rest[i].amount, d.refunded))
    else Some(Drained(Without(d.rest, i), d.fulfilled, d.refunded + d.rest[i].amount))
  }

  function Drain(hs: seq<Htlc>, cs: seq<Claim>): Option<Drained> {
    if cs == [] then Some(Drained(hs, 0, 0))
    else
      match Drain(hs, cs[..|cs| - 1])
      case None => None
      case Some(d) => Settle(d, cs[|cs| - 1])
  }

  /**
   * The part of a state a fold changes, over unbounded integers.
   */
  datatype Net = Net(local: int, remote: int, localUpdates: nat, remoteUpdates: nat,
                     incoming: seq<Htlc>, outgoing: seq<Htlc>)

  function NetOf<S>(s: Lcss<S>): Net {
    Net(s.localBalance, s.remoteBalance, s.localUpdates, s.remoteUpdates, s.incoming, s.outgoing)
  }

  /**
   * The adds-first normal form: both sides add everything they are going to add, and only then
   * resolve. It sees the two sequences of updates and not how they were interleaved.
   */
  function NormalForm(s: Net, local: seq<PendingUpdate>, remote: seq<PendingUpdate>): Option<Net> {
    Assemble(s, Drain(s.incoming + AddsOf(remote), ClaimsOf(local)),
             Drain(s.outgoing + AddsOf(local), ClaimsOf(remote)),
             Offered(local), Offered(remote), |local|, |remote|)
  }

  function Assemble(s: Net, incoming: Option<Drained>, outgoing: Option<Drained>,
                    localAdds: nat, remoteAdds: nat, localCount: nat, remoteCount: nat): Option<Net>
  {
    if incoming.None? || outgoing.None? then None
    else
      var i, o := incoming.value, outgoing.value;
      Some(Net(s.local - localAdds + i.fulfilled + o.refunded,
               s.remote - remoteAdds + o.fulfilled + i.refunded,
               s.localUpdates + localCount, s.remoteUpdates + remoteCount, i.rest, o.rest))
  }

  lemma {:induction false} PositionAppend(hs: seq<Htlc>, h: Htlc, id: U64)
    requires Position(hs, id) < |hs|
    ensures Position(hs + [h], id) == Position(hs, id)
    ensures Without(hs + [h], Position(hs, id)) == Without(hs, Position(hs, id)) + [h]
  {
    var i, j := Position(hs, id), Position(hs + [h], id);
    assert (hs + [h])[i].id == id;
    assert j <= i;
    assert (hs + [h])[j].id == hs[j].id;
  }

  lemma {:induction false} SettleAppend(d: Drained, h: Htlc, c: Claim)
    requires Settle(d, c).Some?
    ensures Settle(d.(rest := d.rest + [h]), c) == Some(Settle(d, c).value.(rest := Settle(d, c).value.rest + [h]))
  {
    PositionAppend(d.rest, h, c.id);
  }

  /** An HTLC added after some resolutions succeeded could as well have been added before them. */
  lemma {:induction false} DrainAppend(hs: seq<Htlc>, h: Htlc, cs: seq<Claim>)
    requires Drain(hs, cs).Some?
    ensures Drain(hs + [h], cs) == Some(Drain(hs, cs).value.(rest := Drain(hs, cs).value.rest + [h]))
  {
    if cs != [] {
      DrainAppend(hs, h, cs[..|cs| - 1]);
      SettleAppend(Drain(hs, cs[..|cs| - 1]).value, h, cs[|cs| - 1]);
    }
  }

  lemma {:induction false} DrainAppendLate(hs: seq<Htlc>, adds: seq<Htlc>, h: Htlc, cs: seq<Claim>)
    requires Drain(hs + adds, cs).Some?
    ensures var d := Drain(hs + adds, cs).value;
      Drain(hs + (adds + [h]), cs) == Some(d.(rest := d.rest + [h]))
  {
    DrainAppend(hs + adds, h, cs);
    assert hs + (adds + [h]) == hs + adds + [h];
  }

  lemma {:induction false} PushAdd(us: seq<PendingUpdate>, h: Htlc)
    ensures AddsOf(us + [Add(h)]) == AddsOf(us) + [h]
    ensures Offered(us + [Add(h)]) == Offered(us) + h.amount
    ensures ClaimsOf(us + [Add(h)]) == ClaimsOf(us)
  {
    assert (us + [Add(h)])[..|us + [Add(h)]| - 1] == us;
  }

  lemma {:induction false} PushResolution(us: seq<PendingUpdate>, r: PendingUpdate)
    requires !r.Add?
    ensures AddsOf(us + [r]) == AddsOf(us) && Offered(us + [r]) == Offered(us)
    ensures ClaimsOf(us + [r]) == ClaimsOf(us) + [ClaimOf(r)]
  {
    assert (us + [r])[..|us + [r]| - 1] == us;
  }

  lemma {:induction false} DrainPush(hs: seq<Htlc>, cs: seq<Claim>, c: Claim)
    requires Drain(hs, cs).Some?
    ensures Drain(hs, cs + [c]) == Settle(Drain(hs, cs).value, c)
  {
    assert (cs + [c])[..|cs + [c]| - 1] == cs;
  }

  lemma {:induction false} AssembleAdd<S>(n: Net, i: Drained, o: Drained, la: nat, ra: nat, lc: nat, rc: nat, t: Lcss<S>, h: Htlc)
    requires Assemble(n, Some(i), Some(o), la, ra, lc, rc) == Some(NetOf(t)) && LocalAdd(t, h).Ok?
    ensures Assemble(n, Some(i), Some(o.(rest := o.rest + [h])), la + h.amount, ra, lc + 1, rc) ==
      Some(NetOf(LocalAdd(t, h).value))
  {
  }

  lemma {:induction false} AssembleResolve<S>(n: Net, i: Drained, o: Drained, la: nat, ra: nat, lc: nat, rc: nat, t: Lcss<S>, r: PendingUpdate)
    requires !r.Add? && Assemble(n, Some(i), Some(o), la, ra, lc, rc) == Some(NetOf(t)) && LocalResolve(t, r).Ok?
    ensures Assemble(n, Settle(i, ClaimOf(r)), Some(o), la, ra, lc + 1, rc) == Some(NetOf(LocalResolve(t, r).value))
  {
  }

  lemma {:induction false} NormalFormLocalAdd<S>(n: Net, t: Lcss<S>, local: seq<PendingUpdate>, remote: seq<PendingUpdate>, h: Htlc)
    requires NormalForm(n, local, remote) == Some(NetOf(t)) && LocalAdd(t, h).Ok?
    ensures NormalForm(n, local + [Add(h)], remote) == Some(NetOf(LocalAdd(t, h).value))
  {
    var i, o := Drain(n.incoming + AddsOf(remote), ClaimsOf(local)), Drain(n.outgoing + AddsOf(local), ClaimsOf(remote));
    AssembleAdd(n, i.value, o.value, Offered(local), Offered(remote), |local|, |remote|, t, h);
    PushAdd(local, h);
    DrainAppendLate(n.outgoing, AddsOf(local), h, ClaimsOf(remote));
  }

  lemma {:induction false} NormalFormLocalResolve<S>(n: Net, t: Lcss<S>, local: seq<PendingUpdate>, remote: seq<PendingUpdate>, r: PendingUpdate)
    requires !r.Add? && NormalForm(n, local, remote) == Some(NetOf(t)) && LocalResolve(t, r).Ok?
    ensures NormalForm(n, local + [r], remote) == Some(NetOf(LocalResolve(t, r).value))
  {
    var i, o := Drain(n.incoming + AddsOf(remote), ClaimsOf(local)), Drain(n.outgoing + AddsOf(local), ClaimsOf(remote));
    AssembleResolve(n, i.value, o.value, Offered(local), Offered(remote), |local|, |remote|, t, r);
    PushResolution(local, r);
    DrainPush(n.incoming + AddsOf(remote), ClaimsOf(local), ClaimOf(r));
  }

  lemma {:induction false} NormalFormLocalStep<S>(n: Net, t: Lcss<S>, local: seq<PendingUpdate>, remote: seq<PendingUpdate>, u: PendingUpdate)
    requires NormalForm(n, local, remote) == Some(NetOf(t)) && Step(t, Local(u)).Ok?
    ensures NormalForm(n, local + [u], remote) == Some(NetOf(Step(t, Local(u)).value))
  {
    if u.Add? {
      NormalFormLocalAdd(n, t, local, remote, u.htlc);
    } else {
      NormalFormLocalResolve(n, t, local, remote, u);
    }
  }

  function ReverseNet(n: Net): Net {
    Net(n.remote, n.local, n.remoteUpdates, n.localUpdates, n.outgoing, n.incoming)
  }

  lemma {:induction false} NormalFormMirror(n: Net, local: seq<PendingUpdate>, remote: seq<PendingUpdate>)
    ensures NormalForm(ReverseNet(n), remote, local) ==
      match NormalForm(n, local, remote) case None => None case Some(m) => Some(ReverseNet(m))
  {
  }

  /** The other side's step is this side's step in the mirror. */
  lemma {:induction false} NormalFormRemoteStep<S>(n: Net, t: Lcss<S>, local: seq<PendingUpdate>, remote: seq<PendingUpdate>, u: PendingUpdate)
    requires NormalForm(n, local, remote) == Some(NetOf(t)) && Step(t, Remote(u)).Ok?
    ensures NormalForm(n, local, remote + [u]) == Some(NetOf(Step(t, Remote(u)).value))
  {
    NormalFormMirror(n, local, remote);
    StepMirror(t, Remote(u));
    NormalFormLocalStep(ReverseNet(n), Reverse(t), remote, local, u);
    NormalFormMirror(ReverseNet(n), remote + [u], local);
  }

  /** Every successful fold computes the normal form of its two sides. */
  lemma {:induction false} FoldIsNormal<S>(s: Lcss<S>, q: seq<Update>)
    requires Fold(s, q).Ok?
    ensures NormalForm(NetOf(s), LocalOf(q), RemoteOf(q)) == Some(NetOf(Fold(s, q).value))
  {
    if q == [] {
      assert s.incoming + [] == s.incoming && s.outgoing + [] == s.outgoing;
    } else {
      var p, u := q[..|q| - 1], q[|q| - 1];
      FoldIsNormal(s, p);
      if u.Local? {
        NormalFormLocalStep(NetOf(s), Fold(s, p).value, LocalOf(p), RemoteOf(p), u.u);
        assert RemoteOf(q) == RemoteOf(p);
      } else {
        NormalFormRemoteStep(NetOf(s), Fold(s, p).value, LocalOf(p), RemoteOf(p), u.u);
        assert LocalOf(q) == LocalOf(p);
      }
    }
  }

  /** Two interleavings of the same updates that both fold reach the same state, list order included. */
  lemma {:induction false} Confluence<S>(s: Lcss<S>, q: seq<Update>, q': seq<Update>)
    requires LocalOf(q) == LocalOf(q') && RemoteOf(q) == RemoteOf(q')
    requires Fold(s, q).Ok? && Fold(s, q').Ok?
    ensures Fold(s, q) == Fold(s, q')
  {
    FoldIsNormal(s, q);
    FoldIsNormal(s, q');
    FoldKeepsHeader(s, q);
    FoldKeepsHeader(s, q');
  }

  /**
   * The peer holds the mirrored state, takes the host's updates as remote ones and interleaves its
   * own in any order: if its fold succeeds, it is the mirror of the host's.
   */
  lemma {:induction false} PeerComputesMirror<S>(s: Lcss<S>, q: seq<Update>, peerQueue: seq<Update>)
    requires LocalOf(peerQueue) == RemoteOf(q) && RemoteOf(peerQueue) == LocalOf(q)
    requires Fold(s, q).Ok? && Fold(Reverse(s), peerQueue).Ok?
    ensures Fold(Reverse(s), peerQueue).value == Reverse(Fold(s, q).value)
  {
    FlipSwapsSides(q);
    FoldMirror(s, q);
    Confluence(Reverse(s), peerQueue, FlipAll(q));
  }

  lemma {:induction false} StepIgnoresHeader<S>(s: Lcss<S>, t: Lcss<S>, u: Update)
    requires NetOf(s) == NetOf(t)
    ensures Step(s, u).Ok? <==> Step(t, u).Ok?
    ensures Step(s, u).Ok? ==> NetOf(Step(s, u).value) == NetOf(Step(t, u).value)
  {
  }

  /** Parameters, block day and signatures play no part in a fold. */
  lemma {:induction false} FoldIgnoresHeader<S>(s: Lcss<S>, t: Lcss<S>, q: seq<Update>)
    requires NetOf(s) == NetOf(t)
    ensures Fold(s, q).Ok? <==> Fold(t, q).Ok?
    ensures Fold(s, q).Ok? ==> NetOf(Fold(s, q).value) == NetOf(Fold(t, q).value)
  {
    if q != [] {
      var p := q[..|q| - 1];
      FoldIgnoresHeader(s, t, p);
      if Fold(s, p).Ok? {
        StepIgnoresHeader(Fold(s, p).value, Fold(t, p).value, q[|q| - 1]);
      }
    }
  }

  // ---- A resize under pending updates ----------------------------------------------------

  /** The same state with the local balance moved by `d`, as a change of capacity moves it. */
  function Shift<S>(s: Lcss<S>, d: int): Lcss<S>
    requires 0 <= s.localBalance + d < U64_BOUND
  {
    s.(localBalance := s.localBalance + d)
  }

  /** The lowest local balance on the way through a queue. */
  function LowWater<S>(s: Lcss<S>, q: seq<Update>): (low: nat)
    requires Fold(s, q).Ok?
    ensures low <= s.localBalance && low <= Fold(s, q).value.localBalance
  {
    if q == [] then s.localBalance
    else
      var low := LowWater(s, q[..|q| - 1]);
      var last := Fold(s, q).value.localBalance;
      if last < low then last else low
  }

  lemma {:induction false} ShiftTotal<S>(s: Lcss<S>, d: int)
    requires 0 <= s.localBalance + d && Total(s) + d < U64_BOUND
    ensures Total(Shift(s, d)) == Total(s) + d
  {
  }

  lemma {:induction false} StepShift<S>(s: Lcss<S>, u: Update, d: int)
    requires Step(s, u).Ok? && 0 <= s.localBalance + d < U64_BOUND
    requires Step(Shift(s, d), u) != Err(Overflow)
    ensures var t := Step(s, u).value;
      && (Step(Shift(s, d), u).Ok? <==> 0 <= t.localBalance + d)
      && (0 <= t.localBalance + d ==> t.localBalance + d < U64_BOUND && Step(Shift(s, d), u) == Ok(Shift(t, d)))
  {
    if u.Local? && u.u.Add? {
      assert Step(s, u) == LocalAdd(s, u.u.htlc);
    } else if u.Local? {
      assert Step(s, u) == LocalResolve(s, u.u);
    } else if u.u.Add? {
      assert Step(s, u) == RemoteAdd(s, u.u.htlc);
    } else {
      assert Step(s, u) == RemoteResolve(s, u.u);
    }
  }

  /**
   * A queue that folds still folds after the local balance moves by `d` exactly when `d` does not
   * take the lowest balance on the way below zero; the result then moves by `d` too.
   */
  lemma {:induction false} FoldShift<S>(s: Lcss<S>, q: seq<Update>, d: int)
    requires Fold(s, q).Ok? && 0 <= s.localBalance + d && Total(s) + d < U64_BOUND
    ensures Fold(Shift(s, d), q).Ok? <==> 0 <= LowWater(s, q) + d
    ensures 0 <= LowWater(s, q) + d ==>
      && 0 <= Fold(s, q).value.localBalance + d < U64_BOUND
      && Fold(Shift(s, d), q) == Ok(Shift(Fold(s, q).value, d))
  {
    if q != [] {
      var p := q[..|q| - 1];
      FoldShift(s, p, d);
      FoldConserves(s, p);
      if 0 <= LowWater(s, p) + d {
        var mid := Fold(s, p).value;
        ShiftTotal(mid, d);
        NoStepOverflows(Shift(mid, d), q[|q| - 1]);
        StepShift(mid, q[|q| - 1], d);
      }
    }
  }
}

/** HTLC ids along a fold: which lists stay free of repetition, and which HTLC an id still names. */
module HtlcIds {
  import opened Base
  import opened State
  import opened StateLaws

  ghost predicate Distinct(hs: seq<Htlc>) {
    forall i, j :: 0 <= i < j < |hs| ==> hs[i].id != hs[j].id
  }

  ghost predicate Increasing(hs: seq<Htlc>) {
    forall i, j :: 0 <= i < j < |hs| ==> hs[i].id < hs[j].id
  }

  ghost predicate AtMost(hs: seq<Htlc>, bound: nat) {
    forall i :: 0 <= i < |hs| ==> hs[i].id <= bound
  }

  predicate HasId(hs: seq<Htlc>, id: U64) {
    exists i :: 0 <= i < |hs| && hs[i].id == id
  }

  predicate Claims(cs: seq<Claim>, id: U64) {
    exists i :: 0 <= i < |cs| && cs[i].id == id
  }

  ghost predicate DistinctClaims(cs: seq<Claim>) {
    forall i, j :: 0 <= i < j < |cs| ==> cs[i].id != cs[j].id
  }

  lemma {:induction false} DistinctPush(hs: seq<Htlc>, h: Htlc)
    requires Distinct(hs)
    ensures Distinct(hs + [h]) <==> !HasId(hs, h.id)
  {
    var all := hs + [h];
    if HasId(hs, h.id) {
      var i :| 0 <= i < |hs| && hs[i].id == h.id;
      assert all[i].id == all[|hs|].id;
    }
  }

  lemma {:induction false} HasIdIsPosition(hs: seq<Htlc>, id: U64)
    ensures HasId(hs, id) <==> Position(hs, id) < |hs|
  {
  }

  lemma {:induction false} WithoutAt<T>(s: seq<T>, i: nat, k: nat)
    requires i < |s| && k < |s| - 1
    ensures Without(s, i)[k] == s[if k < i then k else k + 1]
  {
  }

  /** Resolutions take HTLCs out of a list without disturbing the order or the ids of the rest. */
  lemma {:induction false} WithoutKeepsIds(hs: seq<Htlc>, i: nat, bound: nat)
    requires i < |hs|
    ensures Distinct(hs) ==> Distinct(Without(hs, i)) && !HasId(Without(hs, i), hs[i].id)
    ensures Increasing(hs) ==> Increasing(Without(hs, i))
    ensures AtMost(hs, bound) ==> AtMost(Without(hs, i), bound)
    ensures forall id: U64 :: HasId(Without(hs, i), id) ==> HasId(hs, id)
  {
    var r := Without(hs, i);
    forall k | 0 <= k < |r|
      ensures r[k] == hs[if k < i then k else k + 1]
    {
      WithoutAt(hs, i, k);
    }
  }

  lemma {:induction false} DrainKeepsOrder(hs: seq<Htlc>, cs: seq<Claim>, bound: nat)
    requires Drain(hs, cs).Some?
    ensures Increasing(hs) ==> Increasing(Drain(hs, cs).value.rest)
    ensures AtMost(hs, bound) ==> AtMost(Drain(hs, cs).value.rest, bound)
    ensures Distinct(hs) ==> Distinct(Drain(hs, cs).value.rest)
  {
    if cs != [] {
      var mid := Drain(hs, cs[..|cs| - 1]).value.rest;
      DrainKeepsOrder(hs, cs[..|cs| - 1], bound);
      WithoutKeepsIds(mid, Position(mid, cs[|cs| - 1].id), bound);
    }
  }

  /** In a list without repeated ids, every id is claimed at most once and then gone. */
  lemma {:induction false} DrainClaimsOnce(hs: seq<Htlc>, cs: seq<Claim>)
    requires Drain(hs, cs).Some? && Distinct(hs)
    ensures DistinctClaims(cs)
    ensures forall i :: 0 <= i < |cs| ==> !HasId(Drain(hs, cs).value.rest, cs[i].id)
  {
    hide Without, Increasing, AtMost, Position;
    if cs != [] {
      var p, c := cs[..|cs| - 1], cs[|cs| - 1];
      var mid := Drain(hs, p).value.rest;
      DrainClaimsOnce(hs, p);
      DrainKeepsOrder(hs, p, 0);
      HasIdIsPosition(mid, c.id);
      WithoutKeepsIds(mid, Position(mid, c.id), 0);
      assert forall k :: 0 <= k < |p| ==> cs[k] == p[k];
    }
  }

  lemma {:induction false} PositionConcat(a: seq<Htlc>, b: seq<Htlc>, id: U64)
    requires HasId(a, id)
    ensures Position(a + b, id) == Position(a, id) < |a|
  {
    HasIdIsPosition(a, id);
    var i, j := Position(a, id), Position(a + b, id);
    assert (a + b)[i].id == id;
    assert j <= i;
    assert (a + b)[j].id == a[j].id;
  }

  lemma {:induction false} PositionWithout(hs: seq<Htlc>, i: nat, id: U64)
    requires i < |hs| && hs[i].id != id && HasId(hs, id)
    ensures var r := Without(hs, i);
      HasId(r, id) && Position(r, id) < |r| && r[Position(r, id)] == hs[Position(hs, id)]
  {
    hide Position, Without;
    HasIdIsPosition(hs, id);
    var r, p := Without(hs, i), Position(hs, id);
    var p' := if p < i then p else p - 1;
    WithoutSize(hs, i);
    WithoutAt(hs, i, p');
    forall k | 0 <= k < p'
      ensures r[k].id != id
    {
      WithoutAt(hs, i, k);
    }
    PositionIs(r, id, p');
  }

  lemma {:induction false} PositionIs(hs: seq<Htlc>, id: U64, p: nat)
    requires p < |hs| && hs[p].id == id && forall k :: 0 <= k < p ==> hs[k].id != id
    ensures Position(hs, id) == p && HasId(hs, id)
  {
  }

  lemma {:induction false} WithoutSize<T>(s: seq<T>, i: nat)
    requires i < |s|
    ensures |Without(s, i)| == |s| - 1
  {
  }

  /** An id nobody claims keeps naming the HTLC it named before. */
  lemma {:induction false} DrainKeepsUnclaimed(hs: seq<Htlc>, cs: seq<Claim>, id: U64)
    requires Drain(hs, cs).Some? && HasId(hs, id) && !Claims(cs, id)
    ensures var rest := Drain(hs, cs).value.rest;
      && HasId(rest, id) && Position(rest, id) < |rest|
      && Position(hs, id) < |hs| && rest[Position(rest, id)] == hs[Position(hs, id)]
  {
    HasIdIsPosition(hs, id);
    if cs != [] {
      var p, c := cs[..|cs| - 1], cs[|cs| - 1];
      assert forall k :: 0 <= k < |p| ==> p[k] == cs[k];
      assert cs[|cs| - 1].id != id;
      DrainKeepsUnclaimed(hs, p, id);
      var mid := Drain(hs, p).value.rest;
      PositionWithout(mid, Position(mid, c.id), id);
    }
  }

  // ---- Where HTLCs come from ---------------------------------------------------------------

  lemma {:induction false} SidesGrow(q: seq<Update>, n: nat, h: Htlc)
    requires n <= |q|
    ensures h in AddsOf(RemoteOf(q[..n])) ==> h in AddsOf(RemoteOf(q))
    ensures h in AddsOf(LocalOf(q[..n])) ==> h in AddsOf(LocalOf(q))
    decreases |q| - n
  {
    if n == |q| {
      assert q[..n] == q;
    } else {
      assert q[..n + 1][..n] == q[..n];
      OneMore(q[..n + 1], h);
      SidesGrow(q, n + 1, h);
    }
  }

  lemma {:induction false} OneMore(q: seq<Update>, h: Htlc)
    requires q != []
    ensures var p, u := q[..|q| - 1], q[|q| - 1];
      && (h in AddsOf(RemoteOf(q)) <==> h in AddsOf(RemoteOf(p)) || u == Remote(Add(h)))
      && (h in AddsOf(LocalOf(q)) <==> h in AddsOf(LocalOf(p)) || u == Local(Add(h)))
  {
    var p, u := q[..|q| - 1], q[|q| - 1];
    if u.Local? {
      OneMoreAdd(LocalOf(p), u.u, h);
      assert RemoteOf(q) == RemoteOf(p);
    } else {
      OneMoreAdd(RemoteOf(p), u.u, h);
      assert LocalOf(q) == LocalOf(p);
    }
  }

  lemma {:induction false} OneMoreAdd(us: seq<PendingUpdate>, u: PendingUpdate, h: Htlc)
    ensures h in AddsOf(us + [u]) <==> h in AddsOf(us) || u == Add(h)
  {
    assert (us + [u])[..|us + [u]| - 1] == us;
  }

  /** Every HTLC in flight was there at the start or was added on the way. */
  lemma {:induction false} Origin<S>(l: Lcss<S>, q: seq<Update>, h: Htlc)
    requires Fold(l, q).Ok?
    ensures h in Fold(l, q).value.incoming ==> h in l.incoming + AddsOf(RemoteOf(q))
    ensures h in Fold(l, q).value.outgoing ==> h in l.outgoing + AddsOf(LocalOf(q))
  {
    if q != [] {
      hide LocalOf, RemoteOf, AddsOf;
      Origin(l, q[..|q| - 1], h);
      OneMore(q, h);
      StepOrigin(Fold(l, q[..|q| - 1]).value, q[|q| - 1], h);
    }
  }

  lemma {:induction false} StepOrigin<S>(s: Lcss<S>, u: Update, h: Htlc)
    requires Step(s, u).Ok?
    ensures h in Step(s, u).value.incoming ==> h in s.incoming || u == Remote(Add(h))
    ensures h in Step(s, u).value.outgoing ==> h in s.outgoing || u == Local(Add(h))
  {
  }

  lemma {:induction false} SameId(hs: seq<Htlc>, g: Htlc, h: Htlc)
    requires Distinct(hs) && g in hs && h in hs && g.id == h.id
    ensures g == h
  {
  }

  /** A fold that succeeds succeeds on every prefix, and the next update is a step from there. */
  lemma {:induction false} PrefixFolds<S>(l: Lcss<S>, q: seq<Update>, n: nat)
    requires Fold(l, q).Ok? && n < |q|
    ensures Fold(l, q[..n]).Ok? && Fold(l, q[..n + 1]).Ok?
    ensures Fold(l, q[..n + 1]) == Step(Fold(l, q[..n]).value, q[n])
  {
    FoldErrorStays(l, q, n);
    FoldErrorStays(l, q, n + 1);
    FoldPush(l, q, n, Fold(l, q[..n]).value);
  }
}

/** What a forward between two hosted channels earns the host, and how the demanded fee compares with BOLT #7. */
module Fees {
  import opened Base
  import opened State
  import opened StateLaws
  import opened HtlcIds
  import opened Hosted = Channel
  import opened ChannelLaws
  import opened Forwarding

  // ---- The demanded fee --------------------------------------------------------------------

  /** The fee of section "HTLC Fees" of BOLT #7. */
  function BoltFee(r: Routing, amount: U64): nat {
    r.feeBase + amount * r.feePpm / MILLION
  }

  predicate Saturates(r: Routing, amount: U64) {
    amount / MILLION * r.feePpm + r.feeBase >= U64_BOUND
  }

  /** Multiplying before dividing gains the share of the part below a million. */
  lemma {:induction false} DivideLast(amount: nat, ppm: nat)
    ensures amount * ppm / MILLION == amount / MILLION * ppm + amount % MILLION * ppm / MILLION
  {
    var whole, part := amount / MILLION, amount % MILLION;
    assert amount * ppm == (whole * ppm) * MILLION + part * ppm by {
      assert amount == whole * MILLION + part;
      assert (whole * MILLION + part) * ppm == whole * MILLION * ppm + part * ppm;
      assert whole * MILLION * ppm == whole * ppm * MILLION;
    }
    DivideShifted(whole * ppm, part * ppm);
  }

  lemma {:induction false} DivideShifted(n: nat, rest: nat)
    ensures (n * MILLION + rest) / MILLION == n + rest / MILLION
  {
  }

  lemma {:induction false} ShareBelow(part: nat, ppm: nat)
    requires part < MILLION
    ensures ppm > 0 ==> part * ppm / MILLION < ppm
  {
    if ppm > 0 {
      assert part * ppm < MILLION * ppm;
    }
  }

  /** Absent saturation the host never asks for more than BOLT #7, and asks for less by under `feePpm`. */
  lemma {:induction false} DemandedFeeBounds(r: Routing, amount: U64)
    requires !Saturates(r, amount)
    ensures DemandedFee(r, amount) <= BoltFee(r, amount)
    ensures r.feePpm > 0 ==> BoltFee(r, amount) - DemandedFee(r, amount) < r.feePpm
    ensures r.feePpm == 0 ==> BoltFee(r, amount) == DemandedFee(r, amount)
  {
    DivideLast(amount, r.feePpm);
    ShareBelow(amount % MILLION, r.feePpm);
  }

  /** No smaller bound holds: just below a million the whole proportional fee but one is lost. */
  lemma {:induction false} ShortfallIsTight(r: Routing)
    requires 0 < r.feePpm <= MILLION
    ensures BoltFee(r, MILLION - 1) - DemandedFee(r, MILLION - 1) == r.feePpm - 1
  {
    var ppm := r.feePpm;
    assert (MILLION - 1) * ppm == (ppm - 1) * MILLION + (MILLION - ppm);
    DivideShifted(ppm - 1, MILLION - ppm);
  }

  /** The guard secures the fee, unless the sum saturates and the HTLC brings the largest amount there is. */
  lemma {:induction false} GuardSecuresFeeIff(r: Routing, height: U32, htlc: Htlc, relay: Relay)
    requires PaysEnough(r, height, htlc, relay)
    ensures htlc.amount - relay.amount >= DemandedFee(r, relay.amount) <==>
      relay.amount + DemandedFee(r, relay.amount) < U64_BOUND
    ensures HtlcEncodes(htlc) ==> relay.amount + DemandedFee(r, relay.amount) < U64_BOUND
  {
  }

  // ---- Gains along a queue -----------------------------------------------------------------

  /** The host's balance after the first `n` updates. */
  function HostBalance<S>(l: Lcss<S>, q: seq<Update>, n: nat): int
    requires n <= |q|
  {
    match Fold(l, q[..n]) case Ok(t) => t.localBalance case Err(_) => 0
  }

  function PeerBalance<S>(l: Lcss<S>, q: seq<Update>, n: nat): int
    requires n <= |q|
  {
    match Fold(l, q[..n]) case Ok(t) => t.remoteBalance case Err(_) => 0
  }

  function HostGain<S>(l: Lcss<S>, q: seq<Update>, n: nat): int
    requires n < |q|
  {
    HostBalance(l, q, n + 1) - HostBalance(l, q, n)
  }

  function PeerGain<S>(l: Lcss<S>, q: seq<Update>, n: nat): int
    requires n < |q|
  {
    PeerBalance(l, q, n + 1) - PeerBalance(l, q, n)
  }

  /** What the host gains from the first `n` updates, not counting those in `skip`. */
  function GainWithout<S>(l: Lcss<S>, q: seq<Update>, skip: set<nat>, n: nat): int
    requires n <= |q|
  {
    if n == 0 then 0
    else GainWithout(l, q, skip, n - 1) + (if n - 1 in skip then 0 else HostGain(l, q, n - 1))
  }

  lemma {:induction false} GainsAddUp<S>(l: Lcss<S>, q: seq<Update>, n: nat)
    requires n <= |q|
    ensures HostBalance(l, q, n) == l.localBalance + GainWithout(l, q, {}, n)
  {
    hide HostBalance;
    if n == 0 {
      NoUpdates(l, q);
    } else {
      GainsAddUp(l, q, n - 1);
    }
  }

  lemma {:induction false} NoUpdates<S>(l: Lcss<S>, q: seq<Update>)
    ensures HostBalance(l, q, 0) == l.localBalance
  {
    assert q[..0] == [];
  }

  lemma {:induction false} SkipOne<S>(l: Lcss<S>, q: seq<Update>, skip: set<nat>, i: nat, n: nat)
    requires n <= |q| && i < |q| && i !in skip
    ensures GainWithout(l, q, skip, n) == GainWithout(l, q, skip + {i}, n) + (if i < n then HostGain(l, q, i) else 0)
  {
    hide HostGain;
    if n > 0 {
      SkipOne(l, q, skip, i, n - 1);
    }
  }

  // ---- Which HTLC an update touches --------------------------------------------------------

  /** The first HTLC under the id is this one. */
  predicate Names(hs: seq<Htlc>, h: Htlc) {
    Position(hs, h.id) < |hs| && hs[Position(hs, h.id)] == h
  }

  /** Between the two places no update of that side resolves the id. */
  predicate Unresolved(q: seq<Update>, a: nat, n: nat, local: bool, id: U64)
    requires a <= n <= |q|
  {
    forall m :: a <= m < n ==> ResolutionKey(q[m]) != Some((local, id))
  }

  lemma {:induction false} StepKeepsName<S>(s: Lcss<S>, u: Update, h: Htlc)
    requires Step(s, u).Ok?
    ensures Names(s.incoming, h) && ResolutionKey(u) != Some((true, h.id)) ==> Names(Step(s, u).value.incoming, h)
    ensures Names(s.outgoing, h) && ResolutionKey(u) != Some((false, h.id)) ==> Names(Step(s, u).value.outgoing, h)
  {
    if u.u.Add? {
      AppendKeepsName(if u.Local? then s.outgoing else s.incoming, u.u.htlc, h);
    } else {
      WithoutKeepsName(if u.Local? then s.incoming else s.outgoing, u.u.id, h);
    }
  }

  lemma {:induction false} AppendKeepsName(hs: seq<Htlc>, added: Htlc, h: Htlc)
    ensures Names(hs, h) ==> Names(hs + [added], h)
  {
    if Names(hs, h) {
      PositionAppend(hs, added, h.id);
    }
  }

  lemma {:induction false} WithoutKeepsName(hs: seq<Htlc>, id: U64, h: Htlc)
    ensures Names(hs, h) && id != h.id && Position(hs, id) < |hs| ==> Names(Without(hs, Position(hs, id)), h)
  {
    if Names(hs, h) && id != h.id && Position(hs, id) < |hs| {
      HasIdIsPosition(hs, h.id);
      PositionWithout(hs, Position(hs, id), h.id);
    }
  }

  /** An id keeps naming its HTLC until the other side resolves it, whatever is added meanwhile. */
  lemma {:induction false} KeepsName<S>(l: Lcss<S>, q: seq<Update>, a: nat, n: nat, h: Htlc)
    requires Fold(l, q).Ok? && a <= n <= |q| && Fold(l, q[..a]).Ok?
    ensures Fold(l, q[..n]).Ok?
    ensures Names(Fold(l, q[..a]).value.incoming, h) && Unresolved(q, a, n, true, h.id) ==> Names(Fold(l, q[..n]).value.incoming, h)
    ensures Names(Fold(l, q[..a]).value.outgoing, h) && Unresolved(q, a, n, false, h.id) ==> Names(Fold(l, q[..n]).value.outgoing, h)
  {
    hide Fold, Names;
    if a < n {
      KeepsName(l, q, a, n - 1, h);
      PrefixFolds(l, q, n - 1);
      StepKeepsName(Fold(l, q[..n - 1]).value, q[n - 1], h);
    }
  }

  /** The host resolving an HTLC of the peer: a fulfill earns its whole amount, a fail gives it back. */
  lemma {:induction false} ResolvingIncoming<S>(l: Lcss<S>, q: seq<Update>, n: nat, h: Htlc)
    requires Fold(l, q).Ok? && n < |q| && Names(l.incoming, h)
    requires ResolutionKey(q[n]) == Some((true, h.id)) && Unresolved(q, 0, n, true, h.id)
    ensures HostGain(l, q, n) == if q[n].u.Fulfill? then h.amount else 0
    ensures PeerGain(l, q, n) == if q[n].u.Fulfill? then 0 else h.amount
  {
    hide Fold, Unresolved;
    PrefixFolds(l, q, n);
    Unfolded(l, q);
    KeepsName(l, q, 0, n, h);
  }

  lemma {:induction false} Unfolded<S>(l: Lcss<S>, q: seq<Update>)
    ensures Fold(l, q[..0]) == Ok(l)
  {
  }

  /** The peer resolving an HTLC of the host: a fulfill earns the host nothing, a fail gives it back. */
  lemma {:induction false} ResolvingOutgoing<S>(l: Lcss<S>, q: seq<Update>, j: nat, n: nat, h: Htlc)
    requires Fold(l, q).Ok? && j < n < |q| && q[j] == Local(Add(h))
    requires Fold(l, q[..j]).Ok? ==> !HasId(Fold(l, q[..j]).value.outgoing, h.id)
    requires ResolutionKey(q[n]) == Some((false, h.id)) && Unresolved(q, j + 1, n, false, h.id)
    ensures HostGain(l, q, n) == if q[n].u.Fulfill? then 0 else h.amount
    ensures PeerGain(l, q, n) == if q[n].u.Fulfill? then h.amount else 0
  {
    hide Fold, Unresolved, HasId;
    PrefixFolds(l, q, j);
    NewName(Fold(l, q[..j]).value.outgoing, h);
    KeepsName(l, q, j + 1, n, h);
    PrefixFolds(l, q, n);
  }

  lemma {:induction false} NewName(hs: seq<Htlc>, h: Htlc)
    requires !HasId(hs, h.id)
    ensures Names(hs + [h], h)
  {
    var all := hs + [h];
    assert all[|hs|] == h;
    assert forall i :: 0 <= i < |hs| ==> all[i].id != h.id;
    PositionIs(all, h.id, |hs|);
  }

  lemma {:induction false} Adding<S>(l: Lcss<S>, q: seq<Update>, n: nat)
    requires Fold(l, q).Ok? && n < |q| && q[n].u.Add?
    ensures HostGain(l, q, n) == if q[n].Local? then 0 - q[n].u.htlc.amount else 0
    ensures PeerGain(l, q, n) == if q[n].Local? then 0 else 0 - q[n].u.htlc.amount
    ensures q[n].u.htlc in AddsOf(if q[n].Local? then LocalOf(q) else RemoteOf(q))
  {
    hide Fold, LocalOf, RemoteOf, AddsOf;
    PrefixFolds(l, q, n);
    assert q[..n + 1][..n] == q[..n];
    OneMore(q[..n + 1], q[n].u.htlc);
    SidesGrow(q, n + 1, q[n].u.htlc);
  }

  /**
   * Queues committed one after another act like one long queue: what a commit changes besides, the
   * block day and the signatures, plays no part.
   */
  lemma {:induction false} CommitsCompose<S>(l: Lcss<S>, q: seq<Update>, committed: Lcss<S>, q': seq<Update>)
    requires Fold(l, q).Ok? && NetOf(committed) == NetOf(Fold(l, q).value)
    ensures Fold(l, q + q').Ok? <==> Fold(committed, q').Ok?
    ensures Fold(l, q + q').Ok? ==> NetOf(Fold(l, q + q').value) == NetOf(Fold(committed, q').value)
  {
    if q' == [] {
      assert q + q' == q;
    } else {
      var p, u := q'[..|q'| - 1], q'[|q'| - 1];
      CommitsCompose(l, q, committed, p);
      assert (q + q')[..|q + q'| - 1] == q + p;
      if Fold(committed, p).Ok? {
        StepIgnoresHeader(Fold(l, q + p).value, Fold(committed, p).value, u);
      }
    }
  }

  // ---- Forwards ----------------------------------------------------------------------------

  /** Sending a resolution queues that resolution or nothing. */
  lemma {:induction false} SendLocalQueues(h: Host, w: World, peer: Key, r: PendingUpdate, p: Key)
    requires !r.Add? && p in h.channels
    ensures var h', q := SendLocal(h, w, peer, r).host, h.channels[p].data.uncommitted;
      && p in h'.channels && h'.channels.Keys == h.channels.Keys
      && (h'.channels[p].data.uncommitted == q || h'.channels[p].data.uncommitted == q + [Local(r)])
  {
    hide SignedNext, HasId;
  }

  lemma {:induction false} FailBackAddsNothing(h: Host, w: World, peer: Key, htlc: Htlc, p: Key, g: Htlc)
    requires p in h.channels
    ensures var h' := FailBack(h, w, peer, htlc).host;
      p in h'.channels && h'.channels[p].data.uncommitted != h.channels[p].data.uncommitted + [Local(Add(g))]
  {
    hide SendLocal;
    var r := Fail(w.channelIdOf(peer), htlc.id, FailureFor(w, htlc));
    var q := h.channels[p].data.uncommitted;
    SendLocalQueues(h, w, peer, r, p);
    assert (q + [Local(r)])[|q|] != (q + [Local(Add(g))])[|q|];
  }

  /** An offer queues the stamped HTLC in its target or nothing, and nothing elsewhere. */
  lemma {:induction false} OfferQueues(h: Host, w: World, target: Key, o: Offer, env: Env, p: Key)
    requires target in h.channels && p in h.channels
    ensures var h', d := OnOffer(h, w, target, o, env).host, h.channels[p].data;
      && p in h'.channels && h'.channels.Keys == h.channels.Keys
      && (|| h'.channels[p].data.uncommitted == d.uncommitted
          || (p == target && CountersFit(d)
              && h'.channels[p].data.uncommitted == d.uncommitted + [Local(Add(Stamp(d, w.channelIdOf(p), o.htlc)))]))
  {
    hide Judge, SignedNext, LocalOf;
    if Judge(h, w, target, o, env.disconnected) == Accepted {
      AcceptedFits(h, w, target, o, env.disconnected);
    }
  }

  /** The HTLC that a dispatch adds to a channel carries what the peeled onion asked for. */
  ghost predicate CarriesRelay(h: Host, w: World, peer: Key, htlc: Htlc, target: Key, g: Htlc)
    requires target in h.channels
  {
    var peeled := w.peel(htlc.onion, htlc.paymentHash);
    && peeled.Some? && PeerFor(h, w, peeled.value.scid) == Some(target) && target != peer
    && g.amount == peeled.value.amount && g.paymentHash == htlc.paymentHash && g.cltvExpiry == peeled.value.cltv
    && g.id == NextHtlcId(h.channels[target].data)
    && PaysEnough(RoutingFor(h.channels[target].data, h.policy), h.height, htlc, peeled.value)
  }

  ghost predicate DispatchAdds(h: Host, w: World, peer: Key, d: ChannelData, htlc: Htlc, env: Env, target: Key, g: Htlc) {
    var h' := DispatchIncoming(h, w, peer, d, htlc, env).host;
    && target in h.channels && target in h'.channels
    && h'.channels[target].data.uncommitted == h.channels[target].data.uncommitted + [Local(Add(g))]
  }

  lemma {:induction false} ToHostedAdds(h: Host, w: World, peer: Key, target: Key, htlc: Htlc, relay: Relay, env: Env, p: Key, g: Htlc)
    requires target in h.channels && peer != target && p in h.channels
    requires var h' := ToHosted(h, w, peer, target, htlc, relay, env).host;
      p in h'.channels && h'.channels[p].data.uncommitted == h.channels[p].data.uncommitted + [Local(Add(g))]
    ensures p == target && g.amount == relay.amount && g.paymentHash == htlc.paymentHash && g.cltvExpiry == relay.cltv
    ensures g.id == NextHtlcId(h.channels[target].data)
  {
    hide OnOffer, FailBack;
    var o := OfferOf(w, peer, target, htlc, relay);
    var offered := OnOffer(h, w, target, o, env).host;
    var q, d := h.channels[p].data.uncommitted, h.channels[p].data;
    OfferQueues(h, w, target, o, env, p);
    FailBackQueues(offered, w, peer, htlc, p);
    var stamped := offered.channels[p].data.uncommitted;
    if stamped == q {
      FailBackAddsNothing(offered, w, peer, htlc, p, g);
    } else {
      LastOfPush(q, Local(Add(Stamp(d, w.channelIdOf(p), o.htlc))), Local(Add(g)));
    }
  }

  /** Failing back makes no queue shorter, nor longer by more than one. */
  lemma {:induction false} FailBackQueues(h: Host, w: World, peer: Key, htlc: Htlc, p: Key)
    requires p in h.channels
    ensures var h', q := FailBack(h, w, peer, htlc).host, h.channels[p].data.uncommitted;
      && p in h'.channels
      && (h'.channels[p].data.uncommitted == q || |h'.channels[p].data.uncommitted| == |q| + 1)
  {
    hide SendLocal;
    SendLocalQueues(h, w, peer, Fail(w.channelIdOf(peer), htlc.id, FailureFor(w, htlc)), p);
  }

  lemma {:induction false} LastOfPush(q: seq<Update>, u: Update, v: Update)
    ensures q + [u] == q + [v] ==> u == v
    ensures |q + [u]| == |q| + 1
  {
    if q + [u] == q + [v] {
      assert (q + [u])[|q|] == (q + [v])[|q|];
    }
  }

  lemma {:induction false} ToNormalAddsNothing(h: Host, w: World, peer: Key, htlc: Htlc, relay: Relay, env: Env, p: Key, g: Htlc)
    requires p in h.channels
    ensures var h' := ToNormal(h, w, peer, htlc, relay, env).host;
      p in h'.channels && h'.channels[p].data.uncommitted != h.channels[p].data.uncommitted + [Local(Add(g))]
  {
    hide FailBack;
    var from, at := (w.scidOf(peer), htlc.id), (relay.scid, htlc.id);
    var link := ForwardLink(from, at, None, None, htlc.paymentHash, Some(relay.sharedSecret), |h.offers|, None);
    FailBackAddsNothing(AddLink(LogOffer(h, from), at, link), w, peer, htlc, p, g);
  }

  /** Whatever a dispatch adds to a channel was asked for by the onion and passed the guard. */
  lemma {:induction false} DispatchedIsPaid(h: Host, w: World, peer: Key, d: ChannelData, htlc: Htlc, env: Env, target: Key, g: Htlc)
    requires DispatchAdds(h, w, peer, d, htlc, env, target, g)
    ensures CarriesRelay(h, w, peer, htlc, target, g)
  {
    hide FailBack, SendLocal, ToHosted, ToNormal, WithinLimits, PaysEnough, RoutingFor;
    FailBackAddsNothing(h, w, peer, htlc, target, g);
    var malformed := FailMalformed(w.channelIdOf(peer), htlc.id, w.hashOnion(htlc.onion), 0xc005);
    SendLocalQueues(h, w, peer, malformed, target);
    LastOfPush(h.channels[target].data.uncommitted, Local(malformed), Local(Add(g)));
    var peeled := w.peel(htlc.onion, htlc.paymentHash);
    if peeled.Some? {
      ToNormalAddsNothing(h, w, peer, htlc, peeled.value, env, target, g);
      var behind := PeerFor(h, w, peeled.value.scid);
      if behind.Some? && behind.value != peer && WithinLimits(d, htlc) && htlc.amount >= peeled.value.amount
         && PaysEnough(RoutingFor(h.channels[behind.value].data, h.policy), h.height, htlc, peeled.value) {
        ToHostedAdds(h, w, peer, behind.value, htlc, peeled.value, env, target, g);
      }
    }
  }

  /**
   * The life of one forward in the updates of its two channels: `qs[i]` is the first to resolve the HTLC
   * of the source, `qt[j]` adds the forwarded one to the target and `qt[k]` is the first to resolve it.
   */
  ghost predicate ForwardIn(source: Cross, qs: seq<Update>, i: nat, target: Cross, qt: seq<Update>, j: nat, k: nat, htlc: Htlc, g: Htlc) {
    && Fold(source, qs).Ok? && Fold(target, qt).Ok?
    && Names(source.incoming, htlc)
    && i < |qs| && ResolutionKey(qs[i]) == Some((true, htlc.id)) && Unresolved(qs, 0, i, true, htlc.id)
    && j < k < |qt| && qt[j] == Local(Add(g))
    && (Fold(target, qt[..j]).Ok? ==> !HasId(Fold(target, qt[..j]).value.outgoing, g.id))
    && ResolutionKey(qt[k]) == Some((false, g.id)) && Unresolved(qt, j + 1, k, false, g.id)
  }

  lemma {:induction false} ForwardGains(source: Cross, qs: seq<Update>, i: nat, target: Cross, qt: seq<Update>, j: nat, k: nat, htlc: Htlc, g: Htlc)
    requires ForwardIn(source, qs, i, target, qt, j, k, htlc, g)
    ensures HostGain(source, qs, i) == if qs[i].u.Fulfill? then htlc.amount else 0
    ensures PeerGain(source, qs, i) == if qs[i].u.Fulfill? then 0 else htlc.amount
    ensures HostGain(target, qt, j) + HostGain(target, qt, k) == if qt[k].u.Fulfill? then 0 - g.amount else 0
    ensures PeerGain(target, qt, j) == 0 && PeerGain(target, qt, k) == if qt[k].u.Fulfill? then g.amount else 0
  {
    hide HostGain, PeerGain, Fold, LocalOf, RemoteOf, AddsOf, Names, Unresolved, HasId;
    ResolvingIncoming(source, qs, i, htlc);
    Adding(target, qt, j);
    ResolvingOutgoing(target, qt, j, k, g);
  }

  lemma {:induction false} BalanceApart<S>(l: Lcss<S>, q: seq<Update>, i: nat)
    requires Fold(l, q).Ok? && i < |q|
    ensures Fold(l, q).value.localBalance == l.localBalance + GainWithout(l, q, {i}, |q|) + HostGain(l, q, i)
  {
    hide HostGain, Fold;
    GainsAddUp(l, q, |q|);
    SkipOne(l, q, {}, i, |q|);
    assert {} + {i} == {i} && q[..|q|] == q;
  }

  lemma {:induction false} BalanceApartTwo<S>(l: Lcss<S>, q: seq<Update>, j: nat, k: nat)
    requires Fold(l, q).Ok? && j < k < |q|
    ensures Fold(l, q).value.localBalance ==
      l.localBalance + GainWithout(l, q, {j, k}, |q|) + HostGain(l, q, j) + HostGain(l, q, k)
  {
    hide HostGain, Fold, GainWithout;
    BalanceApart(l, q, j);
    SkipOne(l, q, {j}, k, |q|);
    assert {j} + {k} == {j, k};
  }

  /** What a forward adds to the host's two balances, apart from what the other updates do. */
  lemma {:induction false} ForwardBalances(source: Cross, qs: seq<Update>, i: nat, target: Cross, qt: seq<Update>, j: nat, k: nat, htlc: Htlc, g: Htlc)
    requires ForwardIn(source, qs, i, target, qt, j, k, htlc, g)
    ensures Fold(source, qs).value.localBalance ==
      source.localBalance + GainWithout(source, qs, {i}, |qs|) + (if qs[i].u.Fulfill? then htlc.amount else 0)
    ensures Fold(target, qt).value.localBalance ==
      target.localBalance + GainWithout(target, qt, {j, k}, |qt|) - (if qt[k].u.Fulfill? then g.amount else 0)
    ensures PeerGain(source, qs, i) == if qs[i].u.Fulfill? then 0 else htlc.amount
    ensures PeerGain(target, qt, j) == 0 && PeerGain(target, qt, k) == if qt[k].u.Fulfill? then g.amount else 0
  {
    hide HostGain, PeerGain, GainWithout, Fold, LocalOf, RemoteOf, AddsOf, Names, Unresolved, HasId;
    ForwardGains(source, qs, i, target, qt, j, k, htlc, g);
    BalanceApart(source, qs, i);
    BalanceApartTwo(target, qt, j, k);
  }

  lemma {:induction false} CommittedEncodes(c: Hosted.Channel, htlc: Htlc)
    requires Invariant(c) && htlc in c.data.lcss.incoming
    ensures HtlcEncodes(htlc)
  {
    hide SoundState, QueueSound, HtlcEncodes;
  }

  lemma {:induction false} PrefixLast(q: seq<Update>, u: Update, all: seq<Update>)
    requires q + [u] <= all
    ensures |q| < |all| && all[|q|] == u && all[..|q|] == q
  {
    assert (q + [u])[|q|] == u && (q + [u])[..|q|] == q;
  }

  /** The fee that the dispatch of a committed HTLC secures. */
  lemma {:induction false} DispatchSecuresFee(h: Host, w: World, peer: Key, c: Hosted.Channel, htlc: Htlc, env: Env, target: Key, g: Htlc)
    requires Invariant(c) && htlc in c.data.lcss.incoming
    requires DispatchAdds(h, w, peer, c.data, htlc, env, target, g)
    ensures htlc.amount - g.amount >= DemandedFee(RoutingFor(h.channels[target].data, h.policy), g.amount)
  {
    hide Invariant, DispatchIncoming, PaysEnough, RoutingFor, DemandedFee;
    DispatchedIsPaid(h, w, peer, c.data, htlc, env, target, g);
    CommittedEncodes(c, htlc);
    GuardSecuresFeeIff(RoutingFor(h.channels[target].data, h.policy), h.height, htlc, w.peel(htlc.onion, htlc.paymentHash).value);
  }
}

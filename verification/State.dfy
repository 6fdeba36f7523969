/** The cross-signed state and the fold of pending updates into the next one (src/state.rs). */
module State {
  import opened Base

  /** SHA-256, used only to compare a preimage with a payment hash; nothing is assumed of it. */
  const SHA256: Bytes32 -> Bytes32

  datatype Htlc = Htlc(
    channelId: Bytes32, id: U64, amount: U64, paymentHash: Bytes32,
    cltvExpiry: U32, onion: Bytes, tlv: Bytes)

  predicate HtlcEncodes(h: Htlc) {
    h.id <= OVERFLOW_MAX && h.amount <= OVERFLOW_MAX && |h.onion| == ONION_SIZE
  }

  predicate HtlcsEncode(hs: seq<Htlc>) {
    forall i :: 0 <= i < |hs| ==> HtlcEncodes(hs[i])
  }

  datatype Init = Init(
    maxInFlight: U64, htlcMinimum: U64, maxAccepted: U16,
    capacity: U64, initialClientBalance: U64, features: seq<U16>)

  /** `S` is the type of signatures: bytes on the wire, ideal signatures in the channel model. */
  datatype Lcss<S> = Lcss(
    isHost: bool, refund: Bytes, init: Init, blockDay: U32,
    localBalance: U64, remoteBalance: U64, localUpdates: nat, remoteUpdates: nat,
    incoming: seq<Htlc>, outgoing: seq<Htlc>,
    remoteSigOfLocal: S, localSigOfRemote: S)

  datatype PendingUpdate =
    | Add(htlc: Htlc)
    | Fulfill(channelId: Bytes32, id: U64, preimage: Bytes32)
    | Fail(channelId: Bytes32, id: U64, reason: Bytes)
    | FailMalformed(channelId: Bytes32, id: U64, shaOfOnion: Bytes32, code: U16)

  datatype Update = Local(u: PendingUpdate) | Remote(u: PendingUpdate)

  datatype StateError =
    | NegativeBalance(have: U64, need: U64)
    | HtlcNotFound(id: U64)
    | WrongPreimage
    | Overflow

  /** The index of the first HTLC with the given id, or the length of the list. */
  function Position(hs: seq<Htlc>, id: U64): (i: nat)
    ensures i <= |hs|
    ensures i < |hs| ==> hs[i].id == id
    ensures forall j :: 0 <= j < i ==> hs[j].id != id
  {
    if hs == [] then 0
    else if hs[0].id == id then 0
    else 1 + Position(hs[1..], id)
  }

  function Without<T>(s: seq<T>, i: nat): seq<T>
    requires i < |s|
  {
    s[..i] + s[i + 1..]
  }

  function CheckedAdd(a: U64, b: U64): Result<U64, StateError> {
    if a + b < U64_BOUND then Ok(a + b) else Err(Overflow)
  }

  function CheckedSub(a: U64, b: U64): Result<U64, StateError> {
    if b <= a then Ok(a - b) else Err(NegativeBalance(a, b))
  }

  /** The effect of one pending update of either side. */
  function Step<S>(s: Lcss<S>, update: Update): Result<Lcss<S>, StateError> {
    match update
    case Local(u) => if u.Add? then LocalAdd(s, u.htlc) else LocalResolve(s, u)
    case Remote(u) => if u.Add? then RemoteAdd(s, u.htlc) else RemoteResolve(s, u)
  }

  function LocalAdd<S>(s: Lcss<S>, h: Htlc): Result<Lcss<S>, StateError> {
    var b :- CheckedSub(s.localBalance, h.amount);
    Ok(s.(localBalance := b, outgoing := s.outgoing + [h], localUpdates := s.localUpdates + 1))
  }

  function RemoteAdd<S>(s: Lcss<S>, h: Htlc): Result<Lcss<S>, StateError> {
    var b :- CheckedSub(s.remoteBalance, h.amount);
    Ok(s.(remoteBalance := b, incoming := s.incoming + [h], remoteUpdates := s.remoteUpdates + 1))
  }

  predicate PreimageMatches(r: PendingUpdate, h: Htlc) {
    r.Fulfill? ==> SHA256(r.preimage) == h.paymentHash
  }

  /** The host resolves an HTLC the client added: a fulfill pays the host, a fail refunds the client. */
  function LocalResolve<S>(s: Lcss<S>, r: PendingUpdate): Result<Lcss<S>, StateError>
    requires !r.Add?
  {
    var i := Position(s.incoming, r.id);
    if i == |s.incoming| then Err(HtlcNotFound(r.id))
    else if !PreimageMatches(r, s.incoming[i]) then Err(WrongPreimage)
    else
      var b :- CheckedAdd(if r.Fulfill? then s.localBalance else s.remoteBalance, s.incoming[i].amount);
      var t := s.(incoming := Without(s.incoming, i), localUpdates := s.localUpdates + 1);
      Ok(if r.Fulfill? then t.(localBalance := b) else t.(remoteBalance := b))
  }

  /** The client resolves an HTLC the host added. */
  function RemoteResolve<S>(s: Lcss<S>, r: PendingUpdate): Result<Lcss<S>, StateError>
    requires !r.Add?
  {
    var i := Position(s.outgoing, r.id);
    if i == |s.outgoing| then Err(HtlcNotFound(r.id))
    else if !PreimageMatches(r, s.outgoing[i]) then Err(WrongPreimage)
    else
      var b :- CheckedAdd(if r.Fulfill? then s.remoteBalance else s.localBalance, s.outgoing[i].amount);
      var t := s.(outgoing := Without(s.outgoing, i), remoteUpdates := s.remoteUpdates + 1);
      Ok(if r.Fulfill? then t.(remoteBalance := b) else t.(localBalance := b))
  }

  /** The next state after a whole queue, or the first error. */
  function Fold<S>(s: Lcss<S>, q: seq<Update>): Result<Lcss<S>, StateError> {
    if q == [] then Ok(s)
    else
      var t :- Fold(s, q[..|q| - 1]);
      Step(t, q[|q| - 1])
  }

  /** The updates one side made, in the order it made them. */
  function LocalOf(q: seq<Update>): seq<PendingUpdate> {
    if q == [] then []
    else LocalOf(q[..|q| - 1]) + (if q[|q| - 1].Local? then [q[|q| - 1].u] else [])
  }

  function RemoteOf(q: seq<Update>): seq<PendingUpdate> {
    if q == [] then []
    else RemoteOf(q[..|q| - 1]) + (if q[|q| - 1].Remote? then [q[|q| - 1].u] else [])
  }

  class StateManager<S> {
    var lcss: Lcss<S>
    var uncommitted: seq<Update>

    constructor (lcss: Lcss<S>)
      ensures this.lcss == lcss && uncommitted == []
    {
      this.lcss := lcss;
      uncommitted := [];
    }

    function NextLocalUpdates(): nat
      reads this
    {
      lcss.localUpdates + |LocalOf(uncommitted)|
    }

    function NextRemoteUpdates(): nat
      reads this
    {
      lcss.remoteUpdates + |RemoteOf(uncommitted)|
    }

    method LcssNext() returns (r: Result<Lcss<S>, StateError>)
      ensures r == Fold(lcss, uncommitted)
    {
      var q := uncommitted;
      var next := lcss.(localUpdates := 0, remoteUpdates := 0);
      ghost var folded := lcss;
      for k := 0 to |q|
        invariant Fold(lcss, q[..k]) == Ok(folded)
        invariant next == folded.(localUpdates := |LocalOf(q[..k])|, remoteUpdates := |RemoteOf(q[..k])|)
      {
        FoldPush(lcss, q, k, folded);
        StepCounts(folded, q[k], next.localUpdates, next.remoteUpdates);
        var applied := Apply(next, q[k]);
        if applied.Err? {
          return Err(applied.error);
        }
        next := applied.value;
        folded := Step(folded, q[k]).value;
      }
      assert q[..|q|] == q;
      FoldKeepsHeader(lcss, q);
      next := next.(localUpdates := NextLocalUpdates(), remoteUpdates := NextRemoteUpdates(),
                    blockDay := lcss.blockDay);
      r := Ok(next);
    }

    /** The body of the loop: each branch edits a copy of the state field by field. */
    static method Apply(s: Lcss<S>, update: Update) returns (r: Result<Lcss<S>, StateError>)
      ensures r == Step(s, update)
    {
      var next := s;
      var u := update.u;
      if update.Local? && u.Add? {
        if next.localBalance < u.htlc.amount {
          return Err(NegativeBalance(next.localBalance, u.htlc.amount));
        }
        next := next.(localBalance := next.localBalance - u.htlc.amount);
        next := next.(outgoing := next.outgoing + [u.htlc], localUpdates := next.localUpdates + 1);
      } else if u.Add? {
        if next.remoteBalance < u.htlc.amount {
          return Err(NegativeBalance(next.remoteBalance, u.htlc.amount));
        }
        next := next.(remoteBalance := next.remoteBalance - u.htlc.amount);
        next := next.(incoming := next.incoming + [u.htlc], remoteUpdates := next.remoteUpdates + 1);
      } else if update.Local? {
        var pos := Position(next.incoming, u.id);
        if pos == |next.incoming| {
          return Err(HtlcNotFound(u.id));
        }
        var h := next.incoming[pos];
        next := next.(incoming := Without(next.incoming, pos));
        if u.Fulfill? && SHA256(u.preimage) != h.paymentHash {
          return Err(WrongPreimage);
        }
        var credited := if u.Fulfill? then next.localBalance else next.remoteBalance;
        if credited + h.amount >= U64_BOUND {
          return Err(Overflow);
        }
        if u.Fulfill? {
          next := next.(localBalance := credited + h.amount);
        } else {
          next := next.(remoteBalance := credited + h.amount);
        }
        next := next.(localUpdates := next.localUpdates + 1);
      } else {
        var pos := Position(next.outgoing, u.id);
        if pos == |next.outgoing| {
          return Err(HtlcNotFound(u.id));
        }
        var h := next.outgoing[pos];
        next := next.(outgoing := Without(next.outgoing, pos));
        if u.Fulfill? && SHA256(u.preimage) != h.paymentHash {
          return Err(WrongPreimage);
        }
        var credited := if u.Fulfill? then next.remoteBalance else next.localBalance;
        if credited + h.amount >= U64_BOUND {
          return Err(Overflow);
        }
        if u.Fulfill? {
          next := next.(remoteBalance := credited + h.amount);
        } else {
          next := next.(localBalance := credited + h.amount);
        }
        next := next.(remoteUpdates := next.remoteUpdates + 1);
      }
      r := Ok(next);
    }

    method AddLocal(u: PendingUpdate)
      modifies this
      ensures lcss == old(lcss) && uncommitted == old(uncommitted) + [Local(u)]
    {
      uncommitted := uncommitted + [Local(u)];
    }

    method AddRemote(u: PendingUpdate)
      modifies this
      ensures lcss == old(lcss) && uncommitted == old(uncommitted) + [Remote(u)]
    {
      uncommitted := uncommitted + [Remote(u)];
    }

    method Commit(lcss: Lcss<S>)
      modifies this
      ensures this.lcss == lcss && uncommitted == []
    {
      this.lcss := lcss;
      uncommitted := [];
    }
  }

  /** An error in a prefix of the queue is the error of the whole queue. */
  lemma {:induction false} FoldErrorStays<S>(s: Lcss<S>, q: seq<Update>, k: nat)
    requires k <= |q|
    ensures Fold(s, q[..k]).Err? ==> Fold(s, q) == Fold(s, q[..k])
    decreases |q| - k
  {
    if k == |q| {
      assert q[..k] == q;
    } else {
      assert q[..k + 1][..k] == q[..k];
      FoldErrorStays(s, q, k + 1);
    }
  }

  /** What one more update of the queue adds to a fold that has gone well so far. */
  lemma {:induction false} FoldPush<S>(s: Lcss<S>, q: seq<Update>, k: nat, t: Lcss<S>)
    requires k < |q| && Fold(s, q[..k]) == Ok(t)
    ensures Fold(s, q[..k + 1]) == Step(t, q[k])
    ensures Step(t, q[k]).Err? ==> Fold(s, q) == Step(t, q[k])
    ensures |LocalOf(q[..k + 1])| == |LocalOf(q[..k])| + (if q[k].Local? then 1 else 0)
    ensures |RemoteOf(q[..k + 1])| == |RemoteOf(q[..k])| + (if q[k].Remote? then 1 else 0)
  {
    assert q[..k + 1][..k] == q[..k];
    FoldErrorStays(s, q, k + 1);
  }

  ghost predicate CountersOf<S>(s: Lcss<S>, q: seq<Update>, t: Lcss<S>) {
    && t.localUpdates == s.localUpdates + |LocalOf(q)|
    && t.remoteUpdates == s.remoteUpdates + |RemoteOf(q)|
  }

  /** One step advances exactly one counter by one and reads neither. */
  lemma {:induction false} StepCounts<S>(s: Lcss<S>, u: Update, l: nat, r: nat)
    ensures Step(s.(localUpdates := l, remoteUpdates := r), u) ==
      (var t :- Step(s, u); Ok(t.(localUpdates := l + (if u.Local? then 1 else 0),
                                  remoteUpdates := r + (if u.Remote? then 1 else 0))))
    ensures Step(s, u).Ok? ==> CountersOf(s, [u], Step(s, u).value)
  {
  }

  /** A fold changes balances, counters and HTLC lists and no other field. */
  lemma {:induction false} FoldKeepsHeader<S>(s: Lcss<S>, q: seq<Update>)
    requires Fold(s, q).Ok?
    ensures var t := Fold(s, q).value;
      t == s.(localBalance := t.localBalance, remoteBalance := t.remoteBalance,
              localUpdates := t.localUpdates, remoteUpdates := t.remoteUpdates,
              incoming := t.incoming, outgoing := t.outgoing)
    ensures CountersOf(s, q, Fold(s, q).value)
  {
    if q != [] {
      var t := Fold(s, q[..|q| - 1]).value;
      FoldKeepsHeader(s, q[..|q| - 1]);
      StepCounts(t, q[|q| - 1], t.localUpdates, t.remoteUpdates);
    }
  }
}

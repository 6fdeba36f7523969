/**
 * Concurrent clients of the store. Each step is one store operation of one client, and steps of
 * different clients interleave in any order; a client may also stop for good after any step.
 */
module OneTimeSecret {
  import opened Base
  import opened Store

  /** Where an invocation stands: not started, holding an unconsumed secret it read, or past the update. */
  datatype Invocation = Idle | Holding(generation: nat) | Marked

  /** `slot` is the stored secret, if any, with the mark that it was consumed. */
  datatype Run = Run(slot: Option<Versioned<bool>>, clients: map<nat, Invocation>, adds: nat, grants: nat)

  const START := Run(None, map[], 0, 0)

  datatype Action =
    | AddSecret
    | RemoveSecret
    | Get(client: nat)
    | Update(client: nat)
    | Delete(client: nat)

  function At(r: Run, client: nat): Invocation {
    if client in r.clients then r.clients[client] else Idle
  }

  function Move(r: Run, client: nat, to: Invocation): Run {
    r.(clients := r.clients[client := to])
  }

  function Step(r: Run, a: Action): Run {
    match a
    case AddSecret =>
      (match Created(r.slot, false)
       case Ok(entry) => r.(slot := Some(entry), adds := r.adds + 1)
       case Err(_) => r)
    case RemoveSecret => r.(slot := None)
    case Get(c) =>
      if At(r, c) == Idle && r.slot.Some? && !r.slot.value.value then Move(r, c, Holding(r.slot.value.generation)) else r
    case Update(c) =>
      if !At(r, c).Holding? then r
      else
        (match Updated(r.slot, true, At(r, c).generation)
         case Ok(entry) => Move(r, c, Marked).(slot := Some(entry))
         case Err(_) => Move(r, c, Idle))
    case Delete(c) =>
      if At(r, c) == Marked then Move(r, c, Idle).(slot := None, grants := r.grants + 1) else r
  }

  function Steps(acts: seq<Action>): Run {
    if acts == [] then START else Step(Steps(acts[..|acts| - 1]), acts[|acts| - 1])
  }

  ghost function MarkedClients(r: Run): set<nat> {
    set c | c in r.clients && r.clients[c] == Marked
  }

  ghost function Unspent(r: Run): nat {
    if r.slot.Some? && !r.slot.value.value then 1 else 0
  }

  /**
   * Only a fresh entry has generation zero, so whoever holds an unconsumed secret holds generation
   * zero; and every add backs at most one of: a grant, a client about to be granted, the entry itself.
   */
  ghost predicate Inv(r: Run) {
    && (r.slot.Some? ==> (r.slot.value.value <==> r.slot.value.generation > 0))
    && (forall c :: c in r.clients && r.clients[c].Holding? ==> r.clients[c].generation == 0)
    && r.grants + |MarkedClients(r)| + Unspent(r) <= r.adds
  }

  lemma {:induction false} CountApart(s: set<nat>, c: nat)
    ensures |s| == |s - {c}| + (if c in s then 1 else 0)
  {
    assert s == (s - {c}) + (if c in s then {c} else {});
  }

  lemma {:induction false} MoveCounts(r: Run, c: nat, to: Invocation)
    ensures |MarkedClients(Move(r, c, to))| ==
      |MarkedClients(r)| - (if At(r, c) == Marked then 1 else 0) + (if to == Marked then 1 else 0)
  {
    hide MarkedClients;
    MarkedAfterMove(r, c, to);
    CountApart(MarkedClients(r), c);
    CountApart(MarkedClients(Move(r, c, to)), c);
  }

  lemma {:induction false} MarkedAfterMove(r: Run, c: nat, to: Invocation)
    ensures MarkedClients(Move(r, c, to)) - {c} == MarkedClients(r) - {c}
    ensures c in MarkedClients(Move(r, c, to)) <==> to == Marked
    ensures c in MarkedClients(r) <==> At(r, c) == Marked
  {
  }

  lemma {:induction false} StepKeeps(r: Run, a: Action)
    requires Inv(r)
    ensures Inv(Step(r, a))
  {
    match a
    case AddSecret =>
      assert MarkedClients(Step(r, a)) == MarkedClients(r);
    case RemoveSecret =>
      assert MarkedClients(Step(r, a)) == MarkedClients(r);
    case Get(c) => MoveCounts(r, c, Holding(if r.slot.Some? then r.slot.value.generation else 0));
    case Update(c) =>
      MoveCounts(r, c, Marked);
      MoveCounts(r, c, Idle);
      assert MarkedClients(Move(r, c, Marked).(slot := Some(Versioned(1, true)))) == MarkedClients(Move(r, c, Marked));
    case Delete(c) =>
      MoveCounts(r, c, Idle);
      assert MarkedClients(Move(r, c, Idle).(slot := None, grants := r.grants + 1)) == MarkedClients(Move(r, c, Idle));
  }

  /** However the operations interleave, no more policies are granted than secrets were added. */
  lemma {:induction false} GrantsAreBacked(acts: seq<Action>)
    ensures Inv(Steps(acts)) && Steps(acts).grants <= Steps(acts).adds
  {
    if acts == [] {
      assert MarkedClients(START) == {};
    } else {
      GrantsAreBacked(acts[..|acts| - 1]);
      StepKeeps(Steps(acts[..|acts| - 1]), acts[|acts| - 1]);
    }
  }

  /** An update marks the secret exactly if it is still there unspent: a holder fails only to another taker. */
  lemma {:induction false} UpdateMarksIff(r: Run, c: nat)
    requires Inv(r) && At(r, c).Holding?
    ensures At(Step(r, Update(c)), c) == Marked <==> Unspent(r) == 1
    ensures Unspent(Step(r, Update(c))) == 0 && Step(r, Update(c)).grants == r.grants
  {
  }

  /** A stored secret grants: whoever invokes alone gets the policy, and the secret is gone. */
  lemma {:induction false} LoneInvokeGrants(r: Run, c: nat)
    requires Inv(r) && Unspent(r) == 1 && At(r, c) == Idle
    ensures var done := Step(Step(Step(r, Get(c)), Update(c)), Delete(c));
      done.grants == r.grants + 1 && done.adds == r.adds && done.slot == None && At(done, c) == Idle
  {
    var held := Step(r, Get(c));
    assert At(held, c) == Holding(0) && held.slot == r.slot;
    var marked := Step(held, Update(c));
    assert At(marked, c) == Marked;
  }

  /** An add stores a secret exactly if none is there. */
  lemma {:induction false} AddStoresIff(r: Run)
    ensures Step(r, AddSecret).adds == r.adds + (if r.slot.None? then 1 else 0)
    ensures r.slot.None? ==> Unspent(Step(r, AddSecret)) == 1
    ensures r.slot.Some? ==> Step(r, AddSecret) == r
  {
  }
}

module LedgerSequence {
  import opened Base
  import opened Store

  /** A recorder: idle, having found no metadata, holding a number it read, or owning one. */
  datatype Recorder = Idle | FoundNone | Read(next: nat, generation: nat) | Owns(number: nat)

  /** `meta` stores the next number; `handed` logs the numbers handed out; `collided` whether creating an entry ever failed. */
  datatype Run = Run(meta: Option<Versioned<nat>>, entries: set<nat>, recorders: map<nat, Recorder>, handed: seq<nat>, collided: bool)

  const START := Run(None, {}, map[], [], false)

  datatype Action = GetMeta(r: nat) | CreateMeta(r: nat) | UpdateMeta(r: nat) | CreateEntry(r: nat) | Stop(r: nat)

  function At(w: Run, r: nat): Recorder {
    if r in w.recorders then w.recorders[r] else Idle
  }

  function Move(w: Run, r: nat, to: Recorder): Run {
    w.(recorders := w.recorders[r := to])
  }

  function Step(w: Run, a: Action): Run {
    match a
    case GetMeta(r) =>
      if At(w, r) != Idle then w
      else if w.meta.None? then Move(w, r, FoundNone)
      else Move(w, r, Read(w.meta.value.value, w.meta.value.generation))
    case CreateMeta(r) =>
      if At(w, r) != FoundNone then w
      else
        (match Created(w.meta, 0)
         case Ok(meta) => Move(w, r, Read(0, 0)).(meta := Some(meta))
         case Err(_) => Move(w, r, Idle))
    case UpdateMeta(r) =>
      if !At(w, r).Read? then w
      else
        var held := At(w, r);
        (match Updated(w.meta, held.next + 1, held.generation)
         case Ok(meta) => Move(w, r, Owns(held.next)).(meta := Some(meta), handed := w.handed + [held.next])
         case Err(_) => Move(w, r, Idle))
    case CreateEntry(r) =>
      if !At(w, r).Owns? then w
      else if At(w, r).number in w.entries then Move(w, r, Idle).(collided := true)
      else Move(w, r, Idle).(entries := w.entries + {At(w, r).number})
    case Stop(r) => Move(w, r, Idle)
  }

  function Steps(acts: seq<Action>): Run {
    if acts == [] then START else Step(Steps(acts[..|acts| - 1]), acts[|acts| - 1])
  }

  function Next(w: Run): nat {
    if w.meta.Some? then w.meta.value.value else 0
  }

  ghost predicate HandedOnce(w: Run) {
    && (forall i :: 0 <= i < |w.handed| ==> w.handed[i] < Next(w))
    && (forall i, j :: 0 <= i < j < |w.handed| ==> w.handed[i] != w.handed[j])
  }

  /** The generation counts the allocations, so a number read with it is current while it is. */
  ghost predicate Inv(w: Run) {
    && (w.meta.Some? ==> w.meta.value.value == w.meta.value.generation)
    && (forall r :: r in w.recorders && w.recorders[r].Read? ==> w.recorders[r].next == w.recorders[r].generation)
    && (forall r :: r in w.recorders && w.recorders[r].Owns? ==>
          w.recorders[r].number < Next(w) && w.recorders[r].number !in w.entries)
    && (forall r, s :: r in w.recorders && s in w.recorders && r != s && w.recorders[r].Owns? && w.recorders[s].Owns? ==>
          w.recorders[r].number != w.recorders[s].number)
    && (forall n :: n in w.entries ==> n < Next(w))
    && HandedOnce(w) && !w.collided
  }

  lemma {:induction false} StepKeeps(w: Run, a: Action)
    requires Inv(w)
    ensures Inv(Step(w, a))
  {
    hide HandedOnce;
    StepHandsOnce(w, a);
  }

  lemma {:induction false} StepHandsOnce(w: Run, a: Action)
    requires Inv(w)
    ensures HandedOnce(Step(w, a))
  {
    if a.UpdateMeta? && At(w, a.r).Read? {
      var w', n := Step(w, a), |w.handed|;
      if w'.handed != w.handed {
        assert forall i :: 0 <= i < n ==> w'.handed[i] == w.handed[i];
      }
    }
  }

  /**
   * However recorders interleave or stop, no number is handed out twice, every entry lies below the
   * next number, and creating the entry of an owned number never collides.
   */
  lemma {:induction false} NumbersAreUnique(acts: seq<Action>)
    ensures var w := Steps(acts);
      Inv(w) && HandedOnce(w) && !w.collided && forall n :: n in w.entries ==> n < Next(w)
  {
    if acts != [] {
      NumbersAreUnique(acts[..|acts| - 1]);
      StepKeeps(Steps(acts[..|acts| - 1]), acts[|acts| - 1]);
    }
  }

  /** A number read is handed out exactly if it is still the next one: a recorder fails only to another. */
  lemma {:induction false} UpdateHandsOutIff(w: Run, r: nat)
    requires Inv(w) && At(w, r).Read?
    ensures var w' := Step(w, UpdateMeta(r));
      if w.meta.Some? && At(w, r).next == Next(w) then At(w', r) == Owns(Next(w)) && w'.handed == w.handed + [Next(w)] && Next(w') == Next(w) + 1
      else At(w', r) == Idle && w'.handed == w.handed && w'.meta == w.meta
  {
  }

  /** A recorder that is not disturbed records under the next number, and the number after that is next. */
  lemma {:induction false} LoneRecorderRecords(w: Run, r: nat)
    requires Inv(w) && At(w, r) == Idle
    ensures var read := if w.meta.None? then Step(Step(w, GetMeta(r)), CreateMeta(r)) else Step(w, GetMeta(r));
      var done := Step(Step(read, UpdateMeta(r)), CreateEntry(r));
      && done.handed == w.handed + [Next(w)] && done.entries == w.entries + {Next(w)} && Next(w) !in w.entries
      && Next(done) == Next(w) + 1 && At(done, r) == Idle
  {
    var read := if w.meta.None? then Step(Step(w, GetMeta(r)), CreateMeta(r)) else Step(w, GetMeta(r));
    assert At(read, r) == Read(Next(w), Next(w)) && Next(read) == Next(w) && read.entries == w.entries && read.handed == w.handed;
    var owned := Step(read, UpdateMeta(r));
    assert At(owned, r) == Owns(Next(w)) && owned.entries == w.entries;
  }
}

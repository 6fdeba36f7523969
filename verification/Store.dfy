/** The generation-checked key-value store and the deletion of a subtree (src/store.rs). */
module Store {
  import opened Base

  /** A stored value with the number of times it was overwritten. */
  datatype Versioned<V> = Versioned(generation: nat, value: V)

  type Entry = Versioned<Bytes>

  datatype StoreError = NotFound | GenerationMismatch(expected: nat, actual: nat) | AlreadyExists

  /** What creating a key stores, given what is there. */
  function Created<V>(slot: Option<Versioned<V>>, value: V): Result<Versioned<V>, StoreError> {
    if slot.Some? then Err(AlreadyExists) else Ok(Versioned(0, value))
  }

  /** What updating a key stores, given what is there and the generation the writer read. */
  function Updated<V>(slot: Option<Versioned<V>>, value: V, expected: nat): Result<Versioned<V>, StoreError> {
    if slot.None? then Err(NotFound)
    else if slot.value.generation != expected then Err(GenerationMismatch(expected, slot.value.generation))
    else Ok(Versioned(expected + 1, value))
  }

  type Path = seq<string>

  function Join(key: Path): string {
    if key == [] then "" else if |key| == 1 then key[0] else Join(key[..|key| - 1]) + "/" + key[|key| - 1]
  }

  /** What every key strictly below a path starts with. */
  function Below(prefix: Path): string {
    if prefix == [] then "" else Join(prefix) + "/"
  }

  predicate Under(root: Path, k: string) {
    k == Join(root) || Below(root) <= k
  }

  /** The part of a string before its first slash. */
  function FirstPart(s: string): (p: string)
    ensures p <= s && '/' !in p
    ensures p == s || p + "/" <= s
  {
    if s == [] || s[0] == '/' then []
    else
      var p := FirstPart(s[1..]);
      [s[0]] + p
  }

  function ChildOf(prefix: Path, k: string): Path
    requires Below(prefix) <= k
  {
    prefix + [FirstPart(k[|Below(prefix)|..])]
  }

  /** A path that some key lies at or below, one step down from the prefix. */
  ghost predicate IsChild(keys: set<string>, prefix: Path, child: Path) {
    exists k :: k in keys && Below(prefix) <= k && child == ChildOf(prefix, k)
  }

  class MemoryStore {
    var inner: map<string, Entry>

    constructor ()
      ensures inner == map[]
    {
      inner := map[];
    }

    method Get(key: Path) returns (r: Result<Entry, StoreError>)
      ensures r == if Join(key) in inner then Ok(inner[Join(key)]) else Err(NotFound)
    {
      var k := Join(key);
      if k !in inner {
        return Err(NotFound);
      }
      r := Ok(inner[k]);
    }

    method Exists(key: Path) returns (r: bool)
      ensures r <==> Join(key) in inner
    {
      r := Join(key) in inner;
    }

    ghost function Slot(key: Path): Option<Entry>
      reads this
    {
      if Join(key) in inner then Some(inner[Join(key)]) else None
    }

    method Create(key: Path, value: Bytes) returns (r: Result<(), StoreError>)
      modifies this
      ensures match Created(old(Slot(key)), value)
        case Ok(entry) => r == Ok(()) && inner == old(inner)[Join(key) := entry]
        case Err(e) => r == Err(e) && inner == old(inner)
    {
      var k := Join(key);
      if k in inner {
        return Err(AlreadyExists);
      }
      inner := inner[k := Versioned(0, value)];
      r := Ok(());
    }

    method Update(key: Path, value: Bytes, expected: nat) returns (r: Result<(), StoreError>)
      modifies this
      ensures match Updated(old(Slot(key)), value, expected)
        case Ok(entry) => r == Ok(()) && inner == old(inner)[Join(key) := entry]
        case Err(e) => r == Err(e) && inner == old(inner)
    {
      var k := Join(key);
      if k !in inner {
        return Err(NotFound);
      }
      var entry := inner[k];
      if entry.generation != expected {
        return Err(GenerationMismatch(expected, entry.generation));
      }
      inner := inner[k := Versioned(entry.generation + 1, value)];
      r := Ok(());
    }

    /** Deleting a key that is not there is not an error. */
    method Delete(key: Path)
      modifies this
      ensures inner == old(inner) - {Join(key)}
    {
      inner := inner - {Join(key)};
    }

    /** The immediate children of a path, each once. */
    method List(prefix: Path) returns (children: seq<Path>)
      ensures |children| <= |inner|
      ensures forall i :: 0 <= i < |children| ==> IsChild(inner.Keys, prefix, children[i])
      ensures forall i, j :: 0 <= i < j < |children| ==> children[i] != children[j]
      ensures forall k :: k in inner && Below(prefix) <= k ==> ChildOf(prefix, k) in children
    {
      hide Below, ChildOf;
      children := [];
      var todo := inner.Keys;
      while todo != {}
        invariant todo <= inner.Keys && |children| + |todo| <= |inner.Keys|
        invariant forall i :: 0 <= i < |children| ==> IsChild(inner.Keys, prefix, children[i])
        invariant forall i, j :: 0 <= i < j < |children| ==> children[i] != children[j]
        invariant forall k :: k in inner && k !in todo && Below(prefix) <= k ==> ChildOf(prefix, k) in children
        decreases |todo|
      {
        var k :| k in todo;
        if Below(prefix) <= k && ChildOf(prefix, k) !in children {
          assert IsChild(inner.Keys, prefix, ChildOf(prefix, k));
          children := children + [ChildOf(prefix, k)];
        }
        todo := todo - {k};
      }
    }
  }

  // ---- delete_subtree ------------------------------------------------------------------------

  /** A node still to do: not yet listed, or listed and now to be deleted itself. */
  datatype Task = Task(path: Path, visited: bool)

  ghost predicate Covers(t: Task, k: string) {
    if t.visited then k == Join(t.path) else Under(t.path, k)
  }

  ghost predicate Covered(pending: seq<Task>, k: string) {
    exists i :: 0 <= i < |pending| && Covers(pending[i], k)
  }

  ghost predicate Inside(root: Path, path: Path) {
    path == root || (path != [] && Below(root) <= Join(path))
  }

  lemma {:induction false} JoinChild(prefix: Path, part: string)
    ensures Join(prefix + [part]) == Below(prefix) + part
  {
    var path := prefix + [part];
    if prefix == [] {
      assert path == [part] && [] + part == part;
    } else {
      assert path[..|path| - 1] == prefix && path[|path| - 1] == part;
    }
  }

  /** A key below a node is at or below one of its children. */
  lemma {:induction false} ChildCovers(prefix: Path, k: string)
    requires Below(prefix) <= k
    ensures Under(ChildOf(prefix, k), k)
  {
    var rest := k[|Below(prefix)|..];
    var part := FirstPart(rest);
    JoinChild(prefix, part);
    assert k == Below(prefix) + rest;
    if part != rest {
      assert part + "/" <= rest;
      assert Below(prefix) + part + "/" == Below(prefix) + (part + "/");
    }
  }

  lemma {:induction false} ChildInside(root: Path, prefix: Path, k: string)
    requires Inside(root, prefix) && Below(prefix) <= k
    ensures Inside(root, ChildOf(prefix, k))
    ensures |Below(prefix)| < |Below(ChildOf(prefix, k))|
  {
    JoinChild(prefix, FirstPart(k[|Below(prefix)|..]));
    assert Below(root) <= Below(prefix);
  }

  lemma {:induction false} InsideIsUnder(root: Path, path: Path)
    requires Inside(root, path)
    ensures Under(root, Join(path))
  {
  }

  // The work left: every node costs more than all its children together.

  function Cost(n: nat, depth: nat): nat {
    if depth == 0 then 2 else 2 + n * Cost(n, depth - 1)
  }

  function Depth(limit: nat, path: Path): nat {
    if |Below(path)| <= limit then limit - |Below(path)| else 0
  }

  function TaskCost(n: nat, limit: nat, t: Task): nat {
    if t.visited then 1 else Cost(n, Depth(limit, t.path))
  }

  function TotalCost(n: nat, limit: nat, pending: seq<Task>): nat {
    if pending == [] then 0
    else TotalCost(n, limit, pending[..|pending| - 1]) + TaskCost(n, limit, pending[|pending| - 1])
  }

  lemma {:induction false} CostGrows(n: nat, d: nat, d': nat)
    requires d <= d' && n > 0
    ensures 2 <= Cost(n, d) <= Cost(n, d')
  {
    if d < d' {
      CostGrows(n, d, d' - 1);
      MulGrows(1, n, Cost(n, d' - 1));
    }
  }

  function Tasks(children: seq<Path>): (ts: seq<Task>)
    ensures |ts| == |children| && forall i :: 0 <= i < |children| ==> ts[i] == Task(children[i], false)
  {
    seq(|children|, i requires 0 <= i < |children| => Task(children[i], false))
  }

  lemma {:induction false} CostOfChildren(n: nat, limit: nat, pending: seq<Task>, children: seq<Path>, each: nat)
    requires forall i :: 0 <= i < |children| ==> TaskCost(n, limit, Task(children[i], false)) <= each
    ensures TotalCost(n, limit, pending + Tasks(children)) <= TotalCost(n, limit, pending) + |children| * each
  {
    hide TaskCost;
    if children == [] {
      assert pending + Tasks(children) == pending;
    } else {
      var front := children[..|children| - 1];
      assert (pending + Tasks(children))[..|pending| + |front|] == pending + Tasks(front);
      CostOfChildren(n, limit, pending, front, each);
      assert |children| * each == |front| * each + each;
    }
  }

  lemma {:induction false} PushCosts(n: nat, limit: nat, pending: seq<Task>, t: Task)
    ensures TotalCost(n, limit, pending + [t]) == TotalCost(n, limit, pending) + TaskCost(n, limit, t)
  {
    assert (pending + [t])[..|pending|] == pending;
  }

  /** Replacing a node by its deletion and its children leaves less work. */
  lemma {:induction false} ListingCostsLess(n: nat, limit: nat, pending: seq<Task>, path: Path, children: seq<Path>)
    requires n > 0 && |children| <= n
    requires children != [] ==> |Below(path)| < limit
    requires forall i :: 0 <= i < |children| ==> |Below(path)| < |Below(children[i])|
    ensures TotalCost(n, limit, pending + [Task(path, true)] + Tasks(children)) < TotalCost(n, limit, pending + [Task(path, false)])
  {
    hide TotalCost;
    var d := Depth(limit, path);
    var each := if d == 0 then 0 else Cost(n, d - 1);
    PushCosts(n, limit, pending, Task(path, true));
    PushCosts(n, limit, pending, Task(path, false));
    forall i | 0 <= i < |children|
      ensures TaskCost(n, limit, Task(children[i], false)) <= each
    {
      CostGrows(n, Depth(limit, children[i]), d - 1);
    }
    CostOfChildren(n, limit, pending + [Task(path, true)], children, each);
    CostGrows(n, d, d);
    if children != [] {
      MulGrows(|children|, n, each);
    }
  }

  lemma {:induction false} MulGrows(a: nat, b: nat, c: nat)
    requires a <= b
    ensures a * c <= b * c
  {
    assert b * c == a * c + (b - a) * c;
  }

  /** Some bound on the length of every key. */
  lemma {:induction false} SomeBound(keys: set<string>) returns (limit: nat)
    ensures forall k :: k in keys ==> |k| < limit
    decreases |keys|
  {
    if keys == {} {
      limit := 0;
    } else {
      var k :| k in keys;
      limit := SomeBound(keys - {k});
      limit := if |k| < limit then limit else |k| + 1;
    }
  }

  method DeleteSubtree(store: MemoryStore, root: Path) returns (deleted: nat)
    modifies store
    ensures forall k :: k in store.inner <==> k in old(store.inner) && !Under(root, k)
    ensures forall k :: k in store.inner ==> store.inner[k] == old(store.inner)[k]
    ensures deleted == |old(store.inner)| - |store.inner|
  {
    hide Join, Below, Under, Covered, Inside, TotalCost;
    var pending := [Task(root, false)];
    deleted := 0;
    ghost var before := store.inner;
    ghost var n := |before| + 1;
    ghost var limit := SomeBound(before.Keys);
    RootCovers(root);
    while pending != []
      invariant forall k :: k in store.inner ==> k in before && store.inner[k] == before[k]
      invariant forall k :: k in before && k !in store.inner ==> Under(root, k)
      invariant forall k :: k in store.inner && Under(root, k) ==> Covered(pending, k)
      invariant forall i :: 0 <= i < |pending| ==> Inside(root, pending[i].path)
      invariant deleted + |store.inner| == |before|
      decreases TotalCost(n, limit, pending)
    {
      var task := pending[|pending| - 1];
      ghost var left := pending[..|pending| - 1];
      assert pending == left + [task];
      CostDrops(n, limit, pending);
      pending := pending[..|pending| - 1];
      if task.visited {
        var present := store.Exists(task.path);
        InsideIsUnder(root, task.path);
        CoveredWithout(store.inner, root, left, task);
        if present {
          RemoveOne(store.inner, Join(task.path));
          store.Delete(task.path);
          deleted := deleted + 1;
        }
      } else {
        var children := store.List(task.path);
        pending := pending + [Task(task.path, true)];
        pending := pending + Tasks(children);
        ListingCovers(store.inner, root, left, task.path, children);
        ListingInside(store.inner.Keys, root, left, task.path, children);
        MapShrinks(store.inner, before);
        ListingDeepens(store.inner.Keys, task.path, children, limit);
        ListingCostsLess(n, limit, left, task.path, children);
      }
    }
    forall k | k in store.inner
      ensures !Under(root, k)
    {
      NothingCovers(k);
    }
  }

  lemma {:induction false} NothingCovers(k: string)
    ensures !Covered([], k)
  {
  }

  lemma {:induction false} CostDrops(n: nat, limit: nat, pending: seq<Task>)
    requires pending != []
    ensures pending[|pending| - 1].visited ==> TotalCost(n, limit, pending[..|pending| - 1]) < TotalCost(n, limit, pending)
  {
  }

  lemma {:induction false} RemoveOne(m: map<string, Entry>, k: string)
    requires k in m
    ensures |m - {k}| == |m| - 1
  {
    assert (m - {k}).Keys == m.Keys - {k};
  }

  lemma {:induction false} MapShrinks(m: map<string, Entry>, big: map<string, Entry>)
    requires forall k :: k in m ==> k in big
    ensures |m| <= |big|
  {
    assert m.Keys <= big.Keys;
    SubsetSize(m.Keys, big.Keys);
  }

  lemma {:induction false} SubsetSize(a: set<string>, b: set<string>)
    requires a <= b
    ensures |a| <= |b|
  {
    assert b == a + (b - a);
  }

  /** Once its own key is gone, a visited node covers nothing any more. */
  lemma {:induction false} CoveredWithout(inner: map<string, Entry>, root: Path, left: seq<Task>, task: Task)
    requires task.visited
    requires forall k :: k in inner && Under(root, k) ==> Covered(left + [task], k)
    ensures forall k :: k in inner && Under(root, k) && k != Join(task.path) ==> Covered(left, k)
  {
    hide Join, Below;
    forall k | k in inner && Under(root, k) && k != Join(task.path)
      ensures Covered(left, k)
    {
      var i :| 0 <= i < |left + [task]| && Covers((left + [task])[i], k);
      assert Covers(left[i], k);
    }
  }

  lemma {:induction false} RootCovers(root: Path)
    ensures Inside(root, root)
    ensures forall k :: Under(root, k) ==> Covered([Task(root, false)], k)
  {
    forall k | Under(root, k)
      ensures Covered([Task(root, false)], k)
    {
      assert Covers([Task(root, false)][0], k);
    }
  }

  lemma {:induction false} ListingCovers(inner: map<string, Entry>, root: Path, left: seq<Task>, path: Path, children: seq<Path>)
    requires forall k :: k in inner && Under(root, k) ==> Covered(left + [Task(path, false)], k)
    requires forall k :: k in inner && Below(path) <= k ==> ChildOf(path, k) in children
    ensures forall k :: k in inner && Under(root, k) ==> Covered(left + [Task(path, true)] + Tasks(children), k)
  {
    hide Below, Covered, Under, ChildOf;
    forall k | k in inner && Under(root, k)
      ensures Covered(left + [Task(path, true)] + Tasks(children), k)
    {
      StillCovered(left, path, children, k);
    }
  }

  lemma {:induction false} ListingInside(keys: set<string>, root: Path, left: seq<Task>, path: Path, children: seq<Path>)
    requires forall i :: 0 <= i < |left| ==> Inside(root, left[i].path)
    requires Inside(root, path)
    requires forall i :: 0 <= i < |children| ==> IsChild(keys, path, children[i])
    ensures var all := left + [Task(path, true)] + Tasks(children);
      forall i :: 0 <= i < |all| ==> Inside(root, all[i].path)
  {
    hide Inside, Below, ChildOf;
    var all := left + [Task(path, true)] + Tasks(children);
    forall i | 0 <= i < |all|
      ensures Inside(root, all[i].path)
    {
      if i < |left| {
        assert all[i] == left[i];
      } else if i > |left| {
        var child := children[i - |left| - 1];
        assert all[i] == Task(child, false);
        var k :| k in keys && Below(path) <= k && child == ChildOf(path, k);
        ChildInside(root, path, k);
      }
    }
  }

  lemma {:induction false} ListingDeepens(keys: set<string>, path: Path, children: seq<Path>, limit: nat)
    requires forall i :: 0 <= i < |children| ==> IsChild(keys, path, children[i])
    requires forall k :: k in keys ==> |k| < limit
    ensures forall i :: 0 <= i < |children| ==> |Below(path)| < |Below(children[i])|
    ensures children != [] ==> |Below(path)| < limit
  {
    hide Below, ChildOf;
    forall i | 0 <= i < |children|
      ensures |Below(path)| < |Below(children[i])| && |Below(path)| < limit
    {
      var k :| k in keys && Below(path) <= k && children[i] == ChildOf(path, k);
      ChildInside(path, path, k);
      assert |Below(path)| <= |k|;
    }
    if children != [] {
      assert |Below(path)| < |Below(children[0])|;
    }
  }

  lemma {:induction false} StillCovered(left: seq<Task>, path: Path, children: seq<Path>, k: string)
    requires Covered(left + [Task(path, false)], k)
    requires Below(path) <= k ==> ChildOf(path, k) in children
    ensures Covered(left + [Task(path, true)] + Tasks(children), k)
  {
    hide Join, Below;
    var all := left + [Task(path, true)] + Tasks(children);
    var i :| 0 <= i < |left + [Task(path, false)]| && Covers((left + [Task(path, false)])[i], k);
    if i < |left| {
      assert Covers(all[i], k);
    } else if k == Join(path) {
      assert Covers(all[|left|], k);
    } else {
      ChildCovers(path, k);
      var j :| 0 <= j < |children| && children[j] == ChildOf(path, k);
      assert Covers(all[|left| + 1 + j], k);
    }
  }
}

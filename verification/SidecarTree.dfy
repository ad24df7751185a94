/** The sidecar's mirror of the session: its branch walk and its forest of entries
    (`computeBranch` and `buildSessionTree` in sidecar/node-extension-runtime/main.mjs).
    A node of the forest is named by the position of its entry. */
module SidecarTree {
  import opened Types
  import opened Sequences
  import opened Sessions
  import opened ForestLoop

  // ----- The branch -----

  function Lookup(entries: seq<Entry>, id: Id): Option<Entry> {
    if id in Index(entries) then Some(entries[Index(entries)[id]]) else None
  }

  /** The same walk as the session manager's, on every entry graph. */
  method ComputeBranch(entries: seq<Entry>, fromId: Id) returns (path: seq<Entry>)
    ensures path == BranchOf(entries, fromId)
  {
    path := [];
    if fromId == "" {
      return;
    }
    ghost var index := Index(entries);
    ghost var at := fromId;
    var seen := {};
    var current := Lookup(entries, fromId);
    while current.Some? && current.value.id !in seen
      invariant at != "" && current == Lookup(entries, at)
      invariant PathTo(entries, index, at, seen) + path == BranchOf(entries, fromId)
      decreases |index.Keys - seen|
    {
      var e := current.value;
      assert index.Keys - (seen + {e.id}) == (index.Keys - seen) - {e.id};
      Reassociate(PathTo(entries, index, e.parentId, seen + {e.id}), [e], path);
      seen := seen + {e.id};
      path := [e] + path;
      if e.parentId == "" {
        break;
      }
      at := e.parentId;
      current := Lookup(entries, e.parentId);
    }
    assert [] + path == path;
  }

  // ----- The forest -----

  /** Entries without a parent, their own parent, or with an unknown one. */
  predicate IsRoot(entries: seq<Entry>, k: nat)
    requires k < |entries|
  {
    var e := entries[k];
    e.parentId == "" || e.parentId == e.id || e.parentId !in Index(entries)
  }

  function Parent(entries: seq<Entry>, k: nat): (p: nat)
    requires k < |entries| && !IsRoot(entries, k)
    ensures p < |entries|
  {
    Index(entries)[entries[k].parentId]
  }

  predicate IsChild(entries: seq<Entry>, c: nat, p: nat) {
    c < |entries| && !IsRoot(entries, c) && Parent(entries, c) == p
  }

  /** The node an entry gets: the node map holds one for every id, that of its last entry. */
  function NodeOf(entries: seq<Entry>, k: nat): (node: nat)
    requires k < |entries|
    ensures node < |entries| && (UniqueIds(entries) ==> node == k)
  {
    IndexComplete(entries);
    Index(entries)[entries[k].id]
  }

  function RootsOf(entries: seq<Entry>, n: nat): seq<nat>
    requires n <= |entries|
  {
    if n == 0 then []
    else RootsOf(entries, n - 1) + if IsRoot(entries, n - 1) then [NodeOf(entries, n - 1)] else []
  }

  function ChildrenOf(entries: seq<Entry>, p: nat, n: nat): seq<nat>
    requires n <= |entries|
  {
    if n == 0 then []
    else ChildrenOf(entries, p, n - 1) + if IsChild(entries, n - 1, p) then [NodeOf(entries, n - 1)] else []
  }

  predicate Distinct(xs: seq<nat>) {
    forall i, j :: 0 <= i < j < |xs| ==> xs[i] != xs[j]
  }

  lemma DistinctJoin(a: seq<nat>, b: seq<nat>)
    requires Distinct(a) && Distinct(b) && forall x :: x in a ==> x !in b
    ensures Distinct(a + b)
  {
    forall i, j | 0 <= i < j < |a + b| ensures (a + b)[i] != (a + b)[j] {
      if i < |a| <= j {
        assert a[i] in a && b[j - |a|] in b;
      }
    }
  }

  lemma DistinctSnoc(a: seq<nat>, x: nat)
    requires Distinct(a) && x !in a
    ensures Distinct(a + [x]) && a + [] == a
    ensures forall y :: y in a + [x] <==> y in a || y == x
  {
    DistinctJoin(a, [x]);
  }

  lemma DistinctParts(a: seq<nat>, b: seq<nat>)
    requires Distinct(a + b)
    ensures Distinct(a) && Distinct(b)
    ensures forall x :: x in a ==> x !in b
  {
    forall i | 0 <= i < |a| ensures a[i] !in b {
      forall j | 0 <= j < |b| ensures a[i] != b[j] { assert (a + b)[i] != (a + b)[|a| + j]; }
    }
    assert forall i :: 0 <= i < |a| ==> (a + b)[i] == a[i];
    assert forall j :: 0 <= j < |b| ==> (a + b)[|a| + j] == b[j];
  }

  lemma {:induction false} RootsMeaning(entries: seq<Entry>, n: nat)
    requires n <= |entries| && UniqueIds(entries)
    ensures Distinct(RootsOf(entries, n))
    ensures forall k: nat :: k in RootsOf(entries, n) <==> k < n && IsRoot(entries, k)
  {
    if n > 0 {
      RootsMeaning(entries, n - 1);
      assert NodeOf(entries, n - 1) == n - 1;
      DistinctSnoc(RootsOf(entries, n - 1), n - 1);
      assert RootsOf(entries, n) == RootsOf(entries, n - 1) + if IsRoot(entries, n - 1) then [n - 1] else [];
    }
  }

  lemma {:induction false} ChildrenMeaning(entries: seq<Entry>, p: nat, n: nat)
    requires n <= |entries| && UniqueIds(entries)
    ensures Distinct(ChildrenOf(entries, p, n))
    ensures forall k: nat :: k in ChildrenOf(entries, p, n) <==> k < n && IsChild(entries, k, p)
  {
    if n > 0 {
      ChildrenMeaning(entries, p, n - 1);
      assert NodeOf(entries, n - 1) == n - 1;
      DistinctSnoc(ChildrenOf(entries, p, n - 1), n - 1);
    }
  }

  // ----- The order of children: a stable sort by time -----

  type Times = nat -> int

  predicate InOrder(xs: seq<nat>, time: Times) {
    forall i, j :: 0 <= i < j < |xs| ==> time(xs[i]) <= time(xs[j])
  }

  function Insert(sorted: seq<nat>, x: nat, time: Times): seq<nat> {
    if sorted == [] || time(sorted[|sorted| - 1]) <= time(x) then sorted + [x]
    else Insert(sorted[..|sorted| - 1], x, time) + [sorted[|sorted| - 1]]
  }

  function SortByTime(xs: seq<nat>, time: Times): seq<nat> {
    if xs == [] then [] else Insert(SortByTime(xs[..|xs| - 1], time), xs[|xs| - 1], time)
  }

  lemma {:induction false} InsertSorts(sorted: seq<nat>, x: nat, time: Times)
    requires InOrder(sorted, time)
    ensures InOrder(Insert(sorted, x, time), time)
    ensures multiset(Insert(sorted, x, time)) == multiset(sorted) + multiset{x}
  {
    if sorted != [] && time(sorted[|sorted| - 1]) > time(x) {
      var n := |sorted| - 1;
      InsertSorts(sorted[..n], x, time);
      assert sorted == sorted[..n] + [sorted[n]];
      var front := Insert(sorted[..n], x, time);
      forall y | y in front ensures time(y) <= time(sorted[n]) {
        assert y in multiset(sorted[..n]) + multiset{x} by { assert y in multiset(front); }
      }
      OrderSnoc(front, sorted[n], time);
    } else {
      assert forall y :: y in sorted ==> time(y) <= time(x);
      OrderSnoc(sorted, x, time);
    }
  }

  lemma OrderSnoc(xs: seq<nat>, x: nat, time: Times)
    requires InOrder(xs, time) && forall y :: y in xs ==> time(y) <= time(x)
    ensures InOrder(xs + [x], time)
  {}

  lemma {:induction false} SortByTimeSorts(xs: seq<nat>, time: Times)
    ensures InOrder(SortByTime(xs, time), time) && multiset(SortByTime(xs, time)) == multiset(xs)
  {
    if xs != [] {
      var n := |xs| - 1;
      SortByTimeSorts(xs[..n], time);
      InsertSorts(SortByTime(xs[..n], time), xs[n], time);
      assert xs == xs[..n] + [xs[n]];
    }
  }

  lemma {:induction false} SortedIsFixed(xs: seq<nat>, time: Times)
    requires InOrder(xs, time)
    ensures SortByTime(xs, time) == xs
  {
    if xs != [] {
      SortedIsFixed(xs[..|xs| - 1], time);
      assert xs == xs[..|xs| - 1] + [xs[|xs| - 1]];
    }
  }

  function ByTime(time: Times): Order {
    (xs: seq<nat>) => SortByTime(xs, time)
  }

  lemma ByTimePermutes(time: Times)
    ensures Permutes(ByTime(time))
  {
    forall xs ensures Permuted(ByTime(time)(xs), xs) {
      SortByTimeSorts(xs, time);
    }
  }

  lemma SamePermutation(xs: seq<nat>, ys: seq<nat>)
    requires multiset(xs) == multiset(ys)
    ensures forall x :: x in xs <==> x in ys
    ensures Distinct(xs) ==> Distinct(ys)
  {
    forall x ensures x in xs <==> x in ys {
      assert x in multiset(xs) <==> x in multiset(ys);
    }
    if Distinct(xs) && !Distinct(ys) {
      var i, j :| 0 <= i < j < |ys| && ys[i] == ys[j];
      Twice(ys, i, j);
      Once(xs, ys[i]);
    }
  }

  lemma Twice(ys: seq<nat>, i: nat, j: nat)
    requires i < j < |ys| && ys[i] == ys[j]
    ensures multiset(ys)[ys[i]] >= 2
  {
    assert ys == ys[..i] + [ys[i]] + ys[i + 1..j] + [ys[j]] + ys[j + 1..];
  }

  lemma {:induction false} Once(xs: seq<nat>, x: nat)
    requires Distinct(xs)
    ensures multiset(xs)[x] <= 1
  {
    if xs != [] {
      Once(xs[1..], x);
      assert xs == [xs[0]] + xs[1..];
      if xs[0] == x {
        assert x !in xs[1..];
      }
    }
  }

  // ----- What the forest shows -----

  /** `d` steps up from `k` or fewer there is a root. */
  predicate RootedWithin(entries: seq<Entry>, k: nat, d: nat)
    requires k < |entries|
    decreases d
  {
    IsRoot(entries, k) || (d > 0 && RootedWithin(entries, Parent(entries, k), d - 1))
  }

  ghost predicate Rooted(entries: seq<Entry>, k: nat)
    requires k < |entries|
  {
    exists d: nat :: RootedWithin(entries, k, d)
  }

  /** The nodes reached so far: pushed or visited, each once, and each after its parent. */
  ghost predicate Reached(entries: seq<Entry>, stack: seq<nat>, visited: seq<nat>) {
    && Distinct(visited + stack)
    && (forall k :: k in visited + stack ==>
          k < |entries| && Rooted(entries, k) && (IsRoot(entries, k) || Parent(entries, k) in visited))
    && (forall k :: 0 <= k < |entries| && IsRoot(entries, k) ==> k in visited + stack)
    && (forall k :: 0 <= k < |entries| && !IsRoot(entries, k) && Parent(entries, k) in visited ==> k in visited + stack)
  }

  lemma VisitOne(entries: seq<Entry>, stack: seq<nat>, visited: seq<nat>, children: seq<nat>)
    requires Reached(entries, stack, visited) && stack != []
    requires Distinct(children)
    requires forall c: nat :: c in children <==> IsChild(entries, c, stack[|stack| - 1])
    ensures Reached(entries, stack[..|stack| - 1] + children, visited + [stack[|stack| - 1]])
  {
    var n := |stack| - 1;
    var node := stack[n];
    var stack', visited' := stack[..n] + children, visited + [node];
    DistinctParts(visited, stack);
    assert node in stack && node in visited + stack;
    forall k: nat ensures k in visited' + stack' <==> k in visited + stack || k in children {
      assert stack == stack[..n] + [node];
    }
    forall c | c in children ensures c !in visited + stack && Rooted(entries, c) {
      var d: nat :| RootedWithin(entries, node, d);
      assert RootedWithin(entries, c, d + 1);
    }
    assert visited' + stack' == (visited' + stack[..n]) + children;
    Rotate(visited, stack);
    DistinctJoin(visited' + stack[..n], children);
  }

  lemma Rotate(visited: seq<nat>, stack: seq<nat>)
    requires stack != [] && Distinct(visited + stack)
    ensures Distinct(visited + [stack[|stack| - 1]] + stack[..|stack| - 1])
  {
    var n := |stack| - 1;
    var xs, ys := visited + stack, visited + [stack[n]] + stack[..n];
    assert stack == stack[..n] + [stack[n]];
    assert multiset(xs) == multiset(ys);
    SamePermutation(xs, ys);
  }

  /** How many nodes were not visited yet. */
  function Unvisited(entries: seq<Entry>, visited: seq<nat>): set<nat> {
    set k | 0 <= k < |entries| && k !in visited
  }

  lemma VisitShrinks(entries: seq<Entry>, visited: seq<nat>, node: nat)
    requires node < |entries| && node !in visited
    ensures |Unvisited(entries, visited + [node])| < |Unvisited(entries, visited)|
  {
    assert Unvisited(entries, visited + [node]) == Unvisited(entries, visited) - {node};
    assert node in Unvisited(entries, visited);
  }

  lemma {:induction false} RootedIsVisited(entries: seq<Entry>, visited: seq<nat>, k: nat, d: nat)
    requires Reached(entries, [], visited) && k < |entries| && RootedWithin(entries, k, d)
    ensures k in visited
    decreases d
  {
    assert visited + [] == visited;
    if !IsRoot(entries, k) {
      RootedIsVisited(entries, visited, Parent(entries, k), d - 1);
    }
  }

  /** The children as linked, in the order of their times where the loop has been. */
  function ChildrenAt(entries: seq<Entry>, k: nat, visited: seq<nat>, time: Times): seq<nat> {
    var linked := ChildrenOf(entries, k, |entries|);
    if k in visited then SortByTime(linked, time) else linked
  }

  predicate ChildrenKept(entries: seq<Entry>, children: seq<seq<nat>>, visited: seq<nat>, time: Times) {
    && |children| == |entries|
    && forall k :: 0 <= k < |entries| ==> children[k] == ChildrenAt(entries, k, visited, time)
  }

  /** What some nodes' lists of children hold, one after the other. */
  function AllChildren(children: seq<seq<nat>>, nodes: seq<nat>): seq<nat> {
    if nodes == [] then []
    else AllChildren(children, nodes[..|nodes| - 1]) + ChildrenIn(children, nodes[|nodes| - 1])
  }

  lemma AllChildrenStay(children: seq<seq<nat>>, nodes: seq<nat>, node: nat, sorted: seq<nat>)
    requires node < |children| && node !in nodes
    ensures AllChildren(children[node := sorted], nodes + [node]) == AllChildren(children, nodes) + sorted
  {
    assert (nodes + [node])[..|nodes|] == nodes;
    SameChildren(children, node, sorted, nodes);
  }

  lemma {:induction false} SameChildren(children: seq<seq<nat>>, node: nat, sorted: seq<nat>, nodes: seq<nat>)
    requires node < |children| && node !in nodes
    ensures AllChildren(children[node := sorted], nodes) == AllChildren(children, nodes)
  {
    if nodes != [] {
      var n := |nodes| - 1;
      assert nodes[n] in nodes;
      SameChildren(children, node, sorted, nodes[..n]);
    }
  }

  /** The lists of the forest hold exactly the nodes visited or waiting on the stack, as often as these do. */
  predicate Counted(roots: seq<nat>, children: seq<seq<nat>>, visited: seq<nat>, stack: seq<nat>) {
    multiset(roots + AllChildren(children, visited)) == multiset(visited + stack)
  }

  lemma VisitCounts(roots: seq<nat>, children: seq<seq<nat>>, visited: seq<nat>, stack: seq<nat>, sorted: seq<nat>)
    requires Counted(roots, children, visited, stack) && stack != []
    requires stack[|stack| - 1] < |children| && stack[|stack| - 1] !in visited
    ensures var node := stack[|stack| - 1];
      Counted(roots, children[node := sorted], visited + [node], stack[..|stack| - 1] + sorted)
  {
    var n := |stack| - 1;
    AllChildrenStay(children, visited, stack[n], sorted);
    MoveTop(roots, AllChildren(children, visited), visited, stack, sorted);
  }

  lemma MoveTop(roots: seq<nat>, shown: seq<nat>, visited: seq<nat>, stack: seq<nat>, sorted: seq<nat>)
    requires stack != [] && multiset(roots + shown) == multiset(visited + stack)
    ensures var n := |stack| - 1;
      multiset(roots + (shown + sorted)) == multiset((visited + [stack[n]]) + (stack[..n] + sorted))
  {
    Reassociate(roots, shown, sorted);
    SplitAt(stack, |stack| - 1);
    assert stack[|stack| - 1..] == [stack[|stack| - 1]];
  }

  /** The returned forest: its nodes are those above which there is a root, and each of them stands exactly once in
      the list of roots or in the children of a node of the forest; no other node stands there. */
  ghost predicate IsForest(entries: seq<Entry>, roots: seq<nat>, children: seq<seq<nat>>, visited: seq<nat>) {
    && Distinct(visited)
    && |children| == |entries|
    && (forall k :: k in visited ==> k < |entries|)
    && (forall k :: 0 <= k < |entries| ==> (k in visited <==> Rooted(entries, k)))
    && (forall k :: k in visited ==> IsRoot(entries, k) || k in children[Parent(entries, k)])
    && (forall k :: 0 <= k < |entries| ==>
         multiset(roots + AllChildren(children, visited))[k] == if Rooted(entries, k) then 1 else 0)
  }

  /** The loop of the stack. */
  ghost predicate Looping(
    entries: seq<Entry>, roots: seq<nat>, children: seq<seq<nat>>, stack: seq<nat>, visited: seq<nat>, time: Times)
  {
    && Reached(entries, stack, visited)
    && ChildrenKept(entries, children, visited, time)
    && Counted(roots, children, visited, stack)
  }

  lemma LoopStarts(entries: seq<Entry>, children: seq<seq<nat>>, time: Times)
    requires UniqueIds(entries) && |children| == |entries|
    requires forall p :: 0 <= p < |entries| ==> children[p] == ChildrenOf(entries, p, |entries|)
    ensures var roots := RootsOf(entries, |entries|); Looping(entries, roots, children, roots, [], time)
  {
    var roots := RootsOf(entries, |entries|);
    RootsMeaning(entries, |entries|);
    RootsAreReached(entries, roots);
    assert roots + [] == [] + roots == roots;
  }

  lemma TopIsNew(entries: seq<Entry>, stack: seq<nat>, visited: seq<nat>)
    requires Reached(entries, stack, visited) && stack != []
    ensures var node := stack[|stack| - 1]; node < |entries| && node !in visited
  {
    var node := stack[|stack| - 1];
    DistinctParts(visited, stack);
    assert node in stack && node in visited + stack;
  }

  lemma SortAgain(xs: seq<nat>, time: Times)
    ensures SortByTime(SortByTime(xs, time), time) == SortByTime(xs, time)
  {
    SortByTimeSorts(xs, time);
    SortedIsFixed(SortByTime(xs, time), time);
  }

  lemma ChildrenAtNext(entries: seq<Entry>, k: nat, visited: seq<nat>, node: nat, time: Times)
    requires k < |entries|
    ensures ChildrenAt(entries, k, visited + [node], time)
         == if k == node then SortByTime(ChildrenOf(entries, k, |entries|), time)
           else ChildrenAt(entries, k, visited, time)
  {
    assert k in visited + [node] <==> k in visited || k == node;
  }

  lemma SortOne(entries: seq<Entry>, children: seq<seq<nat>>, visited: seq<nat>, time: Times, node: nat)
    requires ChildrenKept(entries, children, visited, time) && node < |entries|
    ensures SortByTime(children[node], time) == SortByTime(ChildrenOf(entries, node, |entries|), time)
    ensures ChildrenKept(entries, children[node := SortByTime(children[node], time)], visited + [node], time)
  {
    SortAgain(ChildrenOf(entries, node, |entries|), time);
    forall k: nat | k < |entries|
      ensures children[node := SortByTime(children[node], time)][k] == ChildrenAt(entries, k, visited + [node], time)
    {
      ChildrenAtNext(entries, k, visited, node, time);
    }
  }

  lemma LoopTurns(
    entries: seq<Entry>, roots: seq<nat>, children: seq<seq<nat>>, stack: seq<nat>, visited: seq<nat>, time: Times)
    requires UniqueIds(entries) && stack != [] && Looping(entries, roots, children, stack, visited, time)
    ensures var node := stack[|stack| - 1];
      && node < |children|
      && var sorted := SortByTime(children[node], time);
      && Looping(entries, roots, children[node := sorted], stack[..|stack| - 1] + sorted, visited + [node], time)
      && |Unvisited(entries, visited + [node])| < |Unvisited(entries, visited)|
  {
    var node := stack[|stack| - 1];
    TopIsNew(entries, stack, visited);
    SortOne(entries, children, visited, time, node);
    var sorted := SortByTime(children[node], time);
    SortedChildren(entries, node, time);
    VisitOne(entries, stack, visited, sorted);
    VisitShrinks(entries, visited, node);
    VisitCounts(roots, children, visited, stack, sorted);
  }

  lemma CountsOnce(xs: seq<nat>, visited: seq<nat>, k: nat)
    requires Distinct(visited) && multiset(xs) == multiset(visited)
    ensures multiset(xs)[k] == if k in visited then 1 else 0
  {
    Once(visited, k);
    assert k in visited <==> k in multiset(visited);
  }

  // ----- On every list of entries: when the loop ends, and what it reaches -----

  function ChildLists(entries: seq<Entry>): (lists: seq<seq<nat>>)
    ensures |lists| == |entries| && forall p :: 0 <= p < |entries| ==> lists[p] == ChildrenOf(entries, p, |entries|)
  {
    seq(|entries|, p requires 0 <= p < |entries| => ChildrenOf(entries, p, |entries|))
  }

  function Start(entries: seq<Entry>): Loop {
    Loop(ChildLists(entries), RootsOf(entries, |entries|))
  }

  /** Every descent from a root ends within as many nodes as there are entries: no cycle of nodes is below a root. */
  predicate NoCycleBelow(entries: seq<Entry>) {
    AllShallow(ChildLists(entries), RootsOf(entries, |entries|), |entries|)
  }

  lemma {:induction false} NodesInRange(entries: seq<Entry>, p: nat, n: nat)
    requires n <= |entries|
    ensures forall k :: k in RootsOf(entries, n) ==> k < |entries|
    ensures forall k :: k in ChildrenOf(entries, p, n) ==> k < |entries|
  {
    if n > 0 {
      NodesInRange(entries, p, n - 1);
    }
  }

  /** For every list of entries, repeated ids, cycles and all: the stack loop ends if and only if no cycle of nodes
      is below a root. */
  lemma TreeLoopEndsIff(entries: seq<Entry>, time: Times)
    ensures (exists turns: nat :: After(Start(entries), ByTime(time), turns).stack == []) <==> NoCycleBelow(entries)
  {
    ByTimePermutes(time);
    NodesInRange(entries, 0, |entries|);
    forall p, c | 0 <= p < |entries| && c in ChildLists(entries)[p] ensures c < |entries| {
      NodesInRange(entries, p, |entries|);
    }
    EndsIff(Start(entries), ByTime(time));
  }

  lemma TurnByTime(children: seq<seq<nat>>, stack: seq<nat>, time: Times)
    requires stack != [] && stack[|stack| - 1] < |children|
    ensures var node := stack[|stack| - 1];
      var sorted := SortByTime(children[node], time);
      Turn(Loop(children, stack), ByTime(time)) == Loop(children[node := sorted], stack[..|stack| - 1] + sorted)
  {}

  lemma NextLooping(
    entries: seq<Entry>, roots: seq<nat>, l: Loop, visited: seq<nat>, time: Times, next: Loop, visited': seq<nat>)
    requires UniqueIds(entries) && Looping(entries, roots, l.children, l.stack, visited, time) && l.stack != []
    requires next == Turn(l, ByTime(time)) && visited' == visited + [l.stack[|l.stack| - 1]]
    ensures Looping(entries, roots, next.children, next.stack, visited', time)
    ensures |Unvisited(entries, visited')| < |Unvisited(entries, visited)|
  {
    LoopTurns(entries, roots, l.children, l.stack, visited, time);
    TurnByTime(l.children, l.stack, time);
  }

  lemma {:induction false} UniqueLoopEnds(entries: seq<Entry>, roots: seq<nat>, l: Loop, visited: seq<nat>, time: Times)
    returns (turns: nat)
    requires UniqueIds(entries) && Looping(entries, roots, l.children, l.stack, visited, time)
    ensures After(l, ByTime(time), turns).stack == []
    decreases |Unvisited(entries, visited)|
  {
    if l.stack == [] {
      turns := 0;
    } else {
      var next, visited' := Turn(l, ByTime(time)), visited + [l.stack[|l.stack| - 1]];
      NextLooping(entries, roots, l, visited, time, next, visited');
      turns := UniqueLoopEnds(entries, roots, next, visited', time);
      AfterTurn(l, ByTime(time), turns + 1);
      turns := turns + 1;
    }
  }

  /** With unique ids it always ends, whatever the parents. */
  lemma UniqueIdsEnd(entries: seq<Entry>)
    requires UniqueIds(entries)
    ensures NoCycleBelow(entries)
  {
    var time: Times := (k: nat) => 0;
    LoopStarts(entries, ChildLists(entries), time);
    var turns := UniqueLoopEnds(entries, RootsOf(entries, |entries|), Start(entries), [], time);
    TreeLoopEndsIff(entries, time);
  }

  /** `d` steps down or fewer from a root there is the node `k`. */
  predicate BelowWithin(entries: seq<Entry>, k: nat, d: nat)
    decreases d
  {
    k in RootsOf(entries, |entries|)
    || (d > 0 && exists p: nat ::
          p < |entries| && k in ChildrenOf(entries, p, |entries|) && BelowWithin(entries, p, d - 1))
  }

  ghost predicate Below(entries: seq<Entry>, k: nat) {
    exists d: nat :: BelowWithin(entries, k, d)
  }

  /** What is visited or on the stack is below a root, and so are, visited or on the stack, the roots and the children
      of what is visited. */
  ghost predicate Visiting(entries: seq<Entry>, stack: seq<nat>, visited: seq<nat>) {
    && (forall k :: k in visited || k in stack ==> k < |entries| && Below(entries, k))
    && (forall k :: k in RootsOf(entries, |entries|) ==> k in visited || k in stack)
    && (forall p, c :: p in visited && c in ChildrenOf(entries, p, |entries|) ==> c in visited || c in stack)
  }

  lemma VisitingStarts(entries: seq<Entry>)
    ensures Visiting(entries, RootsOf(entries, |entries|), [])
  {
    NodesInRange(entries, 0, |entries|);
    forall k | k in RootsOf(entries, |entries|) ensures Below(entries, k) {
      assert BelowWithin(entries, k, 0);
    }
  }

  lemma Moved(stack: seq<nat>, visited: seq<nat>, list: seq<nat>)
    requires stack != []
    ensures var n := |stack| - 1;
      forall k :: k in visited + [stack[n]] || k in stack[..n] + list <==> k in visited || k in stack || k in list
  {
    var n := |stack| - 1;
    assert stack == stack[..n] + [stack[n]];
  }

  lemma ChildrenAreBelow(entries: seq<Entry>, node: nat, list: seq<nat>)
    requires node < |entries| && Below(entries, node) && Permuted(list, ChildrenOf(entries, node, |entries|))
    ensures forall c :: c in list ==> c < |entries| && Below(entries, c)
    ensures forall c :: c in ChildrenOf(entries, node, |entries|) ==> c in list
  {
    NodesInRange(entries, node, |entries|);
    SameMembers(list, ChildrenOf(entries, node, |entries|));
    forall c | c in list ensures c < |entries| && Below(entries, c) {
      var d: nat :| BelowWithin(entries, node, d);
      assert BelowWithin(entries, c, d + 1);
    }
  }

  lemma VisitingTurns(entries: seq<Entry>, stack: seq<nat>, visited: seq<nat>, list: seq<nat>)
    requires Visiting(entries, stack, visited) && stack != []
    requires Permuted(list, ChildrenOf(entries, stack[|stack| - 1], |entries|))
    ensures stack[|stack| - 1] < |entries|
    ensures Visiting(entries, stack[..|stack| - 1] + list, visited + [stack[|stack| - 1]])
  {
    var node := stack[|stack| - 1];
    assert node in stack;
    ChildrenAreBelow(entries, node, list);
    Moved(stack, visited, list);
    StillVisiting(entries, stack, visited, node, list, stack[..|stack| - 1] + list, visited + [node]);
  }

  lemma StillVisiting(
    entries: seq<Entry>, stack: seq<nat>, visited: seq<nat>, node: nat, list: seq<nat>, stack': seq<nat>,
    visited': seq<nat>)
    requires Visiting(entries, stack, visited) && visited' == visited + [node]
    requires forall k :: k in visited' || k in stack' <==> k in visited || k in stack || k in list
    requires forall c :: c in list ==> c < |entries| && Below(entries, c)
    requires forall c :: c in ChildrenOf(entries, node, |entries|) ==> c in list
    ensures Visiting(entries, stack', visited')
  {
    forall p, c | p in visited' && c in ChildrenOf(entries, p, |entries|) ensures c in visited' || c in stack' {
      assert p in visited || p == node;
    }
  }

  lemma {:induction false} BelowIsVisited(entries: seq<Entry>, visited: seq<nat>, k: nat, d: nat)
    requires Visiting(entries, [], visited) && BelowWithin(entries, k, d)
    ensures k in visited
    decreases d
  {
    if k !in RootsOf(entries, |entries|) {
      var p: nat :| p < |entries| && k in ChildrenOf(entries, p, |entries|) && BelowWithin(entries, p, d - 1);
      BelowIsVisited(entries, visited, p, d - 1);
    }
  }

  lemma KeptStarts(entries: seq<Entry>, time: Times) returns (turns: nat)
    requires NoCycleBelow(entries)
    ensures Kept(entries, RootsOf(entries, |entries|), Start(entries), [], time) && Empties(Start(entries), time, turns)
  {
    TreeLoopEndsIff(entries, time);
    turns :| After(Start(entries), ByTime(time), turns).stack == [];
    AfterEmpties(Start(entries), time, turns);
    VisitingStarts(entries);
    if UniqueIds(entries) {
      LoopStarts(entries, ChildLists(entries), time);
    }
  }

  /** Builds the forest, for every list of entries for which the loop ends. It visits exactly the nodes below a root
      and leaves their children sorted. When ids are unique, these are the entries above which there is a root, each
      visited once; the others, on a cycle or below one, are nowhere in the forest. */
  method BuildSessionTree(entries: seq<Entry>, time: Times)
    returns (roots: seq<nat>, children: seq<seq<nat>>, ghost visited: seq<nat>)
    requires NoCycleBelow(entries)
    ensures roots == RootsOf(entries, |entries|) && ChildrenKept(entries, children, visited, time)
    ensures forall k: nat :: k in visited <==> Below(entries, k)
    ensures UniqueIds(entries) ==> IsForest(entries, roots, children, visited)
  {
    roots, children := LinkNodes(entries);
    assert children == ChildLists(entries);
    ghost var turns := KeptStarts(entries, time);
    KeptBuilds(entries, roots, Start(entries), [], time, turns);
    children, visited := EmptyStack(entries, children, roots, time, turns);
  }

  /** The loop of the stack. */
  method EmptyStack(ghost entries: seq<Entry>, linked: seq<seq<nat>>, roots: seq<nat>, time: Times, ghost turns: nat)
    returns (children: seq<seq<nat>>, ghost visited: seq<nat>)
    requires Builds(entries, roots, Loop(linked, roots), [], time, turns)
    ensures Built(entries, roots, children, visited, time)
  {
    children, visited := linked, [];
    var stack := roots;
    ghost var left := turns;
    while |stack| > 0
      invariant Builds(entries, roots, Loop(children, stack), visited, time, left)
      decreases left
    {
      visited, left := visited + [stack[|stack| - 1]], left - 1;
      children, stack := VisitTop(children, stack, time);
    }
  }

  /** One turn of the loop: the node on top leaves the stack, and its children, sorted, go on it. */
  method VisitTop(children: seq<seq<nat>>, stack: seq<nat>, time: Times)
    returns (children': seq<seq<nat>>, stack': seq<nat>)
    requires stack != [] && stack[|stack| - 1] < |children|
    ensures Loop(children', stack') == Turn(Loop(children, stack), ByTime(time))
  {
    TurnByTime(children, stack, time);
    var node := stack[|stack| - 1];
    stack' := stack[..|stack| - 1];
    children' := children[node := SortByTime(children[node], time)];
    stack' := stack' + children'[node];
  }

  /** So many turns empty the stack. */
  predicate Empties(l: Loop, time: Times, left: nat)
    decreases left
  {
    l.stack == [] || (left > 0 && Empties(Turn(l, ByTime(time)), time, left - 1))
  }

  lemma {:induction false} AfterEmpties(l: Loop, time: Times, left: nat)
    requires After(l, ByTime(time), left).stack == []
    ensures Empties(l, time, left)
    decreases left
  {
    if l.stack != [] {
      OneFewer(l, ByTime(time), left);
      AfterEmpties(Turn(l, ByTime(time)), time, left - 1);
    }
  }

  /** What every turn keeps. */
  ghost predicate Kept(entries: seq<Entry>, roots: seq<nat>, l: Loop, visited: seq<nat>, time: Times) {
    && ChildrenKept(entries, l.children, visited, time)
    && Visiting(entries, l.stack, visited)
    && (UniqueIds(entries) ==> Looping(entries, roots, l.children, l.stack, visited, time))
  }

  ghost predicate Built(entries: seq<Entry>, roots: seq<nat>, children: seq<seq<nat>>, visited: seq<nat>, time: Times) {
    && ChildrenKept(entries, children, visited, time)
    && (forall k: nat :: k in visited <==> Below(entries, k))
    && (UniqueIds(entries) ==> IsForest(entries, roots, children, visited))
  }

  /** The loop, from here on, visits nodes of the forest only and builds it in as many turns. */
  ghost predicate Builds(entries: seq<Entry>, roots: seq<nat>, l: Loop, visited: seq<nat>, time: Times, left: nat)
    decreases left
  {
    if l.stack == [] then Built(entries, roots, l.children, visited, time)
    else
      && left > 0 && l.stack[|l.stack| - 1] < |l.children|
      && Builds(entries, roots, Turn(l, ByTime(time)), visited + [l.stack[|l.stack| - 1]], time, left - 1)
  }

  lemma {:induction false} KeptBuilds(
    entries: seq<Entry>, roots: seq<nat>, l: Loop, visited: seq<nat>, time: Times, left: nat)
    requires Kept(entries, roots, l, visited, time) && Empties(l, time, left)
    ensures Builds(entries, roots, l, visited, time, left)
    decreases left
  {
    if l.stack == [] {
      KeptEnds(entries, roots, l.children, visited, time);
    } else {
      var next, visited' := Turn(l, ByTime(time)), visited + [l.stack[|l.stack| - 1]];
      KeptTurns(entries, roots, l, visited, time);
      KeptBuilds(entries, roots, next, visited', time, left - 1);
      BuildsBack(entries, roots, l, next, visited, visited', time, left);
    }
  }

  lemma BuildsBack(
    entries: seq<Entry>, roots: seq<nat>, l: Loop, next: Loop, visited: seq<nat>, visited': seq<nat>, time: Times,
    left: nat)
    requires l.stack != [] && l.stack[|l.stack| - 1] < |l.children| && left > 0
    requires next == Turn(l, ByTime(time)) && visited' == visited + [l.stack[|l.stack| - 1]]
    requires Builds(entries, roots, next, visited', time, left - 1)
    ensures Builds(entries, roots, l, visited, time, left)
  {}

  lemma KeptEnds(entries: seq<Entry>, roots: seq<nat>, children: seq<seq<nat>>, visited: seq<nat>, time: Times)
    requires ChildrenKept(entries, children, visited, time) && Visiting(entries, [], visited)
    requires UniqueIds(entries) ==> Looping(entries, roots, children, [], visited, time)
    ensures Built(entries, roots, children, visited, time)
  {
    forall k: nat ensures k in visited <==> Below(entries, k) {
      if d: nat :| BelowWithin(entries, k, d) {
        BelowIsVisited(entries, visited, k, d);
      }
    }
    if UniqueIds(entries) {
      LoopEnds(entries, roots, children, visited, time);
    }
  }

  lemma KeptTurns(entries: seq<Entry>, roots: seq<nat>, l: Loop, visited: seq<nat>, time: Times)
    requires Kept(entries, roots, l, visited, time) && l.stack != []
    ensures l.stack[|l.stack| - 1] < |l.children|
    ensures Kept(entries, roots, Turn(l, ByTime(time)), visited + [l.stack[|l.stack| - 1]], time)
  {
    TurnIsKept(entries, roots, l.children, l.stack, visited, time);
    TurnByTime(l.children, l.stack, time);
    NextIsKept(entries, roots, l, Turn(l, ByTime(time)), visited, time);
  }

  lemma NextIsKept(entries: seq<Entry>, roots: seq<nat>, l: Loop, next: Loop, visited: seq<nat>, time: Times)
    requires l.stack != [] && l.stack[|l.stack| - 1] < |l.children|
    requires var node := l.stack[|l.stack| - 1];
      var sorted := SortByTime(l.children[node], time);
      && next == Loop(l.children[node := sorted], l.stack[..|l.stack| - 1] + sorted)
      && ChildrenKept(entries, l.children[node := sorted], visited + [node], time)
      && Visiting(entries, l.stack[..|l.stack| - 1] + sorted, visited + [node])
      && (UniqueIds(entries) ==>
            Looping(
              entries, roots, l.children[node := sorted], l.stack[..|l.stack| - 1] + sorted, visited + [node], time))
    ensures Kept(entries, roots, next, visited + [l.stack[|l.stack| - 1]], time)
  {}

  lemma TurnIsKept(
    entries: seq<Entry>, roots: seq<nat>, children: seq<seq<nat>>, stack: seq<nat>, visited: seq<nat>, time: Times)
    requires stack != [] && ChildrenKept(entries, children, visited, time) && Visiting(entries, stack, visited)
    requires UniqueIds(entries) ==> Looping(entries, roots, children, stack, visited, time)
    ensures var node := stack[|stack| - 1];
      && node < |children|
      && var sorted := SortByTime(children[node], time);
      && ChildrenKept(entries, children[node := sorted], visited + [node], time)
      && Visiting(entries, stack[..|stack| - 1] + sorted, visited + [node])
      && (UniqueIds(entries) ==>
            Looping(entries, roots, children[node := sorted], stack[..|stack| - 1] + sorted, visited + [node], time))
  {
    var node := stack[|stack| - 1];
    assert node in stack;
    SortOne(entries, children, visited, time, node);
    SortByTimeSorts(ChildrenOf(entries, node, |entries|), time);
    VisitingTurns(entries, stack, visited, SortByTime(children[node], time));
    if UniqueIds(entries) {
      LoopTurns(entries, roots, children, stack, visited, time);
    }
  }

  lemma LoopEnds(entries: seq<Entry>, roots: seq<nat>, children: seq<seq<nat>>, visited: seq<nat>, time: Times)
    requires UniqueIds(entries) && Looping(entries, roots, children, [], visited, time)
    ensures IsForest(entries, roots, children, visited)
  {
    ForestIsComplete(entries, children, visited, time);
    assert visited + [] == visited;
    forall k | 0 <= k < |entries|
      ensures multiset(roots + AllChildren(children, visited))[k] == if Rooted(entries, k) then 1 else 0
    {
      CountsOnce(roots + AllChildren(children, visited), visited, k);
    }
  }

  lemma RootsAreReached(entries: seq<Entry>, roots: seq<nat>)
    requires Distinct(roots) && forall k: nat :: k in roots <==> k < |entries| && IsRoot(entries, k)
    ensures Reached(entries, roots, [])
  {
    assert [] + roots == roots;
    assert forall k :: 0 <= k < |entries| && IsRoot(entries, k) ==> RootedWithin(entries, k, 0);
  }

  lemma ForestIsComplete(entries: seq<Entry>, children: seq<seq<nat>>, visited: seq<nat>, time: Times)
    requires UniqueIds(entries) && Reached(entries, [], visited) && ChildrenKept(entries, children, visited, time)
    ensures Distinct(visited)
    ensures forall k :: 0 <= k < |entries| ==> (k in visited <==> Rooted(entries, k))
    ensures forall k :: k in visited ==> k < |entries| && (IsRoot(entries, k) || k in children[Parent(entries, k)])
  {
    assert visited + [] == visited;
    forall k | 0 <= k < |entries| ensures k in visited <==> Rooted(entries, k) {
      if Rooted(entries, k) {
        var d: nat :| RootedWithin(entries, k, d);
        RootedIsVisited(entries, visited, k, d);
      }
    }
    forall k | k in visited && !IsRoot(entries, k) ensures k in children[Parent(entries, k)] {
      SortedChildren(entries, Parent(entries, k), time);
    }
  }

  lemma SortedChildren(entries: seq<Entry>, p: nat, time: Times)
    requires UniqueIds(entries)
    ensures var sorted := SortByTime(ChildrenOf(entries, p, |entries|), time);
      && Distinct(sorted) && InOrder(sorted, time)
      && forall c: nat :: c in sorted <==> IsChild(entries, c, p)
  {
    var linked := ChildrenOf(entries, p, |entries|);
    ChildrenMeaning(entries, p, |entries|);
    SortByTimeSorts(linked, time);
    SamePermutation(linked, SortByTime(linked, time));
  }

  method LinkNodes(entries: seq<Entry>) returns (roots: seq<nat>, children: seq<seq<nat>>)
    ensures roots == RootsOf(entries, |entries|) && |children| == |entries|
    ensures forall p :: 0 <= p < |entries| ==> children[p] == ChildrenOf(entries, p, |entries|)
  {
    roots := [];
    children := seq(|entries|, _ => []);
    for k := 0 to |entries|
      invariant roots == RootsOf(entries, k) && |children| == |entries|
      invariant forall p :: 0 <= p < |entries| ==> children[p] == ChildrenOf(entries, p, k)
    {
      var e := entries[k];
      if e.parentId == "" || e.parentId == e.id {
        roots := roots + [NodeOf(entries, k)];
        continue;
      }
      if e.parentId !in Index(entries) {
        roots := roots + [NodeOf(entries, k)];
        continue;
      }
      var p := Index(entries)[e.parentId];
      children := children[p := children[p] + [NodeOf(entries, k)]];
    }
  }

  /** When parents are acyclic, every entry is in the forest, exactly once. */
  lemma {:induction false} AcyclicIsRooted(entries: seq<Entry>, rank: nat -> nat, k: nat)
    requires k < |entries|
    requires forall i :: 0 <= i < |entries| && !IsRoot(entries, i) ==> rank(Parent(entries, i)) < rank(i)
    ensures RootedWithin(entries, k, rank(k))
    decreases rank(k)
  {
    if !IsRoot(entries, k) {
      AcyclicIsRooted(entries, rank, Parent(entries, k));
      RootedMonotone(entries, Parent(entries, k), rank(Parent(entries, k)), rank(k) - 1);
    }
  }

  lemma {:induction false} RootedMonotone(entries: seq<Entry>, k: nat, d: nat, more: nat)
    requires k < |entries| && RootedWithin(entries, k, d) && d <= more
    ensures RootedWithin(entries, k, more)
    decreases d
  {
    if !IsRoot(entries, k) {
      RootedMonotone(entries, Parent(entries, k), d - 1, more - 1);
    }
  }

  /** When parents are acyclic every entry stands exactly once in the returned forest. */
  lemma AcyclicForestIsWhole(
    entries: seq<Entry>, roots: seq<nat>, children: seq<seq<nat>>, visited: seq<nat>, rank: nat -> nat, k: nat)
    requires IsForest(entries, roots, children, visited) && k < |entries|
    requires forall i :: 0 <= i < |entries| && !IsRoot(entries, i) ==> rank(Parent(entries, i)) < rank(i)
    ensures k in visited && multiset(roots + AllChildren(children, visited))[k] == 1
  {
    AcyclicIsRooted(entries, rank, k);
  }

  /** In particular a session tree is shown whole. */
  lemma TreeIsShownWhole(entries: seq<Entry>, roots: seq<nat>, children: seq<seq<nat>>, visited: seq<nat>, k: nat)
    requires IsForest(entries, roots, children, visited) && Tree(entries) && k < |entries|
    ensures k in visited && multiset(roots + AllChildren(children, visited))[k] == 1
  {
    forall i: nat | i < |entries| && !IsRoot(entries, i) ensures Parent(entries, i) < i {
      assert ParentIsEarlier(entries, i);
    }
    AcyclicForestIsWhole(entries, roots, children, visited, (i: nat) => i, k);
  }

  // ----- Repeated ids -----

  const FIRST := Entry("a", "", "", Label("", ""))
  const SECOND := Entry("b", "a", "", Label("", ""))
  const THIRD := Entry("a", "b", "", Label("", ""))

  lemma RepeatedIndex()
    ensures Index([FIRST, SECOND, THIRD]) == map["a" := 2, "b" := 1]
  {
    IndexOfTwo(FIRST, SECOND);
    IndexAppend([FIRST, SECOND], THIRD);
    assert [FIRST, SECOND] + [THIRD] == [FIRST, SECOND, THIRD];
  }

  lemma IndexOfTwo(a: Entry, b: Entry)
    ensures Index([a, b]) == map[a.id := 0][b.id := 1]
  {
    IndexAppend([], a);
    IndexAppend([a], b);
    assert [] + [a] == [a] && [a] + [b] == [a, b];
  }

  lemma {:induction false} RootsHaveNoParent(entries: seq<Entry>, p: nat, n: nat)
    requires n <= |entries| && forall k :: 0 <= k < n ==> IsRoot(entries, k)
    ensures ChildrenOf(entries, p, n) == []
  {
    if n > 0 {
      RootsHaveNoParent(entries, p, n - 1);
    }
  }

  lemma ThreeRoots(entries: seq<Entry>)
    requires |entries| == 3
    ensures RootsOf(entries, 3)
         == (if IsRoot(entries, 0) then [NodeOf(entries, 0)] else [])
            + (if IsRoot(entries, 1) then [NodeOf(entries, 1)] else [])
            + (if IsRoot(entries, 2) then [NodeOf(entries, 2)] else [])
  {
    assert RootsOf(entries, 0) == [];
    assert RootsOf(entries, 1) == if IsRoot(entries, 0) then [NodeOf(entries, 0)] else [];
  }

  lemma ThreeChildren(entries: seq<Entry>, p: nat)
    requires |entries| == 3
    ensures ChildrenOf(entries, p, 3)
         == (if IsChild(entries, 0, p) then [NodeOf(entries, 0)] else [])
            + (if IsChild(entries, 1, p) then [NodeOf(entries, 1)] else [])
            + (if IsChild(entries, 2, p) then [NodeOf(entries, 2)] else [])
  {
    assert ChildrenOf(entries, p, 0) == [];
    assert ChildrenOf(entries, p, 1) == if IsChild(entries, 0, p) then [NodeOf(entries, 0)] else [];
  }

  /** Where the first and the last entry share an id they share a node, a root that is below its own child: the loop
      never ends, whatever the times. */
  lemma RepeatedIdsNeverEnd(time: Times, turns: nat)
    ensures !NoCycleBelow([FIRST, SECOND, THIRD])
    ensures After(Start([FIRST, SECOND, THIRD]), ByTime(time), turns).stack != []
  {
    var entries := [FIRST, SECOND, THIRD];
    var lists := ChildLists(entries);
    RepeatedIndex();
    assert NodeOf(entries, 0) == 2 && NodeOf(entries, 1) == 1 && NodeOf(entries, 2) == 2;
    assert IsRoot(entries, 0) && IsChild(entries, 1, 2) && IsChild(entries, 2, 1);
    assert !IsRoot(entries, 1) && !IsRoot(entries, 2);
    ThreeRoots(entries);
    ThreeChildren(entries, 1);
    ThreeChildren(entries, 2);
    BackAndForth(lists, 3, 2);
    TreeLoopEndsIff(entries, time);
  }

  lemma {:induction false} BackAndForth(children: seq<seq<nat>>, d: nat, k: nat)
    requires |children| == 3 && 2 in children[1] && 1 in children[2]
    requires k == 1 || k == 2
    ensures !Shallow(children, k, d)
    decreases d
  {
    if d > 0 {
      BackAndForth(children, d - 1, 3 - k);
      assert 3 - k in ChildrenIn(children, k);
    }
  }

  /** Two roots that share an id and have no child share a node, which is listed and visited twice: the loop ends. */
  lemma RepeatedRootsEnd()
    ensures !UniqueIds([FIRST, FIRST]) && NoCycleBelow([FIRST, FIRST])
    ensures RootsOf([FIRST, FIRST], 2) == [1, 1]
  {
    var entries := [FIRST, FIRST];
    IndexOfTwo(FIRST, FIRST);
    assert IsRoot(entries, 0) && IsRoot(entries, 1) && NodeOf(entries, 0) == 1 && NodeOf(entries, 1) == 1;
    assert RootsOf(entries, 1) == [1];
    RootsHaveNoParent(entries, 1, 2);
    assert entries[0].id == entries[1].id;
  }
}

/** The stack loop of `buildSessionTree` (sidecar/node-extension-runtime/main.mjs) over any lists of children, and
    exactly when it ends. */
module ForestLoop {
  import opened Sequences

  /** How the children of a node are ordered before they go on the stack. */
  type Order = seq<nat> -> seq<nat>

  predicate Permuted(xs: seq<nat>, ys: seq<nat>) {
    multiset(xs) == multiset(ys)
  }

  ghost predicate Permutes(order: Order) {
    forall xs :: Permuted(order(xs), xs)
  }

  datatype Loop = Loop(children: seq<seq<nat>>, stack: seq<nat>)

  function ChildrenIn(children: seq<seq<nat>>, p: nat): seq<nat> {
    if p < |children| then children[p] else []
  }

  /** One turn: the node on top leaves the stack, its children are ordered in place and go on it. */
  function Turn(l: Loop, order: Order): Loop
    requires l.stack != []
  {
    var n := |l.stack| - 1;
    var node := l.stack[n];
    var ordered := order(ChildrenIn(l.children, node));
    Loop(if node < |l.children| then l.children[node := ordered] else l.children, l.stack[..n] + ordered)
  }

  function Turner(order: Order): Loop -> Loop {
    (l: Loop) => if l.stack == [] then l else Turn(l, order)
  }

  /** The loop after some turns; nothing happens once the stack is empty. */
  function After(l: Loop, order: Order, turns: nat): Loop {
    Iterate(Turner(order), l, turns)
  }

  /** Every descent from `k` ends within `d` nodes. */
  predicate Shallow(children: seq<seq<nat>>, k: nat, d: nat)
    decreases d
  {
    d > 0 && forall c :: c in ChildrenIn(children, k) ==> Shallow(children, c, d - 1)
  }

  predicate AllShallow(children: seq<seq<nat>>, ks: seq<nat>, d: nat) {
    forall k :: k in ks ==> Shallow(children, k, d)
  }

  // ----- Turns change the order of children alone -----

  predicate Alike(a: seq<seq<nat>>, b: seq<seq<nat>>) {
    |a| == |b| && forall k :: 0 <= k < |a| ==> Permuted(a[k], b[k])
  }

  lemma SameMembers(xs: seq<nat>, ys: seq<nat>)
    requires multiset(xs) == multiset(ys)
    ensures forall x :: x in xs <==> x in ys
  {
    forall x ensures x in xs <==> x in ys {
      assert x in multiset(xs) <==> x in multiset(ys);
    }
  }

  lemma {:induction false} ShallowAlike(a: seq<seq<nat>>, b: seq<seq<nat>>, k: nat, d: nat)
    requires Alike(a, b)
    ensures Shallow(a, k, d) <==> Shallow(b, k, d)
    decreases d
  {
    if d > 0 {
      SameMembers(ChildrenIn(a, k), ChildrenIn(b, k));
      forall c | c in ChildrenIn(a, k) ensures Shallow(a, c, d - 1) <==> Shallow(b, c, d - 1) {
        ShallowAlike(a, b, c, d - 1);
      }
    }
  }

  lemma {:induction false} ShallowMonotone(children: seq<seq<nat>>, k: nat, d: nat)
    requires Shallow(children, k, d)
    ensures Shallow(children, k, d + 1)
    decreases d
  {
    forall c | c in ChildrenIn(children, k) ensures Shallow(children, c, d) {
      ShallowMonotone(children, c, d - 1);
    }
  }

  lemma TurnAlike(l: Loop, order: Order)
    requires Permutes(order) && l.stack != []
    ensures Alike(l.children, Turn(l, order).children)
    ensures var list := ChildrenIn(l.children, l.stack[|l.stack| - 1]); forall c :: c in list <==> c in order(list)
  {
    var list := ChildrenIn(l.children, l.stack[|l.stack| - 1]);
    assert Permuted(order(list), list);
    SameMembers(order(list), list);
  }

  // ----- It ends exactly from shallow stacks -----

  /** If the stack is empty after some turns, every descent from it ends within as many nodes. */
  lemma {:induction false} EndedIsShallow(l: Loop, order: Order, turns: nat)
    requires Permutes(order) && After(l, order, turns).stack == []
    ensures AllShallow(l.children, l.stack, turns)
    decreases turns
  {
    if l.stack != [] {
      var next := Turn(l, order);
      AfterTurn(l, order, turns);
      EndedIsShallow(next, order, turns - 1);
      TurnBack(l, order, next, turns - 1);
    }
  }

  lemma AfterTurn(l: Loop, order: Order, turns: nat)
    requires turns > 0 && l.stack != []
    ensures After(l, order, turns) == After(Turn(l, order), order, turns - 1)
  {}

  lemma OneFewer(l: Loop, order: Order, turns: nat)
    requires l.stack != [] && After(l, order, turns).stack == []
    ensures turns > 0 && After(Turn(l, order), order, turns - 1).stack == []
  {}

  lemma TurnBack(l: Loop, order: Order, next: Loop, d: nat)
    requires Permutes(order) && l.stack != [] && next == Turn(l, order)
    requires AllShallow(next.children, next.stack, d)
    ensures AllShallow(l.children, l.stack, d + 1)
  {
    TurnAlike(l, order);
    AllShallowAlike(next.children, l.children, next.stack, d);
    BackOneTurn(l.children, l.stack, order(ChildrenIn(l.children, l.stack[|l.stack| - 1])), d);
  }

  lemma AllShallowAlike(a: seq<seq<nat>>, b: seq<seq<nat>>, ks: seq<nat>, d: nat)
    requires Alike(a, b) && AllShallow(a, ks, d)
    ensures AllShallow(b, ks, d)
  {
    forall k | k in ks ensures Shallow(b, k, d) {
      ShallowAlike(a, b, k, d);
    }
  }

  lemma BackOneTurn(children: seq<seq<nat>>, stack: seq<nat>, list: seq<nat>, d: nat)
    requires stack != [] && AllShallow(children, stack[..|stack| - 1] + list, d)
    requires forall c :: c in ChildrenIn(children, stack[|stack| - 1]) ==> c in list
    ensures AllShallow(children, stack, d + 1)
  {
    var n := |stack| - 1;
    assert forall c :: c in list ==> c in stack[..n] + list;
    forall k | k in stack[..n] ensures Shallow(children, k, d + 1) {
      assert k in stack[..n] + list;
      ShallowMonotone(children, k, d);
    }
    forall c | c in ChildrenIn(children, stack[n]) ensures Shallow(children, c, d) {
      assert c in stack[..n] + list;
    }
    assert Shallow(children, stack[n], d + 1);
    forall k | k in stack ensures k in stack[..n] || k == stack[n] {
      assert stack == stack[..n] + [stack[n]];
    }
  }

  /** The loop takes a shallow node off the stack and leaves what is under it. */
  lemma {:induction false} Consume(l: Loop, order: Order, under: seq<nat>, k: nat, d: nat) returns (turns: nat)
    requires Permutes(order) && l.stack == under + [k] && Shallow(l.children, k, d)
    ensures Consumed(l, order, turns, under)
    decreases d, 0
  {
    var next, list := Turn(l, order), order(ChildrenIn(l.children, k));
    assert l.stack[..|l.stack| - 1] == under && next.stack == under + list;
    TurnAlike(l, order);
    forall c | c in list ensures Shallow(next.children, c, d - 1) {
      ShallowAlike(l.children, next.children, c, d - 1);
    }
    turns := ConsumeAll(next, order, under, list, d - 1);
    ConsumedLater(l, order, turns, under);
    turns := turns + 1;
  }

  lemma ConsumedLater(l: Loop, order: Order, turns: nat, under: seq<nat>)
    requires Permutes(order) && l.stack != [] && Consumed(Turn(l, order), order, turns, under)
    ensures Consumed(l, order, turns + 1, under)
  {
    TurnAlike(l, order);
    AfterTurn(l, order, turns + 1);
  }

  lemma {:induction false} ConsumeAll(l: Loop, order: Order, under: seq<nat>, ks: seq<nat>, d: nat) returns (turns: nat)
    requires Permutes(order) && l.stack == under + ks && AllShallow(l.children, ks, d)
    ensures Consumed(l, order, turns, under)
    decreases d, 2 * |ks|
  {
    if ks == [] {
      turns := 0;
      assert under + ks == under;
      ConsumedNone(l, order);
    } else {
      var rest, k := ks[..|ks| - 1], ks[|ks| - 1];
      assert ks == rest + [k];
      LastOn(under, rest, k);
      Popped(l.children, rest, k, d);
      turns := ConsumeLast(l, order, under, rest, k, d);
    }
  }

  lemma {:induction false} ConsumeLast(l: Loop, order: Order, under: seq<nat>, rest: seq<nat>, k: nat, d: nat)
    returns (turns: nat)
    requires Permutes(order) && l.stack == (under + rest) + [k]
    requires Shallow(l.children, k, d) && AllShallow(l.children, rest, d)
    ensures Consumed(l, order, turns, under)
    decreases d, 2 * |rest| + 1
  {
    var one := Consume(l, order, under + rest, k, d);
    var next := After(l, order, one);
    AllShallowAlike(l.children, next.children, rest, d);
    var more := ConsumeAll(next, order, under, rest, d);
    ConsumedThen(l, order, under + rest, one, under, more);
    turns := one + more;
  }

  /** After so many turns only `under` is left on the stack. */
  predicate Consumed(l: Loop, order: Order, turns: nat, under: seq<nat>) {
    After(l, order, turns).stack == under && Alike(l.children, After(l, order, turns).children)
  }

  lemma ConsumedNone(l: Loop, order: Order)
    ensures Consumed(l, order, 0, l.stack)
  {}

  lemma ConsumedThen(l: Loop, order: Order, first: seq<nat>, m: nat, under: seq<nat>, n: nat)
    requires Consumed(l, order, m, first) && Consumed(After(l, order, m), order, n, under)
    ensures Consumed(l, order, m + n, under)
  {
    IterateAdds(Turner(order), l, m, n);
  }

  lemma LastOn(under: seq<nat>, rest: seq<nat>, k: nat)
    ensures under + (rest + [k]) == (under + rest) + [k]
  {}

  lemma Popped(children: seq<seq<nat>>, rest: seq<nat>, k: nat, d: nat)
    requires AllShallow(children, rest + [k], d)
    ensures AllShallow(children, rest, d) && Shallow(children, k, d)
  {
    assert k in rest + [k] && forall c :: c in rest ==> c in rest + [k];
  }

  // ----- As many nodes as there are bound the depth -----

  function Level(children: seq<seq<nat>>, d: nat): set<nat> {
    set k: nat | k < |children| && Shallow(children, k, d)
  }

  predicate Proper(children: seq<seq<nat>>) {
    forall k, c :: 0 <= k < |children| && c in children[k] ==> c < |children|
  }

  lemma LevelWithin(children: seq<seq<nat>>, d: nat, e: nat)
    requires Proper(children) && Level(children, d) <= Level(children, e)
    ensures Level(children, d + 1) <= Level(children, e + 1)
  {
    var more, more' := d + 1, e + 1;
    forall k: nat | k < |children| && Shallow(children, k, more) ensures Shallow(children, k, more') {
      forall c | c in ChildrenIn(children, k) ensures Shallow(children, c, e) {
        assert c in children[k] && c in Level(children, d);
      }
    }
  }

  lemma LevelStep(children: seq<seq<nat>>, d: nat, e: nat)
    requires Proper(children) && Level(children, d) == Level(children, e)
    ensures Level(children, d + 1) == Level(children, e + 1)
  {
    LevelWithin(children, d, e);
    LevelWithin(children, e, d);
  }

  lemma LevelGrows(children: seq<seq<nat>>, d: nat)
    ensures Level(children, d) <= Level(children, d + 1)
  {
    forall k | k in Level(children, d) ensures k in Level(children, d + 1) {
      ShallowMonotone(children, k, d);
    }
  }

  lemma SubsetSize(a: set<nat>, b: set<nat>)
    requires a <= b
    ensures |a| <= |b| && (a != b ==> |a| < |b|)
  {
    assert b == a + (b - a) && a !! (b - a);
    assert |b| == |a| + |b - a|;
    if a != b {
      assert b - a != {};
    }
  }

  lemma {:induction false} LevelFills(children: seq<seq<nat>>, d: nat)
    requires Proper(children)
    ensures |Level(children, d)| >= d || Level(children, d) == Level(children, d + 1)
    decreases d
  {
    if d > 0 {
      LevelFills(children, d - 1);
      if Level(children, d - 1) == Level(children, d) {
        LevelStep(children, d - 1, d);
      } else {
        LevelGrows(children, d - 1);
        SubsetSize(Level(children, d - 1), Level(children, d));
      }
    }
  }

  lemma {:induction false} AtMost(xs: set<nat>, n: nat)
    requires forall x :: x in xs ==> x < n
    ensures |xs| <= n && (|xs| == n ==> forall x: nat :: x < n ==> x in xs)
    decreases n
  {
    if n == 0 {
      assert xs == {};
    } else {
      var rest := xs - {n - 1};
      AtMost(rest, n - 1);
      if n - 1 in xs {
        assert xs == rest + {n - 1} && |xs| == |rest| + 1;
      } else {
        assert xs == rest;
      }
    }
  }

  lemma {:induction false} LevelsAreFull(children: seq<seq<nat>>, d: nat)
    requires Proper(children) && d >= |children|
    ensures Level(children, d) == Level(children, |children|)
    ensures Level(children, d + 1) == Level(children, d)
    decreases d
  {
    var n := |children|;
    if d == n {
      LevelFills(children, n);
      LevelGrows(children, n);
      AtMost(Level(children, n), n);
    } else {
      LevelsAreFull(children, d - 1);
      LevelStep(children, d - 1, d);
    }
  }

  /** If any bound holds, the number of nodes does. */
  lemma ShallowWithinSize(children: seq<seq<nat>>, k: nat, d: nat)
    requires Proper(children) && k < |children| && Shallow(children, k, d)
    ensures Shallow(children, k, |children|)
  {
    assert k in Level(children, d);
    if d >= |children| {
      LevelsAreFull(children, d);
    } else {
      ShallowUpTo(children, k, d, |children|);
    }
    assert k in Level(children, |children|);
  }

  lemma {:induction false} ShallowUpTo(children: seq<seq<nat>>, k: nat, d: nat, more: nat)
    requires Shallow(children, k, d) && d <= more
    ensures Shallow(children, k, more)
    decreases more - d
  {
    if d < more {
      ShallowMonotone(children, k, d);
      ShallowUpTo(children, k, d + 1, more);
    }
  }

  /** The loop ends if and only if no descent from the stack takes more nodes than there are: that is, no cycle of
      nodes is below the stack. */
  lemma EndsIff(l: Loop, order: Order)
    requires Permutes(order) && Proper(l.children) && forall k :: k in l.stack ==> k < |l.children|
    ensures (exists turns: nat :: After(l, order, turns).stack == []) <==> AllShallow(l.children, l.stack, |l.children|)
  {
    if AllShallow(l.children, l.stack, |l.children|) {
      assert [] + l.stack == l.stack;
      var turns := ConsumeAll(l, order, [], l.stack, |l.children|);
    }
    if turns: nat :| After(l, order, turns).stack == [] {
      EndedIsShallow(l, order, turns);
      forall k | k in l.stack ensures Shallow(l.children, k, |l.children|) {
        ShallowWithinSize(l.children, k, turns);
      }
    }
  }
}

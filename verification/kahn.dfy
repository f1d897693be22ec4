/** Level-synchronous Kahn leveling of a dependency graph given by positions: the core of
    `_resolve_dependencies`. Each round takes every task whose in-set dependencies have all
    been taken, gives the round's tasks the same parallel group, and a dependency cycle shows
    up as tasks that are never taken. */
module Kahn {
  import opened Wrappers
  import opened Text

  /** `deps[i]` lists the positions task i depends on, one entry per occurrence in its
      `depends_on` that names a task of the set. */
  type Graph = seq<seq<nat>>

  predicate ValidGraph(g: Graph) {
    forall i, k :: 0 <= i < |g| && 0 <= k < |g[i]| ==> g[i][k] < |g|
  }

  predicate AllIn(ds: seq<nat>, s: set<nat>) {
    forall k :: 0 <= k < |ds| ==> ds[k] in s
  }

  predicate Distinct(s: seq<nat>) {
    forall k1, k2 :: 0 <= k1 < k2 < |s| ==> s[k1] != s[k2]
  }

  predicate Below(s: seq<nat>, n: nat) {
    forall k :: 0 <= k < |s| ==> s[k] < n
  }

  function Elems(s: seq<nat>): (r: set<nat>)
    ensures forall x :: x in r <==> x in s
  {
    set x | x in s
  }

  /** The in-degree counter of the source: the dependency entries whose task is not yet taken. */
  function InDegree(ds: seq<nat>, taken: set<nat>): nat
    decreases |ds|
  {
    if |ds| == 0 then 0 else (if ds[0] in taken then 0 else 1) + InDegree(ds[1..], taken)
  }

  lemma {:induction false} InDegreeZeroIff(ds: seq<nat>, taken: set<nat>)
    ensures InDegree(ds, taken) == 0 <==> AllIn(ds, taken)
    decreases |ds|
  {
    if |ds| > 0 {
      InDegreeZeroIff(ds[1..], taken);
      assert forall k :: 1 <= k < |ds| ==> ds[k] == ds[1..][k - 1];
    }
  }

  // ---------------------------------------------------------------------------
  // What a leveling is
  // ---------------------------------------------------------------------------

  /** Task x's group is 0 without in-set dependencies, and otherwise one more than the largest
      group among them. */
  predicate RuleAt(g: Graph, grp: seq<nat>, x: nat) {
    x < |g| && |grp| == |g| && ValidGraph(g) &&
    (forall k :: 0 <= k < |g[x]| ==> grp[g[x][k]] < grp[x]) &&
    (|g[x]| == 0 ==> grp[x] == 0) &&
    (|g[x]| > 0 ==> exists k :: 0 <= k < |g[x]| && grp[g[x][k]] + 1 == grp[x])
  }

  predicate IsPermutation(order: seq<nat>, n: nat) {
    |order| == n && Below(order, n) && Distinct(order)
  }

  /** The outcome of a successful run: `order` (the source's `sorted_indices`) and the parallel
      group of every task. */
  datatype Leveling = Leveling(order: seq<nat>, group: seq<nat>)

  predicate IsLeveling(g: Graph, lv: Leveling) {
    ValidGraph(g) && IsPermutation(lv.order, |g|) && |lv.group| == |g| &&
    (forall k1, k2 :: 0 <= k1 <= k2 < |g| ==> lv.group[lv.order[k1]] <= lv.group[lv.order[k2]]) &&
    (forall x :: 0 <= x < |g| ==> RuleAt(g, lv.group, x))
  }

  /** A nonempty set of tasks each of which depends on a member of the set: what a dependency
      cycle (a self-dependency included) leaves behind. */
  predicate Closed(g: Graph, s: set<nat>) {
    forall x :: x in s ==> x < |g| && exists k :: 0 <= k < |g[x]| && g[x][k] in s
  }

  ghost predicate HasCycle(g: Graph) {
    exists s :: s != {} && Closed(g, s)
  }

  /** `CyclicDependencyError`, with the counts its message reports. */
  datatype CycleError = CycleError(processed: nat, total: nat) {
    function Message(): string {
      "Cyclic dependency detected: processed " + NatToString(processed) + " of " + NatToString(total) + " tasks"
    }
  }

  // ---------------------------------------------------------------------------
  // Counting
  // ---------------------------------------------------------------------------

  function Range(n: nat): (r: set<nat>)
    ensures forall x: nat :: x in r <==> x < n
  {
    if n == 0 then {} else Range(n - 1) + {n - 1}
  }

  lemma {:induction false} RangeCard(n: nat)
    ensures |Range(n)| == n
  {
    if n > 0 {
      RangeCard(n - 1);
      FreshCard(Range(n - 1), n - 1);
    }
  }

  /** Adding a new element raises a set's size by one. */
  lemma FreshCard(a: set<nat>, x: nat)
    requires x !in a
    ensures |a + {x}| == |a| + 1
  {
  }

  lemma {:induction false} DistinctCard(s: seq<nat>)
    requires Distinct(s)
    ensures |Elems(s)| == |s|
    decreases |s|
  {
    if |s| > 0 {
      var init := s[..|s| - 1];
      assert Distinct(init);
      DistinctCard(init);
      assert Elems(s) == Elems(init) + {s[|s| - 1]};
      assert s[|s| - 1] !in Elems(init);
    }
  }

  /** Distinct positions below n number at most n, and exactly n only when they cover them all. */
  lemma Pigeonhole(s: seq<nat>, n: nat)
    requires Distinct(s) && Below(s, n)
    ensures |s| <= n
    ensures |s| == n ==> forall x: nat :: x < n ==> x in s
    ensures |s| < n ==> exists x: nat :: x < n && x !in s
  {
    DistinctCard(s);
    RangeCard(n);
    var e := Elems(s);
    var r := Range(n);
    assert e <= r;
    assert |r - e| == |r| - |e|;
    if |s| == n {
      assert r - e == {};
      forall x: nat | x < n ensures x in s {
        assert x in r;
      }
    }
    if |s| < n {
      assert r - e != {};
      var x :| x in r - e;
    }
  }

  lemma PermutationCovers(order: seq<nat>, n: nat)
    requires IsPermutation(order, n)
    ensures forall x: nat :: x < n ==> x in order
  {
    Pigeonhole(order, n);
  }

  // ---------------------------------------------------------------------------
  // The state between two rounds
  // ---------------------------------------------------------------------------

  /** The queue holds exactly the tasks not taken whose dependencies all are. */
  predicate ReadyQueue(g: Graph, processed: seq<nat>, level: seq<nat>) {
    forall x :: 0 <= x < |g| ==> (x in level <==> x !in processed && AllIn(g[x], Elems(processed)))
  }

  /** Between rounds: `processed` lists the tasks taken so far, round by round, each obeying
      the group rule; `level` (the queue) lists exactly the tasks not taken whose dependencies
      all are; and when a round has passed, each queued task depends on the last round. */
  predicate Between(g: Graph, processed: seq<nat>, grp: seq<nat>, level: seq<nat>, current: nat) {
    ValidGraph(g) && |grp| == |g| &&
    Distinct(processed) && Below(processed, |g|) && Distinct(level) && Below(level, |g|) &&
    ReadyQueue(g, processed, level) &&
    (forall k :: 0 <= k < |processed| ==>
       RuleAt(g, grp, processed[k]) && AllIn(g[processed[k]], Elems(processed)) && grp[processed[k]] < current) &&
    (forall k1, k2 :: 0 <= k1 <= k2 < |processed| ==> grp[processed[k1]] <= grp[processed[k2]]) &&
    (current == 0 ==> processed == []) &&
    (current > 0 ==> forall x :: x in level ==>
       exists k :: 0 <= k < |g[x]| && g[x][k] in processed && grp[g[x][k]] + 1 == current)
  }

  /** The groups after a round: the round's tasks get `current`. */
  function Assign(grp: seq<nat>, level: seq<nat>, current: nat): (r: seq<nat>)
    ensures |r| == |grp|
    ensures forall x :: 0 <= x < |grp| ==> r[x] == if x in level then current else grp[x]
  {
    seq(|grp|, x requires 0 <= x < |grp| => if x in level then current else grp[x])
  }

  /** The tasks a round releases, in any order: those whose last outstanding dependency was
      taken in the round. */
  predicate Releases(g: Graph, processed: seq<nat>, level: seq<nat>, next: seq<nat>) {
    Distinct(next) && Below(next, |g|) &&
    forall y :: 0 <= y < |g| ==>
      (y in next <==> !AllIn(g[y], Elems(processed)) && AllIn(g[y], Elems(processed + level)))
  }

  lemma AllInMono(ds: seq<nat>, s: set<nat>, t: set<nat>)
    requires AllIn(ds, s) && s <= t
    ensures AllIn(ds, t)
  {
  }

  /** The queue after a round is exactly the set of ready tasks again. */
  lemma StepReady(g: Graph, processed: seq<nat>, grp: seq<nat>, level: seq<nat>, current: nat, next: seq<nat>)
    requires Between(g, processed, grp, level, current) && Releases(g, processed, level, next)
    ensures forall x :: 0 <= x < |g| ==>
      (x in next <==> x !in processed + level && AllIn(g[x], Elems(processed + level)))
  {
    forall x | 0 <= x < |g|
      ensures x in next <==> x !in processed + level && AllIn(g[x], Elems(processed + level))
    {
      if x in next {
        assert x !in level;
      }
    }
  }

  /** The tasks taken in a round obey the group rule with group `current`. */
  lemma StepRule(g: Graph, processed: seq<nat>, grp: seq<nat>, level: seq<nat>, current: nat, x: nat)
    requires Between(g, processed, grp, level, current) && x in level
    ensures RuleAt(g, Assign(grp, level, current), x) && AllIn(g[x], Elems(processed))
  {
    var a := Assign(grp, level, current);
    assert x < |g|;
    assert AllIn(g[x], Elems(processed));
    forall k | 0 <= k < |g[x]| ensures a[g[x][k]] < a[x] {
      var d := g[x][k];
      assert d in processed;
      var j :| 0 <= j < |processed| && processed[j] == d;
      assert grp[processed[j]] < current;
      assert d !in level;
    }
    if current == 0 {
      assert |g[x]| == 0;
    } else {
      var k :| 0 <= k < |g[x]| && g[x][k] in processed && grp[g[x][k]] + 1 == current;
      assert g[x][k] !in level;
      assert a[g[x][k]] + 1 == a[x];
    }
  }

  /** Tasks taken in earlier rounds keep their groups and their rule. */
  lemma StepKeep(g: Graph, processed: seq<nat>, grp: seq<nat>, level: seq<nat>, current: nat, k: nat)
    requires Between(g, processed, grp, level, current) && k < |processed|
    ensures RuleAt(g, Assign(grp, level, current), processed[k])
    ensures Assign(grp, level, current)[processed[k]] == grp[processed[k]] < current
  {
    var a := Assign(grp, level, current);
    var x := processed[k];
    assert RuleAt(g, grp, x) && AllIn(g[x], Elems(processed));
    assert x !in level;
    forall j | 0 <= j < |g[x]| ensures a[g[x][j]] == grp[g[x][j]] {
      assert g[x][j] in processed;
      assert g[x][j] !in level;
    }
    if |g[x]| > 0 {
      var j :| 0 <= j < |g[x]| && grp[g[x][j]] + 1 == grp[x];
      assert a[g[x][j]] + 1 == a[x];
    }
  }

  /** Each released task depends on a task of the round just taken. */
  lemma StepDepends(g: Graph, processed: seq<nat>, grp: seq<nat>, level: seq<nat>, current: nat, next: seq<nat>, y: nat)
    requires Between(g, processed, grp, level, current) && Releases(g, processed, level, next) && y in next
    ensures exists k :: 0 <= k < |g[y]| && g[y][k] in processed + level &&
                        Assign(grp, level, current)[g[y][k]] + 1 == current + 1
  {
    var k :| 0 <= k < |g[y]| && g[y][k] !in Elems(processed);
    assert g[y][k] in Elems(processed + level);
    assert g[y][k] in level;
  }

  lemma StepDistinct(g: Graph, processed: seq<nat>, grp: seq<nat>, level: seq<nat>, current: nat)
    requires Between(g, processed, grp, level, current)
    ensures Distinct(processed + level) && Below(processed + level, |g|)
  {
    var p2 := processed + level;
    forall k1, k2 | 0 <= k1 < k2 < |p2| ensures p2[k1] != p2[k2] {
      if k1 < |processed| && k2 >= |processed| {
        assert p2[k2] in level;
        assert p2[k1] in processed;
      }
    }
  }

  lemma StepProcessed(g: Graph, processed: seq<nat>, grp: seq<nat>, level: seq<nat>, current: nat)
    requires Between(g, processed, grp, level, current)
    ensures forall k :: 0 <= k < |processed + level| ==>
      RuleAt(g, Assign(grp, level, current), (processed + level)[k]) &&
      AllIn(g[(processed + level)[k]], Elems(processed + level)) &&
      Assign(grp, level, current)[(processed + level)[k]] < current + 1
  {
    var p2 := processed + level;
    var a := Assign(grp, level, current);
    forall k | 0 <= k < |p2|
      ensures RuleAt(g, a, p2[k]) && AllIn(g[p2[k]], Elems(p2)) && a[p2[k]] < current + 1
    {
      if k < |processed| {
        StepKeep(g, processed, grp, level, current, k);
        assert AllIn(g[processed[k]], Elems(processed));
        AllInMono(g[p2[k]], Elems(processed), Elems(p2));
      } else {
        assert p2[k] == level[k - |processed|];
        StepRule(g, processed, grp, level, current, p2[k]);
        AllInMono(g[p2[k]], Elems(processed), Elems(p2));
      }
    }
  }

  lemma StepSorted(g: Graph, processed: seq<nat>, grp: seq<nat>, level: seq<nat>, current: nat)
    requires Between(g, processed, grp, level, current)
    ensures forall k1, k2 :: 0 <= k1 <= k2 < |processed + level| ==>
      Assign(grp, level, current)[(processed + level)[k1]] <= Assign(grp, level, current)[(processed + level)[k2]]
  {
    var p2 := processed + level;
    var a := Assign(grp, level, current);
    forall k1, k2 | 0 <= k1 <= k2 < |p2| ensures a[p2[k1]] <= a[p2[k2]] {
      if k2 < |processed| {
        StepKeep(g, processed, grp, level, current, k1);
        StepKeep(g, processed, grp, level, current, k2);
      } else if k1 < |processed| {
        StepKeep(g, processed, grp, level, current, k1);
        assert p2[k2] in level;
      } else {
        assert p2[k1] in level && p2[k2] in level;
      }
    }
  }

  lemma StepDependsAll(g: Graph, processed: seq<nat>, grp: seq<nat>, level: seq<nat>, current: nat, next: seq<nat>)
    requires Between(g, processed, grp, level, current) && Releases(g, processed, level, next)
    ensures forall y :: y in next ==>
      exists k :: 0 <= k < |g[y]| && g[y][k] in processed + level &&
                  Assign(grp, level, current)[g[y][k]] + 1 == current + 1
  {
    forall y | y in next
      ensures exists k :: 0 <= k < |g[y]| && g[y][k] in processed + level &&
                          Assign(grp, level, current)[g[y][k]] + 1 == current + 1
    {
      StepDepends(g, processed, grp, level, current, next, y);
    }
  }

  /** The state invariant, assembled from its parts after a round. */
  lemma BetweenNext(g: Graph, p: seq<nat>, a: seq<nat>, next: seq<nat>, c: nat)
    requires ValidGraph(g) && |a| == |g| && c > 0
    requires Distinct(p) && Below(p, |g|) && Distinct(next) && Below(next, |g|)
    requires forall x :: 0 <= x < |g| ==> (x in next <==> x !in p && AllIn(g[x], Elems(p)))
    requires forall k :: 0 <= k < |p| ==> RuleAt(g, a, p[k]) && AllIn(g[p[k]], Elems(p)) && a[p[k]] < c
    requires forall k1, k2 :: 0 <= k1 <= k2 < |p| ==> a[p[k1]] <= a[p[k2]]
    requires forall y :: y in next ==> exists k :: 0 <= k < |g[y]| && g[y][k] in p && a[g[y][k]] + 1 == c
    ensures Between(g, p, a, next, c)
  {
  }

  lemma Step(g: Graph, processed: seq<nat>, grp: seq<nat>, level: seq<nat>, current: nat, next: seq<nat>)
    requires Between(g, processed, grp, level, current) && Releases(g, processed, level, next)
    ensures Between(g, processed + level, Assign(grp, level, current), next, current + 1)
  {
    StepReady(g, processed, grp, level, current, next);
    StepDistinct(g, processed, grp, level, current);
    StepProcessed(g, processed, grp, level, current);
    StepSorted(g, processed, grp, level, current);
    StepDependsAll(g, processed, grp, level, current, next);
    BetweenNext(g, processed + level, Assign(grp, level, current), next, current + 1);
  }

  // ---------------------------------------------------------------------------
  // The algorithm
  // ---------------------------------------------------------------------------

  /** The first queue: the tasks with in-degree 0, in position order. */
  method FirstLevel(g: Graph) returns (level: seq<nat>)
    requires ValidGraph(g)
    ensures Between(g, [], seq(|g|, _ => 0), level, 0)
  {
    var n := |g|;
    level := [];
    var i := 0;
    while i < n
      invariant 0 <= i <= n
      invariant Distinct(level) && Below(level, i)
      invariant forall x: nat :: x < n ==> (x in level <==> x < i && InDegree(g[x], {}) == 0)
    {
      if InDegree(g[i], {}) == 0 {
        level := level + [i];
      }
      i := i + 1;
    }
    forall x | 0 <= x < n ensures x in level <==> AllIn(g[x], Elems([])) {
      InDegreeZeroIff(g[x], {});
    }
  }

  /** Popping a round: each queued task is appended to the order and given the current group. */
  method TakeRound(processed: seq<nat>, grp: seq<nat>, level: seq<nat>, current: nat)
    returns (processed': seq<nat>, grp': seq<nat>)
    requires Below(level, |grp|)
    ensures processed' == processed + level && grp' == Assign(grp, level, current)
  {
    processed', grp' := processed, grp;
    var j := 0;
    while j < |level|
      invariant 0 <= j <= |level|
      invariant processed' == processed + level[..j]
      invariant |grp'| == |grp|
      invariant forall x :: 0 <= x < |grp| ==> grp'[x] == if x in level[..j] then current else grp[x]
    {
      assert level[..j + 1] == level[..j] + [level[j]];
      processed' := processed' + [level[j]];
      grp' := grp'[level[j] := current];
      j := j + 1;
    }
    assert level[..|level|] == level;
  }

  /** One popped task's dependents, scanned in position order: those whose in-degree drops to
      0 once `t` is taken on top of `taken` join the next queue. */
  method ReleaseOne(g: Graph, prev: set<nat>, taken: set<nat>, t: nat, next0: seq<nat>)
    returns (next: seq<nat>)
    requires ValidGraph(g) && prev <= taken
    requires Distinct(next0) && Below(next0, |g|)
    requires forall y :: 0 <= y < |g| ==> (y in next0 <==> !AllIn(g[y], prev) && AllIn(g[y], taken))
    ensures Distinct(next) && Below(next, |g|)
    ensures forall y :: 0 <= y < |g| ==> (y in next <==> !AllIn(g[y], prev) && AllIn(g[y], taken + {t}))
  {
    var n := |g|;
    next := next0;
    var x := 0;
    while x < n
      invariant 0 <= x <= n
      invariant Distinct(next) && Below(next, n)
      invariant forall y :: 0 <= y < n ==>
        (y in next <==> (!AllIn(g[y], prev) && AllIn(g[y], taken)) ||
                        (y < x && !AllIn(g[y], taken) && AllIn(g[y], taken + {t})))
    {
      InDegreeZeroIff(g[x], taken);
      InDegreeZeroIff(g[x], taken + {t});
      if InDegree(g[x], taken) > 0 && InDegree(g[x], taken + {t}) == 0 {
        next := next + [x];
      }
      x := x + 1;
    }
    forall y | 0 <= y < n && !AllIn(g[y], taken) && AllIn(g[y], taken + {t})
      ensures !AllIn(g[y], prev)
    {
      if AllIn(g[y], prev) {
        AllInMono(g[y], prev, taken);
      }
    }
    forall y | 0 <= y < n && AllIn(g[y], taken) ensures AllIn(g[y], taken + {t}) {
      AllInMono(g[y], taken, taken + {t});
    }
  }

  /** The release half of a round: the popped tasks in queue order, each releasing its
      dependents. */
  method ReleaseRound(g: Graph, processed: seq<nat>, level: seq<nat>) returns (next: seq<nat>)
    requires ValidGraph(g)
    ensures Releases(g, processed, level, next)
  {
    var prev := Elems(processed);
    next := [];
    var p := 0;
    while p < |level|
      invariant 0 <= p <= |level|
      invariant Distinct(next) && Below(next, |g|)
      invariant forall y :: 0 <= y < |g| ==>
        (y in next <==> !AllIn(g[y], prev) && AllIn(g[y], prev + Elems(level[..p])))
    {
      assert prev + Elems(level[..p + 1]) == prev + Elems(level[..p]) + {level[p]} by {
        assert level[..p + 1] == level[..p] + [level[p]];
      }
      next := ReleaseOne(g, prev, prev + Elems(level[..p]), level[p], next);
      p := p + 1;
    }
    assert Elems(processed + level) == prev + Elems(level[..|level|]);
  }

  /** `_resolve_dependencies`' leveling. The first queue holds the tasks with in-degree 0 in
      position order; each round pops the whole queue, assigns it the current group, and then,
      for each popped task in order and each dependent in position order, releases the
      dependents whose in-degree drops to 0. Fewer than n tasks taken means a cycle. */
  method Level(g: Graph) returns (r: Result<Leveling, CycleError>)
    requires ValidGraph(g)
    ensures r.Success? ==> IsLeveling(g, r.value)
    ensures r.Failure? ==> r.error.total == |g| && r.error.processed < |g| && HasCycle(g)
  {
    var n := |g|;
    var level := FirstLevel(g);
    var processed: seq<nat> := [];
    var grp: seq<nat> := seq(n, _ => 0);
    var current: nat := 0;
    while |level| > 0
      invariant Between(g, processed, grp, level, current)
      invariant |processed| <= n
      decreases n - |processed|
    {
      processed, grp, level := Round(g, processed, grp, level, current);
      current := current + 1;
    }
    r := Conclude(g, processed, grp, current);
  }

  /** One round: take the whole queue, then release the next one. */
  method Round(g: Graph, processed: seq<nat>, grp: seq<nat>, level: seq<nat>, current: nat)
    returns (processed': seq<nat>, grp': seq<nat>, next: seq<nat>)
    requires Between(g, processed, grp, level, current) && |level| > 0
    ensures Between(g, processed', grp', next, current + 1)
    ensures |processed| < |processed'| <= |g|
  {
    processed', grp' := TakeRound(processed, grp, level, current);
    next := ReleaseRound(g, processed, level);
    Step(g, processed, grp, level, current, next);
    Pigeonhole(processed', |g|);
  }

  /** The end of the loop: every task taken is a leveling, anything less a cycle. */
  method Conclude(g: Graph, processed: seq<nat>, grp: seq<nat>, current: nat)
    returns (r: Result<Leveling, CycleError>)
    requires Between(g, processed, grp, [], current)
    ensures r.Success? ==> IsLeveling(g, r.value)
    ensures r.Failure? ==> r.error.total == |g| && r.error.processed < |g| && HasCycle(g)
  {
    if |processed| == |g| {
      AllTaken(g, processed, grp, current);
      r := Success(Leveling(processed, grp));
    } else {
      SomeLeft(g, processed);
      r := Failure(CycleError(|processed|, |g|));
    }
  }

  /** With the queue empty and every task taken, the order and groups form a leveling. */
  lemma AllTaken(g: Graph, processed: seq<nat>, grp: seq<nat>, current: nat)
    requires Between(g, processed, grp, [], current) && |processed| == |g|
    ensures IsLeveling(g, Leveling(processed, grp))
  {
    Pigeonhole(processed, |g|);
    forall x: nat | x < |g| ensures RuleAt(g, grp, x) {
      assert x in processed;
      var k :| 0 <= k < |processed| && processed[k] == x;
    }
  }

  /** The tasks never taken. */
  function Untaken(g: Graph, processed: seq<nat>): (s: set<nat>)
    ensures forall x: nat :: x in s <==> x < |g| && x !in processed
  {
    set x: nat | x < |g| && x !in processed
  }

  /** With the queue empty, every untaken task waits on an untaken task. */
  lemma UntakenClosed(g: Graph, processed: seq<nat>)
    requires ValidGraph(g) && ReadyQueue(g, processed, [])
    ensures Closed(g, Untaken(g, processed))
  {
    var s := Untaken(g, processed);
    forall x: nat | x in s ensures x < |g| && exists k :: 0 <= k < |g[x]| && g[x][k] in s {
      assert x !in [];
      var k :| 0 <= k < |g[x]| && g[x][k] !in Elems(processed);
      assert g[x][k] in s;
    }
  }

  /** With the queue empty and some task never taken, the untaken tasks form a closed set. */
  lemma SomeLeft(g: Graph, processed: seq<nat>)
    requires ValidGraph(g) && Distinct(processed) && Below(processed, |g|)
    requires ReadyQueue(g, processed, []) && |processed| != |g|
    ensures |processed| < |g| && HasCycle(g)
  {
    Pigeonhole(processed, |g|);
    var missing: nat :| missing < |g| && missing !in processed;
    var s := Untaken(g, processed);
    assert missing in s;
    UntakenClosed(g, processed);
  }

  // ---------------------------------------------------------------------------
  // Consequences
  // ---------------------------------------------------------------------------

  /** A graph with a leveling has no cycle: in a closed set, the member of least group would
      depend on a member of smaller group. */
  lemma LevelingMeansAcyclic(g: Graph, lv: Leveling)
    requires IsLeveling(g, lv)
    ensures !HasCycle(g)
  {
    forall s | s != {} ensures !Closed(g, s) {
      NotClosed(g, lv, s);
    }
  }

  lemma NotClosed(g: Graph, lv: Leveling, s: set<nat>)
    requires IsLeveling(g, lv) && s != {}
    ensures !Closed(g, s)
  {
    if forall x :: x in s ==> x < |g| {
      var m := Least(lv.group, s, |g|);
      assert RuleAt(g, lv.group, m);
      assert forall k :: 0 <= k < |g[m]| ==> lv.group[g[m][k]] < lv.group[m];
    }
  }

  /** A member of s with the least group. */
  lemma Least(grp: seq<nat>, s: set<nat>, n: nat) returns (m: nat)
    requires s != {} && |grp| == n && forall x :: x in s ==> x < n
    ensures m in s && forall x :: x in s ==> grp[m] <= grp[x]
    decreases |s|
  {
    var x :| x in s;
    if s == {x} {
      m := x;
    } else {
      var rest := Least(grp, s - {x}, n);
      m := if grp[x] <= grp[rest] then x else rest;
    }
  }

  /** The leveling fails exactly on graphs with a dependency cycle. */
  lemma LevelFailsIffCycle(g: Graph, r: Result<Leveling, CycleError>)
    requires ValidGraph(g)
    requires r.Success? ==> IsLeveling(g, r.value)
    requires r.Failure? ==> HasCycle(g)
    ensures r.Failure? <==> HasCycle(g)
  {
    if r.Success? {
      LevelingMeansAcyclic(g, r.value);
    }
  }

  /** In the output order every dependency comes before its dependents. */
  lemma DependenciesFirst(g: Graph, lv: Leveling, k: nat, j: nat)
    requires IsLeveling(g, lv) && k < |g| && j < |g[lv.order[k]]|
    ensures exists k' :: 0 <= k' < k && lv.order[k'] == g[lv.order[k]][j]
  {
    var d := g[lv.order[k]][j];
    assert RuleAt(g, lv.group, lv.order[k]);
    PermutationCovers(lv.order, |g|);
    assert d < |g|;
    assert d in lv.order;
    var k' :| 0 <= k' < |g| && lv.order[k'] == d;
  }
}

/** Dependency graphs: the tasks that can ever run are those that do not transitively depend
    on a cycle. */
module Graph {
  import opened States
  import opened KernelModel

  /** Every chain of dependencies below `t` is shorter than `n` steps. */
  ghost predicate GroundedWithin(c: Cognition, t: TaskId, n: nat)
    decreases n
  {
    t in c.tasks && forall d :: d in c.tasks[t].deps ==> n > 0 && GroundedWithin(c, d, n - 1)
  }

  ghost predicate Grounded(c: Cognition, t: TaskId) {
    exists n: nat :: GroundedWithin(c, t, n)
  }

  /** A chain of dependencies: each task depends on the next. */
  ghost predicate IsChain(c: Cognition, chain: seq<TaskId>) {
    && (forall i :: 0 <= i < |chain| ==> chain[i] in c.tasks)
    && (forall i :: 0 <= i < |chain| - 1 ==> chain[i + 1] in c.tasks[chain[i]].deps)
  }

  ghost predicate Repeats(chain: seq<TaskId>) {
    exists i, j :: 0 <= i < j < |chain| && chain[i] == chain[j]
  }

  /** Following dependencies from `t` one can come back to a task already passed. */
  ghost predicate DependsOnCycle(c: Cognition, t: TaskId) {
    exists chain :: chain != [] && chain[0] == t && IsChain(c, chain) && Repeats(chain)
  }

  ghost predicate DepsKnown(c: Cognition) {
    forall t, d :: t in c.tasks && d in c.tasks[t].deps ==> d in c.tasks
  }

  // ------------------------------------------------------------------
  // Grounded tasks
  // ------------------------------------------------------------------

  lemma {:induction false} MoreRoom(c: Cognition, t: TaskId, n: nat, m: nat)
    requires GroundedWithin(c, t, n) && n <= m
    ensures GroundedWithin(c, t, m)
    decreases n
  {
    forall d | d in c.tasks[t].deps ensures m > 0 && GroundedWithin(c, d, m - 1) {
      MoreRoom(c, d, n - 1, m - 1);
    }
  }

  lemma {:induction false} OneBound(c: Cognition, deps: seq<TaskId>) returns (n: nat)
    requires forall d :: d in deps ==> Grounded(c, d)
    ensures forall d :: d in deps ==> GroundedWithin(c, d, n)
  {
    if deps == [] {
      n := 0;
    } else {
      var m := OneBound(c, deps[1..]);
      assert Grounded(c, deps[0]);
      var k: nat :| GroundedWithin(c, deps[0], k);
      n := if m < k then k else m;
      forall d | d in deps ensures GroundedWithin(c, d, n) {
        if d in deps[1..] {
          MoreRoom(c, d, m, n);
        } else {
          MoreRoom(c, d, k, n);
        }
      }
    }
  }

  /** A task is grounded exactly when all its dependencies are. */
  lemma GroundedByDeps(c: Cognition, t: TaskId)
    requires t in c.tasks
    ensures Grounded(c, t) <==> forall d :: d in c.tasks[t].deps ==> Grounded(c, d)
  {
    if Grounded(c, t) {
      var n: nat :| GroundedWithin(c, t, n);
      forall d | d in c.tasks[t].deps ensures Grounded(c, d) {
        assert GroundedWithin(c, d, n - 1);
      }
    } else if forall d :: d in c.tasks[t].deps ==> Grounded(c, d) {
      var n := OneBound(c, c.tasks[t].deps);
      assert GroundedWithin(c, t, n + 1);
    }
  }

  /** The plans' dependency graph is fixed: groundedness does not change along a run. */
  lemma {:induction false} SameGraph(c: Cognition, c': Cognition, t: TaskId, n: nat)
    requires GroundedWithin(c, t, n)
    requires forall u :: u in c.tasks ==> u in c'.tasks && c'.tasks[u].deps == c.tasks[u].deps
    ensures GroundedWithin(c', t, n)
    decreases n
  {
    forall d | d in c'.tasks[t].deps ensures n > 0 && GroundedWithin(c', d, n - 1) {
      SameGraph(c, c', d, n - 1);
    }
  }

  lemma GroundedStays(c: Cognition, c': Cognition, t: TaskId)
    requires Grounded(c, t)
    requires forall u :: u in c.tasks ==> u in c'.tasks && c'.tasks[u].deps == c.tasks[u].deps
    ensures Grounded(c', t)
  {
    var n: nat :| GroundedWithin(c, t, n);
    SameGraph(c, c', t, n);
  }

  // ------------------------------------------------------------------
  // Grounded means: no cycle below
  // ------------------------------------------------------------------

  /** Along a chain the room shrinks by one each step, so a chain from a task grounded within
      `n` has at most `n + 1` tasks. */
  lemma {:induction false} ShortChains(c: Cognition, chain: seq<TaskId>, n: nat)
    requires chain != [] && IsChain(c, chain) && GroundedWithin(c, chain[0], n)
    ensures |chain| <= n + 1
    decreases n
  {
    if |chain| > 1 {
      assert chain[1] in c.tasks[chain[0]].deps;
      ChainTail(c, chain);
      ShortChains(c, chain[1..], n - 1);
    }
  }

  lemma ChainTail(c: Cognition, chain: seq<TaskId>)
    requires IsChain(c, chain) && |chain| > 1
    ensures IsChain(c, chain[1..])
  {
    var r := chain[1..];
    forall i | 0 <= i < |r| - 1 ensures r[i + 1] in c.tasks[r[i]].deps {
      assert r[i] == chain[i + 1] && r[i + 1] == chain[i + 2];
    }
  }

  /** Going round once more: a chain that ends where its suffix began can be continued. */
  lemma GoRound(c: Cognition, chain: seq<TaskId>, i: nat, j: nat) returns (longer: seq<TaskId>)
    requires chain != [] && IsChain(c, chain) && i < j < |chain| && chain[i] == chain[j]
    ensures longer != [] && longer[0] == chain[0] && IsChain(c, longer) && |longer| == |chain| + (j - i)
    ensures i + (j - i) < |longer| && longer[i] == longer[j]
  {
    longer := chain[..j] + chain[i..];
    forall k | 0 <= k < |longer| ensures longer[k] in c.tasks {
      if k >= j {
        assert longer[k] == chain[i + (k - j)];
      }
    }
    forall k | 0 <= k < |longer| - 1 ensures longer[k + 1] in c.tasks[longer[k]].deps {
      if k + 1 < j {
        assert longer[k] == chain[k] && longer[k + 1] == chain[k + 1];
      } else if k + 1 == j {
        assert longer[k] == chain[k] && longer[k + 1] == chain[i] == chain[k + 1];
      } else {
        assert longer[k] == chain[i + (k - j)] && longer[k + 1] == chain[i + (k - j) + 1];
      }
    }
  }

  lemma {:induction false} LongChain(c: Cognition, chain: seq<TaskId>, i: nat, j: nat,
      n: nat) returns (longer: seq<TaskId>)
    requires chain != [] && IsChain(c, chain) && i < j < |chain| && chain[i] == chain[j]
    ensures longer != [] && longer[0] == chain[0] && IsChain(c, longer) && |longer| > n
    decreases n - |chain|
  {
    if |chain| > n {
      longer := chain;
    } else {
      var once := GoRound(c, chain, i, j);
      longer := LongChain(c, once, i, j, n);
    }
  }

  lemma GroundedHasNoCycle(c: Cognition, t: TaskId)
    requires Grounded(c, t)
    ensures !DependsOnCycle(c, t)
  {
    if DependsOnCycle(c, t) {
      var n: nat :| GroundedWithin(c, t, n);
      var chain :| chain != [] && chain[0] == t && IsChain(c, chain) && Repeats(chain);
      var i, j :| 0 <= i < j < |chain| && chain[i] == chain[j];
      var longer := LongChain(c, chain, i, j, n + 1);
      ShortChains(c, longer, n);
    }
  }

  // ------------------------------------------------------------------
  // Not grounded means: a cycle below
  // ------------------------------------------------------------------

  /** From a task that is not grounded one can follow dependencies for ever. */
  lemma {:induction false} EndlessChain(c: Cognition, t: TaskId, n: nat) returns (chain: seq<TaskId>)
    requires DepsKnown(c) && t in c.tasks && !Grounded(c, t)
    ensures |chain| == n + 1 && chain[0] == t && IsChain(c, chain)
    decreases n
  {
    if n == 0 {
      chain := [t];
    } else {
      GroundedByDeps(c, t);
      var d :| d in c.tasks[t].deps && !Grounded(c, d);
      var rest := EndlessChain(c, d, n - 1);
      chain := [t] + rest;
      forall i | 0 <= i < |chain| - 1 ensures chain[i + 1] in c.tasks[chain[i]].deps {
        if i > 0 {
          assert chain[i] == rest[i - 1] && chain[i + 1] == rest[i];
        }
      }
    }
  }

  /** The pigeonhole principle. */
  lemma {:induction false} Pigeonhole(chain: seq<TaskId>, holes: set<TaskId>)
    requires |chain| > |holes| && forall i :: 0 <= i < |chain| ==> chain[i] in holes
    ensures Repeats(chain)
    decreases |holes|
  {
    var last := chain[|chain| - 1];
    var front := chain[..|chain| - 1];
    if last in front {
      var i :| 0 <= i < |front| && front[i] == last;
      assert chain[i] == chain[|chain| - 1];
    } else {
      Pigeonhole(front, holes - {last});
      var i, j :| 0 <= i < j < |front| && front[i] == front[j];
      assert chain[i] == chain[j];
    }
  }

  /** The tasks that can run are exactly those that do not transitively depend on a cycle. */
  lemma GroundedIffNoCycle(c: Cognition, t: TaskId)
    requires DepsKnown(c) && t in c.tasks
    ensures Grounded(c, t) <==> !DependsOnCycle(c, t)
  {
    if Grounded(c, t) {
      GroundedHasNoCycle(c, t);
    } else {
      var chain := EndlessChain(c, t, |c.tasks.Keys|);
      Pigeonhole(chain, c.tasks.Keys);
    }
  }

  // ------------------------------------------------------------------
  // Progress
  // ------------------------------------------------------------------

  /** If some grounded task is not complete, one such task has all its dependencies complete. */
  lemma {:induction false} SomeTaskCanRun(c: Cognition, t: TaskId, n: nat) returns (u: TaskId)
    requires GroundedWithin(c, t, n) && c.tasks[t].state != TaskCompleted
    requires forall x, d :: x in c.tasks && d in c.tasks[x].deps ==> d in c.tasks && c.tasks[d].plan == c.tasks[x].plan
    ensures u in c.tasks && c.tasks[u].plan == c.tasks[t].plan
    ensures Grounded(c, u) && c.tasks[u].state != TaskCompleted && DepsMet(c, c.tasks[u].deps)
    decreases n
  {
    assert Grounded(c, t);
    if DepsMet(c, c.tasks[t].deps) {
      u := t;
    } else {
      var d :| d in c.tasks[t].deps && !(d in c.tasks && c.tasks[d].state == TaskCompleted);
      u := SomeTaskCanRun(c, d, n - 1);
    }
  }
}

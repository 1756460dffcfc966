/**
 * Reachability over string node ids, given a successor function. Every walk
 * of the plugin is specified by the set of nodes reachable from its start.
 */
module Graph {

  type Succ = string -> set<string>

  ghost predicate IsPath(succ: Succ, p: seq<string>) {
    |p| > 0 && forall i :: 0 <= i < |p| - 1 ==> p[i + 1] in succ(p[i])
  }

  ghost predicate Reaches(succ: Succ, s: string, x: string) {
    exists p :: IsPath(succ, p) && p[0] == s && p[|p| - 1] == x
  }

  /** A set that no edge leaves. */
  ghost predicate Closed(succ: Succ, S: set<string>) {
    forall n, m :: n in S && m in succ(n) ==> m in S
  }

  lemma ReachesRefl(succ: Succ, s: string)
    ensures Reaches(succ, s, s)
  {
    assert IsPath(succ, [s]);
  }

  lemma ReachesStep(succ: Succ, s: string, a: string, b: string)
    requires Reaches(succ, s, a) && b in succ(a)
    ensures Reaches(succ, s, b)
  {
    var p :| IsPath(succ, p) && p[0] == s && p[|p| - 1] == a;
    var q := p + [b];
    assert forall i :: 0 <= i < |q| - 1 ==> q[i + 1] in succ(q[i]) by {
      forall i | 0 <= i < |q| - 1 ensures q[i + 1] in succ(q[i]) {
        if i < |p| - 1 { assert q[i] == p[i] && q[i + 1] == p[i + 1]; }
      }
    }
    assert IsPath(succ, q) && q[0] == s && q[|q| - 1] == b;
  }

  lemma {:induction false} PathStaysIn(succ: Succ, p: seq<string>, S: set<string>)
    requires IsPath(succ, p) && p[0] in S && Closed(succ, S)
    ensures p[|p| - 1] in S
    decreases |p|
  {
    if |p| > 1 {
      var q := p[..|p| - 1];
      assert IsPath(succ, q) by {
        forall i | 0 <= i < |q| - 1 ensures q[i + 1] in succ(q[i]) {
          assert q[i] == p[i] && q[i + 1] == p[i + 1];
        }
      }
      PathStaysIn(succ, q, S);
      assert p[|p| - 1] in succ(p[|p| - 2]);
    }
  }

  /** A closed set that holds the start holds every node reachable from it. */
  lemma ClosedHoldsReach(succ: Succ, s: string, S: set<string>)
    requires s in S && Closed(succ, S)
    ensures forall x :: Reaches(succ, s, x) ==> x in S
  {
    forall x | Reaches(succ, s, x) ensures x in S {
      var p :| IsPath(succ, p) && p[0] == s && p[|p| - 1] == x;
      PathStaysIn(succ, p, S);
    }
  }

  /** The reachable set, cut to a closed universe U that holds the start. */
  ghost function ReachSet(succ: Succ, s: string, U: set<string>): (r: set<string>)
    requires s in U && Closed(succ, U)
    ensures s in r
    ensures forall x :: x in r <==> Reaches(succ, s, x)
  {
    ReachesRefl(succ, s);
    ClosedHoldsReach(succ, s, U);
    set x | x in U && Reaches(succ, s, x)
  }

  /**
   * The invariant of a stack walk from s inside U: every seen or stacked node
   * is reachable, and every successor of a seen node is seen or stacked.
   */
  ghost predicate Frontier(succ: Succ, s: string, U: set<string>, seen: set<string>, stack: seq<string>) {
    seen <= U && (forall m :: m in stack ==> m in U) &&
    (forall n :: n in seen ==> Reaches(succ, s, n)) &&
    (forall m :: m in stack ==> Reaches(succ, s, m)) &&
    (s in seen || s in stack) &&
    (forall n, m :: n in seen && m in succ(n) ==> m in seen || m in stack)
  }

  lemma FrontierStart(succ: Succ, s: string, U: set<string>)
    requires s in U
    ensures Frontier(succ, s, U, {}, [s])
  {
    ReachesRefl(succ, s);
  }

  /** Popping a node already seen keeps the invariant. */
  lemma FrontierSkip(succ: Succ, s: string, U: set<string>, seen: set<string>, stack: seq<string>)
    requires Frontier(succ, s, U, seen, stack) && stack != [] && stack[|stack| - 1] in seen
    ensures Frontier(succ, s, U, seen, stack[..|stack| - 1])
  {
    assert forall m :: m in stack <==> m in stack[..|stack| - 1] || m == stack[|stack| - 1];
  }

  /** Popping a new node, marking it seen and pushing its unseen successors keeps the invariant. */
  lemma FrontierExpand(succ: Succ, s: string, U: set<string>, seen: set<string>, stack: seq<string>, next: seq<string>)
    requires Frontier(succ, s, U, seen, stack) && stack != [] && Closed(succ, U)
    requires forall m :: m in next <==> (m in stack[..|stack| - 1] || (m in succ(stack[|stack| - 1]) && m !in seen + {stack[|stack| - 1]}))
    ensures stack[|stack| - 1] in U
    ensures Frontier(succ, s, U, seen + {stack[|stack| - 1]}, next)
  {
    var cur := stack[|stack| - 1];
    assert forall m :: m in stack <==> m in stack[..|stack| - 1] || m == cur;
    forall m | m in next ensures m in U && Reaches(succ, s, m) {
      if m !in stack[..|stack| - 1] {
        ReachesStep(succ, s, cur, m);
      }
    }
  }

  /** A walk whose stack is empty has seen exactly the reachable nodes. */
  lemma FrontierDone(succ: Succ, s: string, U: set<string>, seen: set<string>)
    requires Frontier(succ, s, U, seen, [])
    ensures forall x :: x in seen <==> Reaches(succ, s, x)
  {
    assert Closed(succ, seen);
    ClosedHoldsReach(succ, s, seen);
  }
}

/** The unit dependency graph of a retirement: collected from the service manager, then checked for
    complete coverage and for observers that would reach a Kernel unit. */
module Dependencies {

  datatype LoadState = Loaded | NotFound | Other

  /** Forward: Requires, Wants, BindsTo, PartOf and Triggers, one list after the other.  Inverse: the rest. */
  datatype Row = Row(forward: seq<string>, inverse: seq<string>)

  /** A well-formed reply of the manager; a malformed or failed one is no entry at all. */
  datatype Reply = Reply(state: LoadState, row: Row)

  type Manager = map<string, Reply>

  type Graph = map<string, Row>

  datatype Collected = Complete(graph: Graph) | Denied

  /** A missing unit is accepted only for the Kernel itself, with no way out of it. */
  predicate ReplyAdmitted(name: string, reply: Reply, kernel: set<string>) {
    || reply.state.Loaded?
    || (reply.state.NotFound? && name in kernel && reply.row.forward == []
        && forall i :: 0 <= i < |reply.row.inverse| ==> reply.row.inverse[i] in kernel)
  }

  predicate Readable(m: Manager, kernel: set<string>, name: string) {
    name in m && ReplyAdmitted(name, m[name], kernel)
  }

  /** The rows of the readable units. */
  function RowsOf(m: Manager, kernel: set<string>): Graph {
    map n | n in m && ReplyAdmitted(n, m[n], kernel) :: m[n].row
  }

  // ----- reachability by paths

  predicate Edge(g: Graph, a: string, b: string) { a in g && b in g[a].forward }

  predicate Path(g: Graph, p: seq<string>) {
    |p| > 0 && forall i :: 0 <= i < |p| - 1 ==> Edge(g, p[i], p[i + 1])
  }

  ghost predicate Reaches(g: Graph, roots: set<string>, n: string) {
    exists p :: Path(g, p) && p[0] in roots && p[|p| - 1] == n
  }

  lemma RootIsReached(g: Graph, roots: set<string>, n: string)
    requires n in roots
    ensures Reaches(g, roots, n)
  {
    assert Path(g, [n]);
  }

  lemma EdgeExtends(g: Graph, roots: set<string>, a: string, b: string)
    requires Reaches(g, roots, a) && Edge(g, a, b)
    ensures Reaches(g, roots, b)
  {
    var p :| Path(g, p) && p[0] in roots && p[|p| - 1] == a;
    var q := p + [b];
    forall i | 0 <= i < |q| - 1 ensures Edge(g, q[i], q[i + 1]) {
      if i < |p| - 1 { assert Edge(g, p[i], p[i + 1]); }
    }
    assert q[0] == p[0] && q[|q| - 1] == b;
  }

  /** A set that holds the roots and is closed under edges holds all that is reached. */
  lemma {:induction false} ClosedHoldsPath(g: Graph, closed: set<string>, p: seq<string>)
    requires Path(g, p) && p[0] in closed
    requires forall a, b :: a in closed && Edge(g, a, b) ==> b in closed
    ensures p[|p| - 1] in closed
  {
    if |p| > 1 {
      assert Edge(g, p[0], p[1]);
      forall i | 0 <= i < |p[1..]| - 1 ensures Edge(g, p[1..][i], p[1..][i + 1]) {
        assert Edge(g, p[i + 1], p[i + 2]);
      }
      ClosedHoldsPath(g, closed, p[1..]);
    }
  }

  lemma ClosedHoldsReached(g: Graph, closed: set<string>, roots: set<string>)
    requires roots <= closed
    requires forall a, b :: a in closed && Edge(g, a, b) ==> b in closed
    ensures forall n :: Reaches(g, roots, n) ==> n in closed
  {
    forall n | Reaches(g, roots, n) ensures n in closed {
      var p :| Path(g, p) && p[0] in roots && p[|p| - 1] == n;
      ClosedHoldsPath(g, closed, p);
    }
  }

  // ----- the collector

  /** Names seen so far and names still to ask are reached; every edge out of a seen name is covered. */
  ghost predicate Frontier(g: Graph, roots: set<string>, seen: set<string>, pending: set<string>) {
    && (forall n :: n in seen || n in pending ==> Reaches(g, roots, n))
    && roots <= seen + pending
    && seen <= g.Keys
    && (forall a, b :: a in seen && Edge(g, a, b) ==> b in seen || b in pending)
  }

  /** The names to ask after visiting `n`. */
  function Next(g: Graph, seen: set<string>, pending: set<string>, n: string): set<string>
    requires n in g
  {
    (pending - {n}) + set b | b in g[n].forward && b !in seen + {n}
  }

  lemma RootsAreAFrontier(g: Graph, roots: set<string>)
    ensures Frontier(g, roots, {}, roots)
  {
    forall n | n in roots ensures Reaches(g, roots, n) { RootIsReached(g, roots, n); }
  }

  /** Visiting a readable name keeps the frontier; so does passing over one that was seen. */
  lemma VisitKeepsFrontier(g: Graph, roots: set<string>, seen: set<string>, pending: set<string>, n: string)
    requires Frontier(g, roots, seen, pending) && n in pending
    ensures Reaches(g, roots, n)
    ensures n in g ==> Frontier(g, roots, seen + {n}, Next(g, seen, pending, n))
    ensures n in seen ==> Frontier(g, roots, seen, pending - {n})
  {
    if n in g {
      forall b | b in Next(g, seen, pending, n) ensures Reaches(g, roots, b) {
        if b !in pending { EdgeExtends(g, roots, n, b); }
      }
    }
  }

  /** A stack may also keep names that were seen. */
  lemma StackKeepsFrontier(g: Graph, roots: set<string>, seen: set<string>, pending: set<string>, n: string,
      next: set<string>)
    requires Frontier(g, roots, seen, pending) && n in pending && n in g
    requires pending + {n} <= next + {n} && (forall b :: b in g[n].forward ==> b in next)
    requires forall b :: b in next ==> b in pending || b in g[n].forward
    ensures Frontier(g, roots, seen + {n}, next)
  {
    forall b | b in next ensures Reaches(g, roots, b) {
      if b !in pending { EdgeExtends(g, roots, n, b); }
    }
  }

  lemma EmptyFrontierIsReach(g: Graph, roots: set<string>, seen: set<string>)
    requires Frontier(g, roots, seen, {})
    ensures forall n :: n in seen <==> Reaches(g, roots, n)
  {
    ClosedHoldsReached(g, seen, roots);
  }

  /** read_retirement_dependencies: it terminates on a finite manager whatever the cycles, denies exactly
      when something reached is unreadable, and else returns exactly the reached rows. */
  method Collect(m: Manager, kernel: set<string>, observers: set<string>) returns (r: Collected)
    ensures r.Denied? <==> exists n :: Reaches(RowsOf(m, kernel), kernel + observers, n) && !Readable(m, kernel, n)
    ensures r.Complete? ==> forall n :: n in r.graph ==>
              && n in m && r.graph[n] == m[n].row
              && (|| m[n].state == Loaded
                  || (&& m[n].state == NotFound && n in kernel && m[n].row.forward == []
                      && forall u :: u in m[n].row.inverse ==> u in kernel))
    ensures r.Complete? ==> forall n :: n in r.graph <==> Reaches(RowsOf(m, kernel), kernel + observers, n)
    ensures r.Complete? ==> forall n :: n in r.graph ==> n in RowsOf(m, kernel) && r.graph[n] == RowsOf(m, kernel)[n]
  {
    hide Frontier, Reaches, Edge;
    ghost var g, roots := RowsOf(m, kernel), kernel + observers;
    var pending := kernel + observers;
    var result: Graph := map[];
    RootsAreAFrontier(g, roots);
    assert result.Keys == {};
    while pending != {}
      invariant Frontier(g, roots, result.Keys, pending) && result.Keys <= g.Keys
      invariant forall n :: n in result ==> result[n] == g[n]
      decreases g.Keys - result.Keys, pending
    {
      var name :| name in pending;
      VisitKeepsFrontier(g, roots, result.Keys, pending, name);
      if name in result {
        pending := pending - {name};
        continue;
      }
      if name !in m || !ReplyAdmitted(name, m[name], kernel) {
        assert !Readable(m, kernel, name);
        return Denied;
      }
      ghost var seen, open := result.Keys, pending;
      result := result[name := m[name].row];
      pending := (pending - {name}) + set child | child in m[name].row.forward && child !in result;
      assert result.Keys == seen + {name} && pending == Next(g, seen, open, name);
    }
    EmptyFrontierIsReach(g, roots, result.Keys);
    r := Complete(result);
  }

  // ----- the check

  /** The closure worklist of the binding: a stack that may hold a name several times. */
  method Closure(g: Graph, roots: seq<string>) returns (complete: bool, seen: set<string>)
    ensures var from := Elements(roots);
            && (complete <==> forall n :: Reaches(g, from, n) ==> n in g)
            && (complete ==> forall n :: n in seen <==> Reaches(g, from, n))
  {
    hide Frontier, Reaches, Edge;
    ghost var from := Elements(roots);
    seen := {};
    var pending := roots;
    RootsAreAFrontier(g, from);
    while pending != []
      invariant Frontier(g, from, seen, Elements(pending)) && seen <= g.Keys
      decreases g.Keys - seen, |pending|
    {
      var name := pending[|pending| - 1];
      ghost var open := Elements(pending);
      VisitKeepsFrontier(g, from, seen, open, name);
      pending := pending[..|pending| - 1];
      assert open == Elements(pending) + {name};
      if name in seen {
        SeenMayStay(g, from, seen, open, name, Elements(pending));
        continue;
      }
      if name !in g { return false, seen; }
      StackKeepsFrontier(g, from, seen, open, name, Elements(pending + g[name].forward));
      seen := seen + {name};
      pending := pending + g[name].forward;
    }
    assert Elements(pending) == {};
    EmptyFrontierIsReach(g, from, seen);
    complete := true;
  }

  ghost function Elements(s: seq<string>): set<string> { set n | n in s }

  lemma SeenMayStay(g: Graph, roots: set<string>, seen: set<string>, pending: set<string>, n: string, rest: set<string>)
    requires Frontier(g, roots, seen, pending) && n in seen && pending == rest + {n}
    ensures Frontier(g, roots, seen, rest)
  {
  }

  /** The coverage and observer checks of retirement_preservation_binding. */
  method Check(g: Graph, kernel: seq<string>, observers: seq<string>) returns (accepted: bool)
    ensures var k, o := Elements(kernel), Elements(observers);
            accepted <==> && (forall n :: n in g <==> Reaches(g, k + o, n))
                          && (forall n :: n in k ==> !Reaches(g, o, n))
  {
    ghost var k, o := Elements(kernel), Elements(observers);
    assert Elements(kernel + observers) == k + o;
    var complete, all := Closure(g, kernel + observers);
    if !complete || all != g.Keys { return false; }
    var observing, seen := Closure(g, observers);
    MoreRootsReachMore(g, o, k + o);
    assert observing;
    accepted := forall i :: 0 <= i < |kernel| ==> kernel[i] !in seen;
    assert forall n :: n in k ==> exists i :: 0 <= i < |kernel| && kernel[i] == n;
  }

  lemma MoreRootsReachMore(g: Graph, fewer: set<string>, more: set<string>)
    requires fewer <= more
    ensures forall n :: Reaches(g, fewer, n) ==> Reaches(g, more, n)
  {
  }

  // ----- both together

  /** A graph that holds exactly the reached rows of another reaches the same from any of its names. */
  lemma ReachedPartReachesTheSame(g: Graph, part: Graph, roots: set<string>, from: set<string>)
    requires from <= roots
    requires forall n :: n in part <==> Reaches(g, roots, n)
    requires forall n :: n in part ==> n in g && part[n] == g[n]
    ensures forall n :: Reaches(part, from, n) <==> Reaches(g, from, n)
  {
    forall n | Reaches(part, from, n) ensures Reaches(g, from, n) {
      var p :| Path(part, p) && p[0] in from && p[|p| - 1] == n;
      forall i | 0 <= i < |p| - 1 ensures Edge(g, p[i], p[i + 1]) { assert Edge(part, p[i], p[i + 1]); }
      assert Path(g, p);
    }
    forall n | Reaches(g, from, n) ensures Reaches(part, from, n) {
      var p :| Path(g, p) && p[0] in from && p[|p| - 1] == n;
      PathStaysReached(g, part, roots, p);
    }
  }

  lemma {:induction false} PathStaysReached(g: Graph, part: Graph, roots: set<string>, p: seq<string>)
    requires Path(g, p) && p[0] in roots
    requires forall n :: n in part <==> Reaches(g, roots, n)
    requires forall n :: n in part ==> n in g && part[n] == g[n]
    ensures Path(part, p)
  {
    forall i | 0 <= i < |p| - 1 ensures Edge(part, p[i], p[i + 1]) {
      assert Edge(g, p[i], p[i + 1]);
      assert Path(g, p[..i + 1]);
      assert Reaches(g, roots, p[i]);
    }
  }

  lemma ReadableIff(m: Manager, kernel: set<string>)
    ensures forall n :: Readable(m, kernel, n) <==>
              && n in m
              && (|| m[n].state == Loaded
                  || (&& m[n].state == NotFound && n in kernel && m[n].row.forward == []
                      && forall u :: u in m[n].row.inverse ==> u in kernel))
  {
  }

  /** What was collected is always covered completely, so it is accepted exactly when no observer reaches a
      Kernel unit over the manager's own forward edges. */
  method CollectAndCheck(m: Manager, kernel: seq<string>, observers: seq<string>) returns (accepted: bool)
    ensures var k, o, g := Elements(kernel), Elements(observers), RowsOf(m, Elements(kernel));
            accepted <==> && (forall n :: Reaches(g, k + o, n) ==> Readable(m, k, n))
                          && (forall n :: n in k ==> !Reaches(g, o, n))
    ensures forall n :: Readable(m, Elements(kernel), n) <==>
              && n in m
              && (|| m[n].state == Loaded
                  || (&& m[n].state == NotFound && n in kernel && m[n].row.forward == []
                      && forall u :: u in m[n].row.inverse ==> u in kernel))
  {
    ReadableIff(m, Elements(kernel));
    var k, o := (set n | n in kernel), (set n | n in observers);
    assert k == Elements(kernel) && o == Elements(observers);
    var r := Collect(m, k, o);
    if r.Denied? { return false; }
    ReachedPartReachesTheSame(RowsOf(m, k), r.graph, k + o, k + o);
    ReachedPartReachesTheSame(RowsOf(m, k), r.graph, k + o, o);
    accepted := Check(r.graph, kernel, observers);
  }
}

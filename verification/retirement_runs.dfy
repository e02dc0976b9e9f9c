/** Retirement across interrupted and fresh runs: what is removed, how often, and what is never touched. */
module RetirementRuns {

  import opened RetirementTargets
  import opened Retirement

  lemma {:induction false} RemovedConcat(a: seq<Event>, b: seq<Event>)
    ensures RemovedIn(a + b) == RemovedIn(a) + RemovedIn(b)
  {
    if b == [] {
      assert a + b == a;
    } else {
      var m := |b| - 1;
      assert a + b == (a + b[..m]) + [b[m]];
      AppendOne(a + b[..m], b[m]);
      RemovedConcat(a, b[..m]);
    }
  }

  lemma {:induction false} RemovedByLinks(links: seq<Enablement>)
    ensures RemovedIn(LinkEvents(links)) == LinkPaths(links)
  {
    if links != [] {
      var m := |links| - 1;
      RemovedByLinks(links[..m]);
      RemovedConcat(LinkEvents(links[..m]), LinkBlock(links[m]));
      RemovedByBlock(LinkBlock(links[m]));
    }
  }

  lemma {:induction false} RemovedByRows(rows: seq<string>, images: map<string, nat>)
    ensures RemovedIn(RowEvents(rows, images)) == PresentRows(rows, images)
  {
    if rows != [] {
      var m := |rows| - 1;
      RemovedByRows(rows[..m], images);
      RemovedConcat(RowEvents(rows[..m], images), RowBlock(rows[m], images));
      RemovedByBlock(RowBlock(rows[m], images));
    }
  }

  lemma NothingRemoved()
    ensures RemovedIn([]) == []
  {
  }

  lemma {:induction false} RemovedByBlock(b: seq<Event>)
    requires Block(b)
    ensures RemovedIn(b) == if |b| == 3 then [b[1].path] else []
  {
    hide RemovedIn;
    NothingRemoved();
    assert b[..0] == [];
    AppendOne([], b[0]);
    assert b[..1] == [] + [b[0]];
    if |b| >= 2 {
      AppendOne(b[..1], b[1]);
      assert b[..2] == b[..1] + [b[1]];
    }
    if |b| == 3 {
      AppendOne(b[..2], b[2]);
      assert b[..3] == b[..2] + [b[2]];
    }
    assert b[..|b|] == b;
  }

  lemma OpeningRemovesNothing(inputs: bool)
    ensures RemovedIn(Opening(inputs)) == []
  {
    var o := Opening(inputs);
    RemovedByBlock(o[..2]);
    if inputs { RemovedByBlock(o[2..]); }
    RemovedConcat(o[..2], o[2..]);
    assert o[..2] + o[2..] == o;
  }

  lemma ScheduleRemoves(p: Packet, inputs: bool)
    ensures RemovedIn(Schedule(p, inputs)) == LinkPaths(p.links) + PresentRows(p.rows, p.images)
  {
    hide Opening, LinkEvents, RowEvents, RemovedIn;
    var opening, links, rows, last := Opening(inputs), LinkEvents(p.links), RowEvents(p.rows, p.images),
        [Recorded(Retired, "")];
    RemovedConcat(opening + links + rows, last);
    RemovedConcat(opening + links, rows);
    RemovedConcat(opening, links);
    OpeningRemovesNothing(inputs);
    RemovedByLinks(p.links);
    RemovedByRows(p.rows, p.images);
    RemovedByBlock(last);
  }

  /** A complete run removes the captured links in order, then the payload rows that were present in order;
      an interrupted one removes a prefix of these. */
  lemma RunRemoves(p: Packet, inputs: bool, run: seq<Event>)
    requires run <= Schedule(p, inputs)
    ensures RemovedIn(run) <= LinkPaths(p.links) + PresentRows(p.rows, p.images)
    ensures run == Schedule(p, inputs) ==> RemovedIn(run) == LinkPaths(p.links) + PresentRows(p.rows, p.images)
  {
    hide Schedule;
    var rest := Schedule(p, inputs)[|run|..];
    ScheduleRemoves(p, inputs);
    assert Schedule(p, inputs) == run + rest;
    RemovedConcat(run, rest);
  }

  /** Each captured link belongs to one unit of the Kernel, and no path comes twice. */
  predicate LinksAdmitted(links: seq<Enablement>, tables: Tables) {
    && (forall l :: l in links ==> l.unit in tables.units && LinkAdmitted(l.path, l.unit))
    && forall i, j :: 0 <= i < j < |links| ==> links[i].path != links[j].path
  }

  /** What a retirement asks of the payload rows. */
  predicate RowsAdmitted(rows: seq<string>, tables: Tables) {
    && (forall i :: 0 <= i < |rows| ==> RowAdmitted(rows[i], tables))
    && forall i, j :: 0 <= i < j < |rows| ==> rows[i] != rows[j]
  }

  /** Every enablement link of the tree is one that retirement may remove, and no payload target is a link. */
  ghost predicate Retirable(tree: Tree, rows: seq<string>, tables: Tables) {
    && (forall path :: path in tree && tree[path].Link? ==> exists u :: u in tables.units && LinkAdmitted(path, u))
    && (forall i :: 0 <= i < |rows| ==> !(rows[i] in tree && tree[rows[i]].Link?))
  }

  /** The fresh observation of a new generation: every enablement link and every payload row. */
  method Observe(tree: Tree, tables: Tables, rows: seq<string>) returns (ok: bool, p: Packet)
    ensures ok ==> Captured(p, tree) && p.rows == rows && LinksAdmitted(p.links, tables)
    ensures ok <==> Retirable(tree, rows, tables)
  {
    hide LinkPaths, LinksAdmitted, Matches, LinkAdmitted;
    var links, images;
    p := Packet([], rows, map[]);
    ok, links := ObserveLinks(tree, tables);
    if !ok { return; }
    ok, images := ObserveRows(tree, rows);
    p := Packet(links, rows, images);
  }

  /** read_kernel_enablement_prestate: each link with the unit it belongs to. */
  method ObserveLinks(tree: Tree, tables: Tables) returns (ok: bool, links: seq<Enablement>)
    ensures ok ==> LinksAdmitted(links, tables)
    ensures ok ==> forall i :: 0 <= i < |links| ==> Holds(tree, links[i].path, Link(links[i].facts))
    ensures ok ==> forall path :: path in tree && tree[path].Link? ==> path in LinkPaths(links)
    ensures ok <==> forall path :: path in tree && tree[path].Link? ==>
                                     exists u :: u in tables.units && LinkAdmitted(path, u)
  {
    hide LinkAdmitted, LinkPaths;
    links := [];
    assert LinkPaths([]) == [] by { NoLinkPaths(); }
    var pending := tree.Keys;
    while pending != {}
      invariant pending <= tree.Keys && LinksAdmitted(links, tables)
      invariant forall i :: 0 <= i < |links| ==> links[i].path !in pending
      invariant forall i :: 0 <= i < |links| ==> Holds(tree, links[i].path, Link(links[i].facts))
      invariant forall path :: path in tree && path !in pending && tree[path].Link? ==> path in LinkPaths(links)
      invariant forall path :: path in tree && path !in pending && tree[path].Link? ==>
                  exists u :: u in tables.units && LinkAdmitted(path, u)
    {
      var path :| path in pending;
      pending := pending - {path};
      if tree[path].Link? {
        var named := set u | u in tables.units && LinkAdmitted(path, u);
        if named == {} {
          assert forall u :: u in tables.units && LinkAdmitted(path, u) ==> u in named;
          return false, links;
        }
        var unit :| unit in named;
        LinkPathsAppend(links, Enablement(unit, path, tree[path].facts));
        links := links + [Enablement(unit, path, tree[path].facts)];
      }
    }
    ok := true;
  }

  lemma NoLinkPaths()
    ensures LinkPaths([]) == []
  {
  }

  lemma LinkPathsAppend(links: seq<Enablement>, l: Enablement)
    ensures LinkPaths(links + [l]) == LinkPaths(links) + [l.path]
  {
    assert (links + [l])[..|links|] == links;
  }

  /** The image of every present row. */
  method ObserveRows(tree: Tree, rows: seq<string>) returns (ok: bool, images: map<string, nat>)
    ensures ok ==> forall i :: 0 <= i < |rows| ==> Matches(tree, rows[i], images)
    ensures ok <==> forall i :: 0 <= i < |rows| ==> !(rows[i] in tree && tree[rows[i]].Link?)
  {
    images := map[];
    var i := 0;
    while i < |rows|
      invariant 0 <= i <= |rows|
      invariant forall t :: t in images ==> Holds(tree, t, File(images[t]))
      invariant forall k :: 0 <= k < i ==> Matches(tree, rows[k], images) && !(rows[k] in tree && tree[rows[k]].Link?)
    {
      if rows[i] in tree {
        if tree[rows[i]].Link? { return false, images; }
        images := images[rows[i] := tree[rows[i]].image];
      }
      i := i + 1;
    }
    ok := true;
  }

  /** What retirement is to remove from a tree. */
  predicate Target(initial: Tree, rows: seq<string>, path: string) {
    path in initial && (initial[path].Link? || path in rows)
  }

  ghost predicate OnlyTargets(initial: Tree, rows: seq<string>, log: seq<Event>) {
    forall path :: path in RemovedIn(log) ==> Target(initial, rows, path)
  }

  /** One fresh generation: observe, then retire what was observed. */
  method Attempt(h: Host, rows: seq<string>, inputs: bool) returns (r: Outcome)
    requires h.Valid() && (h.alone ==> OnlyTargets(h.initial, rows, h.log))
    modifies h`tree, h`log, h`changes, h`seen, h`refusals
    ensures h.Valid() && (h.alone ==> OnlyTargets(h.initial, rows, h.log))
    ensures h.alone && r.Done? ==> forall path :: path in h.tree ==> h.tree[path].File? && path !in rows
    ensures h.refusals >= old(h.refusals)
    ensures h.alone && h.refusals == old(h.refusals) && RowsAdmitted(rows, h.tables) ==>
              (r.Done? <==> Retirable(old(h.tree), rows, h.tables))
  {
    hide Public, Schedule, RemovedIn, LinkPaths, PresentRows, Captured, Target, NoRepeats;
    r := Denied;
    var seen, p := Observe(h.tree, h.tables, rows);
    if seen {
      ghost var tree, log := h.tree, h.log;
      r := h.Retire(p, inputs);
      ghost var run := h.log[|log|..];
      assert h.log == log + run && run <= Schedule(p, inputs);
      RunRemoves(p, inputs, run);
      RemovedConcat(log, run);
      if h.alone { RemovedAreTargets(h.initial, tree, log, p, run); }
    }
  }

  /** Any number of interrupted retirements, each by a fresh generation with a fresh packet, until one
      completes: no removal ever reaches preserved state; and with no one else near, every link and every
      payload file of the beginning is removed exactly once and nothing else is. */
  method AcrossRuns(h: Host, rows: seq<string>, selector: string, attempts: nat, inputs: bool) returns (r: Outcome)
    requires h.Valid() && h.log == [] && (h.alone ==> h.tree == h.initial)
    requires PolicyPlaced(h.tables) && SELECTOR_PREFIX <= selector
    modifies h`tree, h`log, h`changes, h`seen, h`refusals
    ensures h.Valid()
    ensures |h.changes| == |h.log|
    ensures forall i :: 0 <= i < |h.log| && h.log[i].Removed? ==>
              h.log[i].path in h.changes[i].before && h.changes[i].before[h.log[i].path] == h.log[i].node
    ensures forall i :: 0 <= i < |h.log| ==>
              h.changes[i].after ==
              (if h.log[i].Removed? then h.changes[i].before - {h.log[i].path} else h.changes[i].before)
    ensures forall path :: path in RemovedIn(h.log) ==> !Preserved(path, h.tables, selector)
    ensures h.alone ==> forall i, j :: 0 <= i < j < |RemovedIn(h.log)| ==> RemovedIn(h.log)[i] != RemovedIn(h.log)[j]
    ensures h.alone ==> forall path :: path in RemovedIn(h.log) ==> Target(h.initial, rows, path)
    ensures h.alone && r.Done? ==> forall path :: path in RemovedIn(h.log) <==> Target(h.initial, rows, path)
    ensures h.alone && h.refusals == old(h.refusals) && RowsAdmitted(rows, h.tables) && attempts > 0 ==>
              (Retirable(h.initial, rows, h.tables) ==> r.Done?)
  {
    assert RemovedIn(h.log) == [];
    hide Public, RemovedIn, Preserved;
    r := Denied;
    var n := 0;
    while n < attempts && r.Denied?
      invariant h.Valid() && (h.alone ==> OnlyTargets(h.initial, rows, h.log)) && h.refusals >= old(h.refusals)
      invariant n == 0 ==> h.tree == old(h.tree)
      invariant h.alone && h.refusals == old(h.refusals) && RowsAdmitted(rows, h.tables) && n > 0 ==>
                  (Retirable(h.initial, rows, h.tables) ==> r.Done?)
      invariant h.alone && r.Done? ==> forall path :: path in h.tree ==> h.tree[path].File? && path !in rows
    {
      n := n + 1;
      r := Attempt(h, rows, inputs);
    }
    forall path | path in RemovedIn(h.log) ensures !Preserved(path, h.tables, selector) {
      RemovalsSparePreservedState(path, h.tables, selector);
    }
  }

  lemma RemovedAreTargets(initial: Tree, tree: Tree, log: seq<Event>, p: Packet, run: seq<Event>)
    requires Conserved(initial, tree, log) && Captured(p, tree)
    requires RemovedIn(run) <= LinkPaths(p.links) + PresentRows(p.rows, p.images)
    ensures forall path :: path in RemovedIn(run) ==> Target(initial, p.rows, path)
  {
    forall path | path in RemovedIn(run)
      ensures Target(initial, p.rows, path)
    {
      assert path in LinkPaths(p.links) + PresentRows(p.rows, p.images);
      if path in LinkPaths(p.links) {
        var i :| 0 <= i < |p.links| && LinkPaths(p.links)[i] == path;
        assert Holds(tree, p.links[i].path, Link(p.links[i].facts));
      } else {
        var i :| 0 <= i < |p.rows| && p.rows[i] == path;
        assert Matches(tree, p.rows[i], p.images);
      }
    }
  }
}

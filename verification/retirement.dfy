/** Retirement of an installed Kernel: its enablement links and public program files are removed one by
    one under a signed journal that is written before and after each removal. */
module Retirement {

  import opened RetirementTargets

  /** An enablement link with its lstat facts, or a program file with its image. */
  datatype Node = Link(facts: nat) | File(image: nat)

  type Tree = map<string, Node>

  datatype Phase =
    | Prepared | Quiesced | InputsRestored | LinkIntent | LinkRetired
    | PayloadIntent | PayloadRetired | PayloadAlreadyAbsent | Retired

  /** What a run leaves behind: a journal record (the target is empty for a whole-run phase), or the
      removal of a name. */
  datatype Event = Recorded(phase: Phase, target: string) | Removed(path: string, node: Node)

  datatype Outcome = Done | Denied

  datatype Enablement = Enablement(unit: string, path: string, facts: nat)

  /** The signed prestate: the links, the payload targets in order, and the images of those present. */
  datatype Packet = Packet(links: seq<Enablement>, rows: seq<string>, images: map<string, nat>)

  predicate Holds(tree: Tree, path: string, node: Node) { path in tree && tree[path] == node }

  /** The row is as its image says: that very file, or nothing. */
  predicate Matches(tree: Tree, target: string, images: map<string, nat>) {
    if target in images then Holds(tree, target, File(images[target])) else target !in tree
  }

  /** The packet tells the truth about the tree, and leaves out no link. */
  predicate Captured(p: Packet, tree: Tree) {
    && (forall i :: 0 <= i < |p.links| ==> Holds(tree, p.links[i].path, Link(p.links[i].facts)))
    && (forall path :: path in tree && tree[path].Link? ==> path in LinkPaths(p.links))
    && (forall i :: 0 <= i < |p.rows| ==> Matches(tree, p.rows[i], p.images))
  }

  function LinkPaths(links: seq<Enablement>): (r: seq<string>)
    ensures |r| == |links| && forall i :: 0 <= i < |r| ==> r[i] == links[i].path
  {
    if links == [] then [] else LinkPaths(links[..|links| - 1]) + [links[|links| - 1].path]
  }

  function PresentRows(rows: seq<string>, images: map<string, nat>): (r: seq<string>)
    ensures forall t :: t in r <==> t in rows && t in images
  {
    if rows == [] then []
    else
      var t := rows[|rows| - 1];
      PresentRows(rows[..|rows| - 1], images) + if t in images then [t] else []
  }

  /** Guards of retirement_payload_selection and of the link checks, over the whole packet. */
  predicate PacketAdmitted(p: Packet, tables: Tables) {
    && (forall i :: 0 <= i < |p.rows| ==> RowAdmitted(p.rows[i], tables))
    && (forall l :: l in p.links ==> l.unit in tables.units && LinkAdmitted(l.path, l.unit))
    && (forall i, j :: 0 <= i < j < |p.rows| ==> p.rows[i] != p.rows[j])
    && (forall i, j :: 0 <= i < j < |p.links| ==> p.links[i].path != p.links[j].path)
  }

  // ----- the order of events

  function LinkBlock(l: Enablement): seq<Event> {
    [Recorded(LinkIntent, l.path), Removed(l.path, Link(l.facts)), Recorded(LinkRetired, l.path)]
  }

  function RowBlock(target: string, images: map<string, nat>): seq<Event> {
    if target in images then
      [Recorded(PayloadIntent, target), Removed(target, File(images[target])), Recorded(PayloadRetired, target)]
    else
      [Recorded(PayloadIntent, target), Recorded(PayloadAlreadyAbsent, target)]
  }

  function Opening(inputs: bool): seq<Event> {
    [Recorded(Prepared, ""), Recorded(Quiesced, "")] + if inputs then [Recorded(InputsRestored, "")] else []
  }

  function LinkEvents(links: seq<Enablement>): seq<Event> {
    if links == [] then [] else LinkEvents(links[..|links| - 1]) + LinkBlock(links[|links| - 1])
  }

  function RowEvents(rows: seq<string>, images: map<string, nat>): seq<Event> {
    if rows == [] then [] else RowEvents(rows[..|rows| - 1], images) + RowBlock(rows[|rows| - 1], images)
  }

  /** A complete run. */
  function Schedule(p: Packet, inputs: bool): seq<Event> {
    Opening(inputs) + LinkEvents(p.links) + RowEvents(p.rows, p.images) + [Recorded(Retired, "")]
  }

  function Contents(p: Packet): seq<Event> {
    LinkEvents(p.links) + RowEvents(p.rows, p.images) + [Recorded(Retired, "")]
  }

  lemma ScheduleIsTwo(p: Packet, inputs: bool)
    ensures Schedule(p, inputs) == Opening(inputs) + Contents(p)
  {
  }

  // ----- accounting

  function RemovedIn(log: seq<Event>): seq<string> {
    if log == [] then []
    else
      var e := log[|log| - 1];
      RemovedIn(log[..|log| - 1]) + if e.Removed? then [e.path] else []
  }

  function RetiredIn(log: seq<Event>): seq<string> {
    if log == [] then []
    else
      var e := log[|log| - 1];
      RetiredIn(log[..|log| - 1]) + if e.Recorded? && e.phase in {LinkRetired, PayloadRetired} then [e.target] else []
  }

  /** Removed is what has a retired record, in the same order, plus at most the target of the latest record,
      which then is its intent. */
  predicate Accounted(log: seq<Event>) {
    || RemovedIn(log) == RetiredIn(log)
    || (&& |log| >= 2 && log[|log| - 1].Removed? && log[|log| - 2].Recorded?
        && log[|log| - 2].phase in {LinkIntent, PayloadIntent} && log[|log| - 2].target == log[|log| - 1].path
        && RemovedIn(log) == RetiredIn(log) + [log[|log| - 1].path])
  }

  /** Nothing is owed. */
  predicate Settled(log: seq<Event>) { RemovedIn(log) == RetiredIn(log) }

  lemma {:induction false} AppendOne(log: seq<Event>, e: Event)
    ensures RemovedIn(log + [e]) == RemovedIn(log) + (if e.Removed? then [e.path] else [])
    ensures RetiredIn(log + [e]) == RetiredIn(log) + if e.Recorded? &&
        e.phase in {LinkRetired, PayloadRetired} then [e.target] else []
  {
  }

  /** A record that retires nothing. */
  predicate Quiet(e: Event) { e.Recorded? && e.phase !in {LinkRetired, PayloadRetired} }

  /** An intent for `t`. */
  predicate IntentOf(e: Event, t: string) {
    e.Recorded? && e.phase in {LinkIntent, PayloadIntent} && e.target == t
  }

  predicate RetiredRecordOf(e: Event, t: string) {
    e.Recorded? && e.phase in {LinkRetired, PayloadRetired} && e.target == t
  }

  /** One or two records that retire nothing, or an intent, its removal and its retired record. */
  predicate Block(b: seq<Event>) {
    || (1 <= |b| <= 2 && Quiet(b[0]) && Quiet(b[|b| - 1]))
    || (|b| == 3 && b[1].Removed? && IntentOf(b[0], b[1].path) && RetiredRecordOf(b[2], b[1].path))
  }

  /** Every prefix of a block keeps the account, and a whole block settles it. */
  lemma {:induction false} BlockAccounts(log: seq<Event>, block: seq<Event>, n: nat)
    requires Settled(log) && Block(block) && n <= |block|
    ensures Accounted(log + block[..n]) && (n == |block| ==> Settled(log + block[..n]))
  {
    hide RemovedIn, RetiredIn;
    if n == 0 {
      assert log + block[..0] == log;
    } else {
      var one := log + [block[0]];
      AppendOne(log, block[0]);
      assert log + block[..1] == one;
      if n >= 2 {
        var two := one + [block[1]];
        AppendOne(one, block[1]);
        assert log + block[..2] == two;
        if n >= 3 {
          AppendOne(two, block[2]);
          assert log + block[..3] == two + [block[2]];
        }
      }
    }
  }

  /** A prefix of a concatenation ends in the first part or in the second. */
  lemma PrefixOfTwo(run: seq<Event>, a: seq<Event>, b: seq<Event>) returns (n: nat)
    requires run <= a + b
    ensures |run| <= |a| ==> run <= a
    ensures |run| > |a| ==> n <= |b| && run == a + b[..n]
  {
    n := if |run| > |a| then |run| - |a| else 0;
    assert run == (a + b)[..|run|];
  }

  lemma {:induction false} OpeningAccounts(inputs: bool, run: seq<Event>)
    requires run <= Opening(inputs)
    ensures Settled(run)
  {
    var o := Opening(inputs);
    assert o[..0] == [];
    AppendOne([], o[0]);
    assert o[..1] == [] + [o[0]];
    AppendOne(o[..1], o[1]);
    assert o[..2] == o[..1] + [o[1]];
    if inputs {
      AppendOne(o[..2], o[2]);
      assert o[..3] == o[..2] + [o[2]];
    }
    assert run == o[..|run|];
  }

  lemma SettledIsAccounted(log: seq<Event>)
    requires Settled(log)
    ensures Accounted(log)
  {
  }

  lemma RowBlockIsBlock(target: string, images: map<string, nat>)
    ensures Block(RowBlock(target, images))
  {
  }

  lemma {:induction false} LinksAccount(head: seq<Event>, links: seq<Enablement>, run: seq<Event>)
    requires Settled(head) && run <= head + LinkEvents(links) && |run| >= |head|
    ensures Accounted(run) && (run == head + LinkEvents(links) ==> Settled(run))
  {
    hide RemovedIn, RetiredIn, Accounted, Settled;
    if links == [] {
      SettledIsAccounted(head);
      assert run == head;
    } else {
      var before := head + LinkEvents(links[..|links| - 1]);
      var block := LinkBlock(links[|links| - 1]);
      assert head + LinkEvents(links) == before + block;
      LinksAccount(head, links[..|links| - 1], before);
      var n := PrefixOfTwo(run, before, block);
      if |run| > |before| {
        BlockAccounts(before, block, n);
      } else {
        LinksAccount(head, links[..|links| - 1], run);
      }
    }
  }

  lemma {:induction false} RowsAccount(head: seq<Event>, rows: seq<string>, images: map<string, nat>, run: seq<Event>)
    requires Settled(head) && run <= head + RowEvents(rows, images) && |run| >= |head|
    ensures Accounted(run) && (run == head + RowEvents(rows, images) ==> Settled(run))
  {
    hide RemovedIn, RetiredIn, Accounted, Settled, Block, RowBlock;
    if rows == [] {
      SettledIsAccounted(head);
      assert run == head;
    } else {
      var before := head + RowEvents(rows[..|rows| - 1], images);
      var block := RowBlock(rows[|rows| - 1], images);
      assert head + RowEvents(rows, images) == before + block;
      RowBlockIsBlock(rows[|rows| - 1], images);
      RowsAccount(head, rows[..|rows| - 1], images, before);
      var n := PrefixOfTwo(run, before, block);
      if |run| > |before| {
        BlockAccounts(before, block, n);
      } else {
        RowsAccount(head, rows[..|rows| - 1], images, run);
      }
    }
  }

  /** Wherever a run stops, the removed names are exactly those with a retired record plus at most the one
      whose intent is the latest record. */
  lemma {:induction false} EveryStopIsAccounted(p: Packet, inputs: bool, run: seq<Event>)
    requires run <= Schedule(p, inputs)
    ensures Accounted(run)
  {
    hide RemovedIn, RetiredIn, Accounted, Settled, Opening, LinkEvents, RowEvents;
    var opening := Opening(inputs);
    var links := opening + LinkEvents(p.links);
    var rows := links + RowEvents(p.rows, p.images);
    OpeningAccounts(inputs, opening);
    LinksAccount(opening, p.links, links);
    RowsAccount(links, p.rows, p.images, rows);
    var last := [Recorded(Retired, "")];
    var n := PrefixOfTwo(run, rows, last);
    if |run| > |rows| {
      BlockAccounts(rows, last, n);
    } else if |run| >= |links| {
      RowsAccount(links, p.rows, p.images, run);
    } else if |run| >= |opening| {
      assert run <= links;
      LinksAccount(opening, p.links, run);
    } else {
      assert run <= opening;
      OpeningAccounts(inputs, run);
      SettledIsAccounted(run);
    }
  }

  lemma {:induction false} LinkEventsGrow(links: seq<Enablement>, i: nat)
    requires i <= |links|
    ensures LinkEvents(links[..i]) <= LinkEvents(links)
    ensures i < |links| ==> LinkEvents(links[..i + 1]) == LinkEvents(links[..i]) + LinkBlock(links[i])
    decreases |links| - i
  {
    if i == |links| {
      assert links[..i] == links;
    } else {
      assert links[..i + 1][..i] == links[..i];
      LinkEventsGrow(links, i + 1);
    }
  }

  lemma {:induction false} RowEventsGrow(rows: seq<string>, images: map<string, nat>, i: nat)
    requires i <= |rows|
    ensures RowEvents(rows[..i], images) <= RowEvents(rows, images)
    ensures i < |rows| ==> RowEvents(rows[..i + 1], images) == RowEvents(rows[..i], images) + RowBlock(rows[i], images)
    decreases |rows| - i
  {
    if i == |rows| {
      assert rows[..i] == rows;
    } else {
      assert rows[..i + 1][..i] == rows[..i];
      RowEventsGrow(rows, images, i + 1);
    }
  }

  /** No enablement link and no payload target is there any more. */
  predicate AllGone(p: Packet, tree: Tree) {
    (forall path :: path in tree ==> tree[path].File?) && (forall i :: 0 <= i < |p.rows| ==> p.rows[i] !in tree)
  }

  lemma AdmittedRowIsPublic(p: Packet, tables: Tables, i: nat)
    requires PacketAdmitted(p, tables) && i < |p.rows|
    ensures Public(p.rows[i], tables)
  {
  }

  lemma AdmittedLinkIsPublic(p: Packet, tables: Tables, i: nat)
    requires PacketAdmitted(p, tables) && i < |p.links|
    ensures Public(p.links[i].path, tables)
  {
  }

  /** The links from `i` on, and all the rows, are as captured. */
  ghost predicate LinksLeft(p: Packet, tree: Tree, i: nat) {
    && i <= |p.links|
    && (forall j :: i <= j < |p.links| ==> Holds(tree, p.links[j].path, Link(p.links[j].facts)))
    && (forall path :: path in tree && tree[path].Link? ==> exists j :: i <= j < |p.links| && p.links[j].path == path)
    && (forall k :: 0 <= k < |p.rows| ==> Matches(tree, p.rows[k], p.images))
  }

  /** No link is left, the rows before `i` are gone, and the others are as captured. */
  ghost predicate RowsLeft(p: Packet, tree: Tree, i: nat) {
    && i <= |p.rows|
    && (forall path :: path in tree ==> tree[path].File?)
    && (forall k :: 0 <= k < i ==> p.rows[k] !in tree)
    && (forall k :: i <= k < |p.rows| ==> Matches(tree, p.rows[k], p.images))
  }

  lemma NothingLeftIsGone(p: Packet, tree: Tree)
    requires RowsLeft(p, tree, |p.rows|)
    ensures AllGone(p, tree)
  {
  }

  lemma CapturedIsLeft(p: Packet, tree: Tree)
    requires Captured(p, tree)
    ensures LinksLeft(p, tree, 0)
  {
  }

  lemma LinkStep(p: Packet, tables: Tables, tree: Tree, i: nat)
    requires PacketAdmitted(p, tables) && i < |p.links| && LinksLeft(p, tree, i)
    ensures Holds(tree, p.links[i].path, Link(p.links[i].facts)) && Public(p.links[i].path, tables)
    ensures LinksLeft(p, tree - {p.links[i].path}, i + 1)
  {
    hide LinkAdmitted, RowAdmitted;
    AdmittedLinkIsPublic(p, tables, i);
    assert Holds(tree, p.links[i].path, Link(p.links[i].facts));
  }

  lemma RowStep(p: Packet, tables: Tables, tree: Tree, i: nat)
    requires PacketAdmitted(p, tables) && i < |p.rows| && RowsLeft(p, tree, i)
    ensures Matches(tree, p.rows[i], p.images) && RowsLeft(p, tree - {p.rows[i]}, i + 1)
  {
    hide LinkAdmitted, RowAdmitted;
  }

  /** What extends `base + a` within `b` extends `base` within any sequence that starts with `a + b`. */
  lemma Within(base: seq<Event>, a: seq<Event>, b: seq<Event>, total: seq<Event>, log: seq<Event>)
    requires a + b <= total && base + a <= log <= (base + a) + b
    ensures base <= log <= base + total
    ensures log == (base + a) + b ==> log == base + (a + b)
  {
  }

  // ----- the host

  predicate NoRepeats(s: seq<string>) { forall i, j :: 0 <= i < j < |s| ==> s[i] != s[j] }

  /** Only removals happened since `initial`, and no name was removed twice. */
  ghost predicate Conserved(initial: Tree, tree: Tree, log: seq<Event>) {
    && NoRepeats(RemovedIn(log))
    && (forall path :: path in tree <==> path in initial && path !in RemovedIn(log))
    && (forall path :: path in tree ==> tree[path] == initial[path])
  }

  /** The tree right before and right after an event. */
  datatype Change = Change(before: Tree, after: Tree)

  /** A removal takes the very object that its event names, and nothing else; a record takes nothing. */
  predicate Effect(e: Event, c: Change) {
    match e
    case Recorded(_, _) => c.after == c.before
    case Removed(path, node) => Holds(c.before, path, node) && c.after == c.before - {path}
  }

  ghost predicate Effects(log: seq<Event>, changes: seq<Change>) {
    |changes| == |log| && forall i :: 0 <= i < |log| ==> Effect(log[i], changes[i])
  }

  lemma EffectsAppend(log: seq<Event>, changes: seq<Change>, e: Event, c: Change)
    requires Effects(log, changes) && Effect(e, c)
    ensures Effects(log + [e], changes + [c])
  {
  }

  lemma EventConserves(initial: Tree, tree: Tree, log: seq<Event>, e: Event, after: Tree)
    requires Conserved(initial, tree, log) && Effect(e, Change(tree, after))
    ensures Conserved(initial, after, log + [e])
  {
    hide RemovedIn;
    AppendOne(log, e);
  }

  /** A check has looked at a tree without that name, from the `k`th on. */
  ghost predicate SawAbsent(seen: seq<Tree>, k: nat, path: string) {
    exists i :: k <= i < |seen| && path !in seen[i]
  }

  lemma SeenStays(seen: seq<Tree>, more: seq<Tree>, k: nat, m: nat, path: string)
    requires seen <= more && k <= m
    ensures SawAbsent(seen, k, path) ==> SawAbsent(more, k, path)
    ensures SawAbsent(more, m, path) ==> SawAbsent(more, k, path)
  {
  }

  /** Every row that was captured as absent was. */
  ghost predicate AbsentRowsSeen(seen: seq<Tree>, k: nat, rows: seq<string>, images: map<string, nat>) {
    forall i :: 0 <= i < |rows| && rows[i] !in images ==> SawAbsent(seen, k, rows[i])
  }

  lemma NoRowsSeen(seen: seq<Tree>, k: nat, images: map<string, nat>)
    ensures AbsentRowsSeen(seen, k, [], images)
  {
  }

  lemma OneMoreRowSeen(seen: seq<Tree>, more: seq<Tree>, k: nat, rows: seq<string>, images: map<string, nat>, i: nat)
    requires seen <= more && k <= |seen| && i < |rows| && AbsentRowsSeen(seen, k, rows[..i], images)
    requires rows[i] !in images ==> SawAbsent(more, |seen|, rows[i])
    ensures AbsentRowsSeen(more, k, rows[..i + 1], images)
  {
    hide SawAbsent;
    var now := rows[..i + 1];
    forall j | 0 <= j < |now| && now[j] !in images ensures SawAbsent(more, k, now[j]) {
      if j < i { assert rows[..i][j] == rows[j]; }
      SeenStays(seen, more, k, |seen|, rows[j]);
    }
  }

  class Host {
    const tables: Tables
    const alone: bool                   // no other actor changes the tree
    ghost const initial: Tree
    var tree: Tree
    ghost var log: seq<Event>           // the events of all runs so far
    ghost var changes: seq<Change>      // what each of them did
    ghost var seen: seq<Tree>           // the trees that the checks looked at
    ghost var refusals: nat

    constructor (tables: Tables, alone: bool, tree: Tree)
      ensures this.tables == tables && this.alone == alone && this.initial == this.tree == tree
      ensures log == [] && changes == [] && seen == [] && refusals == 0 && Valid()
    {
      this.tables, this.alone, this.initial, this.tree := tables, alone, tree, tree;
      log, changes, seen, refusals := [], [], [], 0;
    }

    ghost predicate Valid()
      reads this
    {
      && Effects(log, changes) && (alone ==> Conserved(initial, tree, log))
      && (forall path :: path in RemovedIn(log) ==> Public(path, tables))
    }

    /** Ownership, source, preservation and quiescence checks: others may act meanwhile, and it may raise. */
    method Proceed() returns (ok: bool)
      requires Valid()
      modifies this`tree, this`seen, this`refusals
      ensures Valid() && (alone ==> tree == old(tree)) && seen == old(seen) + [tree]
      ensures refusals == if ok then old(refusals) else old(refusals) + 1
    {
      ok := *;
      if !ok { refusals := refusals + 1; }
      if !alone { tree := *; }
      seen := seen + [tree];
    }

    /** One event. */
    method Perform(ghost e: Event, after: Tree)
      requires Valid() && Effect(e, Change(tree, after)) && (e.Removed? ==> Public(e.path, tables))
      modifies this`tree, this`log, this`changes
      ensures Valid() && tree == after && log == old(log) + [e] && changes == old(changes) + [Change(old(tree), after)]
    {
      hide Public, Effect;
      AppendOne(log, e);
      EffectsAppend(log, changes, e, Change(tree, after));
      if alone { EventConserves(initial, tree, log, e, after); }
      changes := changes + [Change(tree, after)];
      tree := after;
      log := log + [e];
    }

    /** A check has looked at such a tree, from the `k`th on. */
    ghost predicate Saw(k: nat, p: Packet, gone: bool)
      reads this
    {
      exists i :: k <= i < |seen| && if gone then AllGone(p, seen[i]) else Captured(p, seen[i])
    }

    /** advance: the record replaces the journal; a failure may come before or after. */
    method Advance(phase: Phase, target: string) returns (ok: bool)
      requires Valid()
      modifies this`tree, this`log, this`changes, this`seen, this`refusals
      ensures Valid() && old(seen) <= seen && (alone ==> tree == old(tree))
      ensures log == old(log) + [Recorded(phase, target)] || (!ok && log == old(log))
      ensures if ok then refusals == old(refusals) else refusals > old(refusals)
    {
      ok := Proceed();
      if !ok { return; }
      Perform(Recorded(phase, target), tree);
      ok := Proceed();
    }

    /** Compare, then unlink; the directory sync after it may still raise. */
    method Remove(path: string, expected: Node) returns (ok: bool)
      requires Valid() && Public(path, tables)
      modifies this`tree, this`log, this`changes, this`seen, this`refusals
      ensures Valid() && old(seen) <= seen
      ensures log == old(log) + [Removed(path, expected)] || (!ok && log == old(log))
      ensures ok && alone ==> tree == old(tree) - {path}
      ensures alone && refusals == old(refusals) ==> (ok <==> Holds(old(tree), path, expected))
      ensures refusals >= old(refusals)
      ensures ok ==> refusals == old(refusals)
    {
      ok := Proceed();
      if !ok { return; }
      if path !in tree || tree[path] != expected { return false; }
      Perform(Removed(path, expected), tree - {path});
      ok := Proceed();
    }

    method RetireLink(l: Enablement) returns (ok: bool)
      requires Valid() && Public(l.path, tables)
      modifies this`tree, this`log, this`changes, this`seen, this`refusals
      ensures Valid() && old(seen) <= seen && refusals >= old(refusals)
      ensures old(log) <= log <= old(log) + LinkBlock(l) && (ok ==> log == old(log) + LinkBlock(l))
      ensures ok && alone ==> tree == old(tree) - {l.path}
      ensures alone && refusals == old(refusals) && Holds(old(tree), l.path, Link(l.facts)) ==> ok
      ensures ok ==> refusals == old(refusals)
    {
      hide Public, Valid;
      ok := Proceed();
      if !ok { return; }
      ok := Advance(LinkIntent, l.path);
      if !ok { return; }
      ok := Remove(l.path, Link(l.facts));
      if !ok { return; }
      ok := Advance(LinkRetired, l.path);
    }

    /** One payload row: removed, or recorded as already absent. */
    method RetireRow(target: string, images: map<string, nat>) returns (ok: bool)
      requires Valid() && Public(target, tables)
      modifies this`tree, this`log, this`changes, this`seen, this`refusals
      ensures Valid() && old(seen) <= seen && refusals >= old(refusals)
      ensures old(log) <= log <= old(log) + RowBlock(target, images) && (ok ==>
          log == old(log) + RowBlock(target, images))
      ensures ok && alone ==> tree == old(tree) - {target}
      ensures alone && refusals == old(refusals) && Matches(old(tree), target, images) ==> ok
      ensures ok && target !in images ==> SawAbsent(seen, |old(seen)|, target)
      ensures ok ==> refusals == old(refusals)
    {
      hide Public, Valid;
      ok := Proceed();
      if !ok { return; }
      if target in images {
        ok := RetirePresent(target, images[target]);
      } else {
        ok := ConfirmAbsent(target);
      }
    }

    method RetirePresent(target: string, image: nat) returns (ok: bool)
      requires Valid() && Public(target, tables)
      modifies this`tree, this`log, this`changes, this`seen, this`refusals
      ensures Valid() && old(seen) <= seen && refusals >= old(refusals)
      ensures var block := [Recorded(PayloadIntent, target), Removed(target, File(image)), Recorded(PayloadRetired,
          target)];
              old(log) <= log <= old(log) + block && (ok ==> log == old(log) + block)
      ensures ok && alone ==> tree == old(tree) - {target}
      ensures alone && refusals == old(refusals) && Holds(old(tree), target, File(image)) ==> ok
      ensures ok ==> refusals == old(refusals)
    {
      hide Public, Valid;
      ok := Advance(PayloadIntent, target);
      if !ok { return; }
      ok := Remove(target, File(image));
      if !ok { return; }
      ok := Advance(PayloadRetired, target);
    }

    method ConfirmAbsent(target: string) returns (ok: bool)
      requires Valid()
      modifies this`tree, this`log, this`changes, this`seen, this`refusals
      ensures Valid() && old(seen) <= seen && refusals >= old(refusals)
      ensures var block := [Recorded(PayloadIntent, target), Recorded(PayloadAlreadyAbsent, target)];
              old(log) <= log <= old(log) + block && (ok ==> log == old(log) + block)
      ensures alone ==> tree == old(tree) && (ok ==> target !in tree)
      ensures ok ==> SawAbsent(seen, |old(seen)|, target)
      ensures alone && refusals == old(refusals) && target !in old(tree) ==> ok
      ensures ok ==> refusals == old(refusals)
    {
      hide Public, Valid;
      ok := Advance(PayloadIntent, target);
      if !ok { return; }
      ok := Proceed();
      if !ok || target in tree { return false; }
      ghost var looked := |seen| - 1;
      ok := Advance(PayloadAlreadyAbsent, target);
      assert target !in seen[looked];
    }

    method RetireLinks(p: Packet) returns (ok: bool)
      requires Valid() && PacketAdmitted(p, tables) && (alone ==> LinksLeft(p, tree, 0))
      modifies this`tree, this`log, this`changes, this`seen, this`refusals
      ensures Valid() && old(seen) <= seen && refusals >= old(refusals)
      ensures old(log) <= log <= old(log) + LinkEvents(p.links) && (ok ==> log == old(log) + LinkEvents(p.links))
      ensures alone && ok ==> LinksLeft(p, tree, |p.links|)
      ensures alone && refusals == old(refusals) ==> ok
      ensures ok ==> refusals == old(refusals)
    {
      hide Valid, Public, PacketAdmitted, LinksLeft, LinkBlock;
      var i := 0;
      while i < |p.links|
        invariant 0 <= i <= |p.links| && Valid() && old(seen) <= seen && refusals == old(refusals)
        invariant log == old(log) + LinkEvents(p.links[..i])
        invariant alone ==> LinksLeft(p, tree, i)
      {
        LinkEventsGrow(p.links, i);
        LinkEventsGrow(p.links, i + 1);
        AdmittedLinkIsPublic(p, tables, i);
        if alone { LinkStep(p, tables, tree, i); }
        ok := RetireLink(p.links[i]);
        Within(old(log), LinkEvents(p.links[..i]), LinkBlock(p.links[i]), LinkEvents(p.links), log);
        if !ok { return; }
        i := i + 1;
      }
      assert p.links[..i] == p.links;
      ok := true;
    }

    method RetireRows(p: Packet) returns (ok: bool)
      requires Valid() && PacketAdmitted(p, tables) && (alone ==> RowsLeft(p, tree, 0))
      modifies this`tree, this`log, this`changes, this`seen, this`refusals
      ensures Valid() && old(seen) <= seen && refusals >= old(refusals)
      ensures old(log) <= log <= old(log) + RowEvents(p.rows, p.images) && (ok ==>
          log == old(log) + RowEvents(p.rows, p.images))
      ensures alone && ok ==> RowsLeft(p, tree, |p.rows|)
      ensures ok ==> AbsentRowsSeen(seen, |old(seen)|, p.rows, p.images)
      ensures alone && refusals == old(refusals) ==> ok
      ensures ok ==> refusals == old(refusals)
    {
      hide Valid, Public, PacketAdmitted, RowsLeft, RowBlock, AbsentRowsSeen, SawAbsent;
      NoRowsSeen(seen, |seen|, p.images);
      assert p.rows[..0] == [];
      var i := 0;
      while i < |p.rows|
        invariant 0 <= i <= |p.rows| && Valid() && old(seen) <= seen && refusals == old(refusals)
        invariant AbsentRowsSeen(seen, |old(seen)|, p.rows[..i], p.images)
        invariant log == old(log) + RowEvents(p.rows[..i], p.images)
        invariant alone ==> RowsLeft(p, tree, i)
      {
        RowEventsGrow(p.rows, p.images, i);
        RowEventsGrow(p.rows, p.images, i + 1);
        AdmittedRowIsPublic(p, tables, i);
        if alone { RowStep(p, tables, tree, i); }
        ghost var looked := seen;
        ok := RetireRow(p.rows[i], p.images);
        if ok { OneMoreRowSeen(looked, seen, |old(seen)|, p.rows, p.images, i); }
        Within(old(log), RowEvents(p.rows[..i], p.images), RowBlock(p.rows[i], p.images), RowEvents(p.rows,
            p.images), log);
        if !ok { return; }
        i := i + 1;
      }
      assert p.rows[..i] == p.rows;
      ok := true;
    }

    /** retire_kernel_in_generation for a signed packet; inputs: an input transition is recovered on the way. */
    method Retire(p: Packet, inputs: bool) returns (r: Outcome)
      requires Valid()
      modifies this`tree, this`log, this`changes, this`seen, this`refusals
      ensures Valid() && old(seen) <= seen && refusals >= old(refusals)
      ensures old(log) <= log <= old(log) + Schedule(p, inputs) && (r.Done? ==> log == old(log) + Schedule(p, inputs))
      ensures log != old(log) ==> PacketAdmitted(p, tables) && Saw(|old(seen)|, p, false)
      ensures r.Done? ==> Saw(|old(seen)|, p, true)
      ensures r.Done? && alone ==> AllGone(p, tree)
      ensures alone && PacketAdmitted(p, tables) && Captured(p, old(tree)) && refusals == old(refusals) ==> r.Done?
      ensures r.Done? ==> refusals == old(refusals)
    {
      hide Valid, PacketAdmitted, Captured, Schedule, AllGone;
      r := Denied;
      var ok := Proceed();
      if !ok || !PacketAdmitted(p, tables) || !Captured(p, tree) { return; }
      ghost var looked := |seen| - 1;
      r := RetireAdmitted(p, inputs);
      assert Captured(p, seen[looked]);
    }

    /** The retirement of a packet that passed the checks. */
    method RetireAdmitted(p: Packet, inputs: bool) returns (r: Outcome)
      requires Valid() && PacketAdmitted(p, tables) && Captured(p, tree)
      modifies this`tree, this`log, this`changes, this`seen, this`refusals
      ensures Valid() && old(seen) <= seen && refusals >= old(refusals)
      ensures old(log) <= log <= old(log) + Schedule(p, inputs) && (r.Done? ==> log == old(log) + Schedule(p, inputs))
      ensures r.Done? ==> Saw(|old(seen)|, p, true)
      ensures r.Done? && alone ==> AllGone(p, tree)
      ensures alone && refusals == old(refusals) ==> r.Done?
      ensures r.Done? ==> refusals == old(refusals)
      ensures r.Done? ==> Saw(|old(seen)|, p, false)
    {
      hide Valid, PacketAdmitted, Captured, Opening, Contents, AllGone;
      r := Denied;
      ghost var opening, rest := Opening(inputs), Contents(p);
      ScheduleIsTwo(p, inputs);
      var ok := Open(p, inputs);
      Within(old(log), [], opening, opening + rest, log);
      if !ok { return; }
      ghost var again :| |old(seen)| <= again < |seen| && Captured(p, seen[again]);
      r := RetireContents(p);
      Within(old(log), opening, rest, opening + rest, log);
      assert Captured(p, seen[again]);
    }

    /** Links, rows and the terminal check, after the opening. */
    method RetireContents(p: Packet) returns (r: Outcome)
      requires Valid() && PacketAdmitted(p, tables) && (alone ==> Captured(p, tree))
      modifies this`tree, this`log, this`changes, this`seen, this`refusals
      ensures Valid() && old(seen) <= seen && refusals >= old(refusals)
      ensures old(log) <= log <= old(log) + Contents(p) && (r.Done? ==> log == old(log) + Contents(p))
      ensures r.Done? ==> Saw(|old(seen)|, p, true) && refusals == old(refusals)
      ensures r.Done? && alone ==> AllGone(p, tree)
      ensures alone && refusals == old(refusals) ==> r.Done?
    {
      hide Valid, PacketAdmitted, Captured, LinkEvents, RowEvents, AllGone, SawAbsent;
      r := Denied;
      ghost var links, rows := LinkEvents(p.links), RowEvents(p.rows, p.images);
      ghost var total := Contents(p);
      if alone { CapturedIsLeft(p, tree); }
      var ok := RetireLinks(p);
      Within(old(log), [], links, total, log);
      if !ok { return; }
      ok := RetireRows(p);
      Within(old(log), links, rows, total, log);
      if !ok { return; }
      if alone { NothingLeftIsGone(p, tree); }
      ok := Terminal(p);
      if !ok { return; }
      ghost var looked := |seen| - 1;
      ok := Advance(Retired, "");
      Within(old(log), links + rows, [Recorded(Retired, "")], total, log);
      assert AllGone(p, seen[looked]);
      if ok { r := Done; }
    }

    method Terminal(p: Packet) returns (ok: bool)
      requires Valid()
      modifies this`tree, this`seen, this`refusals
      ensures Valid() && old(seen) <= seen && refusals >= old(refusals) && (alone ==> tree == old(tree))
      ensures seen == old(seen) + [tree] && (ok ==> AllGone(p, tree))
      ensures alone && AllGone(p, old(tree)) && refusals == old(refusals) ==> ok
      ensures ok ==> refusals == old(refusals)
    {
      hide Valid;
      ok := Proceed();
      ok := ok && AllGone(p, tree);
    }

    /** The journal begins, the units are stopped, and the prestate is compared once more. */
    method Open(p: Packet, inputs: bool) returns (ok: bool)
      requires Valid()
      modifies this`tree, this`log, this`changes, this`seen, this`refusals
      ensures Valid() && old(seen) <= seen && refusals >= old(refusals) && (alone ==> tree == old(tree))
      ensures old(log) <= log <= old(log) + Opening(inputs) && (ok ==> log == old(log) + Opening(inputs))
      ensures alone && Captured(p, old(tree)) && refusals == old(refusals) ==> ok
      ensures ok ==> refusals == old(refusals)
      ensures ok ==> Saw(|old(seen)|, p, false)
    {
      hide Valid;
      ok := Advance(Prepared, "");
      if !ok { return; }
      ok := Proceed();
      if !ok || !Captured(p, tree) { return false; }
      ghost var looked := |seen| - 1;
      ok := Advance(Quiesced, "");
      if ok && inputs {
        ok := Proceed();
        if !ok { return; }
        ok := Advance(InputsRestored, "");
      }
      assert Captured(p, seen[looked]);
    }
  }
}

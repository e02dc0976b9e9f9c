/** The source release of the Outpost: a collector that lists a tree, and a verifier that compares a tree
    with the list stored in it. */
module Preflight {

  import opened Wrappers
  import opened PosixPaths

  const MANIFEST := "release-manifest.json"
  const TESTS := "tests/"
  const MAX_MANIFEST_BYTES := 1_048_576
  const MAX_SOURCE_BYTES := 268_435_456

  /** Irregular: a symbolic link or a special file. */
  datatype Node = File(content: string, links: nat) | Directory | Irregular

  type Tree = map<string, Node>

  datatype Row = Row(path: string, bytes: int, digest: string)

  /** sound: schema, self digest and classification are as required. */
  datatype Release = Release(sound: bool, payload: seq<Row>, sourceOnly: seq<Row>)

  function Names(paths: seq<string>): set<string> { set p | p in paths }

  /** _path: a relative path in normal form without a parent step or a forbidden character, and not the
      manifest itself. */
  predicate PathOk(p: string) {
    && p != "" && '\\' !in p && ':' !in p && '\0' !in p
    && Root(p) == "" && ".." !in Parts(p) && Normalized(p) == p && p != "." && p != MANIFEST
  }

  /** That is a path whose components all are real names. */
  lemma PathOkIff(p: string)
    ensures PathOk(p) <==> && p != "release-manifest.json"
                           && (forall c :: c in p ==> c != '\\' && c != ':' && c != '\0')
                           && forall name :: name in Split(p) ==> name != "" && name != "." && name != ".."
  {
    hide Normalized, Split, Proper;
    FirstComponent(p);
    ProperIsClean(Split(p));
    DotHasNoParts();
    DotIsItsComponent();
    if Root(p) == "" { NormalizedIffClean(p); }
  }

  lemma FirstComponent(p: string)
    ensures p == "" || p[0] == '/' ==> "" in Split(p)
  {
    if p == "" || p[0] == '/' { assert Split(p)[0] == ""; }
  }

  lemma DotIsItsComponent()
    ensures "." in Split(".")
  {
    SplitOfText(".");
  }

  predicate Hex64(d: string) {
    |d| == 64 && forall i :: 0 <= i < |d| ==> '0' <= d[i] <= '9' || 'a' <= d[i] <= 'f'
  }

  predicate Test(p: string) { TESTS <= p }

  function Total(rows: seq<Row>): int {
    if rows == [] then 0 else Total(rows[..|rows| - 1]) + rows[|rows| - 1].bytes
  }

  predicate PathsDiffer(rows: seq<Row>) { forall i, j :: 0 <= i < j < |rows| ==> rows[i].path != rows[j].path }

  predicate Lists(rows: seq<Row>, p: string) { exists i :: 0 <= i < |rows| && rows[i].path == p }

  /** The row says what the tree has at its path. */
  predicate Describes(tree: Tree, row: Row, hash: string -> string) {
    && row.path in tree && tree[row.path].File? && tree[row.path].links == 1
    && row.bytes == |tree[row.path].content| && row.digest == hash(tree[row.path].content)
  }

  // ----- the collector

  /** inventory: only directories and files with one link. */
  predicate Plain(tree: Tree) { forall p :: p in tree ==> tree[p].Directory? || (tree[p].File? && tree[p].links == 1) }

  /** The files of the tree, the manifest aside, are exactly these paths. */
  predicate Denominator(tree: Tree, paths: set<string>) {
    && (forall p :: p in paths ==> p in tree && !tree[p].Directory?)
    && (forall p :: p in tree && !tree[p].Directory? && p != MANIFEST ==> p in paths)
  }

  /** The bytes of these files together. */
  ghost function Size(tree: Tree, paths: set<string>): nat
    requires forall p :: p in paths ==> p in tree && tree[p].File?
  {
    if paths == {} then 0
    else
      var p :| p in paths;
      |tree[p].content| + Size(tree, paths - {p})
  }

  /** Whichever file is taken first. */
  lemma {:induction false} SizeWithout(tree: Tree, paths: set<string>, p: string)
    requires p in paths && forall q :: q in paths ==> q in tree && tree[q].File?
    ensures Size(tree, paths) == |tree[p].content| + Size(tree, paths - {p})
  {
    var q :| q in paths && Size(tree, paths) == |tree[q].content| + Size(tree, paths - {q});
    if q != p {
      SizeWithout(tree, paths - {q}, p);
      SizeWithout(tree, paths - {p}, q);
      assert paths - {q} - {p} == paths - {p} - {q};
    }
  }

  /** What the collector demands of the tree and the given paths. */
  ghost predicate Collectable(tree: Tree, paths: seq<string>) {
    && paths != [] && (forall i :: 0 <= i < |paths| ==> PathOk(paths[i]))
    && (forall i, j :: 0 <= i < j < |paths| ==> paths[i] != paths[j])
    && Plain(tree) && Denominator(tree, Names(paths))
    && Size(tree, Names(paths)) <= MAX_SOURCE_BYTES
  }

  /** That is: distinct valid paths, nothing but directories and files with one link, the files being these and
      possibly the manifest, within 256 MiB. */
  lemma CollectableIff(tree: Tree, paths: seq<string>)
    ensures Collectable(tree, paths) <==>
            && paths != [] && (forall i :: 0 <= i < |paths| ==> PathOk(paths[i]))
            && (forall i, j :: 0 <= i < j < |paths| ==> paths[i] != paths[j])
            && (forall p :: p in tree ==> tree[p].Directory? || (tree[p].File? && tree[p].links == 1))
            && (forall p :: p in paths ==> p in tree && tree[p].File?)
            && (forall p :: p in tree && tree[p].File? && p != "release-manifest.json" ==> p in paths)
            && Size(tree, Names(paths)) <= 268_435_456
  {
    hide PathOk, Size;
  }

  /** Rows for exactly these paths, each describing its file. */
  ghost predicate RowsFor(tree: Tree, rows: seq<Row>, paths: set<string>, hash: string -> string) {
    && (forall i :: 0 <= i < |rows| ==> Describes(tree, rows[i], hash))
    && PathsDiffer(rows)
    && (forall p :: Lists(rows, p) <==> p in paths)
  }

  lemma RowsDescribe(tree: Tree, rows: seq<Row>, paths: set<string>, hash: string -> string)
    requires RowsFor(tree, rows, paths, hash)
    ensures forall i :: 0 <= i < |rows| ==>
              && rows[i].path in tree && tree[rows[i].path].File? && tree[rows[i].path].links == 1
              && rows[i].bytes == |tree[rows[i].path].content| && rows[i].digest == hash(tree[rows[i].path].content)
  {
  }

  /** _collect_rows on a tree that does not change meanwhile: it lists exactly the given paths, and refuses
      only what it must. */
  method CollectRows(tree: Tree, paths: seq<string>, hash: string -> string) returns (r: Option<seq<Row>>)
    ensures r.Some? <==> Collectable(tree, paths)
    ensures r.Some? ==> RowsFor(tree, r.value, Names(paths), hash)
    ensures r.Some? ==> forall i :: 0 <= i < |r.value| ==>
              var row := r.value[i];
              && row.path in tree && tree[row.path].File? && tree[row.path].links == 1
              && row.bytes == |tree[row.path].content| && row.digest == hash(tree[row.path].content)
    ensures r.Some? ==> Total(r.value) == Size(tree, Names(paths))
  {
    hide PathOk, Describes, PathsDiffer, Lists, Total, Size;
    var expected := Names(paths);
    if paths == [] || (exists i :: 0 <= i < |paths| && !PathOk(paths[i]))
       || (exists i, j :: 0 <= i < j < |paths| && paths[i] == paths[j])
       || !Plain(tree) || !Denominator(tree, expected) {
      return None;
    }
    assert forall p :: p in expected ==> p in tree && tree[p].File? && tree[p].links == 1;
    var rows: seq<Row>, total, pending := [], 0, expected;
    NoRows(tree, hash);
    while pending != {}
      invariant pending <= expected && total == Total(rows) <= MAX_SOURCE_BYTES
      invariant Size(tree, expected) == total + Size(tree, pending)
      invariant RowsFor(tree, rows, expected - pending, hash)
    {
      var name :| name in pending;
      var content := tree[name].content;
      SizeWithout(tree, pending, name);
      if |content| > MAX_SOURCE_BYTES - total { return None; }
      total := total + |content|;
      RowAdded(tree, rows, expected - pending, name, hash);
      rows := rows + [Row(name, |content|, hash(content))];
      assert expected - (pending - {name}) == expected - pending + {name};
      pending := pending - {name};
    }
    assert expected - pending == expected;
    RowsDescribe(tree, rows, expected, hash);
    r := Some(rows);
  }

  lemma NoRows(tree: Tree, hash: string -> string)
    ensures RowsFor(tree, [], {}, hash) && Total([]) == 0 && Size(tree, {}) == 0
  {
  }

  lemma RowAdded(tree: Tree, rows: seq<Row>, paths: set<string>, name: string, hash: string -> string)
    requires RowsFor(tree, rows, paths, hash) && name !in paths && name in tree && tree[name].File? &&
        tree[name].links == 1
    ensures var row := Row(name, |tree[name].content|, hash(tree[name].content));
            RowsFor(tree, rows + [row], paths + {name}, hash) && Total(rows + [row]) == Total(rows) + row.bytes
  {
    var row := Row(name, |tree[name].content|, hash(tree[name].content));
    ListsAppend(rows, row);
    assert (rows + [row])[..|rows|] == rows;
    assert forall i :: 0 <= i < |rows| ==> Lists(rows, rows[i].path);
  }

  lemma ListsAppend(rows: seq<Row>, row: Row)
    ensures forall p :: Lists(rows + [row], p) <==> Lists(rows, p) || p == row.path
  {
    forall p ensures Lists(rows + [row], p) <==> Lists(rows, p) || p == row.path {
      if Lists(rows, p) {
        var i :| 0 <= i < |rows| && rows[i].path == p;
        assert (rows + [row])[i].path == p;
      }
      assert (rows + [row])[|rows|].path == row.path;
    }
  }

  /** The rows below tests/, or the others. */
  function Part(rows: seq<Row>, tests: bool): seq<Row> {
    if rows == [] then []
    else Part(rows[..|rows| - 1], tests) + if Test(rows[|rows| - 1].path) == tests then [rows[|rows| - 1]] else []
  }

  // ----- the verifier

  predicate RowOk(row: Row) { row.bytes >= 0 && Hex64(row.digest) && PathOk(row.path) }

  /** The files of the tree are those that the rows list, and the manifest. */
  ghost predicate FilesAre(tree: Tree, rows: seq<Row>) {
    forall p :: (p in tree && tree[p].File?) <==> Lists(rows, p) || p == MANIFEST
  }

  lemma FilesAreIff(tree: Tree, rows: seq<Row>, listed: set<string>)
    requires forall p :: p in listed <==> Lists(rows, p)
    ensures FilesAre(tree, rows) <==> (set p | p in tree && tree[p].File?) == listed + {MANIFEST}
  {
    var files := set p | p in tree && tree[p].File?;
    if FilesAre(tree, rows) {
      assert files == listed + {MANIFEST};
    }
    if files == listed + {MANIFEST} {
      forall p ensures (p in tree && tree[p].File?) <==> Lists(rows, p) || p == MANIFEST {
        assert p in files <==> p in listed + {MANIFEST};
      }
    }
  }

  /** What the verifier promises of an accepted release. */
  ghost predicate Matches(tree: Tree, release: Release, hash: string -> string, decode: string -> Option<Release>) {
    var rows := release.payload + release.sourceOnly;
    && release.sound && release.payload != []
    && (forall i :: 0 <= i < |rows| ==> RowOk(rows[i]) && Describes(tree, rows[i], hash))
    && PathsDiffer(rows) && Total(rows) <= MAX_SOURCE_BYTES
    && (forall p :: p in tree ==> !tree[p].Irregular?)
    && FilesAre(tree, rows)
    && tree[MANIFEST].links == 1 && |tree[MANIFEST].content| <= MAX_MANIFEST_BYTES
    && decode(tree[MANIFEST].content) == Some(release)
  }

  /** verify_source: accepted exactly when the release and the tree match. */
  method VerifySource(tree: Tree, release: Release, hash: string -> string,
      decode: string -> Option<Release>) returns (accepted: bool)
    ensures accepted <==> Matches(tree, release, hash, decode)
  {
    hide RowOk, Lists, PathsDiffer, Total, FilesAre;
    var rows := release.payload + release.sourceOnly;
    if !release.sound || release.payload == [] { return false; }
    var readable, expected := ReadRows(rows);
    if !readable || Total(rows) > MAX_SOURCE_BYTES { return false; }
    if exists p :: p in tree && tree[p].Irregular? { return false; }
    var actual := set p | p in tree && tree[p].File?;
    FilesAreIff(tree, rows, expected.Keys);
    if actual != expected.Keys + {MANIFEST} { return false; }
    assert MANIFEST in actual;
    var manifest := tree[MANIFEST];
    if manifest.links != 1 || |manifest.content| > MAX_MANIFEST_BYTES { return false; }
    if decode(manifest.content) != Some(release) { return false; }
    var names := expected.Keys;
    while names != {}
      invariant names <= expected.Keys
      invariant forall p :: p in expected && p !in names ==> Describes(tree, expected[p], hash)
    {
      var name :| name in names;
      names := names - {name};
      assert name in actual;
      var row := expected[name];
      assert row in rows;
      var file := tree[name];
      if file.links != 1 || |file.content| > row.bytes { return false; }
      if |file.content| != row.bytes || hash(file.content) != row.digest {
        assert !Describes(tree, row, hash);
        return false;
      }
    }
    accepted := true;
  }

  /** The dictionary of the rows by path: denied when a row is malformed or a path comes twice. */
  method ReadRows(rows: seq<Row>) returns (ok: bool, expected: map<string, Row>)
    ensures ok <==> (forall i :: 0 <= i < |rows| ==> RowOk(rows[i])) && PathsDiffer(rows)
    ensures ok ==> forall p :: p in expected <==> Lists(rows, p)
    ensures ok ==> forall i :: 0 <= i < |rows| ==> rows[i].path in expected && expected[rows[i].path] == rows[i]
    ensures ok ==> forall p :: p in expected ==> expected[p] in rows && expected[p].path == p
  {
    hide RowOk;
    expected := map[];
    for i := 0 to |rows|
      invariant forall k :: 0 <= k < i ==> RowOk(rows[k])
      invariant forall k :: 0 <= k < i ==> rows[k].path in expected && expected[rows[k].path] == rows[k]
      invariant forall p :: p in expected ==> expected[p].path == p && exists k :: 0 <= k < i && rows[k] == expected[p]
      invariant forall j, k :: 0 <= j < k < i ==> rows[j].path != rows[k].path
    {
      if !RowOk(rows[i]) { return false, expected; }
      if rows[i].path in expected {
        var k :| 0 <= k < i && rows[k] == expected[rows[i].path];
        return false, expected;
      }
      expected := expected[rows[i].path := rows[i]];
    }
    ok := true;
  }


  // ----- both together

  lemma {:induction false} TotalOfTwo(a: seq<Row>, b: seq<Row>)
    ensures Total(a + b) == Total(a) + Total(b)
  {
    if b == [] {
      assert a + b == a;
    } else {
      assert (a + b)[..|a + b| - 1] == a + b[..|b| - 1];
      TotalOfTwo(a, b[..|b| - 1]);
    }
  }

  lemma {:induction false} PartIsSelection(rows: seq<Row>, tests: bool)
    ensures forall r :: r in Part(rows, tests) <==> r in rows && Test(r.path) == tests
  {
    hide Test;
    if rows != [] {
      PartIsSelection(rows[..|rows| - 1], tests);
      assert rows == rows[..|rows| - 1] + [rows[|rows| - 1]];
    }
  }

  lemma {:induction false} PartPathsDiffer(rows: seq<Row>, tests: bool)
    requires PathsDiffer(rows)
    ensures PathsDiffer(Part(rows, tests))
  {
    hide Test;
    if rows != [] {
      var before := rows[..|rows| - 1];
      PartPathsDiffer(before, tests);
      PartIsSelection(before, tests);
      var kept := Part(before, tests);
      forall i | 0 <= i < |kept| ensures kept[i].path != rows[|rows| - 1].path {
        assert kept[i] in before;
      }
    }
  }

  lemma TotalOfNone()
    ensures Total([]) == 0
  {
  }

  lemma TotalOfOneMore(rows: seq<Row>, row: Row)
    ensures Total(rows + [row]) == Total(rows) + row.bytes
  {
    assert (rows + [row])[..|rows|] == rows;
  }

  lemma {:induction false} PartTotals(rows: seq<Row>)
    ensures Total(Part(rows, false)) + Total(Part(rows, true)) == Total(rows)
  {
    hide Test, Total;
    if rows == [] {
      TotalOfNone();
    } else {
      var before, last := rows[..|rows| - 1], rows[|rows| - 1];
      PartTotals(before);
      TotalOfOneMore(before, last);
      var same, other := Part(before, Test(last.path)), Part(before, !Test(last.path));
      TotalOfOneMore(same, last);
      assert rows == before + [last];
      assert Part(rows, Test(last.path)) == same + [last];
      assert Part(rows, !Test(last.path)) == other + [] == other;
    }
  }

  lemma PartOfRows(rows: seq<Row>, tests: bool)
    requires PathsDiffer(rows)
    ensures forall r :: r in Part(rows, tests) <==> r in rows && Test(r.path) == tests
    ensures PathsDiffer(Part(rows, tests))
    ensures Total(Part(rows, false)) + Total(Part(rows, true)) == Total(rows)
  {
    PartIsSelection(rows, tests);
    PartPathsDiffer(rows, tests);
    PartTotals(rows);
  }

  lemma ListsIsMembership(rows: seq<Row>)
    ensures forall p :: Lists(rows, p) <==> exists r :: r in rows && r.path == p
  {
  }

  /** The two parts together list the same files with the same total. */
  lemma PartsAreRows(tree: Tree, rows: seq<Row>, paths: set<string>, hash: string -> string)
    requires RowsFor(tree, rows, paths, hash)
    ensures var parts := Part(rows, false) + Part(rows, true);
            RowsFor(tree, parts, paths, hash) && Total(parts) == Total(rows)
  {
    hide Total, Lists, Part, Describes, Test;
    var payload, tests := Part(rows, false), Part(rows, true);
    PartOfRows(rows, false);
    PartOfRows(rows, true);
    TotalOfTwo(payload, tests);
    ListsIsMembership(rows);
    ListsIsMembership(payload + tests);
    assert forall r :: r in payload + tests <==> r in rows;
    assert forall i :: 0 <= i < |payload + tests| ==> (payload + tests)[i] in rows;
    forall i, j | 0 <= i < j < |payload + tests| ensures (payload + tests)[i].path != (payload + tests)[j].path {
      if i < |payload| <= j {
        assert payload[i] in payload && tests[j - |payload|] in tests;
      }
    }
  }

  /** The tree with the release stored in it. */
  function Stored(tree: Tree, text: string): Tree { tree[MANIFEST := File(text, 1)] }

  lemma StoringKeepsRows(tree: Tree, rows: seq<Row>, paths: set<string>, text: string, hash: string -> string)
    requires RowsFor(tree, rows, paths, hash) && Plain(tree) && Denominator(tree, paths) && MANIFEST !in paths
    ensures forall i :: 0 <= i < |rows| ==> Describes(Stored(tree, text), rows[i], hash)
    ensures FilesAre(Stored(tree, text), rows) && forall p :: p in Stored(tree, text) ==>
        !Stored(tree, text)[p].Irregular?
  {
  }

  /** Collect, store as the manifest, verify, with the tree otherwise unchanged: the release is accepted
      exactly when some path is not a test and the stored text is within its own limit. */
  method CollectThenVerify(tree: Tree, paths: seq<string>, text: string, hash: string -> string,
      decode: string -> Option<Release>)
    returns (collected: bool, release: Release, accepted: bool)
    requires forall c :: Hex64(hash(c))
    ensures collected <==> Collectable(tree, paths)
    ensures collected && decode(text) == Some(release) ==>
              (accepted <==> (exists i :: 0 <= i < |paths| && !("tests/" <= paths[i])) && |text| <= 1_048_576)
  {
    hide Describes, Total, Size, Part, Hex64, PathsDiffer, FilesAre, Lists, Normalized, Split, Root, Denominator;
    var r := CollectRows(tree, paths, hash);
    collected, release, accepted := false, Release(true, [], []), false;
    if r.Some? {
      collected := true;
      var payload, tests := Part(r.value, false), Part(r.value, true);
      release := Release(true, payload, tests);
      accepted := VerifySource(Stored(tree, text), release, hash, decode);
      PartsAreRows(tree, r.value, Names(paths), hash);
      StoringKeepsRows(tree, payload + tests, Names(paths), text, hash);
      RowsAreOk(tree, paths, payload + tests, hash);
      PayloadIsNonEmpty(tree, r.value, paths, hash);
    }
  }

  lemma RowsAreOk(tree: Tree, paths: seq<string>, rows: seq<Row>, hash: string -> string)
    requires RowsFor(tree, rows, Names(paths), hash) && forall c :: Hex64(hash(c))
    requires forall i :: 0 <= i < |paths| ==> PathOk(paths[i])
    ensures forall i :: 0 <= i < |rows| ==> RowOk(rows[i])
  {
    hide PathOk, Hex64;
    forall i | 0 <= i < |rows| ensures RowOk(rows[i]) {
      assert Lists(rows, rows[i].path);
      var k :| 0 <= k < |paths| && paths[k] == rows[i].path;
    }
  }

  lemma PayloadIsNonEmpty(tree: Tree, rows: seq<Row>, paths: seq<string>, hash: string -> string)
    requires RowsFor(tree, rows, Names(paths), hash)
    ensures Part(rows, false) != [] <==> exists i :: 0 <= i < |paths| && !Test(paths[i])
  {
    PartOfRows(rows, false);
    ListsIsMembership(rows);
    if Part(rows, false) != [] {
      var r := Part(rows, false)[0];
      assert r in rows && Lists(rows, r.path);
      var k :| 0 <= k < |paths| && paths[k] == r.path;
    }
    if i :| 0 <= i < |paths| && !Test(paths[i]) {
      assert Lists(rows, paths[i]);
      var r :| r in rows && r.path == paths[i];
      assert r in Part(rows, false);
    }
  }

  /** An accepted release accounts for every byte of the tree but the manifest's, within the budget. */
  lemma {:induction false} TotalIsSize(tree: Tree, rows: seq<Row>, paths: set<string>, hash: string -> string)
    requires RowsFor(tree, rows, paths, hash) && forall p :: p in paths ==> p in tree && tree[p].File?
    ensures Total(rows) == Size(tree, paths)
  {
    if rows == [] {
      assert forall p :: p in paths ==> Lists(rows, p);
      assert paths == {};
    } else {
      var before, last := rows[..|rows| - 1], rows[|rows| - 1];
      assert rows == before + [last];
      ListsAppend(before, last);
      assert Lists(rows, last.path);
      assert !Lists(before, last.path);
      assert Describes(tree, last, hash);
      TotalIsSize(tree, before, paths - {last.path}, hash);
      SizeWithout(tree, paths, last.path);
    }
  }

  lemma AcceptedTreeIsAccountedFor(tree: Tree, release: Release, hash: string -> string,
      decode: string -> Option<Release>)
    requires Matches(tree, release, hash, decode)
    ensures var files := set p | p in tree && tree[p].File? && p != MANIFEST;
            && RowsFor(tree, release.payload + release.sourceOnly, files, hash)
            && Size(tree, files) == Total(release.payload + release.sourceOnly) <= 268_435_456
            && forall row :: row in release.payload + release.sourceOnly ==>
                 && row.path in files && tree[row.path].links == 1
                 && row.bytes == |tree[row.path].content| && row.digest == hash(tree[row.path].content)
                 && |row.digest| == 64 && (forall d :: d in row.digest ==> d in "0123456789abcdef")
                 && forall name :: name in Split(row.path) ==> name != "" && name != "." && name != ".."
    ensures MANIFEST in tree && tree[MANIFEST].File? && |tree[MANIFEST].content| <= 1_048_576
    ensures decode(tree[MANIFEST].content) == Some(release)
  {
    hide PathOk, Hex64, Total, Size, Split;
    var rows := release.payload + release.sourceOnly;
    var files := set p | p in tree && tree[p].File? && p != MANIFEST;
    forall p ensures Lists(rows, p) <==> p in files {
      if Lists(rows, p) {
        var i :| 0 <= i < |rows| && rows[i].path == p;
        assert RowOk(rows[i]);
        PathOkIff(p);
      }
    }
    TotalIsSize(tree, rows, files, hash);
    forall row | row in rows
      ensures row.path in files && RowOk(row) && Describes(tree, row, hash) && |row.digest| == 64
      ensures forall d :: d in row.digest ==> d in "0123456789abcdef"
      ensures forall name :: name in Split(row.path) ==> name != "" && name != "." && name != ".."
    {
      var i :| 0 <= i < |rows| && rows[i] == row;
      assert Lists(rows, row.path);
      PathOkIff(row.path);
      Hex64Iff(row.digest);
    }
  }

  lemma Hex64Iff(d: string)
    ensures Hex64(d) <==> |d| == 64 && forall c :: c in d ==> c in "0123456789abcdef"
  {
    assert forall c :: c in "0123456789abcdef" <==> '0' <= c <= '9' || 'a' <= c <= 'f';
    if |d| == 64 && forall c :: c in d ==> c in "0123456789abcdef" {
      forall i | 0 <= i < |d| ensures '0' <= d[i] <= '9' || 'a' <= d[i] <= 'f' { assert d[i] in d; }
    }
  }
}

/** pathlib's PurePosixPath as far as the installer asks it: components, normal form, absoluteness. */
module PosixPaths {

  /** str.split("/"). */
  function Split(s: string): (r: seq<string>)
    ensures r != [] && forall c :: c in r ==> '/' !in c
  {
    if s == "" then [""]
    else
      var rest := Split(s[1..]);
      if s[0] == '/' then [""] + rest else [[s[0]] + rest[0]] + rest[1..]
  }

  /** "/".join. */
  function Join(parts: seq<string>): string {
    if parts == [] then "" else if |parts| == 1 then parts[0] else parts[0] + "/" + Join(parts[1..])
  }

  /** One slash, or exactly two. */
  function Root(s: string): (root: string)
    ensures root <= s && |root| <= 2
  {
    if "//" <= s && !("///" <= s) then "//" else if "/" <= s then "/" else ""
  }

  /** Two slashes count only where no third one follows. */
  lemma RootIff(s: string)
    ensures Root(s) == if s == "" || s[0] != '/' then "" else if |s| == 1 || s[1] != '/' then "/"
                       else if |s| == 2 || s[2] != '/' then "//" else "/"
  {
  }

  function Proper(parts: seq<string>): (r: seq<string>) {
    if parts == [] then []
    else (if parts[0] == "" || parts[0] == "." then [] else [parts[0]]) + Proper(parts[1..])
  }

  /** The components, without the root. */
  function Parts(s: string): seq<string> { Proper(Split(s)) }

  /** str(PurePosixPath(s)). */
  function Normalized(s: string): string {
    if Root(s) == "" && Parts(s) == [] then "." else Root(s) + Join(Parts(s))
  }

  lemma {:induction false} JoinOfSplit(s: string)
    ensures Join(Split(s)) == s
  {
    if s != "" {
      JoinOfSplit(s[1..]);
      var rest := Split(s[1..]);
      if s[0] == '/' {
        assert ([""] + rest)[1..] == rest;
      } else if |rest| > 1 {
        assert ([[s[0]] + rest[0]] + rest[1..])[1..] == rest[1..];
        assert [s[0]] + (rest[0] + "/" + Join(rest[1..])) == s;
      }
      assert s == [s[0]] + s[1..];
    }
  }

  lemma {:induction false} SplitOfText(c: string)
    requires '/' !in c
    ensures Split(c) == [c]
  {
    if c != "" {
      SplitOfText(c[1..]);
      assert [c[0]] + c[1..] == c;
    }
  }

  lemma {:induction false} SplitAfter(c: string, rest: string)
    requires '/' !in c
    ensures Split(c + "/" + rest) == [c] + Split(rest)
  {
    var s := c + "/" + rest;
    if c == "" {
      assert s[1..] == rest;
    } else {
      assert s[1..] == c[1..] + "/" + rest;
      SplitAfter(c[1..], rest);
      var after := [c[1..]] + Split(rest);
      assert after[1..] == Split(rest) && [c[0]] + c[1..] == c;
    }
  }

  lemma {:induction false} SplitOfJoin(parts: seq<string>)
    requires parts != [] && forall c :: c in parts ==> '/' !in c
    ensures Split(Join(parts)) == parts
  {
    if |parts| == 1 {
      SplitOfText(parts[0]);
    } else {
      SplitOfJoin(parts[1..]);
      SplitAfter(parts[0], Join(parts[1..]));
    }
  }

  /** No component that normalization drops. */
  predicate Clean(parts: seq<string>) { forall c :: c in parts ==> c != "" && c != "." }

  lemma {:induction false} ProperIsClean(parts: seq<string>)
    ensures Clean(Proper(parts)) && (forall c :: c in Proper(parts) <==> c in parts && c != "" && c != ".")
    ensures Clean(parts) ==> Proper(parts) == parts
  {
    if parts != [] {
      ProperIsClean(parts[1..]);
      assert [parts[0]] + parts[1..] == parts && parts[0] in parts;
      assert forall c :: c in parts[1..] ==> c in parts;
    }
  }

  lemma ProperOfRooted(parts: seq<string>)
    requires parts != [] && parts[0] == ""
    ensures Proper(parts) == Proper(parts[1..])
  {
  }

  lemma DotHasNoParts()
    ensures Parts(".") == []
  {
    SplitOfText(".");
  }

  /** A relative text is its own normal form exactly when it is "." or has only proper components. */
  lemma NormalizedIffClean(s: string)
    requires Root(s) == ""
    ensures Normalized(s) == s <==> s == "." || Clean(Split(s))
  {
    hide Split, Join, Proper;
    ProperIsClean(Split(s));
    JoinOfSplit(s);
    DotHasNoParts();
    assert "" + Join(Parts(s)) == Join(Parts(s));
    if Parts(s) != [] { SplitOfJoin(Parts(s)); }
  }

  lemma PartsBelowRoot(s: string)
    requires Root(s) == "/"
    ensures Parts(s) == Proper(Split(s[1..]))
  {
    var rest := s[1..];
    assert s == "/" + rest && Split(s) == [""] + Split(rest);
    ProperOfRooted(Split(s));
    assert Split(s)[1..] == Split(rest);
  }

  /** An absolute text with one leading slash is its own normal form exactly when it is the root or what
      follows the slash has only proper components. */
  lemma RootedIffClean(s: string)
    requires Root(s) == "/"
    ensures Normalized(s) == s <==> s == "/" || Clean(Split(s[1..]))
  {
    var rest := s[1..];
    PartsBelowRoot(s);
    ProperIsClean(Split(rest));
    JoinOfSplit(rest);
    if Normalized(s) == s {
      assert Join(Parts(s)) == rest;
      if Parts(s) != [] { SplitOfJoin(Parts(s)); }
    }
  }
}

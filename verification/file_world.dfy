/** The part of a file system that the first-install transaction relies on: names bound to
    inodes.  Inode numbers are fresh when created and are never reused. */
module FileWorld {

  import opened Wrappers

  type Inode = nat

  /** What one inode carries.  Digests are injective, so they are left out and contents compared. */
  datatype Image = Image(content: string, mode: nat, uid: nat, gid: nat)

  /** Target: a payload or generated file.  Temporary: the `.kernel-<random>` staging name beside it.
      Preimage and Retained: entries of the root-private rollback directory, keyed by the target. */
  datatype Name =
    | Target(path: string)
    | Temporary(nonce: nat)
    | Preimage(path: string)
    | Retained(path: string)

  type Names = map<Name, Inode>

  predicate Private(n: Name) { n.Preimage? || n.Retained? }

  /** All the hard links of an inode; its link count is the size of this set. */
  function LinksTo(names: Names, i: Inode): set<Name> {
    set n | n in names && names[n] == i
  }

  /** rename(2): when both names are links to one inode it does nothing (POSIX.1-2017, rename). */
  function Rename(names: Names, source: Name, destination: Name): Names
    requires source in names
  {
    if destination in names && names[destination] == names[source] then names
    else (names - {source})[destination := names[source]]
  }

  lemma BindLinks(names: Names, n: Name, i: Inode)
    requires n !in names
    ensures LinksTo(names[n := i], i) == LinksTo(names, i) + {n}
    ensures forall j {:trigger LinksTo(names[n := i], j)} {:trigger LinksTo(names, j)} ::
              j != i ==> LinksTo(names[n := i], j) == LinksTo(names, j)
  {
  }

  lemma UnbindLinks(names: Names, n: Name)
    requires n in names
    ensures LinksTo(names - {n}, names[n]) == LinksTo(names, names[n]) - {n}
    ensures forall j {:trigger LinksTo(names - {n}, j)} {:trigger LinksTo(names, j)} ::
              j != names[n] ==> LinksTo(names - {n}, j) == LinksTo(names, j)
  {
  }

  lemma RenameLinks(names: Names, source: Name, destination: Name)
    requires source in names && source != destination
    requires destination in names ==> names[destination] != names[source]
    ensures var after := Rename(names, source, destination);
            var i := names[source];
            && LinksTo(after, i) == LinksTo(names, i) - {source} + {destination}
            && (destination in names ==>
                  LinksTo(after, names[destination]) == LinksTo(names, names[destination]) - {destination})
    ensures forall j {:trigger LinksTo(Rename(names, source, destination), j)} {:trigger LinksTo(names, j)} ::
              j != names[source] && (destination in names ==> j != names[destination]) ==>
                LinksTo(Rename(names, source, destination), j) == LinksTo(names, j)
  {
  }

  /** Why undoing a hard-linked target must unlink the second name: renaming it back is a no-op. */
  lemma RenameOfTwinLinksKeepsBoth(names: Names, source: Name, destination: Name)
    requires source in names && destination in names && source != destination
    requires names[source] == names[destination]
    ensures {source, destination} <= LinksTo(Rename(names, source, destination), names[source])
    ensures |LinksTo(Rename(names, source, destination), names[source])| >= 2
  {
    var links := LinksTo(names, names[source]);
    assert |links| == |links - {source, destination}| + |{source, destination}|;
  }
}

/** Backup archives: what CreateFullBackup packs and what Restore makes of it. */
module Archive {
  import opened Text

  type Path = seq<string>
  type Bytes = seq<bv8>
  datatype Node = Dir | File(content: Bytes)

  /** The data directory, by path relative to it. */
  type Tree = map<Path, Node>

  datatype TarEntry = TarEntry(name: string, node: Node)
  datatype Outcome = Outcome(tree: Tree, ok: bool)

  const SERVICES := "services"
  const DATABASE := "talos.db"

  predicate CleanPath(p: Path)
  {
    forall c | c in p :: c != "" && '/' !in c
  }

  /** Every path hangs below a directory. */
  ghost predicate WellFormed(t: Tree)
  {
    && [] in t && t[[]].Dir?
    && forall p | p in t :: CleanPath(p) && (p != [] ==> p[..|p| - 1] in t && t[p[..|p| - 1]].Dir?)
  }

  function NameOf(p: Path): string
  {
    Join(p, '/')
  }

  function PathOf(name: string): Path
  {
    Split(name, '/')
  }

  /** filepath.Walk from the services directory: everything below it once, parents first. */
  ghost predicate Walks(t: Tree, walk: seq<Path>)
  {
    && (forall p :: p in walk <==> p in t && p != [] && p[0] == SERVICES)
    && (forall i, j | 0 <= i < j < |walk| :: walk[i] != walk[j])
    && (forall j | 0 <= j < |walk| && |walk[j]| > 1 :: walk[j][..|walk[j]| - 1] in walk[..j])
  }

  function WalkEntries(t: Tree, walk: seq<Path>): (es: seq<TarEntry>)
    requires forall p | p in walk :: p in t
    ensures |es| == |walk| && forall i :: 0 <= i < |es| ==> es[i] == TarEntry(NameOf(walk[i]), t[walk[i]])
  {
    seq(|walk|, i requires 0 <= i < |walk| => TarEntry(NameOf(walk[i]), t[walk[i]]))
  }

  /** The archive: the database snapshot, then the services if there are any. */
  function Packed(t: Tree, db: Bytes, walk: seq<Path>): seq<TarEntry>
    requires forall p | p in walk :: p in t
  {
    [TarEntry(DATABASE, File(db))] + WalkEntries(t, walk)
  }

  // Restore.

  predicate BlockedByFile(t: Tree, p: Path)
  {
    exists i | 0 <= i <= |p| :: p[..i] in t && t[p[..i]].File?
  }

  function WithDirs(t: Tree, p: Path): Tree
    decreases |p|
  {
    var above := if p == [] then t else WithDirs(t, p[..|p| - 1]);
    if p in above then above else above[p := Dir]
  }

  /** os.MkdirAll: fails, without a change, when a file is in the way. */
  function MkdirAll(t: Tree, p: Path): Outcome
  {
    if BlockedByFile(t, p) then Outcome(t, false) else Outcome(WithDirs(t, p), true)
  }

  /** extractFile: the directories above, then create or truncate the file. */
  function Extract(t: Tree, p: Path, content: Bytes): Outcome
    requires p != []
  {
    var above := MkdirAll(t, p[..|p| - 1]);
    if !above.ok then above
    else if p in above.tree && above.tree[p].Dir? then Outcome(above.tree, false)
    else Outcome(above.tree[p := File(content)], true)
  }

  predicate InServices(name: string)
  {
    |name| > |SERVICES + "/"| && name[..|SERVICES + "/"|] == SERVICES + "/"
  }

  /** A database entry is extracted whatever its kind; what is neither that nor below services
      is skipped, the services directory itself included. */
  function RestoreEntry(t: Tree, e: TarEntry): Outcome
  {
    if e.name == DATABASE then Extract(t, [DATABASE], if e.node.File? then e.node.content else [])
    else if !InServices(e.name) then Outcome(t, true)
    else if e.node.Dir? then MkdirAll(t, PathOf(e.name))
    else Extract(t, PathOf(e.name), e.node.content)
  }

  function RestoreAll(t: Tree, es: seq<TarEntry>): Outcome
    decreases |es|
  {
    if es == [] then Outcome(t, true)
    else
      var r := RestoreEntry(t, es[0]);
      if !r.ok then r else RestoreAll(r.tree, es[1..])
  }

  class DataDir {
    var tree: Tree

    /** The archive part of CreateFullBackup; the walk comes in the order of filepath.Walk. */
    method Pack(db: Bytes, walk: seq<Path>) returns (archive: seq<TarEntry>)
      requires forall p | p in walk :: p in tree
      ensures archive == Packed(tree, db, walk)
      ensures |archive| == |walk| + 1 && archive[0] == TarEntry("talos.db", File(db))
      ensures forall i :: 0 <= i < |walk| ==> archive[i + 1] == TarEntry(Join(walk[i], '/'), tree[walk[i]])
    {
      archive := [TarEntry(DATABASE, File(db))];
      for i := 0 to |walk|
        invariant archive == [TarEntry(DATABASE, File(db))] + WalkEntries(tree, walk)[..i]
      {
        archive := archive + [TarEntry(NameOf(walk[i]), tree[walk[i]])];
      }
    }

    method Restore(archive: seq<TarEntry>) returns (ok: bool)
      modifies this
      ensures Outcome(tree, ok) == RestoreAll(old(tree), archive)
    {
      assert archive[0..] == archive;
      for i := 0 to |archive|
        invariant RestoreAll(old(tree), archive) == RestoreAll(tree, archive[i..])
      {
        var e := archive[i];
        assert archive[i..][0] == e && archive[i..][1..] == archive[i + 1..];
        var r := RestoreEntry(tree, e);
        tree := r.tree;
        if !r.ok {
          return false;
        }
      }
      return true;
    }
  }

  // One entry, and where a restore stops.

  /** The directory path p and those above it. */
  function UpTo(p: Path): set<Path>
  {
    set i | 0 <= i <= |p| :: p[..i]
  }

  lemma UpToGrows(p: Path)
    requires p != []
    ensures UpTo(p) == UpTo(p[..|p| - 1]) + {p}
  {
    var up := p[..|p| - 1];
    forall i | 0 <= i < |p| ensures up[..i] == p[..i] && p[..i] in UpTo(up) {
      PrefixOfPrefix(p, |p| - 1, i);
    }
    assert p[..|p|] == p;
    forall q | q in UpTo(up) ensures q in UpTo(p) {
      var i :| 0 <= i <= |up| && up[..i] == q;
      assert p[..i] == q;
    }
  }

  lemma {:induction false} WithDirsExactly(t: Tree, p: Path)
    ensures WithDirs(t, p) == (map q | q in UpTo(p) :: Dir) + t
    decreases |p|
  {
    if p != [] {
      WithDirsExactly(t, p[..|p| - 1]);
      UpToGrows(p);
    } else {
      assert p[..0] == p && UpTo(p) == {p};
    }
  }

  /** Extracting a file succeeds exactly when nothing above it is a file and it is no directory;
      then it has the new content, what was missing above it are directories, and all else is
      as it was. */
  lemma ExtractExactly(t: Tree, p: Path, content: Bytes)
    requires p != []
    ensures var r := Extract(t, p, content);
      && (r.ok <==> (forall i | 0 <= i < |p| && p[..i] in t :: t[p[..i]].Dir?) && (p in t ==> t[p].File?))
      && (r.ok ==> r.tree == ((map q | q in UpTo(p) :: Dir) + t)[p := File(content)])
  {
    hide BlockedByFile;
    var up := p[..|p| - 1];
    WithDirsExactly(t, up);
    UpToGrows(p);
    AboveExactly(t, p);
    assert p !in UpTo(up);
  }

  lemma AboveExactly(t: Tree, p: Path)
    requires p != []
    ensures BlockedByFile(t, p[..|p| - 1]) <==> exists i | 0 <= i < |p| && p[..i] in t :: t[p[..i]].File?
  {
    var up := p[..|p| - 1];
    forall i | 0 <= i < |p| ensures up[..i] == p[..i] {
      PrefixOfPrefix(p, |p| - 1, i);
    }
    if BlockedByFile(t, up) {
      var i :| 0 <= i <= |up| && up[..i] in t && t[up[..i]].File?;
      assert p[..i] in t && t[p[..i]].File?;
    }
  }

  /** The database is put in the data directory, over whatever file is there. */
  lemma DatabaseIsExtracted(t: Tree, content: Bytes)
    requires [] in t && t[[]].Dir?
    ensures var r := RestoreEntry(t, TarEntry("talos.db", File(content)));
            (r.ok <==> !(["talos.db"] in t && t[["talos.db"]].Dir?)) && (r.ok ==> r.tree == t[["talos.db"] := File(content)])
  {
    hide Extract;
    ExtractExactly(t, [DATABASE], content);
    assert [DATABASE][..0] == [];
    assert UpTo([DATABASE]) == {[], [DATABASE]} by { UpToGrows([DATABASE]); }
  }

  /** What is neither the database nor below services/ is skipped. */
  lemma OthersAreSkipped(t: Tree, e: TarEntry)
    requires e.name != "talos.db" && !("services/" < e.name)
    ensures RestoreEntry(t, e) == Outcome(t, true)
  {
    assert SERVICES + "/" == "services/";
  }

  /** The first entry that cannot be restored ends the restore: what came before it is in
      place, and nothing after it is. */
  lemma {:induction false} StopsAtFirstFailure(t: Tree, es: seq<TarEntry>, i: nat)
    requires i < |es| && RestoreAll(t, es[..i]).ok && !RestoreEntry(RestoreAll(t, es[..i]).tree, es[i]).ok
    ensures RestoreAll(t, es) == RestoreEntry(RestoreAll(t, es[..i]).tree, es[i])
    decreases i
  {
    hide RestoreEntry;
    if i > 0 {
      assert es[..i][0] == es[0] && es[..i][1..] == es[1..][..i - 1] && es[1..][i - 1] == es[i];
      StopsAtFirstFailure(RestoreEntry(t, es[0]).tree, es[1..], i - 1);
    }
  }

  // The round trip.

  function Seen(walk: seq<Path>): set<Path>
  {
    set p | p in walk
  }

  /** What the archive puts back: the database and everything below the services directory,
      which itself comes along as soon as there is something below it. */
  ghost function Below(t: Tree, seen: set<Path>): Tree
    requires forall p | p in seen :: p in t
  {
    map p | p in t && ((p in seen && |p| > 1) || (p == [SERVICES] && exists q :: q in seen && |q| > 1))
      :: if p == [SERVICES] then Dir else t[p]
  }

  ghost function Contents(t: Tree, db: Bytes): Tree
  {
    Below(t, set p | p in t && p != [] && p[0] == SERVICES)[[DATABASE] := File(db)]
  }

  /** No path changes kind between directory and file. */
  ghost predicate SameKinds(now: Tree, archived: Tree)
  {
    forall p | p in archived && p in now :: now[p].Dir? == archived[p].Dir?
  }

  lemma NamesInServices(p: Path)
    requires CleanPath(p) && |p| > 1 && p[0] == SERVICES
    ensures var n := NameOf(p); InServices(n) && PathOf(n) == p && n != DATABASE
  {
    SplitOfJoin(p, '/');
    var rest := Join(p[1..], '/');
    assert NameOf(p) == SERVICES + ['/'] + rest;
    assert forall c | c in p[1..] :: c in p;
    JoinNotEmpty(p[1..]);
  }

  lemma JoinNotEmpty(p: Path)
    requires CleanPath(p) && p != []
    ensures Join(p, '/') != ""
  {
    assert p[0] in p;
  }

  lemma RootIsSkipped(t: Tree, n: Node)
    ensures RestoreEntry(t, TarEntry(NameOf([SERVICES]), n)) == Outcome(t, true)
  {
    assert |SERVICES| == 8 && |DATABASE| == 8 && SERVICES[0] != DATABASE[0];
  }

  /** The directories above p are there, but perhaps for the services directory. */
  ghost predicate Reachable(t: Tree, p: Path)
  {
    && |p| > 1 && p[0] == SERVICES && [] in t && t[[]].Dir?
    && (forall j | 2 <= j < |p| :: p[..j] in t && t[p[..j]].Dir?)
    && (|p| > 2 ==> [SERVICES] in t && t[[SERVICES]].Dir?)
  }

  lemma PrefixOfPrefix(p: Path, i: nat, j: nat)
    requires j <= i <= |p|
    ensures p[..i][..j] == p[..j]
  {
  }

  lemma {:induction false} WithDirsPresent(t: Tree, p: Path)
    requires forall j | 0 <= j <= |p| :: p[..j] in t
    ensures WithDirs(t, p) == t
    decreases |p|
  {
    assert p[..|p|] == p;
    if p != [] {
      var up := p[..|p| - 1];
      forall j | 0 <= j <= |up| ensures up[..j] in t {
        PrefixOfPrefix(p, |p| - 1, j);
      }
      WithDirsPresent(t, up);
    }
  }

  lemma MkdirAbove(t: Tree, p: Path)
    requires Reachable(t, p)
    ensures MkdirAll(t, p[..|p| - 1]) ==
              if [SERVICES] in t && t[[SERVICES]].File? then Outcome(t, false) else Outcome(t[[SERVICES] := Dir], true)
  {
    hide SERVICES;
    var up := p[..|p| - 1];
    assert p[..1] == [SERVICES] && up[..1] == [SERVICES] && up[..0] == [];
    forall j | 0 <= j <= |up| && j != 1 ensures up[..j] in t && t[up[..j]].Dir? {
      PrefixOfPrefix(p, |p| - 1, j);
    }
    if [SERVICES] in t {
      assert up[..1] in t;
      if t[[SERVICES]].Dir? {
        assert forall j | 0 <= j <= |up| :: up[..j] in t && t[up[..j]].Dir?;
        WithDirsPresent(t, up);
      } else {
        assert BlockedByFile(t, up);
      }
    } else {
      assert |p| == 2 && up == [SERVICES];
      WithDirsPresent(t, []);
    }
  }

  lemma BlockedAbove(t: Tree, p: Path)
    requires p != []
    ensures BlockedByFile(t, p) <==> BlockedByFile(t, p[..|p| - 1]) || (p in t && t[p].File?)
  {
    assert p[..|p|] == p;
    var up := p[..|p| - 1];
    forall j | 0 <= j <= |up| ensures up[..j] == p[..j] {
      PrefixOfPrefix(p, |p| - 1, j);
    }
    if BlockedByFile(t, p) {
      var i :| 0 <= i <= |p| && p[..i] in t && t[p[..i]].File?;
      if i <= |up| {
        assert up[..i] in t;
      }
    }
    if BlockedByFile(t, up) {
      var i :| 0 <= i <= |up| && up[..i] in t && t[up[..i]].File?;
      assert p[..i] in t;
    }
  }

  /** One archived path, restored where everything above it is in place. */
  lemma EntryRestored(t: Tree, p: Path, n: Node)
    requires Reachable(t, p) && CleanPath(p)
    ensures var r := RestoreEntry(t, TarEntry(NameOf(p), n));
      && (r.ok <==> !([SERVICES] in t && t[[SERVICES]].File?) && (p in t ==> t[p].Dir? == n.Dir?))
      && (r.ok ==> r.tree == t[[SERVICES] := Dir][p := n])
  {
    hide SERVICES, DATABASE, InServices, BlockedByFile;
    NamesInServices(p);
    MkdirAbove(t, p);
    if n.Dir? {
      BlockedAbove(t, p);
      assert WithDirs(t, p[..|p| - 1]) == t[[SERVICES] := Dir] || BlockedByFile(t, p[..|p| - 1]);
    }
  }

  lemma ParentWalked(t: Tree, walk: seq<Path>, i: nat)
    requires WellFormed(t) && Walks(t, walk) && i < |walk| && |walk[i]| > 1
    ensures var up := walk[i][..|walk[i]| - 1]; up in walk[..i] && up in t && t[up].Dir?
  {
    assert walk[i] in walk;
  }

  lemma {:induction false} ParentsWalked(t: Tree, walk: seq<Path>, i: nat, j: nat)
    requires WellFormed(t) && Walks(t, walk) && i < |walk| && 2 <= j < |walk[i]|
    ensures walk[i][..j] in Seen(walk[..i]) && walk[i][..j] in t && t[walk[i][..j]].Dir?
    decreases i
  {
    hide WellFormed, Walks;
    ParentWalked(t, walk, i);
    var p := walk[i];
    var up := p[..|p| - 1];
    if j < |up| {
      var k :| 0 <= k < i && walk[k] == up;
      ParentsWalked(t, walk, k, j);
      PrefixOfPrefix(p, |p| - 1, j);
      assert forall q | q in walk[..k] :: q in walk[..i];
    } else {
      assert p[..j] == up;
    }
  }

  lemma BelowAdds(t: Tree, seen: set<Path>, p: Path)
    requires (forall q | q in seen :: q in t) && p in t && p !in seen && (|p| > 1 ==> [SERVICES] in t)
    ensures |p| > 1 ==> Below(t, seen + {p}) == Below(t, seen)[[SERVICES] := Dir][p := t[p]] && p !in Below(t, seen)
    ensures |p| <= 1 ==> Below(t, seen + {p}) == Below(t, seen)
  {
    hide SERVICES;
    if |p| > 1 {
      assert p in seen + {p};
    }
  }

  lemma WalkVisits(t: Tree, walk: seq<Path>)
    requires Walks(t, walk)
    ensures forall p :: p in walk <==> p in t && p != [] && p[0] == SERVICES
    ensures forall i, j | 0 <= i < j < |walk| :: walk[i] != walk[j]
  {
    hide SERVICES;
  }

  lemma WalkGrows(t: Tree, walk: seq<Path>, i: nat)
    requires Walks(t, walk) && i < |walk|
    ensures var p := walk[i];
      && Seen(walk[..i + 1]) == Seen(walk[..i]) + {p} && p !in Seen(walk[..i])
      && p in t && p != [] && p[0] == SERVICES
      && (forall q | q in Seen(walk[..i + 1]) :: q in t)
  {
    hide SERVICES, Walks;
    WalkVisits(t, walk);
    assert walk[..i + 1] == walk[..i] + [walk[i]];
    assert walk[i] in walk;
    assert forall q | q in walk[..i] :: q in walk;
  }

  lemma {:induction false} ServicesAbove(t: Tree, p: Path)
    requires WellFormed(t) && p in t && p != [] && p[0] == SERVICES
    ensures [SERVICES] in t && (|p| > 1 ==> t[[SERVICES]].Dir?)
    decreases |p|
  {
    hide SERVICES;
    if |p| > 1 {
      ServicesAbove(t, p[..|p| - 1]);
      assert |p| == 2 ==> p[..1] == [SERVICES];
    } else {
      assert p == [SERVICES];
    }
  }

  /** The next path of the walk, on top of everything before it. */
  lemma NextIsReachable(t: Tree, walk: seq<Path>, i: nat, base: Tree)
    requires WellFormed(t) && Walks(t, walk) && i < |walk| && |walk[i]| > 1 && [] in base && base[[]].Dir?
    requires forall q | q in Seen(walk[..i]) :: q in t
    ensures Reachable(base + Below(t, Seen(walk[..i])), walk[i])
  {
    hide WellFormed, Walks, SERVICES, Below;
    var p, seen := walk[i], Seen(walk[..i]);
    WalkGrows(t, walk, i);
    ServicesAbove(t, p);
    BelowHasNoRoot(t, seen);
    forall j | 2 <= j < |p| ensures p[..j] in Below(t, seen) && Below(t, seen)[p[..j]].Dir? {
      ParentsWalked(t, walk, i, j);
      BelowHas(t, seen, p[..j]);
    }
    if |p| > 2 {
      ParentsWalked(t, walk, i, 2);
      BelowHas(t, seen, p[..2]);
    }
  }

  lemma BelowHas(t: Tree, seen: set<Path>, q: Path)
    requires (forall p | p in seen :: p in t) && q in seen && |q| > 1 && [SERVICES] in t
    ensures var part := Below(t, seen);
            q in part && part[q] == t[q] && [SERVICES] in part && part[[SERVICES]].Dir?
  {
  }

  lemma BelowHasNoRoot(t: Tree, seen: set<Path>)
    requires forall p | p in seen :: p in t
    ensures [] !in Below(t, seen)
  {
  }

  lemma RestoreHead(t: Tree, es: seq<TarEntry>, i: nat)
    requires i < |es|
    ensures RestoreAll(t, es[i..]) == var r := RestoreEntry(t, es[i]); if r.ok then RestoreAll(r.tree, es[i + 1..]) else r
  {
    assert es[i..][0] == es[i] && es[i..][1..] == es[i + 1..];
  }

  lemma AddedKinds(base: Tree, part: Tree, p: Path, n: Node)
    requires SameKinds(base, part) && p !in part && p != [SERVICES]
    requires [SERVICES] in part ==> part[[SERVICES]].Dir?
    ensures SameKinds(base, part[[SERVICES] := Dir][p := n]) <==>
              var now := base + part;
              !([SERVICES] in now && now[[SERVICES]].File?) && (p in now ==> now[p].Dir? == n.Dir?)
    ensures (base + part)[[SERVICES] := Dir][p := n] == base + part[[SERVICES] := Dir][p := n]
  {
    hide SERVICES;
    var whole := part[[SERVICES] := Dir][p := n];
    if SameKinds(base, whole) {
      assert [SERVICES] in whole && p in whole;
    }
  }

  lemma BelowMonotone(t: Tree, seen: set<Path>, more: set<Path>)
    requires seen <= more && forall q | q in more :: q in t
    ensures forall base :: SameKinds(base, Below(t, more)) ==> SameKinds(base, Below(t, seen))
  {
    hide SERVICES;
    assert forall p | p in Below(t, seen) :: p in Below(t, more) && Below(t, more)[p] == Below(t, seen)[p];
  }

  lemma {:induction false} WalkRestored(base: Tree, t: Tree, walk: seq<Path>, i: nat)
    requires WellFormed(t) && Walks(t, walk) && i <= |walk| && [] in base && base[[]].Dir?
    requires (forall p | p in Seen(walk) :: p in t) && (forall p | p in Seen(walk[..i]) :: p in t)
    requires SameKinds(base, Below(t, Seen(walk[..i])))
    ensures var r := RestoreAll(base + Below(t, Seen(walk[..i])), WalkEntries(t, walk)[i..]);
            (r.ok <==> SameKinds(base, Below(t, Seen(walk)))) && (r.ok ==> r.tree == base + Below(t, Seen(walk)))
    decreases |walk| - i
  {
    hide WellFormed, Walks, SERVICES, Below, RestoreEntry, Reachable, SameKinds;
    if i == |walk| {
      assert walk[..i] == walk;
    } else {
      var p, part, next := walk[i], Below(t, Seen(walk[..i])), Seen(walk[..i + 1]);
      WalkGrows(t, walk, i);
      RestoreHead(base + part, WalkEntries(t, walk), i);
      ServicesAbove(t, p);
      BelowAdds(t, Seen(walk[..i]), p);
      BelowMonotone(t, next, Seen(walk));
      if |p| <= 1 {
        assert p == [SERVICES];
        RootIsSkipped(base + part, t[p]);
        WalkRestored(base, t, walk, i + 1);
      } else {
        NextIsReachable(t, walk, i, base);
        PathIsClean(t, p);
        EntryRestored(base + part, p, t[p]);
        PartServices(t, Seen(walk[..i]));
        AddedKinds(base, part, p, t[p]);
        if SameKinds(base, Below(t, next)) {
          WalkRestored(base, t, walk, i + 1);
        }
      }
    }
  }

  lemma PathIsClean(t: Tree, p: Path)
    requires WellFormed(t) && p in t
    ensures CleanPath(p)
  {
  }

  lemma PartServices(t: Tree, seen: set<Path>)
    requires forall q | q in seen :: q in t
    ensures var part := Below(t, seen); [SERVICES] in part ==> part[[SERVICES]].Dir?
  {
  }

  lemma DatabaseRestored(now: Tree, db: Bytes)
    requires [] in now && now[[]].Dir?
    ensures RestoreEntry(now, TarEntry(DATABASE, File(db))) ==
              if [DATABASE] in now && now[[DATABASE]].Dir? then Outcome(now, false)
              else Outcome(now[[DATABASE] := File(db)], true)
  {
    assert [DATABASE][..0] == [];
    WithDirsPresent(now, []);
  }

  lemma DatabaseApart(base: Tree, part: Tree, db: Bytes)
    requires [DATABASE] !in part
    ensures base[[DATABASE] := File(db)] + part == base + part[[DATABASE] := File(db)]
    ensures SameKinds(base[[DATABASE] := File(db)], part) <==> SameKinds(base, part)
    ensures SameKinds(base, part[[DATABASE] := File(db)]) <==>
              SameKinds(base, part) && !([DATABASE] in base && base[[DATABASE]].Dir?)
  {
    hide DATABASE;
    var now, all := base[[DATABASE] := File(db)], part[[DATABASE] := File(db)];
    if SameKinds(base, all) {
      assert [DATABASE] in all;
    }
    if SameKinds(now, part) {
      assert forall p | p in part && p in base :: p in now && now[p] == base[p];
    }
  }

  /** The round trip: an archive of t restored over any other data directory. It succeeds if
      and only if no archived path has changed kind; then the result is that directory with
      the database, the directories below services and the file contents of the archive put
      back, and every other path, later additions included, as it was. */
  lemma RoundTripExactly(t: Tree, db: Bytes, walk: seq<Path>, now: Tree)
    requires WellFormed(t) && Walks(t, walk) && WellFormed(now)
    ensures (forall p | p in walk :: p in t)
    ensures var r := RestoreAll(now, Packed(t, db, walk));
      && (r.ok <==> SameKinds(now, Contents(t, db)))
      && (r.ok ==> r.tree == now + Contents(t, db))
  {
    hide SameKinds, RestoreEntry, Below, SERVICES, DATABASE;
    var es := Packed(t, db, walk);
    var base := now[[DATABASE] := File(db)];
    assert es[0..] == es && es[1..] == WalkEntries(t, walk)[0..];
    RestoreHead(now, es, 0);
    DatabaseRestored(now, db);
    assert Seen(walk) == set p | p in t && p != [] && p[0] == SERVICES;
    NothingBelow(t, walk, base);
    BelowHasNoDatabase(t, Seen(walk));
    DatabaseApart(now, Below(t, Seen(walk)), db);
    if !([DATABASE] in now && now[[DATABASE]].Dir?) {
      WalkRestored(base, t, walk, 0);
    }
  }

  lemma NothingBelow(t: Tree, walk: seq<Path>, base: Tree)
    ensures Seen(walk[..0]) == {} && Below(t, {}) == map[] && base + map[] == base && SameKinds(base, map[])
  {
  }

  lemma BelowHasNoDatabase(t: Tree, seen: set<Path>)
    requires forall q | q in seen :: q in t
    ensures [DATABASE] !in Below(t, seen)
  {
    assert SERVICES[0] != DATABASE[0];
  }
}

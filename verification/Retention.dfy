/** Backup records and archive files: creation with retention, deletion, and what a restore
    does to the bookkeeping. */
module Retention {
  import opened Domain

  /** A row of the backups table. The file name is the UTC time to the second, so a name is
      that second; createdAt is the row's default CURRENT_TIMESTAMP. */
  datatype Backup = Backup(id: nat, name: nat, createdAt: nat)

  /** What the archived database says about backups: the rows when VACUUM INTO ran. */
  datatype Snapshot = Snapshot(records: map<nat, Backup>, nextId: nat)

  datatype Shelf = Shelf(records: map<nat, Backup>, files: map<nat, Snapshot>, nextId: nat)

  /** NewManager: a retain count that is not positive means ten. */
  function RetainCount(configured: int): (n: nat)
    ensures n >= 1
  {
    if configured <= 0 then 10 else configured
  }

  ghost predicate WellKept(records: map<nat, Backup>, nextId: nat)
  {
    forall id | id in records :: records[id].id == id && id < nextId
  }

  ghost predicate DistinctTimes(records: map<nat, Backup>)
  {
    forall a, b | a in records && b in records && a != b :: records[a].createdAt != records[b].createdAt
  }

  function NewerThan(records: map<nat, Backup>, time: nat): set<nat>
  {
    set id | id in records && records[id].createdAt > time
  }

  /** The records among the newest retain ones. */
  function Newest(records: map<nat, Backup>, retain: nat): set<nat>
  {
    set id | id in records && |NewerThan(records, records[id].createdAt)| < retain
  }

  function Without(s: Shelf, ids: set<nat>): Shelf
  {
    var names := set id | id in ids && id in s.records :: s.records[id].name;
    s.(records := s.records - ids, files := s.files - names)
  }

  /** The same on what counts as newest; for records of different times no listing matters. */
  function Enforced(s: Shelf, retain: nat): Shelf
  {
    Without(s, s.records.Keys - Newest(s.records, retain))
  }

  /** The archive is written under the name of its second, then recorded. */
  function Recorded(s: Shelf, name: nat, createdAt: nat): Shelf
  {
    Shelf(s.records[s.nextId := Backup(s.nextId, name, createdAt)],
          s.files[name := Snapshot(s.records, s.nextId)], s.nextId + 1)
  }

  function Created(s: Shelf, name: nat, createdAt: nat, retain: nat): Shelf
  {
    Enforced(Recorded(s, name, createdAt), retain)
  }

  function Deleted(s: Shelf, id: nat): Shelf
  {
    if id in s.records then Without(s, {id}) else s
  }

  /** Restore puts the archived database in place; it counts after the restart. */
  function Restored(s: Shelf, id: nat): Shelf
  {
    if id in s.records && s.records[id].name in s.files then
      var archived := s.files[s.records[id].name];
      s.(records := archived.records, nextId := archived.nextId)
    else s
  }

  /** A listing of some records by created_at, newest first. */
  ghost predicate Listed(list: seq<Backup>, records: map<nat, Backup>, ids: set<nat>)
  {
    && (forall b | b in list :: b.id in ids && b.id in records && records[b.id] == b)
    && (forall id | id in ids :: id in records && records[id] in list)
    && (forall i, j | 0 <= i < j < |list| :: list[i].id != list[j].id && list[i].createdAt >= list[j].createdAt)
  }

  ghost predicate Lists(list: seq<Backup>, records: map<nat, Backup>)
  {
    Listed(list, records, records.Keys)
  }

  function Ids(list: seq<Backup>): set<nat>
  {
    set b | b in list :: b.id
  }

  /** What lies beyond position retain of a listing. */
  function Tail(list: seq<Backup>, retain: nat): seq<Backup>
  {
    if retain <= |list| then list[retain..] else []
  }

  /** enforceRetentionPolicy on a listing the database returned. */
  function Trimmed(s: Shelf, list: seq<Backup>, retain: nat): Shelf
  {
    Without(s, Ids(Tail(list, retain)))
  }

  lemma {:induction false} IdsCount(list: seq<Backup>)
    requires forall i, j | 0 <= i < j < |list| :: list[i].id != list[j].id
    ensures |Ids(list)| == |list|
  {
    if list != [] {
      var init, last := list[..|list| - 1], list[|list| - 1];
      IdsCount(init);
      assert list == init + [last];
      assert Ids(list) == Ids(init) + {last.id};
      assert last.id !in Ids(init);
    }
  }

  lemma ListedCount(list: seq<Backup>, records: map<nat, Backup>)
    requires Lists(list, records) && forall id | id in records :: records[id].id == id
    ensures Ids(list) == records.Keys && |records| == |list|
  {
    IdsCount(list);
    forall id | id in records ensures id in Ids(list) {
      assert records[id] in list;
    }
    assert |records.Keys| == |records|;
  }

  lemma NewestByRank(list: seq<Backup>, records: map<nat, Backup>, retain: nat, j: nat)
    requires Lists(list, records) && DistinctTimes(records) && j < |list|
    ensures list[j].id in records && (list[j].id in Newest(records, retain) <==> j < retain)
  {
    RankInListing(list, records, j);
    assert list[j] in list;
  }

  /** The records that go are those after the first retain of the listing. */
  lemma OldestAreLast(list: seq<Backup>, records: map<nat, Backup>, retain: nat)
    requires Lists(list, records) && DistinctTimes(records) && forall id | id in records :: records[id].id == id
    ensures |records| == |list|
    ensures records.Keys - Newest(records, retain) == Ids(Tail(list, retain))
  {
    hide Listed, DistinctTimes, Newest;
    ListedCount(list, records);
    var tail := Tail(list, retain);
    forall id ensures id in records.Keys - Newest(records, retain) <==> id in Ids(tail) {
      if id in records {
        var b :| b in list && b.id == id;
        var j: nat :| j < |list| && list[j] == b;
        NewestByRank(list, records, retain, j);
        if j >= retain {
          assert tail[j - retain] == list[j];
        }
      }
      if id in Ids(tail) {
        var b :| b in tail && b.id == id;
        var i: nat :| i < |tail| && tail[i] == b;
        NewestByRank(list, records, retain, retain + i);
      }
    }
  }

  lemma RankInListing(list: seq<Backup>, records: map<nat, Backup>, j: nat)
    requires Lists(list, records) && DistinctTimes(records) && j < |list|
    ensures |NewerThan(records, list[j].createdAt)| == j
  {
    IdsCount(list[..j]);
    forall id ensures id in NewerThan(records, list[j].createdAt) <==> id in Ids(list[..j]) {
      if id in NewerThan(records, list[j].createdAt) {
        var i: nat :| i < |list| && list[i] == records[id];
        assert i < j;
        assert list[i] in list[..j];
      }
      if id in Ids(list[..j]) {
        var i: nat :| i < j && list[i].id == id;
        assert list[i] in list && list[j] in list;
      }
    }
    assert NewerThan(records, list[j].createdAt) == Ids(list[..j]);
  }

  class Manager {
    var records: map<nat, Backup>
    var files: map<nat, Snapshot>
    var nextId: nat
    const retain: nat

    function State(): Shelf
      reads this
    {
      Shelf(records, files, nextId)
    }

    ghost predicate Valid()
      reads this
    {
      WellKept(records, nextId) && retain >= 1
    }

    constructor (configured: int, s: Shelf)
      requires WellKept(s.records, s.nextId)
      ensures Valid() && State() == s && retain == RetainCount(configured)
      ensures retain == if configured >= 1 then configured else 10
    {
      retain := if configured <= 0 then 10 else configured;
      records, files, nextId := s.records, s.files, s.nextId;
    }

    /** Rows with the same time may come in any order. */
    method ListBackups() returns (list: seq<Backup>)
      requires Valid()
      ensures Lists(list, records)
    {
      list := [];
      var todo := records.Keys;
      while todo != {}
        invariant todo <= records.Keys && Listed(list, records, records.Keys - todo)
        invariant forall b, id | b in list && id in todo :: b.createdAt >= records[id].createdAt
      {
        LatestExists(records, todo);
        var id :| id in todo && forall i | i in todo :: records[i].createdAt <= records[id].createdAt;
        ListedNext(list, records, records.Keys - todo, id);
        assert records.Keys - (todo - {id}) == records.Keys - todo + {id};
        list := list + [records[id]];
        todo := todo - {id};
      }
      assert records.Keys - {} == records.Keys;
    }

    /** list: the order in which the database returned the records. */
    method EnforceRetentionPolicy() returns (ghost list: seq<Backup>)
      requires Valid()
      modifies this
      ensures Valid() && nextId == old(nextId)
      ensures Lists(list, old(records)) && State() == Trimmed(old(State()), list, retain)
      ensures DistinctTimes(old(records)) ==> State() == Enforced(old(State()), retain)
      ensures forall id :: id in records <==> exists j: nat :: j < |list| && j < retain && list[j].id == id
      ensures forall n :: n in files <==> n in old(files) && !exists j: nat :: retain <= j < |list| && list[j].name == n
      ensures forall id | id in records :: id in old(records) && records[id] == old(records[id])
      ensures forall n | n in files :: files[n] == old(files[n])
    {
      hide Listed, DistinctTimes, Newest, Without, WellKept;
      var backups := ListBackups();
      list := backups;
      ghost var before := State();
      TrimmedPlainly(before, list, retain);
      if DistinctTimes(before.records) {
        IdsMatch(before.records, nextId);
        OldestAreLast(list, before.records, retain);
      }
      ListedIsRecorded(backups, records);
      if |backups| <= retain {
        WithoutNone(before);
        assert Ids([]) == {};
        assert retain == |backups| ==> backups[retain..] == [];
        return;
      }
      DeleteAll(backups[retain..]);
    }

    method DeleteAll(list: seq<Backup>)
      requires Valid() && forall i: nat | i < |list| :: list[i].id in records && records[list[i].id] == list[i]
      modifies this`records, this`files
      ensures Valid() && State() == Without(old(State()), Ids(list))
    {
      hide Without, WellKept;
      ghost var before := State();
      WithoutNone(before);
      assert Ids(list[..0]) == {};
      for i := 0 to |list|
        invariant State() == Without(before, Ids(list[..i]))
      {
        assert list[..i + 1] == list[..i] + [list[i]];
        WithoutNext(before, list[..i], list[i]);
        files := files - {list[i].name};
        records := records - {list[i].id};
      }
      assert list[..|list|] == list;
      WithoutKeeps(before, Ids(list));
    }

    method CreateFullBackup(now: nat, createdAt: nat) returns (backup: Backup, ghost list: seq<Backup>)
      requires Valid()
      modifies this
      ensures Valid() && backup == Backup(old(nextId), now, createdAt)
      ensures var recorded := Recorded(old(State()), now, createdAt);
              Lists(list, recorded.records) && State() == Trimmed(recorded, list, retain)
      ensures DistinctTimes(Recorded(old(State()), now, createdAt).records) ==>
                State() == Created(old(State()), now, createdAt, retain)
      ensures nextId == old(nextId) + 1
      ensures forall id :: id in records <==> exists j: nat :: j < |list| && j < retain && list[j].id == id
      ensures forall n :: n in files <==> n in old(files).Keys + {now} && !exists j: nat :: retain <= j < |list| && list[j].name == n
      ensures forall id | id in records :: records[id] == if id == old(nextId) then backup else old(records)[id]
      ensures forall n | n in files :: files[n] == if n == now then Snapshot(old(records), old(nextId)) else old(files)[n]
    {
      files := files[now := Snapshot(records, nextId)];
      backup := Backup(nextId, now, createdAt);
      records := records[nextId := backup];
      nextId := nextId + 1;
      list := EnforceRetentionPolicy();
    }

    method DeleteBackup(id: nat) returns (ok: bool)
      requires Valid()
      modifies this
      ensures Valid() && ok == (id in old(records)) && State() == Deleted(old(State()), id)
      ensures nextId == old(nextId)
      ensures id !in old(records) ==> records == old(records) && files == old(files)
      ensures records.Keys == old(records.Keys) - {id} && forall k | k in records :: records[k] == old(records[k])
      ensures id in old(records) ==>
                files.Keys == old(files.Keys) - {old(records[id].name)} && forall n | n in files :: files[n] == old(files[n])
    {
      if id !in records {
        return false;
      }
      files := files - {records[id].name};
      records := records - {id};
      return true;
    }
  }

  /** What stays is what the first retain entries of the listing name; an archive goes exactly
      when a later entry names it. */
  lemma TrimmedPlainly(s: Shelf, list: seq<Backup>, retain: nat)
    requires WellKept(s.records, s.nextId) && Lists(list, s.records)
    ensures var t := Trimmed(s, list, retain);
      && (forall id :: id in t.records <==> exists j: nat :: j < |list| && j < retain && list[j].id == id)
      && (forall n :: n in t.files <==> n in s.files && !exists j: nat :: retain <= j < |list| && list[j].name == n)
      && (forall id | id in t.records :: id in s.records && t.records[id] == s.records[id])
      && (forall n | n in t.files :: t.files[n] == s.files[n])
  {
    var t, tail := Trimmed(s, list, retain), Tail(list, retain);
    IdsMatch(s.records, s.nextId);
    ListedIsRecorded(list, s.records);
    forall id ensures id in Ids(tail) <==> exists j: nat :: retain <= j < |list| && list[j].id == id {
      if id in Ids(tail) {
        var i: nat :| i < |tail| && tail[i].id == id;
        assert list[retain + i] == tail[i];
      }
      if j: nat :| retain <= j < |list| && list[j].id == id {
        assert tail[j - retain] == list[j];
      }
    }
    forall id ensures id in t.records <==> exists j: nat :: j < |list| && j < retain && list[j].id == id {
      if id in t.records {
        assert s.records[id] in list;
        var j: nat :| j < |list| && list[j] == s.records[id];
      }
    }
    forall n ensures n in t.files <==> n in s.files && !exists j: nat :: retain <= j < |list| && list[j].name == n {
      if j: nat :| retain <= j < |list| && list[j].name == n {
        assert list[j].id in Ids(tail) && s.records[list[j].id].name == n;
      }
      if n in s.files && n !in t.files {
        var id :| id in Ids(tail) && id in s.records && s.records[id].name == n;
        var j: nat :| retain <= j < |list| && list[j].id == id;
      }
    }
  }

  lemma {:induction false} LatestExists(records: map<nat, Backup>, ids: set<nat>)
    requires ids != {} && ids <= records.Keys
    ensures exists id :: id in ids && forall i | i in ids :: records[i].createdAt <= records[id].createdAt
  {
    var x :| x in ids;
    var rest := ids - {x};
    assert forall i | i in ids :: i == x || i in rest;
    if rest == {} {
      assert forall i | i in ids :: records[i].createdAt <= records[x].createdAt;
    } else {
      LatestExists(records, rest);
      var y :| y in rest && forall i | i in rest :: records[i].createdAt <= records[y].createdAt;
      var id := if records[y].createdAt < records[x].createdAt then x else y;
      assert id in ids && forall i | i in ids :: records[i].createdAt <= records[id].createdAt;
    }
  }

  lemma ListedNext(list: seq<Backup>, records: map<nat, Backup>, ids: set<nat>, id: nat)
    requires Listed(list, records, ids) && id in records && id !in ids && records[id].id == id
    requires forall b | b in list :: b.createdAt >= records[id].createdAt
    ensures Listed(list + [records[id]], records, ids + {id})
  {
    forall i | 0 <= i < |list| ensures list[i].id != id {
      assert list[i] in list;
    }
  }

  lemma ListedIsRecorded(list: seq<Backup>, records: map<nat, Backup>)
    requires Lists(list, records)
    ensures forall i: nat | i < |list| :: list[i].id in records && records[list[i].id] == list[i]
  {
    forall i: nat | i < |list| ensures list[i].id in records && records[list[i].id] == list[i] {
      assert list[i] in list;
    }
  }

  lemma WithoutKeeps(s: Shelf, ids: set<nat>)
    requires WellKept(s.records, s.nextId)
    ensures WellKept(Without(s, ids).records, s.nextId) && Without(s, ids).nextId == s.nextId
  {
  }

  lemma IdsMatch(records: map<nat, Backup>, nextId: nat)
    requires WellKept(records, nextId)
    ensures forall id | id in records :: records[id].id == id
  {
  }

  lemma WithoutNone(s: Shelf)
    ensures Without(s, {}) == s
  {
    assert s.records - {} == s.records && s.files - {} == s.files;
  }

  lemma WithoutNext(s: Shelf, list: seq<Backup>, b: Backup)
    requires b.id in s.records && s.records[b.id] == b
    ensures var before := Without(s, Ids(list));
            Without(s, Ids(list + [b])) == before.(records := before.records - {b.id}, files := before.files - {b.name})
  {
    assert Ids(list + [b]) == Ids(list) + {b.id};
  }

  // What creation keeps.

  lemma {:induction false} ListingExists(records: map<nat, Backup>, ids: set<nat>) returns (list: seq<Backup>)
    requires ids <= records.Keys && forall id | id in records :: records[id].id == id
    ensures Listed(list, records, ids)
  {
    if ids == {} {
      list := [];
    } else {
      // Take out the oldest and put it last.
      OldestExists(records, ids);
      var id :| id in ids && forall i | i in ids :: records[i].createdAt >= records[id].createdAt;
      var init := ListingExists(records, ids - {id});
      ListedNext(init, records, ids - {id}, id);
      list := init + [records[id]];
      assert ids - {id} + {id} == ids;
    }
  }

  lemma {:induction false} OldestExists(records: map<nat, Backup>, ids: set<nat>)
    requires ids != {} && ids <= records.Keys
    ensures exists id :: id in ids && forall i | i in ids :: records[i].createdAt >= records[id].createdAt
  {
    var x :| x in ids;
    var rest := ids - {x};
    assert forall i | i in ids :: i == x || i in rest;
    if rest == {} {
      assert forall i | i in ids :: records[i].createdAt >= records[x].createdAt;
    } else {
      OldestExists(records, rest);
      var y :| y in rest && forall i | i in rest :: records[i].createdAt >= records[y].createdAt;
      var id := if records[y].createdAt > records[x].createdAt then x else y;
      assert id in ids && forall i | i in ids :: records[i].createdAt >= records[id].createdAt;
    }
  }

  lemma NewestCount(records: map<nat, Backup>, retain: nat)
    requires DistinctTimes(records) && forall id | id in records :: records[id].id == id
    ensures |Newest(records, retain)| == if retain <= |records| then retain else |records|
  {
    hide Listed, DistinctTimes, Newest;
    var list := ListingExists(records, records.Keys);
    ListedCount(list, records);
    var head := if retain <= |list| then list[..retain] else list;
    HeadCount(list, records, retain);
    NewestAreRecords(records, retain);
    forall id ensures id in Newest(records, retain) <==> id in Ids(head) {
      if id in records {
        var b :| b in list && b.id == id;
        var j: nat :| j < |list| && list[j] == b;
        NewestByRank(list, records, retain, j);
        if j < retain {
          assert head[j] == list[j];
        }
      }
      if id in Ids(head) {
        var b :| b in head && b.id == id;
        var i: nat :| i < |head| && head[i] == b;
        NewestByRank(list, records, retain, i);
      }
    }
    assert Newest(records, retain) == Ids(head);
  }

  lemma NewestAreRecords(records: map<nat, Backup>, retain: nat)
    ensures Newest(records, retain) <= records.Keys
  {
  }

  lemma HeadCount(list: seq<Backup>, records: map<nat, Backup>, retain: nat)
    requires Lists(list, records)
    ensures |Ids(if retain <= |list| then list[..retain] else list)| == if retain <= |list| then retain else |list|
  {
    IdsCount(if retain <= |list| then list[..retain] else list);
  }

  lemma SubsetCount(a: set<nat>, b: set<nat>)
    requires a <= b
    ensures |a| <= |b|
  {
    assert b == (b - a) + a;
  }

  lemma CreatedIs(s: Shelf, name: nat, createdAt: nat, retain: nat)
    ensures var all, kept := Recorded(s, name, createdAt).records, Created(s, name, createdAt, retain).records;
      && kept.Keys == Newest(all, retain) && forall id | id in kept :: id in all && kept[id] == all[id]
  {
  }

  lemma KeptIsNewer(all: map<nat, Backup>, retain: nat, k: nat, d: nat)
    requires k in Newest(all, retain) && d in all && d !in Newest(all, retain)
    ensures all[k].createdAt > all[d].createdAt
  {
    if all[k].createdAt <= all[d].createdAt {
      SubsetCount(NewerThan(all, all[d].createdAt), NewerThan(all, all[k].createdAt));
    }
  }

  /** After a backup the surviving records are exactly the newest retain ones, all of them if
      there are fewer; the new one is among them if and only if fewer than retain others are
      newer, so always when clocks do not go backwards. */
  lemma CreateKeepsNewest(s: Shelf, name: nat, createdAt: nat, retain: nat)
    requires WellKept(s.records, s.nextId) && DistinctTimes(Recorded(s, name, createdAt).records) && retain >= 1
    ensures var all, kept := Recorded(s, name, createdAt).records, Created(s, name, createdAt, retain).records;
      && |kept| == (if retain <= |s.records| + 1 then retain else |s.records| + 1)
      && (forall id | id in kept :: id in all && kept[id] == all[id])
      && (forall k, d | k in kept && d in all && d !in kept :: all[k].createdAt > all[d].createdAt)
      && (s.nextId in kept <==> |NewerThan(s.records, createdAt)| < retain)
  {
    hide Newest, DistinctTimes, Created;
    var all := Recorded(s, name, createdAt).records;
    assert forall id | id in all :: all[id].id == id;
    CreatedIs(s, name, createdAt, retain);
    NewestCount(all, retain);
    OneMore(s, name, createdAt);
    forall k, d | k in Newest(all, retain) && d in all && d !in Newest(all, retain) ensures all[k].createdAt > all[d].createdAt {
      KeptIsNewer(all, retain, k, d);
    }
    NewRank(s, name, createdAt, retain);
    MapCount(Created(s, name, createdAt, retain).records);
  }

  lemma MapCount(m: map<nat, Backup>)
    ensures |m.Keys| == |m|
  {
  }

  lemma OneMore(s: Shelf, name: nat, createdAt: nat)
    requires WellKept(s.records, s.nextId)
    ensures |Recorded(s, name, createdAt).records| == |s.records| + 1
  {
    MapCount(s.records);
    MapCount(Recorded(s, name, createdAt).records);
    assert Recorded(s, name, createdAt).records.Keys == s.records.Keys + {s.nextId};
  }

  lemma NewRank(s: Shelf, name: nat, createdAt: nat, retain: nat)
    requires WellKept(s.records, s.nextId)
    ensures s.nextId in Newest(Recorded(s, name, createdAt).records, retain) <==> |NewerThan(s.records, createdAt)| < retain
  {
    assert NewerThan(Recorded(s, name, createdAt).records, createdAt) == NewerThan(s.records, createdAt);
  }

  // Records and files.

  /** Records and archive files correspond one to one. */
  ghost predicate Matched(s: Shelf)
  {
    && (forall a, b | a in s.records && b in s.records && a != b :: s.records[a].name != s.records[b].name)
    && (forall id | id in s.records :: s.records[id].name in s.files)
    && (forall name | name in s.files :: exists id :: id in s.records && s.records[id].name == name)
  }

  lemma WithoutKeepsMatched(s: Shelf, ids: set<nat>)
    requires Matched(s)
    ensures Matched(Without(s, ids))
  {
    var t := Without(s, ids);
    forall name | name in t.files ensures exists id :: id in t.records && t.records[id].name == name {
      var id :| id in s.records && s.records[id].name == name;
      assert id in t.records;
    }
  }

  ghost predicate NewerThanAll(s: Shelf, createdAt: nat)
  {
    forall id | id in s.records :: s.records[id].createdAt < createdAt
  }

  /** A backup keeps records and files in step if and only if no archive of the same second is
      on the shelf, or all records of that second fall to the retention rule. */
  lemma CreateKeepsMatchedExactly(s: Shelf, name: nat, createdAt: nat, list: seq<Backup>, retain: nat)
    requires WellKept(s.records, s.nextId) && Matched(s) && Lists(list, Recorded(s, name, createdAt).records)
    ensures var all, t := Recorded(s, name, createdAt).records, Trimmed(Recorded(s, name, createdAt), list, retain);
            Matched(t) <==> name !in s.files || forall id | id in all && all[id].name == name :: id !in t.records
  {
    hide Listed;
    var r, ids := Recorded(s, name, createdAt), Ids(Tail(list, retain));
    if name !in s.files {
      RecordedMatches(s, name, createdAt);
      WithoutKeepsMatched(r, ids);
    } else {
      SameSecond(s, name, createdAt, ids);
    }
  }

  lemma SameSecond(s: Shelf, name: nat, createdAt: nat, ids: set<nat>)
    requires WellKept(s.records, s.nextId) && Matched(s) && name in s.files
    ensures var all, t := Recorded(s, name, createdAt).records, Without(Recorded(s, name, createdAt), ids);
            Matched(t) <==> forall id | id in all && all[id].name == name :: id !in t.records
  {
    hide Matched, Without, Recorded;
    var x := RecordOf(s, name);
    OfThatSecond(s, name, createdAt, x);
    if s.nextId in ids && x in ids {
      BothGone(s, name, createdAt, x, ids);
    } else {
      OneLeft(s, name, createdAt, x, ids);
    }
    WithoutRecords(Recorded(s, name, createdAt), ids);
  }

  lemma WithoutRecords(s: Shelf, ids: set<nat>)
    ensures forall id :: id in Without(s, ids).records <==> id in s.records && id !in ids
  {
  }

  lemma RecordOf(s: Shelf, name: nat) returns (x: nat)
    requires Matched(s) && name in s.files
    ensures x in s.records && s.records[x].name == name
  {
    x :| x in s.records && s.records[x].name == name;
  }

  lemma OfThatSecond(s: Shelf, name: nat, createdAt: nat, x: nat)
    requires WellKept(s.records, s.nextId) && Matched(s) && x in s.records && s.records[x].name == name
    ensures var all := Recorded(s, name, createdAt).records;
            forall id :: id in all && all[id].name == name <==> id == x || id == s.nextId
  {
  }

  lemma OneLeft(s: Shelf, name: nat, createdAt: nat, x: nat, ids: set<nat>)
    requires WellKept(s.records, s.nextId) && x in s.records && s.records[x].name == name
    requires !(s.nextId in ids && x in ids)
    ensures !Matched(Without(Recorded(s, name, createdAt), ids))
  {
    var r := Recorded(s, name, createdAt);
    var t := Without(r, ids);
    assert r.records[x].name == r.records[s.nextId].name == name && x != s.nextId;
    if x !in ids && s.nextId !in ids {
      assert x in t.records && s.nextId in t.records;
    } else if x in ids {
      assert s.nextId in t.records && t.records[s.nextId].name == name && name !in t.files;
    } else {
      assert x in t.records && t.records[x].name == name;
      assert s.nextId in ids && s.nextId in r.records;
      assert name !in t.files;
    }
  }

  lemma BothGone(s: Shelf, name: nat, createdAt: nat, x: nat, ids: set<nat>)
    requires WellKept(s.records, s.nextId) && Matched(s) && x in s.records && s.records[x].name == name
    requires s.nextId in ids && x in ids
    ensures Matched(Without(Recorded(s, name, createdAt), ids))
  {
    hide Matched;
    var r, u := Recorded(s, name, createdAt), Without(s, ids);
    var gone := set id | id in ids && id in s.records :: s.records[id].name;
    assert name in gone;
    forall n ensures n in gone <==> exists id :: id in ids && id in r.records && r.records[id].name == n {
      if id :| id in ids && id in r.records && r.records[id].name == n {
        assert id == s.nextId || r.records[id] == s.records[id];
      }
      if n in gone {
        var id :| id in ids && id in s.records && s.records[id].name == n;
        assert id in r.records && r.records[id] == s.records[id];
      }
    }
    assert gone == set id | id in ids && id in r.records :: r.records[id].name;
    assert Without(r, ids).records == u.records && Without(r, ids).files == u.files;
    WithoutKeepsMatched(s, ids);
    MatchedReads(u, Without(r, ids));
  }

  lemma MatchedReads(s: Shelf, t: Shelf)
    requires Matched(s) && t.records == s.records && t.files == s.files
    ensures Matched(t)
  {
  }

  /** The new record stays when there is room, or when it is newer than all others. */
  lemma NewRecordStays(s: Shelf, name: nat, createdAt: nat, list: seq<Backup>, retain: nat)
    requires WellKept(s.records, s.nextId) && Lists(list, Recorded(s, name, createdAt).records) && retain >= 1
    requires |s.records| < retain || NewerThanAll(s, createdAt)
    ensures s.nextId in Trimmed(Recorded(s, name, createdAt), list, retain).records
  {
    var all, tail := Recorded(s, name, createdAt).records, Tail(list, retain);
    ListedCount(list, all);
    OneMore(s, name, createdAt);
    if |s.records| < retain {
      assert tail == [];
    } else {
      NewestIsFirst(s, name, createdAt, list);
      forall i: nat | i < |tail| ensures tail[i].id != s.nextId {
        assert tail[i] == list[retain + i];
      }
    }
    assert s.nextId !in Ids(tail);
  }

  lemma NewestIsFirst(s: Shelf, name: nat, createdAt: nat, list: seq<Backup>)
    requires WellKept(s.records, s.nextId) && NewerThanAll(s, createdAt) && Lists(list, Recorded(s, name, createdAt).records)
    ensures |list| > 0 && list[0].id == s.nextId
  {
    var b := Backup(s.nextId, name, createdAt);
    assert b in list by { assert Recorded(s, name, createdAt).records[s.nextId] == b; }
    var j: nat :| j < |list| && list[j] == b;
    assert list[0] in list && list[0].createdAt >= createdAt;
  }

  /** So two backups in one second break the correspondence, whatever time the rows have. */
  lemma TwoInOneSecond(s: Shelf, name: nat, createdAt: nat, list: seq<Backup>, retain: nat)
    requires WellKept(s.records, s.nextId) && Matched(s) && Lists(list, Recorded(s, name, createdAt).records) && retain >= 1
    requires |s.records| < retain || NewerThanAll(s, createdAt)
    ensures Matched(Trimmed(Recorded(s, name, createdAt), list, retain)) <==> name !in s.files
  {
    hide Trimmed, Matched, Listed;
    CreateKeepsMatchedExactly(s, name, createdAt, list, retain);
    NewRecordStays(s, name, createdAt, list, retain);
  }

  lemma RecordedMatches(s: Shelf, name: nat, createdAt: nat)
    requires WellKept(s.records, s.nextId) && Matched(s) && name !in s.files
    ensures Matched(Recorded(s, name, createdAt))
  {
    var r := Recorded(s, name, createdAt);
    forall n | n in r.files ensures exists id :: id in r.records && r.records[id].name == n {
      if n == name {
        assert s.nextId in r.records && r.records[s.nextId].name == n;
      } else {
        var id :| id in s.records && s.records[id].name == n;
        assert id in r.records && r.records[id].name == n;
      }
    }
  }

  /** No archive knows of itself: its database was copied before its record was written. */
  ghost predicate Unaware(s: Shelf)
  {
    forall n, id | n in s.files && id in s.files[n].records :: s.files[n].records[id].name != n
  }

  datatype Op = Create(name: nat, createdAt: nat) | Delete(id: nat)

  function Do(s: Shelf, op: Op, retain: nat): Shelf
  {
    match op
    case Create(name, createdAt) => Created(s, name, createdAt, retain)
    case Delete(id) => Deleted(s, id)
  }

  function DoAll(s: Shelf, ops: seq<Op>, retain: nat): Shelf
    decreases |ops|
  {
    if ops == [] then s else DoAll(Do(s, ops[0], retain), ops[1..], retain)
  }

  /** The clock moves on from one backup to the next. */
  ghost predicate OnTime(s: Shelf, op: Op)
  {
    op.Create? ==> op.name !in s.files && NewerThanAll(s, op.createdAt)
  }

  ghost predicate AllOnTime(s: Shelf, ops: seq<Op>, retain: nat)
    decreases |ops|
  {
    ops == [] || (OnTime(s, ops[0]) && AllOnTime(Do(s, ops[0], retain), ops[1..], retain))
  }

  ghost predicate InOrder(s: Shelf)
  {
    WellKept(s.records, s.nextId) && DistinctTimes(s.records) && Matched(s) && Unaware(s)
  }

  lemma WithoutKeepsOrder(s: Shelf, ids: set<nat>)
    requires InOrder(s)
    ensures InOrder(Without(s, ids)) && |Without(s, ids).records| <= |s.records|
  {
    hide Matched;
    WithoutKeepsMatched(s, ids);
    MapCount(s.records);
    MapCount(Without(s, ids).records);
    SubsetCount(Without(s, ids).records.Keys, s.records.Keys);
  }

  lemma RecordedInOrder(s: Shelf, name: nat, createdAt: nat)
    requires InOrder(s) && name !in s.files && NewerThanAll(s, createdAt)
    ensures InOrder(Recorded(s, name, createdAt))
  {
    hide Matched, Unaware;
    RecordedMatches(s, name, createdAt);
    RecordedIsUnaware(s, name, createdAt);
  }

  lemma OpKeepsOrder(s: Shelf, op: Op, retain: nat)
    requires InOrder(s) && retain >= 1 && OnTime(s, op)
    ensures InOrder(Do(s, op, retain)) && |Do(s, op, retain).records| <= if op.Create? then retain else |s.records|
  {
    hide InOrder, Newest, Without;
    match op
    case Create(name, createdAt) =>
      var r := Recorded(s, name, createdAt);
      RecordedInOrder(s, name, createdAt);
      InOrderHas(s);
      InOrderHas(r);
      WithoutKeepsOrder(r, r.records.Keys - Newest(r.records, retain));
      CreateKeepsNewest(s, name, createdAt, retain);
    case Delete(id) =>
      WithoutKeepsOrder(s, {id});
  }

  lemma InOrderHas(s: Shelf)
    requires InOrder(s)
    ensures WellKept(s.records, s.nextId) && DistinctTimes(s.records)
  {
  }

  lemma RecordedIsUnaware(s: Shelf, name: nat, createdAt: nat)
    requires Matched(s) && Unaware(s) && name !in s.files
    ensures Unaware(Recorded(s, name, createdAt))
  {
  }

  /** Over any sequence of backups and deletions on a clock that moves on, records and files
      stay in one-to-one correspondence, and from the first backup on there are never more than
      retain of them. */
  lemma {:induction false} CorrespondenceOverRuns(s: Shelf, ops: seq<Op>, retain: nat)
    requires InOrder(s) && retain >= 1 && AllOnTime(s, ops, retain)
    ensures InOrder(DoAll(s, ops, retain))
    ensures |DoAll(s, ops, retain).records| <= if exists op :: op in ops && op.Create? then retain else |s.records|
    decreases |ops|
  {
    hide InOrder, Do, OnTime;
    if ops != [] {
      assert ops[0] in ops && forall op :: op in ops <==> op == ops[0] || op in ops[1..];
      OpKeepsOrder(s, ops[0], retain);
      CorrespondenceOverRuns(Do(s, ops[0], retain), ops[1..], retain);
    }
  }

  /** A restore always breaks it: the files stay, the table becomes the archived one, and that
      has no row for the very archive it came from. */
  lemma RestoreForgetsItself(s: Shelf, id: nat)
    requires InOrder(s) && id in s.records
    ensures var t, name := Restored(s, id), s.records[id].name;
      && t.files == s.files && name in t.files
      && t.records == s.files[name].records && t.nextId == s.files[name].nextId
      && (forall i | i in t.records :: t.records[i].name != name) && !Matched(t)
  {
  }
}

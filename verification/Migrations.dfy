/** The migration runner: what one startup does to the schema tracking table, and what any
    sequence of startups, each failing wherever it likes, amounts to. */
module Migrations {

  /** The database as the runner sees it: recorded versions, statements executed so far in
      order, and whether the users table exists. */
  datatype Db = Db(tracking: bool, applied: set<nat>, executed: seq<nat>, users: bool)

  /** One startup's answers: which statements go through. Map iteration visits the versions to
      seed in an arbitrary order, and the first seeded inserts go through. */
  datatype Answers = Answers(create: bool, read: bool, check: bool, order: seq<nat>, seeded: nat,
                             exec: nat -> bool, record: nat -> bool)

  datatype Outcome = Outcome(db: Db, ok: bool)

  function Versions(k: nat): (s: set<nat>)
    ensures forall v: nat :: v in s <==> 1 <= v <= k
  {
    if k == 0 then {} else Versions(k - 1) + {k}
  }

  /** a + 1, ..., b. */
  function Range(a: nat, b: nat): (r: seq<nat>)
    ensures |r| == if a <= b then b - a else 0
  {
    if a < b then Range(a, b - 1) + [b] else []
  }

  lemma {:induction false} RangeFront(a: nat, b: nat)
    requires a < b
    ensures Range(a, b) == [a + 1] + Range(a + 1, b)
    decreases b
  {
    if a + 1 < b {
      RangeFront(a, b - 1);
      assert [a + 1] + Range(a + 1, b - 1) + [b] == [a + 1] + (Range(a + 1, b - 1) + [b]);
    } else {
      assert Range(a, b - 1) + [b] == [a + 1] + [];
    }
  }

  predicate Bounds(m: nat, s: set<nat>)
  {
    forall v | v in s :: v <= m
  }

  /** SELECT COALESCE(MAX(version), 0). */
  function Max(s: set<nat>): (m: nat)
    ensures (s == {} && m == 0) || m in s
    ensures forall v | v in s :: v <= m
  {
    if s == {} then 0
    else
      assert exists m :: m in s && Bounds(m, s) by { var top := MaxExists(s); }
      var m :| m in s && Bounds(m, s);
      m
  }

  lemma {:induction false} MaxExists(s: set<nat>) returns (m: nat)
    requires s != {}
    ensures m in s && Bounds(m, s)
  {
    var x :| x in s;
    var rest := s - {x};
    assert forall v | v in s :: v == x || v in rest;
    if rest == {} {
      m := x;
    } else {
      m := MaxExists(rest);
      m := if m < x then x else m;
    }
  }

  lemma MaxOfVersions(k: nat)
    ensures Max(Versions(k)) == k
  {
    if k > 0 {
      assert k in Versions(k);
    }
  }

  function InSet(s: seq<nat>): set<nat>
  {
    set v | v in s
  }

  /** The main loop from version v on. */
  function Apply(db: Db, table: map<nat, string>, v: nat, e: Answers): Outcome
    decreases |table| + 1 - v
  {
    if v > |table| then Outcome(db, true)
    else if v !in table || !e.exec(v) then Outcome(db, false)
    else
      var done := db.(executed := db.executed + [v], users := db.users || v == 1);
      if !e.record(v) then Outcome(done, false)
      else Apply(done.(applied := done.applied + {v}), table, v + 1, e)
  }

  /** Nothing recorded or executed is ever taken back. */
  lemma {:induction false} ApplyGrows(db: Db, table: map<nat, string>, v: nat, e: Answers)
    ensures var r := Apply(db, table, v, e);
            r.db.tracking == db.tracking && db.applied <= r.db.applied && db.executed <= r.db.executed
    decreases |table| + 1 - v
  {
    if v <= |table| && v in table && e.exec(v) && e.record(v) {
      ApplyGrows(db.(executed := db.executed + [v], users := db.users || v == 1, applied := db.applied + {v}), table, v + 1, e);
    }
  }

  /** A database from before the tracking table. */
  predicate Untracked(db: Db)
  {
    Max(db.applied) == 0 && db.users
  }

  function Seeded(db: Db, e: Answers): Db
  {
    db.(applied := db.applied + InSet(if e.seeded < |e.order| then e.order[..e.seeded] else e.order))
  }

  function Startup(db: Db, table: map<nat, string>, e: Answers): Outcome
  {
    if !e.create then Outcome(db, false)
    else
      var open := db.(tracking := true);
      if !e.read || (Max(db.applied) == 0 && !e.check) then Outcome(open, false)
      else if !Untracked(db) then Apply(open, table, Max(db.applied) + 1, e)
      else if e.seeded < |e.order| then Outcome(Seeded(open, e), false)
      else Apply(Seeded(open, e), table, |table| + 1, e)
  }

  /** The order lists the versions of the table. */
  predicate Lists(order: seq<nat>, table: map<nat, string>)
  {
    InSet(order) == table.Keys
  }

  class Store {
    var tracking: bool
    var applied: set<nat>
    var executed: seq<nat>
    var users: bool

    function State(): Db
      reads this
    {
      Db(tracking, applied, executed, users)
    }

    method Migrate(table: map<nat, string>, e: Answers) returns (ok: bool)
      modifies this
      ensures Outcome(State(), ok) == Startup(old(State()), table, e)
      ensures tracking == (old(tracking) || e.create)
      ensures old(applied) <= applied && old(executed) <= executed
      ensures !e.create || !e.read ==> !ok && applied == old(applied) && executed == old(executed) && users == old(users)
    {
      if !e.create {
        return false;
      }
      tracking := true;
      if !e.read {
        return false;
      }
      var maxApplied := Max(applied);
      if maxApplied == 0 {
        if !e.check {
          return false;
        }
        if users {
          ok := Seed(e);
          if !ok { return; }
          maxApplied := |table|;
        }
      }
      ApplyGrows(State(), table, maxApplied + 1, e);
      ok := ApplyPending(table, maxApplied, e);
    }

    method Seed(e: Answers) returns (ok: bool)
      modifies this`applied
      ensures State() == Seeded(old(State()), e) && ok == (e.seeded >= |e.order|)
    {
      ghost var before := applied;
      for i := 0 to |e.order|
        invariant i <= e.seeded && applied == before + InSet(e.order[..i])
      {
        if i == e.seeded {
          return false;
        }
        assert e.order[..i + 1] == e.order[..i] + [e.order[i]];
        applied := applied + {e.order[i]};
      }
      assert e.order[..|e.order|] == e.order;
      return true;
    }

    method ApplyPending(table: map<nat, string>, maxApplied: nat, e: Answers) returns (ok: bool)
      modifies this
      ensures Outcome(State(), ok) == Apply(old(State()), table, maxApplied + 1, e)
    {
      ghost var goal := Apply(State(), table, maxApplied + 1, e);
      var v := 1;
      while v <= |table|
        invariant v >= 1
        invariant goal == Apply(State(), table, if v <= maxApplied then maxApplied + 1 else v, e)
      {
        if v <= maxApplied {
          v := v + 1;
          continue;
        }
        if v !in table {
          return false;
        }
        if !e.exec(v) {
          return false;
        }
        executed := executed + [v];
        users := users || v == 1;
        if !e.record(v) {
          return false;
        }
        applied := applied + {v};
        v := v + 1;
      }
      return true;
    }
  }

  // Exactly once.

  /** Versions 1 to k are recorded, and those after b were executed, once each and in order. */
  predicate UpTo(db: Db, b: nat, k: nat)
  {
    b <= k && db.applied == Versions(k) && db.executed == Range(b, k) && (db.users <==> k >= 1)
  }

  predicate Dense(table: map<nat, string>)
  {
    table.Keys == Versions(|table|)
  }

  /** Each execute-and-record pair is one step. */
  ghost predicate Paired(e: Answers)
  {
    forall v: nat :: e.exec(v) ==> e.record(v)
  }

  lemma RangeGrows(b: nat, k: nat)
    requires b <= k
    ensures Range(b, k) + [k + 1] == Range(b, k + 1) && Versions(k) + {k + 1} == Versions(k + 1)
  {
  }

  /** Does a statement go through whose record is lost, with everything before it in order? */
  predicate LosesRecord(v: nat, n: nat, e: Answers)
    decreases n + 1 - v
  {
    v <= n && e.exec(v) && (!e.record(v) || LosesRecord(v + 1, n, e))
  }

  /** The last version that is both executed and recorded when the loop starts at v. */
  function Reach(v: nat, n: nat, e: Answers): (m: nat)
    requires v >= 1
    ensures v - 1 <= m && (v <= n ==> m <= n) && (v > n ==> m == v - 1)
    ensures LosesRecord(v, n, e) ==> m < n
    decreases n + 1 - v
  {
    if v <= n && e.exec(v) && e.record(v) then Reach(v + 1, n, e) else v - 1
  }

  /** The loop from a clean state. */
  lemma {:induction false} ApplyReaches(db: Db, table: map<nat, string>, b: nat, k: nat, e: Answers)
    requires UpTo(db, b, k) && Dense(table)
    ensures var r, m, lost := Apply(db, table, k + 1, e), Reach(k + 1, |table|, e), LosesRecord(k + 1, |table|, e);
      && r.db.applied == Versions(m) && r.db.executed == Range(b, m) + (if lost then [m + 1] else [])
      && (r.db.users <==> m >= 1 || lost) && (r.ok <==> m >= |table|)
    decreases |table| + 1 - k
  {
    hide Range, Versions, Apply;
    ApplyOnce(db, table, k + 1, e);
    assert k + 1 <= |table| ==> k + 1 in Versions(|table|);
    assert Range(b, k) + [] == Range(b, k);
    if k < |table| && e.exec(k + 1) && e.record(k + 1) {
      RangeGrows(b, k);
      ApplyReaches(Executed(db, k + 1, true), table, b, k + 1, e);
    }
  }

  /** A statement that went through, and its record if that did too. */
  function Executed(db: Db, v: nat, recorded: bool): Db
  {
    db.(executed := db.executed + [v], users := db.users || v == 1,
        applied := if recorded then db.applied + {v} else db.applied)
  }

  lemma ApplyOnce(db: Db, table: map<nat, string>, v: nat, e: Answers)
    ensures Apply(db, table, v, e) ==
              if v > |table| then Outcome(db, true)
              else if v !in table || !e.exec(v) then Outcome(db, false)
              else if !e.record(v) then Outcome(Executed(db, v, false), false)
              else Apply(Executed(db, v, true), table, v + 1, e)
  {
  }

  /** A startup from a clean state executes and records the next versions in order; if it
      reports success it got to the end of the table, and it leaves a clean state unless the
      record of an executed statement was lost. */
  lemma StartupExactly(db: Db, table: map<nat, string>, b: nat, k: nat, e: Answers)
    requires UpTo(db, b, k) && Dense(table)
    ensures var r, m := Startup(db, table, e), Reach(k + 1, |table|, e);
            var begun := e.create && e.read && (k > 0 || e.check);
      && (!begun ==> !r.ok && UpTo(r.db, b, k))
      && (begun ==> (r.ok <==> m >= |table|) && r.db.applied == Versions(m))
      && (begun && !LosesRecord(k + 1, |table|, e) ==> UpTo(r.db, b, m))
      && (begun && LosesRecord(k + 1, |table|, e) ==> r.db.executed == Range(b, m) + [m + 1] && forall k': nat :: !UpTo(r.db, b, k'))
  {
    hide Range, Versions, Apply, LosesRecord, Max;
    MaxOfVersions(k);
    if e.create && e.read && (k > 0 || e.check) {
      var m := Reach(k + 1, |table|, e);
      ApplyReaches(db.(tracking := true), table, b, k, e);
      assert Range(b, m) + [] == Range(b, m);
      if LosesRecord(k + 1, |table|, e) {
        LostIsNotUpTo(Startup(db, table, e).db, b, m);
      }
    }
  }

  lemma LostIsNotUpTo(db: Db, b: nat, k: nat)
    requires b <= k && db.applied == Versions(k) && db.executed == Range(b, k) + [k + 1]
    ensures forall k': nat :: !UpTo(db, b, k')
  {
    forall k': nat | UpTo(db, b, k') ensures false {
      MaxOfVersions(k);
      MaxOfVersions(k');
    }
  }

  lemma PairedLosesNothing(v: nat, n: nat, e: Answers)
    requires Paired(e)
    ensures !LosesRecord(v, n, e)
    decreases n + 1 - v
  {
    if v <= n {
      PairedLosesNothing(v + 1, n, e);
    }
  }

  // Any sequence of startups.

  datatype Start = Start(table: map<nat, string>, e: Answers)

  function StartAll(db: Db, starts: seq<Start>): Outcome
    decreases |starts|
  {
    if starts == [] then Outcome(db, true)
    else if |starts| == 1 then Startup(db, starts[0].table, starts[0].e)
    else StartAll(Startup(db, starts[0].table, starts[0].e).db, starts[1..])
  }

  /** Tables only ever grow. */
  ghost predicate Growing(starts: seq<Start>)
  {
    && (forall s | s in starts :: Dense(s.table) && Paired(s.e))
    && (forall i, j | 0 <= i < j < |starts| :: |starts[i].table| <= |starts[j].table|)
  }

  /** Exactly once, over restarts: any sequence of startups with growing tables, each failing
      at any statement, leaves versions 1 to k recorded and the statements after b executed
      once each and in order; if the last startup succeeds, k is the size of its table. */
  lemma {:induction false} ExactlyOnce(db: Db, b: nat, k: nat, starts: seq<Start>) returns (k': nat)
    requires UpTo(db, b, k) && starts != [] && Growing(starts) && k <= |starts[0].table|
    ensures var r, n := StartAll(db, starts), |starts[|starts| - 1].table|;
            UpTo(r.db, b, k') && k <= k' <= n && (r.ok ==> k' == n)
    decreases |starts|
  {
    hide UpTo, Startup, Dense, Paired;
    var table, e := starts[0].table, starts[0].e;
    assert starts[0] in starts;
    var m := OneStart(db, table, b, k, e);
    if |starts| == 1 {
      k' := m;
    } else {
      assert forall s | s in starts[1..] :: s in starts;
      k' := ExactlyOnce(Startup(db, table, e).db, b, m, starts[1..]);
    }
  }

  lemma OneStart(db: Db, table: map<nat, string>, b: nat, k: nat, e: Answers) returns (m: nat)
    requires UpTo(db, b, k) && Dense(table) && Paired(e) && k <= |table|
    ensures var r := Startup(db, table, e); UpTo(r.db, b, m) && k <= m <= |table| && (r.ok ==> m == |table|)
  {
    hide UpTo, Startup, Dense, Paired, LosesRecord;
    StartupExactly(db, table, b, k, e);
    PairedLosesNothing(k + 1, |table|, e);
    m := if e.create && e.read && (k > 0 || e.check) then Reach(k + 1, |table|, e) else k;
  }

  const EMPTY: Db := Db(false, {}, [], false)

  lemma FromScratch(starts: seq<Start>) returns (k: nat)
    requires starts != [] && Growing(starts)
    ensures var r, n := StartAll(EMPTY, starts), |starts[|starts| - 1].table|;
            r.db.applied == Versions(k) && r.db.executed == Range(0, k) && k <= n && (r.ok ==> k == n)
  {
    k := ExactlyOnce(EMPTY, 0, 0, starts);
  }

  // Databases from before the tracking table.

  predicate PreTracking(db: Db)
  {
    db.applied == {} && db.executed == [] && db.users
  }

  /** A startup that seeds a pre-tracking database: all versions recorded, none executed, and
      from then on as above with b the size of the table it was seeded from. */
  lemma SeedingExecutesNothing(db: Db, table: map<nat, string>, e: Answers)
    requires PreTracking(db) && Dense(table) && Lists(e.order, table)
    ensures var r := Startup(db, table, e);
      && r.db.executed == []
      && (r.ok <==> e.create && e.read && e.check && e.seeded >= |e.order|)
      && (r.ok && table != map[] ==> UpTo(r.db, |table|, |table|))
  {
    var n := |table|;
    assert {} + table.Keys == Versions(n);
    if table != map[] {
      var v :| v in table;
      assert v in Versions(n);
    }
  }

  /** A seeding that breaks off leaves whatever versions the map iteration came to first. */
  lemma BrokenSeeding(db: Db, table: map<nat, string>, e: Answers)
    requires PreTracking(db) && Dense(table) && Lists(e.order, table)
    requires e.create && e.read && e.check && e.seeded < |e.order|
    ensures var r := Startup(db, table, e);
            !r.ok && r.db.applied == InSet(e.order[..e.seeded]) && r.db.applied <= Versions(|table|) && r.db.executed == []
  {
    assert {} + InSet(e.order[..e.seeded]) == InSet(e.order[..e.seeded]);
    forall v | v in InSet(e.order[..e.seeded]) ensures v in Versions(|table|) {
      assert v in InSet(e.order);
    }
  }

  /** A table with a hole in its numbering: a startup that otherwise goes well executes what
      comes before the hole, fails there, and never gets to what comes after. */
  lemma GapStopsStartup(db: Db, table: map<nat, string>, k: nat, gap: nat, e: Answers)
    requires db.applied == Versions(k) && (k >= 1 || !db.users)
    requires k < gap <= |table| && gap !in table && forall v | k < v < gap :: v in table
    requires e.create && e.read && e.check && forall v: nat :: e.exec(v) && e.record(v)
    ensures var r := Startup(db, table, e);
            !r.ok && r.db.applied == Versions(gap - 1) && r.db.executed == db.executed + Range(k, gap - 1)
  {
    hide Range, Versions, Apply, Max;
    MaxOfVersions(k);
    ApplyToGap(db.(tracking := true), table, k, gap, e);
  }

  lemma {:induction false} ApplyToGap(db: Db, table: map<nat, string>, k: nat, gap: nat, e: Answers)
    requires db.applied == Versions(k)
    requires k < gap <= |table| && gap !in table && forall v | k < v < gap :: v in table
    requires forall v: nat :: e.exec(v) && e.record(v)
    ensures var r := Apply(db, table, k + 1, e);
            !r.ok && r.db.applied == Versions(gap - 1) && r.db.executed == db.executed + Range(k, gap - 1)
    decreases gap - k
  {
    hide Range, Versions, Apply;
    ApplyOnce(db, table, k + 1, e);
    if k + 1 < gap {
      RangeGrows(k, k);
      ApplyToGap(Executed(db, k + 1, true), table, k + 1, gap, e);
      RangeFront(k, gap - 1);
      assert db.executed + [k + 1] + Range(k + 1, gap - 1) == db.executed + ([k + 1] + Range(k + 1, gap - 1));
    } else {
      assert db.executed + [] == db.executed;
    }
  }

  /** Every statement goes through. */
  ghost predicate AllGood(e: Answers, table: map<nat, string>)
  {
    e.create && e.read && e.check && Lists(e.order, table) && e.seeded >= |e.order| && forall v: nat :: e.exec(v) && e.record(v)
  }

  lemma {:induction false} AllApplied(db: Db, table: map<nat, string>, v: nat, e: Answers)
    requires Dense(table) && AllGood(e, table) && 1 <= v
    ensures Apply(db, table, v, e).ok && Apply(db, table, v, e).db.executed == db.executed + Range(v - 1, |table|)
    decreases |table| + 1 - v
  {
    hide Range, Versions, Apply;
    ApplyOnce(db, table, v, e);
    assert v <= |table| ==> v in Versions(|table|);
    if v <= |table| {
      AllApplied(Executed(db, v, true), table, v + 1, e);
      RangeFront(v - 1, |table|);
      assert db.executed + [v] + Range(v, |table|) == db.executed + ([v] + Range(v, |table|));
    } else {
      assert Range(v - 1, |table|) == [];
      assert db.executed + [] == db.executed;
    }
  }

  /** What the next good startup then does: it executes every version after the highest one
      that was seeded. So nothing old is executed if and only if none or the last was seeded. */
  lemma AfterBrokenSeeding(db: Db, table: map<nat, string>, e: Answers)
    requires db.users && db.executed == [] && db.applied <= Versions(|table|) && Dense(table) && AllGood(e, table)
    ensures var r := Startup(db, table, e);
      && r.ok && r.db.executed == (if db.applied == {} then [] else Range(Max(db.applied), |table|))
      && (r.db.executed == [] <==> db.applied == {} || Max(db.applied) == |table|)
  {
    hide Range, Versions, Apply;
    var m := Max(db.applied);
    assert m in db.applied ==> m in Versions(|table|);
    if db.applied != {} {
      AllApplied(db.(tracking := true), table, m + 1, e);
      assert [] + Range(m, |table|) == Range(m, |table|);
    } else {
      ApplyOnce(Seeded(db.(tracking := true), e), table, |table| + 1, e);
    }
  }

  /** A lost record of a later version: the next good startup executes that statement again. */
  lemma LostRecordRepeats(db: Db, table: map<nat, string>, k: nat, e: Answers)
    requires 1 <= k < |table| && db.applied == Versions(k) && db.executed == Range(0, k) + [k + 1]
    requires Dense(table) && AllGood(e, table)
    ensures Startup(db, table, e).db.executed == Range(0, k) + [k + 1] + Range(k, |table|)
  {
    hide Range, Versions, Apply, Max;
    MaxOfVersions(k);
    AllApplied(db.(tracking := true), table, k + 1, e);
  }

  /** A lost record of version 1: the database now looks pre-tracking, and the next good
      startup records every version without executing any but the first. */
  lemma LostFirstRecordSkipsAll(db: Db, table: map<nat, string>, e: Answers)
    requires table != map[] && db.applied == {} && db.executed == [1] && db.users
    requires Dense(table) && AllGood(e, table)
    ensures var r := Startup(db, table, e); r.ok && r.db.applied == Versions(|table|) && r.db.executed == [1]
  {
    assert {} + InSet(e.order) == Versions(|table|);
  }
}

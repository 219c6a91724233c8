/**
 The cache's schema migration, one statement at a time.  Data definition commits implicitly, so a
 crash may leave the database after any statement; the advisory lock makes migrations take turns.
 */
module Migration {

  /** What a table looks like; anything that is neither of ours is Other. */
  datatype Shape = CacheV1 | VersionTable | Other(id: nat)

  const VERSIONS: string := "flowkit_schema_version"
  const V1: int := 1

  /** The tables of the selected database, and the version rows, by the cache table they are about. */
  datatype Db = Db(tables: map<string, Shape>, rows: map<string, int>)

  datatype Verdict =
    | Success
    | Unversioned         // a table without any version table
    | MissingComponent    // a table without its version row
    | Unreadable          // the version table is not ours
    | CannotCreate        // the name is taken by the version table itself
    | Mismatch            // the table is not a version 1 cache table
    | Unsupported         // a version this code does not know
    | MissingTable        // version 1 is recorded but the table is gone

  /** The database after each statement that changes it, oldest first, and how the migration ends if it
      is not interrupted. */
  datatype Story = Story(states: seq<Db>, verdict: Verdict)
  {
    function Then(db: Db): Story { Story(states + [db], verdict) }
    function Ends(v: Verdict): Story { Story(states, v) }
  }

  function CreateVersions(db: Db): Db { db.(tables := db.tables[VERSIONS := VersionTable]) }
  function Mark(db: Db, t: string, v: int): Db { db.(rows := db.rows[t := v]) }
  function CreateCache(db: Db, t: string): Db { db.(tables := db.tables[t := CacheV1]) }

  predicate Matches(db: Db, t: string) { t in db.tables && db.tables[t] == CacheV1 }

  /** From the version row on: create the table unless it was there, validate it, record version 1. */
  function Finalize(s: Story, db: Db, t: string, existed: bool): Story {
    if !existed && t in db.tables then s.Ends(CannotCreate)
    else
      var made := if existed then db else CreateCache(db, t);
      var next := if existed then s else s.Then(made);
      if !Matches(made, t) then next.Ends(Mismatch) else next.Then(Mark(made, t, V1)).Ends(Success)
  }

  function FromVersions(s: Story, db: Db, t: string, existed: bool): Story {
    if VERSIONS in db.tables && db.tables[VERSIONS] != VersionTable then s.Ends(Unreadable)
    else if t !in db.rows then
      if existed then s.Ends(MissingComponent)
      else Finalize(s.Then(Mark(db, t, 0)), Mark(db, t, 0), t, false)
    else if db.rows[t] == 0 then Finalize(s, db, t, existed)
    else if db.rows[t] != V1 then s.Ends(Unsupported)
    else if !existed then s.Ends(MissingTable)
    else if !Matches(db, t) then s.Ends(Mismatch)
    else s.Ends(Success)
  }

  /** The whole migration of table t. */
  function Migrating(db: Db, t: string): Story {
    var s, existed := Story([db], Success), t in db.tables;
    if VERSIONS in db.tables then FromVersions(s, db, t, existed)
    else if existed then s.Ends(Unversioned)
    else FromVersions(s.Then(CreateVersions(db)), CreateVersions(db), t, existed)
  }

  // ----- the migration itself ------------------------------------------------------------------------

  datatype End = Crashed | Ended(verdict: Verdict)

  class Database {
    var tables: map<string, Shape>
    var rows: map<string, int>

    constructor (db: Db)
      ensures Now() == db
    { tables, rows := db.tables, db.rows; }

    ghost function Now(): Db
      reads this
    { Db(tables, rows) }

    /** Migrates table t, executing at most `left` statements before the process dies.  Wherever it dies,
        the database is in one of the states of the full migration. */
    method Migrate(t: string, left: nat) returns (end: End)
      modifies this
      ensures Follows(Migrating(old(Now()), t), end, Now())
    {
      ghost var s := Story([Now()], Success);
      if left < 2 { return Crashed; }                 // look for the version table, and for t
      var versioned, existed := VERSIONS in tables, t in tables;
      if versioned { end := ReadVersion(t, existed, left - 2, s); }
      else if existed { end := Ended(Unversioned); }
      else if left == 2 { end := Crashed; }
      else {
        tables := tables[VERSIONS := VersionTable];
        end := ReadVersion(t, existed, left - 3, s.Then(Now()));
      }
    }

    method ReadVersion(t: string, existed: bool, left: nat, ghost s: Story) returns (end: End)
      requires AtEnd(s, Now()) && VERSIONS in tables
      modifies this
      ensures Follows(FromVersions(s, old(Now()), t, existed), end, Now())
    {
      if left == 0 { return Crashed; }
      if tables[VERSIONS] != VersionTable { return Ended(Unreadable); }
      if t !in rows {
        if existed { return Ended(MissingComponent); }
        if left == 1 { return Crashed; }
        rows := rows[t := 0];                          // the durable initialization marker
        end := Record(t, false, left - 2, s.Then(Now()));
      } else if rows[t] == 0 {
        end := Record(t, existed, left - 1, s);
      } else if rows[t] != V1 {
        end := Ended(Unsupported);
      } else if !existed {
        end := Ended(MissingTable);
      } else if left == 1 {
        end := Crashed;
      } else {
        end := Ended(if t in tables && tables[t] == CacheV1 then Success else Mismatch);
      }
    }

    method Record(t: string, existed: bool, left: nat, ghost s: Story) returns (end: End)
      requires AtEnd(s, Now())
      modifies this
      ensures Follows(Finalize(s, old(Now()), t, existed), end, Now())
    {
      var n := left;
      if !existed {
        if n == 0 { return Crashed; }
        if t in tables { return Ended(CannotCreate); }
        tables := tables[t := CacheV1];
        n := n - 1;
      }
      if n == 0 { return Crashed; }
      if !(t in tables && tables[t] == CacheV1) { return Ended(Mismatch); }
      if n == 1 { return Crashed; }
      rows := rows[t := V1];
      end := Ended(Success);
    }
  }

  /** A crash leaves one of the story's states, an end its last. */
  ghost predicate Follows(story: Story, end: End, now: Db) {
    && |story.states| > 0
    && match end
       case Crashed => now in story.states
       case Ended(v) => now == story.states[|story.states| - 1] && v == story.verdict
  }

  ghost predicate AtEnd(s: Story, now: Db) { |s.states| > 0 && s.states[|s.states| - 1] == now }

  // ----- any number of crashing migrations --------------------------------------------------------------

  /** One migration of some table, crashed or completed, leads from db to db'. */
  ghost predicate Attempt(db: Db, db': Db) { exists t :: db' in Migrating(db, t).states }

  ghost predicate History(dbs: seq<Db>) {
    && |dbs| > 0 && dbs[0].rows == map[]
    && forall i :: 0 <= i < |dbs| - 1 ==> Attempt(dbs[i], dbs[i + 1])
  }

  /** What any history keeps, relative to the database it started from: tables that were there are
      untouched; a version 1 row implies its valid table; every other cache table has its row. */
  ghost predicate Kept(first: Db, db: Db) {
    && (forall t :: t in first.tables ==> t in db.tables && db.tables[t] == first.tables[t])
    && (forall t :: t in db.tables && t !in first.tables ==> NewTable(db, t))
    && (forall t :: t in db.rows ==> Row(first, db, t))
  }

  ghost predicate NewTable(db: Db, t: string)
    requires t in db.tables
  {
    if t == VERSIONS then db.tables[t] == VersionTable else db.tables[t] == CacheV1 && t in db.rows
  }

  ghost predicate Row(first: Db, db: Db, t: string)
    requires t in db.rows
  {
    && t !in first.tables && VERSIONS in db.tables && db.tables[VERSIONS] == VersionTable
    && (db.rows[t] == 0 || (db.rows[t] == V1 && Matches(db, t)))
  }

  lemma FinalizeKept(first: Db, s: Story, db: Db, t: string, existed: bool, db': Db)
    requires Kept(first, db) && t in db.rows && db.rows[t] == 0 && db' in Finalize(s, db, t, existed).states
    requires existed ==> t in db.tables
    requires forall x :: x in s.states ==> Kept(first, x)
    ensures Kept(first, db')
  {
    assert Row(first, db, t);
    if existed || t !in db.tables {
      var made := if existed then db else CreateCache(db, t);
      MadeKept(first, db, t, existed);
      if Matches(made, t) { MarkKept(first, made, t, V1); }
    }
  }

  lemma MadeKept(first: Db, db: Db, t: string, existed: bool)
    requires Kept(first, db) && t in db.rows && (existed || t !in db.tables)
    ensures Kept(first, if existed then db else CreateCache(db, t))
  {
    var made := if existed then db else CreateCache(db, t);
    assert Row(first, db, t);
    forall u | u in made.tables && u !in first.tables ensures NewTable(made, u) { if u in db.tables { assert NewTable(db, u); } }
    forall u | u in made.rows ensures Row(first, made, u) { assert Row(first, db, u); }
  }

  lemma MarkKept(first: Db, db: Db, t: string, v: int)
    requires Kept(first, db) && t !in first.tables && VERSIONS in db.tables && db.tables[VERSIONS] == VersionTable
    requires v == 0 || (v == V1 && Matches(db, t))
    ensures Kept(first, Mark(db, t, v))
  {
    var next := Mark(db, t, v);
    forall u | u in next.tables && u !in first.tables ensures NewTable(next, u) { assert NewTable(db, u); }
    forall u | u in next.rows ensures Row(first, next, u) { if u != t { assert Row(first, db, u); } }
  }

  lemma FromVersionsKept(first: Db, s: Story, db: Db, t: string, existed: bool, db': Db)
    requires Kept(first, db) && VERSIONS in db.tables && db' in FromVersions(s, db, t, existed).states
    requires (existed ==> t in db.tables) && (t in first.tables ==> existed)
    requires forall x :: x in s.states ==> Kept(first, x)
    ensures Kept(first, db')
  {
    if db.tables[VERSIONS] == VersionTable {
      if t !in db.rows && !existed {
        MarkKept(first, db, t, 0);
        FinalizeKept(first, s.Then(Mark(db, t, 0)), Mark(db, t, 0), t, false, db');
      } else if t in db.rows && db.rows[t] == 0 { FinalizeKept(first, s, db, t, existed, db'); }
    }
  }

  lemma AttemptKept(first: Db, db: Db, t: string, db': Db)
    requires Kept(first, db) && db' in Migrating(db, t).states
    ensures Kept(first, db')
  {
    var s := Story([db], Success);
    if VERSIONS in db.tables { FromVersionsKept(first, s, db, t, t in db.tables, db'); }
    else if t !in db.tables {
      var next := CreateVersions(db);
      forall u ensures u !in db.rows {}
      forall u | u in next.tables && u !in first.tables ensures NewTable(next, u) { if u != VERSIONS { assert NewTable(db, u); } }
      FromVersionsKept(first, s.Then(next), next, t, false, db');
    }
  }

  /** The invariant holds after any number of migrations, for any tables, each crashing between any two
      statements: in particular a table that was there unversioned is never adopted or altered, and a
      version 1 row always has its valid table. */
  lemma {:induction false} HistoryKept(dbs: seq<Db>, i: nat)
    requires History(dbs) && i < |dbs|
    ensures Kept(dbs[0], dbs[i])
  {
    if i > 0 {
      HistoryKept(dbs, i - 1);
      assert Attempt(dbs[i - 1], dbs[i - 1 + 1]);
      var t :| dbs[i] in Migrating(dbs[i - 1], t).states;
      AttemptKept(dbs[0], dbs[i - 1], t, dbs[i]);
    }
  }

  /** A completed migration of a table that was not there at first succeeds, from whatever state earlier
      crashes left, exactly when the table is not named like the version table and the version table, if
      it was there, is ours; it leaves version 1 and a valid table. */
  lemma CompletesUnlessNameTaken(dbs: seq<Db>, i: nat, t: string)
    requires History(dbs) && i < |dbs| && t !in dbs[0].tables
    ensures var story, first := Migrating(dbs[i], t), dbs[0];
      && (story.verdict == Success <==> t != VERSIONS && (VERSIONS in first.tables ==> first.tables[VERSIONS] == VersionTable))
      && (story.verdict == Success ==>
            var last := story.states[|story.states| - 1]; Matches(last, t) && t in last.rows && last.rows[t] == V1)
  {
    HistoryKept(dbs, i);
    var db := dbs[i];
    if t in db.tables { assert NewTable(db, t); }
    if t in db.rows { assert Row(dbs[0], db, t); }
    if VERSIONS in db.tables && VERSIONS !in dbs[0].tables { assert NewTable(db, VERSIONS); }
    if VERSIONS !in db.tables { forall u ensures u !in db.rows {} }
  }

  /** The name the migration can never serve: on an empty database the first attempt fails after marking
      it, and so does every later one. */
  lemma VersionTableNameNeverSucceeds()
    ensures var empty := Db(map[], map[]);
      && Migrating(empty, VERSIONS).verdict == CannotCreate
      && var left := Migrating(empty, VERSIONS).states[2];
         left == Db(map[VERSIONS := VersionTable], map[VERSIONS := 0]) && Migrating(left, VERSIONS).verdict == Mismatch
  {
    var empty := Db(map[], map[]);
    var left := Db(map[VERSIONS := VersionTable], map[VERSIONS := 0]);
    assert Migrating(empty, VERSIONS).states == [empty, Db(map[VERSIONS := VersionTable], map[]), left];
  }

  /** A table that was there before the first migration is refused, and stays as it was. */
  lemma NeverAdopts(dbs: seq<Db>, i: nat, t: string)
    requires History(dbs) && i < |dbs| && t in dbs[0].tables
    ensures Migrating(dbs[i], t).verdict != Success && Migrating(dbs[i], t).states == [dbs[i]]
    ensures t in dbs[i].tables && dbs[i].tables[t] == dbs[0].tables[t] && t !in dbs[i].rows
  {
    HistoryKept(dbs, i);
  }

  // ----- any database at all --------------------------------------------------------------------------------

  /** There are version rows only in a version table. */
  ghost predicate Proper(db: Db) { VERSIONS !in db.tables ==> db.rows == map[] }

  ghost predicate OursThere(db: Db) { VERSIONS in db.tables && db.tables[VERSIONS] == VersionTable }

  /** Every statement of a migration of t leaves all existing tables, and the rows of all other tables, as they are. */
  ghost predicate TouchesOnly(db: Db, next: Db, t: string) {
    && (forall u :: u in db.tables ==> u in next.tables && next.tables[u] == db.tables[u])
    && (forall u :: u in next.tables && u !in db.tables ==> u == t || u == VERSIONS)
    && (forall u :: u != t ==> (u in next.rows <==> u in db.rows) && (u in db.rows ==> next.rows[u] == db.rows[u]))
  }

  /** Which databases serve table t, whatever happened to them before: those without a version table or t; and those whose
      version table is ours and has no row for t, nor t, or version 0 and no t or a valid one, or version 1 and a valid t. */
  lemma ServesExactly(db: Db, t: string)
    requires Proper(db)
    ensures Migrating(db, t).verdict == Success <==>
              if VERSIONS !in db.tables then t !in db.tables && t != VERSIONS
              else
                && OursThere(db)
                && if t !in db.rows then t !in db.tables
                   else (db.rows[t] == 0 && (t !in db.tables || Matches(db, t))) || (db.rows[t] == V1 && Matches(db, t))
    ensures var story := Migrating(db, t); story.verdict == Success ==>
              var last := story.states[|story.states| - 1]; OursThere(last) && Matches(last, t) && t in last.rows && last.rows[t] == V1
  {}

  /** What the other ends of a migration mean; a database that is refused as it stands is left exactly as it was. */
  lemma RefusesUntouched(db: Db, t: string)
    requires Proper(db)
    ensures var v := Migrating(db, t).verdict;
      && (v == Unversioned <==> VERSIONS !in db.tables && t in db.tables)
      && (v == Unreadable <==> VERSIONS in db.tables && !OursThere(db))
      && (v == MissingComponent <==> OursThere(db) && t !in db.rows && t in db.tables)
      && (v == Unsupported <==> OursThere(db) && t in db.rows && db.rows[t] != 0 && db.rows[t] != V1)
      && (v == MissingTable <==> OursThere(db) && t in db.rows && db.rows[t] == V1 && t !in db.tables)
      && (v == CannotCreate <==> VERSIONS !in db.tables && t == VERSIONS)
      && (v != Success && v != CannotCreate ==> Migrating(db, t).states == [db])
  {}

  lemma FinalizeTouches(db: Db, s: Story, mid: Db, t: string, existed: bool)
    requires (forall x :: x in s.states ==> TouchesOnly(db, x, t)) && TouchesOnly(db, mid, t)
    ensures forall x :: x in Finalize(s, mid, t, existed).states ==> TouchesOnly(db, x, t)
  {
    var made := if existed then mid else CreateCache(mid, t);
    if existed || t !in mid.tables {
      assert TouchesOnly(db, made, t) && TouchesOnly(db, Mark(made, t, V1), t);
    }
    hide TouchesOnly;
  }

  lemma FromVersionsTouches(db: Db, s: Story, mid: Db, t: string, existed: bool)
    requires (forall x :: x in s.states ==> TouchesOnly(db, x, t)) && TouchesOnly(db, mid, t)
    ensures forall x :: x in FromVersions(s, mid, t, existed).states ==> TouchesOnly(db, x, t)
  {
    assert TouchesOnly(db, Mark(mid, t, 0), t);
    FinalizeTouches(db, s, mid, t, existed);
    FinalizeTouches(db, s.Then(Mark(mid, t, 0)), Mark(mid, t, 0), t, false);
    hide TouchesOnly, Finalize;
  }

  /** No statement of any migration touches a table that exists, or another table's row. */
  lemma TouchesNothingElse(db: Db, t: string)
    ensures forall x :: x in Migrating(db, t).states ==> TouchesOnly(db, x, t)
  {
    var s := Story([db], Success);
    assert TouchesOnly(db, db, t);
    if VERSIONS in db.tables { FromVersionsTouches(db, s, db, t, t in db.tables); }
    else {
      assert TouchesOnly(db, CreateVersions(db), t);
      FromVersionsTouches(db, s.Then(CreateVersions(db)), CreateVersions(db), t, t in db.tables);
    }
    hide TouchesOnly, FromVersions;
  }
}

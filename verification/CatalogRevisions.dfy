/**
 Revisions that stand for the contents of several tables: the statement triggers of
 migrations/versions/0016_catalog_snapshots.py and migrations/search_visibility.py, the replacement of
 a column list in migrations/versions/0022_catalog_ranking_revision.py, and the snapshots that
 packages/core/src/catalog_cache.py keeps under a revision.
 */
module CatalogRevisions {
  import Runs

  type Column = nat
  type Value = int
  type Uuid = int
  type Row = map<Column, Value>
  type Table = set<Row>

  /* ---------- one statement on one table ---------- */

  /** SELECT columns, of one row. */
  function Restricted(row: Row, columns: set<Column>): Row {
    map column | column in row && column in columns :: row[column]
  }

  function Projected(table: Table, columns: set<Column>): (rows: set<Row>)
    ensures forall row | row in table :: Restricted(row, columns) in rows
  {
    set row | row in table :: Restricted(row, columns)
  }

  /** The primary key. */
  ghost predicate Keyed(table: Table, key: set<Column>) {
    forall a, b | a in table && b in table && Restricted(a, key) == Restricted(b, key) :: a == b
  }

  /** SELECT columns FROM new_rows EXCEPT SELECT columns FROM old_rows is empty. */
  predicate NothingNew(before: set<Row>, after: set<Row>, columns: set<Column>) {
    forall row | row in after :: Restricted(row, columns) in Projected(before, columns)
  }

  /** An UPDATE rewrites some rows of the table, one for one. */
  ghost predicate Rewrites(table: Table, before: set<Row>, after: set<Row>, key: set<Column>) {
    && before <= table && |after| == |before| && after !! (table - before)
    && Keyed(table, key) && Keyed(table - before + after, key)
  }

  lemma RestrictedTwice(row: Row, columns: set<Column>, key: set<Column>)
    requires key <= columns
    ensures Restricted(Restricted(row, columns), key) == Restricted(row, key)
  {
  }

  /** A projection that contains the key tells the rows of a table apart. */
  lemma ProjectionIsInjective(table: Table, key: set<Column>, columns: set<Column>, a: Row, b: Row)
    requires Keyed(table, key) && key <= columns && a in table && b in table
    requires Restricted(a, columns) == Restricted(b, columns)
    ensures a == b
  {
    RestrictedTwice(a, columns, key);
    RestrictedTwice(b, columns, key);
  }

  /** So it has as many rows as the table. */
  lemma {:induction false} ProjectionKeepsCount(table: Table, key: set<Column>, columns: set<Column>)
    requires Keyed(table, key) && key <= columns
    ensures |Projected(table, columns)| == |table|
  {
    if table == {} {
      assert Projected(table, columns) == {};
    } else {
      var row :| row in table;
      var rest := table - {row};
      ProjectionKeepsCount(rest, key, columns);
      forall other | other in rest ensures Restricted(other, columns) != Restricted(row, columns) {
        if Restricted(other, columns) == Restricted(row, columns) {
          ProjectionIsInjective(table, key, columns, other, row);
        }
      }
      assert Projected(table, columns) == Projected(rest, columns) + {Restricted(row, columns)};
    }
  }

  lemma SubsetOfSameSize<T>(small: set<T>, large: set<T>)
    requires small <= large && |small| >= |large|
    ensures small == large
  {
    var missing := large - small;
    assert large == small + missing;
    assert |large| == |small| + |missing|;
  }

  /** The one-directional EXCEPT is enough: with no new projected row, an UPDATE lost none either. */
  lemma NothingNewNothingLost(table: Table, before: set<Row>, after: set<Row>, key: set<Column>, columns: set<Column>)
    requires Rewrites(table, before, after, key) && key <= columns && NothingNew(before, after, columns)
    ensures Projected(after, columns) == Projected(before, columns)
  {
    ProjectionKeepsCount(before, key, columns);
    ProjectionKeepsCount(after, key, columns);
    SubsetOfSameSize(Projected(after, columns), Projected(before, columns));
  }

  lemma ProjectedUnion(a: Table, b: Table, columns: set<Column>)
    ensures Projected(a + b, columns) == Projected(a, columns) + Projected(b, columns)
  {
  }

  /** The check of the UPDATE trigger is exact: it passes just when the projected table is unchanged. */
  lemma UpdateCheckIsExact(table: Table, before: set<Row>, after: set<Row>, key: set<Column>, columns: set<Column>)
    requires Rewrites(table, before, after, key) && key <= columns
    ensures NothingNew(before, after, columns) <==>
              Projected(table - before + after, columns) == Projected(table, columns)
  {
    var rest := table - before;
    ProjectedUnion(rest, before, columns);
    ProjectedUnion(rest, after, columns);
    assert rest + before == table;
    if NothingNew(before, after, columns) {
      NothingNewNothingLost(table, before, after, key, columns);
    } else if Projected(rest + after, columns) == Projected(table, columns) {
      var row :| row in after && Restricted(row, columns) !in Projected(before, columns);
      assert Restricted(row, columns) in Projected(rest, columns);
      var other :| other in rest && Restricted(other, columns) == Restricted(row, columns);
      ProjectionIsInjective(rest + after, key, columns, other, row);
    }
  }

  /** Any row that comes or goes changes the projected table. */
  lemma NewRowsShow(table: Table, rows: set<Row>, key: set<Column>, columns: set<Column>)
    requires rows !! table && Keyed(table + rows, key) && key <= columns
    ensures rows == {} <==> Projected(table + rows, columns) == Projected(table, columns)
  {
    if rows != {} && Projected(table + rows, columns) == Projected(table, columns) {
      var row :| row in rows;
      assert Restricted(row, columns) in Projected(table, columns);
      var other :| other in table && Restricted(other, columns) == Restricted(row, columns);
      ProjectionIsInjective(table + rows, key, columns, other, row);
    }
  }

  /**
   The key is what makes it work: when the columns leave it out, a row that takes on the columns of another
   is no news, though its old columns are gone from the projection.
   */
  lemma WithoutTheKeyALossGoesUnnoticed(a: Row, b: Row, c: Row, key: set<Column>, columns: set<Column>)
    requires Restricted(a, key) != Restricted(b, key) && Restricted(c, key) == Restricted(b, key)
    requires Restricted(a, columns) != Restricted(b, columns) && Restricted(c, columns) == Restricted(a, columns)
    ensures Rewrites({a, b}, {a, b}, {a, c}, key) && NothingNew({a, b}, {a, c}, columns)
    ensures Projected({a, c}, columns) != Projected({a, b}, columns)
  {
    assert a != b && a != c;
    assert {a, b} - {a, b} + {a, c} == {a, c};
    assert Restricted(b, columns) in Projected({a, b}, columns);
    assert Restricted(b, columns) !in Projected({a, c}, columns);
  }

  /* ---------- the revision ---------- */

  /** The tables under one revision name, the columns each trigger watches, and the revisions handed out so far. */
  datatype State = State(tables: map<string, Table>, watched: map<string, set<Column>>, revision: Uuid, used: set<Uuid>)

  datatype Statement =
    | Insert(rows: set<Row>)
    | Delete(rows: set<Row>)
    | Update(before: set<Row>, after: set<Row>)
    | Truncate

  /** A statement on a watched table, or CREATE OR REPLACE of its trigger with other columns. */
  datatype Event = Write(table: string, statement: Statement, uuid: Uuid)
    | Replace(table: string, columns: set<Column>, uuid: Uuid)

  type Keys = map<string, set<Column>>

  ghost predicate Valid(keys: Keys, s: State) {
    && s.tables.Keys == keys.Keys == s.watched.Keys && s.revision in s.used
    && forall t | t in keys :: Keyed(s.tables[t], keys[t]) && keys[t] <= s.watched[t]
  }

  function After(table: Table, statement: Statement): Table {
    match statement
    case Insert(rows) => table + rows
    case Delete(rows) => table - rows
    case Update(before, after) => table - before + after
    case Truncate => {}
  }

  /** What PostgreSQL enforces: row counts and the primary key. */
  ghost predicate Executes(table: Table, statement: Statement, key: set<Column>) {
    match statement
    case Insert(rows) => rows !! table && Keyed(table + rows, key)
    case Delete(rows) => rows <= table
    case Update(before, after) => Rewrites(table, before, after, key)
    case Truncate => true
  }

  /** The trigger gets past its NOT EXISTS check. */
  predicate Refreshes(statement: Statement, columns: set<Column>) {
    match statement
    case Insert(rows) => rows != {}
    case Delete(rows) => rows != {}
    case Update(before, after) => !NothingNew(before, after, columns)
    case Truncate => true
  }

  /** gen_random_uuid() returns none of the values it returned before. */
  ghost predicate Enabled(keys: Keys, s: State, e: Event) {
    && e.table in keys && e.table in s.tables && e.table in s.watched && e.uuid !in s.used
    && match e
       case Write(t, statement, _) => Executes(s.tables[t], statement, keys[t])
       case Replace(t, columns, _) => keys[t] <= columns
  }

  function Fresh(s: State, uuid: Uuid): State {
    s.(revision := uuid, used := s.used + {uuid})
  }

  function Next(s: State, e: Event): State
    requires e.table in s.tables && e.table in s.watched
  {
    match e
    case Write(t, statement, uuid) =>
      var written := s.(tables := s.tables[t := After(s.tables[t], statement)]);
      if Refreshes(statement, s.watched[t]) then Fresh(written, uuid) else written
    case Replace(t, columns, uuid) => Fresh(s.(watched := s.watched[t := columns]), uuid)
  }

  /** What a reader of the watched columns of one table sees. */
  function Seen(s: State, t: string): Table
    requires t in s.tables && t in s.watched
  {
    Projected(s.tables[t], s.watched[t])
  }

  /** A statement keeps the revision only if its table looks the same to every reader of the watched columns. */
  lemma SilentStatementsChangeNothing(table: Table, statement: Statement, key: set<Column>, columns: set<Column>)
    requires Keyed(table, key) && Executes(table, statement, key) && key <= columns && !Refreshes(statement, columns)
    ensures Projected(After(table, statement), columns) == Projected(table, columns)
  {
    match statement
    case Insert(rows) => assert table + rows == table;
    case Delete(rows) => assert table - rows == table;
    case Update(before, after) => UpdateCheckIsExact(table, before, after, key, columns);
    case Truncate => assert false;
  }

  /** Every statement except TRUNCATE of an empty table refreshes only when a reader can tell. */
  lemma RefreshesAreNeeded(table: Table, statement: Statement, key: set<Column>, columns: set<Column>)
    requires Keyed(table, key) && Executes(table, statement, key) && key <= columns && Refreshes(statement, columns)
    requires statement.Truncate? ==> table != {}
    ensures Projected(After(table, statement), columns) != Projected(table, columns)
  {
    match statement
    case Insert(rows) => NewRowsShow(table, rows, key, columns);
    case Delete(rows) =>
      assert table - rows + rows == table;
      NewRowsShow(table - rows, rows, key, columns);
    case Update(before, after) => UpdateCheckIsExact(table, before, after, key, columns);
    case Truncate =>
      var row :| row in table;
      assert Restricted(row, columns) in Projected(table, columns);
  }

  lemma StepKeepsValid(keys: Keys, s: State, e: Event)
    requires Valid(keys, s) && Enabled(keys, s, e)
    ensures Valid(keys, Next(s, e))
  {
  }

  ghost predicate Step(keys: Keys, s: State, e: Event, s': State) {
    Enabled(keys, s, e) && s' == Next(s, e)
  }

  ghost function Steps(keys: Keys): (State, Event, State) -> bool {
    (s, e, s') => Step(keys, s, e, s')
  }

  /** Since state `from`: its revision has not been left, and nothing watched has changed, or it never returns. */
  ghost function Since(keys: Keys, from: State): State -> bool {
    s => && Valid(keys, s) && from.revision in s.used
         && (s.revision == from.revision ==>
               s.watched == from.watched
                 && forall t | t in keys && t in from.tables :: Seen(s, t) == Projected(from.tables[t], s.watched[t]))
  }

  lemma StepKeepsSince(keys: Keys, from: State, s: State, e: Event)
    requires Since(keys, from)(s) && Enabled(keys, s, e)
    ensures Since(keys, from)(Next(s, e))
  {
    StepKeepsValid(keys, s, e);
    if e.Write? && !Refreshes(e.statement, s.watched[e.table]) {
      SilentStatementsChangeNothing(s.tables[e.table], e.statement, keys[e.table], s.watched[e.table]);
    }
  }

  /** In a run, states that carry the same revision show the same watched columns of every table. */
  lemma SameRevisionSameContents(keys: Keys, states: seq<State>, events: seq<Event>, i: nat, j: nat, t: string)
    requires |states| > 0 && Valid(keys, states[0]) && Runs.Run(states[0], Steps(keys), states, events)
    requires i <= j < |states| && states[i].revision == states[j].revision && t in keys
    ensures Valid(keys, states[i]) && Valid(keys, states[j])
    ensures states[i].watched == states[j].watched && Seen(states[i], t) == Seen(states[j], t)
  {
    var valid := (s: State) => Valid(keys, s);
    forall s: State, e: Event, s': State | valid(s) && Steps(keys)(s, e, s') ensures valid(s') {
      StepKeepsValid(keys, s, e);
    }
    Runs.Stays(states[0], Steps(keys), valid, states, events, 0, i);
    SinceIsKept(keys, states[i]);
    Runs.Stays(states[0], Steps(keys), Since(keys, states[i]), states, events, i, j);
  }

  lemma SinceIsKept(keys: Keys, from: State)
    ensures Runs.Kept(Steps(keys), Since(keys, from))
  {
    forall s: State, e: Event, s': State | Since(keys, from)(s) && Steps(keys)(s, e, s') ensures Since(keys, from)(s') {
      StepKeepsSince(keys, from, s, e);
    }
  }

  ghost function Left(revision: Uuid): State -> bool {
    (s: State) => s.revision != revision && revision in s.used
  }

  lemma LeftIsKept(keys: Keys, revision: Uuid)
    ensures Runs.Kept(Steps(keys), Left(revision))
  {
  }

  /** A revision that was left is never seen again. */
  lemma RevisionsDoNotReturn(keys: Keys, states: seq<State>, events: seq<Event>, i: nat, j: nat, k: nat)
    requires |states| > 0 && Valid(keys, states[0]) && Runs.Run(states[0], Steps(keys), states, events)
    requires i <= j <= k < |states| && states[i].revision == states[k].revision && keys != map[]
    ensures states[j].revision == states[i].revision
  {
    var revision := states[i].revision;
    IsUsed(keys, states, events, i, j);
    if Left(revision)(states[j]) {
      LeftIsKept(keys, revision);
      Runs.Stays(states[0], Steps(keys), Left(revision), states, events, j, k);
    }
  }

  lemma IsUsed(keys: Keys, states: seq<State>, events: seq<Event>, i: nat, j: nat)
    requires |states| > 0 && Valid(keys, states[0]) && Runs.Run(states[0], Steps(keys), states, events)
    requires i <= j < |states| && keys != map[]
    ensures states[i].revision in states[j].used
  {
    var t :| t in keys;
    SameRevisionSameContents(keys, states, events, i, i, t);
    SinceIsKept(keys, states[i]);
    Runs.Stays(states[0], Steps(keys), Since(keys, states[i]), states, events, i, j);
  }

  /* ---------- snapshots ---------- */

  lemma ProjectedTwice(table: Table, columns: set<Column>, read: set<Column>)
    requires read <= columns
    ensures Projected(Projected(table, columns), read) == Projected(table, read)
  {
    forall row | row in table ensures Restricted(Restricted(row, columns), read) == Restricted(row, read) {
      RestrictedTwice(row, columns, read);
    }
    forall row | row in Projected(table, read) ensures row in Projected(Projected(table, columns), read) {
      var r :| r in table && Restricted(r, read) == row;
      assert Restricted(Restricted(r, columns), read) == row;
    }
  }

  /**
   snapshot(): a value loaded between two reads of one revision, even piece by piece, is right for every state
   that carries this revision, as far as it depends on watched columns.
   */
  lemma SnapshotHitsAreCurrent(keys: Keys, states: seq<State>, events: seq<Event>,
                               first: nat, load: nat, second: nat, hit: nat, t: string, read: set<Column>)
    requires |states| > 0 && Valid(keys, states[0]) && Runs.Run(states[0], Steps(keys), states, events)
    requires first <= load <= second < |states| && states[first].revision == states[second].revision
    requires hit < |states| && states[hit].revision == states[first].revision
    requires t in keys && t in states[hit].watched && read <= states[hit].watched[t]
    ensures t in states[load].tables && t in states[hit].tables
    ensures Projected(states[load].tables[t], read) == Projected(states[hit].tables[t], read)
  {
    RevisionsDoNotReturn(keys, states, events, first, load, second);
    if load <= hit {
      SameRevisionSameContents(keys, states, events, load, hit, t);
    } else {
      SameRevisionSameContents(keys, states, events, hit, load, t);
    }
    ProjectedTwice(states[load].tables[t], states[load].watched[t], read);
    ProjectedTwice(states[hit].tables[t], states[hit].watched[t], read);
  }

  /**
   A reader of a column that is not watched can go stale: an UPDATE of that column keeps the revision. This is
   why widening the watched columns has to hand out a new revision as well; with the old one, the state after
   the widening would still accept what was loaded before the UPDATE.
   */
  lemma UnwatchedColumnsGoStale(keys: Keys, s: State, t: string, row: Row, column: Column, value: Value, uuid: Uuid)
    requires Valid(keys, s) && t in keys && s.tables[t] == {row} && column in row && row[column] != value
    requires column !in s.watched[t] && uuid !in s.used
    ensures var e := Write(t, Update({row}, {row[column := value]}), uuid);
            var after, wide := Next(s, e), s.watched[t] + {column};
            && Enabled(keys, s, e) && after.revision == s.revision
            && Projected(after.tables[t], wide) != Projected(s.tables[t], wide)
            && Next(after, Replace(t, wide, uuid)).revision != s.revision
  {
    var next, wide := row[column := value], s.watched[t] + {column};
    assert Restricted(next, s.watched[t]) == Restricted(row, s.watched[t]);
    assert {row} - {row} + {next} == {next};
    assert Restricted(next, wide)[column] != Restricted(row, wide)[column];
    assert Restricted(next, wide) in Projected({next}, wide) && Restricted(next, wide) !in Projected({row}, wide);
  }

  /* ---------- the trigger ---------- */

  class Catalog {
    const keys: Keys
    var tables: map<string, Table>
    var watched: map<string, set<Column>>
    var revision: Uuid
    ghost var used: set<Uuid>

    ghost function View(): State
      reads this
    {
      State(tables, watched, revision, used)
    }

    /** The body of a refresh function; it runs after the statement, on its transition tables. */
    method Refresh(t: string, statement: Statement, uuid: Uuid)
      requires t in watched
      modifies `revision, `used
      ensures View() == if Refreshes(statement, watched[t]) then Fresh(old(View()), uuid) else old(View())
    {
      match statement {
        case Insert(rows) => if rows == {} { return; }
        case Delete(rows) => if rows == {} { return; }
        case Update(before, after) =>
          if !exists row :: row in after && Restricted(row, watched[t]) !in Projected(before, watched[t]) { return; }
        case Truncate =>
      }
      revision, used := uuid, used + {uuid};
    }

    method Execute(t: string, statement: Statement, uuid: Uuid)
      requires Valid(keys, View()) && Enabled(keys, View(), Write(t, statement, uuid))
      modifies this
      ensures View() == Next(old(View()), Write(t, statement, uuid)) && Valid(keys, View())
    {
      StepKeepsValid(keys, View(), Write(t, statement, uuid));
      tables := tables[t := After(tables[t], statement)];
      Refresh(t, statement, uuid);
    }

    /** replace_revision_function, with the forced eviction that follows it. */
    method ReplaceColumns(t: string, columns: set<Column>, uuid: Uuid)
      requires Valid(keys, View()) && Enabled(keys, View(), Replace(t, columns, uuid))
      modifies this
      ensures View() == Next(old(View()), Replace(t, columns, uuid)) && Valid(keys, View())
    {
      StepKeepsValid(keys, View(), Replace(t, columns, uuid));
      watched := watched[t := columns];
      revision, used := uuid, used + {uuid};
    }
  }
}

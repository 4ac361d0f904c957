/**
 topic_decision_calls, the projection of each run's call array that a trigger keeps
 (migrations/versions/0036_topic_decision_calls.py).
 */
module DecisionCalls {
  import opened MinMax
  import opened Options

  type Id = int

  /** A JSON value. Equal numbers can be spelled with different scales: 1 and 1.0. */
  datatype Json =
    | Absent
    | Null
    | Boolean(b: bool)
    | Text(text: string)
    | Number(value: real, scale: nat)
    | Container(identity: nat, spelling: string)

  /** An array element: an object, by the fields the projection reads, or anything else. */
  datatype Call =
    | Entry(stage: Json, started: Json, total: Json, input: Json, output: Json, charged: Json, escalated: Json,
            rest: Json)
    | Plain(value: Json)

  /** state->'calls': SQL NULL, something other than an array, or an array. */
  datatype Calls = Missing | NotArray(value: Json) | Array(items: seq<Call>)

  /** What PostgreSQL makes of a text: the casts guarded by pg_input_is_valid, and how it spells a number. */
  datatype Parsers = Parsers(bigint: string -> Option<int>, timestamp: string -> Option<int>,
                             boolean: string -> Option<bool>, digits: (real, nat) -> string)

  datatype Row = Row(stage: Option<string>, stageCall: nat, startedAt: Option<int>,
                     tokens: int, charged: Option<int>, escalated: bool)

  /* ---------- reading a call ---------- */

  /** The ->> operator. */
  function Spelled(p: Parsers, j: Json): Option<string> {
    match j
    case Absent => None
    case Null => None
    case Boolean(b) => Some(if b then "true" else "false")
    case Text(t) => Some(t)
    case Number(v, s) => Some(p.digits(v, s))
    case Container(_, t) => Some(t)
  }

  function Parsed<T>(text: Option<string>, parse: string -> Option<T>): Option<T> {
    if text.Some? then parse(text.value) else None
  }

  /** A call as the projection reads it, before calls are numbered within their stage. */
  datatype Reading = Reading(stage: Option<string>, startedAt: Option<int>, tokens: int, charged: Option<int>,
                             escalated: bool)

  function Read(p: Parsers, c: Call): Reading {
    match c
    case Plain(_) => Reading(None, None, 0, None, false)
    case Entry(stage, started, total, input, output, charged, escalated, _) =>
      Reading(Spelled(p, stage), Parsed(Spelled(p, started), p.timestamp),
              Max(Parsed(Spelled(p, total), p.bigint).GetOr(0),
                  Parsed(Spelled(p, input), p.bigint).GetOr(0) + Parsed(Spelled(p, output), p.bigint).GetOr(0)),
              Parsed(Spelled(p, charged), p.bigint), Parsed(Spelled(p, escalated), p.boolean).GetOr(false))
  }

  function Items(calls: Calls): seq<Call> {
    if calls.Array? then calls.items else []
  }

  function Readings(p: Parsers, items: seq<Call>): (readings: seq<Reading>)
    ensures |readings| == |items| && forall i | 0 <= i < |items| :: readings[i] == Read(p, items[i])
  {
    seq(|items|, i requires 0 <= i < |items| => Read(p, items[i]))
  }

  /** row_number() over the stage: how many of the first n calls are of this stage. */
  function Count(readings: seq<Reading>, stage: Option<string>, n: nat): nat
    requires n <= |readings|
  {
    if n == 0 then 0 else Count(readings, stage, n - 1) + if readings[n - 1].stage == stage then 1 else 0
  }

  function RowAt(readings: seq<Reading>, i: nat): Row
    requires i < |readings|
  {
    var r := readings[i];
    Row(r.stage, Count(readings, r.stage, i + 1), r.startedAt, r.tokens, r.charged, r.escalated)
  }

  /** topic_decision_call_values; the row of ordinal n stands at n - 1. */
  function Values(p: Parsers, calls: Calls): (rows: seq<Row>)
    ensures |rows| == |Items(calls)|
  {
    var readings := Readings(p, Items(calls));
    seq(|readings|, i requires 0 <= i < |readings| => RowAt(readings, i))
  }

  /* ---------- the numbers within a stage ---------- */

  lemma {:induction false} CountGrows(readings: seq<Reading>, stage: Option<string>, m: nat, n: nat)
    requires m <= n <= |readings|
    ensures Count(readings, stage, m) <= Count(readings, stage, n)
  {
    if m < n {
      CountGrows(readings, stage, m, n - 1);
    }
  }

  lemma {:induction false} CountReaches(readings: seq<Reading>, stage: Option<string>, n: nat, k: nat) returns (i: nat)
    requires n <= |readings| && 1 <= k <= Count(readings, stage, n)
    ensures i < n && readings[i].stage == stage && Count(readings, stage, i + 1) == k
  {
    if k <= Count(readings, stage, n - 1) {
      i := CountReaches(readings, stage, n - 1, k);
    } else {
      i := n - 1;
    }
  }

  lemma ValueAt(p: Parsers, calls: Calls, i: nat)
    requires i < |Items(calls)|
    ensures Values(p, calls)[i] == RowAt(Readings(p, Items(calls)), i)
  {
  }

  lemma LaterRowsHaveLargerNumbers(readings: seq<Reading>, i: nat, j: nat)
    requires i < j < |readings| && readings[i].stage == readings[j].stage
    ensures 1 <= RowAt(readings, i).stageCall < RowAt(readings, j).stageCall
  {
    CountGrows(readings, readings[i].stage, i + 1, j);
  }

  /** Within each stage, the unnamed one included, calls are numbered in order, from 1 and without a gap. */
  lemma StageNumbersRunInOrder(p: Parsers, calls: Calls, i: nat, j: nat)
    requires i < j < |Values(p, calls)|
    requires Values(p, calls)[i].stage == Values(p, calls)[j].stage
    ensures 1 <= Values(p, calls)[i].stageCall < Values(p, calls)[j].stageCall
  {
    var readings := Readings(p, Items(calls));
    ValueAt(p, calls, i);
    ValueAt(p, calls, j);
    LaterRowsHaveLargerNumbers(readings, i, j);
  }

  lemma StageNumbersHaveNoGap(p: Parsers, calls: Calls, j: nat, k: nat) returns (i: nat)
    requires j < |Values(p, calls)| && 1 <= k <= Values(p, calls)[j].stageCall
    ensures i <= j && Values(p, calls)[i].stage == Values(p, calls)[j].stage && Values(p, calls)[i].stageCall == k
  {
    var readings := Readings(p, Items(calls));
    i := CountReaches(readings, readings[j].stage, j + 1, k);
  }

  lemma {:induction false} CountOfPrefix(xs: seq<Reading>, ys: seq<Reading>, stage: Option<string>, n: nat)
    requires n <= |xs| && n <= |ys| && xs[..n] == ys[..n]
    ensures Count(xs, stage, n) == Count(ys, stage, n)
  {
    if n > 0 {
      assert xs[n - 1] == xs[..n][n - 1] == ys[..n][n - 1] == ys[n - 1];
      assert xs[..n - 1] == xs[..n][..n - 1] == ys[..n][..n - 1] == ys[..n - 1];
      CountOfPrefix(xs, ys, stage, n - 1);
    }
  }

  /** What follows a call has no part in its row. */
  lemma AppendKeepsEarlierValues(p: Parsers, items: seq<Call>, more: seq<Call>)
    ensures Values(p, Array(items)) <= Values(p, Array(items + more))
  {
    var xs, ys := Readings(p, items), Readings(p, items + more);
    forall i | 0 <= i < |items| ensures Values(p, Array(items))[i] == Values(p, Array(items + more))[i] {
      assert xs[i] == ys[i];
      assert xs[..i + 1] == ys[..i + 1];
      CountOfPrefix(xs, ys, xs[i].stage, i + 1);
    }
  }

  /** Rows agree exactly when the calls read the same, one by one. */
  lemma SameRowsIfSameReadings(p: Parsers, a: Calls, b: Calls)
    ensures Values(p, a) == Values(p, b) <==> Readings(p, Items(a)) == Readings(p, Items(b))
  {
    var xs, ys := Readings(p, Items(a)), Readings(p, Items(b));
    if Values(p, a) == Values(p, b) {
      assert |xs| == |ys|;
      forall i | 0 <= i < |xs| ensures xs[i] == ys[i] {
        assert Values(p, a)[i] == RowAt(xs, i) && Values(p, b)[i] == RowAt(ys, i);
      }
    }
  }

  /* ---------- jsonb equality ---------- */

  predicate SameJson(a: Json, b: Json) {
    if a.Number? && b.Number? then a.value == b.value
    else if a.Container? && b.Container? then a.identity == b.identity
    else a == b
  }

  predicate SameCall(a: Call, b: Call) {
    if a.Entry? && b.Entry? then
      && SameJson(a.stage, b.stage) && SameJson(a.started, b.started) && SameJson(a.total, b.total)
      && SameJson(a.input, b.input) && SameJson(a.output, b.output) && SameJson(a.charged, b.charged)
      && SameJson(a.escalated, b.escalated) && SameJson(a.rest, b.rest)
    else
      a.Plain? && b.Plain? && SameJson(a.value, b.value)
  }

  /** OLD.state->'calls' IS NOT DISTINCT FROM NEW.state->'calls'. */
  predicate Undistinguished(a: Calls, b: Calls) {
    match (a, b)
    case (Missing, Missing) => true
    case (NotArray(x), NotArray(y)) => SameJson(x, y)
    case (Array(xs), Array(ys)) => |xs| == |ys| && forall i | 0 <= i < |xs| :: SameCall(xs[i], ys[i])
    case _ => false
  }

  /* ---------- the two statements of the trigger, over any kind of row ---------- */

  type Stored<R> = map<(Id, int), R>

  function At<R>(rows: Stored<R>, id: Id, ordinal: int): Option<R> {
    if (id, ordinal) in rows then Some(rows[(id, ordinal)]) else None
  }

  function Expected<R>(values: seq<R>, ordinal: int): Option<R> {
    if 1 <= ordinal <= |values| then Some(values[ordinal - 1]) else None
  }

  /** Ordinals count from one. */
  ghost predicate Numbered<R>(rows: Stored<R>) {
    forall key | key in rows :: key.1 >= 1
  }

  /** The stored rows of a run are these values and nothing else. */
  ghost predicate Stores<R>(rows: Stored<R>, id: Id, values: seq<R>) {
    forall ordinal :: At(rows, id, ordinal) == Expected(values, ordinal)
  }

  ghost predicate OthersKept<R>(before: Stored<R>, after: Stored<R>, id: Id) {
    forall other, ordinal | other != id :: At(after, other, ordinal) == At(before, other, ordinal)
  }

  function Differing<R(==)>(rows: Stored<R>, id: Id, values: seq<R>): (ordinals: set<int>)
    ensures forall o :: o in ordinals <==> 1 <= o <= |values| && At(rows, id, o) != Some(values[o - 1])
  {
    set o | 1 <= o <= |values| && At(rows, id, o) != Some(values[o - 1])
  }

  function Overwritten<R(==)>(rows: Stored<R>, id: Id, values: seq<R>): Stored<R> {
    rows + map o | o in Differing(rows, id, values) :: (id, o) := values[o - 1]
  }

  function Trimmed<R>(rows: Stored<R>, id: Id, count: nat): Stored<R> {
    map key | key in rows && !(key.0 == id && key.1 > count) :: rows[key]
  }

  lemma OverwrittenAt<R>(rows: Stored<R>, id: Id, values: seq<R>, other: Id, ordinal: int)
    ensures At(Overwritten(rows, id, values), other, ordinal) ==
            if other == id && 1 <= ordinal <= |values| then Some(values[ordinal - 1]) else At(rows, other, ordinal)
  {
  }

  lemma TrimmedAt<R>(rows: Stored<R>, id: Id, count: nat, other: Id, ordinal: int)
    ensures At(Trimmed(rows, id, count), other, ordinal) ==
            if other == id && ordinal > count then None else At(rows, other, ordinal)
  {
  }

  /** Skipping the rows that are right already and cutting off the tail stores exactly the new values. */
  lemma SyncStores<R>(rows: Stored<R>, id: Id, values: seq<R>)
    requires Numbered(rows)
    ensures var after := Trimmed(Overwritten(rows, id, values), id, |values|);
            Numbered(after) && Stores(after, id, values) && OthersKept(rows, after, id)
  {
    var between := Overwritten(rows, id, values);
    var after := Trimmed(between, id, |values|);
    forall other, ordinal
      ensures At(after, other, ordinal) == if other == id then Expected(values, ordinal) else At(rows, other, ordinal)
    {
      OverwrittenAt(rows, id, values, other, ordinal);
      TrimmedAt(between, id, |values|, other, ordinal);
    }
  }

  lemma StoresOneProjection<R>(rows: Stored<R>, id: Id, a: seq<R>, b: seq<R>)
    requires Stores(rows, id, a) && Stores(rows, id, b)
    ensures a == b
  {
    assert At(rows, id, |a|) == Expected(a, |a|) && At(rows, id, |a|) == Expected(b, |a|);
    assert At(rows, id, |b|) == Expected(a, |b|) && At(rows, id, |b|) == Expected(b, |b|);
    forall i | 0 <= i < |a| ensures a[i] == b[i] {
      assert At(rows, id, i + 1) == Expected(a, i + 1) && At(rows, id, i + 1) == Expected(b, i + 1);
    }
  }

  /** Appending calls rewrites no row that was there. */
  lemma AppendWritesOnlyNewRows(p: Parsers, rows: Stored<Row>, id: Id, items: seq<Call>, more: seq<Call>)
    requires Stores(rows, id, Values(p, Array(items)))
    ensures forall o :: o in Differing(rows, id, Values(p, Array(items + more))) <==> |items| < o <= |items| + |more|
  {
    var before, after := Values(p, Array(items)), Values(p, Array(items + more));
    AppendKeepsEarlierValues(p, items, more);
    forall o | 1 <= o <= |after| ensures At(rows, id, o) != Some(after[o - 1]) <==> o > |items| {
      assert At(rows, id, o) == Expected(before, o);
    }
  }

  /** 1 rewritten as 1.0 is no change to the trigger, but only the first spelling is a valid bigint. */
  lemma RespelledNumberGoesUnnoticed(p: Parsers, rows: Stored<Row>, id: Id) returns (before: Calls, after: Calls)
    requires p.bigint(p.digits(1.0, 0)) == Some(1) && p.bigint(p.digits(1.0, 1)) == None
    ensures Undistinguished(before, after)
    ensures Stores(rows, id, Values(p, before)) ==> !Stores(rows, id, Values(p, after))
  {
    var call := Entry(Absent, Absent, Number(1.0, 0), Absent, Absent, Absent, Absent, Absent);
    before := Array([call]);
    after := Array([call.(total := Number(1.0, 1))]);
    assert Values(p, before)[0].tokens == 1 && Values(p, after)[0].tokens == 0;
    if Stores(rows, id, Values(p, before)) && Stores(rows, id, Values(p, after)) {
      StoresOneProjection(rows, id, Values(p, before), Values(p, after));
    }
  }

  /** The INSERT of the migration: the projection of every run there is. */
  function Backfill(p: Parsers, runs: map<Id, Calls>): Stored<Row> {
    map id, ordinal | id in runs && 1 <= ordinal <= |Items(runs[id])| ::
      (id, ordinal) := Values(p, runs[id])[ordinal - 1]
  }

  lemma BackfillAt(p: Parsers, runs: map<Id, Calls>, id: Id, ordinal: int)
    requires id in runs
    ensures At(Backfill(p, runs), id, ordinal) == Expected(Values(p, runs[id]), ordinal)
  {
  }

  lemma BackfillIsCurrent(p: Parsers, runs: map<Id, Calls>, rows: Stored<Row>)
    requires rows == Backfill(p, runs)
    ensures Numbered(rows) && forall key | key in rows :: key.0 in runs
    ensures forall id | id in runs :: Stores(rows, id, Values(p, runs[id]))
  {
    forall id, ordinal | id in runs ensures At(rows, id, ordinal) == Expected(Values(p, runs[id]), ordinal) {
      BackfillAt(p, runs, id, ordinal);
    }
  }

  /* ---------- the table and its trigger ---------- */

  class Decisions {
    const parsers: Parsers
    var runs: map<Id, Calls>
    var rows: Stored<Row>

    /** Rows belong to a run (the foreign key) and are numbered from one. */
    ghost predicate Valid()
      reads this
    {
      Numbered(rows) && forall key | key in rows :: key.0 in runs
    }

    /** Every run is stored as the projection of its current calls. */
    ghost predicate Current()
      reads this
    {
      forall id | id in runs :: Stores(rows, id, Values(parsers, runs[id]))
    }

    constructor (parsers: Parsers, runs: map<Id, Calls>)
      ensures this.parsers == parsers && this.runs == runs && Valid() && Current()
    {
      var rows := Backfill(parsers, runs);
      BackfillIsCurrent(parsers, runs, rows);
      this.parsers, this.runs, this.rows := parsers, runs, rows;
    }

    /** The body of topic_decision_calls_sync; `written` are the ordinals it touches. */
    method Write(id: Id, calls: Calls) returns (written: set<int>)
      requires Valid() && id in runs
      modifies `rows
      ensures Valid() && Stores(rows, id, Values(parsers, calls)) && OthersKept(old(rows), rows, id)
      ensures forall o :: o in written <==>
                1 <= o <= |Items(calls)| && At(old(rows), id, o) != Some(Values(parsers, calls)[o - 1])
    {
      var values := Values(parsers, calls);
      SyncStores(rows, id, values);
      written := Differing(rows, id, values);
      rows := Overwritten(rows, id, values);
      rows := Trimmed(rows, id, |values|);
    }

    method Insert(id: Id, calls: Calls)
      requires Valid() && id !in runs
      modifies this
      ensures Valid() && runs == old(runs)[id := calls] && (old(Current()) ==> Current())
    {
      runs := runs[id := calls];
      var _ := Write(id, calls);
    }

    /** Right afterwards for this run, unless numbers were only respelled and read differently for it. */
    method Update(id: Id, calls: Calls) returns (written: set<int>)
      requires Valid() && id in runs
      modifies this
      ensures Valid() && runs == old(runs)[id := calls]
      ensures OthersKept(old(rows), rows, id)
      ensures old(Current()) ==>
                (Current() <==> !Undistinguished(old(runs)[id], calls)
                                || Readings(parsers, Items(old(runs)[id])) == Readings(parsers, Items(calls)))
    {
      SameRowsIfSameReadings(parsers, runs[id], calls);
      if Undistinguished(runs[id], calls) {
        ghost var before := Values(parsers, runs[id]);
        runs := runs[id := calls];
        written := {};
        if old(Current()) && Current() {
          assert id in old(runs) && id in runs;
          StoresOneProjection(rows, id, before, Values(parsers, calls));
        }
      } else {
        runs := runs[id := calls];
        written := Write(id, calls);
      }
    }

    /** ON DELETE CASCADE. */
    method Delete(ids: set<Id>)
      requires Valid()
      modifies this
      ensures Valid() && runs == old(runs) - ids && (old(Current()) ==> Current())
    {
      runs := runs - ids;
      rows := map key | key in rows && key.0 !in ids :: rows[key];
    }
  }
}

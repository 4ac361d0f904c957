/**
 The daily inference totals of migrations/versions/0031_inference_daily_usage.py: a table that
 statement triggers keep equal to a GROUP BY of the invocation ledger.
 */
module DailyUsage {
  import opened Decimals
  import opened MinMax
  import opened Options
  import opened Sums
  import opened GroupedView

  /** A ledger row; `startedAt` counts microseconds of UTC from the epoch, `tokens` holds what `->>` returns. */
  datatype Call = Call(startedAt: int, operation: string, model: Option<string>, effort: Option<string>,
                       status: string, tokens: map<string, string>, webSearches: int, durationMs: int)

  /** The primary key of the daily table. */
  datatype Key = Key(day: int, operation: string, model: string, modelIsNull: bool, effort: string)

  /** The metric columns of the daily table. */
  datatype Metric = Calls | Returned | Failed | Running | Unreported | InputTokens | CachedInputTokens
                  | OutputTokens | ReasoningTokens | WebSearches | DurationMs

  type Ledger = map<Id, Call>
  type Daily = map<Key, map<Metric, int>>

  const MICROSECONDS_PER_DAY := 86_400_000_000

  /* ---------- the projection and the metrics of one row ---------- */

  /** One to twelve digits are a count; anything else, or no entry at all, counts nothing. */
  function TokenCount(call: Call, key: string): nat {
    if key in call.tokens && 1 <= |call.tokens[key]| <= 12 && Digits(call.tokens[key])
    then NumberOf(call.tokens[key])
    else 0
  }

  /** The UTC day and the coalesced labels; an absent model keeps its own flag, an absent effort does not. */
  function KeyOf(call: Call): Key {
    Key(call.startedAt / MICROSECONDS_PER_DAY, call.operation, call.model.GetOr("Unknown model"),
        call.model.None?, call.effort.GetOr("Inherited / unknown"))
  }

  function Bit(b: bool): int {
    if b then 1 else 0
  }

  /** What one row adds to a metric of its group, before its sign. */
  function Amount(metric: Metric, call: Call): int {
    match metric
    case Calls => 1
    case Returned => Bit(call.status == "returned")
    case Failed => Bit(call.status == "failed")
    case Running => Bit(call.status == "running")
    case Unreported => Bit(TokenCount(call, "inputTokens") + TokenCount(call, "outputTokens") == 0)
    case InputTokens => TokenCount(call, "inputTokens")
    case CachedInputTokens => Min(TokenCount(call, "inputTokens"), TokenCount(call, "cachedInputTokens"))
    case OutputTokens => TokenCount(call, "outputTokens")
    case ReasoningTokens => Min(TokenCount(call, "outputTokens"), TokenCount(call, "reasoningOutputTokens"))
    case WebSearches => call.webSearches
    case DurationMs => call.durationMs
  }

  const METRICS: set<Metric> := set metric: Metric | true
  const QUERY: Query<Call, Key, Metric> := Query(KeyOf, Amount, METRICS, Calls)

  /** What the table must equal: the backfill query over the whole ledger. */
  ghost function Expected(ledger: Ledger): Daily {
    View(QUERY, ledger)
  }

  /* ---------- statements and runs of them ---------- */

  datatype Statement =
    | Insert(rows: Ledger)
    | Update(gone: set<Id>, rows: Ledger)
    | Delete(gone: set<Id>)
    | Truncate

  predicate Admits(ledger: Ledger, s: Statement) {
    match s
    case Insert(rows) => Legal(ledger, {}, rows)
    case Update(gone, rows) => Legal(ledger, gone, rows) && |gone| == |rows|
    case Delete(gone) => Legal(ledger, gone, map[])
    case Truncate => true
  }

  function LedgerAfter(ledger: Ledger, s: Statement): Ledger {
    match s
    case Insert(rows) => Rewrite(ledger, {}, rows)
    case Update(gone, rows) => Rewrite(ledger, gone, rows)
    case Delete(gone) => Rewrite(ledger, gone, map[])
    case Truncate => map[]
  }

  /** What the fired trigger makes of the table, from its transition tables alone. */
  ghost function DailyAfter(daily: Daily, ledger: Ledger, s: Statement): Daily
    requires Complete(QUERY, daily)
    ensures Complete(QUERY, DailyAfter(daily, ledger, s))
  {
    match s
    case Insert(rows) => Delta(QUERY, daily, Signed(1, rows))
    case Update(gone, rows) => Delta(QUERY, daily, Changed(ledger, gone, rows))
    case Delete(gone) => Delta(QUERY, daily, Signed(-1, OldRows(ledger, gone)))
    case Truncate => map[]
  }

  lemma StatementIsExact(ledger: Ledger, s: Statement)
    requires Admits(ledger, s)
    ensures DailyAfter(Expected(ledger), ledger, s) == Expected(LedgerAfter(ledger, s))
  {
    match s
    case Insert(rows) =>
      assert Signed(1, rows) == Changed(ledger, {}, rows);
      DeltaIsExact(QUERY, ledger, {}, rows);
    case Update(gone, rows) =>
      DeltaIsExact(QUERY, ledger, gone, rows);
    case Delete(gone) =>
      assert Signed(-1, OldRows(ledger, gone)) == Changed(ledger, gone, map[]);
      DeltaIsExact(QUERY, ledger, gone, map[]);
    case Truncate =>
      assert Keys(QUERY, Signed(1, map[])) == {};
  }

  ghost predicate AdmitsAll(ledger: Ledger, run: seq<Statement>)
    decreases |run|
  {
    run != [] ==> Admits(ledger, run[0]) && AdmitsAll(LedgerAfter(ledger, run[0]), run[1..])
  }

  function LedgerAfterAll(ledger: Ledger, run: seq<Statement>): Ledger
    decreases |run|
  {
    if run == [] then ledger else LedgerAfterAll(LedgerAfter(ledger, run[0]), run[1..])
  }

  ghost function DailyAfterAll(daily: Daily, ledger: Ledger, run: seq<Statement>): Daily
    requires Complete(QUERY, daily)
    decreases |run|
  {
    if run == [] then daily
    else DailyAfterAll(DailyAfter(daily, ledger, run[0]), LedgerAfter(ledger, run[0]), run[1..])
  }

  /** After the backfill and any run of statements, the table is the GROUP BY of the current ledger. */
  lemma {:induction false} RunIsExact(ledger: Ledger, run: seq<Statement>)
    requires AdmitsAll(ledger, run)
    ensures DailyAfterAll(Expected(ledger), ledger, run) == Expected(LedgerAfterAll(ledger, run))
    decreases |run|
  {
    if run != [] {
      StatementIsExact(ledger, run[0]);
      RunIsExact(LedgerAfter(ledger, run[0]), run[1..]);
    }
  }

  /* ---------- what a reader of the table may rely on ---------- */

  /** A cell of the exact table. */
  ghost function Cell(ledger: Ledger, key: Key, metric: Metric): int {
    Entry(Expected(ledger), key, metric)
  }

  /** A row is there exactly when a call is, and counts the calls of its group. */
  lemma RowsCountCalls(ledger: Ledger, key: Key)
    ensures Cell(ledger, key, Calls) == |IdsOf(QUERY, ledger, key)|
    ensures key in Expected(ledger) <==> Cell(ledger, key, Calls) > 0
  {
    EntryIsTotal(QUERY, ledger, key, Calls);
    GroupExists(QUERY, ledger, key);
    CounterCounts(QUERY, ledger, key);
  }

  lemma Cap(ledger: Ledger, key: Key, small: Metric, large: Metric)
    requires forall call: Call :: 0 <= Amount(small, call) <= Amount(large, call)
    ensures 0 <= Cell(ledger, key, small) <= Cell(ledger, key, large)
  {
    EntryIsTotal(QUERY, ledger, key, small);
    EntryIsTotal(QUERY, ledger, key, large);
    Dominated(QUERY, ledger, key, small, large);
  }

  lemma StatusesAreDisjoint(ledger: Ledger, key: Key)
    ensures Cell(ledger, key, Returned) + Cell(ledger, key, Failed) + Cell(ledger, key, Running)
              <= Cell(ledger, key, Calls)
  {
    EntryIsTotal(QUERY, ledger, key, Returned);
    EntryIsTotal(QUERY, ledger, key, Failed);
    EntryIsTotal(QUERY, ledger, key, Running);
    EntryIsTotal(QUERY, ledger, key, Calls);
    Disjoint(QUERY, ledger, key, Returned, Failed, Running, Calls);
  }

  /** Cached tokens never exceed input tokens, nor reasoning tokens output tokens, in any row. */
  lemma RowsRespectCaps(ledger: Ledger, key: Key)
    ensures 0 <= Cell(ledger, key, CachedInputTokens) <= Cell(ledger, key, InputTokens)
    ensures 0 <= Cell(ledger, key, ReasoningTokens) <= Cell(ledger, key, OutputTokens)
    ensures 0 <= Cell(ledger, key, Unreported) <= Cell(ledger, key, Calls)
    ensures Cell(ledger, key, Returned) + Cell(ledger, key, Failed) + Cell(ledger, key, Running)
              <= Cell(ledger, key, Calls)
  {
    Cap(ledger, key, CachedInputTokens, InputTokens);
    Cap(ledger, key, ReasoningTokens, OutputTokens);
    Cap(ledger, key, Unreported, Calls);
    StatusesAreDisjoint(ledger, key);
  }

  /** Each column of the table adds up to what the whole ledger says. */
  lemma GroupsConserveTotals(ledger: Ledger, metric: Metric)
    ensures Sum(ViewColumn(Expected(ledger), metric)) == Sum(Amounts(QUERY, ledger, metric))
  {
    Conserved(QUERY, ledger, metric);
  }

  /* ---------- the tables and their triggers ---------- */

  class Tables {
    var ledger: Ledger
    var daily: Daily

    ghost predicate Exact()
      reads this
    {
      daily == Expected(ledger)
    }

    /** The backfill, under the table lock. */
    constructor (existing: Ledger)
      ensures ledger == existing && Exact()
    {
      ledger := existing;
      var totals := Grouped(QUERY, Signed(1, existing));
      daily := totals;
    }

    /** Upsert the signed totals of the changed rows, then clean up the groups they emptied. */
    method ApplyDelta(changed: map<Tag, Call>)
      requires Complete(QUERY, daily)
      modifies `daily
      ensures daily == Delta(QUERY, old(daily), changed)
    {
      var totals := Grouped(QUERY, changed);
      daily := Upsert(QUERY, daily, totals);
      daily := Cleanup(QUERY, daily, Keys(QUERY, changed));
    }

    /** The statement triggers: the event selects which transition tables are read. */
    method Fire(before: Ledger, s: Statement)
      requires Complete(QUERY, daily)
      modifies `daily
      ensures daily == DailyAfter(old(daily), before, s)
    {
      match s
      case Insert(rows) => ApplyDelta(Signed(1, rows));
      case Delete(gone) => ApplyDelta(Signed(-1, OldRows(before, gone)));
      case Update(gone, rows) => ApplyDelta(Changed(before, gone, rows));
      case Truncate => daily := map[];
    }

    /** A writer's statement and the trigger it fires, in one transaction. */
    method Execute(s: Statement)
      requires Exact() && Admits(ledger, s)
      modifies this
      ensures Exact() && ledger == LedgerAfter(old(ledger), s)
    {
      StatementIsExact(ledger, s);
      var before := ledger;
      ledger := LedgerAfter(ledger, s);
      Fire(before, s);
    }
  }
}

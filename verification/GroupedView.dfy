/**
 A table that holds a grouped query and is maintained by signed deltas: the shape of
 migrations/versions/0031_inference_daily_usage.py for any projection and any metrics.

 A relation handed to the query is a map from (sign, row id) to a row, so a UNION ALL of new rows
 (sign 1) and old rows (sign -1) keeps both versions of an updated row.
 */
module GroupedView {
  import opened Sums

  type Id = nat
  datatype Tag = Tag(sign: int, id: Id)

  /** The projected key of a row, what the row adds to each metric, and the metric that counts rows. */
  datatype Query<!R, !K, !M> = Query(key: R -> K, amount: (M, R) -> int, metrics: set<M>, counter: M)

  ghost predicate Counts<R(!new), K, M>(q: Query<R, K, M>) {
    q.counter in q.metrics && forall row :: q.amount(q.counter, row) == 1
  }

  /* ---------- the grouped query ---------- */

  /** sign * amount for the rows of one group: the column that sum() adds up. */
  ghost function Column<R, K, M>(q: Query<R, K, M>, rel: map<Tag, R>, key: K, metric: M): map<Tag, int> {
    map t | t in rel && q.key(rel[t]) == key :: t.sign * q.amount(metric, rel[t])
  }

  ghost function Total<R, K, M>(q: Query<R, K, M>, rel: map<Tag, R>, key: K, metric: M): int {
    Sum(Column(q, rel, key, metric))
  }

  ghost function Totals<R, K, M>(q: Query<R, K, M>, rel: map<Tag, R>, key: K): map<M, int> {
    map metric | metric in q.metrics :: Total(q, rel, key, metric)
  }

  function Keys<R, K(==), M>(q: Query<R, K, M>, rel: map<Tag, R>): set<K> {
    set t | t in rel :: q.key(rel[t])
  }

  /** SELECT key, totals FROM rel GROUP BY key. */
  ghost function GroupBy<R, K, M>(q: Query<R, K, M>, rel: map<Tag, R>): map<K, map<M, int>> {
    map key | key in Keys(q, rel) :: Totals(q, rel, key)
  }

  function Signed<R>(sign: int, rows: map<Id, R>): map<Tag, R> {
    map id | id in rows :: Tag(sign, id) := rows[id]
  }

  /** The query over a whole table. */
  ghost function View<R, K, M>(q: Query<R, K, M>, table: map<Id, R>): map<K, map<M, int>> {
    GroupBy(q, Signed(1, table))
  }

  /* ---------- the statements that maintain the view ---------- */

  ghost predicate Complete<R, K, M>(q: Query<R, K, M>, view: map<K, map<M, int>>) {
    forall key, metric | key in view && metric in q.metrics :: metric in view[key]
  }

  function Added<M>(metrics: set<M>, a: map<M, int>, b: map<M, int>): map<M, int>
    requires forall metric | metric in metrics :: metric in a && metric in b
  {
    map metric | metric in metrics :: a[metric] + b[metric]
  }

  /** INSERT ... ON CONFLICT (key) DO UPDATE adding the excluded metrics. */
  function Upsert<R, K, M>(q: Query<R, K, M>, view: map<K, map<M, int>>,
                           totals: map<K, map<M, int>>): map<K, map<M, int>>
    requires Complete(q, view) && Complete(q, totals)
    ensures Complete(q, Upsert(q, view, totals))
  {
    map key | key in view.Keys + totals.Keys ::
      if key !in totals then view[key]
      else if key in view then Added(q.metrics, view[key], totals[key])
      else totals[key]
  }

  /** DELETE of the touched groups that count no row any more. */
  function Cleanup<R, K, M>(q: Query<R, K, M>, view: map<K, map<M, int>>, touched: set<K>): map<K, map<M, int>>
    requires Complete(q, view) && q.counter in q.metrics
  {
    map key | key in view && !(view[key][q.counter] == 0 && key in touched) :: view[key]
  }

  ghost function Delta<R, K, M>(q: Query<R, K, M>, view: map<K, map<M, int>>, changed: map<Tag, R>): map<K, map<M, int>>
    requires Complete(q, view) && q.counter in q.metrics
    ensures Complete(q, Delta(q, view, changed))
  {
    Cleanup(q, Upsert(q, view, GroupBy(q, changed)), Keys(q, changed))
  }

  /* ---------- totals of a table ---------- */

  /** The rows of one group, with what each adds to a metric. */
  ghost function TableColumn<R, K, M>(q: Query<R, K, M>, rows: map<Id, R>, key: K, metric: M): map<Id, int> {
    map id | id in rows && q.key(rows[id]) == key :: q.amount(metric, rows[id])
  }

  ghost function TableTotal<R, K, M>(q: Query<R, K, M>, rows: map<Id, R>, key: K, metric: M): int {
    Sum(TableColumn(q, rows, key, metric))
  }

  lemma {:induction false} SignedSum(a: map<Id, int>, b: map<Tag, int>, sign: int)
    requires sign == 1 || sign == -1
    requires forall id | id in a :: Tag(sign, id) in b && b[Tag(sign, id)] == (if sign == 1 then a[id] else -a[id])
    requires forall t | t in b :: t.sign == sign && t.id in a
    ensures Sum(b) == if sign == 1 then Sum(a) else -Sum(a)
    decreases |a|
  {
    if a == map[] {
      assert b == map[];
    } else {
      var id :| id in a;
      SumRemove(a, id);
      SumRemove(b, Tag(sign, id));
      SignedSum(a - {id}, b - {Tag(sign, id)}, sign);
    }
  }

  lemma SignedTotal<R, K, M>(q: Query<R, K, M>, rows: map<Id, R>, key: K, metric: M, sign: int)
    requires sign == 1 || sign == -1
    ensures Total(q, Signed(sign, rows), key, metric)
            == if sign == 1 then TableTotal(q, rows, key, metric) else -TableTotal(q, rows, key, metric)
  {
    SignedSum(TableColumn(q, rows, key, metric), Column(q, Signed(sign, rows), key, metric), sign);
  }

  ghost function IdsOf<R, K, M>(q: Query<R, K, M>, rows: map<Id, R>, key: K): set<Id> {
    set id | id in rows && q.key(rows[id]) == key
  }

  lemma CounterCounts<R(!new), K, M>(q: Query<R, K, M>, rows: map<Id, R>, key: K)
    requires Counts(q)
    ensures TableTotal(q, rows, key, q.counter) == |IdsOf(q, rows, key)|
  {
    SumOfOnes(TableColumn(q, rows, key, q.counter));
    assert TableColumn(q, rows, key, q.counter).Keys == IdsOf(q, rows, key);
  }

  lemma GroupExists<R(!new), K, M>(q: Query<R, K, M>, rows: map<Id, R>, key: K)
    requires Counts(q)
    ensures key in View(q, rows) <==> TableTotal(q, rows, key, q.counter) != 0
  {
    CounterCounts(q, rows, key);
    if key in View(q, rows) {
      var t :| t in Signed(1, rows) && q.key(Signed(1, rows)[t]) == key;
      assert t.id in IdsOf(q, rows, key);
    } else {
      forall id | id in rows ensures q.key(rows[id]) != key {
        assert Tag(1, id) in Signed(1, rows);
      }
      assert IdsOf(q, rows, key) == {};
    }
  }

  /** The view holds, for every group with a row and every metric, the sum over the rows of the group. */
  lemma ViewIsGrouped<R, K, M>(q: Query<R, K, M>, rows: map<Id, R>, key: K, metric: M)
    requires key in View(q, rows) && metric in q.metrics
    ensures View(q, rows)[key][metric] == TableTotal(q, rows, key, metric)
  {
    SignedTotal(q, rows, key, metric, 1);
  }

  lemma EmptyGroup<R(!new), K, M>(q: Query<R, K, M>, rows: map<Id, R>, key: K, metric: M)
    requires Counts(q) && key !in View(q, rows)
    ensures TableTotal(q, rows, key, metric) == 0
  {
    GroupExists(q, rows, key);
    CounterCounts(q, rows, key);
    assert forall id | id in TableColumn(q, rows, key, metric) :: id in IdsOf(q, rows, key);
    assert TableColumn(q, rows, key, metric) == map[];
  }

  lemma UntouchedGroup<R, K, M>(q: Query<R, K, M>, rel: map<Tag, R>, key: K, metric: M)
    requires key !in Keys(q, rel)
    ensures Total(q, rel, key, metric) == 0
  {
    assert Column(q, rel, key, metric) == map[];
  }

  /* ---------- one statement ---------- */

  /** The rows a statement leaves behind: `gone` out, `rows` in. */
  function Rewrite<R>(table: map<Id, R>, gone: set<Id>, rows: map<Id, R>): map<Id, R> {
    map id | id in table.Keys - gone + rows.Keys :: if id in rows then rows[id] else table[id]
  }

  /** Primary keys stay unique: new rows may reuse only ids that the statement itself frees. */
  predicate Legal<R>(table: map<Id, R>, gone: set<Id>, rows: map<Id, R>) {
    (forall id | id in gone :: id in table) && (forall id | id in rows && id in table :: id in gone)
  }

  function OldRows<R>(table: map<Id, R>, gone: set<Id>): map<Id, R> {
    map id | id in table && id in gone :: table[id]
  }

  /** The transition tables of a statement as one signed relation. */
  function Changed<R>(table: map<Id, R>, gone: set<Id>, rows: map<Id, R>): map<Tag, R> {
    Signed(1, rows) + Signed(-1, OldRows(table, gone))
  }

  lemma ChangedTotal<R, K, M>(q: Query<R, K, M>, table: map<Id, R>, gone: set<Id>, rows: map<Id, R>, key: K, metric: M)
    ensures Total(q, Changed(table, gone, rows), key, metric)
            == TableTotal(q, rows, key, metric) - TableTotal(q, OldRows(table, gone), key, metric)
  {
    SignedTotal(q, rows, key, metric, 1);
    SignedTotal(q, OldRows(table, gone), key, metric, -1);
    SumSplit(Column(q, Changed(table, gone, rows), key, metric), Column(q, Signed(1, rows), key, metric),
             Column(q, Signed(-1, OldRows(table, gone)), key, metric));
  }

  lemma TableTotalAfter<R, K, M>(q: Query<R, K, M>, table: map<Id, R>, gone: set<Id>, rows: map<Id, R>, key: K,
                                 metric: M)
    requires Legal(table, gone, rows)
    ensures TableTotal(q, Rewrite(table, gone, rows), key, metric)
            == TableTotal(q, table, key, metric) - TableTotal(q, OldRows(table, gone), key, metric)
               + TableTotal(q, rows, key, metric)
  {
    var kept := map id | id in table && id !in gone :: table[id];
    SumSplit(TableColumn(q, table, key, metric), TableColumn(q, kept, key, metric),
             TableColumn(q, OldRows(table, gone), key, metric));
    SumSplit(TableColumn(q, Rewrite(table, gone, rows), key, metric), TableColumn(q, kept, key, metric),
             TableColumn(q, rows, key, metric));
  }

  lemma TotalAfter<R, K, M>(q: Query<R, K, M>, table: map<Id, R>, gone: set<Id>, rows: map<Id, R>, key: K, metric: M)
    requires Legal(table, gone, rows)
    ensures TableTotal(q, Rewrite(table, gone, rows), key, metric)
            == TableTotal(q, table, key, metric) + Total(q, Changed(table, gone, rows), key, metric)
  {
    TableTotalAfter(q, table, gone, rows, key, metric);
    ChangedTotal(q, table, gone, rows, key, metric);
  }

  /** What the view holds for a group, counting an absent group as zero. */
  ghost function Entry<K, M>(view: map<K, map<M, int>>, key: K, metric: M): int {
    if key in view && metric in view[key] then view[key][metric] else 0
  }

  lemma EntryIsTotal<R(!new), K, M>(q: Query<R, K, M>, rows: map<Id, R>, key: K, metric: M)
    requires Counts(q) && metric in q.metrics
    ensures Entry(View(q, rows), key, metric) == TableTotal(q, rows, key, metric)
  {
    if key in View(q, rows) {
      ViewIsGrouped(q, rows, key, metric);
    } else {
      EmptyGroup(q, rows, key, metric);
    }
  }

  lemma EntryOfUpsert<R, K, M>(q: Query<R, K, M>, view: map<K, map<M, int>>, changed: map<Tag, R>, key: K, metric: M)
    requires Complete(q, view) && metric in q.metrics
    ensures Entry(Upsert(q, view, GroupBy(q, changed)), key, metric)
              == Entry(view, key, metric) + Total(q, changed, key, metric)
  {
    if key !in Keys(q, changed) {
      UntouchedGroup(q, changed, key, metric);
    }
  }

  lemma UpsertedEntry<R(!new), K, M>(q: Query<R, K, M>, table: map<Id, R>, gone: set<Id>, rows: map<Id, R>, key: K,
                        metric: M)
    requires Counts(q) && Legal(table, gone, rows) && metric in q.metrics
    ensures Entry(Upsert(q, View(q, table), GroupBy(q, Changed(table, gone, rows))), key, metric)
            == TableTotal(q, Rewrite(table, gone, rows), key, metric)
  {
    EntryOfUpsert(q, View(q, table), Changed(table, gone, rows), key, metric);
    EntryIsTotal(q, table, key, metric);
    TotalAfter(q, table, gone, rows, key, metric);
  }

  lemma SameGroups<R(!new), K, M>(q: Query<R, K, M>, table: map<Id, R>, gone: set<Id>, rows: map<Id, R>, key: K)
    requires Counts(q) && Legal(table, gone, rows)
    ensures key in Delta(q, View(q, table), Changed(table, gone, rows)) <==> key in View(q, Rewrite(table, gone, rows))
  {
    UpsertedEntry(q, table, gone, rows, key, q.counter);
    GroupExists(q, table, key);
    EntryIsTotal(q, table, key, q.counter);
    GroupExists(q, Rewrite(table, gone, rows), key);
    EntryOfUpsert(q, View(q, table), Changed(table, gone, rows), key, q.counter);
    if key !in Keys(q, Changed(table, gone, rows)) {
      UntouchedGroup(q, Changed(table, gone, rows), key, q.counter);
    }
  }

  ghost predicate Shaped<K(!new), M>(view: map<K, map<M, int>>, metrics: set<M>) {
    forall key | key in view :: view[key].Keys == metrics
  }

  lemma DeltaIsShaped<R, K(!new), M(!new)>(q: Query<R, K, M>, view: map<K, map<M, int>>, changed: map<Tag, R>)
    requires Complete(q, view) && Shaped(view, q.metrics) && q.counter in q.metrics
    ensures Shaped(Delta(q, view, changed), q.metrics)
  {
  }

  lemma EqualViews<K(!new), M(!new)>(a: map<K, map<M, int>>, b: map<K, map<M, int>>, metrics: set<M>)
    requires Shaped(a, metrics) && Shaped(b, metrics)
    requires forall key :: key in a <==> key in b
    requires forall key, metric | metric in metrics :: Entry(a, key, metric) == Entry(b, key, metric)
    ensures a == b
  {
    forall key | key in a ensures a[key] == b[key] {
      forall metric | metric in metrics ensures a[key][metric] == b[key][metric] {
        assert Entry(a, key, metric) == Entry(b, key, metric);
      }
    }
  }

  lemma SameEntry<R(!new), K, M>(q: Query<R, K, M>, table: map<Id, R>, gone: set<Id>, rows: map<Id, R>, key: K,
                    metric: M)
    requires Counts(q) && Legal(table, gone, rows) && metric in q.metrics
    ensures Entry(Delta(q, View(q, table), Changed(table, gone, rows)), key, metric)
            == Entry(View(q, Rewrite(table, gone, rows)), key, metric)
  {
    SameGroups(q, table, gone, rows, key);
    UpsertedEntry(q, table, gone, rows, key, metric);
    EntryIsTotal(q, Rewrite(table, gone, rows), key, metric);
  }

  lemma AllSameGroups<R(!new), K(!new), M>(q: Query<R, K, M>, table: map<Id, R>, gone: set<Id>, rows: map<Id, R>)
    requires Counts(q) && Legal(table, gone, rows)
    ensures forall key ::
              key in Delta(q, View(q, table), Changed(table, gone, rows)) <==>
                key in View(q, Rewrite(table, gone, rows))
  {
    forall key { SameGroups(q, table, gone, rows, key); }
  }

  lemma AllSameEntries<R(!new), K(!new), M(!new)>(q: Query<R, K, M>, table: map<Id, R>, gone: set<Id>, rows: map<Id, R>)
    requires Counts(q) && Legal(table, gone, rows)
    ensures forall key, metric | metric in q.metrics ::
              Entry(Delta(q, View(q, table), Changed(table, gone, rows)), key, metric)
              == Entry(View(q, Rewrite(table, gone, rows)), key, metric)
  {
    forall key, metric | metric in q.metrics { SameEntry(q, table, gone, rows, key, metric); }
  }

  /** View maintenance: the signed delta of any statement turns the exact view into the exact view. */
  lemma DeltaIsExact<R(!new), K(!new), M(!new)>(q: Query<R, K, M>, table: map<Id, R>, gone: set<Id>, rows: map<Id, R>)
    requires Counts(q) && Legal(table, gone, rows)
    ensures Delta(q, View(q, table), Changed(table, gone, rows)) == View(q, Rewrite(table, gone, rows))
  {
    AllSameGroups(q, table, gone, rows);
    AllSameEntries(q, table, gone, rows);
    DeltaIsShaped(q, View(q, table), Changed(table, gone, rows));
    EqualViews(Delta(q, View(q, table), Changed(table, gone, rows)), View(q, Rewrite(table, gone, rows)), q.metrics);
  }

  /* ---------- what totals keep of their rows ---------- */

  lemma Dominated<R(!new), K, M>(q: Query<R, K, M>, rows: map<Id, R>, key: K, small: M, large: M)
    requires forall row :: 0 <= q.amount(small, row) <= q.amount(large, row)
    ensures 0 <= TableTotal(q, rows, key, small) <= TableTotal(q, rows, key, large)
  {
    var column := TableColumn(q, rows, key, small);
    SumOrder(column, TableColumn(q, rows, key, large));
    var zeros := map id | id in column :: 0;
    SumOfZeros(zeros);
    SumOrder(zeros, column);
  }

  lemma Disjoint<R(!new), K, M>(q: Query<R, K, M>, rows: map<Id, R>, key: K, a: M, b: M, c: M, whole: M)
    requires forall row :: q.amount(a, row) + q.amount(b, row) + q.amount(c, row) <= q.amount(whole, row)
    ensures TableTotal(q, rows, key, a) + TableTotal(q, rows, key, b) + TableTotal(q, rows, key, c)
            <= TableTotal(q, rows, key, whole)
  {
    var ids := IdsOf(q, rows, key);
    var two := map id | id in ids :: q.amount(a, rows[id]) + q.amount(b, rows[id]);
    var three := map id | id in ids :: two[id] + q.amount(c, rows[id]);
    SumAdd(TableColumn(q, rows, key, a), TableColumn(q, rows, key, b), two);
    SumAdd(two, TableColumn(q, rows, key, c), three);
    SumOrder(three, TableColumn(q, rows, key, whole));
  }

  ghost function Amounts<R, K, M>(q: Query<R, K, M>, rows: map<Id, R>, metric: M): map<Id, int> {
    map id | id in rows :: q.amount(metric, rows[id])
  }

  ghost function GroupOf<R, K, M>(q: Query<R, K, M>, rows: map<Id, R>): map<Id, K> {
    map id | id in rows :: q.key(rows[id])
  }

  /** One metric of a view, over all its groups. */
  ghost function ViewColumn<K, M>(view: map<K, map<M, int>>, metric: M): map<K, int> {
    map key | key in view :: Entry(view, key, metric)
  }

  lemma ColumnOfGroup<R(!new), K, M>(q: Query<R, K, M>, rows: map<Id, R>, key: K, metric: M)
    requires Counts(q) && metric in q.metrics
    ensures Entry(View(q, rows), key, metric) == Sum(Group(Amounts(q, rows, metric), GroupOf(q, rows), key))
  {
    EntryIsTotal(q, rows, key, metric);
    assert Group(Amounts(q, rows, metric), GroupOf(q, rows), key) == TableColumn(q, rows, key, metric);
  }

  lemma RowHasGroup<R, K, M>(q: Query<R, K, M>, rows: map<Id, R>, id: Id)
    requires id in rows
    ensures q.key(rows[id]) in View(q, rows)
  {
    assert Tag(1, id) in Signed(1, rows);
  }

  /** Grouping loses and invents nothing: each column of the view adds up to the whole table. */
  lemma Conserved<R(!new), K, M>(q: Query<R, K, M>, rows: map<Id, R>, metric: M)
    requires Counts(q) && metric in q.metrics
    ensures Sum(ViewColumn(View(q, rows), metric)) == Sum(Amounts(q, rows, metric))
  {
    forall id | id in rows ensures q.key(rows[id]) in View(q, rows) {
      RowHasGroup(q, rows, id);
    }
    forall key | key in View(q, rows)
      ensures Entry(View(q, rows), key, metric) == Sum(Group(Amounts(q, rows, metric), GroupOf(q, rows), key))
    {
      ColumnOfGroup(q, rows, key, metric);
    }
    SumByGroups(Amounts(q, rows, metric), GroupOf(q, rows), ViewColumn(View(q, rows), metric));
  }

  /* ---------- executing the query ---------- */

  lemma TotalWithRow<R, K, M>(q: Query<R, K, M>, rel: map<Tag, R>, t: Tag, row: R, key: K, metric: M)
    requires t !in rel
    ensures Total(q, rel[t := row], key, metric)
            == Total(q, rel, key, metric) + (if q.key(row) == key then t.sign * q.amount(metric, row) else 0)
  {
    var column := Column(q, rel[t := row], key, metric);
    if q.key(row) == key {
      SumRemove(column, t);
      assert column - {t} == Column(q, rel, key, metric);
    } else {
      assert column == Column(q, rel, key, metric);
    }
  }

  function Single<R, K, M>(q: Query<R, K, M>, t: Tag, row: R): map<M, int> {
    map metric | metric in q.metrics :: t.sign * q.amount(metric, row)
  }

  function WithRow<R, K(==), M>(q: Query<R, K, M>, totals: map<K, map<M, int>>, t: Tag, row: R): map<K, map<M, int>>
    requires Complete(q, totals)
  {
    var key := q.key(row);
    totals[key := if key in totals then Added(q.metrics, totals[key], Single(q, t, row)) else Single(q, t, row)]
  }

  lemma GroupEntry<R, K, M>(q: Query<R, K, M>, rel: map<Tag, R>, key: K, metric: M)
    requires metric in q.metrics
    ensures Entry(GroupBy(q, rel), key, metric) == Total(q, rel, key, metric)
  {
    if key !in Keys(q, rel) {
      UntouchedGroup(q, rel, key, metric);
    }
  }

  lemma WithRowEntry<R, K, M>(q: Query<R, K, M>, totals: map<K, map<M, int>>, t: Tag, row: R, key: K, metric: M)
    requires Complete(q, totals) && metric in q.metrics
    ensures Entry(WithRow(q, totals, t, row), key, metric)
            == Entry(totals, key, metric) + (if q.key(row) == key then t.sign * q.amount(metric, row) else 0)
  {
    assert Single(q, t, row)[metric] == t.sign * q.amount(metric, row);
  }

  lemma EntryWithRow<R, K, M>(q: Query<R, K, M>, rel: map<Tag, R>, t: Tag, row: R, key: K, metric: M)
    requires t !in rel && metric in q.metrics
    ensures Entry(WithRow(q, GroupBy(q, rel), t, row), key, metric) == Entry(GroupBy(q, rel[t := row]), key, metric)
  {
    WithRowEntry(q, GroupBy(q, rel), t, row, key, metric);
    GroupEntry(q, rel, key, metric);
    GroupEntry(q, rel[t := row], key, metric);
    TotalWithRow(q, rel, t, row, key, metric);
  }

  lemma KeysWithRow<R, K, M>(q: Query<R, K, M>, rel: map<Tag, R>, t: Tag, row: R)
    requires t !in rel
    ensures Keys(q, rel[t := row]) == Keys(q, rel) + {q.key(row)}
  {
    var next := rel[t := row];
    assert next[t] == row && forall u | u in rel :: next[u] == rel[u];
  }

  lemma GroupWithRow<R, K(!new), M(!new)>(q: Query<R, K, M>, rel: map<Tag, R>, t: Tag, row: R)
    requires t !in rel
    ensures WithRow(q, GroupBy(q, rel), t, row) == GroupBy(q, rel[t := row])
  {
    KeysWithRow(q, rel, t, row);
    forall key, metric | metric in q.metrics
      ensures Entry(WithRow(q, GroupBy(q, rel), t, row), key, metric) == Entry(GroupBy(q, rel[t := row]), key, metric)
    {
      EntryWithRow(q, rel, t, row, key, metric);
    }
    EqualViews(WithRow(q, GroupBy(q, rel), t, row), GroupBy(q, rel[t := row]), q.metrics);
  }

  /** Executes the grouped query in one pass over the relation, in whatever order its rows arrive. */
  method Grouped<R, K(!new, ==), M(!new)>(q: Query<R, K, M>, rel: map<Tag, R>) returns (totals: map<K, map<M, int>>)
    ensures totals == GroupBy(q, rel)
  {
    totals := map[];
    ghost var done: map<Tag, R> := map[];
    var rest := rel.Keys;
    while rest != {}
      invariant forall t :: t in rel <==> t in done || t in rest
      invariant forall t | t in done :: t !in rest && done[t] == rel[t]
      invariant totals == GroupBy(q, done)
      decreases rest
    {
      var t :| t in rest;
      GroupWithRow(q, done, t, rel[t]);
      totals := WithRow(q, totals, t, rel[t]);
      done := done[t := rel[t]];
      rest := rest - {t};
    }
    assert done == rel;
  }
}

/**
 The resumable runner of paid model calls (scripts/model_benchmark.py:398-475). A run can be interrupted
 before any of its effects; `fuel` says after how many.
 */
module BenchmarkRunner {
  import opened Decimals
  import opened Options

  datatype Plan = Plan(cases: seq<string>, variants: seq<string>, repeats: nat, maxCalls: nat, rest: int)

  datatype Work = Work(caseId: string, variantId: string, repetition: nat)

  /* ---------- the planned work ---------- */

  function Repeats(c: string, v: string, repeats: nat): (work: seq<Work>)
    ensures |work| == repeats
  {
    seq(repeats, r requires 0 <= r => Work(c, v, r))
  }

  function OfVariants(c: string, variants: seq<string>, repeats: nat): (work: seq<Work>)
    ensures |work| == |variants| * repeats
  {
    if variants == [] then [] else Repeats(c, variants[0], repeats) + OfVariants(c, variants[1..], repeats)
  }

  function OfCases(cases: seq<string>, variants: seq<string>, repeats: nat): (work: seq<Work>)
    ensures |work| == |cases| * (|variants| * repeats)
  {
    if cases == [] then [] else OfVariants(cases[0], variants, repeats) + OfCases(cases[1..], variants, repeats)
  }

  function Planned(p: Plan): (work: seq<Work>)
    ensures |work| == Count(p)
  {
    OfCases(p.cases, p.variants, p.repeats)
  }

  function Count(p: Plan): nat {
    |p.cases| * (|p.variants| * p.repeats)
  }

  function Joined(caseId: string, variantId: string): string {
    caseId + "--" + variantId
  }

  /** The name of its folder. */
  function Key(w: Work): string {
    Joined(w.caseId, w.variantId) + "--" + Decimal(w.repetition)
  }

  function Keys(work: seq<Work>): set<string> {
    if work == [] then {} else Keys(work[..|work| - 1]) + {Key(work[|work| - 1])}
  }

  lemma KeysOfOneMore(work: seq<Work>, w: Work)
    ensures Keys(work + [w]) == Keys(work) + {Key(w)}
  {
    assert (work + [w])[..|work|] == work;
  }

  lemma {:induction false} KeysOfBoth(xs: seq<Work>, ys: seq<Work>)
    ensures Keys(xs + ys) == Keys(xs) + Keys(ys)
  {
    if ys == [] {
      assert xs + ys == xs;
    } else {
      var before, last := ys[..|ys| - 1], ys[|ys| - 1];
      KeysOfBoth(xs, before);
      assert xs + ys == (xs + before) + [last];
      KeysOfOneMore(xs + before, last);
    }
  }

  lemma {:induction false} KeyIsIn(work: seq<Work>, w: Work)
    requires w in work
    ensures Key(w) in Keys(work)
  {
    if w != work[|work| - 1] {
      KeyIsIn(work[..|work| - 1], w);
    }
  }

  lemma {:induction false} WorkOfKey(work: seq<Work>, key: string) returns (w: Work)
    requires key in Keys(work)
    ensures w in work && Key(w) == key
  {
    w := work[|work| - 1];
    if Key(w) != key {
      w := WorkOfKey(work[..|work| - 1], key);
    }
  }

  lemma {:induction false} KeysAreNoMoreThanWork(work: seq<Work>)
    ensures |Keys(work)| <= |work|
  {
    if work != [] {
      KeysAreNoMoreThanWork(work[..|work| - 1]);
    }
  }

  /** The plan's work in the order its seed gives. */
  ghost predicate Shuffles(work: seq<Work>, p: Plan) {
    multiset(work) == multiset(Planned(p))
  }

  lemma ShuffleKeepsWork(work: seq<Work>, p: Plan)
    requires Shuffles(work, p)
    ensures forall w :: w in work <==> w in Planned(p)
  {
    assert forall w :: w in work <==> w in multiset(work);
    assert forall w :: w in Planned(p) <==> w in multiset(Planned(p));
  }

  /* ---------- telling work apart ---------- */

  /** An id without a double dash and without a dash at either end. */
  predicate Plain(id: string) {
    && (forall i | 0 < i < |id| :: id[i - 1] != '-' || id[i] != '-')
    && (id != "" ==> id[0] != '-' && id[|id| - 1] != '-')
  }

  /** The first double dash ends a plain id. */
  lemma SplitsOnce(a: string, x: string, b: string, y: string)
    requires Plain(a) && Plain(b)
    ensures a + "--" + x == b + "--" + y ==> a == b && x == y
  {
    var s, t := a + "--" + x, b + "--" + y;
    assert s[|a|] == '-' && s[|a| + 1] == '-' && t[|b|] == '-' && t[|b| + 1] == '-';
    assert s[..|a|] == a && t[..|b|] == b && s[|a| + 2..] == x && t[|b| + 2..] == y;
    assert |a| < |b| ==> t[|a|] == b[|a|] && (|a| + 1 < |b| ==> t[|a| + 1] == b[|a| + 1]);
    assert |b| < |a| ==> s[|b|] == a[|b|] && (|b| + 1 < |a| ==> s[|b| + 1] == a[|b| + 1]);
  }

  /** A folder name gives away the repetition, and of the ids only how they join. */
  lemma KeysAgreeIff(v: Work, w: Work)
    ensures Key(v) == Key(w) <==>
            v.repetition == w.repetition && Joined(v.caseId, v.variantId) == Joined(w.caseId, w.variantId)
  {
    var x, y := Joined(v.caseId, v.variantId), Joined(w.caseId, w.variantId);
    if Key(v) == Key(w) {
      LastGroupAgrees(x, Decimal(v.repetition), y, Decimal(w.repetition));
      DecimalIsInjective(v.repetition, w.repetition);
    }
  }

  lemma LastGroupAgrees(x: string, m: string, y: string, n: string)
    requires Digits(m) && Digits(n) && x + "--" + m == y + "--" + n
    ensures x == y && m == n
  {
    var s, t := x + "--" + m, y + "--" + n;
    assert s[|s| - |m| - 1] == '-' && t[|t| - |n| - 1] == '-';
    assert s[..|x|] == x && t[..|y|] == y && s[|x| + 2..] == m && t[|y| + 2..] == n;
  }

  /** Which ids join alike: the longer case id goes on as the rest of the shorter side does. */
  lemma JoinsAgreeIff(a: string, x: string, b: string, y: string)
    requires |a| <= |b|
    ensures Joined(a, x) == Joined(b, y) <==> a <= b && "--" + x == b[|a|..] + "--" + y
  {
    if a <= b {
      assert Joined(b, y) == a + (b[|a|..] + "--" + y) && Joined(a, x) == a + ("--" + x);
      assert Joined(a, x)[|a|..] == "--" + x && Joined(b, y)[|a|..] == b[|a|..] + "--" + y;
    } else {
      assert Joined(a, x)[..|a|] == a && Joined(b, y)[..|a|] == b[..|a|];
    }
  }

  /** With plain ids no two pieces of work share a folder. */
  lemma PlainKeysDiffer(v: Work, w: Work)
    requires Plain(v.caseId) && Plain(w.caseId) && Key(v) == Key(w)
    ensures v == w
  {
    KeysAgreeIff(v, w);
    SplitsOnce(v.caseId, v.variantId, w.caseId, w.variantId);
  }

  function JoinsOf(c: string, variants: seq<string>): seq<string> {
    if variants == [] then [] else [Joined(c, variants[0])] + JoinsOf(c, variants[1..])
  }

  /** How the ids of every case join with those of every variant. */
  function Joins(cases: seq<string>, variants: seq<string>): (joins: seq<string>)
    ensures |joins| == |cases| * |variants|
  {
    if cases == [] then []
    else
      JoinsOfLength(cases[0], variants);
      JoinsOf(cases[0], variants) + Joins(cases[1..], variants)
  }

  lemma {:induction false} JoinsOfLength(c: string, variants: seq<string>)
    ensures |JoinsOf(c, variants)| == |variants|
  {
    if variants != [] {
      JoinsOfLength(c, variants[1..]);
    }
  }

  ghost predicate Distinct(log: seq<string>) {
    forall i, j | 0 <= i < j < |log| :: log[i] != log[j]
  }

  function FolderOf(join: string, r: nat): string {
    join + "--" + Decimal(r)
  }

  /** The folders of one pair of ids, one for each repetition. */
  function FoldersOf(join: string, repeats: nat): set<string> {
    if repeats == 0 then {} else FoldersOf(join, repeats - 1) + {FolderOf(join, repeats - 1)}
  }

  function Folders(joins: seq<string>, repeats: nat): set<string> {
    if joins == [] then {} else Folders(joins[..|joins| - 1], repeats) + FoldersOf(joins[|joins| - 1], repeats)
  }

  lemma SameFolder(a: string, m: nat, b: string, n: nat)
    requires FolderOf(a, m) == FolderOf(b, n)
    ensures a == b && m == n
  {
    LastGroupAgrees(a, Decimal(m), b, Decimal(n));
    DecimalIsInjective(m, n);
  }

  lemma {:induction false} FoldersOfBoth(xs: seq<string>, ys: seq<string>, repeats: nat)
    ensures Folders(xs + ys, repeats) == Folders(xs, repeats) + Folders(ys, repeats)
  {
    if ys == [] {
      assert xs + ys == xs;
    } else {
      FoldersOfBoth(xs, ys[..|ys| - 1], repeats);
      assert (xs + ys)[..|xs + ys| - 1] == xs + ys[..|ys| - 1];
    }
  }

  lemma FoldersOfSingle(join: string, repeats: nat)
    ensures Folders([join], repeats) == FoldersOf(join, repeats)
  {
    assert [join][..0] == [];
  }

  lemma {:induction false} RepeatsKeys(c: string, v: string, repeats: nat)
    ensures Keys(Repeats(c, v, repeats)) == FoldersOf(Joined(c, v), repeats)
  {
    if repeats == 0 {
      assert Repeats(c, v, 0) == [];
    } else {
      var before, last := Repeats(c, v, repeats - 1), Work(c, v, repeats - 1);
      RepeatsKeys(c, v, repeats - 1);
      assert Repeats(c, v, repeats) == before + [last];
      KeysOfOneMore(before, last);
    }
  }

  lemma {:induction false} VariantsKeys(c: string, variants: seq<string>, repeats: nat)
    ensures Keys(OfVariants(c, variants, repeats)) == Folders(JoinsOf(c, variants), repeats)
  {
    if variants != [] {
      VariantsKeys(c, variants[1..], repeats);
      RepeatsKeys(c, variants[0], repeats);
      FoldersOfSingle(Joined(c, variants[0]), repeats);
      KeysOfBoth(Repeats(c, variants[0], repeats), OfVariants(c, variants[1..], repeats));
      FoldersOfBoth([Joined(c, variants[0])], JoinsOf(c, variants[1..]), repeats);
    }
  }

  lemma {:induction false} CasesKeys(cases: seq<string>, variants: seq<string>, repeats: nat)
    ensures Keys(OfCases(cases, variants, repeats)) == Folders(Joins(cases, variants), repeats)
  {
    if cases != [] {
      CasesKeys(cases[1..], variants, repeats);
      VariantsKeys(cases[0], variants, repeats);
      KeysOfBoth(OfVariants(cases[0], variants, repeats), OfCases(cases[1..], variants, repeats));
      FoldersOfBoth(JoinsOf(cases[0], variants), Joins(cases[1..], variants), repeats);
    }
  }

  lemma {:induction false} FolderIsOf(join: string, repeats: nat, key: string) returns (r: nat)
    requires key in FoldersOf(join, repeats)
    ensures r < repeats && key == FolderOf(join, r)
  {
    if key == FolderOf(join, repeats - 1) {
      r := repeats - 1;
    } else {
      r := FolderIsOf(join, repeats - 1, key);
    }
  }

  lemma {:induction false} FolderIsOfSome(joins: seq<string>, repeats: nat, key: string) returns (join: string, r: nat)
    requires key in Folders(joins, repeats)
    ensures join in joins && key == FolderOf(join, r)
  {
    if key in Folders(joins[..|joins| - 1], repeats) {
      join, r := FolderIsOfSome(joins[..|joins| - 1], repeats, key);
    } else {
      join := joins[|joins| - 1];
      r := FolderIsOf(join, repeats, key);
    }
  }

  lemma {:induction false} FoldersOfOne(join: string, repeats: nat)
    ensures |FoldersOf(join, repeats)| == repeats
  {
    if repeats > 0 {
      var last := FolderOf(join, repeats - 1);
      FoldersOfOne(join, repeats - 1);
      if last in FoldersOf(join, repeats - 1) {
        var r := FolderIsOf(join, repeats - 1, last);
        SameFolder(join, r, join, repeats - 1);
        assert false;
      }
    }
  }

  lemma {:induction false} FoldersAreIn(joins: seq<string>, join: string, repeats: nat)
    requires join in joins
    ensures FoldersOf(join, repeats) <= Folders(joins, repeats)
  {
    if join != joins[|joins| - 1] {
      FoldersAreIn(joins[..|joins| - 1], join, repeats);
    }
  }

  lemma FoldersApart(joins: seq<string>, join: string, repeats: nat)
    requires join !in joins
    ensures Folders(joins, repeats) !! FoldersOf(join, repeats)
  {
    forall key | key in FoldersOf(join, repeats) ensures key !in Folders(joins, repeats) {
      if key in Folders(joins, repeats) {
        var n := FolderIsOf(join, repeats, key);
        var other, m := FolderIsOfSome(joins, repeats, key);
        SameFolder(other, m, join, n);
        assert false;
      }
    }
  }

  lemma FoldersOfAnother(joins: seq<string>, join: string, repeats: nat)
    ensures join in joins ==> Folders(joins + [join], repeats) == Folders(joins, repeats)
    ensures join !in joins ==> |Folders(joins + [join], repeats)| == |Folders(joins, repeats)| + repeats
  {
    FoldersOfBoth(joins, [join], repeats);
    FoldersOfSingle(join, repeats);
    if join in joins {
      FoldersAreIn(joins, join, repeats);
    } else {
      FoldersOfOne(join, repeats);
      FoldersApart(joins, join, repeats);
    }
  }

  lemma OneMoreTimes(n: nat, m: nat)
    ensures (n + 1) * m == n * m + m
  {
  }

  lemma TimesInTurn(k: nat, n: nat, m: nat)
    ensures k * (n * m) == (k * n) * m
  {
  }

  lemma DistinctOneMore(joins: seq<string>, join: string)
    ensures Distinct(joins + [join]) <==> Distinct(joins) && join !in joins
  {
    var all := joins + [join];
    forall i | 0 <= i < |joins| ensures all[i] == joins[i] {
    }
    if Distinct(all) {
      forall i | 0 <= i < |joins| ensures joins[i] != join {
        assert all[i] != all[|joins|];
      }
    }
  }

  lemma {:induction false} FoldersCount(joins: seq<string>, repeats: nat)
    requires repeats > 0
    ensures |Folders(joins, repeats)| <= |joins| * repeats
    ensures |Folders(joins, repeats)| == |joins| * repeats <==> Distinct(joins)
  {
    if joins == [] {
      assert Folders(joins, repeats) == {};
    } else {
      var before, last := joins[..|joins| - 1], joins[|joins| - 1];
      FoldersCount(before, repeats);
      FoldersOfAnother(before, last, repeats);
      assert joins == before + [last];
      DistinctOneMore(before, last);
      OneMoreTimes(|before|, repeats);
    }
  }

  /** Each piece of work has a folder of its own exactly when no two pairs of a case and a variant join alike. */
  lemma OwnFoldersIff(p: Plan)
    requires p.repeats > 0
    ensures |Keys(Planned(p))| == Count(p) <==> Distinct(Joins(p.cases, p.variants))
  {
    var joins := Joins(p.cases, p.variants);
    CasesKeys(p.cases, p.variants, p.repeats);
    FoldersCount(joins, p.repeats);
    TimesInTurn(|p.cases|, |p.variants|, p.repeats);
  }

  /** The id pattern allows dashes: a- with b and a with -b are two pieces of work and one folder. */
  lemma DashedPlanCollides(p: Plan)
    requires p.cases == ["a-", "a"] && p.variants == ["b", "-b"] && p.repeats > 0
    ensures Key(Work("a-", "b", 0)) == Key(Work("a", "-b", 0)) && |Keys(Planned(p))| < Count(p)
  {
    JoinsAgreeIff("a", "-b", "a-", "b");
    assert "a-"[1..] == "-" && "--" + "-b" == "-" + "--" + "b";
    KeysAgreeIff(Work("a-", "b", 0), Work("a", "-b", 0));
    assert JoinsOf("a-", ["b", "-b"]) == [Joined("a-", "b")] + JoinsOf("a-", ["-b"]);
    assert JoinsOf("a", ["b", "-b"]) == [Joined("a", "b")] + ([Joined("a", "-b")] + []);
    assert ["a-", "a"][1..] == ["a"] && ["a"][1..] == [] && ["b", "-b"][1..] == ["-b"];
    assert Joins(["a"], p.variants) == JoinsOf("a", p.variants) + [];
    var joins := Joins(p.cases, p.variants);
    assert joins == JoinsOf("a-", p.variants) + (JoinsOf("a", p.variants) + []);
    assert joins[0] == Joined("a-", "b") && joins[3] == Joined("a", "-b");
    OwnFoldersIff(p);
    KeysAreNoMoreThanWork(Planned(p));
  }

  /* ---------- a destination directory ---------- */

  /** A reply of a provider: whether it is one of the failures that stop the run. */
  datatype Reply = Reply(stops: bool, text: string)

  datatype Outcome = TooManyCalls | Previewed | MissingCredentials | ResumeRejected | Stopped | Finished | Interrupted

  /** The folders of calls, in order. */
  function FoldersCalled(calls: seq<Work>): (log: seq<string>)
    ensures |log| == |calls|
  {
    if calls == [] then [] else FoldersCalled(calls[..|calls| - 1]) + [Key(calls[|calls| - 1])]
  }

  lemma FoldersOfOneMoreCall(calls: seq<Work>, w: Work)
    ensures FoldersCalled(calls + [w]) == FoldersCalled(calls) + [Key(w)]
  {
    assert (calls + [w])[..|calls|] == calls;
  }

  lemma {:induction false} FolderOfCall(calls: seq<Work>, i: nat)
    requires i < |calls|
    ensures FoldersCalled(calls)[i] == Key(calls[i])
  {
    if i < |calls| - 1 {
      FolderOfCall(calls[..|calls| - 1], i);
    }
  }

  function Set(log: seq<string>): set<string> {
    set key | key in log
  }

  lemma {:induction false} DistinctFill(log: seq<string>)
    requires Distinct(log)
    ensures |Set(log)| == |log|
  {
    if log != [] {
      var before, last := log[..|log| - 1], log[|log| - 1];
      DistinctFill(before);
      assert log == before + [last];
      assert Set(log) == Set(before) + {last};
    }
  }

  lemma SubsetIsNoLarger(small: set<string>, large: set<string>)
    requires small <= large
    ensures |small| <= |large|
  {
    assert large == small + (large - small);
  }

  /** Folders with a marker whose call was never made. */
  function Lost(started: set<string>, log: seq<string>): set<string> {
    started - Set(log)
  }

  /** Markers and calls now, against what there was: new calls only went to folders without a marker. */
  ghost predicate GoesOn(was: set<string>, before: seq<string>, started: set<string>, log: seq<string>) {
    was <= started && before <= log && forall i | |before| <= i < |log| :: log[i] !in was
  }

  /** What one piece of work can leave: nothing new, a marker, or a marker and its call. */
  ghost predicate Attempted(key: string, was: set<string>, before: seq<string>, started: set<string>, log: seq<string>,
                            alive: bool)
  {
    if key in was then started == was && log == before
    else if alive then started == was + {key} && log == before + [key]
    else (started == was && log == before) || (started == was + {key} && (log == before || log == before + [key]))
  }

  lemma AttemptGoesOn(key: string, old': set<string>, first: seq<string>, was: set<string>, before: seq<string>,
                      started: set<string>, log: seq<string>, alive: bool)
    requires GoesOn(old', first, was, before) && Attempted(key, was, before, started, log, alive)
    ensures GoesOn(old', first, started, log)
  {
  }

  lemma AttemptLoses(key: string, was: set<string>, before: seq<string>, started: set<string>, log: seq<string>,
                     alive: bool)
    requires Attempted(key, was, before, started, log, alive) && forall k | k in before :: k in was
    ensures |Lost(started, log)| <= |Lost(was, before)| + 1
    ensures alive ==> Lost(started, log) == Lost(was, before)
  {
    assert Set(before + [key]) == Set(before) + {key};
    assert Lost(started, log) <= Lost(was, before) + {key};
    SubsetIsNoLarger(Lost(started, log), Lost(was, before) + {key});
  }

  class Destination {
    var manifest: Option<Plan>
    var started: set<string>
    var results: map<string, Reply>
    var fuel: nat
    /** Every call that reached a provider, and the folders of these calls. */
    ghost var calls: seq<Work>
    ghost var log: seq<string>

    ghost predicate Valid()
      reads this
    {
      && log == FoldersCalled(calls)
      && Distinct(log) && (forall k | k in log :: k in started) && (forall k | k in results :: k in started)
    }

    /** What is on disk belongs to the plan in the manifest. */
    ghost predicate WithinPlan()
      reads this
    {
      if manifest.Some? then Count(manifest.value) <= manifest.value.maxCalls
        && started <= Keys(Planned(manifest.value))
      else started == {}
    }

    constructor ()
      ensures Valid() && WithinPlan() && manifest == None && calls == [] && Lost(started, log) == {}
    {
      manifest, started, results, fuel, calls, log := None, {}, map[], 0, [], [];
    }

    method Spend() returns (alive: bool)
      modifies `fuel
      ensures alive <==> old(fuel) > 0
    {
      alive := fuel > 0;
      fuel := if alive then fuel - 1 else 0;
    }

    /** started.json goes to disk. */
    method Mark(key: string)
      requires Valid()
      modifies `started
      ensures Valid() && started == old(started) + {key}
    {
      started := started + {key};
    }

    /** The provider is called. */
    method Invoke(w: Work, provider: Work -> Reply) returns (reply: Reply)
      requires Valid() && Key(w) in started && Key(w) !in log
      modifies `calls, `log
      ensures Valid() && calls == old(calls) + [w] && log == old(log) + [Key(w)]
    {
      FoldersOfOneMoreCall(calls, w);
      calls, log := calls + [w], log + [Key(w)];
      reply := provider(w);
    }

    /** One piece of work: the marker goes to disk before the call, and no folder with a marker is called again. */
    method Attempt(w: Work, key: string, provider: Work -> Reply) returns (alive: bool, stops: bool)
      requires Valid() && key == Key(w)
      modifies `started, `results, `fuel, `calls, `log
      ensures Valid() && Attempted(key, old(started), old(log), started, log, alive)
      ensures calls == old(calls) + if log == old(log) then [] else [w]
      ensures key in old(started) ==> alive && !stops
    {
      alive, stops := true, false;
      if key in results || key in started { return; }
      alive := Spend();
      if !alive { return; }
      Mark(key);
      alive := Spend();
      if !alive { return; }
      var reply := Invoke(w, provider);
      alive := Spend();
      if !alive { return; }
      results := results[key := reply];
      stops := reply.stops;
    }

    /** One turn of the loop over the work. */
    method AttemptAt(work: seq<Work>, i: nat, provider: Work -> Reply) returns (alive: bool, stops: bool)
      requires Valid() && i < |work| && Keys(work[..i]) <= started
      modifies `started, `results, `fuel, `calls, `log
      ensures Valid() && old(calls) <= calls && started <= old(started) + Keys(work)
      ensures Attempted(Key(work[i]), old(started), old(log), started, log, alive)
      ensures |Lost(started, log)| <= old(|Lost(started, log)|) + 1
      ensures alive ==> Lost(started, log) == old(Lost(started, log)) && Keys(work[..i + 1]) <= started
    {
      var key := Key(work[i]);
      KeyIsIn(work, work[i]);
      KeysOfOneMore(work[..i], work[i]);
      assert work[..i + 1] == work[..i] + [work[i]];
      ghost var was, before := started, log;
      alive, stops := Attempt(work[i], key, provider);
      AttemptLoses(key, was, before, started, log, alive);
    }

    /** The loop over the work. */
    method AttemptAll(work: seq<Work>, provider: Work -> Reply) returns (outcome: Outcome)
      requires Valid()
      modifies `started, `results, `fuel, `calls, `log
      ensures Valid() && old(calls) <= calls && GoesOn(old(started), old(log), started, log)
      ensures outcome == Interrupted || outcome == Stopped || outcome == Finished
      ensures started <= old(started) + Keys(work) && (outcome == Finished ==> Keys(work) <= started)
      ensures outcome != Interrupted ==> Lost(started, log) == old(Lost(started, log))
      ensures |Lost(started, log)| <= old(|Lost(started, log)|) + 1
    {
      for i := 0 to |work|
        invariant Valid() && old(calls) <= calls && GoesOn(old(started), old(log), started, log)
        invariant Lost(started, log) == old(Lost(started, log)) && Keys(work[..i]) <= started
        invariant started <= old(started) + Keys(work)
      {
        ghost var was, before := started, log;
        var alive, stops := AttemptAt(work, i, provider);
        AttemptGoesOn(Key(work[i]), old(started), old(log), was, before, started, log, alive);
        if !alive { return Interrupted; }
        if stops { return Stopped; }
      }
      assert work[..|work|] == work;
      outcome := Finished;
    }

    /** The plan of the directory, which later runs have to match. */
    method OpenManifest(plan: Plan) returns (refused: Option<Outcome>)
      requires Count(plan) <= plan.maxCalls
      modifies `manifest, `fuel
      ensures manifest == if old(manifest).None? && refused.None? then Some(plan) else old(manifest)
      ensures if old(manifest).Some? then refused == if old(manifest) == Some(plan) then None else Some(ResumeRejected)
              else refused == None || refused == Some(Interrupted)
    {
      refused := None;
      if manifest.Some? {
        if manifest.value != plan { refused := Some(ResumeRejected); }
      } else {
        var alive := Spend();
        if !alive { return Some(Interrupted); }
        manifest := Some(plan);
      }
    }

    /**
     run(): whatever happened before in this directory, no folder is called twice and the plan's limit holds; a run
     that finishes leaves every folder called, except those lost to earlier interruptions.
     */
    method Run(plan: Plan, work: seq<Work>, execute: bool, credentials: bool, provider: Work -> Reply)
      returns (outcome: Outcome)
      requires Valid() && WithinPlan() && Shuffles(work, plan)
      modifies this
      ensures Valid() && WithinPlan() && old(calls) <= calls && GoesOn(old(started), old(log), started, log)
      ensures calls != old(calls) ==> manifest == Some(plan)
      ensures old(manifest).Some? ==> manifest == old(manifest)
      ensures outcome == TooManyCalls <==> Count(plan) > plan.maxCalls
      ensures outcome == ResumeRejected ==> old(manifest).Some? && old(manifest) != Some(plan)
      ensures outcome == Finished ==> manifest == Some(plan) && started == Keys(Planned(plan))
      ensures outcome != Interrupted ==> Lost(started, log) == old(Lost(started, log))
      ensures |Lost(started, log)| <= old(|Lost(started, log)|) + 1
    {
      if Count(plan) > plan.maxCalls { return TooManyCalls; }
      if !execute { return Previewed; }
      if !credentials { return MissingCredentials; }
      var refused := OpenManifest(plan);
      if refused.Some? { return refused.value; }
      ghost var was := started;
      outcome := AttemptAll(work, provider);
      StaysWithin(work, plan, was, started);
    }

    /**
     Any number of runs, of whatever plans, resumed and interrupted anywhere: never more calls than planned or
     allowed, and no more folders lost than runs were interrupted.
     */
    method Sessions(runs: seq<(Plan, seq<Work>, nat)>, provider: Work -> Reply)
      returns (interrupted: nat, last: Outcome)
      requires Valid() && WithinPlan() && forall run | run in runs :: Shuffles(run.1, run.0)
      modifies this
      ensures Valid() && WithinPlan() && old(calls) <= calls
      ensures if manifest.Some? then |calls| <= Count(manifest.value) <= manifest.value.maxCalls else calls == []
      ensures interrupted <= |runs| && |Lost(started, log)| <= old(|Lost(started, log)|) + interrupted
      ensures last == Finished ==> manifest.Some? && started == Keys(Planned(manifest.value))
    {
      interrupted, last := 0, Previewed;
      for i := 0 to |runs|
        invariant Valid() && WithinPlan() && old(calls) <= calls
        invariant interrupted <= i && |Lost(started, log)| <= old(|Lost(started, log)|) + interrupted
        invariant last == Finished ==> manifest.Some? && started == Keys(Planned(manifest.value))
      {
        fuel := runs[i].2;
        last := Run(runs[i].0, runs[i].1, true, true, provider);
        interrupted := interrupted + if last == Interrupted then 1 else 0;
      }
      DistinctFill(log);
      if manifest.Some? {
        SubsetIsNoLarger(Set(log), Keys(Planned(manifest.value)));
        KeysAreNoMoreThanWork(Planned(manifest.value));
      }
    }
  }

  lemma KeysWithin(xs: seq<Work>, ys: seq<Work>)
    requires forall w | w in xs :: w in ys
    ensures Keys(xs) <= Keys(ys)
  {
    forall key | key in Keys(xs) ensures key in Keys(ys) {
      var w := WorkOfKey(xs, key);
      KeyIsIn(ys, w);
    }
  }

  lemma ShuffleKeepsKeys(work: seq<Work>, plan: Plan)
    requires Shuffles(work, plan)
    ensures Keys(work) == Keys(Planned(plan))
  {
    ShuffleKeepsWork(work, plan);
    KeysWithin(work, Planned(plan));
    KeysWithin(Planned(plan), work);
  }

  lemma StaysWithin(work: seq<Work>, plan: Plan, was: set<string>, started: set<string>)
    requires Shuffles(work, plan) && was <= Keys(Planned(plan)) && was <= started <= was + Keys(work)
    ensures started <= Keys(Planned(plan)) && (Keys(work) <= started ==> started == Keys(Planned(plan)))
  {
    ShuffleKeepsKeys(work, plan);
  }

  /** Of work that shares a folder, only one piece is ever called. */
  lemma OnlyOneIsCalled(calls: seq<Work>, v: Work, w: Work)
    requires Distinct(FoldersCalled(calls)) && v in calls && w in calls && Key(v) == Key(w)
    ensures v == w
  {
    var i :| 0 <= i < |calls| && calls[i] == v;
    var j :| 0 <= j < |calls| && calls[j] == w;
    FolderOfCall(calls, i);
    FolderOfCall(calls, j);
  }

  /** When every folder was called, as many calls were made as planned exactly when no ids join alike. */
  lemma AllWorkIsCalledIff(plan: Plan, started: set<string>, log: seq<string>)
    requires plan.repeats > 0 && Distinct(log) && (forall k | k in log :: k in started)
    requires started == Keys(Planned(plan)) && Lost(started, log) == {}
    ensures |log| == Count(plan) <==> Distinct(Joins(plan.cases, plan.variants))
  {
    forall key | key in started ensures key in Set(log) {
      assert key !in Lost(started, log);
    }
    assert Set(log) == started;
    DistinctFill(log);
    OwnFoldersIff(plan);
  }
}

/**
 What can be told of a pass over the tags before it begins (scripts/normalize_tags.py): whether it will find all its
 targets, and whether it will do what the preview reports.
 */
module TagForesight {
  import opened NormalizeTags
  import opened Options

  /* ---------- before the pass: which tags will be sent to one that is gone ---------- */

  function New(n: Naming, tags: map<Id, Tag>, rows: seq<Id>, i: nat): string
    requires i < |rows| && rows[i] in tags
  {
    NewSlug(n, tags[rows[i]])
  }

  function Old(tags: map<Id, Tag>, rows: seq<Id>, i: nat): string
    requires i < |rows| && rows[i] in tags
  {
    tags[rows[i]].slug
  }

  /**
   Read off the slugs, the new slugs and the order alone: the i-th tag is merged when its new slug is another one,
   which an earlier tag has taken, and not given up by a merge, or a later tag still has.
   */
  predicate Merged(n: Naming, tags: map<Id, Tag>, rows: seq<Id>, i: nat)
    requires Known(tags, rows) && i < |rows|
  {
    && New(n, tags, rows, i) != Old(tags, rows, i)
    && ((exists k | 0 <= k < i :: !Merged(n, tags, rows, k) && New(n, tags, rows, k) == New(n, tags, rows, i))
        || exists k | i < k < |rows| :: Old(tags, rows, k) == New(n, tags, rows, i))
  }

  /** An earlier tag is merged, and its slug is what the i-th is to be called. */
  predicate Misled(n: Naming, tags: map<Id, Tag>, rows: seq<Id>, i: nat)
    requires Known(tags, rows) && i < |rows|
  {
    exists k | 0 <= k < i :: Merged(n, tags, rows, k) && Old(tags, rows, k) == New(n, tags, rows, i)
  }

  /** A pass without conflicts, the only kind that is committed, as far as it finds its targets. */
  ghost predicate NoConflicts(n: Naming, s: State, rows: seq<Id>)
    decreases |rows|
  {
    rows != [] && rows[0] in s.tags && Target(n, s, rows[0]) in s.tags ==>
      Judge(n, s, rows[0]) != Conflict && NoConflicts(n, Pass(n, s, rows[0]), rows[1..])
  }

  /** Before turn i: which earlier tags are gone and what the others are called, all as foreseen. */
  ghost predicate Foreseen(n: Naming, original: map<Id, Tag>, s: State, rows: seq<Id>, i: nat)
    requires Known(original, rows) && i <= |rows|
  {
    && (forall t | t in original :: t in rows) && s.tags.Keys <= original.Keys
    && (forall k | 0 <= k < i :: rows[k] in s.tags <==> !Merged(n, original, rows, k))
    && (forall k | 0 <= k < i && rows[k] in s.tags :: s.tags[rows[k]].slug == New(n, original, rows, k))
  }

  lemma LaterTags(n: Naming, original: map<Id, Tag>, s: State, rows: seq<Id>, i: nat, k: nat)
    requires Known(original, rows) && i <= k < |rows| && Underway(n, original, s, rows[i..])
    ensures rows[k] in s.tags && s.tags[rows[k]].slug == Old(original, rows, k)
    ensures s.tags[rows[k]].name == original[rows[k]].name
  {
    assert rows[i..][k - i] == rows[k];
  }

  /** The tags that are gone are the earlier ones that were to be merged. */
  lemma GoneTag(n: Naming, original: map<Id, Tag>, s: State, rows: seq<Id>, i: nat, t: Id) returns (k: nat)
    requires Known(original, rows) && i <= |rows| && Underway(n, original, s, rows[i..])
    requires Foreseen(n, original, s, rows, i)
    requires t in original && t !in s.tags
    ensures k < i && rows[k] == t && Merged(n, original, rows, k)
  {
    k :| 0 <= k < |rows| && rows[k] == t;
    if k >= i {
      LaterTags(n, original, s, rows, i, k);
    }
  }

  lemma MisledByOldSlug(n: Naming, original: map<Id, Tag>, s: State, rows: seq<Id>, i: nat, t: Id)
    requires Known(original, rows) && i < |rows| && Underway(n, original, s, rows[i..])
    requires Foreseen(n, original, s, rows, i)
    requires t in original && t !in s.tags && original[t].slug == New(n, original, rows, i)
    ensures Misled(n, original, rows, i)
  {
    var k := GoneTag(n, original, s, rows, i, t);
    assert Merged(n, original, rows, k) && Old(original, rows, k) == New(n, original, rows, i);
  }

  lemma MisledIffOldSlug(n: Naming, original: map<Id, Tag>, s: State, rows: seq<Id>, i: nat)
    requires Known(original, rows) && i < |rows| && Underway(n, original, s, rows[i..])
    requires Foreseen(n, original, s, rows, i)
    ensures Misled(n, original, rows, i) <==>
              exists t :: t in original && t !in s.tags && original[t].slug == New(n, original, rows, i)
  {
    if Misled(n, original, rows, i) {
      var k :| 0 <= k < i && Merged(n, original, rows, k) && Old(original, rows, k) == New(n, original, rows, i);
      var t := rows[k];
      assert t in original && t !in s.tags && original[t].slug == New(n, original, rows, i);
    } else if t :| t in original && t !in s.tags && original[t].slug == New(n, original, rows, i) {
      MisledByOldSlug(n, original, s, rows, i, t);
      assert false;
    }
  }

  lemma GoneAsForeseen(n: Naming, original: map<Id, Tag>, s: State, rows: seq<Id>, i: nat)
    requires Known(original, rows) && i < |rows| && Agrees(s) && Underway(n, original, s, rows[i..])
    requires Foreseen(n, original, s, rows, i)
    ensures rows[i] in s.tags && (Target(n, s, rows[i]) !in s.tags <==> Misled(n, original, rows, i))
  {
    LaterTags(n, original, s, rows, i, i);
    assert rows[i..][0] == rows[i];
    TargetIsGoneIff(n, original, s, rows[i..]);
    MisledIffOldSlug(n, original, s, rows, i);
  }

  lemma HolderIsTarget(n: Naming, s: State, id: Id, t: Id)
    requires Agrees(s) && id in s.tags && t in s.tags && s.tags[t].slug == NewSlug(n, s.tags[id])
    ensures Target(n, s, id) == t
  {
  }

  lemma MergedAsForeseen(n: Naming, original: map<Id, Tag>, s: State, rows: seq<Id>, i: nat)
    requires Known(original, rows) && i < |rows| && Agrees(s) && Underway(n, original, s, rows[i..])
    requires Foreseen(n, original, s, rows, i)
    requires rows[i] in s.tags && Target(n, s, rows[i]) in s.tags
    ensures NewSlug(n, s.tags[rows[i]]) == New(n, original, rows, i)
    ensures Target(n, s, rows[i]) != rows[i] <==> Merged(n, original, rows, i)
  {
    LaterTags(n, original, s, rows, i, i);
    SameNewSlug(n, s.tags[rows[i]], original[rows[i]]);
    var id, t, slug := rows[i], Target(n, s, rows[i]), New(n, original, rows, i);
    if t != id {
      assert s.tags[t].slug == slug;
      assert t in original;
      var k :| 0 <= k < |rows| && rows[k] == t;
      if k >= i {
        LaterTags(n, original, s, rows, i, k);
      }
    }
    if Merged(n, original, rows, i) {
      if k :| 0 <= k < i && !Merged(n, original, rows, k) && New(n, original, rows, k) == slug {
        HolderIsTarget(n, s, id, rows[k]);
        assert s.tags[rows[k]].slug != s.tags[id].slug;
      } else {
        var k :| i < k < |rows| && Old(original, rows, k) == slug;
        LaterTags(n, original, s, rows, i, k);
        HolderIsTarget(n, s, id, rows[k]);
      }
    }
  }

  lemma ForeseenGoesOn(n: Naming, original: map<Id, Tag>, s: State, rows: seq<Id>, i: nat)
    requires Known(original, rows) && i < |rows| && Agrees(s) && Underway(n, original, s, rows[i..])
    requires Foreseen(n, original, s, rows, i)
    requires forall j, k | 0 <= j < k < |rows| :: rows[j] != rows[k]
    requires rows[i] in s.tags && Target(n, s, rows[i]) in s.tags && Judge(n, s, rows[i]) != Conflict
    ensures Foreseen(n, original, Pass(n, s, rows[i]), rows, i + 1)
  {
    MergedAsForeseen(n, original, s, rows, i);
    PassMoves(n, s, rows[i]);
    var next := Pass(n, s, rows[i]);
    forall k | 0 <= k < i + 1
      ensures rows[k] in next.tags <==> !Merged(n, original, rows, k)
      ensures rows[k] in next.tags ==> next.tags[rows[k]].slug == New(n, original, rows, k)
    {
      assert k < i ==> rows[k] != rows[i];
    }
  }

  lemma {:induction false} AliveAsForeseen(n: Naming, original: map<Id, Tag>, s: State, rows: seq<Id>, i: nat)
    requires Known(original, rows) && i <= |rows| && Agrees(s) && Underway(n, original, s, rows[i..])
    requires Foreseen(n, original, s, rows, i)
    requires (forall j, k | 0 <= j < k < |rows| :: rows[j] != rows[k]) && NoConflicts(n, s, rows[i..])
    ensures TargetsAlive(n, s, rows[i..]) <==> forall k | i <= k < |rows| :: !Misled(n, original, rows, k)
    decreases |rows| - i
  {
    if i < |rows| {
      GoneAsForeseen(n, original, s, rows, i);
      AliveFromHere(n, s, rows, i);
      if Target(n, s, rows[i]) in s.tags {
        assert rows[i..][0] == rows[i] && rows[i..][1..] == rows[i + 1..];
        ForeseenGoesOn(n, original, s, rows, i);
        PassMoves(n, s, rows[i]);
        PassKeepsIndex(n, s, rows[i]);
        MergedAsForeseen(n, original, s, rows, i);
        LaterTags(n, original, s, rows, i, i);
        UnderwayGoesOn(n, original, s, Pass(n, s, rows[i]), rows[i..], Judge(n, s, rows[i]),
                       n.name(original[rows[i]].name), New(n, original, rows, i));
        AliveAsForeseen(n, original, Pass(n, s, rows[i]), rows, i + 1);
      }
    }
  }

  /**
   A caller can tell from the slugs and their order whether a pass without conflicts finds all its targets: exactly
   when no tag is to be called what an earlier, merged tag was called.
   */
  lemma TargetsAliveIff(n: Naming, s: State, rows: seq<Id>)
    requires UniqueSlugs(s.tags) && s.bySlug == Indexed(s.tags) && Lists(rows, s.tags) && NoConflicts(n, s, rows)
    ensures TargetsAlive(n, s, rows) <==> forall k | 0 <= k < |rows| :: !Misled(n, s.tags, rows, k)
  {
    assert Known(s.tags, rows) by {
      forall i | 0 <= i < |rows| ensures rows[i] in s.tags {
        assert rows[i] in rows;
      }
    }
    FreshIndexAgrees(s);
    assert rows[0..] == rows;
    AliveAsForeseen(n, s.tags, s, rows, 0);
  }

  /** #foo is merged into foo; what was misspelled sharp_foo is then sent to #foo, which is gone. */
  lemma MisledPass(n: Naming, s: State)
    requires n.name("foo") == "foo" && n.name("#foo") == "foo" && n.name("sharp foo") == "sharp foo"
    requires n.slug("foo") == "foo" && n.slug("sharp foo") == "sharp-foo" && n.slug("sharp_foo") == "sharp-foo"
    requires n.wellFormed("foo") && n.wellFormed("sharp-foo") && !n.wellFormed("sharp_foo")
    requires s.tags.Keys == {1, 2, 3} && s.tags[1] == Tag("foo", "foo", [], None, true)
    requires s.tags[2] == Tag("#foo", "sharp-foo", [], None, true)
    requires s.tags[3] == Tag("sharp foo", "sharp_foo", [], None, true)
    requires UniqueSlugs(s.tags) && s.bySlug == Indexed(s.tags)
    ensures Lists([1, 2, 3], s.tags) && Misled(n, s.tags, [1, 2, 3], 2) && !TargetsAlive(n, s, [1, 2, 3])
  {
    FreshIndexAgrees(s);
    FooSlugs(n, s.tags);
    MisledFoo(n, s.tags, [1, 2, 3]);
    assert Target(n, s, 1) == 1 && Judge(n, s, 1) == Same;
    assert Target(n, s, 2) == 1;
    MisledMerges(n, s);
    MergedTagsLingerInTheIndex(n, s, 2, 3);
    FooIsNotAlive(n, s, [1, 2, 3]);
  }

  lemma FooIsNotAlive(n: Naming, s: State, rows: seq<Id>)
    requires rows == [1, 2, 3] && 1 in s.tags && 2 in s.tags && Target(n, s, 1) in s.tags && Target(n, s, 2) in s.tags
    requires Judge(n, s, 1) == Same && 3 in Pass(n, s, 2).tags && Target(n, Pass(n, s, 2), 3) !in Pass(n, s, 2).tags
    ensures !TargetsAlive(n, s, rows)
  {
    assert rows[1..] == [2, 3] && rows[1..][1..] == [3] && [3][0] == 3;
    assert !TargetsAlive(n, Pass(n, s, 2), [3]);
    assert !TargetsAlive(n, s, rows[1..]);
  }

  lemma MisledFoo(n: Naming, tags: map<Id, Tag>, rows: seq<Id>)
    requires rows == [1, 2, 3] && Known(tags, rows) && 1 in tags && 2 in tags && 3 in tags
    requires NewSlug(n, tags[1]) == "foo" && NewSlug(n, tags[2]) == "foo" && NewSlug(n, tags[3]) == "sharp-foo"
    requires tags[1].slug == "foo" && tags[2].slug == "sharp-foo"
    ensures Misled(n, tags, rows, 2)
  {
    assert !Merged(n, tags, rows, 0);
    assert Merged(n, tags, rows, 1) && Old(tags, rows, 1) == New(n, tags, rows, 2);
  }

  lemma FooSlugs(n: Naming, tags: map<Id, Tag>)
    requires n.name("foo") == "foo" && n.name("#foo") == "foo" && n.name("sharp foo") == "sharp foo"
    requires n.slug("foo") == "foo" && n.slug("sharp foo") == "sharp-foo" && n.slug("sharp_foo") == "sharp-foo"
    requires n.wellFormed("foo") && n.wellFormed("sharp-foo") && !n.wellFormed("sharp_foo")
    requires tags.Keys == {1, 2, 3} && tags[1] == Tag("foo", "foo", [], None, true)
    requires tags[2] == Tag("#foo", "sharp-foo", [], None, true)
    requires tags[3] == Tag("sharp foo", "sharp_foo", [], None, true)
    ensures NewSlug(n, tags[1]) == "foo" && NewSlug(n, tags[2]) == "foo" && NewSlug(n, tags[3]) == "sharp-foo"
  {
    assert "sharp-foo"[6..] == "foo";
  }

  lemma MisledMerges(n: Naming, s: State)
    requires {1, 2} <= s.tags.Keys && Target(n, s, 2) == 1 && n.name("#foo") == "foo" && NewSlug(n, s.tags[2]) == "foo"
    requires s.tags[1] == Tag("foo", "foo", [], None, true) && s.tags[2] == Tag("#foo", "sharp-foo", [], None, true)
    ensures Judge(n, s, 2) == Merge
  {
    var values := [] + [] + ["#foo", "sharp-foo"];
    DistinctIsNoLonger(values, {NewName(n, s, 2), NewSlug(n, s.tags[2])});
    assert s.tags[1].aliases + s.tags[2].aliases + [s.tags[2].name, s.tags[2].slug] == values;
  }

  lemma {:induction false} DistinctIsNoLonger(values: seq<string>, excluded: set<string>)
    ensures |Distinct(values, excluded)| <= |values|
  {
    if values != [] {
      DistinctIsNoLonger(values[..|values| - 1], excluded);
    }
  }

  /* ---------- the preview ---------- */

  /** The i-th tag is no conflict in the preview, and neither is any after it. */
  ghost predicate CleanFrom(n: Naming, first: State, rows: seq<Id>, i: nat)
    requires i <= |rows|
    decreases |rows| - i
  {
    i < |rows| ==> CleanAt(n, first, rows[i]) && CleanFrom(n, first, rows, i + 1)
  }

  ghost predicate CleanAt(n: Naming, first: State, id: Id) {
    id in first.tags && Target(n, first, id) in first.tags && Judge(n, first, id) != Conflict
  }

  /**
   Read off before the pass: whoever has the new slug of the i-th tag now still has it at its turn, under the same
   name, and if nobody has it now, then nobody will have taken it.
   */
  predicate Foretold(n: Naming, tags: map<Id, Tag>, rows: seq<Id>, i: nat)
    requires Known(tags, rows) && i < |rows|
  {
    && (forall k | 0 <= k < i && Old(tags, rows, k) == New(n, tags, rows, i) ::
          !Merged(n, tags, rows, k) && New(n, tags, rows, k) == Old(tags, rows, k)
          && n.name(tags[rows[k]].name) == tags[rows[k]].name)
    && ((forall k | 0 <= k < |rows| && k != i :: Old(tags, rows, k) != New(n, tags, rows, i)) ==>
         !Merged(n, tags, rows, i))
  }

  /** The tag that has the slug before the pass, if there is one, is the previewed target. */
  lemma PreviewedTarget(n: Naming, first: State, rows: seq<Id>, i: nat, k: nat)
    requires Fresh(first) && Known(first.tags, rows) && i < |rows| && k < |rows|
    requires Old(first.tags, rows, k) == New(n, first.tags, rows, i)
    ensures Target(n, first, rows[i]) == rows[k]
  {
  }

  lemma TargetHasTheSlug(n: Naming, first: State, rows: seq<Id>, i: nat) returns (k: nat)
    requires Fresh(first) && Lists(rows, first.tags) && i < |rows| && rows[i] in first.tags
    requires Target(n, first, rows[i]) != rows[i]
    ensures k < |rows| && k != i && Known(first.tags, rows) && Old(first.tags, rows, k) == New(n, first.tags, rows, i)
    ensures Target(n, first, rows[i]) == rows[k]
  {
    assert Known(first.tags, rows) by {
      forall j | 0 <= j < |rows| ensures rows[j] in first.tags {
        assert rows[j] in rows;
      }
    }
    var t := Target(n, first, rows[i]);
    FreshTargets(n, first, rows[i]);
    assert first.tags[t].slug == NewSlug(n, first.tags[rows[i]]);
    k :| 0 <= k < |rows| && rows[k] == t;
  }

  /** An earlier target is the same at its turn exactly when it is there, kept its slug, and its name. */
  lemma EarlierTargetIff(n: Naming, first: State, s: State, rows: seq<Id>, i: nat, k: nat)
    requires Fresh(first) && Lists(rows, first.tags) && Known(first.tags, rows) && k < i < |rows|
    requires OnTrack(n, first.tags, s, rows, i, {}) && Foreseen(n, first.tags, s, rows, i)
    requires rows[i] in s.tags && Target(n, s, rows[i]) in s.tags
    requires Old(first.tags, rows, k) == New(n, first.tags, rows, i)
    ensures Target(n, s, rows[i]) == rows[k] && s.tags[rows[k]].name == first.tags[rows[k]].name <==>
            !Merged(n, first.tags, rows, k) && New(n, first.tags, rows, k) == Old(first.tags, rows, k)
            && n.name(first.tags[rows[k]].name) == first.tags[rows[k]].name
  {
    MergedAsForeseen(n, first.tags, s, rows, i);
    assert rows[k] in rows[..i];
    if rows[k] in s.tags && s.tags[rows[k]].slug == New(n, first.tags, rows, i) {
      HolderIsTarget(n, s, rows[i], rows[k]);
    }
  }

  lemma LaterTargetIsPreviewed(n: Naming, first: State, s: State, rows: seq<Id>, i: nat, k: nat)
    requires Fresh(first) && Known(first.tags, rows) && i < k < |rows|
    requires OnTrack(n, first.tags, s, rows, i, {}) && rows[i] in s.tags && rows[k] != rows[i]
    requires Old(first.tags, rows, k) == New(n, first.tags, rows, i)
    ensures Target(n, s, rows[i]) == rows[k] && rows[k] in s.tags && s.tags[rows[k]].name == first.tags[rows[k]].name
  {
    LaterTags(n, first.tags, s, rows, i, i);
    LaterTags(n, first.tags, s, rows, i, k);
    SameNewSlug(n, s.tags[rows[i]], first.tags[rows[i]]);
    HolderIsTarget(n, s, rows[i], rows[k]);
  }

  lemma OneHolder(first: State, rows: seq<Id>, j: nat, k: nat)
    requires Fresh(first) && Known(first.tags, rows) && j < |rows| && k < |rows|
    requires (forall a, b | 0 <= a < b < |rows| :: rows[a] != rows[b])
    requires Old(first.tags, rows, j) == Old(first.tags, rows, k)
    ensures j == k
  {
    assert rows[j] == rows[k];
  }

  /** With one tag that has the new slug now, what is foretold is about that tag. */
  lemma ForetoldByHolder(n: Naming, first: State, rows: seq<Id>, i: nat, k: nat)
    requires Fresh(first) && Known(first.tags, rows) && i < |rows| && k < |rows| && k != i
    requires (forall a, b | 0 <= a < b < |rows| :: rows[a] != rows[b])
    requires Old(first.tags, rows, k) == New(n, first.tags, rows, i)
    ensures Foretold(n, first.tags, rows, i) <==>
            k < i ==> !Merged(n, first.tags, rows, k) && New(n, first.tags, rows, k) == Old(first.tags, rows, k)
                      && n.name(first.tags[rows[k]].name) == first.tags[rows[k]].name
  {
    forall j | 0 <= j < |rows| && Old(first.tags, rows, j) == New(n, first.tags, rows, i) ensures j == k {
      OneHolder(first, rows, j, k);
    }
  }

  lemma ForetoldAlone(n: Naming, first: State, rows: seq<Id>, i: nat)
    requires Fresh(first) && Known(first.tags, rows) && i < |rows| && Target(n, first, rows[i]) == rows[i]
    requires forall a, b | 0 <= a < b < |rows| :: rows[a] != rows[b]
    ensures Foretold(n, first.tags, rows, i) <==> !Merged(n, first.tags, rows, i)
  {
    forall k | 0 <= k < |rows| && k != i ensures Old(first.tags, rows, k) != New(n, first.tags, rows, i) {
      if Old(first.tags, rows, k) == New(n, first.tags, rows, i) {
        PreviewedTarget(n, first, rows, i, k);
        assert false;
      }
    }
  }

  lemma ChangesAgree(n: Naming, first: State, s: State, id: Id)
    requires id in s.tags && Target(n, s, id) in s.tags && id in first.tags && Target(n, first, id) in first.tags
    requires s.tags[id].name == first.tags[id].name && s.tags[id].slug == first.tags[id].slug
    ensures var t := Target(n, first, id);
            ChangeOf(n, s, id) == ChangeOf(n, first, id) <==>
            Target(n, s, id) == t && (t != id ==> t in s.tags && s.tags[t].name == first.tags[t].name)
  {
    SameNewSlug(n, s.tags[id], first.tags[id]);
  }

  lemma TurnWithHolder(n: Naming, first: State, s: State, rows: seq<Id>, i: nat, k: nat)
    requires Fresh(first) && Lists(rows, first.tags) && Known(first.tags, rows) && i < |rows| && k < |rows| && k != i
    requires OnTrack(n, first.tags, s, rows, i, {}) && Foreseen(n, first.tags, s, rows, i)
    requires rows[i] in s.tags && Target(n, s, rows[i]) in s.tags
    requires Old(first.tags, rows, k) == New(n, first.tags, rows, i) && Target(n, first, rows[i]) == rows[k]
    ensures Target(n, s, rows[i]) == rows[k] && rows[k] in s.tags
            && s.tags[rows[k]].name == first.tags[rows[k]].name <==>
            Foretold(n, first.tags, rows, i)
  {
    ForetoldByHolder(n, first, rows, i, k);
    if k < i {
      EarlierTargetIff(n, first, s, rows, i, k);
    } else {
      LaterTargetIsPreviewed(n, first, s, rows, i, k);
    }
  }

  /** At a turn that finds its target, the change is the previewed one exactly when that was foretold. */
  lemma TurnAsForetold(n: Naming, first: State, s: State, rows: seq<Id>, i: nat)
    requires Fresh(first) && Known(first.tags, rows) && Lists(rows, first.tags) && i < |rows|
    requires CleanAt(n, first, rows[i])
    requires OnTrack(n, first.tags, s, rows, i, {}) && Foreseen(n, first.tags, s, rows, i)
    requires rows[i] in s.tags && Target(n, s, rows[i]) in s.tags
    ensures ChangeOf(n, s, rows[i]) == ChangeOf(n, first, rows[i]) <==> Foretold(n, first.tags, rows, i)
  {
    LaterTags(n, first.tags, s, rows, i, i);
    ChangesAgree(n, first, s, rows[i]);
    if Target(n, first, rows[i]) != rows[i] {
      var k := TargetHasTheSlug(n, first, rows, i);
      assert rows[k] != rows[i];
      TurnWithHolder(n, first, s, rows, i, k);
    } else {
      MergedAsForeseen(n, first.tags, s, rows, i);
      ForetoldAlone(n, first, rows, i);
    }
  }

  lemma SameAsPreviewed(n: Naming, first: State, s: State, rows: seq<Id>, i: nat)
    requires Fresh(first) && Known(first.tags, rows) && i < |rows| && CleanAt(n, first, rows[i])
    requires OnTrack(n, first.tags, s, rows, i, {})
    requires rows[i] in s.tags && Target(n, s, rows[i]) in s.tags && Judge(n, s, rows[i]) != Conflict
    ensures Judge(n, s, rows[i]) == Same <==> Judge(n, first, rows[i]) == Same
  {
    LaterTags(n, first.tags, s, rows, i, i);
    SameNewSlug(n, s.tags[rows[i]], first.tags[rows[i]]);
  }

  lemma MisledIsNotForetold(n: Naming, tags: map<Id, Tag>, rows: seq<Id>, i: nat)
    requires Known(tags, rows) && i < |rows| && Misled(n, tags, rows, i)
    ensures !Foretold(n, tags, rows, i)
  {
  }

  lemma GoneIsAnotherSlug(n: Naming, s: State, id: Id)
    requires Agrees(s) && id in s.tags && Target(n, s, id) !in s.tags
    ensures NewSlug(n, s.tags[id]) != s.tags[id].slug
  {
  }

  /** A tag that is sent to one that is gone was previewed as something else. */
  lemma MisledIsPreviewed(n: Naming, first: State, s: State, rows: seq<Id>, i: nat)
    requires Fresh(first) && Known(first.tags, rows) && i < |rows| && CleanAt(n, first, rows[i])
    requires OnTrack(n, first.tags, s, rows, i, {}) && Foreseen(n, first.tags, s, rows, i)
    requires rows[i] in s.tags && Target(n, s, rows[i]) !in s.tags
    ensures !Foretold(n, first.tags, rows, i) && Reported(n, first, rows[i]) != []
  {
    GoneAsForeseen(n, first.tags, s, rows, i);
    MisledIsNotForetold(n, first.tags, rows, i);
    LaterTags(n, first.tags, s, rows, i, i);
    GoneIsAnotherSlug(n, s, rows[i]);
    SameNewSlug(n, s.tags[rows[i]], first.tags[rows[i]]);
  }

  lemma SameIsForetold(n: Naming, first: State, s: State, rows: seq<Id>, i: nat)
    requires Fresh(first) && Known(first.tags, rows) && i < |rows| && CleanAt(n, first, rows[i])
    requires OnTrack(n, first.tags, s, rows, i, {})
    requires rows[i] in s.tags && Target(n, s, rows[i]) in s.tags && Judge(n, s, rows[i]) == Same
    ensures ChangeOf(n, s, rows[i]) == ChangeOf(n, first, rows[i])
  {
    LaterTags(n, first.tags, s, rows, i, i);
    SameNewSlug(n, s.tags[rows[i]], first.tags[rows[i]]);
    FreshIndexAgrees(first);
    HolderIsTarget(n, s, rows[i], rows[i]);
    HolderIsTarget(n, first, rows[i], rows[i]);
  }

  /** What one turn reports is what was previewed, exactly when that was foretold. */
  lemma ReportedAsForetold(n: Naming, first: State, s: State, rows: seq<Id>, i: nat)
    requires Fresh(first) && Known(first.tags, rows) && Lists(rows, first.tags) && i < |rows|
    requires CleanAt(n, first, rows[i])
    requires OnTrack(n, first.tags, s, rows, i, {}) && Foreseen(n, first.tags, s, rows, i)
    requires rows[i] in s.tags && Target(n, s, rows[i]) in s.tags && Judge(n, s, rows[i]) != Conflict
    ensures |Reported(n, s, rows[i])| == |Reported(n, first, rows[i])|
    ensures Reported(n, s, rows[i]) == Reported(n, first, rows[i]) <==> Foretold(n, first.tags, rows, i)
  {
    SameAsPreviewed(n, first, s, rows, i);
    TurnAsForetold(n, first, s, rows, i);
    if Judge(n, s, rows[i]) == Same {
      SameIsForetold(n, first, s, rows, i);
    } else {
      assert Reported(n, s, rows[i]) == [ChangeOf(n, s, rows[i])]
             && Reported(n, first, rows[i]) == [ChangeOf(n, first, rows[i])];
    }
  }

  /** Foretold for the i-th tag and all after it. */
  predicate AllForetold(n: Naming, tags: map<Id, Tag>, rows: seq<Id>, i: nat)
    requires Known(tags, rows) && i <= |rows|
    decreases |rows| - i
  {
    i < |rows| ==> Foretold(n, tags, rows, i) && AllForetold(n, tags, rows, i + 1)
  }

  lemma {:induction false} AllForetoldMeans(n: Naming, tags: map<Id, Tag>, rows: seq<Id>, i: nat)
    requires Known(tags, rows) && i <= |rows|
    ensures AllForetold(n, tags, rows, i) <==> forall k | i <= k < |rows| :: Foretold(n, tags, rows, k)
    decreases |rows| - i
  {
    if i < |rows| {
      AllForetoldMeans(n, tags, rows, i + 1);
    }
  }

  lemma SameHeads(all: seq<Change>, a: seq<Change>, x: seq<Change>, other: seq<Change>, b: seq<Change>, y: seq<Change>)
    requires |a| == |b| && all == a + x && other == b + y
    ensures all == other <==> a == b && x == y
  {
    assert a == all[..|a|] && b == other[..|b|] && x == all[|a|..] && y == other[|b|..];
  }

  lemma NoConflictHere(n: Naming, s: State, rows: seq<Id>, i: nat)
    requires i < |rows| && rows[i] in s.tags && Target(n, s, rows[i]) in s.tags && NoConflicts(n, s, rows[i..])
    ensures Judge(n, s, rows[i]) != Conflict && NoConflicts(n, Pass(n, s, rows[i]), rows[i + 1..])
  {
    assert rows[i..][0] == rows[i] && rows[i..][1..] == rows[i + 1..];
  }

  lemma StaysForeseen(n: Naming, original: map<Id, Tag>, s: State, rows: seq<Id>, i: nat)
    requires Known(original, rows) && i < |rows| && (forall j, k | 0 <= j < k < |rows| :: rows[j] != rows[k])
    requires OnTrack(n, original, s, rows, i, {}) && Foreseen(n, original, s, rows, i)
    requires rows[i] in s.tags && Target(n, s, rows[i]) in s.tags && Judge(n, s, rows[i]) != Conflict
    ensures OnTrack(n, original, Pass(n, s, rows[i]), rows, i + 1, {})
    ensures Foreseen(n, original, Pass(n, s, rows[i]), rows, i + 1)
  {
    ForeseenGoesOn(n, original, s, rows, i);
    StaysOnTrack(n, original, s, rows, i, {});
  }

  /** The reports agree from a turn on exactly when that turn is as foretold and they agree after it. */
  lemma AgreeFromHere(n: Naming, first: State, s: State, rows: seq<Id>, i: nat)
    requires Fresh(first) && Known(first.tags, rows) && i < |rows| && Target(n, first, rows[i]) in first.tags
    requires rows[i] in s.tags && Target(n, s, rows[i]) in s.tags
    requires |Reported(n, s, rows[i])| == |Reported(n, first, rows[i])|
    requires Reported(n, s, rows[i]) == Reported(n, first, rows[i]) <==> Foretold(n, first.tags, rows, i)
    ensures Applied(n, s, rows[i..]) == Previewed(n, first, rows[i..]) <==>
            Foretold(n, first.tags, rows, i)
            && Applied(n, Pass(n, s, rows[i]), rows[i + 1..]) == Previewed(n, first, rows[i + 1..])
  {
    AppliedFrom(n, s, rows, i);
    PreviewedFrom(n, first, rows, i);
    SameHeads(Applied(n, s, rows[i..]), Reported(n, s, rows[i]), Applied(n, Pass(n, s, rows[i]), rows[i + 1..]),
              Previewed(n, first, rows[i..]), Reported(n, first, rows[i]), Previewed(n, first, rows[i + 1..]));
  }

  lemma DisagreeWhenMisled(n: Naming, first: State, s: State, rows: seq<Id>, i: nat)
    requires Fresh(first) && Known(first.tags, rows) && i < |rows| && Target(n, first, rows[i]) in first.tags
    requires rows[i] in s.tags && Target(n, s, rows[i]) !in s.tags && Reported(n, first, rows[i]) != []
    ensures Applied(n, s, rows[i..]) != Previewed(n, first, rows[i..])
  {
    AppliedFrom(n, s, rows, i);
    PreviewedFrom(n, first, rows, i);
  }

  lemma {:induction false} AppliedAsForetold(n: Naming, first: State, s: State, rows: seq<Id>, i: nat)
    requires Fresh(first) && Known(first.tags, rows) && Lists(rows, first.tags) && i <= |rows|
    requires CleanFrom(n, first, rows, i)
    requires OnTrack(n, first.tags, s, rows, i, {}) && Foreseen(n, first.tags, s, rows, i)
    requires NoConflicts(n, s, rows[i..])
    ensures Applied(n, s, rows[i..]) == Previewed(n, first, rows[i..]) <==> AllForetold(n, first.tags, rows, i)
    decreases |rows| - i
  {
    if i < |rows| {
      LaterTags(n, first.tags, s, rows, i, i);
      if Target(n, s, rows[i]) !in s.tags {
        MisledIsPreviewed(n, first, s, rows, i);
        DisagreeWhenMisled(n, first, s, rows, i);
      } else {
        NoConflictHere(n, s, rows, i);
        ReportedAsForetold(n, first, s, rows, i);
        StaysForeseen(n, first.tags, s, rows, i);
        AgreeFromHere(n, first, s, rows, i);
        AppliedAsForetold(n, first, Pass(n, s, rows[i]), rows, i + 1);
      }
    }
  }

  /**
   Applying reports the previewed changes exactly when every tag finds what the preview saw, which can be read off
   the names, the slugs and their order. Neither the preview nor the pass may report a conflict.
   */
  lemma AppliedAsPreviewedIff(n: Naming, s: State, rows: seq<Id>)
    requires Fresh(s) && Known(s.tags, rows) && Lists(rows, s.tags) && CleanFrom(n, s, rows, 0)
    requires NoConflicts(n, s, rows)
    ensures Applied(n, s, rows) == Previewed(n, s, rows) <==> forall i | 0 <= i < |rows| :: Foretold(n, s.tags, rows, i)
  {
    FreshIndexAgrees(s);
    OnTrackAtFirst(n, s, rows);
    assert rows[0..] == rows;
    ForeseenAtFirst(n, s, rows);
    AppliedAsForetold(n, s, s, rows, 0);
    AllForetoldMeans(n, s.tags, rows, 0);
  }

  lemma ForeseenAtFirst(n: Naming, s: State, rows: seq<Id>)
    requires Lists(rows, s.tags) && Known(s.tags, rows)
    ensures Foreseen(n, s.tags, s, rows, 0)
  {
  }

  /** Two tags are to be called foo: the preview renames both, applying merges the second into the first. */
  lemma PreviewMissesAMerge(n: Naming, s: State)
    requires n.name("foo") == "foo" && n.name("#foo") == "foo" && n.slug("foo") == "foo" && n.slug("foo_") == "foo"
    requires !n.wellFormed("foo_") && Fresh(s) && s.tags.Keys == {1, 2}
    requires s.tags[1] == Tag("foo", "foo_", [], None, true) && s.tags[2] == Tag("#foo", "sharp-foo", [], None, true)
    ensures Target(n, s, 1) == 1 && Judge(n, s, 1) == Rename && Target(n, s, 2) == 2 && Judge(n, s, 2) == Rename
    ensures Target(n, Pass(n, s, 1), 2) == 1
    ensures Known(s.tags, [1, 2]) && Applied(n, s, [1, 2]) != Previewed(n, s, [1, 2])
  {
    assert "sharp-foo"[6..] == "foo";
    assert NewSlug(n, s.tags[1]) == "foo" && NewSlug(n, s.tags[2]) == "foo";
    FreshIndexAgrees(s);
    assert "foo" !in s.bySlug;
    FewAliases(n, s, 1);
    FewAliases(n, s, 2);
    PassMoves(n, s, 1);
    SameNewSlug(n, s.tags[2], Pass(n, s, 1).tags[2]);
    SecondPreviewed(n, s, 1, 2);
    SecondApplied(n, s, 1, 2);
  }

  lemma SecondPreviewed(n: Naming, s: State, first: Id, second: Id)
    requires Fresh(s) && first in s.tags && second in s.tags
    requires Judge(n, s, first) == Rename && Target(n, s, second) == second && Judge(n, s, second) == Rename
    ensures Known(s.tags, [first, second])
    ensures var all := Previewed(n, s, [first, second]); |all| == 2 && all[1].into == second
  {
    var rows := [first, second];
    FreshTargets(n, s, first);
    PreviewedFrom(n, s, rows, 0);
    PreviewedFrom(n, s, rows, 1);
    assert rows[0..] == rows;
    assert Previewed(n, s, rows) == [ChangeOf(n, s, first)] + ([ChangeOf(n, s, second)] + []);
  }

  lemma SecondApplied(n: Naming, s: State, first: Id, second: Id)
    requires first in s.tags && Target(n, s, first) in s.tags && second in Pass(n, s, first).tags
    ensures var all := Applied(n, s, [first, second]);
            |all| == 2 ==> all[1].into == Target(n, Pass(n, s, first), second)
  {
    var rows, after := [first, second], Pass(n, s, first);
    AppliedFrom(n, s, rows, 0);
    AppliedFrom(n, after, rows, 1);
    assert rows[0..] == rows && rows[2..] == [];
    var last := Applied(n, after, rows[1..]);
    assert last == [] || last == Reported(n, after, second) + [];
  }

  lemma FewAliases(n: Naming, s: State, id: Id)
    requires id in s.tags && Target(n, s, id) == id && s.tags[id].aliases == []
    ensures |NewAliases(n, s, id)| <= MOST_ALIASES
  {
    var values := [] + [] + [s.tags[id].name, s.tags[id].slug];
    DistinctIsNoLonger(values, {NewName(n, s, id), NewSlug(n, s.tags[id])});
    assert s.tags[id].aliases + s.tags[id].aliases + [s.tags[id].name, s.tags[id].slug] == values;
  }
}

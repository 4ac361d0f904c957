/**
 The concurrent index swap of migrations/versions/0033_article_lifecycle.py.

 Every catalog change commits on its own, so a migration can stop after any of them. `fuel` says after
 how many: with fuel k a method ends in the state an interruption after the k-th change leaves, and
 what it ensures for every fuel holds at every intermediate step.
 */
module IndexSwap {
  datatype Name = Due | DueNext | DuePrevious | ImageHistory | Other(name: string)

  datatype Review = Pending | Approved | Rejected
  datatype Publication = Unpublished | Published

  /** Which articles an automation index holds; the history index holds every image job. */
  datatype Definition = PendingUnpublished | ReviewedUnpublished | JobHistory

  datatype Index = Index(valid: bool, definition: Definition)

  type Catalog = map<Name, Index>

  predicate Holds(definition: Definition, review: Review, publication: Publication) {
    match definition
    case PendingUnpublished => review == Pending && publication == Unpublished
    case ReviewedUnpublished => (review == Pending || review == Approved) && publication == Unpublished
    case JobHistory => false
  }

  predicate Automation(name: Name) {
    name == Due || name == DueNext || name == DuePrevious
  }

  /** A planner looking for such an article has a valid automation index to use. */
  ghost predicate Served(indexes: Catalog, review: Review) {
    exists name :: Automation(name) && name in indexes && indexes[name].valid
                   && Holds(indexes[name].definition, review, Unpublished)
  }

  function Wanted(approved: bool): Definition {
    if approved then ReviewedUnpublished else PendingUnpublished
  }

  function Temporary(approved: bool): Name {
    if approved then DueNext else DuePrevious
  }

  /**
   What the migrations leave behind: a temporary index carries the predicate its name stands for
   (which is why _ensure_index need not compare definitions), and pending articles are always served.
   */
  ghost predicate Sound(indexes: Catalog) {
    && (forall approved :: Temporary(approved) in indexes ==>
          indexes[Temporary(approved)].definition == Wanted(approved))
    && (Due in indexes ==> indexes[Due].definition != JobHistory)
    && (ImageHistory in indexes ==> indexes[ImageHistory].definition == JobHistory)
    && Served(indexes, Pending)
  }

  /** The catalog a completed swap leaves. */
  ghost predicate Swapped(indexes: Catalog, approved: bool) {
    && Due in indexes && indexes[Due] == Index(true, Wanted(approved))
    && DueNext !in indexes && DuePrevious !in indexes
  }

  ghost predicate SameExcept(before: Catalog, after: Catalog, names: set<Name>) {
    forall name | name !in names ::
      (name in before <==> name in after) && (name in before ==> before[name] == after[name])
  }

  lemma StillServed(before: Catalog, after: Catalog, changed: set<Name>, server: Name, review: Review)
    requires SameExcept(before, after, changed) && server !in changed && Automation(server)
    requires server in before && before[server].valid && Holds(before[server].definition, review, Unpublished)
    ensures Served(after, review)
  {
    assert server in after && after[server] == before[server];
  }

  /** Both definitions hold the pending articles, so any valid automation index serves them. */
  lemma ServedBy(indexes: Catalog, server: Name, review: Review)
    requires Automation(server) && server in indexes && indexes[server].valid
    requires indexes[server].definition == ReviewedUnpublished || indexes[server].definition == PendingUnpublished
    requires review == Pending || (review == Approved && indexes[server].definition == ReviewedUnpublished)
    ensures Served(indexes, review)
  {
  }

  datatype Attempt = Attempt(up: bool, fuel: nat)

  class Database {
    var indexes: Catalog
    var fuel: nat

    constructor ()
      ensures Sound(indexes) && Swapped(indexes, false) && ImageHistory !in indexes
    {
      indexes := map[Due := Index(true, PendingUnpublished)];
      fuel := 0;
      new;
      ServedBy(indexes, Due, Pending);
    }

    /** CREATE INDEX CONCURRENTLY: the entry is there, unusable, before the build has run. */
    method CreateConcurrently(name: Name, definition: Definition) returns (ok: bool)
      requires name !in indexes
      modifies this
      ensures SameExcept(old(indexes), indexes, {name}) && fuel <= old(fuel)
      ensures name in indexes ==> indexes[name].definition == definition
      ensures ok ==> name in indexes && indexes[name].valid
      ensures old(fuel) >= 2 ==> ok && fuel == old(fuel) - 2
    {
      if fuel == 0 { return false; }
      fuel, indexes := fuel - 1, indexes[name := Index(false, definition)];
      if fuel == 0 { return false; }
      fuel, indexes := fuel - 1, indexes[name := Index(true, definition)];
      return true;
    }

    /** DROP INDEX CONCURRENTLY IF EXISTS: unusable first, gone once no transaction can see it. */
    method DropConcurrently(name: Name) returns (ok: bool)
      modifies this
      ensures SameExcept(old(indexes), indexes, {name}) && fuel <= old(fuel)
      ensures name in indexes ==> name in old(indexes) && indexes[name].definition == old(indexes)[name].definition
      ensures ok ==> name !in indexes
      ensures old(fuel) >= 2 ==> ok && fuel >= old(fuel) - 2
    {
      if name !in indexes { return true; }
      if fuel == 0 { return false; }
      fuel, indexes := fuel - 1, indexes[name := indexes[name].(valid := false)];
      if fuel == 0 { return false; }
      fuel, indexes := fuel - 1, indexes - {name};
      return true;
    }

    method Rename(name: Name, target: Name) returns (ok: bool)
      requires name in indexes && target !in indexes
      modifies this
      ensures !ok ==> indexes == old(indexes)
      ensures ok ==> SameExcept(old(indexes), indexes, {name, target}) && name !in indexes
      ensures ok ==> target in indexes && indexes[target] == old(indexes)[name]
      ensures old(fuel) >= 1 ==> ok && fuel == old(fuel) - 1
    {
      if fuel == 0 { return false; }
      fuel, indexes := fuel - 1, (indexes - {name})[target := indexes[name]];
      return true;
    }

    /** Keeps a finished build, and repairs one that was interrupted. */
    method EnsureIndex(name: Name, definition: Definition) returns (ok: bool)
      requires name in indexes ==> indexes[name].definition == definition
      modifies this
      ensures SameExcept(old(indexes), indexes, {name})
      ensures name in indexes ==> indexes[name].definition == definition
      ensures name in old(indexes) && old(indexes)[name].valid ==> indexes == old(indexes)
      ensures ok ==> name in indexes && indexes[name].valid
      ensures old(fuel) >= 4 ==> ok && fuel >= old(fuel) - 4
    {
      if name in indexes && indexes[name].valid { return true; }
      if name in indexes {
        ok := DropConcurrently(name);
        if !ok { return; }
      }
      ok := CreateConcurrently(name, definition);
    }

    /** Whatever stops it, and wherever, pending articles stay served; a completed run leaves one index. */
    method ReplaceAutomationIndex(approved: bool) returns (ok: bool)
      requires Sound(indexes)
      modifies this
      ensures Sound(indexes) && SameExcept(old(indexes), indexes, {Due, DueNext, DuePrevious})
      ensures approved && Served(old(indexes), Approved) ==> Served(indexes, Approved)
      ensures ok ==> Swapped(indexes, approved)
      ensures old(fuel) >= 9 ==> ok && fuel >= old(fuel) - 9
    {
      ok := Build(approved);
      if !ok { return; }
      ok := SwapIn(approved);
    }

    /** The new index takes the place of the old one, and what is left of a swap in the other direction goes. */
    method SwapIn(approved: bool) returns (ok: bool)
      requires Sound(indexes) && Temporary(approved) in indexes && indexes[Temporary(approved)].valid
      modifies this
      ensures Sound(indexes) && SameExcept(old(indexes), indexes, {Due, DueNext, DuePrevious})
      ensures approved ==> Served(indexes, Approved)
      ensures ok ==> Swapped(indexes, approved)
      ensures old(fuel) >= 5 ==> ok && fuel >= old(fuel) - 5
    {
      var temporary := Temporary(approved);
      ok := DropConcurrently(Due);
      ServedBy(indexes, temporary, Pending);
      if approved { ServedBy(indexes, temporary, Approved); }
      if !ok { return; }
      ok := Rename(temporary, Due);
      if !ok { return; }
      ok := DropConcurrently(Temporary(!approved));
      ServedBy(indexes, Due, Pending);
      if approved { ServedBy(indexes, Due, Approved); }
    }

    /** The new index is built beside the old ones, none of which it touches. */
    method Build(approved: bool) returns (ok: bool)
      requires Sound(indexes)
      modifies this
      ensures Sound(indexes) && SameExcept(old(indexes), indexes, {Temporary(approved)})
      ensures forall review :: Served(old(indexes), review) ==> Served(indexes, review)
      ensures ok ==> Temporary(approved) in indexes && indexes[Temporary(approved)].valid
      ensures old(fuel) >= 4 ==> ok && fuel >= old(fuel) - 4
    {
      ghost var before := indexes;
      ok := EnsureIndex(Temporary(approved), Wanted(approved));
      forall review | Served(before, review) ensures Served(indexes, review) {
        var server :| Automation(server) && server in before && before[server].valid
          && Holds(before[server].definition, review, Unpublished);
        if server != Temporary(approved) {
          StillServed(before, indexes, {Temporary(approved)}, server, review);
        }
      }
    }

    method Upgrade() returns (ok: bool)
      requires Sound(indexes)
      modifies this
      ensures Sound(indexes) && SameExcept(old(indexes), indexes, {Due, DueNext, DuePrevious, ImageHistory})
      ensures Served(old(indexes), Approved) ==> Served(indexes, Approved)
      ensures ok ==> Swapped(indexes, true) && ImageHistory in indexes && indexes[ImageHistory].valid
      ensures old(fuel) >= 13 ==> ok
    {
      ghost var before := indexes;
      ok := EnsureIndex(ImageHistory, JobHistory);
      HistoryServesNone(before, indexes);
      if !ok { return; }
      ok := ReplaceAutomationIndex(true);
    }

    method Downgrade() returns (ok: bool)
      requires Sound(indexes)
      modifies this
      ensures Sound(indexes) && SameExcept(old(indexes), indexes, {Due, DueNext, DuePrevious, ImageHistory})
      ensures ok ==> Swapped(indexes, false) && ImageHistory !in indexes
      ensures old(fuel) >= 11 ==> ok
    {
      ok := ReplaceAutomationIndex(false);
      if !ok { return; }
      ghost var before := indexes;
      ok := DropConcurrently(ImageHistory);
      HistoryServesNone(before, indexes);
    }

    /** Any number of interrupted attempts, in any direction; only the last one has to run through. */
    method Attempts(attempts: seq<Attempt>) returns (ok: bool)
      requires Sound(indexes) && attempts != []
      modifies this
      ensures Sound(indexes)
      ensures ok ==> Swapped(indexes, attempts[|attempts| - 1].up)
      ensures attempts[|attempts| - 1].fuel >= 13 ==> ok
      ensures Served(old(indexes), Approved) && (forall a | a in attempts :: a.up) ==> Served(indexes, Approved)
    {
      ok := false;
      for i := 0 to |attempts|
        invariant Sound(indexes)
        invariant i > 0 && ok ==> Swapped(indexes, attempts[i - 1].up)
        invariant i > 0 && attempts[i - 1].fuel >= 13 ==> ok
        invariant Served(old(indexes), Approved) && (forall a | a in attempts :: a.up) ==> Served(indexes, Approved)
      {
        fuel := attempts[i].fuel;
        if attempts[i].up { ok := Upgrade(); } else { ok := Downgrade(); }
      }
    }
  }

  lemma HistoryServesNone(before: Catalog, after: Catalog)
    requires SameExcept(before, after, {ImageHistory})
    ensures forall review :: Served(before, review) ==> Served(after, review)
  {
    forall review | Served(before, review) ensures Served(after, review) {
      var server :| Automation(server) && server in before && before[server].valid
        && Holds(before[server].definition, review, Unpublished);
      StillServed(before, after, {ImageHistory}, server, review);
    }
  }
}

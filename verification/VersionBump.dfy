/** set_version of scripts/version.py:180-245: one edit of all manifests, then the tools, or everything back. */
module VersionBump {
  import opened Decimals
  import opened Options
  import ReleaseNumbers
  import VersionLiteral

  type Content = string

  /** The files of the workspace by what a bump does to them. */
  datatype Path = Manifest(n: nat) | Lock | Schema(app: nat) | Client(name: string) | Route(name: string)
    | Other(name: string)

  type Files = map<Path, Content>

  /** A manifest before and after the edit. */
  datatype Edit = Edit(original: Content, updated: Content)

  /** A route file with the generator's marker, a generated client file or a schema. */
  predicate IsGenerated(marked: Content -> bool, path: Path, content: Content) {
    path.Schema? || path.Client? || (path.Route? && marked(content))
  }

  /** The generated files as they are before anything is run. */
  function Generated(marked: Content -> bool, files: Files): Files {
    map path | path in files && IsGenerated(marked, path, files[path]) :: files[path]
  }

  function At(files: Files, path: Path): Option<Content> {
    if path in files then Some(files[path]) else None
  }

  /* ---------- what the steps of a bump may touch ---------- */

  /** uv lock and uv sync: the lock file. */
  ghost predicate LocksOnly(before: Files, after: Files) {
    forall path: Path | path != Lock :: At(after, path) == At(before, path)
  }

  /**
   What generators may do to a file: rewrite schemas, do anything to client files and to routes that carry the marker.
   */
  predicate MayGenerate(marked: Content -> bool, path: Path, was: Option<Content>, now: Option<Content>) {
    match path
    case Schema(_) => was.Some? <==> now.Some?
    case Client(_) => true
    case Route(_) => now == was || ((was.Some? ==> marked(was.value)) && (now.Some? ==> marked(now.value)))
    case _ => now == was
  }

  ghost predicate GeneratesOnly(marked: Content -> bool, before: Files, after: Files) {
    forall path: Path :: MayGenerate(marked, path, At(before, path), At(after, path))
  }

  predicate Edits(path: Path, count: nat) {
    path.Manifest? && path.n < count
  }

  ghost predicate OnlyManifests(count: nat, before: Files, after: Files) {
    forall path: Path | !Edits(path, count) :: At(after, path) == At(before, path)
  }

  /** What the steps of a bump may have done to a file that it does not edit. */
  predicate MayBecome(marked: Content -> bool, generating: bool, path: Path, was: Option<Content>,
                      now: Option<Content>)
  {
    path.Lock? || (if generating then MayGenerate(marked, path, was, now) else now == was)
  }

  ghost predicate Disturbed(marked: Content -> bool, count: nat, generating: bool, before: Files, after: Files) {
    && Lock in before
    && forall path: Path | !Edits(path, count) :: MayBecome(marked, generating, path, At(before, path), At(after, path))
  }

  lemma EditingDisturbs(marked: Content -> bool, count: nat, generating: bool, before: Files, now: Files, after: Files)
    requires Disturbed(marked, count, generating, before, now) && OnlyManifests(count, now, after)
    ensures Disturbed(marked, count, generating, before, after)
  {
  }

  lemma NothingDisturbed(marked: Content -> bool, count: nat, before: Files)
    requires Lock in before
    ensures Disturbed(marked, count, false, before, before)
  {
  }

  lemma SameFiles(a: Files, b: Files)
    requires forall path: Path :: At(a, path) == At(b, path)
    ensures a == b
  {
    forall path: Path ensures path in a <==> path in b {
      assert At(a, path) == At(b, path);
    }
    forall path: Path | path in a ensures a[path] == b[path] {
      assert At(a, path) == At(b, path);
    }
  }

  lemma LockingDisturbs(marked: Content -> bool, count: nat, before: Files, now: Files, after: Files)
    requires Disturbed(marked, count, false, before, now) && LocksOnly(now, after)
    ensures Disturbed(marked, count, false, before, after)
  {
  }

  lemma GeneratingDisturbs(marked: Content -> bool, count: nat, generating: bool, before: Files, now: Files,
                           after: Files)
    requires Disturbed(marked, count, generating, before, now) && GeneratesOnly(marked, now, after)
    ensures Disturbed(marked, count, true, before, after)
  {
  }

  /* ---------- one manifest over time ---------- */

  /**
   What goes wrong, and what others do meanwhile: outside(t) are the manifests they write just before step t. Steps 0
   to n - 1 write the manifests, then come the lock tool, the generators and the check; after a failing step f the
   rollback of manifest k is step f + 1 + k.
   */
  datatype Script = Script(
    steps: nat,                       // how many steps succeed
    torn: Option<Content>,            // what a manifest holds whose write failed half way
    lockTool: Files -> Files,
    generators: seq<Files -> Files>,
    outside: nat -> map<nat, Content>)

  ghost predicate Honest(marked: Content -> bool, script: Script) {
    && (forall files :: LocksOnly(files, script.lockTool(files)))
    && forall g, files | g in script.generators :: GeneratesOnly(marked, files, g(files))
  }

  /** A manifest goes back only if it still holds what the bump wrote. */
  function RestoredManifest(edit: Edit, now: Content): Content {
    if now == edit.updated then edit.original else now
  }

  function Edited(outside: map<nat, Content>, i: nat, now: Content): Content {
    if i in outside then outside[i] else now
  }

  /** What step t makes of manifest i, when step f is the one that fails. */
  function Acted(edit: Edit, i: nat, script: Script, f: nat, t: nat, now: Content): Content {
    if t < f then if t == i then edit.updated else now
    else if t == f then if t == i && script.torn.Some? then script.torn.value else now
    else if t == f + 1 + i then RestoredManifest(edit, now)
    else now
  }

  /** Manifest i before step t and what others write before it. */
  function Held(edit: Edit, i: nat, script: Script, f: nat, t: nat): Content {
    if t == 0 then edit.original
    else Acted(edit, i, script, f, t - 1, Edited(script.outside(t - 1), i, Held(edit, i, script, f, t - 1)))
  }

  /** Nobody else writes manifest i in the steps from a on and before b. */
  ghost predicate Untouched(script: Script, i: nat, a: nat, b: nat) {
    forall t | a <= t < b :: i !in script.outside(t)
  }

  /** Between a's and b's step nothing happens to the manifest. */
  lemma {:induction false} HeldStays(edit: Edit, i: nat, script: Script, f: nat, a: nat, b: nat)
    requires a <= b && Untouched(script, i, a, b)
    requires !(a <= i < b) && !(a <= f + 1 + i < b)
    ensures Held(edit, i, script, f, b) == Held(edit, i, script, f, a)
    decreases b
  {
    if a < b {
      HeldStays(edit, i, script, f, a, b - 1);
    }
  }

  /** From some text on, left alone by others, to the end of the rollback. */
  lemma HeldAtTheEnd(edit: Edit, i: nat, script: Script, f: nat, a: nat, end: nat)
    requires i < a <= f + 1 + i < end && Untouched(script, i, a, end)
    ensures Held(edit, i, script, f, end) == RestoredManifest(edit, Held(edit, i, script, f, a))
  {
    HeldStays(edit, i, script, f, a, f + 1 + i);
    HeldStays(edit, i, script, f, f + 2 + i, end);
  }

  /** A manifest nobody else writes, and whose own write is not torn, is restored. */
  lemma UntouchedIsRestored(edit: Edit, i: nat, script: Script, f: nat, end: nat)
    requires f + 1 + i < end && Untouched(script, i, 0, end) && !(f == i && script.torn.Some?)
    ensures Held(edit, i, script, f, end) == edit.original
  {
    HeldStays(edit, i, script, f, 0, i);
    HeldAtTheEnd(edit, i, script, f, i + 1, end);
  }

  /** A torn write that left something other than the new text stays torn. */
  lemma TornWriteStays(edit: Edit, i: nat, script: Script, end: nat)
    requires script.torn.Some? && 2 * i + 1 < end && Untouched(script, i, i + 1, end)
    ensures Held(edit, i, script, i, end) == RestoredManifest(edit, script.torn.value)
    ensures Held(edit, i, script, i, end) == edit.original <==>
              script.torn.value == edit.original || script.torn.value == edit.updated
  {
    HeldAtTheEnd(edit, i, script, i, i + 1, end);
  }

  /** Such as a manifest of which only the beginning was written. */
  lemma HalfWriteStays(edit: Edit, i: nat, script: Script, k: nat, end: nat)
    requires 2 * i + 1 < end && Untouched(script, i, i + 1, end)
    requires k < |edit.updated| && script.torn == Some(edit.updated[..k]) && edit.updated[..k] != edit.original
    ensures Held(edit, i, script, i, end) == edit.updated[..k]
  {
    TornWriteStays(edit, i, script, end);
  }

  /** The last outside edit of manifest i is x, before step t. */
  ghost predicate LastEdit(script: Script, i: nat, t: nat, x: Content, end: nat) {
    t < end && i in script.outside(t) && script.outside(t)[i] == x && Untouched(script, i, t + 1, end)
  }

  /** Whether a write of the bump, whole or torn, hits manifest i after the edit that precedes step t. */
  predicate Overwritten(i: nat, script: Script, f: nat, t: nat) {
    t <= i && (i < f || (i == f && script.torn.Some?))
  }

  /**
   What becomes of the last outside edit of a manifest when the bump fails: an edit before the bump's own write is
   lost, one that comes after the rollback stays, and any other is taken for the bump's text or kept.
   */
  lemma LastEditDecides(edit: Edit, i: nat, script: Script, f: nat, t: nat, x: Content, end: nat)
    requires f + 1 + i < end && LastEdit(script, i, t, x, end)
    ensures Held(edit, i, script, f, end) ==
            if t > f + 1 + i then x
            else RestoredManifest(edit, if !Overwritten(i, script, f, t) then x
                                        else if i < f then edit.updated else script.torn.value)
  {
    var after := Acted(edit, i, script, f, t, x);
    assert Held(edit, i, script, f, t + 1) == after;
    if t > f + 1 + i {
      HeldStays(edit, i, script, f, t + 1, end);
    } else if t == f + 1 + i {
      HeldStays(edit, i, script, f, t + 1, end);
    } else {
      if t < i {
        HeldStays(edit, i, script, f, t + 1, i);
      }
      if t <= i {
        assert Held(edit, i, script, f, i + 1)
               == if !Overwritten(i, script, f, t) then x else if i < f then edit.updated else script.torn.value;
        HeldAtTheEnd(edit, i, script, f, i + 1, end);
      } else {
        HeldAtTheEnd(edit, i, script, f, t + 1, end);
      }
    }
  }

  /**
   The exact condition for an independent edit to survive a failed bump: it comes after the bump's own write of that
   manifest, or there is no such write, and it does not read like that write, unless the rollback is past it.
   */
  lemma OutsideEditSurvivesIff(edit: Edit, i: nat, script: Script, f: nat, t: nat, x: Content, end: nat)
    requires f + 1 + i < end && LastEdit(script, i, t, x, end)
    requires x != edit.original && !(f == i && script.torn.Some?)
    ensures Held(edit, i, script, f, end) == x <==> t > f + 1 + i || (x != edit.updated && (t > i || i >= f))
  {
    LastEditDecides(edit, i, script, f, t, x, end);
  }

  /**
   An edit between the reading of a manifest and its write is overwritten, and the rollback does not bring it back.
   */
  lemma EarlyEditIsLost(edit: Edit, script: Script, x: Content, end: nat)
    requires LastEdit(script, 0, 0, x, end) && x != edit.original && end >= 3
    ensures Held(edit, 0, script, 1, end) == edit.original != x
  {
    LastEditDecides(edit, 0, script, 1, 0, x, end);
  }

  /* ---------- the rollback of everything else ---------- */

  /** The except branch for the lock file and the generated tree, path by path. */
  function RolledBack(marked: Content -> bool, lock: Content, generated: Files, generating: bool, files: Files,
                      path: Path): Option<Content>
  {
    match path
    case Manifest(_) => At(files, path)
    case Lock => Some(lock)
    case Other(_) => At(files, path)
    case _ =>
      if !generating then At(files, path)
      else if path in generated then Some(generated[path])
      else if path.Client? || (path.Route? && path in files && marked(files[path])) then None
      else At(files, path)
  }

  /** Whatever the tools did, the rollback returns the lock file and the whole generated tree. */
  lemma RollbackRestores(marked: Content -> bool, count: nat, generating: bool, before: Files, files: Files, path: Path)
    requires Disturbed(marked, count, generating, before, files) && !Edits(path, count)
    ensures RolledBack(marked, before[Lock], Generated(marked, before), generating, files, path) == At(before, path)
  {
    match path
    case Route(_) => assert At(files, path) == At(before, path) || path !in before || marked(before[path]);
    case _ =>
  }

  /* ---------- the workspace ---------- */

  class Workspace {
    const marked: Content -> bool
    var files: Files

    constructor (marked: Content -> bool, files: Files)
      ensures this.marked == marked && this.files == files
    {
      this.marked, this.files := marked, files;
    }

    ghost predicate Ready(edits: seq<Edit>)
      reads this
    {
      Lock in files && forall i | 0 <= i < |edits| :: At(files, Manifest(i)) == Some(edits[i].original)
    }

    /** Every manifest is what it has come to be before step t. */
    ghost predicate HeldBefore(edits: seq<Edit>, script: Script, f: nat, t: nat)
      reads this
    {
      forall i | 0 <= i < |edits| :: At(files, Manifest(i)) == Some(Held(edits[i], i, script, f, t))
    }

    ghost predicate EditedBefore(edits: seq<Edit>, script: Script, f: nat, t: nat)
      reads this
    {
      forall i | 0 <= i < |edits| ::
        At(files, Manifest(i)) == Some(Edited(script.outside(t), i, Held(edits[i], i, script, f, t)))
    }

    /** Others edit manifests; what they write is theirs. */
    method EditOutside(edits: seq<Edit>, script: Script, ghost f: nat, t: nat)
      requires HeldBefore(edits, script, f, t) && forall n | n in script.outside(t) :: n < |edits|
      modifies this
      ensures EditedBefore(edits, script, f, t) && OnlyManifests(|edits|, old(files), files)
    {
      var outside := script.outside(t);
      files := files + map n | n in outside :: Manifest(n) := outside[n];
      forall path: Path
        ensures At(files, path) == if path.Manifest? && path.n in outside then Some(outside[path.n])
                                   else At(old(files), path)
      {
      }
    }

    /** The first loop; a write that fails may leave anything in its file. */
    method WriteManifests(edits: seq<Edit>, script: Script, f: nat) returns (ok: bool)
      requires Ready(edits) && Outsiders(edits, script)
      modifies this
      ensures ok <==> f >= |edits|
      ensures HeldBefore(edits, script, f, if ok then |edits| else f + 1) && OnlyManifests(|edits|, old(files), files)
    {
      for i := 0 to |edits|
        invariant i <= f && HeldBefore(edits, script, f, i) && OnlyManifests(|edits|, old(files), files)
      {
        EditOutside(edits, script, f, i);
        if i == f {
          if script.torn.Some? {
            files := files[Manifest(i) := script.torn.value];
          }
          return false;
        }
        files := files[Manifest(i) := edits[i].updated];
      }
      ok := true;
    }

    method RestoreManifest(i: nat, edits: seq<Edit>, script: Script, f: nat)
      requires i < |edits| && Outsiders(edits, script) && HeldBefore(edits, script, f, f + 1 + i)
      modifies this
      ensures HeldBefore(edits, script, f, f + 2 + i) && OnlyManifests(|edits|, old(files), files)
    {
      EditOutside(edits, script, f, f + 1 + i);
      var path := Manifest(i);
      assert At(files, path).Some?;
      if files[path] == edits[i].updated {
        files := files[path := edits[i].original];
      }
    }

    /** The first loop of the except branch. */
    method RestoreManifests(edits: seq<Edit>, script: Script, f: nat)
      requires HeldBefore(edits, script, f, f + 1) && Outsiders(edits, script)
      modifies this
      ensures HeldBefore(edits, script, f, f + 1 + |edits|) && OnlyManifests(|edits|, old(files), files)
    {
      for i := 0 to |edits|
        invariant HeldBefore(edits, script, f, f + 1 + i) && OnlyManifests(|edits|, old(files), files)
      {
        RestoreManifest(i, edits, script, f);
      }
    }

    /** Removes what generation added, then writes back what there was. */
    method RestoreGenerated(generated: Files)
      modifies this
      ensures forall path: Path :: At(files, path) ==
                if path in generated then Some(generated[path])
                else if path.Client? || (path.Route? && path in old(files) && marked(old(files)[path])) then None
                else At(old(files), path)
    {
      files := map path | path in files
          && (path in generated || !(path.Client? || (path.Route? && marked(files[path])))) :: files[path];
      files := files + generated;
    }

    method RestoreRest(lock: Content, generated: Files, generating: bool)
      requires forall path: Path | path in generated :: path.Schema? || path.Client? || path.Route?
      modifies this
      ensures forall path: Path :: At(files, path) == RolledBack(marked, lock, generated, generating, old(files), path)
    {
      files := files[Lock := lock];
      if generating {
        RestoreGenerated(generated);
      }
    }

    /** A tool that leaves the manifests alone, with what others write before it. */
    method RunTool(tool: Files -> Files, edits: seq<Edit>, script: Script, f: nat, t: nat)
      requires HeldBefore(edits, script, f, t) && Outsiders(edits, script) && |edits| <= t <= f
      requires forall now :: LocksOnly(now, tool(now)) || GeneratesOnly(marked, now, tool(now))
      modifies this
      ensures HeldBefore(edits, script, f, t + 1)
      ensures exists now :: OnlyManifests(|edits|, old(files), now) && files == tool(now)
    {
      EditOutside(edits, script, f, t);
      ghost var now := files;
      files := tool(files);
      forall i | 0 <= i < |edits| ensures At(files, Manifest(i)) == At(now, Manifest(i)) {
        assert LocksOnly(now, files) || GeneratesOnly(marked, now, files);
      }
    }

    method RunLockTool(edits: seq<Edit>, script: Script, f: nat, ghost before: Files)
      requires Honest(marked, script) && Outsiders(edits, script) && Disturbed(marked, |edits|, false, before, files)
      requires |edits| <= f && HeldBefore(edits, script, f, |edits|)
      modifies this
      ensures Disturbed(marked, |edits|, false, before, files) && HeldBefore(edits, script, f, |edits| + 1)
    {
      ghost var was := files;
      RunTool(script.lockTool, edits, script, f, |edits|);
      ghost var now :| OnlyManifests(|edits|, was, now) && files == script.lockTool(now);
      EditingDisturbs(marked, |edits|, false, before, was, now);
      LockingDisturbs(marked, |edits|, before, now, files);
    }

    method RunGenerator(g: Files -> Files, edits: seq<Edit>, script: Script, f: nat, t: nat, ghost before: Files)
      requires Honest(marked, script) && g in script.generators && Outsiders(edits, script)
      requires Disturbed(marked, |edits|, true, before, files) && |edits| <= t <= f && HeldBefore(edits, script, f, t)
      modifies this
      ensures Disturbed(marked, |edits|, true, before, files) && HeldBefore(edits, script, f, t + 1)
    {
      ghost var was := files;
      RunTool(g, edits, script, f, t);
      ghost var now :| OnlyManifests(|edits|, was, now) && files == g(now);
      EditingDisturbs(marked, |edits|, true, before, was, now);
      assert GeneratesOnly(marked, now, files);
      GeneratingDisturbs(marked, |edits|, true, before, now, files);
    }

    method RunGenerators(edits: seq<Edit>, script: Script, f: nat, ghost before: Files) returns (ok: bool)
      requires Honest(marked, script) && Outsiders(edits, script) && Disturbed(marked, |edits|, true, before, files)
      requires |edits| < f <= |edits| + |script.generators| + 1 && HeldBefore(edits, script, f, |edits| + 1)
      modifies this
      ensures Disturbed(marked, |edits|, true, before, files)
      ensures ok <==> f == |edits| + |script.generators| + 1
      ensures HeldBefore(edits, script, f, if ok then f else f + 1)
    {
      var n := |edits| + 1;
      for i := 0 to |script.generators|
        invariant n + i <= f && Disturbed(marked, |edits|, true, before, files) && HeldBefore(edits, script, f, n + i)
      {
        RunGenerator(script.generators[i], edits, script, f, n + i, before);
        if n + i == f { return false; }
      }
      ok := true;
    }

    /** The tools; each may fail after it has done its work, or part of it. */
    method RunTools(edits: seq<Edit>, script: Script, f: nat, ghost before: Files) returns (ok: bool, generating: bool)
      requires Honest(marked, script) && Outsiders(edits, script) && Disturbed(marked, |edits|, false, before, files)
      requires |edits| <= f <= |edits| + |script.generators| + 1 && HeldBefore(edits, script, f, |edits|)
      modifies this
      ensures Disturbed(marked, |edits|, generating, before, files)
      ensures ok <==> f == |edits| + |script.generators| + 1
      ensures HeldBefore(edits, script, f, if ok then f else f + 1)
    {
      RunLockTool(edits, script, f, before);
      if f == |edits| { return false, false; }
      generating := true;
      GeneratingDisturbs(marked, |edits|, false, before, files, files);
      ok := RunGenerators(edits, script, f, before);
    }

    /** The except branch. */
    method Rollback(edits: seq<Edit>, script: Script, f: nat, lock: Content, generated: Files, generating: bool,
                    ghost before: Files)
      requires Outsiders(edits, script) && HeldBefore(edits, script, f, f + 1)
      requires Disturbed(marked, |edits|, generating, before, files) && lock == before[Lock]
      requires generated == Generated(marked, before)
      modifies this
      ensures HeldBefore(edits, script, f, f + 1 + |edits|) && OnlyManifests(|edits|, before, files)
    {
      ghost var was := files;
      RestoreManifests(edits, script, f);
      EditingDisturbs(marked, |edits|, generating, before, was, files);
      ghost var failed := files;
      RestoreRest(lock, generated, generating);
      forall path: Path | !Edits(path, |edits|) ensures At(files, path) == At(before, path) {
        RollbackRestores(marked, |edits|, generating, before, failed, path);
      }
    }

    /** After a failed bump, which independent edits are still there. */
    ghost predicate EditsSurviveIff(edits: seq<Edit>, script: Script, f: nat, end: nat)
      reads this
    {
      forall i: nat, t: nat, x | i < |edits| && LastEdit(script, i, t, x, end) && x != edits[i].original
          && !(f == i && script.torn.Some?) ::
        At(files, Manifest(i)) == Some(x) <==> t > f + 1 + i || (x != edits[i].updated && (t > i || i >= f))
    }

    lemma SurvivalIsDecided(edits: seq<Edit>, script: Script, f: nat, end: nat)
      requires end == f + 1 + |edits| && HeldBefore(edits, script, f, end)
      ensures EditsSurviveIff(edits, script, f, end)
    {
      forall i: nat, t: nat, x | i < |edits| && LastEdit(script, i, t, x, end) && x != edits[i].original
          && !(f == i && script.torn.Some?)
        ensures At(files, Manifest(i)) == Some(x) <==> t > f + 1 + i || (x != edits[i].updated && (t > i || i >= f))
      {
        OutsideEditSurvivesIff(edits[i], i, script, f, t, x, end);
      }
    }

    /** set_version, with the check of the result as an input; f is the step that fails, or the check. */
    method SetVersion(edits: seq<Edit>, script: Script, consistent: bool) returns (ok: bool, f: nat)
      requires Ready(edits) && Honest(marked, script) && Outsiders(edits, script)
      modifies this
      ensures ok <==> script.steps > |edits| + |script.generators| && consistent
      ensures f == if script.steps <= |edits| + |script.generators| then script.steps
                   else |edits| + |script.generators| + 1
      ensures ok ==> HeldBefore(edits, script, f, f)
      ensures ok ==>
                forall i: nat | i < |edits| && Untouched(script, i, 0, f) ::
                  At(files, Manifest(i)) == Some(edits[i].updated)
      ensures !ok ==>
                HeldBefore(edits, script, f, f + 1 + |edits|) && EditsSurviveIff(edits, script, f, f + 1 + |edits|)
      ensures !ok ==> forall path: Path | !Edits(path, |edits|) :: At(files, path) == At(old(files), path)
      ensures !ok && script.torn == None && (forall t :: script.outside(t) == map[]) ==> files == old(files)
    {
      ghost var before := files;
      var lock, generated, generating := files[Lock], Generated(marked, files), false;
      f := if script.steps <= |edits| + |script.generators| then script.steps else |edits| + |script.generators| + 1;
      ok := WriteManifests(edits, script, f);
      NothingDisturbed(marked, |edits|, before);
      EditingDisturbs(marked, |edits|, false, before, before, files);
      if ok {
        ok, generating := RunTools(edits, script, f, before);
        if ok && consistent {
          forall i: nat | i < |edits| && Untouched(script, i, 0, f)
            ensures At(files, Manifest(i)) == Some(edits[i].updated)
          {
            UntouchedIsUpdated(edits[i], i, script, f);
          }
          return;
        }
        if ok {
          ghost var was := files;
          EditOutside(edits, script, f, f);
          EditingDisturbs(marked, |edits|, generating, before, was, files);
        }
        ok := false;
      }
      Rollback(edits, script, f, lock, generated, generating, before);
      SurvivalIsDecided(edits, script, f, f + 1 + |edits|);
      if script.torn == None && forall t :: script.outside(t) == map[] {
        EverythingIsBack(before, files, edits, script, f, f + 1 + |edits|);
      }
    }
  }

  lemma EverythingIsBack(before: Files, files: Files, edits: seq<Edit>, script: Script, f: nat, end: nat)
    requires OnlyManifests(|edits|, before, files) && end == f + 1 + |edits|
    requires forall i | 0 <= i < |edits| ::
               At(before, Manifest(i)) == Some(edits[i].original)
                 && At(files, Manifest(i)) == Some(Held(edits[i], i, script, f, end))
    requires script.torn == None && forall t :: script.outside(t) == map[]
    ensures files == before
  {
    forall path: Path ensures At(files, path) == At(before, path) {
      if Edits(path, |edits|) {
        UntouchedIsRestored(edits[path.n], path.n, script, f, end);
      }
    }
    SameFiles(files, before);
  }

  ghost predicate Outsiders(edits: seq<Edit>, script: Script) {
    forall t, n | n in script.outside(t) :: n < |edits|
  }

  /** A finished bump leaves the new text in every manifest that nobody else wrote. */
  lemma UntouchedIsUpdated(edit: Edit, i: nat, script: Script, f: nat)
    requires i < f && Untouched(script, i, 0, f)
    ensures Held(edit, i, script, f, f) == edit.updated
  {
    HeldStays(edit, i, script, f, 0, i);
    HeldStays(edit, i, script, f, i + 1, f);
  }

  /* ---------- what a bump writes ---------- */

  /** A release number holds neither a quote nor a newline. */
  lemma ReleasesAreClean(target: string)
    requires ReleaseNumbers.Parse(target).Some?
    ensures VersionLiteral.Clean(target)
  {
    ReleaseNumbers.ValidTextIsCanonical(target);
    var v := ReleaseNumbers.Parse(target).value;
    assert target == Decimal(v.major) + "." + Decimal(v.minor) + "." + Decimal(v.patch);
    forall k | 0 <= k < |target| ensures VersionLiteral.Inner(target[k]) {
      assert target[k] == '.' || '0' <= target[k] <= '9';
    }
  }

  /** A bumped manifest declares the target, and setting the old version again gives the old manifest back. */
  lemma BumpedManifestDeclaresTarget(content: string, target: string) returns (next: string)
    requires VersionLiteral.ProjectVersion(content).Some? && ReleaseNumbers.Parse(target).Some?
    ensures VersionLiteral.Replaced(content, target) == Some(next)
    ensures var before, after := VersionLiteral.ProjectVersion(content).value, VersionLiteral.ProjectVersion(next);
            && before.start <= before.end <= |content|
            && after.Some? && after.value.start <= after.value.end <= |next|
            && next[after.value.start..after.value.end] == target
            && VersionLiteral.Spliced(next, after.value, content[before.start..before.end]) == content
  {
    ReleasesAreClean(target);
    var span;
    span, next := VersionLiteral.ReplacedReadsBack(content, target);
  }
}

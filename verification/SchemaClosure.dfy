/**
 The worklist that keeps only the schemas a set of paths can reach
 (scripts/export_reader_catalog_openapi.py:88-103), on any graph of schemas, cyclic ones included.
 */
module SchemaClosure {
  import opened Options

  /** A JSON value; an object lists its keys and, at the same positions, its values. */
  datatype Json = Scalar(text: Option<string>) | List(children: seq<Json>)
    | Object(keys: seq<string>, children: seq<Json>)

  const PREFIX := "#/components/schemas/"

  function Children(v: Json): (children: seq<Json>)
    ensures forall i | 0 <= i < |children| :: children[i] < v
  {
    if v.Scalar? then [] else v.children
  }

  /* ---------- the reference of one value ---------- */

  datatype Own = Nothing | Refers(name: string) | Broken

  /** rsplit("/", 1)[1]. */
  function LastSegment(s: string): string {
    if s == "" || s[|s| - 1] == '/' then "" else LastSegment(s[..|s| - 1]) + [s[|s| - 1]]
  }

  function Find(keys: seq<string>, children: seq<Json>, key: string): Option<Json> {
    if keys == [] || children == [] then None
    else if keys[0] == key then Some(children[0])
    else Find(keys[1..], children[1..], key)
  }

  /** value.get("$ref", ""): only a text can be asked how it starts. */
  function OwnRef(v: Json): Own {
    if !v.Object? then Nothing
    else match Find(v.keys, v.children, "$ref")
      case None => Nothing
      case Some(Scalar(Some(text))) => if PREFIX <= text then Refers(LastSegment(text)) else Nothing
      case Some(_) => Broken
  }

  /* ---------- what a value mentions, at any depth ---------- */

  ghost predicate Mentions(v: Json, name: string) {
    OwnRef(v) == Refers(name) || exists i :: 0 <= i < |Children(v)| && Mentions(Children(v)[i], name)
  }

  ghost predicate HasBroken(v: Json) {
    OwnRef(v) == Broken || exists i :: 0 <= i < |Children(v)| && HasBroken(Children(v)[i])
  }

  ghost predicate AnyMentions(values: seq<Json>, name: string) {
    exists i :: 0 <= i < |values| && Mentions(values[i], name)
  }

  ghost predicate AnyBroken(values: seq<Json>) {
    exists i :: 0 <= i < |values| && HasBroken(values[i])
  }

  type Schemas = map<string, Json>

  /** A chain of references from the paths to a schema. */
  ghost predicate Chain(paths: Json, schemas: Schemas, chain: seq<string>) {
    if |chain| < 2 then chain != [] && Mentions(paths, chain[0])
    else
      var last := |chain| - 1;
      && Chain(paths, schemas, chain[..last])
      && chain[last - 1] in schemas && Mentions(schemas[chain[last - 1]], chain[last])
  }

  ghost predicate Reachable(paths: Json, schemas: Schemas, name: string) {
    exists chain :: Chain(paths, schemas, chain) && chain[|chain| - 1] == name
  }

  lemma DirectIsReachable(paths: Json, schemas: Schemas, name: string)
    requires Mentions(paths, name)
    ensures Reachable(paths, schemas, name)
  {
    assert Chain(paths, schemas, [name]);
  }

  lemma NextIsReachable(paths: Json, schemas: Schemas, from: string, name: string)
    requires Reachable(paths, schemas, from) && from in schemas && Mentions(schemas[from], name)
    ensures Reachable(paths, schemas, name)
  {
    var chain :| Chain(paths, schemas, chain) && chain[|chain| - 1] == from;
    var longer := chain + [name];
    assert longer[..|chain|] == chain;
    assert Chain(paths, schemas, longer);
  }

  /** A set that holds what the paths mention and what its own schemas mention holds all that is reachable. */
  lemma {:induction false} ClosedHoldsReachable(paths: Json, schemas: Schemas, used: set<string>, chain: seq<string>)
    requires Chain(paths, schemas, chain) && forall n | Mentions(paths, n) :: n in used
    requires forall u, n | u in used && u in schemas && Mentions(schemas[u], n) :: n in used
    ensures chain[|chain| - 1] in used
    decreases |chain|
  {
    if |chain| > 1 {
      ClosedHoldsReachable(paths, schemas, used, chain[..|chain| - 1]);
    }
  }

  /* ---------- termination ---------- */

  function Size(v: Json): (n: nat)
    ensures n >= 1
    decreases v, 0
  {
    1 + if v.Scalar? then 0 else SizeUpTo(v, |v.children|)
  }

  function SizeUpTo(v: Json, n: nat): nat
    requires !v.Scalar? && n <= |v.children|
    decreases v, 0, n
  {
    if n == 0 then 0 else SizeUpTo(v, n - 1) + Size(v.children[n - 1])
  }

  function SizeOf(values: seq<Json>): nat {
    if values == [] then 0 else SizeOf(values[..|values| - 1]) + Size(values[|values| - 1])
  }

  lemma {:induction false} SizeOfChildren(v: Json, n: nat)
    requires !v.Scalar? && n <= |v.children|
    ensures SizeUpTo(v, n) == SizeOf(v.children[..n])
  {
    if n > 0 {
      SizeOfChildren(v, n - 1);
      assert v.children[..n][..n - 1] == v.children[..n - 1];
    }
  }

  lemma {:induction false} SizeOfBoth(a: seq<Json>, b: seq<Json>)
    ensures SizeOf(a + b) == SizeOf(a) + SizeOf(b)
  {
    if b == [] {
      assert a + b == a;
    } else {
      SizeOfBoth(a, b[..|b| - 1]);
      assert (a + b)[..|a + b| - 1] == a + b[..|b| - 1];
    }
  }

  lemma ChildrenAreSmaller(v: Json)
    ensures SizeOf(Children(v)) == Size(v) - 1
  {
    if !v.Scalar? {
      SizeOfChildren(v, |v.children|);
      assert v.children[..|v.children|] == v.children;
    }
  }

  /* ---------- the worklist ---------- */

  datatype Result = Used(names: set<string>) | MissingSchema(name: string) | BrokenReference

  /** Everything that was taken from the stack is accounted for by the names found or by what is still on it. */
  ghost predicate Covered(v: Json, used: set<string>, pending: seq<Json>) {
    (forall n | Mentions(v, n) :: n in used || AnyMentions(pending, n)) && (HasBroken(v) ==> AnyBroken(pending))
  }

  ghost predicate AllCovered(paths: Json, schemas: Schemas, used: set<string>, pending: seq<Json>) {
    && Covered(paths, used, pending)
    && forall u | u in used :: u in schemas && Covered(schemas[u], used, pending)
  }

  /** Nothing is on the stack that the paths do not reach. */
  ghost predicate Sound(paths: Json, schemas: Schemas, used: set<string>, pending: seq<Json>) {
    && (forall u | u in used :: Reachable(paths, schemas, u))
    && (forall n | AnyMentions(pending, n) :: Reachable(paths, schemas, n))
    && (AnyBroken(pending) ==> BrokenIsReachable(paths, schemas))
  }

  ghost predicate BrokenIsReachable(paths: Json, schemas: Schemas) {
    HasBroken(paths) || exists n :: Reachable(paths, schemas, n) && n in schemas && HasBroken(schemas[n])
  }

  /** What one value mentions is what it refers to itself and what its children mention. */
  lemma PoppedIsCovered(v: Json, rest: seq<Json>, added: seq<Json>, name: string)
    requires AnyMentions(rest + [v], name)
    ensures OwnRef(v) == Refers(name) || AnyMentions(rest + added + Children(v), name)
  {
    var i :| 0 <= i < |rest + [v]| && Mentions((rest + [v])[i], name);
    var next := rest + added + Children(v);
    if i < |rest| {
      assert next[i] == rest[i];
    } else if OwnRef(v) != Refers(name) {
      var j :| 0 <= j < |Children(v)| && Mentions(Children(v)[j], name);
      assert next[|rest| + |added| + j] == Children(v)[j];
    }
  }

  lemma PoppedBroken(v: Json, rest: seq<Json>, added: seq<Json>)
    requires AnyBroken(rest + [v]) && OwnRef(v) != Broken
    ensures AnyBroken(rest + added + Children(v))
  {
    var i :| 0 <= i < |rest + [v]| && HasBroken((rest + [v])[i]);
    var next := rest + added + Children(v);
    if i < |rest| {
      assert next[i] == rest[i];
    } else {
      var j :| 0 <= j < |Children(v)| && HasBroken(Children(v)[j]);
      assert next[|rest| + |added| + j] == Children(v)[j];
    }
  }

  /** And the other way round: whatever is mentioned afterwards was mentioned before, or by what was added. */
  lemma PushedWasThere(v: Json, rest: seq<Json>, added: seq<Json>, name: string)
    requires AnyMentions(rest + added + Children(v), name)
    ensures AnyMentions(rest + [v], name) || AnyMentions(added, name)
  {
    var next, before := rest + added + Children(v), rest + [v];
    var i :| 0 <= i < |next| && Mentions(next[i], name);
    if i < |rest| {
      assert before[i] == rest[i];
    } else if i < |rest| + |added| {
      assert next[i] == added[i - |rest|];
    } else {
      assert Mentions(v, name) && before[|rest|] == v;
    }
  }

  lemma PushedBrokenWasThere(v: Json, rest: seq<Json>, added: seq<Json>)
    requires AnyBroken(rest + added + Children(v))
    ensures AnyBroken(rest + [v]) || AnyBroken(added)
  {
    var next, before := rest + added + Children(v), rest + [v];
    var i :| 0 <= i < |next| && HasBroken(next[i]);
    if i < |rest| {
      assert before[i] == rest[i];
    } else if i < |rest| + |added| {
      assert next[i] == added[i - |rest|];
    } else {
      assert HasBroken(v) && before[|rest|] == v;
    }
  }

  lemma StaysCovered(w: Json, used: set<string>, used': set<string>, v: Json, rest: seq<Json>, added: seq<Json>)
    requires Covered(w, used, rest + [v]) && used <= used' && OwnRef(v) != Broken
    requires OwnRef(v).Refers? ==> OwnRef(v).name in used'
    ensures Covered(w, used', rest + added + Children(v))
  {
    forall n | Mentions(w, n) && n !in used' ensures AnyMentions(rest + added + Children(v), n) {
      PoppedIsCovered(v, rest, added, n);
    }
    if HasBroken(w) {
      PoppedBroken(v, rest, added);
    }
  }

  lemma SchemaIsCovered(schema: Json, used: set<string>, v: Json, rest: seq<Json>)
    ensures Covered(schema, used, rest + [schema] + Children(v))
  {
    assert (rest + [schema] + Children(v))[|rest|] == schema;
  }

  lemma OwnIsReachable(paths: Json, schemas: Schemas, used: set<string>, v: Json, rest: seq<Json>)
    requires Sound(paths, schemas, used, rest + [v]) && OwnRef(v).Refers?
    ensures Reachable(paths, schemas, OwnRef(v).name)
  {
    assert Mentions((rest + [v])[|rest|], OwnRef(v).name);
  }

  lemma StaysSound(paths: Json, schemas: Schemas, used: set<string>, used': set<string>, v: Json, rest: seq<Json>,
                   added: seq<Json>)
    requires Sound(paths, schemas, used, rest + [v]) && forall u | u in used' :: Reachable(paths, schemas, u)
    requires added == [] || exists u :: u in schemas && Reachable(paths, schemas, u) && added == [schemas[u]]
    ensures Sound(paths, schemas, used', rest + added + Children(v))
  {
    forall n | AnyMentions(rest + added + Children(v), n) ensures Reachable(paths, schemas, n) {
      PushedWasThere(v, rest, added, n);
      if AnyMentions(added, n) {
        var u :| u in schemas && Reachable(paths, schemas, u) && added == [schemas[u]];
        NextIsReachable(paths, schemas, u, n);
      }
    }
    if AnyBroken(rest + added + Children(v)) {
      PushedBrokenWasThere(v, rest, added);
    }
  }

  lemma StartIsSound(paths: Json, schemas: Schemas)
    ensures Sound(paths, schemas, {}, [paths]) && AllCovered(paths, schemas, {}, [paths])
  {
    assert [paths][0] == paths;
    forall n | AnyMentions([paths], n) ensures Reachable(paths, schemas, n) {
      DirectIsReachable(paths, schemas, n);
    }
  }

  /** Once the stack is empty the names found are the reachable ones. */
  lemma EmptyStackIsExact(paths: Json, schemas: Schemas, used: set<string>)
    requires AllCovered(paths, schemas, used, []) && Sound(paths, schemas, used, [])
    ensures forall n :: n in used <==> Reachable(paths, schemas, n)
    ensures !BrokenIsReachable(paths, schemas) && forall n | Reachable(paths, schemas, n) :: n in schemas
  {
    forall n | Reachable(paths, schemas, n) ensures n in used {
      var chain :| Chain(paths, schemas, chain) && chain[|chain| - 1] == n;
      ClosedHoldsReachable(paths, schemas, used, chain);
    }
  }

  lemma StepKeepsCovered(paths: Json, schemas: Schemas, used: set<string>, v: Json, rest: seq<Json>,
                         name: Option<string>)
    requires AllCovered(paths, schemas, used, rest + [v]) && OwnRef(v) != Broken
    requires OwnRef(v) == (if name.Some? then Refers(name.value) else Nothing)
             || (name.None? && OwnRef(v).Refers? && OwnRef(v).name in used)
    requires name.Some? ==> name.value in schemas
    ensures var used' := if name.Some? then used + {name.value} else used;
            AllCovered(paths, schemas, used', rest + (if name.Some? then [schemas[name.value]] else []) + Children(v))
  {
    var used' := if name.Some? then used + {name.value} else used;
    var added := if name.Some? then [schemas[name.value]] else [];
    StaysCovered(paths, used, used', v, rest, added);
    forall u | u in used' ensures u in schemas && Covered(schemas[u], used', rest + added + Children(v)) {
      if u in used {
        StaysCovered(schemas[u], used, used', v, rest, added);
      } else {
        SchemaIsCovered(schemas[u], used', v, rest);
      }
    }
  }

  /** What holds whenever the loop looks at its stack. */
  ghost predicate Inv(paths: Json, schemas: Schemas, used: set<string>, pending: seq<Json>) {
    Sound(paths, schemas, used, pending) && AllCovered(paths, schemas, used, pending)
  }

  lemma BrokenStops(paths: Json, schemas: Schemas, used: set<string>, value: Json, rest: seq<Json>)
    requires Inv(paths, schemas, used, rest + [value]) && OwnRef(value) == Broken
    ensures BrokenIsReachable(paths, schemas)
  {
    assert HasBroken((rest + [value])[|rest|]);
  }

  lemma NewNameKeepsInv(paths: Json, schemas: Schemas, used: set<string>, value: Json, rest: seq<Json>, name: string)
    requires Inv(paths, schemas, used, rest + [value]) && OwnRef(value) == Refers(name) && name in schemas
    ensures Inv(paths, schemas, used + {name}, rest + [schemas[name]] + Children(value))
  {
    OwnIsReachable(paths, schemas, used, value, rest);
    StepKeepsCovered(paths, schemas, used, value, rest, Some(name));
    StaysSound(paths, schemas, used, used + {name}, value, rest, [schemas[name]]);
  }

  lemma NoNewNameKeepsInv(paths: Json, schemas: Schemas, used: set<string>, value: Json, rest: seq<Json>)
    requires Inv(paths, schemas, used, rest + [value]) && OwnRef(value) != Broken
    requires OwnRef(value).Refers? ==> OwnRef(value).name in used
    ensures Inv(paths, schemas, used, rest + Children(value))
  {
    NothingBetween(rest, Children(value));
    CoveredWithoutName(paths, schemas, used, value, rest, rest + [] + Children(value));
    StaysSound(paths, schemas, used, used, value, rest, []);
  }

  lemma NothingBetween(xs: seq<Json>, ys: seq<Json>)
    ensures xs + [] + ys == xs + ys
  {
  }

  lemma CoveredWithoutName(paths: Json, schemas: Schemas, used: set<string>, value: Json, rest: seq<Json>,
                           next: seq<Json>)
    requires AllCovered(paths, schemas, used, rest + [value]) && OwnRef(value) != Broken
    requires (OwnRef(value).Refers? ==> OwnRef(value).name in used) && next == rest + [] + Children(value)
    ensures AllCovered(paths, schemas, used, next)
  {
    StepKeepsCovered(paths, schemas, used, value, rest, None);
  }

  lemma StackShrinks(value: Json, rest: seq<Json>)
    ensures SizeOf(rest + Children(value)) < SizeOf(rest + [value])
  {
    ChildrenAreSmaller(value);
    SizeOfBoth(rest, Children(value));
    assert (rest + [value])[..|rest|] == rest;
  }

  /** One turn: a value is taken from the stack, and what it refers to and holds is put there. */
  method Turn(paths: Json, schemas: Schemas, used: set<string>, stack: seq<Json>)
    returns (stop: Option<Result>, found: set<string>, pending: seq<Json>)
    requires stack != [] && Inv(paths, schemas, used, stack)
    ensures stop.None? ==> Inv(paths, schemas, found, pending)
    ensures stop.None? ==> (found == used && SizeOf(pending) < SizeOf(stack))
                           || (used < found && schemas.Keys - found < schemas.Keys - used)
    ensures stop.Some? ==> !stop.value.Used? && IsError(paths, schemas, stop.value)
  {
    var value, rest := stack[|stack| - 1], stack[..|stack| - 1];
    assert stack == rest + [value];
    found, pending := used, rest + Children(value);
    match OwnRef(value) {
      case Broken =>
        BrokenStops(paths, schemas, used, value, rest);
        return Some(BrokenReference), found, pending;
      case Refers(name) =>
        if name !in used {
          if name !in schemas {
            OwnIsReachable(paths, schemas, used, value, rest);
            return Some(MissingSchema(name)), found, pending;
          }
          NewNameKeepsInv(paths, schemas, used, value, rest, name);
          found, pending := used + {name}, rest + [schemas[name]] + Children(value);
          assert name in schemas.Keys - used && name !in schemas.Keys - found;
          return None, found, pending;
        }
      case Nothing =>
    }
    NoNewNameKeepsInv(paths, schemas, used, value, rest);
    StackShrinks(value, rest);
    stop := None;
  }

  /** An error names what is wrong with the reachable part of the graph. */
  ghost predicate IsError(paths: Json, schemas: Schemas, r: Result) {
    match r
    case Used(_) => false
    case MissingSchema(name) => Reachable(paths, schemas, name) && name !in schemas
    case BrokenReference => BrokenIsReachable(paths, schemas)
  }

  ghost predicate IsSound(paths: Json, schemas: Schemas) {
    !BrokenIsReachable(paths, schemas) && forall n | Reachable(paths, schemas, n) :: n in schemas
  }

  lemma ErrorsAreUnsound(paths: Json, schemas: Schemas, r: Result)
    requires IsError(paths, schemas, r)
    ensures !IsSound(paths, schemas)
  {
  }

  method Loop(paths: Json, schemas: Schemas) returns (r: Result)
    requires Inv(paths, schemas, {}, [paths])
    ensures if r.Used? then Inv(paths, schemas, r.names, []) else IsError(paths, schemas, r)
  {
    var used: set<string>, pending := {}, [paths];
    while pending != []
      invariant Inv(paths, schemas, used, pending)
      decreases schemas.Keys - used, SizeOf(pending)
    {
      var stop, found, next := Turn(paths, schemas, used, pending);
      if stop.Some? { return stop.value; }
      used, pending := found, next;
    }
    r := Used(used);
  }

  /** It ends on every graph, with exactly the reachable names unless one is missing or a reference is broken. */
  method Close(paths: Json, schemas: Schemas) returns (r: Result)
    ensures r.Used? ==> forall n :: n in r.names <==> Reachable(paths, schemas, n)
    ensures r.Used? || IsError(paths, schemas, r)
    ensures r.Used? <==> IsSound(paths, schemas)
  {
    StartIsSound(paths, schemas);
    r := Loop(paths, schemas);
    if r.Used? {
      EmptyStackIsExact(paths, schemas, r.names);
    } else {
      ErrorsAreUnsound(paths, schemas, r);
    }
  }
}

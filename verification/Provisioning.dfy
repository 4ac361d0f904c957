/**
 Credential provisioning (infra/chimely/provision.py) and the consumers that accept what it wrote
 (infra/chimely/consumer.py). A run can stop before any request or file replacement: `fuel` says after
 how many of them, so what a method ensures for every fuel holds whenever the process dies.
 */
module Provisioning {
  import opened Options

  datatype Audience = Admin | User

  datatype Role = WorkerRole | InboxRole(audience: Audience)

  /** The names that occur in the credential files and in the environment. */
  datatype Field = Url | Slug(audience: Audience) | ApiKey(audience: Audience) | Secret(audience: Audience)
    | Unknown(name: string)

  type Values = map<Field, string>

  /** The settings both programs read; `values` holds the variables named by a Field. */
  datatype Env = Env(enabled: bool, external: bool, administrator: bool, tlsTerminated: bool, values: Values)

  const ORIGIN := "http://chimely:8080"

  function Get(values: Values, field: Field): string {
    if field in values then values[field] else ""
  }

  function SlugOf(env: Env, audience: Audience): string {
    match audience
    case Admin => if Get(env.values, Slug(Admin)) != "" then Get(env.values, Slug(Admin)) else "devfeed-admin"
    case User => Get(env.values, Slug(User))
  }

  predicate WellFormedSlug(slug: string) {
    |slug| <= 100
      && forall c | c in slug :: 'A' <= c <= 'Z' || 'a' <= c <= 'z' || '0' <= c <= '9' || c == '_' || c == '-'
  }

  /** The checks made before the first request. */
  predicate Acceptable(env: Env) {
    && env.administrator && !env.tlsTerminated
    && WellFormedSlug(SlugOf(env, Admin)) && WellFormedSlug(SlugOf(env, User))
    && SlugOf(env, Admin) != SlugOf(env, User)
  }

  /* ---------- the consumers ---------- */

  function Scope(role: Role): set<Field> {
    {Url, Slug(Admin), Slug(User)} + match role
    case WorkerRole => {ApiKey(Admin), ApiKey(User)}
    case InboxRole(audience) => {Secret(audience)}
  }

  /** An audience that is configured needs its key (worker) or its secret (its own inbox). */
  predicate Complete(role: Role, env: Env, values: Values) {
    match role
    case WorkerRole =>
      forall audience :: SlugOf(env, audience) != "" ==> Get(values, ApiKey(audience)) != ""
    case InboxRole(audience) =>
      SlugOf(env, audience) != "" ==> Get(values, Secret(audience)) != ""
  }

  /** consumer.credentials: None when the file is missing, malformed or not for this role and configuration. */
  function Credentials(role: Role, env: Env, file: Option<Values>): Option<Values> {
    if !env.enabled || env.external then Some(map[])
    else if file.None? then None
    else
      var values := file.value;
      if !(values.Keys <= Scope(role)) then None
      else if Get(values, Url) != ORIGIN || Slug(Admin) !in values || Slug(User) !in values then None
      else if values[Slug(Admin)] != SlugOf(env, Admin) || values[Slug(User)] != SlugOf(env, User) then None
      else if !Complete(role, env, values) then None
      else Some(values)
  }

  /** consumer_environment: only the user role survives unusable credentials, with notifications off. */
  function ConsumerEnvironment(role: Role, env: Env, file: Option<Values>): Option<Env> {
    match Credentials(role, env, file)
    case Some(values) => Some(env.(values := env.values + values))
    case None => if role == InboxRole(User) then Some(env.(enabled := false)) else None
  }

  /** A consumer that runs with notifications on runs with its own complete file, and with nothing else from it. */
  lemma StartedConsumersAreConfigured(role: Role, env: Env, file: Option<Values>)
    requires !env.external && ConsumerEnvironment(role, env, file).Some?
    ensures var started := ConsumerEnvironment(role, env, file).value;
            if started.enabled then
              && file.Some? && file.value.Keys <= Scope(role) && Complete(role, started, file.value)
              && (forall audience :: Slug(audience) in file.value
                    && SlugOf(started, audience) == SlugOf(env, audience) == file.value[Slug(audience)])
            else
              started.values == env.values
                && (env.enabled ==> role == InboxRole(User) && Credentials(role, env, file).None?)
  {
    var started := ConsumerEnvironment(role, env, file).value;
    if started.enabled {
      var values := file.value;
      forall audience ensures SlugOf(started, audience) == SlugOf(env, audience) == values[Slug(audience)] {
        match audience
        case Admin => assert started.values[Slug(Admin)] == values[Slug(Admin)];
        case User => assert started.values[Slug(User)] == values[Slug(User)];
      }
    } else if !env.enabled {
      assert env.values + map[] == env.values;
    }
  }

  /* ---------- the inbox server ---------- */

  /** `keys` are the unrevoked keys, `prefixes` what the key listing shows of them. */
  datatype Environment = Environment(requireHash: bool, secret: string, keys: set<string>, prefixes: set<string>)

  type Server = map<string, Environment>

  /** A request with this key authenticates; the empty key is never tried. */
  predicate ValidKey(server: Server, slug: string, key: string) {
    slug in server && key != "" && key in server[slug].keys
  }

  predicate Listed(prefixes: set<string>, key: string) {
    exists prefix :: prefix in prefixes && prefix <= key
  }

  lemma ListingGrows(keys: set<string>, prefixes: set<string>, key: string)
    requires forall k | k in keys :: Listed(prefixes, k)
    ensures forall k | k in keys + {key} :: Listed(prefixes + {key}, k)
  {
    forall k | k in keys + {key} ensures Listed(prefixes + {key}, k) {
      var prefix :| prefix in prefixes + {key} && prefix <= k;
    }
  }

  /** Nothing that was valid stops being so. */
  ghost predicate KeepsKeys(before: Server, after: Server) {
    forall slug, key :: ValidKey(before, slug, key) ==> ValidKey(after, slug, key)
  }

  /** Neither the environment nor an earlier run offers a valid key for a configured audience. */
  ghost predicate Lacks(env: Env, previous: Values, server: Server, audience: Audience) {
    && SlugOf(env, audience) != ""
    && !ValidKey(server, SlugOf(env, audience), Get(env.values, ApiKey(audience)))
    && !ValidKey(server, SlugOf(env, audience), Get(previous, ApiKey(audience)))
  }

  ghost function Lacking(env: Env, previous: Values, server: Server): nat {
    (if Lacks(env, previous, server, Admin) then 1 else 0) + (if Lacks(env, previous, server, User) then 1 else 0)
  }

  function Configured(env: Env): nat {
    if SlugOf(env, User) != "" then 2 else 1
  }

  /** `next` is `found` with a valid key for this audience. */
  ghost predicate GainsKey(server: Server, env: Env, audience: Audience, found: Values, next: Values) {
    && ApiKey(audience) in next && next == found[ApiKey(audience) := next[ApiKey(audience)]]
    && ValidKey(server, SlugOf(env, audience), next[ApiKey(audience)])
  }

  /* ---------- provisioning ---------- */

  datatype Outcome = Disabled | External | Ready | Refused | Interrupted

  function Common(env: Env): Values {
    map[Url := ORIGIN, Slug(Admin) := SlugOf(env, Admin), Slug(User) := SlugOf(env, User)]
  }

  const AUDIENCES := [Admin, User]

  class Deployment {
    const mint: nat -> string
    const secretFor: string -> string
    var server: Server
    var minted: nat
    var state: Option<Values>
    var worker: Option<Values>
    var admin: Option<Values>
    var user: Option<Values>
    var fuel: nat

    /** What the server promises: no empty key or secret, and every key is in the listing. */
    ghost predicate Valid()
      reads this
    {
      && (forall n :: mint(n) != "") && (forall slug :: secretFor(slug) != "")
      && forall slug | slug in server ::
           server[slug].secret != "" && forall key | key in server[slug].keys :: Listed(server[slug].prefixes, key)
    }

    /** read_values(state) or read_values(worker); a missing or malformed file reads as no values. */
    function Previous(): Values
      reads this
    {
      if state.GetOr(map[]) != map[] then state.value else worker.GetOr(map[])
    }

    ghost function Missing(env: Env): nat
      reads this
    {
      Lacking(env, Previous(), server)
    }

    method Spend() returns (alive: bool)
      modifies `fuel
      ensures alive == (old(fuel) > 0) && fuel <= old(fuel)
    {
      alive := fuel > 0;
      fuel := if alive then fuel - 1 else 0;
    }

    /** valid_key: a key whose prefix is listed is tried in one request. */
    method Check(slug: string, key: string) returns (alive: bool, valid: bool)
      requires Valid() && slug in server
      modifies `fuel
      ensures alive ==> (valid <==> ValidKey(server, slug, key))
    {
      alive, valid := true, false;
      if key == "" || !Listed(server[slug].prefixes, key) { return; }
      alive := Spend();
      valid := key in server[slug].keys;
    }

    /** The first valid candidate, if there is one. */
    method Reuse(slug: string, candidates: seq<string>) returns (alive: bool, key: string)
      requires Valid() && slug in server
      modifies `fuel
      ensures alive && key != "" ==> ValidKey(server, slug, key) && key in candidates
      ensures alive && key == "" ==> forall i | 0 <= i < |candidates| :: !ValidKey(server, slug, candidates[i])
    {
      alive, key := true, "";
      for i := 0 to |candidates|
        invariant alive && forall j | 0 <= j < i :: !ValidKey(server, slug, candidates[j])
      {
        var valid;
        alive, valid := Check(slug, candidates[i]);
        if !alive { return; }
        if valid { return alive, candidates[i]; }
      }
    }

    /** The existing environment, or a new one that requires subscriber hashes. */
    method Open(slug: string) returns (alive: bool)
      requires Valid()
      modifies `server, `fuel
      ensures Valid() && KeepsKeys(old(server), server)
      ensures alive ==> slug in server
      ensures forall other | other in old(server) :: other in server && server[other] == old(server)[other]
    {
      alive := Spend();
      if !alive { return; }
      if slug !in server {
        server := server[slug := Environment(true, secretFor(slug), {}, {})];
      }
      alive := Spend();
    }

    /** A new key: the server has issued it even when the answer never arrives. */
    method Issue(slug: string) returns (alive: bool, key: string)
      requires Valid() && slug in server
      modifies `server, `minted, `fuel
      ensures Valid() && KeepsKeys(old(server), server) && server.Keys == old(server).Keys
      ensures old(minted) <= minted <= old(minted) + 1
      ensures alive ==> minted == old(minted) + 1 && ValidKey(server, slug, key)
    {
      key := "";
      alive := Spend();
      if !alive { return; }
      key := mint(minted);
      minted := minted + 1;
      var before := server[slug];
      server := server[slug := before.(keys := before.keys + {key}, prefixes := before.prefixes + {key})];
      ListingGrows(before.keys, before.prefixes, key);
      alive := Spend();
    }

    /** One pass of the loop over the audiences: a key for it, kept on disk before anything else happens. */
    method ProvisionAudience(env: Env, audience: Audience, previous: Values, found: Values)
      returns (outcome: Outcome, next: Values, secret: string)
      requires Valid() && SlugOf(env, audience) != ""
      modifies `server, `minted, `state, `fuel
      ensures Valid() && KeepsKeys(old(server), server)
      ensures outcome == Ready || outcome == Refused || outcome == Interrupted
      ensures outcome == Ready ==> secret != "" && state == Some(previous + next)
      ensures outcome == Ready || state != old(state) ==> GainsKey(server, env, audience, found, next)
      ensures state == old(state) || state == Some(previous + next)
      ensures old(minted) <= minted <= old(minted) + 1
      ensures minted > old(minted) ==> Lacks(env, previous, old(server), audience)
      ensures minted > old(minted) && state == old(state) ==> outcome == Interrupted || outcome == Ready
    {
      var slug := SlugOf(env, audience);
      next, secret := found, "";
      var alive := Open(slug);
      if !alive { return Interrupted, next, secret; }
      if !server[slug].requireHash { return Refused, next, secret; }
      alive := Spend();
      if !alive { return Interrupted, next, secret; }
      var field := ApiKey(audience);
      var key;
      var candidates := [Get(env.values, field), Get(previous, field)];
      alive, key := Reuse(slug, candidates);
      if !alive { return Interrupted, next, secret; }
      if key == "" {
        assert !ValidKey(server, slug, candidates[0]) && !ValidKey(server, slug, candidates[1]);
        alive, key := Issue(slug);
        if !alive { return Interrupted, next, secret; }
      }
      alive := Spend();
      if !alive { return Interrupted, next, secret; }
      next := found[field := key];
      state := Some(previous + next);
      secret := server[slug].secret;
      alive := Spend();
      if !alive { return Interrupted, next, secret; }
      outcome := Ready;
    }

    /** Every consumer takes its file as it is. */
    ghost predicate AllAccepted(env: Env)
      reads this
    {
      && Accepted(WorkerRole, env, worker) && Accepted(InboxRole(Admin), env, admin)
      && Accepted(InboxRole(User), env, user)
    }

    /** For every audience the next run would find the same stored key as in these values. */
    ghost predicate Offers(values: Values)
      reads this
    {
      forall audience :: Get(Previous(), ApiKey(audience)) == Get(values, ApiKey(audience))
    }

    /** One configured audience, with its effect on how many keys are missing. */
    method GatherOne(env: Env, audience: Audience, previous: Values, found: Values)
      returns (outcome: Outcome, next: Values, secret: string)
      requires Valid() && Offers(previous + found) && SlugOf(env, audience) != "" && ApiKey(audience) !in found
      modifies `server, `minted, `state, `fuel
      ensures Valid() && KeepsKeys(old(server), server)
      ensures outcome == Ready || outcome == Refused || outcome == Interrupted
      ensures old(minted) <= minted
      ensures Accounted(env, minted - old(minted), outcome == Interrupted,
                        old(Previous()), Previous(), old(server), server)
      ensures outcome == Ready ==> secret != "" && GainsKey(server, env, audience, found, next)
      ensures outcome == Ready ==>
                state == Some(previous + next) && state.GetOr(map[]) != map[] && Offers(previous + next)
      ensures outcome == Ready ==> !Lacks(env, Previous(), server, audience)
    {
      ghost var current, before := Previous(), server;
      outcome, next, secret := ProvisionAudience(env, audience, previous, found);
      if outcome == Ready || state != old(state) {
        OthersAreKept(audience, previous, found, next);
        OneAudienceLess(env, audience, current, Previous(), before, server);
      } else {
        assert Previous() == current;
      }
      AccountFor(env, audience, minted - old(minted), outcome == Interrupted, current, Previous(), before, server);
    }

    /** What the loop over the audiences has once it has passed the first n of them. */
    ghost predicate Gathered(env: Env, n: nat, previous: Values, found: Values, secrets: map<Audience, string>)
      requires n <= 2
      reads this
    {
      && Collected(env, found, secrets, n) && Offers(previous + found)
      && (n > 0 ==> !Lacks(env, Previous(), server, Admin) && state.GetOr(map[]) != map[])
      && (n > 1 ==> !Lacks(env, Previous(), server, User))
    }

    /** The turn of one audience. */
    method Gather(env: Env, n: nat, previous: Values, found: Values, secrets: map<Audience, string>)
      returns (outcome: Outcome, next: Values, more: map<Audience, string>)
      requires Valid() && Acceptable(env) && n < 2 && Gathered(env, n, previous, found, secrets)
      modifies `server, `minted, `state, `fuel
      ensures Valid() && KeepsKeys(old(server), server)
      ensures outcome == Ready || outcome == Refused || outcome == Interrupted
      ensures old(minted) <= minted
      ensures Accounted(env, minted - old(minted), outcome == Interrupted,
                        old(Previous()), Previous(), old(server), server)
      ensures outcome == Ready ==> Gathered(env, n + 1, previous, next, more)
    {
      outcome, next, more := Ready, found, secrets;
      if SlugOf(env, AUDIENCES[n]) != "" {
        var secret;
        outcome, next, secret := GatherOne(env, AUDIENCES[n], previous, found);
        if outcome != Ready { return; }
        CollectedGrows(env, n, server, found, next, secrets, secret);
        more := secrets[AUDIENCES[n] := secret];
      }
    }

    /** The loop over the audiences. */
    method CollectKeys(env: Env) returns (outcome: Outcome, found: Values, secrets: map<Audience, string>)
      requires Valid() && Acceptable(env)
      modifies `server, `minted, `state, `fuel
      ensures Valid() && KeepsKeys(old(server), server)
      ensures outcome == Ready || outcome == Refused || outcome == Interrupted
      ensures old(minted) <= minted
      ensures Accounted(env, minted - old(minted), outcome == Interrupted,
                        old(Previous()), Previous(), old(server), server)
      ensures outcome == Ready ==> Missing(env) == 0 && state.GetOr(map[]) != map[] && Collected(env, found, secrets, 2)
    {
      var previous := Previous();
      found, secrets, outcome := Common(env), map[], Ready;
      for n := 0 to 2
        invariant outcome == Ready && Valid() && KeepsKeys(old(server), server) && old(minted) <= minted
        invariant Accounted(env, minted - old(minted), false, old(Previous()), Previous(), old(server), server)
        invariant Gathered(env, n, previous, found, secrets)
      {
        outcome, found, secrets := Gather(env, n, previous, found, secrets);
        if outcome != Ready { return; }
      }
    }

    method SaveWorker(values: Values) returns (alive: bool)
      modifies `worker, `fuel
      ensures worker == old(worker) || worker == Some(values)
      ensures alive ==> worker == Some(values)
    {
      if worker == Some(values) { return true; }
      alive := Spend();
      if alive { worker := Some(values); }
    }

    method SaveAdmin(values: Values) returns (alive: bool)
      modifies `admin, `fuel
      ensures admin == old(admin) || admin == Some(values)
      ensures alive ==> admin == Some(values)
    {
      if admin == Some(values) { return true; }
      alive := Spend();
      if alive { admin := Some(values); }
    }

    method SaveUser(values: Values) returns (alive: bool)
      modifies `user, `fuel
      ensures user == old(user) || user == Some(values)
      ensures alive ==> user == Some(values)
    {
      if user == Some(values) { return true; }
      alive := Spend();
      if alive { user := Some(values); }
    }

    method SaveFiles(env: Env, found: Values, secrets: map<Audience, string>) returns (alive: bool)
      requires env.enabled && !env.external && Collected(env, found, secrets, 2) && state.GetOr(map[]) != map[]
      modifies `worker, `admin, `user, `fuel
      ensures worker == old(worker) || Accepted(WorkerRole, env, worker)
      ensures admin == old(admin) || Accepted(InboxRole(Admin), env, admin)
      ensures user == old(user) || Accepted(InboxRole(User), env, user)
      ensures alive ==> AllAccepted(env)
    {
      WorkerFileIsAccepted(env, found, secrets);
      InboxFileIsAccepted(env, Admin, found, secrets);
      InboxFileIsAccepted(env, User, found, secrets);
      alive := SaveWorker(found);
      if alive {
        alive := SaveAdmin(InboxValues(env, Admin, secrets));
      }
      if alive {
        alive := SaveUser(InboxValues(env, User, secrets));
      }
    }

    /** The part of provision() that follows its configuration checks. */
    method ProvisionAcceptable(env: Env) returns (outcome: Outcome)
      requires Valid() && env.enabled && !env.external && Acceptable(env)
      modifies this
      ensures Valid() && KeepsKeys(old(server), server)
      ensures old(minted) <= minted
      ensures Accounted(env, minted - old(minted), outcome == Interrupted,
                        old(Previous()), Previous(), old(server), server)
      ensures outcome == Ready ==> Missing(env) == 0 && AllAccepted(env)
      ensures worker == old(worker) || Accepted(WorkerRole, env, worker)
      ensures admin == old(admin) || Accepted(InboxRole(Admin), env, admin)
      ensures user == old(user) || Accepted(InboxRole(User), env, user)
    {
      var alive := Spend();
      if !alive { return Interrupted; }
      var found, secrets;
      outcome, found, secrets := CollectKeys(env);
      if outcome != Ready { return; }
      assert Previous() == state.value;
      alive := SaveFiles(env, found, secrets);
      if !alive { return Interrupted; }
    }

    method Provision(env: Env) returns (outcome: Outcome)
      requires Valid()
      modifies this
      ensures Valid() && KeepsKeys(old(server), server)
      ensures !env.enabled || env.external || !Acceptable(env) ==>
                outcome != Ready && minted == old(minted) && Missing(env) == old(Missing(env)) && worker == old(worker)
      ensures old(minted) <= minted
      ensures Accounted(env, minted - old(minted), outcome == Interrupted,
                        old(Previous()), Previous(), old(server), server)
      ensures outcome == Ready ==> Missing(env) == 0 && AllAccepted(env)
      ensures worker == old(worker) || Accepted(WorkerRole, env, worker)
      ensures admin == old(admin) || Accepted(InboxRole(Admin), env, admin)
      ensures user == old(user) || Accepted(InboxRole(User), env, user)
    {
      if !env.enabled { return Disabled; }
      if env.external { return External; }
      if !Acceptable(env) { return Refused; }
      outcome := ProvisionAcceptable(env);
    }

    /** An administrator revokes a key; the listing no longer shows it. */
    method Revoke(slug: string, key: string)
      requires Valid()
      modifies `server
      ensures Valid()
      ensures forall env :: Missing(env) <= old(Missing(env)) + Using(env, slug)
    {
      if slug !in server { return; }
      var before := server[slug];
      var keys := before.keys - {key};
      var prefixes := set prefix | prefix in before.prefixes && exists k :: k in keys && prefix <= k;
      forall k | k in keys ensures Listed(prefixes, k) {
        var prefix :| prefix in before.prefixes && prefix <= k;
        assert prefix in prefixes;
      }
      server := server[slug := before.(keys := keys, prefixes := prefixes)];
      forall env: Env ensures Missing(env) <= old(Missing(env)) + Using(env, slug) {
        RevokingAffectsUsers(env, Previous(), old(server), server, slug);
      }
    }

    method Happen(env: Env, event: Event) returns (next: Env, entry: Entry)
      requires Valid()
      modifies this
      ensures Valid() && next == Then(env, event) && entry.minted == minted && old(minted) <= minted
      ensures minted + Missing(next) <= old(minted) + old(Missing(env)) + Fault(env, entry, event)
      ensures event.Start? ==> Missing(next) <= old(Missing(env)) && minted <= old(minted) + old(Missing(env))
      ensures entry.outcome == Ready ==> event.Start? && Missing(next) == 0 && AllAccepted(env)
      ensures worker == old(worker) || Accepted(WorkerRole, env, worker)
      ensures admin == old(admin) || Accepted(InboxRole(Admin), env, admin)
      ensures user == old(user) || Accepted(InboxRole(User), env, user)
    {
      next := Then(env, event);
      match event
      case Reconfiguration(_) =>
        ReconfiguringAffectsChanged(env, next, Previous(), server);
        entry := Entry(Disabled, minted);
      case Revocation(slug, key) =>
        Revoke(slug, key);
        entry := Entry(Disabled, minted);
      case Start(steps) =>
        fuel := steps;
        var outcome := Provision(env);
        entry := Entry(outcome, minted);
    }

    ghost predicate FilesSinceReady(start: Env, log: seq<Entry>, events: seq<Event>)
      requires |log| == |events|
      reads this
    {
      && WrittenSinceReady(WorkerRole, start, log, events, worker)
      && WrittenSinceReady(InboxRole(Admin), start, log, events, admin)
      && WrittenSinceReady(InboxRole(User), start, log, events, user)
    }

    /** Where a schedule is after these events, when all its keys are to be within the budget. */
    ghost predicate OnSchedule(start: Env, log: seq<Entry>, done: seq<Event>, env: Env, budget: nat)
      reads this
    {
      && Valid() && |log| == |done| && env == EnvAfter(start, done)
      && minted + Missing(env) <= budget + Faults(start, log, done)
      && Frozen(log, done, minted, Missing(env)) && FilesSinceReady(start, log, done)
    }

    /** One more event: `all` is `done` followed by it. */
    method Go(ghost start: Env, log: seq<Entry>, ghost done: seq<Event>, env: Env, ghost budget: nat,
              event: Event, ghost all: seq<Event>)
      returns (longer: seq<Entry>, next: Env)
      requires OnSchedule(start, log, done, env, budget) && all == done + [event]
      modifies this
      ensures OnSchedule(start, longer, all, next, budget)
    {
      ghost var files := (worker, admin, user);
      ghost var before, lacking := minted, Missing(env);
      var entry;
      next, entry := Happen(env, event);
      EnvAfterOneMore(start, done, event);
      FaultsGrow(start, log, done, entry, event);
      FrozenGrows(log, done, before, lacking, entry, event, minted, Missing(next));
      WrittenGrows(WorkerRole, start, log, done, files.0, entry, event, worker);
      WrittenGrows(InboxRole(Admin), start, log, done, files.1, entry, event, admin);
      WrittenGrows(InboxRole(User), start, log, done, files.2, entry, event, user);
      longer := log + [entry];
    }

    lemma AtFirst(start: Env)
      requires Valid()
      ensures OnSchedule(start, [], [], start, minted + Configured(start))
    {
    }

    method Follow(start: Env, events: seq<Event>) returns (log: seq<Entry>, env: Env)
      requires Valid()
      modifies this
      ensures OnSchedule(start, log, events, env, old(minted) + Configured(start))
      decreases |events|
    {
      if events == [] {
        AtFirst(start);
        return [], start;
      }
      ghost var budget := minted + Configured(start);
      var last := |events| - 1;
      log, env := Follow(start, events[..last]);
      log, env := Go(start, log, events[..last], env, budget, events[last], events);
    }

    lemma AllStillAccepted(start: Env, log: seq<Entry>, events: seq<Event>)
      requires |log| == |events| && FilesSinceReady(start, log, events)
      ensures forall i | 0 <= i < |log| && log[i].outcome == Ready && SameEnvironment(events, i) ::
                AllAccepted(EnvAfter(start, events))
    {
      forall i | 0 <= i < |log| && log[i].outcome == Ready && SameEnvironment(events, i)
        ensures AllAccepted(EnvAfter(start, events))
      {
        StillAccepted(WorkerRole, start, log, events, i, worker);
        StillAccepted(InboxRole(Admin), start, log, events, i, admin);
        StillAccepted(InboxRole(User), start, log, events, i, user);
      }
    }

    /**
     Any schedule of runs, each stopped anywhere or not at all, of revocations and of changes to the environment:
     beyond one key per audience configured at first, every further key issued is the fault of one interrupted run, of
     a revocation, or of a slug or key that the environment changed. Once a run was ready, nothing but a revocation
     or a change leads to another key, and each consumer has a file that is accepted under the environment of that
     run or of a later one, through every later interruption; without a change, under the present one.
     */
    method Schedule(start: Env, events: seq<Event>) returns (log: seq<Entry>)
      requires Valid()
      modifies this
      ensures |log| == |events| && minted <= old(minted) + Configured(start) + Faults(start, log, events)
      ensures forall i | 0 <= i < |log| && log[i].outcome == Ready && OnlyStarts(events, i) :: log[i].minted == minted
      ensures FilesSinceReady(start, log, events)
      ensures forall i | 0 <= i < |log| && log[i].outcome == Ready && SameEnvironment(events, i) ::
                AllAccepted(EnvAfter(start, events))
    {
      var env;
      log, env := Follow(start, events);
      AllStillAccepted(start, log, events);
    }
  }

  /* ---------- schedules ---------- */

  /** What happens between two looks at the deployment. */
  datatype Event = Start(fuel: nat) | Revocation(slug: string, key: string) | Reconfiguration(env: Env)

  datatype Entry = Entry(outcome: Outcome, minted: nat)

  function Then(env: Env, event: Event): Env {
    if event.Reconfiguration? then event.env else env
  }

  function EnvAfter(start: Env, events: seq<Event>): Env {
    if events == [] then start
    else Then(EnvAfter(start, events[..|events| - 1]), events[|events| - 1])
  }

  lemma EnvAfterOneMore(start: Env, events: seq<Event>, event: Event)
    ensures EnvAfter(start, events + [event]) == Then(EnvAfter(start, events), event)
  {
    assert (events + [event])[..|events|] == events;
  }

  predicate OnlyStarts(events: seq<Event>, i: nat) {
    forall j | i <= j < |events| :: events[j].Start?
  }

  predicate SameEnvironment(events: seq<Event>, i: nat) {
    forall j | i <= j < |events| :: !events[j].Reconfiguration?
  }

  lemma {:induction false} EnvironmentStays(start: Env, events: seq<Event>, i: nat)
    requires i <= |events| && SameEnvironment(events, i)
    ensures EnvAfter(start, events) == EnvAfter(start, events[..i])
  {
    if i == |events| {
      assert events[..i] == events;
    } else {
      var shorter := events[..|events| - 1];
      assert shorter[..i] == events[..i];
      EnvironmentStays(start, shorter, i);
    }
  }

  /** Configured audiences with this slug. */
  function Using(env: Env, slug: string): nat {
    if slug == "" then 0
    else (if SlugOf(env, Admin) == slug then 1 else 0) + (if SlugOf(env, User) == slug then 1 else 0)
  }

  /** A configured audience whose slug or key comes out differently. */
  predicate Differs(env: Env, next: Env, audience: Audience) {
    && SlugOf(next, audience) != ""
    && (SlugOf(env, audience) != SlugOf(next, audience)
        || Get(env.values, ApiKey(audience)) != Get(next.values, ApiKey(audience)))
  }

  function Changed(env: Env, next: Env): nat {
    (if Differs(env, next, Admin) then 1 else 0) + (if Differs(env, next, User) then 1 else 0)
  }

  lemma RevokingAffectsUsers(env: Env, previous: Values, before: Server, after: Server, slug: string)
    requires forall other | other != slug ::
               (other in after <==> other in before) && (other in before ==> after[other] == before[other])
    ensures Lacking(env, previous, after) <= Lacking(env, previous, before) + Using(env, slug)
  {
    forall audience | SlugOf(env, audience) != slug
      ensures Lacks(env, previous, after, audience) <==> Lacks(env, previous, before, audience)
    {
    }
  }

  lemma ReconfiguringAffectsChanged(env: Env, next: Env, previous: Values, server: Server)
    ensures Lacking(next, previous, server) <= Lacking(env, previous, server) + Changed(env, next)
  {
    forall audience | Lacks(next, previous, server, audience) && !Differs(env, next, audience)
      ensures Lacks(env, previous, server, audience)
    {
    }
  }

  /** How many further keys this event may be the reason for. */
  function Fault(env: Env, entry: Entry, event: Event): nat {
    match event
    case Start(_) => if entry.outcome == Interrupted then 1 else 0
    case Revocation(slug, _) => Using(env, slug)
    case Reconfiguration(next) => Changed(env, next)
  }

  function Faults(start: Env, log: seq<Entry>, events: seq<Event>): nat
    requires |log| == |events|
  {
    if log == [] then 0
    else
      var last := |log| - 1;
      Faults(start, log[..last], events[..last]) + Fault(EnvAfter(start, events[..last]), log[last], events[last])
  }

  lemma FaultsGrow(start: Env, log: seq<Entry>, events: seq<Event>, entry: Entry, event: Event)
    requires |log| == |events|
    ensures Faults(start, log + [entry], events + [event])
            == Faults(start, log, events) + Fault(EnvAfter(start, events), entry, event)
  {
    assert (log + [entry])[..|log|] == log && (events + [event])[..|log|] == events;
  }

  /** A ready run that only runs followed saw the last key issued. */
  ghost predicate Frozen(log: seq<Entry>, events: seq<Event>, minted: nat, missing: nat)
    requires |log| == |events|
  {
    forall i | 0 <= i < |log| && log[i].outcome == Ready && OnlyStarts(events, i) ::
      log[i].minted == minted && missing == 0
  }

  lemma FrozenGrows(log: seq<Entry>, events: seq<Event>, minted: nat, missing: nat,
                    entry: Entry, event: Event, minted': nat, missing': nat)
    requires |log| == |events| && Frozen(log, events, minted, missing) && entry.minted == minted'
    requires event.Start? ==> missing' <= missing && minted <= minted' <= minted + missing
    requires entry.outcome == Ready ==> missing' == 0
    ensures Frozen(log + [entry], events + [event], minted', missing')
  {
    var all, more := log + [entry], events + [event];
    forall i | 0 <= i < |all| && all[i].outcome == Ready && OnlyStarts(more, i)
      ensures all[i].minted == minted' && missing' == 0
    {
      if i < |log| {
        assert more[|log|] == event && forall j | i <= j < |events| :: events[j] == more[j];
        assert OnlyStarts(events, i) && log[i] == all[i];
      }
    }
  }

  /** The consumer of this role takes the file as it is. */
  ghost predicate Accepted(role: Role, env: Env, file: Option<Values>) {
    file.Some? && Credentials(role, env, file) == file
  }

  /** A file for the environment of event i or of a later one. */
  ghost predicate WrittenSince(role: Role, start: Env, events: seq<Event>, i: nat, file: Option<Values>) {
    exists j :: i <= j < |events| && Accepted(role, EnvAfter(start, events[..j]), file)
  }

  ghost predicate WrittenSinceReady(role: Role, start: Env, log: seq<Entry>, events: seq<Event>, file: Option<Values>)
    requires |log| == |events|
  {
    forall i | 0 <= i < |log| && log[i].outcome == Ready :: WrittenSince(role, start, events, i, file)
  }

  lemma WrittenGrows(role: Role, start: Env, log: seq<Entry>, events: seq<Event>, file: Option<Values>,
                     entry: Entry, event: Event, next: Option<Values>)
    requires |log| == |events| && WrittenSinceReady(role, start, log, events, file)
    requires next == file || Accepted(role, EnvAfter(start, events), next)
    requires entry.outcome == Ready ==> Accepted(role, EnvAfter(start, events), next)
    ensures WrittenSinceReady(role, start, log + [entry], events + [event], next)
  {
    var all, more := log + [entry], events + [event];
    assert more[..|events|] == events;
    forall i | 0 <= i < |all| && all[i].outcome == Ready ensures WrittenSince(role, start, more, i, next) {
      if !Accepted(role, EnvAfter(start, events), next) {
        assert log[i] == all[i];
        var j :| i <= j < |events| && Accepted(role, EnvAfter(start, events[..j]), file);
        assert more[..j] == events[..j];
      }
    }
  }

  lemma StillAccepted(role: Role, start: Env, log: seq<Entry>, events: seq<Event>, i: nat, file: Option<Values>)
    requires |log| == |events| && WrittenSinceReady(role, start, log, events, file)
    requires i < |log| && log[i].outcome == Ready && SameEnvironment(events, i)
    ensures Accepted(role, EnvAfter(start, events), file)
  {
    assert WrittenSince(role, start, events, i, file);
    var j :| i <= j < |events| && Accepted(role, EnvAfter(start, events[..j]), file);
    EnvironmentStays(start, events, j);
  }

  /**
   Issued keys are paid for by audiences that lacked one; only an interruption can leave one unpaid,
   and then just one.
   */
  ghost predicate Accounted(env: Env, issued: nat, interrupted: bool,
                            previous: Values, next: Values, before: Server, after: Server)
  {
    && Lacking(env, next, after) <= Lacking(env, previous, before) && issued <= Lacking(env, previous, before)
    && issued + Lacking(env, next, after) <= Lacking(env, previous, before) + if interrupted then 1 else 0
  }

  /** What the loop has gathered once it has passed the first n audiences. */
  ghost predicate Collected(env: Env, found: Values, secrets: map<Audience, string>, n: nat)
    requires n <= 2
  {
    && (forall field | field in Common(env) :: field in found && found[field] == Common(env)[field])
    && (forall field | field in found :: field in Common(env) || field == ApiKey(Admin) || field == ApiKey(User))
    && (forall audience :: ApiKey(audience) in found <==> Passed(env, audience, n))
    && (forall audience :: audience in secrets <==> Passed(env, audience, n))
    && (forall audience | Passed(env, audience, n) :: found[ApiKey(audience)] != "" && secrets[audience] != "")
  }

  predicate Passed(env: Env, audience: Audience, n: nat) {
    SlugOf(env, audience) != "" && (if audience == Admin then n > 0 else n > 1)
  }

  function InboxValues(env: Env, audience: Audience, secrets: map<Audience, string>): Values {
    if audience in secrets then Common(env)[Secret(audience) := secrets[audience]] else Common(env)
  }

  lemma CollectedGrows(env: Env, n: nat, server: Server, found: Values, next: Values,
                       secrets: map<Audience, string>, secret: string)
    requires n < 2 && Collected(env, found, secrets, n) && secret != "" && SlugOf(env, AUDIENCES[n]) != ""
    requires GainsKey(server, env, AUDIENCES[n], found, next)
    ensures Collected(env, next, secrets[AUDIENCES[n] := secret], n + 1)
  {
    var audience := AUDIENCES[n];
    forall other ensures Passed(env, other, n + 1) <==> other == audience || Passed(env, other, n) {
    }
  }

  lemma OthersAreKept(audience: Audience, previous: Values, found: Values, next: Values)
    requires ApiKey(audience) in next && next == found[ApiKey(audience) := next[ApiKey(audience)]]
    ensures forall other | other != audience ::
              Get(previous + next, ApiKey(other)) == Get(previous + found, ApiKey(other))
    ensures Get(previous + next, ApiKey(audience)) == next[ApiKey(audience)] && previous + next != map[]
  {
    assert ApiKey(audience) in previous + next;
  }

  /** A valid key on disk for one audience, and nothing lost for the other. */
  lemma OneAudienceLess(env: Env, audience: Audience, previous: Values, next: Values, before: Server, after: Server)
    requires KeepsKeys(before, after) && ValidKey(after, SlugOf(env, audience), Get(next, ApiKey(audience)))
    requires forall other | other != audience :: Get(next, ApiKey(other)) == Get(previous, ApiKey(other))
    ensures !Lacks(env, next, after, audience)
    ensures forall other :: Lacks(env, next, after, other) ==> Lacks(env, previous, before, other)
  {
    forall other | Lacks(env, next, after, other) ensures Lacks(env, previous, before, other) {
      assert other != audience;
    }
  }

  lemma AccountFor(env: Env, audience: Audience, issued: nat, interrupted: bool,
                   previous: Values, next: Values, before: Server, after: Server)
    requires issued <= 1 && KeepsKeys(before, after)
    requires issued == 1 ==> Lacks(env, previous, before, audience)
    requires next == previous || (!Lacks(env, next, after, audience)
               && forall other :: Lacks(env, next, after, other) ==> Lacks(env, previous, before, other))
    requires issued == 1 ==> interrupted || !Lacks(env, next, after, audience)
    ensures Accounted(env, issued, interrupted, previous, next, before, after)
  {
    if next == previous {
      forall other | Lacks(env, next, after, other) ensures Lacks(env, previous, before, other) {
      }
    }
  }

  lemma WorkerFileIsAccepted(env: Env, found: Values, secrets: map<Audience, string>)
    requires env.enabled && !env.external && Collected(env, found, secrets, 2)
    ensures Accepted(WorkerRole, env, Some(found))
  {
    assert found.Keys <= Scope(WorkerRole);
    assert forall field | field in Common(env) :: found[field] == Common(env)[field];
    forall audience | SlugOf(env, audience) != "" ensures Get(found, ApiKey(audience)) != "" {
      assert Passed(env, audience, 2);
    }
  }

  lemma InboxFileIsAccepted(env: Env, audience: Audience, found: Values, secrets: map<Audience, string>)
    requires env.enabled && !env.external && Collected(env, found, secrets, 2)
    ensures Accepted(InboxRole(audience), env, Some(InboxValues(env, audience, secrets)))
  {
    var values := InboxValues(env, audience, secrets);
    assert values.Keys <= Scope(InboxRole(audience));
    assert Passed(env, audience, 2) <==> SlugOf(env, audience) != "";
  }
}

/**
 The controlled measurement of loadtests/locustfile.py: one controller greenlet and N readers that
 interleave at their yield points, from ramp and warmup through draining to the measured window.

 An event is what one greenlet does between two yield points. Everything a greenlet could see or
 change is in the state, so a run is any sequence of enabled events.
 */
module MeasurementWindow {
  import opened Options
  import Runs

  datatype Phase = Ramping | Warmup | Draining | Measurement | Stopping | Finished | Failed

  /** Where the measure() greenlet waits. */
  datatype Controller = Unstarted | AwaitingReady | Warming | AwaitingParked | Measuring | Quitting | Dead

  /** Where a reader waits: inside on_start, between journeys, at the barrier, in its first think time... */
  datatype Position = Booting | Between | Parked | Thinking | Travelling | Gone

  /** A state of random.Random, and the three streams a reader draws from. */
  type Generator = nat
  datatype Stream = Journeys | Resources | Thinks

  /**
   A reader: its outstanding request (did it begin after the release?), its streams, whether they were reset for the
   measurement, and the journeys drawn since the last reset.
   */
  datatype Reader = Reader(position: Position, request: Option<bool>, measured: bool, journeys: seq<nat>,
                           journeyRandom: Generator, resourceRandom: Generator, thinkRandom: Generator)

  datatype Sample = Sample(slot: nat, afterRelease: bool, ok: bool)

  /** The requested users, the seed, how (seed, slot, phase) seeds a stream, and what one draw gives and leaves. */
  datatype Config = Config(users: nat, seed: int, seeded: (int, nat, bool, Stream) -> Generator,
                           draw: Generator -> (nat, Generator))

  datatype State = State(phase: Phase, controller: Controller, readyUsers: set<nat>, parkedUsers: set<nat>,
                         ready: bool, parked: bool, released: bool, readers: map<nat, Reader>,
                         samples: seq<Sample>, warmupFailures: nat, slept: bool)

  datatype Event =
    | Spawn
    | StartRequest(slot: nat)
    | FinishRequest(slot: nat, ok: bool)
    | PickResource(slot: nat)
    | BootstrapComplete(slot: nat)
    | BeforeJourney(slot: nat)
    | Wake(slot: nat)
    | Resume(slot: nat)
    | EndJourney(slot: nat)
    | Leave(slot: nat)
    | SpawningComplete(count: nat)
    | ReadyWaitOver
    | WarmupOver
    | ParkedWaitOver
    | MeasurementOver
    | QuitFails
    | TestStop(byController: bool)

  const START := State(Ramping, Unstarted, {}, {}, false, false, false, map[], [], 0, false)

  function At(s: State, slot: nat, position: Position): (at: bool) {
    slot in s.readers && s.readers[slot].position == position
  }

  predicate Over(phase: Phase) {
    phase == Stopping || phase == Finished || phase == Failed
  }

  predicate Enabled(c: Config, s: State, e: Event) {
    match e
    case Spawn => |s.readers| < c.users
    case StartRequest(u) => (At(s, u, Booting) || At(s, u, Travelling)) && s.readers[u].request.None?
    case FinishRequest(u, _) => u in s.readers && s.readers[u].request.Some?
    case PickResource(u) => At(s, u, Booting) || At(s, u, Travelling)
    case BootstrapComplete(u) => At(s, u, Booting) && s.readers[u].request.None?
    case BeforeJourney(u) => At(s, u, Between)
    case Wake(u) => At(s, u, Parked) && s.released
    case Resume(u) => At(s, u, Thinking)
    case EndJourney(u) => At(s, u, Travelling) && s.readers[u].request.None?
    case Leave(u) => u in s.readers
    case SpawningComplete(_) => true
    case ReadyWaitOver => s.controller == AwaitingReady
    case WarmupOver => s.controller == Warming
    case ParkedWaitOver => s.controller == AwaitingParked
    case MeasurementOver => s.controller == Measuring
    case QuitFails => s.controller == Quitting
    case TestStop(byController) => byController ==> s.controller == Quitting
  }

  /* ---------- what each segment does ---------- */

  function Moved(s: State, u: nat, position: Position): State
    requires u in s.readers
  {
    s.(readers := s.readers[u := s.readers[u].(position := position)])
  }

  /** The next journey comes from the journey stream alone. */
  function Chosen(c: Config, r: Reader): Reader {
    var drawn := c.draw(r.journeyRandom);
    r.(position := Travelling, journeys := r.journeys + [drawn.0], journeyRandom := drawn.1)
  }

  function Picked(c: Config, r: Reader): Reader {
    r.(resourceRandom := c.draw(r.resourceRandom).1)
  }

  /** wait_time, before the reader goes on. */
  function Waited(c: Config, r: Reader, position: Position): Reader {
    r.(position := position, thinkRandom := c.draw(r.thinkRandom).1)
  }

  function Travel(c: Config, s: State, u: nat): State
    requires u in s.readers
  {
    if Over(s.phase) then Moved(s, u, Gone) else s.(readers := s.readers[u := Chosen(c, s.readers[u])])
  }

  function Failures(samples: seq<Sample>): nat {
    if samples == [] then 0 else Failures(samples[..|samples| - 1]) + (if samples[|samples| - 1].ok then 0 else 1)
  }

  function Fail(s: State): State {
    s.(phase := Failed, controller := Dead)
  }

  /** reset_random, which is where a reader's streams start. */
  function Reset(c: Config, u: nat, measured: bool, r: Reader): Reader {
    r.(measured := measured, journeys := [], journeyRandom := c.seeded(c.seed, u, measured, Journeys),
       resourceRandom := c.seeded(c.seed, u, measured, Resources), thinkRandom := c.seeded(c.seed, u, measured, Thinks))
  }

  /** begin_measurement for every reader, statistics reset, and the release, without a yield in between. */
  function Release(c: Config, s: State): State {
    s.(readers := map u | u in s.readers :: Reset(c, u, true, s.readers[u]),
       warmupFailures := Failures(s.samples), samples := [],
       phase := Measurement, released := true, controller := Measuring)
  }

  const NEWCOMER := Reader(Booting, None, false, [], 0, 0, 0)

  function Next(c: Config, s: State, e: Event): State
    requires Enabled(c, s, e)
  {
    match e
    case Spawn => s.(readers := s.readers[|s.readers| := Reset(c, |s.readers|, false, NEWCOMER)])
    case StartRequest(u) => s.(readers := s.readers[u := s.readers[u].(request := Some(s.released))])
    case FinishRequest(u, ok) =>
      s.(readers := s.readers[u := s.readers[u].(request := None)],
         samples := s.samples + [Sample(u, s.readers[u].request.value, ok)])
    case PickResource(u) => s.(readers := s.readers[u := Picked(c, s.readers[u])])
    case BootstrapComplete(u) =>
      var readyUsers := s.readyUsers + {u};
      Moved(s, u, Between).(readyUsers := readyUsers, ready := s.ready || |readyUsers| == c.users)
    case BeforeJourney(u) =>
      if s.phase == Draining then
        var parkedUsers := s.parkedUsers + {u};
        Moved(s, u, Parked).(parkedUsers := parkedUsers, parked := s.parked || |parkedUsers| == c.users)
      else Travel(c, s, u)
    case Wake(u) => s.(readers := s.readers[u := Waited(c, s.readers[u], Thinking)])
    case Resume(u) => Travel(c, s, u)
    case EndJourney(u) => s.(readers := s.readers[u := Waited(c, s.readers[u], Between)])
    case Leave(u) => s.(readers := s.readers[u := s.readers[u].(position := Gone, request := None)])
    case SpawningComplete(count) =>
      if count == c.users && s.controller == Unstarted then s.(controller := AwaitingReady) else s
    case ReadyWaitOver => if s.ready then s.(phase := Warmup, controller := Warming) else Fail(s)
    case WarmupOver => s.(phase := Draining, controller := AwaitingParked)
    case ParkedWaitOver => if s.parked then Release(c, s) else Fail(s)
    case MeasurementOver => s.(phase := Stopping, controller := Quitting, slept := true)
    case QuitFails => Fail(s)
    case TestStop(byController) =>
      s.(phase := if s.phase == Stopping then Finished else s.phase,
         controller := if byController || s.controller == Unstarted then s.controller else Dead)
  }

  /* ---------- the invariant ---------- */

  ghost predicate ReaderOk(s: State, u: nat, r: Reader) {
    && (r.request.Some? ==> r.position == Booting || r.position == Travelling)
    && (r.request.Some? && s.released ==> r.request.value)
    && (s.released ==> r.measured)
    && (r.position == Booting ==> u !in s.parkedUsers && u !in s.readyUsers)
    && (u in s.parkedUsers && !s.released ==> r.position == Parked || r.position == Gone)
  }

  /** Where the controller is tells the phase, except after an early stop or a failure. */
  ghost predicate PhaseOk(s: State) {
    && (s.controller == Unstarted || s.controller == AwaitingReady ==> s.phase == Ramping)
    && (s.controller == Warming ==> s.phase == Warmup)
    && (s.controller == AwaitingParked ==> s.phase == Draining)
    && (s.controller == Measuring ==> s.phase == Measurement)
    && (s.controller == Measuring || s.controller == Quitting ==> s.released)
    && (s.released ==> s.controller == Measuring || s.controller == Quitting || s.controller == Dead)
    && (s.phase == Measurement || s.phase == Stopping || s.phase == Finished ==> s.released)
    && (s.phase == Ramping || s.phase == Warmup || s.phase == Draining ==> !s.released)
    && (s.phase == Stopping || s.phase == Finished || s.controller == Quitting ==> s.slept)
  }

  /** Slots are handed out in order, and the barrier opens only when every requested one is in. */
  ghost predicate SlotsOk(c: Config, s: State) {
    && |s.readers| <= c.users
    && (forall u: nat :: u in s.readers <==> u < |s.readers|)
    && (forall u | u in s.parkedUsers :: u in s.readers)
    && (forall u | u in s.readyUsers :: u in s.readers)
    && (s.parked ==> |s.parkedUsers| == c.users) && (s.ready ==> |s.readyUsers| >= c.users)
    && (s.released ==> |s.readers| == c.users)
  }

  ghost predicate SamplesOk(s: State) {
    s.released ==> forall i | 0 <= i < |s.samples| :: s.samples[i].afterRelease
  }

  ghost predicate Inv(c: Config, s: State) {
    && PhaseOk(s) && SlotsOk(c, s) && SamplesOk(s)
    && forall u | u in s.readers :: ReaderOk(s, u, s.readers[u])
  }

  /* ---------- the invariant is kept ---------- */

  lemma SlotsBelow(slots: set<nat>, n: nat)
    requires forall u | u in slots :: u < n
    ensures |slots| <= n
    ensures |slots| == n ==> forall u | 0 <= u < n :: u in slots
  {
    if n > 0 {
      SlotsBelow(slots - {n - 1}, n - 1);
    } else {
      assert slots == {};
    }
  }

  /** When the barrier opens, every requested reader stands at it with no request outstanding. */
  lemma BarrierHolds(c: Config, s: State)
    requires Inv(c, s) && s.parked
    ensures |s.readers| == c.users
    ensures forall u | 0 <= u < c.users ::
              u in s.readers && u in s.parkedUsers
              && (!s.released ==> (At(s, u, Parked) || At(s, u, Gone)) && s.readers[u].request.None?)
  {
    SlotsBelow(s.parkedUsers, |s.readers|);
  }

  lemma ReleaseKeepsInv(c: Config, s: State)
    requires Inv(c, s) && s.controller == AwaitingParked && s.parked
    ensures Inv(c, Release(c, s))
  {
    BarrierHolds(c, s);
    assert Release(c, s).readers.Keys == s.readers.Keys;
  }

  lemma AddedReader(readers: map<nat, Reader>, n: nat, r: Reader, more: map<nat, Reader>)
    requires n == |readers| && (forall u: nat :: u in readers <==> u < n) && more == readers[n := r]
    ensures |more| == n + 1 && forall u: nat :: u in more <==> u < n + 1
  {
    assert more.Keys == readers.Keys + {n};
  }

  lemma AddKeepsInv(c: Config, s: State, r: Reader)
    requires Inv(c, s) && |s.readers| < c.users
    requires r.position == Booting && r.request.None? && (s.released ==> r.measured)
    ensures Inv(c, s.(readers := s.readers[|s.readers| := r]))
  {
    var t := s.(readers := s.readers[|s.readers| := r]);
    AddedReader(s.readers, |s.readers|, r, t.readers);
    assert SlotsOk(c, t) && ReaderOk(t, |s.readers|, r);
    forall u | u in s.readers ensures ReaderOk(t, u, s.readers[u]) {
    }
  }

  lemma SpawnKeepsInv(c: Config, s: State)
    requires Inv(c, s) && Enabled(c, s, Spawn)
    ensures Inv(c, Next(c, s, Spawn))
  {
    AddKeepsInv(c, s, Reset(c, |s.readers|, false, NEWCOMER));
  }

  lemma ReplaceKeepsInv(c: Config, s: State, u: nat, r: Reader)
    requires Inv(c, s) && u in s.readers && ReaderOk(s, u, r)
    ensures Inv(c, s.(readers := s.readers[u := r]))
  {
    assert s.readers[u := r].Keys == s.readers.Keys;
  }

  lemma StartKeepsInv(c: Config, s: State, u: nat)
    requires Inv(c, s) && Enabled(c, s, StartRequest(u))
    ensures Inv(c, Next(c, s, StartRequest(u)))
  {
    ReplaceKeepsInv(c, s, u, s.readers[u].(request := Some(s.released)));
  }

  lemma FinishKeepsInv(c: Config, s: State, u: nat, ok: bool)
    requires Inv(c, s) && Enabled(c, s, FinishRequest(u, ok))
    ensures Inv(c, Next(c, s, FinishRequest(u, ok)))
  {
    ReplaceKeepsInv(c, s, u, s.readers[u].(request := None));
    SampleKeepsInv(c, s.(readers := s.readers[u := s.readers[u].(request := None)]),
                   Sample(u, s.readers[u].request.value, ok));
  }

  lemma SampleKeepsInv(c: Config, s: State, sample: Sample)
    requires Inv(c, s) && (s.released ==> sample.afterRelease)
    ensures Inv(c, s.(samples := s.samples + [sample]))
  {
    var t := s.(samples := s.samples + [sample]);
    assert PhaseOk(t) && SlotsOk(c, t) && SamplesOk(t);
    SameReaders(c, s, t);
  }

  lemma BootstrapKeepsInv(c: Config, s: State, u: nat)
    requires Inv(c, s) && Enabled(c, s, BootstrapComplete(u))
    ensures Inv(c, Next(c, s, BootstrapComplete(u)))
  {
    ReplaceKeepsInv(c, s, u, s.readers[u].(position := Between));
    ReadyKeepsInv(c, s.(readers := s.readers[u := s.readers[u].(position := Between)]), u);
  }

  lemma OneMoreSlot(slots: set<nat>, u: nat)
    ensures |slots| <= |slots + {u}| <= |slots| + 1
  {
    assert slots + {u} == slots + ({u} - slots) && |slots + {u}| == |slots| + |{u} - slots|;
    assert {u} - slots == {} || {u} - slots == {u};
  }

  lemma ReadersAfterReady(s: State, t: State, u: nat)
    requires forall v | v in s.readers :: ReaderOk(s, v, s.readers[v])
    requires t.readers == s.readers && t.parkedUsers == s.parkedUsers && t.released == s.released
    requires t.readyUsers == s.readyUsers + {u}
    requires u in s.readers ==> s.readers[u].position != Booting
    ensures forall v | v in t.readers :: ReaderOk(t, v, t.readers[v])
  {
  }

  lemma ReadyKeepsInv(c: Config, s: State, u: nat)
    requires Inv(c, s) && u in s.readers && s.readers[u].position != Booting
    ensures var readyUsers := s.readyUsers + {u};
            Inv(c, s.(readyUsers := readyUsers, ready := s.ready || |readyUsers| == c.users))
  {
    var readyUsers := s.readyUsers + {u};
    var t := s.(readyUsers := readyUsers, ready := s.ready || |readyUsers| == c.users);
    OneMoreSlot(s.readyUsers, u);
    ReadersAfterReady(s, t, u);
  }

  lemma PickKeepsInv(c: Config, s: State, u: nat)
    requires Inv(c, s) && Enabled(c, s, PickResource(u))
    ensures Inv(c, Next(c, s, PickResource(u)))
  {
    ReplaceKeepsInv(c, s, u, Picked(c, s.readers[u]));
  }

  lemma WakeKeepsInv(c: Config, s: State, u: nat)
    requires Inv(c, s) && Enabled(c, s, Wake(u))
    ensures Inv(c, Next(c, s, Wake(u)))
  {
    ReplaceKeepsInv(c, s, u, Waited(c, s.readers[u], Thinking));
  }

  lemma EndJourneyKeepsInv(c: Config, s: State, u: nat)
    requires Inv(c, s) && Enabled(c, s, EndJourney(u))
    ensures Inv(c, Next(c, s, EndJourney(u)))
  {
    ReplaceKeepsInv(c, s, u, Waited(c, s.readers[u], Between));
  }

  lemma LeaveKeepsInv(c: Config, s: State, u: nat)
    requires Inv(c, s) && Enabled(c, s, Leave(u))
    ensures Inv(c, Next(c, s, Leave(u)))
  {
    ReplaceKeepsInv(c, s, u, s.readers[u].(position := Gone, request := None));
  }

  lemma TravelKeepsInv(c: Config, s: State, u: nat)
    requires Inv(c, s) && u in s.readers && s.readers[u].request.None?
    requires s.readers[u].position == Between || s.readers[u].position == Thinking
    ensures Inv(c, Travel(c, s, u))
  {
    var r := s.readers[u];
    ReplaceKeepsInv(c, s, u, if Over(s.phase) then r.(position := Gone) else Chosen(c, r));
  }

  lemma ParkKeepsInv(c: Config, s: State, u: nat)
    requires Inv(c, s) && At(s, u, Between) && s.phase == Draining
    ensures Inv(c, Next(c, s, BeforeJourney(u)))
  {
    SlotsBelow(s.parkedUsers, |s.readers|);
    SlotsBelow(s.parkedUsers + {u}, |s.readers|);
    assert u !in s.parkedUsers && !s.parked;
    var t := s.(parkedUsers := s.parkedUsers + {u}, parked := |s.parkedUsers + {u}| == c.users,
                readers := s.readers[u := s.readers[u].(position := Parked)]);
    ParkedReaders(c, s, u);
    assert t == Next(c, s, BeforeJourney(u));
  }

  lemma ParkedReaders(c: Config, s: State, u: nat)
    requires Inv(c, s) && At(s, u, Between) && s.phase == Draining
    ensures var t := Next(c, s, BeforeJourney(u)); forall v | v in t.readers :: ReaderOk(t, v, t.readers[v])
  {
  }

  lemma WaitsKeepInv(c: Config, s: State, e: Event)
    requires Inv(c, s) && Enabled(c, s, e) && (e.ReadyWaitOver? || e.WarmupOver? || e.MeasurementOver?)
    ensures Inv(c, Next(c, s, e))
  {
    SameReaders(c, s, Next(c, s, e));
  }

  lemma StopsKeepInv(c: Config, s: State, e: Event)
    requires Inv(c, s) && Enabled(c, s, e) && (e.SpawningComplete? || e.QuitFails? || e.TestStop?)
    ensures Inv(c, Next(c, s, e))
  {
    SameReaders(c, s, Next(c, s, e));
  }

  lemma SameReaders(c: Config, s: State, t: State)
    requires forall u | u in s.readers :: ReaderOk(s, u, s.readers[u])
    requires t.readers == s.readers && t.parkedUsers == s.parkedUsers && t.readyUsers == s.readyUsers
    requires t.released == s.released
    ensures forall u | u in t.readers :: ReaderOk(t, u, t.readers[u])
  {
  }

  lemma StepKeepsInv(c: Config, s: State, e: Event)
    requires Inv(c, s) && Enabled(c, s, e)
    ensures Inv(c, Next(c, s, e))
  {
    match e
    case Spawn => SpawnKeepsInv(c, s);
    case BeforeJourney(u) => if s.phase == Draining { ParkKeepsInv(c, s, u); } else { TravelKeepsInv(c, s, u); }
    case Resume(u) => TravelKeepsInv(c, s, u);
    case StartRequest(u) => StartKeepsInv(c, s, u);
    case FinishRequest(u, ok) => FinishKeepsInv(c, s, u, ok);
    case PickResource(u) => PickKeepsInv(c, s, u);
    case BootstrapComplete(u) => BootstrapKeepsInv(c, s, u);
    case Wake(u) => WakeKeepsInv(c, s, u);
    case EndJourney(u) => EndJourneyKeepsInv(c, s, u);
    case Leave(u) => LeaveKeepsInv(c, s, u);
    case ParkedWaitOver => ParkedWaitKeepsInv(c, s);
    case ReadyWaitOver => WaitsKeepInv(c, s, e);
    case WarmupOver => WaitsKeepInv(c, s, e);
    case MeasurementOver => WaitsKeepInv(c, s, e);
    case _ => StopsKeepInv(c, s, e);
  }

  lemma ParkedWaitKeepsInv(c: Config, s: State)
    requires Inv(c, s) && s.controller == AwaitingParked
    ensures Inv(c, Next(c, s, ParkedWaitOver))
  {
    if s.parked {
      ReleaseKeepsInv(c, s);
    } else {
      SameReaders(c, s, Fail(s));
    }
  }

  /* ---------- streams ---------- */

  /** A generator after n draws, and what these draws gave. */
  function Ahead(draw: Generator -> (nat, Generator), g: Generator, n: nat): Generator {
    if n == 0 then g else draw(Ahead(draw, g, n - 1)).1
  }

  function Drawn(draw: Generator -> (nat, Generator), g: Generator, n: nat): seq<nat> {
    if n == 0 then [] else Drawn(draw, g, n - 1) + [draw(Ahead(draw, g, n - 1)).0]
  }

  lemma {:induction false} DrawnPrefix(draw: Generator -> (nat, Generator), g: Generator, m: nat, n: nat)
    requires m <= n
    ensures Drawn(draw, g, m) <= Drawn(draw, g, n)
  {
    if m < n {
      DrawnPrefix(draw, g, m, n - 1);
    }
  }

  /** The journeys since the reset are the first draws from the stream, which has moved on by as many. */
  ghost predicate OnStream(c: Config, u: nat, r: Reader) {
    var start := c.seeded(c.seed, u, r.measured, Journeys);
    r.journeys == Drawn(c.draw, start, |r.journeys|) && r.journeyRandom == Ahead(c.draw, start, |r.journeys|)
  }

  ghost predicate StreamsOk(c: Config, s: State) {
    forall u | u in s.readers :: OnStream(c, u, s.readers[u])
  }

  predicate SameStream(r: Reader, t: Reader) {
    r.measured == t.measured && r.journeys == t.journeys && r.journeyRandom == t.journeyRandom
  }

  ghost predicate JustReset(c: Config, u: nat, r: Reader) {
    r.journeys == [] && r.journeyRandom == c.seeded(c.seed, u, r.measured, Journeys)
  }

  lemma TravelDraws(c: Config, s: State, v: nat, u: nat)
    requires v in s.readers && u in s.readers
    ensures var r := Travel(c, s, v).readers[u]; SameStream(s.readers[u], r) || r == Chosen(c, s.readers[u])
  {
  }

  lemma ControllerDrawsNothing(c: Config, s: State, e: Event)
    requires Enabled(c, s, e) && ByController(e) && !e.ParkedWaitOver?
    ensures Next(c, s, e).readers == s.readers
  {
  }

  lemma ReadersDrawNothing(c: Config, s: State, e: Event, u: nat)
    requires Enabled(c, s, e) && u in s.readers && !ByController(e) && !e.Spawn? && !e.BeforeJourney? && !e.Resume?
    ensures u in Next(c, s, e).readers && SameStream(s.readers[u], Next(c, s, e).readers[u])
  {
  }

  lemma OthersDrawNothing(c: Config, s: State, e: Event, u: nat)
    requires Enabled(c, s, e) && u in s.readers && !e.Spawn? && !e.BeforeJourney? && !e.Resume? && !e.ParkedWaitOver?
    ensures u in Next(c, s, e).readers && SameStream(s.readers[u], Next(c, s, e).readers[u])
  {
    if ByController(e) {
      ControllerDrawsNothing(c, s, e);
    } else {
      ReadersDrawNothing(c, s, e, u);
    }
  }

  lemma TravelKeepsSlots(c: Config, s: State, v: nat, u: nat)
    requires v in s.readers
    ensures u in Travel(c, s, v).readers ==> u in s.readers
  {
  }

  lemma ParkedWaitKeepsSlots(c: Config, s: State, u: nat)
    requires Enabled(c, s, ParkedWaitOver)
    ensures u in Next(c, s, ParkedWaitOver).readers ==> u in s.readers
  {
  }

  lemma NoNewSlot(c: Config, s: State, e: Event, u: nat)
    requires Enabled(c, s, e) && u in Next(c, s, e).readers
    ensures u in s.readers || (e.Spawn? && u == |s.readers|)
  {
    match e
    case Spawn =>
    case BeforeJourney(v) => TravelKeepsSlots(c, s, v, u);
    case Resume(v) => TravelKeepsSlots(c, s, v, u);
    case ParkedWaitOver => ParkedWaitKeepsSlots(c, s, u);
    case _ => OtherStepsKeepSlots(c, s, e, u);
  }

  lemma OtherStepsKeepSlots(c: Config, s: State, e: Event, u: nat)
    requires Enabled(c, s, e) && !e.Spawn? && !e.BeforeJourney? && !e.Resume? && !e.ParkedWaitOver?
    ensures u in Next(c, s, e).readers ==> u in s.readers
  {
  }

  /** Only a reset and the choice of a journey touch the journey stream. */
  lemma StreamAfter(c: Config, s: State, e: Event, u: nat)
    requires Enabled(c, s, e) && u in Next(c, s, e).readers
    ensures var r := Next(c, s, e).readers[u];
            JustReset(c, u, r) || (u in s.readers && (SameStream(s.readers[u], r) || r == Chosen(c, s.readers[u])))
  {
    NoNewSlot(c, s, e, u);
    match e
    case Spawn =>
    case ParkedWaitOver =>
    case BeforeJourney(v) => TravelDraws(c, s, v, u);
    case Resume(v) => TravelDraws(c, s, v, u);
    case _ => OthersDrawNothing(c, s, e, u);
  }

  lemma ChosenOnStream(c: Config, u: nat, r: Reader)
    requires OnStream(c, u, r)
    ensures OnStream(c, u, Chosen(c, r))
  {
  }

  lemma StepKeepsStreams(c: Config, s: State, e: Event)
    requires StreamsOk(c, s) && Enabled(c, s, e)
    ensures StreamsOk(c, Next(c, s, e))
  {
    forall u | u in Next(c, s, e).readers ensures OnStream(c, u, Next(c, s, e).readers[u]) {
      StreamAfter(c, s, e, u);
      if u in s.readers {
        ChosenOnStream(c, u, s.readers[u]);
      }
    }
  }

  /* ---------- single steps that matter to a run ---------- */

  lemma OnlyReleaseMeasures(c: Config, s: State, e: Event)
    requires Enabled(c, s, e)
    requires || (s.phase != Measurement && Next(c, s, e).phase == Measurement)
             || (s.controller != Measuring && Next(c, s, e).controller == Measuring)
    ensures e.ParkedWaitOver? && s.parked && Next(c, s, e) == Release(c, s)
  {
  }

  lemma OnlySleepSleeps(c: Config, s: State, e: Event)
    requires Enabled(c, s, e) && !s.slept && Next(c, s, e).slept
    ensures e.MeasurementOver? && s.controller == Measuring
  {
  }

  /** The warmup failures so far: those still in the statistics, or those put aside by the reset. */
  function EarlyFailures(s: State): nat {
    if s.released then s.warmupFailures else Failures(s.samples)
  }

  lemma FailuresAreKept(c: Config, s: State, e: Event)
    requires Enabled(c, s, e) && (s.released ==> !e.ParkedWaitOver?)
    ensures EarlyFailures(Next(c, s, e)) >= EarlyFailures(s)
  {
    if e.FinishRequest? {
      FinishCounts(c, s, e.slot, e.ok);
    } else if !e.ParkedWaitOver? {
      OtherStepsKeepSamples(c, s, e);
    }
  }

  lemma FinishCounts(c: Config, s: State, u: nat, ok: bool)
    requires Enabled(c, s, FinishRequest(u, ok))
    ensures var t := Next(c, s, FinishRequest(u, ok));
            EarlyFailures(t) == EarlyFailures(s) + if s.released || ok then 0 else 1
  {
    var t := Next(c, s, FinishRequest(u, ok));
    assert t.samples[..|t.samples| - 1] == s.samples;
  }

  predicate ByController(e: Event) {
    || e.SpawningComplete? || e.ReadyWaitOver? || e.WarmupOver? || e.ParkedWaitOver? || e.MeasurementOver?
    || e.QuitFails?
    || e.TestStop?
  }

  predicate SameSamples(s: State, t: State) {
    t.samples == s.samples && t.released == s.released && t.warmupFailures == s.warmupFailures
  }

  lemma TravelKeepsSamples(c: Config, s: State, u: nat)
    requires u in s.readers
    ensures SameSamples(s, Travel(c, s, u))
  {
  }

  lemma ControllerKeepsSamples(c: Config, s: State, e: Event)
    requires Enabled(c, s, e) && ByController(e) && !e.ParkedWaitOver?
    ensures SameSamples(s, Next(c, s, e))
  {
  }

  lemma ReadersKeepSamples(c: Config, s: State, e: Event)
    requires Enabled(c, s, e) && !ByController(e) && !e.FinishRequest? && !e.BeforeJourney? && !e.Resume?
    ensures SameSamples(s, Next(c, s, e))
  {
  }

  lemma OtherStepsKeepSamples(c: Config, s: State, e: Event)
    requires Enabled(c, s, e) && !e.FinishRequest? && !e.ParkedWaitOver?
    ensures SameSamples(s, Next(c, s, e))
  {
    if e.BeforeJourney? || e.Resume? {
      TravelKeepsSamples(c, s, e.slot);
    } else if ByController(e) {
      ControllerKeepsSamples(c, s, e);
    } else {
      ReadersKeepSamples(c, s, e);
    }
  }

  /* ---------- whole runs ---------- */

  ghost predicate Step(c: Config, s: State, e: Event, t: State) {
    Enabled(c, s, e) && t == Next(c, s, e)
  }

  ghost function Steps(c: Config): (State, Event, State) -> bool {
    (s, e, t) => Step(c, s, e, t)
  }

  ghost predicate Run(c: Config, states: seq<State>, events: seq<Event>) {
    Runs.Run(START, Steps(c), states, events)
  }

  /** The invariant holds in every state of every run. */
  lemma RunKeepsInv(c: Config, states: seq<State>, events: seq<Event>, i: nat)
    requires Run(c, states, events) && i < |states|
    ensures Inv(c, states[i])
  {
    var inv := (s: State) => Inv(c, s);
    forall s: State, e: Event, t: State | inv(s) && Steps(c)(s, e, t) ensures inv(t) {
      StepKeepsInv(c, s, e);
    }
    Runs.Stays(START, Steps(c), inv, states, events, 0, i);
  }

  /** The reader of this slot was stopped among the first n events. */
  ghost predicate Left(events: seq<Event>, n: nat, u: nat)
    requires n <= |events|
  {
    exists k :: 0 <= k < n && events[k] == Leave(u)
  }

  lemma LeftOneMore(events: seq<Event>, n: nat, u: nat)
    requires n < |events|
    ensures Left(events, n + 1, u) <==> Left(events, n, u) || events[n] == Leave(u)
  {
  }

  lemma TravelStopsNobody(c: Config, s: State, v: nat, u: nat)
    requires v in s.readers && s.readers[v].position != Gone && !Over(s.phase)
    ensures At(Travel(c, s, v), u, Gone) <==> At(s, u, Gone)
  {
  }

  lemma OthersStopNobody(c: Config, s: State, e: Event, u: nat)
    requires Enabled(c, s, e) && !e.Spawn? && !e.BeforeJourney? && !e.Resume? && !e.ParkedWaitOver? && !e.Leave?
    ensures At(Next(c, s, e), u, Gone) <==> At(s, u, Gone)
  {
  }

  lemma GoneAfterStep(c: Config, s: State, e: Event, u: nat)
    requires Inv(c, s) && Enabled(c, s, e) && !Over(s.phase)
    ensures At(Next(c, s, e), u, Gone) <==> At(s, u, Gone) || e == Leave(u)
    ensures e == Leave(u) ==> u in s.readers
  {
    match e
    case Spawn =>
    case BeforeJourney(v) => TravelStopsNobody(c, s, v, u);
    case Resume(v) => TravelStopsNobody(c, s, v, u);
    case ParkedWaitOver =>
    case Leave(_) =>
    case _ => OthersStopNobody(c, s, e, u);
  }

  lemma GoneNext(c: Config, s: State, e: Event, t: State, events: seq<Event>, n: nat, u: nat)
    requires Inv(c, s) && Step(c, s, e, t) && !Over(s.phase) && n < |events| && events[n] == e
    requires At(s, u, Gone) <==> Left(events, n, u)
    ensures At(t, u, Gone) <==> Left(events, n + 1, u)
  {
    GoneAfterStep(c, s, e, u);
    LeftOneMore(events, n, u);
  }

  lemma GoneInTheNext(c: Config, states: seq<State>, events: seq<Event>, i: nat, u: nat)
    requires Run(c, states, events) && i < |events| && !Over(states[i].phase)
    requires At(states[i], u, Gone) <==> Left(events, i, u)
    ensures At(states[i + 1], u, Gone) <==> Left(events, i + 1, u)
  {
    RunKeepsInv(c, states, events, i);
    OneStep(c, states, events, i);
    GoneNext(c, states[i], events[i], states[i + 1], events, i, u);
  }

  lemma {:induction false} GoneIffLeft(c: Config, states: seq<State>, events: seq<Event>, i: nat, u: nat)
    requires Run(c, states, events) && i < |states| && forall k | 0 <= k < i :: !Over(states[k].phase)
    ensures At(states[i], u, Gone) <==> Left(events, i, u)
  {
    if i > 0 {
      GoneIffLeft(c, states, events, i - 1, u);
      GoneInTheNext(c, states, events, i - 1, u);
    }
  }

  ghost function Past(): State -> bool {
    (s: State) => s.controller == Dead || s.released
  }

  lemma StaysPast(c: Config, s: State, e: Event)
    requires Enabled(c, s, e) && (s.controller == Dead || s.released)
    ensures Next(c, s, e).controller == Dead || Next(c, s, e).released
  {
    if e.BeforeJourney? || e.Resume? || e.FinishRequest? {
      assert Next(c, s, e).controller == s.controller && Next(c, s, e).released == s.released;
    } else if !e.ParkedWaitOver? {
      OtherStepsKeepSamples(c, s, e);
      if s.controller == Dead {
        DeadStaysDead(c, s, e);
      }
    }
  }

  lemma DeadStaysDead(c: Config, s: State, e: Event)
    requires Enabled(c, s, e) && s.controller == Dead && !e.BeforeJourney? && !e.Resume?
    ensures Next(c, s, e).controller == Dead
  {
  }

  lemma PastIsKept(c: Config)
    ensures Runs.Kept(Steps(c), Past())
  {
    forall s: State, e: Event, t: State | Past()(s) && Steps(c)(s, e, t) ensures Past()(t) {
      StaysPast(c, s, e);
    }
  }

  /** Warmup starts only when every requested reader is there and has finished its bootstrap. */
  lemma WarmupFollowsBootstrap(c: Config, states: seq<State>, events: seq<Event>, i: nat, u: nat)
    requires Run(c, states, events) && i < |events| && u < c.users
    requires states[i].phase != Warmup && states[i + 1].phase == Warmup
    ensures u in states[i].readers && u in states[i].readyUsers && !At(states[i], u, Booting)
  {
    RunKeepsInv(c, states, events, i);
    OneStep(c, states, events, i);
    OnlyReadinessWarms(c, states[i], events[i]);
    SlotsBelow(states[i].readyUsers, |states[i].readers|);
  }

  lemma OnlyReadinessWarms(c: Config, s: State, e: Event)
    requires Enabled(c, s, e) && s.phase != Warmup && Next(c, s, e).phase == Warmup
    ensures e.ReadyWaitOver? && s.ready
  {
  }

  /** A controller that has opened the window or died does not wait for the barrier again. */
  lemma EarlierPhases(c: Config, states: seq<State>, events: seq<Event>, i: nat, k: nat)
    requires Run(c, states, events) && k <= i < |states| && states[i].controller == AwaitingParked
    ensures !Over(states[k].phase)
  {
    RunKeepsInv(c, states, events, i);
    RunKeepsInv(c, states, events, k);
    PastIsKept(c);
    if Past()(states[k]) {
      Runs.Stays(START, Steps(c), Past(), states, events, k, i);
    }
  }

  /**
   The step that enters the measurement resets every requested reader. It finds a reader parked exactly when it was
   not stopped before: the barrier goes on counting those that were.
   */
  lemma MeasurementStartsFromParkedReaders(c: Config, states: seq<State>, events: seq<Event>, i: nat, u: nat)
    requires Run(c, states, events) && i < |events| && u < c.users
    requires states[i].phase != Measurement && states[i + 1].phase == Measurement
    ensures if Left(events, i, u) then At(states[i], u, Gone) else At(states[i], u, Parked)
    ensures states[i].readers[u].request.None?
    ensures u in states[i + 1].readers && states[i + 1].readers[u].measured && states[i + 1].readers[u].journeys == []
    ensures states[i + 1].samples == []
  {
    RunKeepsInv(c, states, events, i);
    OneStep(c, states, events, i);
    OnlyReleaseMeasures(c, states[i], events[i]);
    BarrierHolds(c, states[i]);
    forall k | 0 <= k < i ensures !Over(states[k].phase) {
      EarlierPhases(c, states, events, i, k);
    }
    GoneIffLeft(c, states, events, i, u);
  }

  /** A reader that is stopped at the barrier is still counted: the measurement can start without any reader. */
  lemma MeasurementCanStartEmpty(c: Config) returns (states: seq<State>, events: seq<Event>)
    requires c.users == 1
    ensures Run(c, states, events) && |states| == 9 && states[7].phase != Measurement
    ensures states[8].phase == Measurement && states[8].readers.Keys == {0} && At(states[8], 0, Gone)
  {
    events := [Spawn, BootstrapComplete(0), SpawningComplete(1), ReadyWaitOver, WarmupOver, BeforeJourney(0), Leave(0),
               ParkedWaitOver];
    var s1 := Solitary(Ramping, Unstarted, false, false, false, Reset(c, 0, false, NEWCOMER));
    var s2 := Solitary(Ramping, Unstarted, true, false, false, s1.readers[0].(position := Between));
    var s3 := Solitary(Ramping, AwaitingReady, true, false, false, s2.readers[0]);
    var s4 := Solitary(Warmup, Warming, true, false, false, s2.readers[0]);
    var s5 := Solitary(Draining, AwaitingParked, true, false, false, s2.readers[0]);
    var s6 := Solitary(Draining, AwaitingParked, true, true, false, s2.readers[0].(position := Parked));
    var s7 := Solitary(Draining, AwaitingParked, true, true, false, s2.readers[0].(position := Gone));
    var s8 := Solitary(Measurement, Measuring, true, true, true, Reset(c, 0, true, s7.readers[0]));
    states := [START, s1, s2, s3, s4, s5, s6, s7, s8];
    SolitarySteps(c, s1, s2, s3, s4);
    SolitaryBarrier(c, s4, s5, s6, s7, s8);
    forall i | 0 <= i < |events| ensures Steps(c)(states[i], events[i], states[i + 1]) {
    }
  }

  /** One reader, and no requests. */
  function Solitary(phase: Phase, controller: Controller, ready: bool, parked: bool, released: bool, r: Reader): State {
    State(phase, controller, if ready then {0} else {}, if parked then {0} else {}, ready, parked, released,
          map[0 := r], [], 0, false)
  }

  lemma SolitarySteps(c: Config, s1: State, s2: State, s3: State, s4: State)
    requires c.users == 1 && s1 == Solitary(Ramping, Unstarted, false, false, false, Reset(c, 0, false, NEWCOMER))
    requires s2 == Solitary(Ramping, Unstarted, true, false, false, s1.readers[0].(position := Between))
    requires s3 == Solitary(Ramping, AwaitingReady, true, false, false, s2.readers[0])
    requires s4 == Solitary(Warmup, Warming, true, false, false, s2.readers[0])
    ensures Step(c, START, Spawn, s1) && Step(c, s1, BootstrapComplete(0), s2)
    ensures Step(c, s2, SpawningComplete(1), s3) && Step(c, s3, ReadyWaitOver, s4)
  {
    assert {} + {0} == {0} && |{0}| == 1;
    assert s2.readers == s1.readers[0 := s2.readers[0]];
  }

  lemma SolitaryBarrier(c: Config, s4: State, s5: State, s6: State, s7: State, s8: State)
    requires c.users == 1 && 0 in s4.readers && s4.readers[0].position == Between && s4.readers[0].request.None?
    requires s4 == Solitary(Warmup, Warming, true, false, false, s4.readers[0])
    requires s5 == Solitary(Draining, AwaitingParked, true, false, false, s4.readers[0])
    requires s6 == Solitary(Draining, AwaitingParked, true, true, false, s4.readers[0].(position := Parked))
    requires s7 == Solitary(Draining, AwaitingParked, true, true, false, s4.readers[0].(position := Gone))
    requires s8 == Solitary(Measurement, Measuring, true, true, true, Reset(c, 0, true, s7.readers[0]))
    ensures Step(c, s4, WarmupOver, s5) && Step(c, s5, BeforeJourney(0), s6) && Step(c, s6, Leave(0), s7)
    ensures Step(c, s7, ParkedWaitOver, s8)
  {
    assert {} + {0} == {0} && |{0}| == 1;
    assert s6.readers == s5.readers[0 := s6.readers[0]] && s7.readers == s6.readers[0 := s7.readers[0]];
    assert Failures([]) == 0;
  }

  lemma OneStep(c: Config, states: seq<State>, events: seq<Event>, i: nat)
    requires Run(c, states, events) && i < |events|
    ensures Step(c, states[i], events[i], states[i + 1])
  {
    assert Steps(c)(states[i], events[i], states[i + 1]);
  }

  /** Once the window has opened, every retained sample belongs to a request begun after the release. */
  lemma RetainedSamplesAreMeasured(c: Config, states: seq<State>, events: seq<Event>, i: nat, k: nat)
    requires Run(c, states, events) && i < |states| && k < |states[i].samples|
    requires states[i].phase == Measurement || states[i].phase == Stopping || states[i].phase == Finished
    ensures states[i].samples[k].afterRelease
  {
    RunKeepsInv(c, states, events, i);
  }

  /** A run that reaches "finished" slept the whole measurement between the release and the stop. */
  lemma FinishedAfterFullWindow(c: Config, states: seq<State>, events: seq<Event>, i: nat)
    returns (start: nat, finish: nat)
    requires Run(c, states, events) && i < |states| && states[i].phase == Finished
    ensures start < finish < i && events[start].ParkedWaitOver? && states[start].parked
    ensures events[finish].MeasurementOver? && forall j | start < j <= finish :: states[j].controller == Measuring
  {
    RunKeepsInv(c, states, events, i);
    finish := Runs.SwitchedOn(START, Steps(c), (s: State) => s.slept, states, events, i);
    OnlySleepSleeps(c, states[finish], events[finish]);
    start := WindowOpened(c, states, events, finish);
  }

  lemma WindowOpened(c: Config, states: seq<State>, events: seq<Event>, i: nat) returns (start: nat)
    requires Run(c, states, events) && i < |states| && states[i].controller == Measuring
    ensures start < i && events[start].ParkedWaitOver? && states[start].parked
    ensures forall j | start < j <= i :: states[j].controller == Measuring
  {
    start := Runs.SwitchedOn(START, Steps(c), (s: State) => s.controller == Measuring, states, events, i);
    OnlyReleaseMeasures(c, states[start], events[start]);
  }

  /** The phase half of quality_gate. */
  predicate GatePasses(s: State) {
    s.phase == Finished && s.warmupFailures == 0
  }

  /** A passing run measured its full window, on requests begun inside it. */
  lemma PassingRunMeasuredItsWindow(c: Config, states: seq<State>, events: seq<Event>, i: nat)
    requires Run(c, states, events) && i < |states| && GatePasses(states[i])
    ensures states[i].slept && forall k | 0 <= k < |states[i].samples| :: states[i].samples[k].afterRelease
  {
    RunKeepsInv(c, states, events, i);
  }

  /** Failures of ramp and warmup survive the statistics reset and fail the gate. */
  lemma WarmupFailuresFailTheGate(c: Config, states: seq<State>, events: seq<Event>, k: nat, i: nat)
    requires Run(c, states, events) && k < i < |states| && !states[k].released
    requires events[k].FinishRequest? && !events[k].ok
    ensures EarlyFailures(states[i]) > 0 && !GatePasses(states[i])
  {
    RunKeepsInv(c, states, events, k);
    OneStep(c, states, events, k);
    FinishCounts(c, states[k], events[k].slot, events[k].ok);
    StepKeepsInv(c, states[k], events[k]);
    FailedEarlyStays(c);
    Runs.Stays(START, Steps(c), FailedEarly(c), states, events, k + 1, i);
  }

  ghost function FailedEarly(c: Config): State -> bool {
    s => Inv(c, s) && EarlyFailures(s) > 0
  }

  lemma FailedEarlyStays(c: Config)
    ensures Runs.Kept(Steps(c), FailedEarly(c))
  {
    forall s: State, e: Event, t: State | FailedEarly(c)(s) && Steps(c)(s, e, t) ensures FailedEarly(c)(t) {
      StepKeepsInv(c, s, e);
      FailuresAreKept(c, s, e);
    }
  }

  lemma RunKeepsStreams(c: Config, states: seq<State>, events: seq<Event>, i: nat)
    requires Run(c, states, events) && i < |states|
    ensures StreamsOk(c, states[i])
  {
    var inv := (s: State) => StreamsOk(c, s);
    forall s: State, e: Event, t: State | inv(s) && Steps(c)(s, e, t) ensures inv(t) {
      StepKeepsStreams(c, s, e);
    }
    Runs.Stays(START, Steps(c), inv, states, events, 0, i);
  }

  /** Two runs with one seed measure, slot by slot, the same journeys in the same order. */
  lemma MeasuredJourneysAreRepeatable(c: Config, xs: seq<State>, xe: seq<Event>, i: nat,
                                      d: Config, ys: seq<State>, ye: seq<Event>, j: nat, u: nat)
    requires Run(c, xs, xe) && i < |xs| && xs[i].released && u in xs[i].readers
    requires Run(d, ys, ye) && j < |ys| && ys[j].released && u in ys[j].readers
    requires c.seed == d.seed && c.seeded == d.seeded && c.draw == d.draw
    ensures var x, y := xs[i].readers[u].journeys, ys[j].readers[u].journeys; x <= y || y <= x
  {
    RunKeepsInv(c, xs, xe, i);
    RunKeepsInv(d, ys, ye, j);
    var x, y := xs[i].readers[u], ys[j].readers[u];
    assert ReaderOk(xs[i], u, x) && ReaderOk(ys[j], u, y);
    RunKeepsStreams(c, xs, xe, i);
    RunKeepsStreams(d, ys, ye, j);
    assert OnStream(c, u, x) && OnStream(d, u, y);
    var start := c.seeded(c.seed, u, true, Journeys);
    if |x.journeys| <= |y.journeys| {
      DrawnPrefix(c.draw, start, |x.journeys|, |y.journeys|);
    } else {
      DrawnPrefix(c.draw, start, |y.journeys|, |x.journeys|);
    }
  }

  /* ---------- the objects themselves ---------- */

  /** MeasurementWindow with the readers and statistics it works on; each method is one segment between yields. */
  class Window {
    const config: Config
    var phase: Phase
    var greenlet: Controller
    var readyUsers: set<nat>
    var parkedUsers: set<nat>
    var ready: bool
    var parked: bool
    var released: bool
    var readers: map<nat, Reader>
    var samples: seq<Sample>
    var warmupFailures: nat
    var slept: bool

    function View(): State
      reads this
    {
      State(phase, greenlet, readyUsers, parkedUsers, ready, parked, released, readers, samples, warmupFailures, slept)
    }

    constructor (config: Config)
      ensures this.config == config && View() == START
    {
      this.config := config;
      phase, greenlet := Ramping, Unstarted;
      readyUsers, parkedUsers := {}, {};
      ready, parked, released, slept := false, false, false, false;
      readers, samples, warmupFailures := map[], [], 0;
    }

    method BootstrapComplete(slot: nat)
      requires Enabled(config, View(), Event.BootstrapComplete(slot))
      modifies this
      ensures View() == Next(config, old(View()), Event.BootstrapComplete(slot))
    {
      readyUsers := readyUsers + {slot};
      if |readyUsers| == config.users {
        ready := true;
      }
      readers := readers[slot := readers[slot].(position := Between)];
    }

    method BeforeJourney(slot: nat)
      requires Enabled(config, View(), Event.BeforeJourney(slot))
      modifies this
      ensures View() == Next(config, old(View()), Event.BeforeJourney(slot))
    {
      if phase == Draining {
        parkedUsers := parkedUsers + {slot};
        if |parkedUsers| == config.users {
          parked := true;
        }
        readers := readers[slot := readers[slot].(position := Parked)];
      } else {
        Journey(slot);
      }
    }

    /** The rest of before_journey and the choice that follows it. */
    method Journey(slot: nat)
      requires slot in readers
      modifies this
      ensures View() == Travel(config, old(View()), slot)
    {
      if Over(phase) {
        readers := readers[slot := readers[slot].(position := Gone)];
        return;
      }
      var reader := readers[slot];
      var choice, generator := config.draw(reader.journeyRandom).0, config.draw(reader.journeyRandom).1;
      readers := readers[slot :=
        reader.(position := Travelling, journeys := reader.journeys + [choice], journeyRandom := generator)];
    }

    method SpawningComplete(count: nat)
      modifies this
      ensures View() == Next(config, old(View()), Event.SpawningComplete(count))
    {
      if count == config.users && greenlet == Unstarted {
        greenlet := AwaitingReady;
      }
    }

    method ReadyWaitOver()
      requires greenlet == AwaitingReady
      modifies this
      ensures View() == Next(config, old(View()), Event.ReadyWaitOver)
    {
      if !ready {
        phase, greenlet := Failed, Dead;
        return;
      }
      phase, greenlet := Warmup, Warming;
    }

    /** begin_measurement for one reader after another. */
    method BeginMeasurement()
      requires forall u: nat :: u in readers <==> u < |readers|
      modifies `readers
      ensures readers == map u | u in old(readers) :: Reset(config, u, true, old(readers)[u])
    {
      ghost var before := readers;
      var n := |readers|;
      for i := 0 to n
        invariant readers.Keys == before.Keys
        invariant forall u | u in before :: readers[u] == if u < i then Reset(config, u, true, before[u]) else before[u]
      {
        readers := readers[i := Reset(config, i, true, readers[i])];
      }
    }

    /** Resets the readers, then the statistics, and opens the window. */
    method ParkedWaitOver()
      requires greenlet == AwaitingParked && forall u: nat :: u in readers <==> u < |readers|
      modifies this
      ensures View() == Next(config, old(View()), Event.ParkedWaitOver)
    {
      if !parked {
        phase, greenlet := Failed, Dead;
        return;
      }
      BeginMeasurement();
      warmupFailures := Failures(samples);
      samples := [];
      phase, released, greenlet := Measurement, true, Measuring;
    }

    method MeasurementOver()
      requires greenlet == Measuring
      modifies this
      ensures View() == Next(config, old(View()), Event.MeasurementOver)
    {
      slept := true;
      phase, greenlet := Stopping, Quitting;
    }

    method Stop(byController: bool)
      requires byController ==> greenlet == Quitting
      modifies this
      ensures View() == Next(config, old(View()), TestStop(byController))
    {
      if phase == Stopping {
        phase := Finished;
      }
      if greenlet != Unstarted && !byController {
        greenlet := Dead;
      }
    }
  }
}

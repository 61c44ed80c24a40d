/** Whole runs of the host helper: requests, operations, deaths and restarts in any
    order, every step with any fate. */
module HostRuns {
  import opened Options
  import opened HostOperations

  /** The host, whether a helper runs, the operation its worker thread has, the catalog
      the helper loaded when it started, and every release of a catalog loaded so far. */
  datatype World = World(
    host: Host, running: bool, pending: Option<Operation>, catalog: Catalog, approved: set<Release>)

  /** A helper may be started with another catalog each time. */
  datatype Event =
    | Call(request: Request, save: Fate, thread: Fate)
    | Work(fates: Fates)
    | Stop
    | Restarted(catalog: Catalog)

  const EMPTY_WORLD := World(Host(INITIAL_STATE, None, None, None, None, 0, 0), false, None, [], {})

  function AfterCall(w: World, s: Start): World {
    match s.response
    case Refused => w.(host := s.host)
    case Accepted(op) => w.(host := s.host, pending := Some(op))
    case Lost => w.(host := s.host, running := false, pending := None)
  }

  function AfterWork(w: World, r: Run): World {
    w.(host := r.host, running := !r.outcome.Died?, pending := None)
  }

  function Step(w: World, e: Event): World {
    match e
    case Call(q, save, thread) =>
      if w.running then AfterCall(w, Begin(w.catalog, w.host, q, save, thread)) else w
    case Work(f) =>
      if w.running && w.pending.Some? then AfterWork(w, Perform(w.catalog, w.host, w.pending.value, f)) else w
    case Stop => w.(running := false, pending := None)
    case Restarted(catalog) =>
      if w.running then w
      else World(Boot(w.host), true, None, catalog, w.approved + set r | r in catalog)
  }

  function Exec(w: World, events: seq<Event>): World
    decreases |events|
  {
    if events == [] then w else Exec(Step(w, events[0]), events[1..])
  }

  // -------------------------------------------------------------- invariants

  /** Verified says there is a current version; a ready helper has one, an absent
      one has none; a version to go back to was verified. */
  predicate Recorded(s: State) {
    && (s.verified <==> s.current.Some?)
    && (s.phase.Ready? ==> s.current.Some?) && (s.phase.Absent? ==> s.current.None?)
    && (s.previous.Some? ==> s.previous.value.verified && s.previous.value.current.Some?)
  }

  /** A state that says ready or absent says what is so. */
  predicate Agrees(h: Host, s: State) {
    && (s.phase.Ready? && s.current.Some? ==>
          && h.container == Some(Deployed(s.current.value, s.settings))
          && h.settingsFile == Some(s.settings) && h.compose == Some(Compose(s.current.value, s.settings.cuda)))
    && (s.phase.Absent? ==> h.container.None?)
  }

  /** Settings that ask for the GPU go with an image that was approved for it. */
  predicate Fits(approved: set<Release>, image: Option<Image>, s: Settings) {
    s.cuda && image.Some? ==> Release(image.value, true) in approved
  }

  predicate Fitting(approved: set<Release>, s: State) {
    && Fits(approved, s.current, s.settings)
    && (s.previous.Some? ==> Fits(approved, s.previous.value.current, s.previous.value.settings))
  }

  predicate SoundContainer(approved: set<Release>, h: Host) {
    h.container.Some? ==>
      var c := h.container.value;
      h.compose.Some? && c.gpu == c.settings.cuda && Fits(approved, Some(c.image), c.settings)
  }

  predicate Sound(approved: set<Release>, h: Host, s: State) {
    Recorded(s) && Agrees(h, s) && Fitting(approved, s)
  }

  predicate LockInv(w: World) {
    if w.pending.None? then w.host.acquired == w.host.released
    else
      && w.host.acquired == w.host.released + 1 && w.host.state.phase.Working?
      && w.host.stateFile == Some(w.host.state) && Allowed(w.catalog, w.host.state, w.pending.value)
  }

  predicate Loads(catalog: Catalog, approved: set<Release>) { forall r | r in catalog :: r in approved }

  predicate Inv(w: World) {
    && SoundContainer(w.approved, w.host) && Sound(w.approved, w.host, Loaded(w.host.stateFile))
    && Loads(w.catalog, w.approved) && (w.running ==> Sound(w.approved, w.host, w.host.state) && LockInv(w))
  }

  /** A request turned away leaves state, files and container alone. */
  lemma TurnedAway(catalog: Catalog, h: Host, q: Request, save: Fate, thread: Fate)
    requires q.Malformed? || Held(h) || !Allowed(catalog, h.state, q.operation)
    ensures var b := Begin(catalog, h, q, save, thread);
            && b.response.Refused? && b.host == h.(acquired := b.host.acquired, released := b.host.released)
            && b.host.acquired - b.host.released == h.acquired - h.released
  {
  }

  /** An allowed request makes the state working, in memory and, if it is accepted, on
      file, and keeps the lock exactly if it is accepted. */
  lemma TakenUp(catalog: Catalog, h: Host, op: Operation, save: Fate, thread: Fate)
    requires !Held(h) && Allowed(catalog, h.state, op)
    ensures var b := Begin(catalog, h, Asked(op), save, thread); var s := h.state.(phase := Working, error := None);
            && b.host == h.(state := s, stateFile := b.host.stateFile, acquired := h.acquired + 1,
                            released := b.host.released)
            && (b.host.stateFile == h.stateFile || b.host.stateFile == Some(s))
            && (b.response.Accepted? ==> b.response.operation == op && b.host.stateFile == Some(s))
            && (b.response.Refused? ==> b.host.released == h.released + 1)
            && (!b.response.Refused? ==> b.host.released == h.released)
  {
  }

  lemma BeginKeepsInv(w: World, q: Request, save: Fate, thread: Fate)
    requires Inv(w) && w.running
    ensures Inv(AfterCall(w, Begin(w.catalog, w.host, q, save, thread)))
  {
    if q.Malformed? || Held(w.host) || !Allowed(w.catalog, w.host.state, q.operation) {
      TurnedAway(w.catalog, w.host, q, save, thread);
    } else {
      TakenUp(w.catalog, w.host, q.operation, save, thread);
    }
  }

  lemma UninstallSound(catalog: Catalog, approved: set<Release>, h: Host, f: Fates)
    requires SoundContainer(approved, h) && Sound(approved, h, h.state)
    ensures var r := Attempt(catalog, h, Uninstall, f);
            && SoundContainer(approved, r.host) && r.host.stateFile == h.stateFile
            && r.host.acquired == h.acquired && r.host.released == h.released
            && (r.outcome.Done? ==> Sound(approved, r.host, r.host.state))
            && (!r.outcome.Done? ==> r.host.state == h.state)
  {
  }

  /** The target of an allowed operation fits the settings it is to run with. */
  lemma TargetFits(catalog: Catalog, approved: set<Release>, s: State, op: Operation)
    requires Recorded(s) && Fitting(approved, s) && Loads(catalog, approved) && Allowed(catalog, s, op)
    ensures Fits(approved, Target(catalog, s, op).0, Target(catalog, s, op).1)
  {
  }

  lemma PromotedSound(approved: set<Release>, h: Host, s: State, op: Operation, image: Image, settings: Settings)
    requires Recorded(s) && Fitting(approved, s) && Fits(approved, Some(image), settings)
    requires h.container == Some(Deployed(image, settings)) && h.settingsFile == Some(settings)
    requires h.compose == Some(Compose(image, settings.cuda))
    ensures Sound(approved, h, Promoted(s, op, image, settings))
  {
  }

  /** What an attempt leaves behind is sound, if it did not die. */
  lemma AttemptSound(catalog: Catalog, approved: set<Release>, h: Host, op: Operation, f: Fates)
    requires SoundContainer(approved, h) && Sound(approved, h, h.state) && Loads(catalog, approved)
    requires h.state.phase.Working? && Allowed(catalog, h.state, op)
    ensures var r := Attempt(catalog, h, op, f);
            && SoundContainer(approved, r.host) && r.host.stateFile == h.stateFile
            && r.host.acquired == h.acquired && r.host.released == h.released
            && (r.outcome.Done? ==> Sound(approved, r.host, r.host.state))
            && (!r.outcome.Done? ==> r.host.state == h.state)
  {
    if op.Uninstall? {
      UninstallSound(catalog, approved, h, f);
    } else {
      TargetFits(catalog, approved, h.state, op);
      var (image, settings) := Target(catalog, h.state, op);
      if image.Some? {
        var r := Activate(h, image.value, settings, Pulls(h.state, op, image.value), f.work);
        if r.outcome.Done? { PromotedSound(approved, r.host, h.state, op, image.value, settings); }
      }
    }
  }

  /** What a recovery leaves behind, whatever became of it. */
  lemma RecoverSound(approved: set<Release>, h: Host, was: Saved, f: Fates)
    requires SoundContainer(approved, h) && Fits(approved, was.current, was.settings)
    ensures var r := Recover(h, was, f);
            && SoundContainer(approved, r.host)
            && r.host.(settingsFile := h.settingsFile, compose := h.compose, container := h.container) == h
            && (r.outcome.Done? && was.current.Some? ==>
                  && r.host.container == Some(Deployed(was.current.value, was.settings))
                  && r.host.settingsFile == Some(was.settings)
                  && r.host.compose == Some(Compose(was.current.value, was.settings.cuda)))
  {
  }

  /** The state after a failure is sound, given what the recovery came to. */
  lemma RestoredSound(approved: set<Release>, h: Host, s: State, recovered: bool)
    requires Recorded(s) && Fitting(approved, s) && (recovered ==> s.current.Some?)
    requires recovered ==>
               && h.container == Some(Deployed(s.current.value, s.settings))
               && h.settingsFile == Some(s.settings) && h.compose == Some(Compose(s.current.value, s.settings.cuda))
    ensures Sound(approved, h, Restored(s, Old(s), recovered))
  {
  }

  lemma HandledSound(catalog: Catalog, approved: set<Release>, h: Host, op: Operation, f: Fates)
    requires SoundContainer(approved, h) && Sound(approved, h, h.state) && Loads(catalog, approved)
    requires h.state.phase.Working? && Allowed(catalog, h.state, op)
    ensures var r := Handled(catalog, h, op, f);
            && SoundContainer(approved, r.host) && r.host.stateFile == h.stateFile && !r.outcome.Raised?
            && (r.outcome.Done? ==> Sound(approved, r.host, r.host.state))
            && r.host.acquired == h.acquired && r.host.released == h.released
  {
    AttemptSound(catalog, approved, h, op, f);
    var r := Attempt(catalog, h, op, f);
    if r.outcome.Raised? {
      var was := Old(h.state);
      RecoverSound(approved, r.host, was, f);
      var back := Recover(r.host, was, f);
      var after := back.host.(state := Restored(h.state, was, was.current.Some? && back.outcome.Done?));
      RestoredSound(approved, after, h.state, was.current.Some? && back.outcome.Done?);
    }
  }

  lemma PerformKeepsInv(w: World, f: Fates)
    requires Inv(w) && w.running && w.pending.Some?
    ensures Inv(AfterWork(w, Perform(w.catalog, w.host, w.pending.value, f)))
  {
    HandledSound(w.catalog, w.approved, w.host, w.pending.value, f);
  }

  lemma RestartKeepsInv(w: World, catalog: Catalog)
    requires Inv(w)
    ensures Inv(Step(w, Restarted(catalog)))
  {
    assert Step(w, Restarted(catalog)).approved >= w.approved;
  }

  lemma StepKeepsInv(w: World, e: Event)
    requires Inv(w)
    ensures Inv(Step(w, e))
  {
    match e
    case Call(q, save, thread) => if w.running { BeginKeepsInv(w, q, save, thread); }
    case Work(f) => if w.running && w.pending.Some? { PerformKeepsInv(w, f); }
    case Stop =>
    case Restarted(catalog) => RestartKeepsInv(w, catalog);
  }

  lemma {:induction false} ExecKeepsInv(w: World, events: seq<Event>)
    requires Inv(w)
    ensures Inv(Exec(w, events))
    decreases |events|
  {
    if events != [] {
      StepKeepsInv(w, events[0]);
      ExecKeepsInv(Step(w, events[0]), events[1..]);
    }
  }

  // ---------------------------------------------------------------- theorems

  /** What a helper reports, and what the next one would report, is so, whichever
      catalogs were loaded along the way: ready means verified, a current version, and
      a container running exactly that version with exactly those settings, which are
      also the ones on disk; absent means no container. A container on the GPU runs an
      image that some catalog approved for it. */
  lemma {:induction false} StateAgreesWithDeployment(events: seq<Event>)
    ensures var w := Exec(EMPTY_WORLD, events); var h := w.host;
            && (forall s: State | (w.running && s == h.state) || s == Loaded(h.stateFile) ::
                  && (s.phase.Ready? ==>
                        && s.verified && s.current.Some? && h.settingsFile == Some(s.settings)
                        && h.container == Some(Container(s.current.value, s.settings.cuda, s.settings)))
                  && (s.phase.Absent? ==> h.container.None?))
            && (h.container.Some? && h.container.value.gpu ==> Release(h.container.value.image, true) in w.approved)
  {
    ExecKeepsInv(EMPTY_WORLD, events);
  }

  /** A release counts as approved only if a catalog listed it. */
  lemma {:induction false} ApprovedWasListed(w: World, events: seq<Event>, r: Release)
    requires r in Exec(w, events).approved && r !in w.approved
    ensures exists e :: e in events && e.Restarted? && r in e.catalog
    decreases |events|
  {
    if events != [] {
      assert events[0] in events && forall e | e in events[1..] :: e in events;
      if r !in Step(w, events[0]).approved { ApprovedWasListed(Step(w, events[0]), events[1..], r); }
    }
  }

  /** One operation at a time, and the lock given back once for each: between
      operations it was released as often as taken, during one exactly once less,
      and then every request is refused and changes nothing. An idle helper accepts
      exactly the requests that are allowed in its state. */
  lemma {:induction false} LockIsBalanced(events: seq<Event>, q: Request, save: Fate, thread: Fate)
    ensures var w := Exec(EMPTY_WORLD, events);
            w.running ==>
              && w.host.acquired == w.host.released + (if w.pending.Some? then 1 else 0)
              && (w.pending.Some? ==> Step(w, Call(q, save, thread)) == w)
              && (w.pending.None? ==>
                    var r := Begin(w.catalog, w.host, q, Works, Works);
                    && (r.response.Accepted? <==> q.Asked? && Allowed(w.catalog, w.host.state, q.operation))
                    && (r.response.Accepted? ==> r.response.operation == q.operation)
                    && (!r.response.Accepted? ==>
                          r.response.Refused? && r.host.state == w.host.state && r.host.stateFile == w.host.stateFile))
  {
    ExecKeepsInv(EMPTY_WORLD, events);
  }

  /** Giving the lock back after a failed start leaves the phase at working with no
      operation behind it: exactly when an allowed request fails to save the state or
      to start its thread, and the process lives. */
  lemma {:induction false} StuckWorkingIff(events: seq<Event>, q: Request, save: Fate, thread: Fate)
    ensures var w := Exec(EMPTY_WORLD, events);
            w.running && w.pending.None? && !w.host.state.phase.Working? ==>
              var v := Step(w, Call(q, save, thread));
              v.running && v.pending.None? && v.host.state.phase.Working? <==>
                && q.Asked? && Allowed(w.catalog, w.host.state, q.operation)
                && (save.Raises? || (save.Works? && thread.Raises?))
  {
    ExecKeepsInv(EMPTY_WORLD, events);
  }

  /** It stays at working until the process ends or a later request gets its thread:
      those are the only events that lead out. */
  lemma {:induction false} StuckUntilNextOperation(events: seq<Event>, e: Event)
    ensures var w := Exec(EMPTY_WORLD, events);
            w.running && w.pending.None? && w.host.state.phase.Working? ==>
              var v := Step(w, e);
              || (v.running && v.pending.None? && v.host.state.phase.Working?)
              || !v.running
              || (e.Call? && v.pending.Some? && e.request == Asked(v.pending.value))
  {
    ExecKeepsInv(EMPTY_WORLD, events);
  }

  /** A helper that died within an operation comes back with the record the operation
      started from and says failed; only when the last save had landed does it come
      back with the finished operation. The catalog it comes back with has no say. */
  lemma {:induction false} DeathRollsBack(events: seq<Event>, f: Fates, catalog: Catalog)
    ensures var w := Exec(EMPTY_WORLD, events);
            w.running && w.pending.Some? && Perform(w.catalog, w.host, w.pending.value, f).outcome.Died? ==>
              var s := Step(Step(w, Work(f)), Restarted(catalog)).host.state;
              var done := Handled(w.catalog, w.host, w.pending.value, f);
              || s == w.host.state.(phase := Failed, error := Some(HelperStopped))
              || (done.outcome.Done? && s == done.host.state)
  {
    ExecKeepsInv(EMPTY_WORLD, events);
    var w := Exec(EMPTY_WORLD, events);
    if w.running && w.pending.Some? && Perform(w.catalog, w.host, w.pending.value, f).outcome.Died? {
      HandledSound(w.catalog, w.approved, w.host, w.pending.value, f);
      DeathKeepsFile(w.catalog, w.host, w.pending.value, f);
      if Handled(w.catalog, w.host, w.pending.value, f).outcome.Done? {
        HandledSettles(w.catalog, w.host, w.pending.value, f);
      }
    }
  }

  /** A finished operation is no longer working. */
  lemma HandledSettles(catalog: Catalog, h: Host, op: Operation, f: Fates)
    requires Handled(catalog, h, op, f).outcome.Done?
    ensures !Handled(catalog, h, op, f).host.state.phase.Working?
  {
  }

  /** A request and its operation. */
  function Did(w: World, op: Operation, f: Fates): World {
    Step(Step(w, Call(Asked(op), Works, Works)), Work(f))
  }

  /** The helper stopped and started again, once for each catalog. */
  function Resumed(w: World, catalogs: seq<Catalog>): World
    decreases |catalogs|
  {
    if catalogs == [] then w else Resumed(Step(Step(w, Stop), Restarted(catalogs[0])), catalogs[1..])
  }

  /** Restarts lose nothing that was saved, whatever catalogs they load. */
  lemma {:induction false} ResumedKeepsState(w: World, catalogs: seq<Catalog>)
    requires Inv(w) && w.running && w.pending.None? && !w.host.state.phase.Working?
    requires catalogs != [] ==> w.host.stateFile == Some(w.host.state)
    ensures var v := Resumed(w, catalogs);
            Inv(v) && v.running && v.pending.None? && v.host.state == w.host.state
                && v.host.container == w.host.container
    decreases |catalogs|
  {
    if catalogs != [] {
      StepKeepsInv(w, Stop);
      StepKeepsInv(Step(w, Stop), Restarted(catalogs[0]));
      ResumedKeepsState(Step(Step(w, Stop), Restarted(catalogs[0])), catalogs[1..]);
    }
  }

  /** The helper lives, reports no error, and has saved if it is to be restarted. */
  predicate WentWell(w: World, f: Fates, catalogs: seq<Catalog>) {
    w.running && w.host.state.error.None? && (catalogs != [] ==> f.save.Works?)
  }

  /** A rollback that left the helper running and without an error exchanges the
      version in force and the one to go back to. */
  lemma RollbackSwaps(w: World, f: Fates)
    requires Inv(w) && w.running && w.pending.None? && w.host.state.current.Some? && w.host.state.previous.Some?
    requires var v := Did(w, Rollback, f); v.running && v.host.state.error.None?
    ensures var s, v := w.host.state, Did(w, Rollback, f);
            && v.host.state.current == s.previous.value.current && v.host.state.settings == s.previous.value.settings
            && v.host.state.verified && v.host.state.previous == Some(Old(s)) && v.host.state.phase.Ready?
            && Inv(v) && v.pending.None? && (f.save.Works? ==> v.host.stateFile == Some(v.host.state))
  {
    StepKeepsInv(w, Call(Asked(Rollback), Works, Works));
    StepKeepsInv(Step(w, Call(Asked(Rollback), Works, Works)), Work(f));
  }

  /** Two rollbacks that leave no error bring back the version, the settings and the
      version to go back to, and the container runs them again: also when the helper
      was restarted with other catalogs in between. */
  lemma {:induction false} TwoRollbacksRestore(events: seq<Event>, f: Fates, catalogs: seq<Catalog>, f': Fates)
    ensures var w := Exec(EMPTY_WORLD, events);
            var once := Did(w, Rollback, f);
            var twice := Did(Resumed(once, catalogs), Rollback, f');
            w.running && w.pending.None? && w.host.state.current.Some? && w.host.state.previous.Some?
            && WentWell(once, f, catalogs) && WentWell(twice, f', []) ==>
              && Versions(twice.host.state) == Versions(w.host.state)
              && twice.host.container == Some(Deployed(w.host.state.current.value, w.host.state.settings))
  {
    ExecKeepsInv(EMPTY_WORLD, events);
    var w := Exec(EMPTY_WORLD, events);
    var once := Did(w, Rollback, f);
    if w.running && w.pending.None? && w.host.state.current.Some? && w.host.state.previous.Some?
       && WentWell(once, f, catalogs) {
      RollbackSwaps(w, f);
      ResumedKeepsState(once, catalogs);
      if WentWell(Did(Resumed(once, catalogs), Rollback, f'), f', []) { RollbackSwaps(Resumed(once, catalogs), f'); }
    }
  }

  /** Going back after an update or new settings that went well undoes them, also after
      restarts with other catalogs. */
  lemma {:induction false} RollbackUndoes(
      events: seq<Event>, op: Operation, f: Fates, catalogs: seq<Catalog>, f': Fates)
    requires op.Update? || op.Configure?
    ensures var w := Exec(EMPTY_WORLD, events);
            var once := Did(w, op, f);
            var twice := Did(Resumed(once, catalogs), Rollback, f');
            w.running && w.pending.None? && Allowed(w.catalog, w.host.state, op)
            && WentWell(once, f, catalogs) && WentWell(twice, f', []) ==>
              && w.host.state.current.Some?
              && twice.host.state.current == w.host.state.current && twice.host.state.settings == w.host.state.settings
              && twice.host.container == Some(Deployed(w.host.state.current.value, w.host.state.settings))
  {
    ExecKeepsInv(EMPTY_WORLD, events);
    var w := Exec(EMPTY_WORLD, events);
    var once := Did(w, op, f);
    if w.running && w.pending.None? && Allowed(w.catalog, w.host.state, op) && WentWell(once, f, catalogs) {
      ChangeRemembers(w, op, f);
      ResumedKeepsState(once, catalogs);
      if WentWell(Did(Resumed(once, catalogs), Rollback, f'), f', []) { RollbackSwaps(Resumed(once, catalogs), f'); }
    }
  }

  lemma ChangeRemembers(w: World, op: Operation, f: Fates)
    requires Inv(w) && w.running && w.pending.None? && Allowed(w.catalog, w.host.state, op)
             && (op.Update? || op.Configure?)
    requires var v := Did(w, op, f); v.running && v.host.state.error.None?
    ensures var v := Did(w, op, f);
            && w.host.state.current.Some? && v.host.state.current.Some?
               && v.host.state.previous == Some(Old(w.host.state))
            && v.host.state.phase.Ready? && Inv(v) && v.pending.None?
            && (f.save.Works? ==> v.host.stateFile == Some(v.host.state))
  {
    StepKeepsInv(w, Call(Asked(op), Works, Works));
    StepKeepsInv(Step(w, Call(Asked(op), Works, Works)), Work(f));
  }

  /** Fates under which nothing goes wrong. */
  predicate AllWell(f: Fates) {
    && f.checks.Works? && f.save.Works? && f.work.settings.Works? && f.work.compose.Works? && f.work.pull.Works?
    && f.work.up.Works? && f.down.Works? && Awaited(f.work.probes, 0).Done?
  }

  /** An operation without a mishap that has an image to run. */
  lemma GoodOperation(w: World, op: Operation, f: Fates)
    requires Inv(w) && w.running && w.pending.None? && Allowed(w.catalog, w.host.state, op) && AllWell(f)
    requires !op.Uninstall? && Target(w.catalog, w.host.state, op).0.Some?
    ensures var v, t := Did(w, op, f), Target(w.catalog, w.host.state, op);
            && Inv(v) && v.running && v.pending.None? && v.catalog == w.catalog
            && v.host.state.current == t.0 && v.host.state.settings == t.1 && v.host.state.phase.Ready?
            && v.host.state.error.None? && v.host.stateFile == Some(v.host.state)
            && v.host.state.previous ==
                 if w.host.state.current.Some? && !op.Install? && !op.Restart? then Some(Old(w.host.state))
                 else w.host.state.previous
  {
    StepKeepsInv(w, Call(Asked(op), Works, Works));
    StepKeepsInv(Step(w, Call(Asked(op), Works, Works)), Work(f));
  }

  /** Whatever happened before, one operation without a mishap brings an idle helper
      to ready: a restart when there is a version, else an install, if the catalog it
      was started with has an image for the device. */
  lemma {:induction false} OneGoodOperationRecovers(events: seq<Event>, f: Fates)
    requires AllWell(f)
    ensures var w := Exec(EMPTY_WORLD, events);
            var op := if w.host.state.current.Some? then Restart else Install;
            w.running && w.pending.None?
            && (w.host.state.current.Some? || Selected(w.catalog, w.host.state.settings.cuda).Some?) ==>
              var v := Did(w, op, f);
              && v.running && v.host.state.phase.Ready? && v.host.state.error.None?
              && v.host.stateFile == Some(v.host.state) && v.host.state.settings == w.host.state.settings
              && (w.host.state.current.Some? ==> v.host.state.current == w.host.state.current)
  {
    ExecKeepsInv(EMPTY_WORLD, events);
    var w := Exec(EMPTY_WORLD, events);
    var op := if w.host.state.current.Some? then Restart else Install;
    if w.running && w.pending.None?
       && (w.host.state.current.Some? || Selected(w.catalog, w.host.state.settings.cuda).Some?) {
      GoodOperation(w, op, f);
    }
  }

  /** A new release comes with a new catalog: a helper restarted with one that lists a
      later image for its device moves to it by an update, and can go back to the old
      image, which the catalog need no longer list. */
  lemma {:induction false} NewReleaseAndBack(events: seq<Event>, catalog: Catalog, f: Fates)
    requires AllWell(f)
    ensures var w := Exec(EMPTY_WORLD, events);
            w.running && w.pending.None? && w.host.state.phase.Ready? && w.host.stateFile == Some(w.host.state)
            && Selected(catalog, w.host.state.settings.cuda).Some? ==>
              var moved := Did(Resumed(w, [catalog]), Update, f);
              var back := Did(moved, Rollback, f);
              && moved.host.state.current == Selected(catalog, w.host.state.settings.cuda)
              && moved.host.state.phase.Ready? && back.host.state.phase.Ready?
              && back.host.state.current == w.host.state.current && back.host.state.settings == w.host.state.settings
              && back.host.state.previous.Some? && back.host.state.previous.value.current == moved.host.state.current
  {
    ExecKeepsInv(EMPTY_WORLD, events);
    var w := Exec(EMPTY_WORLD, events);
    if w.running && w.pending.None? && w.host.state.phase.Ready? && w.host.stateFile == Some(w.host.state)
       && Selected(catalog, w.host.state.settings.cuda).Some? {
      ResumedKeepsState(w, [catalog]);
      var there := Resumed(w, [catalog]);
      assert there.catalog == catalog by { assert [catalog][1..] == []; }
      GoodOperation(there, Update, f);
      GoodOperation(Did(there, Update, f), Rollback, f);
    }
  }
}

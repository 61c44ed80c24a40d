/** What one operation of the voice box's host helper does to its own state, its
    files, its lock and the container, when any step may fail or be the last one. */
module HostOperations {
  import opened Options

  type Image = string

  /** `device` apart, no setting decides anything here. */
  datatype Settings = Settings(cuda: bool, rest: nat)

  datatype Saved = Saved(current: Option<Image>, settings: Settings, verified: bool)

  datatype Phase = Absent | Working | Ready | Failed

  datatype Notice = HelperStopped | OperationFailed

  datatype State = State(
    phase: Phase, verified: bool, current: Option<Image>, previous: Option<Saved>, settings: Settings,
        error: Option<Notice>)

  const DEFAULTS := Settings(false, 0)
  const INITIAL_STATE := State(Absent, false, None, None, DEFAULTS, None)

  datatype Compose = Compose(image: Image, gpu: bool)

  /** A container keeps the settings that were mounted when it was created. */
  datatype Container = Container(image: Image, gpu: bool, settings: Settings)

  function Deployed(image: Image, s: Settings): Container { Container(image, s.cuda, s) }

  /** The helper's memory, its three files, the container of its project, and how
      often its lock was taken and released. */
  datatype Host = Host(
    state: State,
    stateFile: Option<State>, settingsFile: Option<Settings>, compose: Option<Compose>,
    container: Option<Container>,
    acquired: nat, released: nat)

  // ------------------------------------------------------ steps that may fail

  datatype Outcome = Done | Raised | Died

  /** A step works, raises, or is where the process dies; a file being replaced is
      then the new one or still the old one. */
  datatype Fate = Works | Raises | Dies(landed: bool)

  datatype Run = Run(host: Host, outcome: Outcome)

  function OutcomeOf(f: Fate): Outcome {
    match f case Works => Done case Raises => Raised case Dies(_) => Died
  }

  predicate Lands(f: Fate) { f.Works? || (f.Dies? && f.landed) }

  function SaveState(h: Host, f: Fate): Run {
    Run(if Lands(f) then h.(stateFile := Some(h.state)) else h, OutcomeOf(f))
  }

  function WriteSettings(h: Host, s: Settings, f: Fate): Run {
    Run(if Lands(f) then h.(settingsFile := Some(s)) else h, OutcomeOf(f))
  }

  function WriteCompose(h: Host, c: Compose, f: Fate): Run {
    Run(if Lands(f) then h.(compose := Some(c)) else h, OutcomeOf(f))
  }

  /** What a docker command that did not succeed has done to the container. */
  datatype Left = Untouched | Gone | Replaced

  /** `up --force-recreate`: from the compose file, with the settings file mounted. */
  function Up(h: Host, f: Fate, left: Left): Run
    requires h.compose.Some? && h.settingsFile.Some?
  {
    var made := Container(h.compose.value.image, h.compose.value.gpu, h.settingsFile.value);
    var container :=
      if f.Works? || left.Replaced? then Some(made) else if left.Gone? then None else h.container;
    Run(h.(container := container), OutcomeOf(f))
  }

  function Down(h: Host, f: Fate, left: Left): Run {
    Run(if f.Works? || !left.Untouched? then h.(container := None) else h, OutcomeOf(f))
  }

  datatype Probe = Healthy | Unhealthy | Breaks | Kills

  /** At most ninety health checks; the first healthy one ends the wait. */
  function Awaited(probes: nat -> Probe, i: nat): Outcome
    decreases 90 - i
  {
    if i >= 90 then Raised
    else
      match probes(i)
      case Healthy => Done
      case Unhealthy => Awaited(probes, i + 1)
      case Breaks => Raised
      case Kills => Died
  }

  /** How the steps of one activation go. */
  datatype Activation = Activation(settings: Fate, compose: Fate, pull: Fate, up: Fate, left: Left,
      probes: nat -> Probe)

  function SourceImage(image: Image): bool { |image| >= 7 && image[..7] == "sha256:" }

  function Pulled(h: Host, image: Image, pull: bool, f: Fate): Run {
    Run(h, if pull && !SourceImage(image) then OutcomeOf(f) else Done)
  }

  function Then(r: Run, o: Outcome): Run { if r.outcome.Done? then Run(r.host, o) else r }

  /** activate. Only the two files and the container change, the container only
      into one running the given image and settings; when it succeeds, that is
      what runs. */
  function Activate(h: Host, image: Image, s: Settings, pull: bool, a: Activation): (r: Run)
    ensures r.host.(settingsFile := h.settingsFile, compose := h.compose, container := h.container) == h
    ensures r.host.container in {h.container, None, Some(Deployed(image, s))}
    ensures h.container != r.host.container || h.compose.Some? ==> r.host.compose.Some?
    ensures r.outcome.Done? ==>
              r.host == h.(settingsFile := Some(s), compose := Some(Compose(image, s.cuda)),
                  container := Some(Deployed(image, s)))
  {
    var r1 := WriteSettings(h, s, a.settings);
    if !r1.outcome.Done? then r1
    else
      var r2 := WriteCompose(r1.host, Compose(image, s.cuda), a.compose);
      if !r2.outcome.Done? then r2
      else
        var r3 := Pulled(r2.host, image, pull, a.pull);
        if !r3.outcome.Done? then r3 else Then(Up(r3.host, a.up, a.left), Awaited(a.probes, 0))
  }

  // ------------------------------------------------------------ one operation

  datatype Operation = Install | Update | Restart | Uninstall | Rollback | Configure(settings: Settings)

  /** A release in the catalog; its image is given by name or by digest. */
  datatype Release = Release(image: Image, gpu: bool)

  type Catalog = seq<Release>

  predicate HasGpu(catalog: Catalog) { exists r :: r in catalog && r.gpu }

  /** Entry `i` is the last one for the device. */
  predicate LastFor(catalog: Catalog, gpu: bool, i: int) {
    0 <= i < |catalog| && catalog[i].gpu == gpu && forall j | i < j < |catalog| :: catalog[j].gpu != gpu
  }

  /** selected_release: the last entry for the device. */
  function Selected(catalog: Catalog, gpu: bool): (r: Option<Image>)
    ensures r.Some? <==> exists e :: e in catalog && e.gpu == gpu
    ensures r.Some? ==> Release(r.value, gpu) in catalog
  {
    if catalog == [] then None
    else
      var last := |catalog| - 1;
      assert forall e :: e in catalog <==> e in catalog[..last] || e == catalog[last];
      if catalog[last].gpu == gpu then Some(catalog[last].image) else Selected(catalog[..last], gpu)
  }

  /** An image is selected exactly if the catalog lists one for the device, and then it
      is the last of those. */
  lemma {:induction false} SelectedIsLast(catalog: Catalog, gpu: bool) returns (i: int)
    ensures Selected(catalog, gpu).Some? <==> LastFor(catalog, gpu, i)
    ensures Selected(catalog, gpu).Some? ==> catalog[i] == Release(Selected(catalog, gpu).value, gpu)
    ensures Selected(catalog, gpu).None? ==> forall e | e in catalog :: e.gpu != gpu
  {
    i := |catalog| - 1;
    if catalog != [] && catalog[i].gpu != gpu { i := SelectedIsLast(catalog[..i], gpu); }
  }

  /** How the steps of one operation go: the checks of an install, the activation
      or the `down` of an uninstall, those of the recovery, and the final save. */
  datatype Fates = Fates(
    checks: Fate, work: Activation, down: Fate, downLeft: Left,
    recovery: Activation, recoveryDown: Fate, recoveryLeft: Left, save: Fate)

  function Old(s: State): Saved { Saved(s.current, s.settings, s.verified) }

  /** What a non-uninstall operation is to run: an image, if one can be had, and settings. */
  function Target(catalog: Catalog, s: State, op: Operation): (Option<Image>, Settings) {
    match op
    case Rollback =>
      if s.previous.Some? then (s.previous.value.current, s.previous.value.settings) else (None, s.settings)
    case Configure(settings) => (if settings.cuda then Selected(catalog, true) else s.current, settings)
    case Restart => (s.current, s.settings)
    case _ => (Selected(catalog, s.settings.cuda), s.settings)
  }

  predicate Pulls(s: State, op: Operation, image: Image) { op.Install? || op.Update? || s.current != Some(image) }

  /** What ran before is remembered. */
  predicate Replaces(op: Operation) { op.Update? || op.Configure? || op.Rollback? }

  /** The new state once the target runs. */
  function Promoted(s: State, op: Operation, image: Image, settings: Settings): State {
    s.(current := Some(image), settings := settings, verified := true, phase := Ready,
       previous := if s.current.Some? && Replaces(op) then Some(Old(s)) else s.previous)
  }

  function Removed(s: State): State { s.(current := None, previous := None, verified := false, phase := Absent) }

  /** The body of the try block. */
  function Attempt(catalog: Catalog, h: Host, op: Operation, f: Fates): Run {
    if op.Uninstall? then
      var r := if h.compose.Some? then Down(h, f.down, f.downLeft) else Run(h, Done);
      if r.outcome.Done? then Run(r.host.(state := Removed(h.state)), Done) else r
    else if op.Install? && !f.checks.Works? then Run(h, OutcomeOf(f.checks))
    else
      var (image, settings) := Target(catalog, h.state, op);
      if image.None? then Run(h, Raised)
      else
        var r := Activate(h, image.value, settings, Pulls(h.state, op, image.value), f.work);
        if r.outcome.Done? then Run(r.host.(state := Promoted(h.state, op, image.value, settings)), Done) else r
  }

  /** The recovery inside the except block: what ran before is activated again. */
  function Recover(h: Host, was: Saved, f: Fates): Run {
    if was.current.Some? then Activate(h, was.current.value, was.settings, false, f.recovery)
    else if h.compose.Some? then Down(h, f.recoveryDown, f.recoveryLeft)
    else Run(h, Done)
  }

  function Restored(s: State, was: Saved, recovered: bool): State {
    s.(current := was.current, settings := was.settings, verified := was.verified,
       phase := if recovered then Ready else Failed, error := Some(OperationFailed))
  }

  /** The try and except blocks: Raised never leaves them. */
  function Handled(catalog: Catalog, h: Host, op: Operation, f: Fates): Run {
    var r := Attempt(catalog, h, op, f);
    if !r.outcome.Raised? then r
    else
      var was := Old(h.state);
      var back := Recover(r.host, was, f);
      if back.outcome.Died? then back
      else Run(back.host.(state := Restored(back.host.state, was, was.current.Some? && back.outcome.Done?)), Done)
  }

  /** perform: the finally block saves the state and gives the lock back. */
  function Perform(catalog: Catalog, h: Host, op: Operation, f: Fates): Run {
    var r := Handled(catalog, h, op, f);
    if r.outcome.Died? then r
    else
      var saved := SaveState(r.host, f.save);
      if saved.outcome.Died? then saved else Run(saved.host.(released := saved.host.released + 1), saved.outcome)
  }

  // ------------------------------------------------------ accepting, booting

  datatype Request = Malformed | Asked(operation: Operation)

  datatype Response = Refused | Accepted(operation: Operation) | Lost

  datatype Start = Start(host: Host, response: Response)

  predicate Held(h: Host) { h.acquired > h.released }

  /** The checks of start, with the lock taken. */
  predicate Allowed(catalog: Catalog, s: State, op: Operation) {
    && (op.Configure? || op.Update? || op.Rollback? ==> s.verified)
    && (op.Install? ==> s.current.None?)
    && (op.Install? || op.Update? ==> catalog != [])
    && (op.Rollback? ==> s.previous.Some?)
    && (op.Restart? ==> s.current.Some?)
    && (op.Configure? && op.settings.cuda ==> HasGpu(catalog))
  }

  function Unlocked(h: Host): Host { h.(released := h.released + 1) }

  /** start: `save` is the fate of saving the state, `thread` that of the new thread. */
  function Begin(catalog: Catalog, h: Host, q: Request, save: Fate, thread: Fate): Start {
    if q.Malformed? || Held(h) then Start(h, Refused)
    else
      var taken := h.(acquired := h.acquired + 1);
      if !Allowed(catalog, h.state, q.operation) then Start(Unlocked(taken), Refused)
      else
        var r := SaveState(taken.(state := h.state.(phase := Working, error := None)), save);
        if r.outcome.Died? || (r.outcome.Done? && thread.Dies?) then Start(r.host, Lost)
        else if r.outcome.Raised? || thread.Raises? then Start(Unlocked(r.host), Refused)
        else Start(r.host, Accepted(q.operation))
  }

  /** The state a helper starts from. */
  function Loaded(file: Option<State>): State {
    if file.None? then INITIAL_STATE
    else if file.value.phase.Working? then file.value.(phase := Failed, error := Some(HelperStopped))
    else file.value
  }

  /** A new helper over what the last one left behind. */
  function Boot(h: Host): Host { h.(state := Loaded(h.stateFile), acquired := 0, released := 0) }

  /** What was saved is what the next helper starts from, an operation in progress as
      failed; a save that did not land leaves the next helper with what was saved
      before, never with a mixture. */
  lemma SaveReloads(h: Host, f: Fate)
    ensures var next := Boot(SaveState(h, f).host).state;
            && (Lands(f) && !h.state.phase.Working? ==> next == h.state)
            && (Lands(f) && h.state.phase.Working? ==> next == h.state.(phase := Failed, error := Some(HelperStopped)))
            && (!Lands(f) ==> next == Boot(h).state)
    ensures SaveState(h, f).outcome.Done? ==> Lands(f)
    ensures SaveState(h, f).outcome.Raised? ==> !Lands(f)
  {
  }

  // ------------------------------------------------------- single operations

  /** An operation that raises leaves the recorded version, settings, verdict and
      previous version as they were; it reports ready exactly when what ran before
      was brought back, and then that is what runs. */
  lemma FailureKeepsRecord(catalog: Catalog, h: Host, op: Operation, f: Fates)
    requires Attempt(catalog, h, op, f).outcome.Raised? && Handled(catalog, h, op, f).outcome.Done?
    ensures var g := Handled(catalog, h, op, f).host;
            && g.state == h.state.(phase := g.state.phase, error := Some(OperationFailed))
            && (g.state.phase == Ready || g.state.phase == Failed)
            && (g.state.phase == Ready <==>
               h.state.current.Some? && Recover(Attempt(catalog, h, op, f).host, Old(h.state), f).outcome.Done?)
            && (g.state.phase == Ready ==>
                  && g.container == Some(Deployed(h.state.current.value, h.state.settings))
                  && g.settingsFile == Some(h.state.settings) && g.compose.Some?)
  {
  }

  /** The image and settings that each operation is asked to bring about. */
  predicate Wanted(catalog: Catalog, s: State, op: Operation, image: Image, settings: Settings) {
    match op
    case Install => settings == s.settings && Release(image, settings.cuda) in catalog
    case Update => settings == s.settings && Release(image, settings.cuda) in catalog
    case Restart => settings == s.settings && s.current == Some(image)
    case Rollback =>
      s.previous.Some? && settings == s.previous.value.settings && s.previous.value.current == Some(image)
    case Configure(asked) =>
      settings == asked && if asked.cuda then Release(image, true) in catalog else s.current == Some(image)
    case Uninstall => false
  }

  /** An operation that succeeds runs what it was asked to bring about, says so, and
      remembers what ran before if the operation replaced it; a removed box has no
      container, version or previous version. */
  lemma SuccessRunsTarget(catalog: Catalog, h: Host, op: Operation, f: Fates)
    requires Attempt(catalog, h, op, f).outcome.Done?
    ensures var s, g := h.state, Handled(catalog, h, op, f).host; var t := g.state;
            && t.error == s.error
            && if op.Uninstall? then
                 && t.phase == Absent && t.current.None? && t.previous.None? && !t.verified && t.settings == s.settings
                 && (h.compose.Some? ==> g.container.None?)
               else
                 && t.phase == Ready && t.verified && t.current.Some?
                    && Wanted(catalog, s, op, t.current.value, t.settings)
                 && g.container == Some(Deployed(t.current.value, t.settings)) && g.settingsFile == Some(t.settings)
                 && t.previous == if s.current.Some? && !op.Install? && !op.Restart? then Some(Old(s)) else s.previous
  {
  }

  /** Dying anywhere in an operation leaves the saved state as it was, or, when the
      last save landed, as the finished operation has it. The lock dies with the process. */
  lemma DeathKeepsFile(catalog: Catalog, h: Host, op: Operation, f: Fates)
    requires Perform(catalog, h, op, f).outcome.Died?
    ensures var g := Perform(catalog, h, op, f).host;
            || g.stateFile == h.stateFile
            || (Handled(catalog, h, op, f).outcome.Done? && g.stateFile == Some(Handled(catalog, h, op, f).host.state))
  {
  }

  /** A run of the operation that does not die gives the lock back once. */
  lemma PerformReleasesOnce(catalog: Catalog, h: Host, op: Operation, f: Fates)
    ensures var r := Perform(catalog, h, op, f);
            r.host.acquired == h.acquired && r.host.released == if r.outcome.Died? then h.released else h.released + 1
  {
  }

  /** The version and settings in force, and those a rollback goes back to. */
  function Versions(s: State): (Option<Image>, Settings, bool, Option<Saved>)
  {
    (s.current, s.settings, s.verified, s.previous)
  }
}

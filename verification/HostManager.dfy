/** The host helper's manager, updating its state, files and lock step by step. Every
    method does what HostOperations says, and so keeps what HostRuns proves. */
module HostManager {
  import opened Options
  import opened HostOperations

  class Manager {
    const catalog: Catalog
    var state: State
    var stateFile: Option<State>
    var settingsFile: Option<Settings>
    var compose: Option<Compose>
    var container: Option<Container>
    var acquired: nat
    var released: nat

    function Now(): Host reads this {
      Host(state, stateFile, settingsFile, compose, container, acquired, released)
    }

    /** __init__: over what an earlier helper left behind. */
    constructor (catalog: Catalog, left: Host)
      ensures this.catalog == catalog && Now() == Boot(left)
    {
      this.catalog := catalog;
      state := if left.stateFile.Some? then left.stateFile.value else INITIAL_STATE;
      stateFile, settingsFile, compose, container := left.stateFile, left.settingsFile, left.compose, left.container;
      acquired, released := 0, 0;
      new;
      if state.phase.Working? {
        state := state.(phase := Failed, error := Some(HelperStopped));
      }
    }

    method Save(f: Fate) returns (o: Outcome)
      modifies this`stateFile
      ensures Run(Now(), o) == SaveState(old(Now()), f)
    {
      if Lands(f) { stateFile := Some(state); }
      o := OutcomeOf(f);
    }

    method AwaitHealth(probes: nat -> Probe) returns (o: Outcome)
      ensures o == Awaited(probes, 0)
    {
      for i := 0 to 90
        invariant Awaited(probes, 0) == Awaited(probes, i)
      {
        match probes(i) {
          case Healthy => return Done;
          case Unhealthy =>
          case Breaks => return Raised;
          case Kills => return Died;
        }
      }
      return Raised;
    }

    method RunUp(f: Fate, left: Left) returns (o: Outcome)
      requires compose.Some? && settingsFile.Some?
      modifies this`container
      ensures Run(Now(), o) == Up(old(Now()), f, left)
    {
      if f.Works? || left.Replaced? {
        container := Some(Container(compose.value.image, compose.value.gpu, settingsFile.value));
      } else if left.Gone? {
        container := None;
      }
      o := OutcomeOf(f);
    }

    method RunDown(f: Fate, left: Left) returns (o: Outcome)
      modifies this`container
      ensures Run(Now(), o) == Down(old(Now()), f, left)
    {
      if f.Works? || !left.Untouched? { container := None; }
      o := OutcomeOf(f);
    }

    method ActivateImage(image: Image, settings: Settings, pull: bool, a: Activation) returns (o: Outcome)
      modifies this`settingsFile, this`compose, this`container
      ensures Run(Now(), o) == Activate(old(Now()), image, settings, pull, a)
    {
      if Lands(a.settings) { settingsFile := Some(settings); }
      if !a.settings.Works? { return OutcomeOf(a.settings); }
      if Lands(a.compose) { compose := Some(Compose(image, settings.cuda)); }
      if !a.compose.Works? { return OutcomeOf(a.compose); }
      if pull && !SourceImage(image) && !a.pull.Works? { return OutcomeOf(a.pull); }
      o := RunUp(a.up, a.left);
      if o.Done? { o := AwaitHealth(a.probes); }
    }

    method BeginOperation(q: Request, save: Fate, thread: Fate) returns (r: Response)
      modifies this
      ensures Start(Now(), r) == Begin(catalog, old(Now()), q, save, thread)
    {
      if q.Malformed? || acquired > released { return Refused; }
      acquired := acquired + 1;
      if !Allowed(catalog, state, q.operation) {
        released := released + 1;
        return Refused;
      }
      state := state.(phase := Working, error := None);
      var o := Save(save);
      if o.Died? { return Lost; }
      if o.Done? && thread.Dies? { return Lost; }
      if o.Raised? || thread.Raises? {
        released := released + 1;
        return Refused;
      }
      r := Accepted(q.operation);
    }

    /** The body of the try block of perform. */
    method TryOperation(op: Operation, f: Fates) returns (o: Outcome)
      modifies this`state, this`settingsFile, this`compose, this`container
      ensures Run(Now(), o) == Attempt(catalog, old(Now()), op, f)
    {
      var was := Old(state);
      if op.Uninstall? {
        o := Done;
        if compose.Some? { o := RunDown(f.down, f.downLeft); }
        if o.Done? { state := state.(current := None, previous := None, verified := false, phase := Absent); }
        return;
      }
      if op.Install? && !f.checks.Works? { return OutcomeOf(f.checks); }
      var current, settings := was.current, was.settings;
      match op {
        case Rollback =>
          current, settings := None, settings;
          if state.previous.Some? { current, settings := state.previous.value.current, state.previous.value.settings; }
        case Configure(wanted) =>
          settings := wanted;
          if wanted.cuda { current := Selected(catalog, true); }
        case Restart =>
        case _ =>
          current := Selected(catalog, settings.cuda);
      }
      if current.None? { return Raised; }
      var pull := op.Install? || op.Update? || current != was.current;
      o := ActivateImage(current.value, settings, pull, f.work);
      if o.Done? {
        state := state.(current := current, settings := settings, verified := true, phase := Ready);
        if was.current.Some? && (op.Update? || op.Configure? || op.Rollback?) {
          state := state.(previous := Some(was));
        }
      }
    }

    /** The try block inside the except block of perform. */
    method RecoverOld(was: Saved, f: Fates) returns (o: Outcome)
      modifies this`settingsFile, this`compose, this`container
      ensures Run(Now(), o) == Recover(old(Now()), was, f)
    {
      if was.current.Some? {
        o := ActivateImage(was.current.value, was.settings, false, f.recovery);
      } else if compose.Some? {
        o := RunDown(f.recoveryDown, f.recoveryLeft);
      } else {
        o := Done;
      }
    }

    /** The try and except blocks of perform. */
    method TryAndRecover(op: Operation, f: Fates) returns (o: Outcome)
      modifies this`state, this`settingsFile, this`compose, this`container
      ensures Run(Now(), o) == Handled(catalog, old(Now()), op, f)
    {
      var was := Old(state);
      o := TryOperation(op, f);
      if o.Raised? {
        var back := RecoverOld(was, f);
        if back.Died? { return Died; }
        var recovered := was.current.Some? && back.Done?;
        state := state.(current := was.current, settings := was.settings, verified := was.verified,
                        phase := if recovered then Ready else Failed, error := Some(OperationFailed));
        o := Done;
      }
    }

    /** perform: try, recover, save, release. */
    method PerformOperation(op: Operation, f: Fates) returns (o: Outcome)
      modifies this
      ensures Run(Now(), o) == Perform(catalog, old(Now()), op, f)
    {
      o := TryAndRecover(op, f);
      if o.Died? { return; }
      o := Save(f.save);
      if !o.Died? { released := released + 1; }
    }
  }
}

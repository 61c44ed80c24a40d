/** Which steps of the host helper's work an answer depends on, and what is left where they
    stop. */
module HostSteps {
  import opened Options
  import opened HostOperations

  // ----------------------------------------------------------------- requests

  /** What each operation is accepted for. */
  ghost predicate MayAsk(catalog: Catalog, s: State, op: Operation) {
    match op
    case Install => s.current.None? && |catalog| > 0
    case Update => s.verified && |catalog| > 0
    case Restart => s.current.Some?
    case Uninstall => true
    case Rollback => s.verified && s.previous.Some?
    case Configure(settings) => s.verified && (settings.cuda ==> exists i | 0 <= i < |catalog| :: catalog[i].gpu)
  }

  /** A request is accepted exactly if it is well-formed, no operation holds the lock, the
      operation may be asked for now, and the state is saved and the thread started. Then
      working is what memory and file say. */
  lemma RequestAcceptedIff(catalog: Catalog, h: Host, q: Request, save: Fate, thread: Fate)
    ensures var b := Begin(catalog, h, q, save, thread);
            && (b.response.Accepted? <==>
                  && q.Asked? && h.acquired <= h.released && MayAsk(catalog, h.state, q.operation)
                  && save.Works? && thread.Works?)
            && (b.response.Accepted? ==>
                  && b.response.operation == q.operation
                  && b.host.state == h.state.(phase := Working, error := None)
                  && b.host.stateFile == Some(b.host.state) && b.host.container == h.container)
  {
    if q.Asked? {
      forall i | 0 <= i < |catalog| && catalog[i].gpu ensures HasGpu(catalog) { assert catalog[i] in catalog; }
    }
  }

  // --------------------------------------------------------------- activation

  /** The first decisive probe, within ninety, is the `i`-th. */
  predicate FirstAt(probes: nat -> Probe, i: nat) {
    i < 90 && !probes(i).Unhealthy? && forall j: nat | j < i :: probes(j).Unhealthy?
  }

  lemma {:induction false} AwaitedFrom(probes: nat -> Probe, from: nat)
    requires from <= 90 && forall j: nat | j < from :: probes(j).Unhealthy?
    ensures forall i | FirstAt(probes, i) ::
              Awaited(probes, from) == match probes(i) case Healthy => Done case Breaks => Raised case _ => Died
    ensures (forall i: nat | i < 90 :: probes(i).Unhealthy?) ==> Awaited(probes, from) == Raised
    ensures Awaited(probes, from).Done? ==> exists i :: FirstAt(probes, i) && probes(i).Healthy?
    decreases 90 - from
  {
    if from < 90 {
      if probes(from).Unhealthy? { AwaitedFrom(probes, from + 1); } else { assert FirstAt(probes, from); }
    }
  }

  predicate HealthyInTime(probes: nat -> Probe) { exists i | 0 <= i < 90 :: FirstAt(probes, i) && probes(i).Healthy? }

  /** The wait succeeds exactly if one of ninety probes is healthy and none before it was
      anything but unhealthy. */
  lemma WaitSucceedsIff(probes: nat -> Probe)
    ensures Awaited(probes, 0).Done? <==> HealthyInTime(probes)
  {
    AwaitedFrom(probes, 0);
  }

  /** The image is one built from source, which cannot be pulled. */
  ghost predicate Local(image: Image) { exists rest: string :: image == "sha256:" + rest }

  lemma LocalIs(image: Image)
    ensures Local(image) <==> SourceImage(image)
  {
    if SourceImage(image) { assert image == "sha256:" + image[7..]; }
  }

  /** An activation succeeds exactly if every step of it does; a pull is one of them if it
      was asked for and the image is not local. */
  lemma ActivateSucceedsIff(h: Host, image: Image, s: Settings, pull: bool, a: Activation)
    ensures Activate(h, image, s, pull, a).outcome.Done? <==>
              && a.settings.Works? && a.compose.Works? && (pull && !Local(image) ==> a.pull.Works?)
              && a.up.Works? && HealthyInTime(a.probes)
  {
    LocalIs(image);
    WaitSucceedsIff(a.probes);
  }

  /** Where an activation stops: before the container is started it is left alone, and each
      file is written exactly if the step before it succeeded; a container that is not
      healthy in time is left running. */
  lemma ActivateStops(h: Host, image: Image, s: Settings, pull: bool, a: Activation)
    requires !Activate(h, image, s, pull, a).outcome.Done?
    ensures var g := Activate(h, image, s, pull, a).host;
            var wrote := h.(settingsFile := Some(s));
            var both := wrote.(compose := Some(Compose(image, s.cuda)));
            && (a.settings.Raises? ==> g == h)
            && (a.settings.Works? && a.compose.Raises? ==> g == wrote)
            && (a.settings.Works? && a.compose.Works? && pull && !Local(image) && !a.pull.Works? ==> g == both)
            && (a.settings.Works? && a.compose.Works? && (!pull || Local(image) || a.pull.Works?) && a.up.Works? ==>
                  g == both.(container := Some(Container(image, s.cuda, s))))
  {
    LocalIs(image);
  }

  // --------------------------------------------------------------- operations

  ghost predicate LastListed(catalog: Catalog, gpu: bool, image: Image) {
    exists i :: LastFor(catalog, gpu, i) && catalog[i].image == image
  }

  /** What an operation is to bring about: exactly one image and settings, if any. */
  ghost predicate Aim(catalog: Catalog, s: State, op: Operation, image: Image, settings: Settings) {
    match op
    case Install => settings == s.settings && LastListed(catalog, settings.cuda, image)
    case Update => settings == s.settings && LastListed(catalog, settings.cuda, image)
    case Restart => settings == s.settings && s.current == Some(image)
    case Rollback =>
      s.previous.Some? && s.previous.value.settings == settings && s.previous.value.current == Some(image)
    case Configure(asked) =>
      settings == asked && if asked.cuda then LastListed(catalog, true, image) else s.current == Some(image)
    case Uninstall => false
  }

  lemma LastListedIs(catalog: Catalog, gpu: bool)
    ensures forall image :: LastListed(catalog, gpu, image) <==> Selected(catalog, gpu) == Some(image)
  {
    var i := SelectedIsLast(catalog, gpu);
    forall j | LastFor(catalog, gpu, j) ensures Selected(catalog, gpu).Some? && i == j { assert catalog[j] in catalog; }
  }

  lemma AimIsTarget(catalog: Catalog, s: State, op: Operation, image: Image, settings: Settings)
    requires !op.Uninstall?
    ensures Aim(catalog, s, op, image, settings) <==>
            Target(catalog, s, op).0 == Some(image) && Target(catalog, s, op).1 == settings
  {
    LastListedIs(catalog, s.settings.cuda);
    LastListedIs(catalog, true);
  }

  /** An operation succeeds exactly if there is something to bring about and each step it
      needs works. A pull is needed to install or update, and for an image that is not the
      current one; an uninstall needs only the container to go, if one was ever set up. */
  lemma OperationSucceedsIff(
      catalog: Catalog, h: Host, op: Operation, f: Fates, image: Image, settings: Settings)
    requires !op.Uninstall? ==> Aim(catalog, h.state, op, image, settings)
    ensures var r := Attempt(catalog, h, op, f); var a := f.work;
            && (op.Uninstall? ==> (r.outcome.Done? <==> h.compose.None? || f.down.Works?))
            && (!op.Uninstall? ==>
                  (r.outcome.Done? <==>
                     && (op.Install? ==> f.checks.Works?)
                     && a.settings.Works? && a.compose.Works? && a.up.Works? && HealthyInTime(a.probes)
                     && ((op.Install? || op.Update? || h.state.current != Some(image)) && !Local(image) ==>
                           a.pull.Works?)))
            && (r.outcome.Done? && !op.Uninstall? ==>
                  r.host.state.current == Some(image) && r.host.state.settings == settings)
  {
    if !op.Uninstall? {
      AimIsTarget(catalog, h.state, op, image, settings);
      ActivateSucceedsIff(h, image, settings, Pulls(h.state, op, image), f.work);
    }
  }

  /** Without anything to bring about, or when an install's checks fail, an operation raises
      or dies before it has touched anything. */
  lemma NothingToDo(catalog: Catalog, h: Host, op: Operation, f: Fates)
    requires !op.Uninstall?
    requires (op.Install? && !f.checks.Works?)
             || forall image, settings :: !Aim(catalog, h.state, op, image, settings)
    ensures Attempt(catalog, h, op, f).host == h && !Attempt(catalog, h, op, f).outcome.Done?
  {
    var (image, settings) := Target(catalog, h.state, op);
    if image.Some? { AimIsTarget(catalog, h.state, op, image.value, settings); }
  }

  /** After a failure what ran before is brought back exactly if its files are written, its
      container starts and is healthy in time: no pull is needed. Where nothing ran before,
      whatever was started is taken down. */
  lemma RecoverySucceedsIff(h: Host, was: Saved, f: Fates)
    ensures was.current.Some? ==>
              (Recover(h, was, f).outcome.Done? <==>
                 && f.recovery.settings.Works? && f.recovery.compose.Works? && f.recovery.up.Works?
                 && HealthyInTime(f.recovery.probes))
    ensures was.current.None? && h.compose.Some? && f.recoveryDown.Works? ==>
              Recover(h, was, f) == Run(h.(container := None), Done)
    ensures was.current.None? && h.compose.None? ==> Recover(h, was, f) == Run(h, Done)
  {
    if was.current.Some? { ActivateSucceedsIff(h, was.current.value, was.settings, false, f.recovery); }
  }

  /** However an operation ended, its end is saved if the save works, and the lock is free
      again even if the save fails. */
  lemma EndIsSaved(catalog: Catalog, h: Host, op: Operation, f: Fates)
    requires !Handled(catalog, h, op, f).outcome.Died?
    ensures var end, r := Handled(catalog, h, op, f).host, Perform(catalog, h, op, f);
            && r.host.state == end.state && r.host.container == end.container
            && (f.save.Works? ==> r.outcome.Done? && r.host.stateFile == Some(end.state))
            && (f.save.Raises? ==> r.outcome.Raised? && r.host.stateFile == end.stateFile)
            && (!f.save.Dies? ==> r.host.released == end.released + 1)
  {
  }
}

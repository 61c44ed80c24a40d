/** Sync runs as a state machine: any number of runs, people editing in between,
    providers failing, processes dying. Each event is one atomic step. */
module ContactRuns {
  import opened Options
  import opened ContactRecords
  import opened ContactTables
  import opened ContactReplay
  import opened ContactMerge

  type Cursor = string

  datatype Status = Idle | Syncing | Failing | Paused | Disconnected

  /** One row of contact_sync_origins. `published` counts the writes of last_sync_at,
      which clear the last error: the successes that were reported. */
  datatype Row = Row(
    origin: Origin, twoWay: bool, delta: Option<Cursor>, page: Option<Cursor>, status: Status, published: nat)

  datatype Page = Page(contacts: seq<Remote>, nextPage: Option<Cursor>, nextDelta: Option<Cursor>)

  /** What one (retried) page request comes to. */
  datatype Answer = Listed(listing: Page) | Expired | Broken(revoked: bool)

  datatype Phase =
    | Asking                        // at the top of the page loop
    | Applying(listing: Page, at: nat)
    | Pulled                        // out of the loop with no page cursor left

  /** The locals of one syncOrigin call. `start` is the delta cursor it loaded
      and `whole` the pages it has applied in full since its listing began. */
  datatype Run = Run(
    origin: string, start: Option<Cursor>, delta: Option<Cursor>, page: Option<Cursor>, fuel: nat,
    phase: Phase, whole: seq<Page>, fullResync: bool)

  datatype World = World(tables: Tables, rows: map<string, Row>, runs: map<nat, Run>)

  datatype Event =
    | Claim(run: nat, id: string, maxPages: nat)
    | Deny(id: string, revoked: bool)
    | Respond(run: nat, answer: Answer)
    | Record(run: nat)
    | Turn(run: nat)
    | Bound(run: nat)
    | PushOne(run: nat, key: LinkKey, outcome: PushOutcome)
    | Finish(run: nat)
    | Throw(run: nat, revoked: bool)
    | Crash(run: nat)
    | CrashInUpdate(run: nat)
    | Recover(id: string)
    | Stop(id: string)
    | SetMode(origin: Origin, twoWay: bool)
    | Edit(contact: nat, row: Contact)
    | Add(row: Contact)
    | Remove(contact: nat)
    | MergeTwo(owner: string, keep: nat, merge: nat)
    | Bury(tomb: Tomb)

  /** failOrigin. */
  function FailRow(w: World, id: string, revoked: bool): World {
    if id in w.rows then
      w.(rows := w.rows[id := w.rows[id].(status := if revoked then Disconnected else Failing, page := None)])
    else w
  }

  /** The last update of a finished run. */
  function Published(row: Row, delta: Option<Cursor>): Row {
    row.(status := Idle, delta := delta, page := None, published := row.published + 1)
  }

  function Leave(w: World, run: nat): World { w.(runs := w.runs - {run}) }

  predicate Live(w: World, run: nat) { run in w.runs && w.runs[run].origin in w.rows }

  function OriginOf(w: World, run: nat): Origin requires Live(w, run) { w.rows[w.runs[run].origin].origin }

  /** The record a run is about to apply. */
  predicate HasRecord(w: World, run: nat) {
    Live(w, run) && w.runs[run].phase.Applying? && w.runs[run].phase.at < |w.runs[run].phase.listing.contacts|
  }

  function NextRecord(w: World, run: nat): Remote requires HasRecord(w, run) {
    w.runs[run].phase.listing.contacts[w.runs[run].phase.at]
  }

  function Respond'(w: World, run: nat, answer: Answer): World
    requires Live(w, run)
  {
    var r := w.runs[run];
    var left := if r.fuel > 0 then r.fuel - 1 else 0;
    match answer
    case Listed(listing) => w.(runs := w.runs[run := r.(phase := Applying(listing, 0), fuel := left)])
    case Expired =>
      w.(rows := w.rows[r.origin := w.rows[r.origin].(delta := None, page := None)],
         runs := w.runs[run := r.(delta := None, page := None, fuel := left, whole := [], fullResync := true)])
    case Broken(revoked) => Leave(FailRow(w, r.origin, revoked), run)
  }

  /** The end of a page: a checkpoint, or the way out of the loop. */
  function Turn'(w: World, run: nat): World
    requires Live(w, run) && w.runs[run].phase.Applying?
  {
    var r := w.runs[run];
    var listing := r.phase.listing;
    var next := r.(page := listing.nextPage, whole := r.whole + [listing]);
    if listing.nextPage.Some? then
      w.(rows := w.rows[r.origin := w.rows[r.origin].(page := listing.nextPage)],
         runs := w.runs[run := next.(phase := Asking)])
    else
      var delta := if listing.nextDelta.Some? then listing.nextDelta else r.delta;
      w.(runs := w.runs[run := next.(phase := Pulled, delta := delta)])
  }

  /** An event that is not enabled leaves the world as it is. */
  function Step(n: Normal, w: World, e: Event): World {
    match e
    case Claim(run, id, maxPages) =>
      if id in w.rows && run !in w.runs && w.rows[id].status in {Idle, Failing} then
        var row := w.rows[id];
        w.(rows := w.rows[id := row.(status := Syncing)],
           runs := w.runs[run := Run(id, row.delta, row.delta, row.page, maxPages, Asking, [], false)])
      else w
    case Deny(id, revoked) =>
      if id in w.rows && w.rows[id].status !in {Paused, Disconnected} then FailRow(w, id, revoked) else w
    case Respond(run, answer) =>
      if Live(w, run) && w.runs[run].phase.Asking? && w.runs[run].fuel > 0 then Respond'(w, run, answer) else w
    case Record(run) =>
      if HasRecord(w, run) then
        w.(tables := Apply(n, w.tables, OriginOf(w, run), NextRecord(w, run)),
           runs := w.runs[run := w.runs[run].(phase := w.runs[run].phase.(at := w.runs[run].phase.at + 1))])
      else w
    case Turn(run) =>
      if Live(w, run) && w.runs[run].phase.Applying? && !HasRecord(w, run) then Turn'(w, run) else w
    case Bound(run) =>
      if Live(w, run) && w.runs[run].phase.Asking? && w.runs[run].fuel == 0 then
        var r := w.runs[run];
        if r.page.Some? then
          Leave(w.(rows := w.rows[r.origin := w.rows[r.origin].(status := Idle, page := r.page)]), run)
        else w.(runs := w.runs[run := r.(phase := Pulled)])
      else w
    case PushOne(run, key, outcome) =>
      if Live(w, run) && w.runs[run].phase.Pulled? && w.rows[w.runs[run].origin].twoWay then
        w.(tables := Push(n, w.tables, OriginOf(w, run), key, outcome))
      else w
    case Finish(run) =>
      if Live(w, run) && w.runs[run].phase.Pulled? then
        var r := w.runs[run];
        Leave(w.(rows := w.rows[r.origin := Published(w.rows[r.origin], r.delta)]), run)
      else w
    case Throw(run, revoked) => if Live(w, run) then Leave(FailRow(w, w.runs[run].origin, revoked), run) else w
    case Crash(run) => Leave(w, run)
    case CrashInUpdate(run) =>
      if HasRecord(w, run) && Decide(n, w.tables, OriginOf(w, run), NextRecord(w, run)) == Updated then
        var o, r := OriginOf(w, run), NextRecord(w, run);
        Leave(w.(tables := WriteRow(w.tables, w.tables.links[LinkKey(o.id, r.sourceId)].contact, o, r)), run)
      else w
    case Recover(id) =>
      if id in w.rows && w.rows[id].status == Syncing then w.(rows := w.rows[id := w.rows[id].(status := Failing)])
      else w
    case Stop(id) =>
      if id in w.rows then w.(rows := w.rows[id := w.rows[id].(status := Disconnected, delta := None, page := None)])
      else w
    case SetMode(origin, twoWay) =>
      var row :=
        if origin.id in w.rows then w.rows[origin.id].(twoWay := twoWay, status := Idle)
        else Row(origin, twoWay, None, None, Idle, 0);
      w.(rows := w.rows[origin.id := row])
    case Edit(c, row) =>
      if c in w.tables.contacts && row.owner == w.tables.contacts[c].owner then
        w.(tables := w.tables.(contacts := w.tables.contacts[c := row]))
      else w
    case Add(row) =>
      var t := w.tables;
      w.(tables := t.(contacts := t.contacts[t.next := row], next := t.next + 1))
    case Remove(c) =>
      if c in w.tables.contacts then w.(tables := DropContact(w.tables, c, w.tables.contacts[c].owner)) else w
    case MergeTwo(owner, keep, merge) =>
      var merged := Merge(w.tables, owner, keep, merge);
      if merged.Some? then w.(tables := merged.value) else w
    case Bury(tomb) => w.(tables := AddTomb(w.tables, tomb))
  }

  function Exec(n: Normal, w: World, es: seq<Event>): World
    decreases es
  {
    if es == [] then w else Exec(n, Step(n, w, es[0]), es[1..])
  }

  const EMPTY_WORLD := World(Tables(map[], map[], {}, 0), map[], map[])

  // ------------------------------------------------------------ invariants

  /** A run's delta cursor is the one it loaded, or null since an expiry, until
      a page without a successor has been applied in full. */
  ghost predicate RunSound(r: Run) {
    var base := if r.fullResync then None else r.start;
    && (r.phase.Applying? ==> r.phase.at <= |r.phase.listing.contacts|)
    && (!r.phase.Pulled? ==> r.delta == base)
    && (r.phase.Pulled? ==> r.delta == base || EndsWith(r.whole, r.delta))
  }

  /** The last page applied had no successor and carried this delta cursor. */
  ghost predicate EndsWith(whole: seq<Page>, delta: Option<Cursor>) {
    |whole| > 0 && whole[|whole| - 1].nextPage.None? && whole[|whole| - 1].nextDelta == delta
  }

  ghost predicate RowsInv(w: World) {
    forall id | id in w.rows :: w.rows[id].origin.id == id && Owns(w.tables, w.rows[id].origin)
  }

  ghost predicate LinksInv(w: World) { forall k | k in w.tables.links :: k.origin in w.rows }

  ghost predicate RunsInv(w: World) {
    forall run | run in w.runs :: w.runs[run].origin in w.rows && RunSound(w.runs[run])
  }

  ghost predicate WorldInv(w: World) { Inv(w.tables) && RowsInv(w) && LinksInv(w) && RunsInv(w) }

  lemma ApplyKeepsOwns(n: Normal, t: Tables, o: Origin, r: Remote, other: Origin)
    requires Sound(t, o) && Owns(t, other) && (other.id == o.id ==> other == o)
    ensures Sound(Apply(n, t, o, r), other)
  {
    ApplyKeepsSound(n, t, o, r);
    forall k | k in Apply(n, t, o, r).links && k.origin == other.id
      ensures Apply(n, t, o, r).links[k].owner == other.owner
    {
      if k != LinkKey(o.id, r.sourceId) { PullKeepsOtherLinks(n, t, o, r, k); }
    }
  }

  lemma RecordKeepsSound(n: Normal, w: World, run: nat, o: Origin)
    requires WorldInv(w) && Owns(w.tables, o) && (o.id in w.rows ==> w.rows[o.id].origin == o) && HasRecord(w, run)
    ensures Sound(Step(n, w, Record(run)).tables, o)
  {
    ApplyKeepsOwns(n, w.tables, OriginOf(w, run), NextRecord(w, run), o);
  }

  lemma CrashInUpdateKeepsSound(n: Normal, w: World, run: nat, o: Origin)
    requires WorldInv(w) && Owns(w.tables, o) && HasRecord(w, run)
    ensures Sound(Step(n, w, CrashInUpdate(run)).tables, o)
  {
    var t, p, r := w.tables, OriginOf(w, run), NextRecord(w, run);
    if Decide(n, t, p, r) == Updated {
      var c := t.links[LinkKey(p.id, r.sourceId)].contact;
      CrashInUpdateWrites(n, w, run, c);
      RowWritten(t, o, c, p, r);
    }
  }

  lemma CrashInUpdateWrites(n: Normal, w: World, run: nat, c: nat)
    requires HasRecord(w, run) && Decide(n, w.tables, OriginOf(w, run), NextRecord(w, run)) == Updated
    requires c == w.tables.links[LinkKey(OriginOf(w, run).id, NextRecord(w, run).sourceId)].contact
    ensures Step(n, w, CrashInUpdate(run)).tables == WriteRow(w.tables, c, OriginOf(w, run), NextRecord(w, run))
  {
  }

  lemma RowWritten(t: Tables, o: Origin, c: nat, p: Origin, r: Remote)
    requires Sound(t, o)
    ensures Sound(WriteRow(t, c, p, r), o)
  {
    if c in t.contacts && t.contacts[c].owner == p.owner { RowSound(t, o, c, WriteRow(t, c, p, r).contacts[c]); }
  }

  lemma EditKeepsSound(n: Normal, w: World, c: nat, row: Contact, o: Origin)
    requires Sound(w.tables, o)
    ensures Sound(Step(n, w, Edit(c, row)).tables, o)
  {
    if c in w.tables.contacts && row.owner == w.tables.contacts[c].owner { RowSound(w.tables, o, c, row); }
  }

  lemma MergeTwoKeepsSound(n: Normal, w: World, owner: string, keep: nat, merge: nat, o: Origin)
    requires Sound(w.tables, o)
    ensures Sound(Step(n, w, MergeTwo(owner, keep, merge)).tables, o)
  {
    if MayMerge(w.tables, owner, keep, merge) { MergeKeepsSound(w.tables, o, owner, keep, merge); }
  }

  /** What people do, seen by one origin. */
  lemma PeopleKeepSound(n: Normal, w: World, e: Event, o: Origin)
    requires Sound(w.tables, o) && (e.Edit? || e.Add? || e.Remove? || e.MergeTwo?)
    ensures Sound(Step(n, w, e).tables, o)
  {
    match e
    case Edit(c, row) => EditKeepsSound(n, w, c, row, o);
    case Add(row) => AddSound(w.tables, o, row);
    case Remove(c) =>
      if c in w.tables.contacts { DropContactSound(w.tables, o, c, w.tables.contacts[c].owner); }
    case MergeTwo(owner, keep, merge) => MergeTwoKeepsSound(n, w, owner, keep, merge, o);
  }

  /** Events of runs and of the worker that leave the tables alone. */
  predicate TablesRest(e: Event) {
    !(e.Record? || e.CrashInUpdate? || e.PushOne? || e.Edit? || e.Add? || e.Remove? || e.MergeTwo? || e.Bury?)
  }

  lemma TablesStay(n: Normal, w: World, e: Event)
    requires TablesRest(e)
    ensures Step(n, w, e).tables == w.tables
  {
  }

  lemma PushOneKeepsSound(n: Normal, w: World, run: nat, key: LinkKey, outcome: PushOutcome, o: Origin)
    requires Sound(w.tables, o)
    ensures Sound(Step(n, w, PushOne(run, key, outcome)).tables, o)
  {
    if Live(w, run) { PushKeepsSound(n, w.tables, o, OriginOf(w, run), key, outcome); }
  }

  /** One step, seen by one origin. */
  lemma StepKeepsSound(n: Normal, w: World, e: Event, o: Origin)
    requires WorldInv(w) && Owns(w.tables, o) && (o.id in w.rows ==> w.rows[o.id].origin == o)
    ensures Sound(Step(n, w, e).tables, o)
  {
    if TablesRest(e) {
      TablesStay(n, w, e);
    } else if e.Edit? || e.Add? || e.Remove? || e.MergeTwo? {
      PeopleKeepSound(n, w, e, o);
    } else {
      match e
      case Record(run) => if HasRecord(w, run) { RecordKeepsSound(n, w, run, o); }
      case PushOne(run, key, outcome) => PushOneKeepsSound(n, w, run, key, outcome, o);
      case CrashInUpdate(run) => if HasRecord(w, run) { CrashInUpdateKeepsSound(n, w, run, o); }
      case Bury(tomb) =>
    }
  }

  lemma AddSound(t: Tables, o: Origin, row: Contact)
    requires Sound(t, o)
    ensures Sound(t.(contacts := t.contacts[t.next := row], next := t.next + 1), o)
  {
  }

  lemma OthersLinkNothing(n: Normal, w: World, e: Event, k: LinkKey)
    requires k !in w.tables.links && !(e.Record? && HasRecord(w, e.run))
    ensures k !in Step(n, w, e).tables.links
  {
  }

  /** A link is created by a record of its own origin and by nothing else. */
  lemma LinkOnlyFromItsOrigin(n: Normal, w: World, e: Event, k: LinkKey)
    requires WorldInv(w) && k !in w.tables.links && k in Step(n, w, e).tables.links
    ensures e.Record? && HasRecord(w, e.run)
    ensures k == LinkKey(OriginOf(w, e.run).id, NextRecord(w, e.run).sourceId)
  {
    if !(e.Record? && HasRecord(w, e.run)) {
      OthersLinkNothing(n, w, e, k);
    } else if k != LinkKey(OriginOf(w, e.run).id, NextRecord(w, e.run).sourceId) {
      PullKeepsOtherLinks(n, w.tables, OriginOf(w, e.run), NextRecord(w, e.run), k);
    }
  }

  lemma RespondKeepsRuns(n: Normal, w: World, run: nat, answer: Answer)
    requires RunsInv(w)
    ensures RunsInv(Step(n, w, Respond(run, answer)))
  {
  }

  lemma TurnKeepsRuns(n: Normal, w: World, run: nat)
    requires RunsInv(w)
    ensures RunsInv(Step(n, w, Turn(run)))
  {
  }

  /** Other events move a run by one record, add a fresh one, or end some. */
  lemma OthersKeepRuns(n: Normal, w: World, e: Event)
    requires RunsInv(w) && !e.Respond? && !e.Turn?
    ensures RunsInv(Step(n, w, e))
  {
  }

  lemma StepKeepsRuns(n: Normal, w: World, e: Event)
    requires RunsInv(w)
    ensures RunsInv(Step(n, w, e))
  {
    match e
    case Respond(run, answer) => RespondKeepsRuns(n, w, run, answer);
    case Turn(run) => TurnKeepsRuns(n, w, run);
    case _ => OthersKeepRuns(n, w, e);
  }

  lemma SetModeKeepsRow(n: Normal, w: World, origin: Origin, twoWay: bool, id: string)
    requires forall id | id in w.rows :: w.rows[id].origin.id == id
    ensures var rows := Step(n, w, SetMode(origin, twoWay)).rows;
            && (id in w.rows ==> id in rows && rows[id].origin == w.rows[id].origin)
            && (id in rows ==> rows[id].origin.id == id)
  {
  }

  /** Events that leave the origin rows alone. */
  predicate RowsRest(e: Event) {
    e.Record? || e.Crash? || e.CrashInUpdate? || e.PushOne? || e.Edit? || e.Add? || e.Remove? || e.MergeTwo? || e.Bury?
  }

  lemma RowsStay(n: Normal, w: World, e: Event)
    requires RowsRest(e)
    ensures Step(n, w, e).rows == w.rows
  {
  }

  lemma OthersKeepRow(n: Normal, w: World, e: Event, id: string)
    requires !e.SetMode?
    ensures var rows := Step(n, w, e).rows;
            && rows.Keys == w.rows.Keys && (id in w.rows ==> rows[id].origin == w.rows[id].origin)
  {
    if RowsRest(e) { RowsStay(n, w, e); }
  }

  lemma StepKeepsRow(n: Normal, w: World, e: Event, id: string)
    requires forall id | id in w.rows :: w.rows[id].origin.id == id
    ensures id in w.rows ==> id in Step(n, w, e).rows && Step(n, w, e).rows[id].origin == w.rows[id].origin
    ensures id in Step(n, w, e).rows ==> Step(n, w, e).rows[id].origin.id == id
  {
    if e.SetMode? { SetModeKeepsRow(n, w, e.origin, e.twoWay, id); } else { OthersKeepRow(n, w, e, id); }
  }

  lemma StepKeepsRows(n: Normal, w: World, e: Event)
    requires WorldInv(w)
    ensures RowsInv(Step(n, w, e))
  {
    forall id | id in Step(n, w, e).rows
      ensures Step(n, w, e).rows[id].origin.id == id && Owns(Step(n, w, e).tables, Step(n, w, e).rows[id].origin)
    {
      StepKeepsRow(n, w, e, id);
      StepKeepsSound(n, w, e, Step(n, w, e).rows[id].origin);
    }
  }

  lemma StepKeepsLinks(n: Normal, w: World, e: Event)
    requires WorldInv(w)
    ensures LinksInv(Step(n, w, e))
  {
    forall k | k in Step(n, w, e).tables.links ensures k.origin in Step(n, w, e).rows {
      StepKeepsRow(n, w, e, k.origin);
      if k !in w.tables.links { LinkOnlyFromItsOrigin(n, w, e, k); }
    }
  }

  lemma StepKeepsInv(n: Normal, w: World, e: Event)
    requires WorldInv(w)
    ensures WorldInv(Step(n, w, e))
  {
    StepKeepsSound(n, w, e, if "" in w.rows then w.rows[""].origin else Origin("", "", "", ""));
    StepKeepsRows(n, w, e);
    StepKeepsLinks(n, w, e);
    StepKeepsRuns(n, w, e);
  }

  /** Every reachable state satisfies the invariants, whatever the interleaving. */
  lemma {:induction false} ExecKeepsInv(n: Normal, w: World, es: seq<Event>)
    requires WorldInv(w)
    ensures WorldInv(Exec(n, w, es))
    decreases es
  {
    if es != [] {
      StepKeepsInv(n, w, es[0]);
      ExecKeepsInv(n, Step(n, w, es[0]), es[1..]);
    }
  }

  lemma Reachable(n: Normal, es: seq<Event>)
    ensures WorldInv(Exec(n, EMPTY_WORLD, es))
  {
    ExecKeepsInv(n, EMPTY_WORLD, es);
  }

  // ------------------------------------------------------------- theorems

  /** Events of sync runs and of the worker, as opposed to people. */
  predicate IsSync(e: Event) { !e.Edit? && !e.Add? && !e.Remove? && !e.MergeTwo? && !e.Bury? }

  /** The contact is there as it was, but that its conflict flag may have been raised. */
  predicate Keeps(t: Tables, t': Tables, c: nat)
    requires c in t.contacts
  {
    c in t'.contacts && t'.contacts[c] in {t.contacts[c], t.contacts[c].(conflict := BothChanged)}
  }

  lemma PushKeepsContact(n: Normal, w: World, run: nat, key: LinkKey, outcome: PushOutcome, c: nat)
    requires c in w.tables.contacts
    ensures Keeps(w.tables, Step(n, w, PushOne(run, key, outcome)).tables, c)
  {
  }

  lemma CrashKeepsContact(n: Normal, w: World, run: nat, c: nat)
    requires Inv(w.tables) && Live(w, run) && Owns(w.tables, OriginOf(w, run)) && c in w.tables.contacts
    requires EditedSince(n, w.tables, OriginOf(w, run), c)
    ensures Keeps(w.tables, Step(n, w, CrashInUpdate(run)).tables, c)
  {
    if HasRecord(w, run) && Decide(n, w.tables, OriginOf(w, run), NextRecord(w, run)) == Updated {
      var k := LinkKey(OriginOf(w, run).id, NextRecord(w, run).sourceId);
      CrashInUpdateWrites(n, w, run, w.tables.links[k].contact);
      PullKeepsLocalEdit(n, w.tables, OriginOf(w, run), NextRecord(w, run), c);
    }
  }

  /** In every reachable state, no event of any run changes or deletes a contact
      that differs from what that run's origin last agreed to. */
  lemma SyncKeepsLocalEdit(n: Normal, w: World, e: Event, c: nat)
    requires WorldInv(w) && IsSync(e) && c in w.tables.contacts
    requires (e.Record? || e.CrashInUpdate?) && Live(w, e.run) ==> EditedSince(n, w.tables, OriginOf(w, e.run), c)
    ensures var t' := Step(n, w, e).tables;
            c in t'.contacts && t'.contacts[c] in {w.tables.contacts[c], w.tables.contacts[c].(conflict := BothChanged)}
  {
    match e
    case Record(run) =>
      if HasRecord(w, run) { PullKeepsLocalEdit(n, w.tables, OriginOf(w, run), NextRecord(w, run), c); }
    case CrashInUpdate(run) => if Live(w, run) { CrashKeepsContact(n, w, run, c); }
    case PushOne(run, key, outcome) => PushKeepsContact(n, w, run, key, outcome, c);
    case _ => TablesStay(n, w, e);
  }

  lemma TombsStay(n: Normal, w: World, e: Event, tomb: Tomb)
    requires tomb in w.tables.tombs && !e.Record?
    ensures tomb in Step(n, w, e).tables.tombs
  {
  }

  lemma RecordKeepsBuried(n: Normal, w: World, run: nat, o: Origin, sourceId: string)
    requires RowsInv(w) && o.id in w.rows && w.rows[o.id].origin == o && HasRecord(w, run)
    requires Buried(w.tables, o, sourceId)
    ensures Buried(Step(n, w, Record(run)).tables, o, sourceId)
    ensures OriginOf(w, run) == o && NextRecord(w, run).sourceId == sourceId ==>
              Step(n, w, Record(run)).tables == w.tables
  {
    ApplyKeepsBuried(n, w.tables, OriginOf(w, run), NextRecord(w, run), o, sourceId);
  }

  lemma StepKeepsBuried(n: Normal, w: World, e: Event, o: Origin, sourceId: string)
    requires WorldInv(w) && o.id in w.rows && w.rows[o.id].origin == o
    requires Buried(w.tables, o, sourceId)
    ensures Buried(Step(n, w, e).tables, o, sourceId)
    ensures e.Record? && HasRecord(w, e.run) && OriginOf(w, e.run) == o && NextRecord(w, e.run).sourceId == sourceId ==>
              Step(n, w, e).tables == w.tables
  {
    if e.Record? {
      if HasRecord(w, e.run) { RecordKeepsBuried(n, w, e.run, o, sourceId); }
    } else {
      TombsStay(n, w, e, TombOf(o, sourceId));
      OthersLinkNothing(n, w, e, LinkKey(o.id, sourceId));
    }
  }

  /** No resurrection: once a source id is tombstoned and unlinked, nothing that
      can happen links it again, full resyncs and merges included. */
  lemma {:induction false} NoResurrection(n: Normal, w: World, es: seq<Event>, o: Origin, sourceId: string)
    requires WorldInv(w) && o.id in w.rows && w.rows[o.id].origin == o
    requires Buried(w.tables, o, sourceId)
    ensures Buried(Exec(n, w, es).tables, o, sourceId)
    decreases es
  {
    if es != [] {
      StepKeepsInv(n, w, es[0]);
      StepKeepsRow(n, w, es[0], o.id);
      StepKeepsBuried(n, w, es[0], o, sourceId);
      NoResurrection(n, Step(n, w, es[0]), es[1..], o, sourceId);
    }
  }

  /** Connecting the same account again does not help either: its new origin
      starts with every tombstone of the account in force. */
  lemma ReconnectFindsBuried(n: Normal, w: World, es: seq<Event>, o: Origin, twoWay: bool, sourceId: string)
    requires WorldInv(w) && o.id !in w.rows && TombOf(o, sourceId) in w.tables.tombs
    ensures Buried(Exec(n, Step(n, w, SetMode(o, twoWay)), es).tables, o, sourceId)
  {
    StepKeepsInv(n, w, SetMode(o, twoWay));
    NoResurrection(n, Step(n, w, SetMode(o, twoWay)), es, o, sourceId);
  }

  /** The cursor a finishing run puts in place: that of the last page it applied, or,
      if that page carried none, the one the run had loaded, null after an expiry. */
  ghost predicate DeltaEarned(r: Run, d: Option<Cursor>) {
    d == (if r.fullResync then None else r.start) || EndsWith(r.whole, d)
  }

  lemma OthersKeepDelta(n: Normal, w: World, e: Event, id: string)
    requires id in w.rows && !e.Finish?
    ensures var rows := Step(n, w, e).rows;
            && id in rows
            && (|| rows[id].delta == w.rows[id].delta
                || (rows[id].delta.None? && e == Stop(id))
                || (rows[id].delta.None? && e.Respond? && e.answer.Expired? && Live(w, e.run)
                   && w.runs[e.run].origin == id))
  {
  }

  lemma FinishSetsDelta(n: Normal, w: World, run: nat, id: string)
    requires RunsInv(w) && id in w.rows
    ensures var rows := Step(n, w, Finish(run)).rows;
            && id in rows
            && (|| rows[id].delta == w.rows[id].delta
                || (&& Live(w, run) && w.runs[run].origin == id && w.runs[run].phase.Pulled?
                    && DeltaEarned(w.runs[run], rows[id].delta)))
  {
    if run in w.runs { assert RunSound(w.runs[run]); }
  }

  /** Cursor safety, step by step. The stored delta cursor changes only when the origin
      is stopped or a run of it learns that it expired, which null it, and when a run
      of it finishes, which puts an earned one in place. So failed, bounded and crashed
      runs keep it. */
  lemma DeltaAdvancesOnlyAfterLastPage(n: Normal, w: World, e: Event, id: string)
    requires WorldInv(w) && id in w.rows && id in Step(n, w, e).rows
    ensures var d := Step(n, w, e).rows[id].delta;
            || d == w.rows[id].delta
            || (d.None? && e == Stop(id))
            || (d.None? && e.Respond? && e.answer.Expired? && Live(w, e.run) && w.runs[e.run].origin == id)
            || (&& e.Finish? && Live(w, e.run) && w.runs[e.run].origin == id && w.runs[e.run].phase.Pulled?
                && DeltaEarned(w.runs[e.run], d))
  {
    if e.Finish? { FinishSetsDelta(n, w, e.run, id); } else { OthersKeepDelta(n, w, e, id); }
  }

  /** A failure keeps the delta cursor and forgets the page: unless access was revoked
      the next claim starts the same listing over, and a revoked origin is not claimed. */
  lemma FailureRestartsListing(n: Normal, w: World, id: string, revoked: bool, run: nat, maxPages: nat)
    requires id in w.rows && run !in w.runs
    ensures var failed := FailRow(w, id, revoked);
            var next := Step(n, failed, Claim(run, id, maxPages));
            && failed.rows[id].delta == w.rows[id].delta && failed.tables == w.tables
            && (revoked ==> next == failed)
            && (!revoked ==>
                  && run in next.runs && next.runs[run].phase == Asking && next.runs[run].page.None?
                  && next.runs[run].delta == w.rows[id].delta)
  {
  }

  // ------------------------------------------------------------ the conflict flag

  predicate Flagged(t: Tables, c: nat) { c in t.contacts && t.contacts[c].conflict == BothChanged }

  predicate Unflags(n: Normal, t: Tables, o: Origin, r: Remote, c: nat) {
    var k := LinkKey(o.id, r.sourceId);
    k in t.links && t.links[k].contact == c && Decide(n, t, o, r) == Updated
  }

  lemma EffectFlags(n: Normal, t: Tables, o: Origin, r: Remote, action: Action, c: nat)
    requires action in {Deleted, Conflicted, Updated} ==> LinkKey(o.id, r.sourceId) in t.links
    requires Flagged(t, c) && c < t.next
    requires action == Updated && t.links[LinkKey(o.id, r.sourceId)].contact == c ==> t.contacts[c].owner == o.owner
    ensures var t' := Effect(n, t, o, r, action);
            c in t'.contacts && !Flagged(t', c) <==>
              action == Updated && t.links[LinkKey(o.id, r.sourceId)].contact == c
  {
  }

  /** A record clears the flag exactly when it updates the contact: it changed at the
      provider, and here it is as it was agreed. */
  lemma FlagClearsIff(n: Normal, t: Tables, o: Origin, r: Remote, c: nat)
    requires Sound(t, o) && Flagged(t, c)
    ensures var t' := Apply(n, t, o, r); c in t'.contacts && !Flagged(t', c) <==> Unflags(n, t, o, r, c)
  {
    var k := LinkKey(o.id, r.sourceId);
    if k in t.links { assert LinkSound(t, t.links[k]); }
    EffectFlags(n, t, o, r, Decide(n, t, o, r), c);
  }

  /** Both sides may have come to agree again: pulling the agreed values leaves the flag
      where it is, and the push pass does not ask for the contact. */
  lemma AgreementKeepsFlag(n: Normal, t: Tables, o: Origin, r: Remote)
    requires Sound(t, o) && LinkKey(o.id, r.sourceId) in t.links && !r.deleted
    requires var c := t.links[LinkKey(o.id, r.sourceId)].contact;
             Flagged(t, c) && c in t.contacts && Fingerprint(n, r.fields) == Fingerprint(n, t.contacts[c].fields)
    ensures var k, t' := LinkKey(o.id, r.sourceId), Apply(n, t, o, r);
            && Flagged(t', t.links[k].contact) && k !in LinksToPush(t', o)
            && t'.links[k].localPrint == t'.links[k].remotePrint
  {
    assert LinkSound(t, t.links[LinkKey(o.id, r.sourceId)]);
  }

  lemma CrashFlags(n: Normal, w: World, run: nat, c: nat)
    requires Inv(w.tables) && Flagged(w.tables, c) && !Flagged(Step(n, w, CrashInUpdate(run)).tables, c)
    ensures HasRecord(w, run) && Unflags(n, w.tables, OriginOf(w, run), NextRecord(w, run), c)
  {
    var t := w.tables;
    if HasRecord(w, run) && Decide(n, t, OriginOf(w, run), NextRecord(w, run)) == Updated {
      var k := LinkKey(OriginOf(w, run).id, NextRecord(w, run).sourceId);
      CrashInUpdateWrites(n, w, run, t.links[k].contact);
    }
  }

  lemma PeopleKeepFlag(n: Normal, w: World, e: Event, c: nat)
    requires Inv(w.tables) && Flagged(w.tables, c) && (e.Add? || e.Remove? || e.MergeTwo? || e.Bury? || e.PushOne?)
    requires c in Step(n, w, e).tables.contacts
    ensures Flagged(Step(n, w, e).tables, c)
  {
  }

  /** Nothing else clears it: while the contact is there, only a record that updates it,
      perhaps stopped half way, or an edit of that very contact. */
  lemma OnlyUpdatesClearFlag(n: Normal, w: World, e: Event, c: nat)
    requires WorldInv(w) && Flagged(w.tables, c) && c in Step(n, w, e).tables.contacts
    requires !Flagged(Step(n, w, e).tables, c)
    ensures || (e.Edit? && e.contact == c)
            || ((e.Record? || e.CrashInUpdate?) && HasRecord(w, e.run)
                && Unflags(n, w.tables, OriginOf(w, e.run), NextRecord(w, e.run), c))
  {
    if TablesRest(e) {
      TablesStay(n, w, e);
    } else if e.Record? {
      if HasRecord(w, e.run) { FlagClearsIff(n, w.tables, OriginOf(w, e.run), NextRecord(w, e.run), c); }
    } else if e.CrashInUpdate? {
      CrashFlags(n, w, e.run, c);
    } else if !e.Edit? {
      PeopleKeepFlag(n, w, e, c);
    }
  }

  // --------------------------------------------------------- stopping an origin

  /** Nobody chose a mode for the origin again. */
  predicate NoMode(es: seq<Event>, id: string) { forall e | e in es :: e.SetMode? ==> e.origin.id != id }

  ghost predicate NoRunOf(w: World, id: string) { forall run | run in w.runs :: w.runs[run].origin != id }

  predicate IsStopped(w: World, id: string) { id in w.rows && w.rows[id].status == Disconnected }

  lemma StoppedStep(n: Normal, w: World, e: Event, id: string)
    requires IsStopped(w, id) && NoRunOf(w, id) && !(e.SetMode? && e.origin.id == id)
    ensures IsStopped(Step(n, w, e), id)
  {
    if RowsRest(e) { RowsStay(n, w, e); }
  }

  lemma StoppedRuns(n: Normal, w: World, e: Event, id: string)
    requires IsStopped(w, id) && NoRunOf(w, id)
    ensures NoRunOf(Step(n, w, e), id)
  {
  }

  lemma {:induction false} StoppedWithoutRuns(n: Normal, w: World, es: seq<Event>, id: string)
    requires IsStopped(w, id) && NoRunOf(w, id) && NoMode(es, id)
    ensures IsStopped(Exec(n, w, es), id)
    decreases es
  {
    if es != [] {
      assert es[0] in es && forall e | e in es[1..] :: e in es;
      StoppedStep(n, w, es[0], id);
      StoppedRuns(n, w, es[0], id);
      StoppedWithoutRuns(n, Step(n, w, es[0]), es[1..], id);
    }
  }

  lemma RunRevives(n: Normal, w: World, id: string, run: nat)
    requires IsStopped(w, id) && run in w.runs && w.runs[run].origin == id
    ensures !IsStopped(Exec(n, w, [Throw(run, false)]), id)
    ensures w.runs[run].phase.Pulled? ==> !IsStopped(Exec(n, w, [Finish(run)]), id)
  {
    assert [Throw(run, false)][1..] == [] && [Finish(run)][1..] == [];
  }

  /** A stopped origin stays stopped, whatever happens but choosing a mode for it again,
      exactly when no run of it is still going: the last update of such a run, also of
      a failing one, does not look at the status and puts the origin back in service. */
  lemma StoppedStaysIff(n: Normal, w: World, id: string)
    requires IsStopped(w, id)
    ensures (forall es | NoMode(es, id) :: IsStopped(Exec(n, w, es), id)) <==> NoRunOf(w, id)
  {
    if NoRunOf(w, id) {
      forall es | NoMode(es, id) ensures IsStopped(Exec(n, w, es), id) { StoppedWithoutRuns(n, w, es, id); }
    } else {
      var run :| run in w.runs && w.runs[run].origin == id;
      RunRevives(n, w, id, run);
      assert NoMode([Throw(run, false)], id);
    }
  }
}

/** One syncOrigin call, from its claim to its end, as a path of the state machine. */
module ContactDrive {
  import opened Options
  import opened ContactRecords
  import opened ContactTables
  import opened ContactMerge
  import opened ContactRuns
  import opened ContactConvergence

  /** What the call does next, given the provider's remaining answers. Running
      out of answers is a failed request. */
  function NextEvent(w: World, run: nat, answers: seq<Answer>, pushes: seq<(LinkKey, PushOutcome)>): Event
    requires Live(w, run)
  {
    match w.runs[run].phase
    case Asking =>
      if w.runs[run].fuel == 0 then Bound(run)
      else Respond(run, if answers == [] then Broken(false) else answers[0])
    case Applying(_, _) => if HasRecord(w, run) then Record(run) else Turn(run)
    case Pulled =>
      if pushes != [] && w.rows[w.runs[run].origin].twoWay then PushOne(run, pushes[0].0, pushes[0].1) else Finish(run)
  }

  function Rest<T>(xs: seq<T>, used: bool): seq<T> { if used && xs != [] then xs[1..] else xs }

  function Rank(w: World, run: nat): nat {
    if !Live(w, run) then 0
    else match w.runs[run].phase
      case Asking => 1
      case Applying(listing, at) => 2 + if at < |listing.contacts| then |listing.contacts| - at else 0
      case Pulled => 0
  }

  function Fuel(w: World, run: nat): nat { if Live(w, run) then w.runs[run].fuel else 0 }

  /** Runs the call to its end. */
  function Drive(n: Normal, w: World, run: nat, answers: seq<Answer>, pushes: seq<(LinkKey, PushOutcome)>): World
    decreases Fuel(w, run), Rank(w, run), |pushes|, Live(w, run)
  {
    if !Live(w, run) then w
    else
      var e := NextEvent(w, run, answers, pushes);
      Drive(n, Step(n, w, e), run, Rest(answers, e.Respond?), Rest(pushes, e.PushOne?))
  }

  /** A call is a path of the machine, so every theorem about paths is about it. */
  lemma {:induction false} DriveIsExec(
      n: Normal, w: World, run: nat, answers: seq<Answer>, pushes: seq<(LinkKey, PushOutcome)>) returns (es: seq<Event>)
    ensures Exec(n, w, es) == Drive(n, w, run, answers, pushes)
    decreases Fuel(w, run), Rank(w, run), |pushes|, Live(w, run)
  {
    if !Live(w, run) {
      es := [];
    } else {
      var e := NextEvent(w, run, answers, pushes);
      es := DriveIsExec(n, Step(n, w, e), run, Rest(answers, e.Respond?), Rest(pushes, e.PushOne?));
      es := [e] + es;
      assert es[1..] + [] == es[1..];
    }
  }

  // ------------------------------------------- the call, page by page

  /** What one syncOrigin call can see: the tables, its own row, its locals. */
  datatype Call = Call(tables: Tables, row: Row, run: Run, gone: bool)

  function ApplyAll(n: Normal, t: Tables, o: Origin, rs: seq<Remote>): Tables
    decreases rs
  {
    if rs == [] then t else ApplyAll(n, Apply(n, t, o, rs[0]), o, rs[1..])
  }

  function PushAll(n: Normal, t: Tables, o: Origin, pushes: seq<(LinkKey, PushOutcome)>): Tables
    decreases pushes
  {
    if pushes == [] then t else PushAll(n, Push(n, t, o, pushes[0].0, pushes[0].1), o, pushes[1..])
  }

  function FailedRow(row: Row, revoked: bool): Row {
    row.(status := if revoked then Disconnected else Failing, page := None)
  }

  /** One turn of the page loop. */
  function OnePage(n: Normal, c: Call, answer: Answer): Call
    requires c.run.fuel > 0
  {
    match answer
    case Broken(revoked) => c.(row := FailedRow(c.row, revoked), gone := true)
    case Expired =>
      c.(row := c.row.(delta := None, page := None),
         run := c.run.(delta := None, page := None, fuel := c.run.fuel - 1, whole := [], fullResync := true))
    case Listed(listing) =>
      var next := c.run.(page := listing.nextPage, whole := c.run.whole + [listing], fuel := c.run.fuel - 1);
      var t := ApplyAll(n, c.tables, c.row.origin, listing.contacts);
      if listing.nextPage.Some? then Call(t, c.row.(page := listing.nextPage), next, false)
      else
        var delta := if listing.nextDelta.Some? then listing.nextDelta else c.run.delta;
        Call(t, c.row, next.(phase := Pulled, delta := delta), false)
  }

  function Answered(answers: seq<Answer>): Answer { if answers == [] then Broken(false) else answers[0] }

  /** The page loop. */
  function Pages(n: Normal, c: Call, answers: seq<Answer>): Call
    decreases c.run.fuel
  {
    if c.gone || !c.run.phase.Asking? || c.run.fuel == 0 then c
    else
      var c' := OnePage(n, c, Answered(answers));
      if c'.gone then c' else Pages(n, c', Rest(answers, true))
  }

  /** A finished call: the success is published. */
  function Finished(c: Call, t: Tables): Call { Call(t, Published(c.row, c.run.delta), c.run, true) }

  /** After the loop: an unfinished run keeps its checkpoint, a finished one pushes and publishes. */
  function AfterPages(n: Normal, c: Call, outcome: LinkKey -> PushOutcome): Call {
    if c.gone then c
    else if c.run.page.Some? then c.(row := c.row.(status := Idle, page := c.run.page), gone := true)
    else Finished(c, if c.row.twoWay then PushPass(n, c.tables, c.row.origin, outcome) else c.tables)
  }

  function Claimed(t: Tables, row: Row, id: string, maxPages: nat): Call {
    Call(t, row.(status := Syncing), Run(id, row.delta, row.delta, row.page, maxPages, Asking, [], false), false)
  }

  /** The whole world with the call in it. */
  function Embed(c: Call, id: string, rows: map<string, Row>, run: nat): World {
    World(c.tables, rows[id := c.row], if c.gone then map[] else map[run := c.run])
  }

  /** The call with the records of its page applied. */
  function PageApplied(n: Normal, c: Call): Call
    requires c.run.phase.Applying? && c.run.phase.at <= |c.run.phase.listing.contacts|
  {
    var listing := c.run.phase.listing;
    c.(tables := ApplyAll(n, c.tables, c.row.origin, listing.contacts[c.run.phase.at..]),
       run := c.run.(phase := Applying(listing, |listing.contacts|)))
  }

  lemma StepRecords(n: Normal, c: Call, c': Call, id: string, rows: map<string, Row>, run: nat)
    requires !c.gone && c.run.origin == id && c.run.phase.Applying? && c.run.phase.at < |c.run.phase.listing.contacts|
    requires c' == c.(tables := Apply(n, c.tables, c.row.origin, c.run.phase.listing.contacts[c.run.phase.at]),
                      run := c.run.(phase := c.run.phase.(at := c.run.phase.at + 1)))
    ensures Step(n, Embed(c, id, rows, run), Record(run)) == Embed(c', id, rows, run)
    ensures PageApplied(n, c') == PageApplied(n, c)
  {
    var listing, at := c.run.phase.listing, c.run.phase.at;
    assert listing.contacts[at..][1..] == listing.contacts[at + 1..];
  }

  lemma {:induction false} DriveRecords(
      n: Normal, c: Call, id: string, rows: map<string, Row>, run: nat, answers: seq<Answer>,
      pushes: seq<(LinkKey, PushOutcome)>)
    requires !c.gone && c.run.origin == id && c.run.phase.Applying? && c.run.phase.at <= |c.run.phase.listing.contacts|
    ensures Drive(n, Embed(c, id, rows, run), run, answers, pushes)
         == Drive(n, Embed(PageApplied(n, c), id, rows, run), run, answers, pushes)
    decreases |c.run.phase.listing.contacts| - c.run.phase.at
  {
    var listing, at := c.run.phase.listing, c.run.phase.at;
    if at < |listing.contacts| {
      var c' := c.(tables := Apply(n, c.tables, c.row.origin, listing.contacts[at]),
          run := c.run.(phase := Applying(listing, at + 1)));
      StepRecords(n, c, c', id, rows, run);
      DriveUnfolds(n, Embed(c, id, rows, run), run, answers, pushes, Record(run), Embed(c', id, rows, run));
      DriveRecords(n, c', id, rows, run, answers, pushes);
    } else {
      assert PageApplied(n, c) == c;
    }
  }

  /** The machine takes the step the call is about to take. */
  lemma DriveUnfolds(
      n: Normal, w: World, run: nat, answers: seq<Answer>, pushes: seq<(LinkKey, PushOutcome)>, e: Event, w': World)
    requires Live(w, run) && e == NextEvent(w, run, answers, pushes) && w' == Step(n, w, e)
    ensures Drive(n, w, run, answers, pushes) == Drive(n, w', run, Rest(answers, e.Respond?), Rest(pushes, e.PushOne?))
  {
  }

  lemma StepResponds(n: Normal, c: Call, id: string, rows: map<string, Row>, run: nat, answer: Answer)
    requires !c.gone && c.run.origin == id && c.run.phase.Asking? && c.run.fuel > 0
    ensures Step(n, Embed(c, id, rows, run), Respond(run, answer)) ==
            if answer.Listed? then
                Embed(c.(run := c.run.(phase := Applying(answer.listing, 0), fuel := c.run.fuel - 1)), id, rows, run)
            else Embed(OnePage(n, c, answer), id, rows, run)
  {
  }

  lemma RowTwice(rows: map<string, Row>, id: string, a: Row, b: Row)
    ensures rows[id := a][id := b] == rows[id := b]
  {
  }

  lemma TurnContinues(n: Normal, c: Call, c1: Call, id: string, rows: map<string, Row>, run: nat, listing: Page)
    requires !c.gone && c.run.origin == id && c.run.phase.Asking? && c.run.fuel > 0 && listing.nextPage.Some?
    requires c1 == c.(tables := ApplyAll(n, c.tables, c.row.origin, listing.contacts),
                      run := c.run.(phase := Applying(listing, |listing.contacts|), fuel := c.run.fuel - 1))
    ensures Turn'(Embed(c1, id, rows, run), run) == Embed(OnePage(n, c, Listed(listing)), id, rows, run)
  {
    RowTwice(rows, id, c.row, c.row.(page := listing.nextPage));
  }

  lemma TurnLeaves(n: Normal, c: Call, c1: Call, id: string, rows: map<string, Row>, run: nat, listing: Page)
    requires !c.gone && c.run.origin == id && c.run.phase.Asking? && c.run.fuel > 0 && listing.nextPage.None?
    requires c1 == c.(tables := ApplyAll(n, c.tables, c.row.origin, listing.contacts),
                      run := c.run.(phase := Applying(listing, |listing.contacts|), fuel := c.run.fuel - 1))
    ensures Turn'(Embed(c1, id, rows, run), run) == Embed(OnePage(n, c, Listed(listing)), id, rows, run)
  {
  }

  lemma StepTurns(n: Normal, w: World, run: nat)
    requires Live(w, run) && w.runs[run].phase.Applying? && !HasRecord(w, run)
    ensures Step(n, w, Turn(run)) == Turn'(w, run)
  {
  }

  lemma DriveOnePage(
      n: Normal, c: Call, id: string, rows: map<string, Row>, run: nat, answers: seq<Answer>,
      pushes: seq<(LinkKey, PushOutcome)>)
    requires !c.gone && c.run.origin == id && c.run.phase.Asking? && c.run.fuel > 0
    ensures Drive(n, Embed(c, id, rows, run), run, answers, pushes)
         == Drive(n, Embed(OnePage(n, c, Answered(answers)), id, rows, run), run, Rest(answers, true), pushes)
  {
    var w := Embed(c, id, rows, run);
    var answer := Answered(answers);
    StepResponds(n, c, id, rows, run, answer);
    DriveUnfolds(n, w, run, answers, pushes, Respond(run, answer), Step(n, w, Respond(run, answer)));
    if answer.Listed? { DriveListed(n, c, id, rows, run, answer.listing, Rest(answers, true), pushes); }
  }

  lemma DriveListed(
      n: Normal, c: Call, id: string, rows: map<string, Row>, run: nat, listing: Page, answers: seq<Answer>,
      pushes: seq<(LinkKey, PushOutcome)>)
    requires !c.gone && c.run.origin == id && c.run.phase.Asking? && c.run.fuel > 0
    ensures Drive(n, Embed(c.(run := c.run.(phase := Applying(listing, 0), fuel := c.run.fuel - 1)), id, rows, run),
              run, answers, pushes)
         == Drive(n, Embed(OnePage(n, c, Listed(listing)), id, rows, run), run, answers, pushes)
  {
    var c0 := c.(run := c.run.(phase := Applying(listing, 0), fuel := c.run.fuel - 1));
    var c1 := c.(tables := ApplyAll(n, c.tables, c.row.origin, listing.contacts),
                 run := c.run.(phase := Applying(listing, |listing.contacts|), fuel := c.run.fuel - 1));
    assert listing.contacts[0..] == listing.contacts;
    DriveRecords(n, c0, id, rows, run, answers, pushes);
    if listing.nextPage.Some? {
      TurnContinues(n, c, c1, id, rows, run, listing);
    } else {
      TurnLeaves(n, c, c1, id, rows, run, listing);
    }
    StepTurns(n, Embed(c1, id, rows, run), run);
    DriveUnfolds(n, Embed(c1, id, rows, run), run, answers, pushes, Turn(run),
        Embed(OnePage(n, c, Listed(listing)), id, rows, run));
  }

  lemma {:induction false} DrivePages(
      n: Normal, c: Call, id: string, rows: map<string, Row>, run: nat, answers: seq<Answer>,
      pushes: seq<(LinkKey, PushOutcome)>) returns (left: seq<Answer>)
    requires c.run.origin == id
    ensures Drive(n, Embed(c, id, rows, run), run, answers, pushes)
              == Drive(n, Embed(Pages(n, c, answers), id, rows, run), run, left, pushes)
    ensures Pages(n, c, answers).run.origin == id
    decreases c.run.fuel
  {
    left := answers;
    if !c.gone && c.run.phase.Asking? && c.run.fuel > 0 {
      DriveOnePage(n, c, id, rows, run, answers, pushes);
      left := Rest(answers, true);
      var c' := OnePage(n, c, Answered(answers));
      if !c'.gone { left := DrivePages(n, c', id, rows, run, left, pushes); }
    }
  }

  lemma {:induction false} DrivePushes(
      n: Normal, c: Call, id: string, rows: map<string, Row>, run: nat, answers: seq<Answer>,
      pushes: seq<(LinkKey, PushOutcome)>)
    requires !c.gone && c.run.origin == id && c.run.phase.Pulled? && c.run.page.None?
    ensures Drive(n, Embed(c, id, rows, run), run, answers, pushes) ==
            Embed(Finished(c, if c.row.twoWay then PushAll(n, c.tables, c.row.origin, pushes) else c.tables), id, rows,
                run)
    decreases pushes
  {
    var w := Embed(c, id, rows, run);
    if pushes != [] && c.row.twoWay {
      var c' := c.(tables := Push(n, c.tables, c.row.origin, pushes[0].0, pushes[0].1));
      assert Step(n, w, PushOne(run, pushes[0].0, pushes[0].1)) == Embed(c', id, rows, run);
      DrivePushes(n, c', id, rows, run, answers, pushes[1..]);
    } else {
      assert Step(n, w, Finish(run)) == Embed(Finished(c, c.tables), id, rows, run);
    }
  }

  /** The pushes go through these links, once each, in some order. */
  ghost predicate Enumerates(pushes: seq<(LinkKey, PushOutcome)>, keys: set<LinkKey>, outcome: LinkKey -> PushOutcome) {
    && (forall i | 0 <= i < |pushes| :: pushes[i].0 in keys && pushes[i].1 == outcome(pushes[i].0))
    && (forall k | k in keys :: exists i | 0 <= i < |pushes| :: pushes[i].0 == k)
    && (forall i, j | 0 <= i < j < |pushes| :: pushes[i].0 != pushes[j].0)
  }

  /** Pushing link by link comes to the same tables in every order. */
  lemma {:induction false} PushAllIsPass(
      n: Normal, t: Tables, o: Origin, done: set<LinkKey>, keys: set<LinkKey>, pushes: seq<(LinkKey, PushOutcome)>,
      outcome: LinkKey -> PushOutcome)
    requires Enumerates(pushes, keys, outcome) && done !! keys
    requires forall k | k in keys :: k in t.links && k.origin == o.id
    ensures PushAll(n, Pushed(n, t, o, done, outcome), o, pushes) == Pushed(n, t, o, done + keys, outcome)
    decreases pushes
  {
    if pushes == [] {
      assert done + keys == done;
    } else {
      var k := pushes[0].0;
      PushOneMore(n, t, o, done, outcome, k);
      forall k' | k' in keys - {k} ensures exists i | 0 <= i < |pushes[1..]| :: pushes[1..][i].0 == k' {
        var i :| 0 <= i < |pushes| && pushes[i].0 == k';
        assert pushes[1..][i - 1].0 == k';
      }
      assert done + keys == (done + {k}) + (keys - {k});
      PushAllIsPass(n, t, o, done + {k}, keys - {k}, pushes[1..], outcome);
    }
  }

  /** When the loop is over the call has left it through a page without a
      successor, or by its bound. */
  lemma {:induction false} PagesEnd(n: Normal, c: Call, answers: seq<Answer>)
    requires c.run.phase.Asking? || (c.run.phase.Pulled? && c.run.page.None?)
    ensures var e := Pages(n, c, answers);
            e.gone || (e.run.phase.Asking? && e.run.fuel == 0) || (e.run.phase.Pulled? && e.run.page.None?)
    decreases c.run.fuel
  {
    if !c.gone && c.run.phase.Asking? && c.run.fuel > 0 {
      var c' := OnePage(n, c, Answered(answers));
      if !c'.gone { PagesEnd(n, c', Rest(answers, true)); }
    }
  }

  lemma DriveFinishes(
      n: Normal, c: Call, id: string, rows: map<string, Row>, run: nat, answers: seq<Answer>,
      pushes: seq<(LinkKey, PushOutcome)>, outcome: LinkKey -> PushOutcome)
    requires !c.gone && c.run.origin == id && c.run.phase.Pulled? && c.run.page.None?
    requires Enumerates(pushes, LinksToPush(c.tables, c.row.origin), outcome)
    ensures Drive(n, Embed(c, id, rows, run), run, answers, pushes) == Embed(AfterPages(n, c, outcome), id, rows, run)
  {
    DrivePushes(n, c, id, rows, run, answers, pushes);
    NothingPushed(n, c.tables, c.row.origin, outcome);
    assert {} + LinksToPush(c.tables, c.row.origin) == LinksToPush(c.tables, c.row.origin);
    PushAllIsPass(n, c.tables, c.row.origin, {}, LinksToPush(c.tables, c.row.origin), pushes, outcome);
  }

  /** A run that ran out of pages either left a checkpoint or goes on as if finished. */
  lemma DriveBound(
      n: Normal, c: Call, id: string, rows: map<string, Row>, run: nat, answers: seq<Answer>,
      pushes: seq<(LinkKey, PushOutcome)>, outcome: LinkKey -> PushOutcome)
    requires !c.gone && c.run.origin == id && c.run.phase.Asking? && c.run.fuel == 0
    requires Enumerates(pushes, LinksToPush(c.tables, c.row.origin), outcome)
    ensures var end := AfterPages(n, c, outcome);
            Drive(n, Embed(c, id, rows, run), run, answers, pushes) == World(end.tables, rows[id := end.row], map[])
  {
    var w := Embed(c, id, rows, run);
    if c.run.page.Some? {
      assert Step(n, w, Bound(run)) == Embed(AfterPages(n, c, outcome), id, rows, run);
    } else {
      var c' := c.(run := c.run.(phase := Pulled));
      assert Step(n, w, Bound(run)) == Embed(c', id, rows, run);
      DriveFinishes(n, c', id, rows, run, answers, pushes, outcome);
    }
  }

  /** A call's effect, computed page by page and in one pass of pushes, is the machine
      run to its end with the pushes in any order. */
  lemma CallIsDrive(
      n: Normal, w: World, id: string, maxPages: nat, answers: seq<Answer>, pushes: seq<(LinkKey, PushOutcome)>,
      outcome: LinkKey -> PushOutcome)
    requires w.runs == map[] && id in w.rows && w.rows[id].status in {Idle, Failing}
    requires var e := Pages(n, Claimed(w.tables, w.rows[id], id, maxPages), answers);
             Enumerates(pushes, LinksToPush(e.tables, e.row.origin), outcome)
    ensures var end := AfterPages(n, Pages(n, Claimed(w.tables, w.rows[id], id, maxPages), answers), outcome);
            World(end.tables, w.rows[id := end.row], map[]) ==
            Drive(n, Step(n, w, Claim(0, id, maxPages)), 0, answers, pushes)
  {
    var c := Claimed(w.tables, w.rows[id], id, maxPages);
    assert Step(n, w, Claim(0, id, maxPages)) == Embed(c, id, w.rows, 0);
    var left := DrivePages(n, c, id, w.rows, 0, answers, pushes);
    PagesEnd(n, c, answers);
    var e := Pages(n, c, answers);
    if !e.gone {
      if e.run.phase.Asking? {
        DriveBound(n, e, id, w.rows, 0, left, pushes, outcome);
      } else {
        DriveFinishes(n, e, id, w.rows, 0, left, pushes, outcome);
      }
    }
  }

  /** No page without a successor has been applied. */
  ghost predicate LastPageUnread(r: Run) { forall p | p in r.whole :: p.nextPage.Some? }

  lemma {:induction false} PagesKeepMark(n: Normal, c: Call, answers: seq<Answer>)
    requires c.run.phase.Asking? && LastPageUnread(c.run)
    ensures var e := Pages(n, c, answers);
            e.row.published == c.row.published && (LastPageUnread(e.run) <==> !e.run.phase.Pulled?)
    decreases c.run.fuel
  {
    if !c.gone && c.run.fuel > 0 {
      var c' := OnePage(n, c, Answered(answers));
      if !c'.gone && c'.run.phase.Asking? { PagesKeepMark(n, c', Rest(answers, true)); }
    }
  }

  /** The page bound was reached with no page cursor left. */
  lemma {:induction false} BoundUnreadIff(n: Normal, c: Call, answers: seq<Answer>)
    requires !c.gone && c.run.phase.Asking?
    ensures var e, fuel := Pages(n, c, answers), c.run.fuel;
            !e.gone && e.run.phase.Asking? && e.run.page.None? <==>
              && fuel <= |answers|
              && (forall i | 0 <= i < fuel ::
                    answers[i].Expired? || (answers[i].Listed? && answers[i].listing.nextPage.Some?))
              && if fuel == 0 then c.run.page.None? else answers[fuel - 1].Expired?
    decreases c.run.fuel
  {
    if c.run.fuel > 0 {
      var c' := OnePage(n, c, Answered(answers));
      if !c'.gone && c'.run.phase.Asking? {
        BoundUnreadIff(n, c', Rest(answers, true));
        assert forall i | 0 <= i < |answers| - 1 :: Rest(answers, true)[i] == answers[i + 1];
        assert forall i | 1 <= i < |answers| :: answers[i] == Rest(answers, true)[i - 1];
      }
    }
  }

  /** A run cut short by its page bound must not publish success. It marks a success
      all the same, without having read the last page of any listing, exactly when the
      bound falls on an expired cursor, or is zero with no checkpoint: then no page
      cursor is left to tell it from a finished run. */
  lemma PublishesUnreadIff(n: Normal, c: Call, answers: seq<Answer>, outcome: LinkKey -> PushOutcome)
    requires !c.gone && c.run.phase.Asking? && LastPageUnread(c.run)
    ensures var e, fuel := Pages(n, c, answers), c.run.fuel;
            var end := AfterPages(n, e, outcome);
            && (end.row.published == c.row.published || end.row.published == c.row.published + 1)
            && (end.row.published == c.row.published + 1 && LastPageUnread(end.run) <==>
                  && fuel <= |answers|
                  && (forall i | 0 <= i < fuel ::
                        answers[i].Expired? || (answers[i].Listed? && answers[i].listing.nextPage.Some?))
                  && if fuel == 0 then c.run.page.None? else answers[fuel - 1].Expired?)
  {
    PagesKeepMark(n, c, answers);
    BoundUnreadIff(n, c, answers);
    PagesEnd(n, c, answers);
  }

  /** The run stands in the listing and the remaining answers are the remaining pages. */
  ghost predicate OnTrack(w: World, run: nat, answers: seq<Answer>, pages: seq<Page>, p: nat) {
    && Live(w, run) && p <= |pages| == p + |answers|
    && (forall i | 0 <= i < |answers| :: answers[i] == Listed(pages[p + i]))
    && match w.runs[run].phase
       case Asking => At(pages, w.runs[run].page, p) && w.runs[run].fuel >= |pages| - p
       case Applying(listing, at) => p > 0 && listing == pages[p - 1] && w.runs[run].fuel >= |pages| - p
       case Pulled => true
  }

  lemma AtUnique(pages: seq<Page>, cursor: Option<Cursor>, p: nat, q: nat)
    requires Chain(pages) && At(pages, cursor, p) && At(pages, cursor, q)
    ensures p == q
  {
  }

  lemma RespondOnTrack(n: Normal, w: World, run: nat, answers: seq<Answer>, pages: seq<Page>, p: nat, o: Origin)
    requires Chain(pages) && OnTrack(w, run, answers, pages, p) && w.runs[run].phase.Asking?
    ensures answers != [] && Allowed(w, Respond(run, answers[0]), o, pages)
    ensures OnTrack(Step(n, w, Respond(run, answers[0])), run, answers[1..], pages, p + 1)
  {
    assert answers[0] == Listed(pages[p + 0]);
    forall q: nat | At(pages, w.runs[run].page, q) ensures pages[q] == pages[p] {
      AtUnique(pages, w.runs[run].page, p, q);
    }
  }

  lemma RecordOnTrack(n: Normal, w: World, run: nat, answers: seq<Answer>, pages: seq<Page>, p: nat)
    requires OnTrack(w, run, answers, pages, p) && HasRecord(w, run)
    ensures OnTrack(Step(n, w, Record(run)), run, answers, pages, p)
  {
  }

  lemma TurnOnTrack(n: Normal, w: World, run: nat, answers: seq<Answer>, pages: seq<Page>, p: nat)
    requires Chain(pages) && OnTrack(w, run, answers, pages, p) && w.runs[run].phase.Applying? && !HasRecord(w, run)
    ensures OnTrack(Step(n, w, Turn(run)), run, answers, pages, p)
  {
  }

  lemma OnTrackStep(
      n: Normal, w: World, run: nat, answers: seq<Answer>, pages: seq<Page>, p: nat, o: Origin) returns (p': nat)
    requires Chain(pages) && OnTrack(w, run, answers, pages, p) && !w.runs[run].phase.Pulled?
    ensures var e := NextEvent(w, run, answers, []);
            Allowed(w, e, o, pages) && OnTrack(Step(n, w, e), run, Rest(answers, e.Respond?), pages, p')
  {
    if w.runs[run].phase.Asking? {
      p' := p + 1;
      RespondOnTrack(n, w, run, answers, pages, p, o);
    } else {
      p' := p;
      if HasRecord(w, run) {
        RecordOnTrack(n, w, run, answers, pages, p);
      } else {
        TurnOnTrack(n, w, run, answers, pages, p);
      }
    }
  }

  /** The next event brings a call that is still reading closer to its end. */
  lemma Descends(n: Normal, w: World, run: nat, answers: seq<Answer>, e: Event, w': World)
    requires Live(w, run) && !w.runs[run].phase.Pulled? && e == NextEvent(w, run, answers, []) && w' == Step(n, w, e)
    ensures Fuel(w', run) < Fuel(w, run) || (Fuel(w', run) == Fuel(w, run) && Rank(w', run) < Rank(w, run))
  {
  }

  /** What a call that reached the last page leaves behind. */
  ghost predicate Completed(n: Normal, w: World, t0: Tables, o: Origin, pages: seq<Page>, d0: Option<Cursor>)
    requires |pages| > 0
  {
    && w.tables == Pass(n, t0, o, Records(pages)) && o.id in w.rows && w.rows[o.id].delta == NextDelta(pages, d0)
    && w.rows[o.id].page == None && w.rows[o.id].status == Idle
  }

  lemma PulledCompletes(
      n: Normal, w: World, run: nat, answers: seq<Answer>, t0: Tables, o: Origin, pages: seq<Page>, d0: Option<Cursor>,
      k: nat, w': World)
    requires Chain(pages) && Progress(n, w, t0, o, pages, d0, k) && Live(w, run) && w.runs[run].phase.Pulled?
    requires w' == Step(n, w, Finish(run))
    ensures Drive(n, w, run, answers, []) == w' && Completed(n, w', t0, o, pages, d0)
  {
    PulledProgress(n, w, t0, o, pages, d0, k, run);
    FinishEnds(n, w, run);
    DriveUnfolds(n, w, run, answers, [], Finish(run), w');
  }

  lemma FinishEnds(n: Normal, w: World, run: nat)
    requires Live(w, run) && w.runs[run].phase.Pulled?
    ensures Step(n, w, Finish(run)).tables == w.tables && !Live(Step(n, w, Finish(run)), run)
  {
  }

  /** Served a whole listing within its page bound, an import-only call brings in
      exactly that listing and publishes its cursor. */
  lemma {:induction false} DriveCompletes(
      n: Normal, w: World, run: nat, answers: seq<Answer>, t0: Tables, o: Origin, pages: seq<Page>, d0: Option<Cursor>,
      k: nat, p: nat)
    requires RunsInv(w) && Sound(t0, o) && Chain(pages) && Progress(n, w, t0, o, pages, d0, k)
             && OnTrack(w, run, answers, pages, p)
    ensures Completed(n, Drive(n, w, run, answers, []), t0, o, pages, d0)
    decreases Fuel(w, run), Rank(w, run), Live(w, run)
  {
    if w.runs[run].phase.Pulled? {
      PulledCompletes(n, w, run, answers, t0, o, pages, d0, k, Step(n, w, Finish(run)));
    } else {
      var e := NextEvent(w, run, answers, []);
      var p' := OnTrackStep(n, w, run, answers, pages, p, o);
      var k' := StepProgress(n, w, e, t0, o, pages, d0, k);
      StepKeepsRuns(n, w, e);
      Descends(n, w, run, answers, e, Step(n, w, e));
      DriveUnfolds(n, w, run, answers, [], e, Step(n, w, e));
      DriveCompletes(n, Step(n, w, e), run, Rest(answers, e.Respond?), t0, o, pages, d0, k', p');
    }
  }

  /** The uninterrupted pass that Convergence compares with is itself a call. */
  lemma UninterruptedCall(n: Normal, w: World, run: nat, o: Origin, pages: seq<Page>, maxPages: nat)
    requires WorldInv(w) && w.runs == map[] && o.id in w.rows && w.rows[o.id].origin == o
    requires w.rows[o.id].page.None? && w.rows[o.id].status in {Idle, Failing}
    requires Chain(pages) && maxPages >= |pages|
    ensures var w' := Drive(n, Step(n, w, Claim(run, o.id, maxPages)), run,
              seq(|pages|, i requires 0 <= i < |pages| => Listed(pages[i])), []);
            w'.tables == Pass(n, w.tables, o, Records(pages)) && o.id in w'.rows
            && w'.rows[o.id].delta == NextDelta(pages, w.rows[o.id].delta) && w'.rows[o.id].page == None
               && w'.rows[o.id].status == Idle
  {
    var d0 := w.rows[o.id].delta;
    var e := Claim(run, o.id, maxPages);
    assert At(pages, None, 0) && Offset(pages, 0) == 0;
    assert Records(pages)[..0] == [];
    OtherProgress(n, w, e, w.tables, o, pages, d0, 0);
    StepKeepsRuns(n, w, e);
    DriveCompletes(n, Step(n, w, e), run, seq(|pages|, i requires 0 <= i < |pages| => Listed(pages[i])), w.tables, o,
        pages, d0, 0, 0);
  }
}

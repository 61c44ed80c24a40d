/** Cursor safety over whole histories: a stored delta cursor stands for a listing every
    record of which was applied by some run, whatever else happened. */
module ContactCoverage {
  import opened Options
  import opened ContactRecords
  import opened ContactTables
  import opened ContactRuns

  /** Every page but the last names a next one. */
  ghost predicate Paged(pages: seq<Page>) {
    |pages| > 0 && forall p | 0 <= p < |pages| :: pages[p].nextPage.Some? <==> p + 1 < |pages|
  }

  /** Everything the provider may list for the origin over time: full listings and
      incremental ones, any number of either. */
  type Listings = nat -> seq<Page>

  ghost predicate AllPaged(cs: Listings) { forall c: nat :: Paged(cs(c)) }

  /** Page `p` of listing `c` names this cursor for the next page. */
  ghost predicate Names(cs: Listings, c: nat, p: nat, cursor: Cursor) {
    p + 1 < |cs(c)| && cs(c)[p].nextPage == Some(cursor)
  }

  predicate RunOf(w: World, run: nat, id: string) { run in w.runs && w.runs[run].origin == id }

  /** The provider is consistent: a request without a page cursor gets the first page of
      some listing, whichever, and one with a cursor gets the page after it in every
      listing that has it. Any other event may happen at any time, to this origin and to
      others: edits, merges, deletions, pushes, failures, crashes, expiries, stops, mode
      changes, overlapping and finishing runs. */
  ghost predicate Serves(w: World, e: Event, id: string, cs: Listings) {
    e.Respond? && RunOf(w, e.run, id) && e.answer.Listed? ==>
      match w.runs[e.run].page
      case None => exists c: nat :: |cs(c)| > 0 && e.answer.listing == cs(c)[0]
      case Some(cursor) => forall c: nat, p: nat | Names(cs, c, p, cursor) :: e.answer.listing == cs(c)[p + 1]
  }

  ghost predicate Served(n: Normal, w: World, es: seq<Event>, id: string, cs: Listings)
    decreases es
  {
    es == [] || (Serves(w, es[0], id, cs) && Served(n, Step(n, w, es[0]), es[1..], id, cs))
  }

  /** The record an event applies for the origin. */
  function Delivery(w: World, e: Event, id: string): set<Remote> {
    if e.Record? && HasRecord(w, e.run) && RunOf(w, e.run, id) then {NextRecord(w, e.run)} else {}
  }

  /** Every record applied for the origin along the way, by any run. */
  function Delivered(n: Normal, w: World, es: seq<Event>, id: string): set<Remote>
    decreases es
  {
    if es == [] then {} else Delivery(w, es[0], id) + Delivered(n, Step(n, w, es[0]), es[1..], id)
  }

  // ------------------------------------------------------------- what cursors stand for

  ghost predicate PageIn(page: Page, done: set<Remote>) { forall r | r in page.contacts :: r in done }

  /** The first `p` pages are in. */
  ghost predicate PagesIn(pages: seq<Page>, p: nat, done: set<Remote>) {
    p <= |pages| && forall q | 0 <= q < p :: PageIn(pages[q], done)
  }

  /** A page cursor, if any, follows pages that are in. */
  ghost predicate PageEarned(cs: Listings, page: Option<Cursor>, done: set<Remote>) {
    page.Some? ==> exists c: nat, p: nat :: Names(cs, c, p, page.value) && PagesIn(cs(c), p + 1, done)
  }

  /** A whole listing is in, and it ended with this delta cursor. */
  ghost predicate Ends(cs: Listings, c: nat, delta: Option<Cursor>, done: set<Remote>) {
    |cs(c)| > 0 && PagesIn(cs(c), |cs(c)|, done) && cs(c)[|cs(c)| - 1].nextDelta == delta
  }

  /** A delta cursor, if any, is what some listing that is in ended with. */
  ghost predicate DeltaCovered(cs: Listings, delta: Option<Cursor>, done: set<Remote>) {
    delta.Some? ==> exists c: nat :: Ends(cs, c, delta, done)
  }

  /** A page being applied follows pages that are in, and is in up to `at`. */
  ghost predicate PartIn(cs: Listings, listing: Page, at: nat, done: set<Remote>) {
    && at <= |listing.contacts| && (forall i | 0 <= i < at :: listing.contacts[i] in done)
    && exists c: nat, p: nat :: p < |cs(c)| && cs(c)[p] == listing && PagesIn(cs(c), p, done)
  }

  ghost predicate RunCovered(cs: Listings, r: Run, done: set<Remote>) {
    && DeltaCovered(cs, r.delta, done) && PageEarned(cs, r.page, done)
    && (r.phase.Applying? ==> PartIn(cs, r.phase.listing, r.phase.at, done))
  }

  ghost predicate RunsCovered(cs: Listings, runs: map<nat, Run>, id: string, done: set<Remote>) {
    forall run | run in runs && runs[run].origin == id :: RunCovered(cs, runs[run], done)
  }

  ghost predicate RowCovered(cs: Listings, rows: map<string, Row>, id: string, done: set<Remote>) {
    id in rows ==> DeltaCovered(cs, rows[id].delta, done) && PageEarned(cs, rows[id].page, done)
  }

  ghost predicate Covered(cs: Listings, w: World, id: string, done: set<Remote>) {
    RowCovered(cs, w.rows, id, done) && RunsCovered(cs, w.runs, id, done)
  }

  // ------------------------------------------------------------------ more is in

  lemma MorePages(pages: seq<Page>, p: nat, done: set<Remote>, more: set<Remote>)
    requires PagesIn(pages, p, done) && done <= more
    ensures PagesIn(pages, p, more)
  {
    forall q | 0 <= q < p ensures PageIn(pages[q], more) { assert PageIn(pages[q], done); }
  }

  lemma MoreCursors(cs: Listings, page: Option<Cursor>, delta: Option<Cursor>, done: set<Remote>, more: set<Remote>)
    requires done <= more
    ensures PageEarned(cs, page, done) ==> PageEarned(cs, page, more)
    ensures DeltaCovered(cs, delta, done) ==> DeltaCovered(cs, delta, more)
  {
    if page.Some? && PageEarned(cs, page, done) {
      var c: nat, p: nat :| Names(cs, c, p, page.value) && PagesIn(cs(c), p + 1, done);
      MorePages(cs(c), p + 1, done, more);
    }
    if delta.Some? && DeltaCovered(cs, delta, done) {
      var c: nat :| Ends(cs, c, delta, done);
      MorePages(cs(c), |cs(c)|, done, more);
      assert Ends(cs, c, delta, more);
    }
  }

  lemma MorePart(cs: Listings, listing: Page, at: nat, done: set<Remote>, more: set<Remote>)
    requires PartIn(cs, listing, at, done) && done <= more
    ensures PartIn(cs, listing, at, more)
  {
    var c: nat, p: nat :| p < |cs(c)| && cs(c)[p] == listing && PagesIn(cs(c), p, done);
    MorePages(cs(c), p, done, more);
  }

  lemma MoreRun(cs: Listings, r: Run, done: set<Remote>, more: set<Remote>)
    requires RunCovered(cs, r, done) && done <= more
    ensures RunCovered(cs, r, more)
  {
    MoreCursors(cs, r.page, r.delta, done, more);
    if r.phase.Applying? { MorePart(cs, r.phase.listing, r.phase.at, done, more); }
  }

  lemma MoreCovered(cs: Listings, w: World, id: string, done: set<Remote>, more: set<Remote>)
    requires Covered(cs, w, id, done) && done <= more
    ensures Covered(cs, w, id, more)
  {
    if id in w.rows { MoreCursors(cs, w.rows[id].page, w.rows[id].delta, done, more); }
    forall run | run in w.runs && w.runs[run].origin == id ensures RunCovered(cs, w.runs[run], more) {
      MoreRun(cs, w.runs[run], done, more);
    }
  }

  // ------------------------------------------------------------------- each event

  lemma PutRun(cs: Listings, runs: map<nat, Run>, run: nat, r: Run, id: string, done: set<Remote>)
    requires RunsCovered(cs, runs, id, done) && (r.origin == id ==> RunCovered(cs, r, done))
    ensures RunsCovered(cs, runs[run := r], id, done)
  {
  }

  lemma RecordCovers(n: Normal, w: World, run: nat, id: string, cs: Listings, done: set<Remote>, more: set<Remote>)
    requires Covered(cs, w, id, done) && HasRecord(w, run) && more == done + Delivery(w, Record(run), id)
    ensures Covered(cs, Step(n, w, Record(run)), id, more)
  {
    var r := w.runs[run];
    var next := r.(phase := r.phase.(at := r.phase.at + 1));
    MoreCovered(cs, w, id, done, more);
    PutRun(cs, w.runs, run, next, id, more);
  }

  /** The page an answer brings follows pages that are in. */
  lemma ListedFits(w: World, run: nat, listing: Page, id: string, cs: Listings, done: set<Remote>)
    requires AllPaged(cs) && RunOf(w, run, id) && RunCovered(cs, w.runs[run], done)
    requires Serves(w, Respond(run, Listed(listing)), id, cs)
    ensures PartIn(cs, listing, 0, done)
  {
    match w.runs[run].page
    case None =>
      var c: nat :| |cs(c)| > 0 && listing == cs(c)[0];
      assert PagesIn(cs(c), 0, done);
    case Some(cursor) =>
      var c: nat, p: nat :| Names(cs, c, p, cursor) && PagesIn(cs(c), p + 1, done);
      assert cs(c)[p + 1] == listing;
  }

  lemma RespondCovers(
      n: Normal, w: World, run: nat, answer: Answer, id: string, cs: Listings, done: set<Remote>, r: Run, next: Run)
    requires AllPaged(cs) && Covered(cs, w, id, done) && Serves(w, Respond(run, answer), id, cs)
    requires Live(w, run) && !answer.Broken? && r == w.runs[run]
    requires next == Respond'(w, run, answer).runs[run]
    ensures next.origin == r.origin && (r.origin == id ==> RunCovered(cs, next, done))
  {
    if r.origin == id {
      assert RunCovered(cs, r, done);
      if answer.Listed? { ListedFits(w, run, answer.listing, id, cs, done); }
    }
  }

  lemma RespondStep(n: Normal, w: World, run: nat, answer: Answer, id: string, cs: Listings, done: set<Remote>)
    requires AllPaged(cs) && Covered(cs, w, id, done) && Serves(w, Respond(run, answer), id, cs)
    ensures Covered(cs, Step(n, w, Respond(run, answer)), id, done)
  {
    if Live(w, run) && !answer.Broken? {
      var next := Respond'(w, run, answer).runs[run];
      RespondCovers(n, w, run, answer, id, cs, done, w.runs[run], next);
      PutRun(cs, w.runs, run, next, id, done);
    }
  }

  /** A page applied to its end: the next cursor, page or delta, is covered. */
  lemma PageDone(cs: Listings, listing: Page, done: set<Remote>)
    requires AllPaged(cs) && PartIn(cs, listing, |listing.contacts|, done)
    ensures PageEarned(cs, listing.nextPage, done)
    ensures listing.nextPage.None? ==> DeltaCovered(cs, listing.nextDelta, done)
  {
    var c: nat, p: nat :| p < |cs(c)| && cs(c)[p] == listing && PagesIn(cs(c), p, done);
    assert Paged(cs(c)) && PageIn(listing, done);
    assert PagesIn(cs(c), p + 1, done);
    if listing.nextPage.Some? {
      assert Names(cs, c, p, listing.nextPage.value);
    } else {
      assert Ends(cs, c, listing.nextDelta, done);
    }
  }

  lemma TurnCovers(w: World, run: nat, id: string, cs: Listings, done: set<Remote>, next: Run)
    requires AllPaged(cs) && RunOf(w, run, id) && RunCovered(cs, w.runs[run], done)
    requires Live(w, run) && w.runs[run].phase.Applying? && !HasRecord(w, run) && next == Turn'(w, run).runs[run]
    ensures RunCovered(cs, next, done) && PageEarned(cs, w.runs[run].phase.listing.nextPage, done)
  {
    PageDone(cs, w.runs[run].phase.listing, done);
  }

  lemma TurnStep(n: Normal, w: World, run: nat, id: string, cs: Listings, done: set<Remote>)
    requires AllPaged(cs) && Covered(cs, w, id, done)
    ensures Covered(cs, Step(n, w, Turn(run)), id, done)
  {
    if Live(w, run) && w.runs[run].phase.Applying? && !HasRecord(w, run) {
      var next := Turn'(w, run).runs[run];
      if w.runs[run].origin == id { TurnCovers(w, run, id, cs, done, next); }
      PutRun(cs, w.runs, run, next, id, done);
    }
  }

  /** Events that move cursors between rows and runs, or drop them. */
  lemma MoveStep(n: Normal, w: World, e: Event, id: string, cs: Listings, done: set<Remote>)
    requires Covered(cs, w, id, done) && (e.Claim? || e.Bound? || e.Finish?)
    ensures Covered(cs, Step(n, w, e), id, done)
  {
  }

  lemma OtherStep(n: Normal, w: World, e: Event, id: string, cs: Listings, done: set<Remote>)
    requires Covered(cs, w, id, done)
    requires !e.Record? && !e.Respond? && !e.Turn? && !e.Claim? && !e.Bound? && !e.Finish?
    ensures Covered(cs, Step(n, w, e), id, done)
  {
  }

  lemma StepCovers(n: Normal, w: World, e: Event, id: string, cs: Listings, done: set<Remote>)
    requires AllPaged(cs) && Covered(cs, w, id, done) && Serves(w, e, id, cs)
    ensures Covered(cs, Step(n, w, e), id, done + Delivery(w, e, id))
  {
    assert !(e.Record? && HasRecord(w, e.run)) ==> done + Delivery(w, e, id) == done;
    match e
    case Record(run) => if HasRecord(w, run) { RecordCovers(n, w, run, id, cs, done, done + Delivery(w, e, id)); }
    case Respond(run, answer) => RespondStep(n, w, run, answer, id, cs, done);
    case Turn(run) => TurnStep(n, w, run, id, cs, done);
    case Claim(_, _, _) => MoveStep(n, w, e, id, cs, done);
    case Bound(_) => MoveStep(n, w, e, id, cs, done);
    case Finish(_) => MoveStep(n, w, e, id, cs, done);
    case _ => OtherStep(n, w, e, id, cs, done);
  }

  lemma {:induction false} ServedCovers(
      n: Normal, w: World, es: seq<Event>, id: string, cs: Listings, done: set<Remote>)
    requires AllPaged(cs) && Covered(cs, w, id, done) && Served(n, w, es, id, cs)
    ensures Covered(cs, Exec(n, w, es), id, done + Delivered(n, w, es, id))
    decreases es
  {
    if es == [] {
      assert done + {} == done;
    } else {
      var w' := Step(n, w, es[0]);
      StepCovers(n, w, es[0], id, cs, done);
      ServedCovers(n, w', es[1..], id, cs, done + Delivery(w, es[0], id));
      assert done + Delivery(w, es[0], id) + Delivered(n, w', es[1..], id) == done + Delivered(n, w, es, id);
    }
  }

  // ---------------------------------------------------------------------- theorems

  /** In every history from empty tables, whatever the provider listed from one request
      to the next: a stored delta cursor is what the last page of some listing carried,
      and every record of every page of that listing was applied by some run. */
  lemma StoredCursorSkipsNothing(n: Normal, es: seq<Event>, id: string, cs: Listings)
    requires AllPaged(cs) && Served(n, EMPTY_WORLD, es, id, cs)
    ensures var w := Exec(n, EMPTY_WORLD, es);
            id in w.rows && w.rows[id].delta.Some? ==>
              exists c: nat :: Ends(cs, c, w.rows[id].delta, Delivered(n, EMPTY_WORLD, es, id))
  {
    ServedCovers(n, EMPTY_WORLD, es, id, cs, {});
    assert {} + Delivered(n, EMPTY_WORLD, es, id) == Delivered(n, EMPTY_WORLD, es, id);
  }

  /** Whenever the stored delta cursor takes another value than null, a run of the origin
      has finished: the value is the one that run had loaded, or it ended a listing the
      last page of which that run applied; and in either case a listing that was applied
      in full, page by page and by whichever runs, ended with it. */
  lemma AdvancedCursorSkipsNothing(n: Normal, es: seq<Event>, e: Event, id: string, cs: Listings)
    requires AllPaged(cs) && Served(n, EMPTY_WORLD, es, id, cs) && Serves(Exec(n, EMPTY_WORLD, es), e, id, cs)
    ensures var w := Exec(n, EMPTY_WORLD, es);
            var rows := Step(n, w, e).rows;
            id in w.rows && id in rows && rows[id].delta.Some? && rows[id].delta != w.rows[id].delta ==>
              && e.Finish? && RunOf(w, e.run, id) && w.runs[e.run].phase.Pulled?
              && DeltaEarned(w.runs[e.run], rows[id].delta)
              && exists c: nat :: Ends(cs, c, rows[id].delta, Delivered(n, EMPTY_WORLD, es, id))
  {
    var w := Exec(n, EMPTY_WORLD, es);
    var done := Delivered(n, EMPTY_WORLD, es, id);
    Reachable(n, es);
    ServedCovers(n, EMPTY_WORLD, es, id, cs, {});
    assert {} + done == done;
    var rows := Step(n, w, e).rows;
    if id in w.rows && id in rows && rows[id].delta.Some? && rows[id].delta != w.rows[id].delta {
      DeltaAdvancesOnlyAfterLastPage(n, w, e, id);
      StepCovers(n, w, e, id, cs, done);
      assert done + Delivery(w, e, id) == done;
    }
  }

  /** The same for page cursors: a checkpoint, stored or carried by a run, follows pages
      that were all applied. */
  lemma CheckpointSkipsNothing(n: Normal, es: seq<Event>, id: string, cs: Listings)
    requires AllPaged(cs) && Served(n, EMPTY_WORLD, es, id, cs)
    ensures var w, done := Exec(n, EMPTY_WORLD, es), Delivered(n, EMPTY_WORLD, es, id);
            && (id in w.rows ==> PageEarned(cs, w.rows[id].page, done))
            && forall run | RunOf(w, run, id) :: PageEarned(cs, w.runs[run].page, done)
  {
    ServedCovers(n, EMPTY_WORLD, es, id, cs, {});
    assert {} + Delivered(n, EMPTY_WORLD, es, id) == Delivered(n, EMPTY_WORLD, es, id);
    var w, done := Exec(n, EMPTY_WORLD, es), Delivered(n, EMPTY_WORLD, es, id);
    forall run | RunOf(w, run, id) ensures PageEarned(cs, w.runs[run].page, done) {
      assert RunCovered(cs, w.runs[run], done);
    }
  }
}

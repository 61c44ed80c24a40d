/** What a call cut short by its page bound leaves for the next one, and that calls cut
    short one after the other get through. */
module ContactCheckpoint {
  import opened Options
  import opened ContactRecords
  import opened ContactTables
  import opened ContactMerge
  import opened ContactRuns
  import opened ContactConvergence
  import opened ContactDrive

  // ------------------------------------------------------------- the checkpoint

  /** Every page request of the call brought a page with a successor or an expiry. */
  predicate NoLastPage(answers: seq<Answer>, fuel: nat) {
    fuel <= |answers| && forall i | 0 <= i < fuel ::
      answers[i].Expired? || (answers[i].Listed? && answers[i].listing.nextPage.Some?)
  }

  lemma {:induction false} PagesStopAt(n: Normal, c: Call, answers: seq<Answer>)
    requires !c.gone && c.run.phase.Asking? && c.run.fuel > 0 && NoLastPage(answers, c.run.fuel)
    requires answers[c.run.fuel - 1].Listed?
    ensures var e, next := Pages(n, c, answers), answers[c.run.fuel - 1].listing.nextPage;
            && !e.gone && e.run.phase.Asking? && e.run.page == next && e.row.page == next
            && e.row.published == c.row.published && e.row.status == c.row.status
    decreases c.run.fuel
  {
    var c' := OnePage(n, c, answers[0]);
    if c.run.fuel > 1 {
      assert answers[1..][c'.run.fuel - 1] == answers[c.run.fuel - 1];
      assert forall i | 0 <= i < c'.run.fuel :: answers[1..][i] == answers[i + 1];
      PagesStopAt(n, c', answers[1..]);
    }
  }

  /** A call whose page bound falls after a page with a successor stores the cursor of
      that successor, goes back to idle and reports no success. */
  lemma BoundLeavesCheckpoint(n: Normal, c: Call, answers: seq<Answer>, outcome: LinkKey -> PushOutcome)
    requires !c.gone && c.run.phase.Asking? && c.run.fuel > 0 && NoLastPage(answers, c.run.fuel)
    requires answers[c.run.fuel - 1].Listed?
    ensures var end := AfterPages(n, Pages(n, c, answers), outcome);
            && end.row.page == answers[c.run.fuel - 1].listing.nextPage && end.row.page.Some?
            && end.row.status == Idle && end.row.published == c.row.published
  {
    PagesStopAt(n, c, answers);
  }

  /** The same in the state machine. */
  lemma BoundStores(n: Normal, w: World, run: nat)
    requires Live(w, run) && w.runs[run].phase.Asking? && w.runs[run].fuel == 0 && w.runs[run].page.Some?
    ensures var w', id := Step(n, w, Bound(run)), w.runs[run].origin;
            && w'.rows == w.rows[id := w.rows[id].(status := Idle, page := w.runs[run].page)]
            && w'.runs == w.runs - {run} && w'.tables == w.tables
  {
  }

  /** An origin is claimed exactly if it is idle or failing; the first request of the call
      then carries the stored cursors. */
  lemma ClaimCarriesCheckpoint(n: Normal, w: World, run: nat, id: string, maxPages: nat)
    requires run !in w.runs && id in w.rows
    ensures var w' := Step(n, w, Claim(run, id, maxPages));
            && (run in w'.runs <==> w.rows[id].status == Idle || w.rows[id].status == Failing)
            && (run !in w'.runs ==> w' == w)
            && (run in w'.runs ==>
                  && w'.runs[run].page == w.rows[id].page && w'.runs[run].delta == w.rows[id].delta
                  && w'.runs[run].phase == Asking && w'.runs[run].fuel == maxPages && w'.runs[run].origin == id
                  && w'.rows == w.rows[id := w.rows[id].(status := Syncing)] && w'.tables == w.tables)
  {
  }

  /** A process that dies after a page resumes behind it: the page's successor is what the
      next call asks for, once the worker has given the origin free. */
  lemma CrashResumesAfterPage(n: Normal, w: World, run: nat, next: nat, maxPages: nat)
    requires Live(w, run) && w.runs[run].phase.Applying? && !HasRecord(w, run)
    requires w.runs[run].phase.listing.nextPage.Some? && next !in w.runs && w.rows[w.runs[run].origin].status == Syncing
    ensures var id, cursor := w.runs[run].origin, w.runs[run].phase.listing.nextPage;
            var stopped := Step(n, Step(n, w, Turn(run)), Crash(run));
            var resumed := Step(n, Step(n, stopped, Recover(id)), Claim(next, id, maxPages));
            && id in stopped.rows && stopped.rows[id].page == cursor && run !in stopped.runs
            && next in resumed.runs && resumed.runs[next].page == cursor && resumed.runs[next].phase == Asking
  {
    StepTurns(n, w, run);
    var w1 := Turn'(w, run);
    assert w1.rows[w.runs[run].origin].page == w.runs[run].phase.listing.nextPage;
  }

  /** An expiry is forgotten nowhere: neither the row nor the run keep a cursor, and the
      next request lists everything. */
  lemma ExpiryForgets(n: Normal, w: World, run: nat)
    requires Live(w, run) && w.runs[run].phase.Asking? && w.runs[run].fuel > 0
    ensures var w', id := Step(n, w, Respond(run, Expired)), w.runs[run].origin;
            && id in w'.rows && w'.rows[id].delta.None? && w'.rows[id].page.None? && w'.tables == w.tables
            && run in w'.runs && w'.runs[run].delta.None? && w'.runs[run].page.None? && w'.runs[run].phase == Asking
  {
  }

  /** The mode decides about pushing: a call that got to the end of its listing pushes for an
      origin set to two-way and leaves nothing to push, and for any other changes nothing more
      in the tables. Either way it publishes. */
  lemma ModeDecidesPush(n: Normal, c: Call, outcome: LinkKey -> PushOutcome, k: LinkKey)
    requires !c.gone && c.run.page.None? && Sound(c.tables, c.row.origin)
    ensures var end, o := AfterPages(n, c, outcome), c.row.origin; var t := end.tables;
            && end.row == c.row.(status := Idle, delta := c.run.delta, page := None, published := c.row.published + 1)
            && (!c.row.twoWay ==> t == c.tables)
            && (c.row.twoWay && k in t.links && k.origin == o.id && t.links[k].owner == o.owner
                && t.links[k].contact in t.contacts && t.contacts[t.links[k].contact].conflict != BothChanged ==>
                  t.links[k].localPrint == Some(Fingerprint(n, t.contacts[t.links[k].contact].fields)))
  {
    var end := AfterPages(n, c, outcome);
    var t, o := end.tables, c.row.origin;
    if c.row.twoWay && k in t.links && k.origin == o.id && t.links[k].owner == o.owner
       && t.links[k].contact in t.contacts && t.contacts[t.links[k].contact].conflict != BothChanged {
      NothingLeftToPush(n, c.tables, o, outcome, t, k);
    }
  }

  /** In the state machine no run of an import-only origin pushes. */
  lemma ImportOnlyNeverPushes(n: Normal, w: World, run: nat, k: LinkKey, outcome: PushOutcome)
    requires Live(w, run) && !w.rows[w.runs[run].origin].twoWay
    ensures Step(n, w, PushOne(run, k, outcome)) == w
  {
  }

  /** Stopping an origin keeps every contact and link and forgets both cursors: once a mode
      is chosen for it again, its next call lists everything. */
  lemma StopForgets(n: Normal, w: World, o: Origin, twoWay: bool, run: nat, maxPages: nat)
    requires o.id in w.rows && run !in w.runs
    ensures var stopped := Step(n, w, Stop(o.id));
            var chosen := Step(n, stopped, SetMode(o, twoWay));
            var next := Step(n, chosen, Claim(run, o.id, maxPages));
            && next.tables == w.tables && stopped.runs == w.runs
            && Step(n, stopped, Claim(run, o.id, maxPages)) == stopped
            && o.id in chosen.rows && chosen.rows[o.id].twoWay == twoWay && chosen.rows[o.id].status == Idle
            && run in next.runs && next.runs[run].delta.None? && next.runs[run].page.None?
  {
  }

  // -------------------------------------------------------- getting through

  lemma {:induction false} ApplyAllOfSum(n: Normal, t: Tables, o: Origin, xs: seq<Remote>, ys: seq<Remote>)
    ensures ApplyAll(n, t, o, xs + ys) == ApplyAll(n, ApplyAll(n, t, o, xs), o, ys)
    decreases xs
  {
    if xs == [] {
      assert xs + ys == ys;
    } else {
      assert (xs + ys)[1..] == xs[1..] + ys;
      ApplyAllOfSum(n, Apply(n, t, o, xs[0]), o, xs[1..], ys);
    }
  }

  lemma {:induction false} ApplyAllIsPass(n: Normal, t: Tables, o: Origin, rs: seq<Remote>)
    ensures ApplyAll(n, t, o, rs) == Pass(n, t, o, rs)
    decreases |rs|
  {
    if rs != [] {
      var before, last := rs[..|rs| - 1], rs[|rs| - 1..];
      ApplyAllIsPass(n, t, o, before);
      ApplyAllOfSum(n, t, o, before, last);
      assert rs == before + last && last[1..] == [];
    }
  }

  /** The tables after the first `p` pages. */
  function Upto(n: Normal, t: Tables, o: Origin, pages: seq<Page>, p: nat): Tables
    requires p <= |pages|
  {
    Pass(n, t, o, Records(pages[..p]))
  }

  lemma UptoNext(n: Normal, t: Tables, o: Origin, pages: seq<Page>, p: nat)
    requires p < |pages|
    ensures ApplyAll(n, Upto(n, t, o, pages, p), o, pages[p].contacts) == Upto(n, t, o, pages, p + 1)
  {
    NextOffset(pages, p);
    ApplyAllIsPass(n, t, o, Records(pages[..p]));
    ApplyAllIsPass(n, t, o, Records(pages[..p + 1]));
    ApplyAllOfSum(n, t, o, Records(pages[..p]), pages[p].contacts);
  }

  /** The provider's answers to the requests of a call that starts at page `p`. */
  function From(pages: seq<Page>, p: nat): seq<Answer>
    requires p <= |pages|
  {
    seq(|pages| - p, i requires 0 <= i < |pages| - p => Listed(pages[p + i]))
  }

  /** A call on its way through the listing, about to ask for page `p`. */
  ghost predicate Reading(n: Normal, c: Call, t: Tables, o: Origin, pages: seq<Page>, p: nat) {
    && !c.gone && c.run.phase.Asking? && c.row.origin == o && At(pages, c.run.page, p) && p < |pages|
    && c.tables == Upto(n, t, o, pages, p)
  }

  lemma PageRead(n: Normal, c: Call, t: Tables, o: Origin, pages: seq<Page>, p: nat)
    requires Chain(pages) && Reading(n, c, t, o, pages, p) && c.run.fuel > 0
    ensures var c' := OnePage(n, c, Listed(pages[p]));
            && !c'.gone && c'.tables == Upto(n, t, o, pages, p + 1) && c'.run.fuel == c.run.fuel - 1
            && (p + 1 < |pages| ==>
                  && Reading(n, c', t, o, pages, p + 1) && c'.run.page == pages[p].nextPage
                  && c'.row == c.row.(page := pages[p].nextPage) && c'.run.delta == c.run.delta)
            && (p + 1 == |pages| ==>
                  && c'.run.phase.Pulled? && c'.row == c.row && c'.run.page.None?
                  && c'.run.delta == NextDelta(pages, c.run.delta))
  {
    UptoNext(n, t, o, pages, p);
  }

  /** Where the page loop stops: before page `q`, or after the last one. */
  ghost predicate Stopped(n: Normal, c: Call, e: Call, t: Tables, o: Origin, pages: seq<Page>, q: nat)
    requires |pages| > 0 && q > 0
  {
    && !e.gone
    && (q < |pages| ==>
          && e.tables == Upto(n, t, o, pages, q) && e.run.phase.Asking? && e.run.page == pages[q - 1].nextPage
          && e.row == c.row.(page := pages[q - 1].nextPage))
    && (q >= |pages| ==>
          && e.tables == Upto(n, t, o, pages, |pages|) && e.run.page.None?
          && e.run.delta == NextDelta(pages, c.run.delta) && e.row == c.row.(page := e.row.page))
  }

  lemma PagesUnfold(n: Normal, c: Call, answers: seq<Answer>, c': Call)
    requires !c.gone && c.run.phase.Asking? && c.run.fuel > 0 && answers != [] && c' == OnePage(n, c, answers[0])
    ensures Pages(n, c, answers) == if c'.gone then c' else Pages(n, c', answers[1..])
  {
  }

  lemma FromNext(pages: seq<Page>, p: nat)
    requires p < |pages|
    ensures From(pages, p) != [] && From(pages, p)[0] == Listed(pages[p]) && From(pages, p)[1..] == From(pages, p + 1)
  {
  }

  lemma PagesOver(n: Normal, c: Call, answers: seq<Answer>)
    requires !c.run.phase.Asking? || c.run.fuel == 0
    ensures Pages(n, c, answers) == c
  {
  }

  lemma StoppedLater(
      n: Normal, c: Call, c': Call, e: Call, t: Tables, o: Origin, pages: seq<Page>, page: Option<Cursor>, q: nat)
    requires |pages| > 0 && q > 0 && c'.row == c.row.(page := page) && c'.run.delta == c.run.delta
    requires Stopped(n, c', e, t, o, pages, q)
    ensures Stopped(n, c, e, t, o, pages, q)
  {
  }

  /** The bound falls after page `p`, or that was the last one. */
  lemma StoppedHere(n: Normal, c: Call, c': Call, t: Tables, o: Origin, pages: seq<Page>, p: nat, q: nat)
    requires Chain(pages) && Reading(n, c, t, o, pages, p) && c.run.fuel > 0 && q == p + c.run.fuel
    requires c' == OnePage(n, c, Listed(pages[p])) && (p + 1 == |pages| || q == p + 1)
    ensures Stopped(n, c, c', t, o, pages, q) && (!c'.run.phase.Asking? || c'.run.fuel == 0)
  {
    PageRead(n, c, t, o, pages, p);
  }

  /** The page loop, served page by page: it stops at its bound or after the last page. */
  lemma {:induction false} PagesRead(n: Normal, c: Call, t: Tables, o: Origin, pages: seq<Page>, p: nat, q: nat)
    requires Chain(pages) && Reading(n, c, t, o, pages, p) && c.run.fuel > 0 && q == p + c.run.fuel
    ensures Stopped(n, c, Pages(n, c, From(pages, p)), t, o, pages, q)
    decreases q - p
  {
    var c' := OnePage(n, c, Listed(pages[p]));
    FromNext(pages, p);
    PagesUnfold(n, c, From(pages, p), c');
    if p + 1 < |pages| && p + 1 < q {
      PageRead(n, c, t, o, pages, p);
      PagesRead(n, c', t, o, pages, p + 1, q);
      StoppedLater(n, c, c', Pages(n, c', From(pages, p + 1)), t, o, pages, pages[p].nextPage, q);
    } else {
      StoppedHere(n, c, c', t, o, pages, p, q);
      PagesOver(n, c', From(pages, p + 1));
    }
  }

  /** What the calls share: the tables and the origin's row. */
  datatype Store = Store(tables: Tables, row: Row)

  /** One whole call. */
  function OneCall(
      n: Normal, s: Store, id: string, maxPages: nat, answers: seq<Answer>, outcome: LinkKey -> PushOutcome): Store
  {
    var end := AfterPages(n, Pages(n, Claimed(s.tables, s.row, id, maxPages), answers), outcome);
    Store(end.tables, end.row)
  }

  /** The provider goes on where the stored page cursor says. */
  ghost function Resuming(pages: seq<Page>, cursor: Option<Cursor>): seq<Answer> {
    if p: nat :| At(pages, cursor, p) then From(pages, p) else []
  }

  /** One call of an origin that is served page by page. */
  ghost function Caller(
      n: Normal, id: string, maxPages: nat, pages: seq<Page>, outcome: LinkKey -> PushOutcome): Store -> Store
  {
    (s: Store) => OneCall(n, s, id, maxPages, Resuming(pages, s.row.page), outcome)
  }

  /** `j` calls, one after the other. */
  function Calls(call: Store -> Store, s: Store, j: nat): Store { if j == 0 then s else call(Calls(call, s, j - 1)) }

  /** Where `p` pages of the listing are in, and the rest is to be asked for. */
  ghost predicate StandsAt(n: Normal, s: Store, t: Store, pages: seq<Page>, p: nat) {
    && p < |pages| && t.tables == Upto(n, s.tables, s.row.origin, pages, p) && At(pages, t.row.page, p)
    && t.row == s.row.(page := t.row.page, status := t.row.status) && t.row.status in {Idle, Failing}
  }

  ghost predicate ReadThrough(n: Normal, s: Store, t: Store, pages: seq<Page>, outcome: LinkKey -> PushOutcome)
    requires |pages| > 0
  {
    var all := Upto(n, s.tables, s.row.origin, pages, |pages|);
    && t.tables == (if s.row.twoWay then PushPass(n, all, s.row.origin, outcome) else all)
    && t.row == Published(s.row, NextDelta(pages, s.row.delta))
  }

  lemma CallAdvances(
      n: Normal, s: Store, t: Store, id: string, maxPages: nat, pages: seq<Page>, outcome: LinkKey -> PushOutcome,
      p: nat)
    requires Chain(pages) && maxPages > 0 && StandsAt(n, s, t, pages, p)
    ensures var t' := OneCall(n, t, id, maxPages, Resuming(pages, t.row.page), outcome);
            && (p + maxPages < |pages| ==> StandsAt(n, s, t', pages, p + maxPages))
            && (p + maxPages >= |pages| ==> ReadThrough(n, s, t', pages, outcome))
  {
    forall q: nat | At(pages, t.row.page, q) ensures q == p { AtUnique(pages, t.row.page, p, q); }
    assert Resuming(pages, t.row.page) == From(pages, p);
    PagesRead(n, Claimed(t.tables, t.row, id, maxPages), s.tables, s.row.origin, pages, p, p + maxPages);
  }

  /** The pages that `j` calls cut short have read. */
  function Read(maxPages: nat, j: nat): nat { if j == 0 then 0 else Read(maxPages, j - 1) + maxPages }

  lemma {:induction false} ReadIsProduct(maxPages: nat, j: nat)
    ensures Read(maxPages, j) == j * maxPages
  {
    if j > 0 {
      ReadIsProduct(maxPages, j - 1);
      assert j * maxPages == (j - 1) * maxPages + maxPages;
    }
  }

  lemma {:induction false} ReadGrows(maxPages: nat, i: nat, j: nat)
    requires i <= j
    ensures Read(maxPages, i) <= Read(maxPages, j)
  {
    if i < j { ReadGrows(maxPages, i, j - 1); }
  }

  /** A call reads `maxPages` pages more, or reads the listing to its end. */
  ghost predicate Advances(
      n: Normal, s: Store, maxPages: nat, pages: seq<Page>, outcome: LinkKey -> PushOutcome, call: Store -> Store)
    requires |pages| > 0
  {
    forall t: Store, p: nat | StandsAt(n, s, t, pages, p) ::
      && (p + maxPages < |pages| ==> StandsAt(n, s, call(t), pages, p + maxPages))
      && (p + maxPages >= |pages| ==> ReadThrough(n, s, call(t), pages, outcome))
  }

  lemma {:induction false} CallsStand(
      n: Normal, s: Store, maxPages: nat, pages: seq<Page>, outcome: LinkKey -> PushOutcome, call: Store -> Store,
      j: nat)
    requires Chain(pages) && Advances(n, s, maxPages, pages, outcome, call) && StandsAt(n, s, s, pages, 0)
    requires Read(maxPages, j) < |pages|
    ensures StandsAt(n, s, Calls(call, s, j), pages, Read(maxPages, j))
    decreases j
  {
    if j > 0 { CallsStand(n, s, maxPages, pages, outcome, call, j - 1); }
  }

  lemma StartStands(n: Normal, s: Store, pages: seq<Page>)
    requires Chain(pages) && s.row.page.None? && s.row.status in {Idle, Failing}
    ensures StandsAt(n, s, s, pages, 0)
  {
    assert pages[..0] == [] && Records(pages[..0]) == [];
  }

  /** A listing longer than the page bound is read in as many calls as it takes, its
      number of pages over the bound, rounded up: every call but the last goes on behind
      the one before, and the last brings the listing to its end, pushes if the origin is
      two-way, and publishes the listing's delta cursor. */
  lemma BoundedCallsGetThrough(
      n: Normal, s: Store, id: string, maxPages: nat, pages: seq<Page>, outcome: LinkKey -> PushOutcome, calls: nat)
    requires Chain(pages) && maxPages > 0 && s.row.page.None? && s.row.status in {Idle, Failing}
    requires calls == (|pages| + maxPages - 1) / maxPages
    ensures var call := Caller(n, id, maxPages, pages, outcome);
            && calls > 0 && ReadThrough(n, s, Calls(call, s, calls), pages, outcome)
            && forall j: nat | j < calls ::
                 Read(maxPages, j) < |pages| && StandsAt(n, s, Calls(call, s, j), pages, Read(maxPages, j))
  {
    var call := Caller(n, id, maxPages, pages, outcome);
    forall t: Store, p: nat | StandsAt(n, s, t, pages, p)
      ensures p + maxPages < |pages| ==> StandsAt(n, s, call(t), pages, p + maxPages)
      ensures p + maxPages >= |pages| ==> ReadThrough(n, s, call(t), pages, outcome)
    {
      CallAdvances(n, s, t, id, maxPages, pages, outcome, p);
    }
    StartStands(n, s, pages);
    RoundedUp(|pages|, maxPages, calls);
    GetThrough(n, s, maxPages, pages, outcome, call, calls);
  }

  lemma GetThrough(
      n: Normal, s: Store, maxPages: nat, pages: seq<Page>, outcome: LinkKey -> PushOutcome, call: Store -> Store,
      calls: nat)
    requires Chain(pages) && Advances(n, s, maxPages, pages, outcome, call) && StandsAt(n, s, s, pages, 0)
    requires calls > 0 && Read(maxPages, calls - 1) < |pages| <= Read(maxPages, calls)
    ensures ReadThrough(n, s, Calls(call, s, calls), pages, outcome)
    ensures forall j: nat | j < calls ::
              Read(maxPages, j) < |pages| && StandsAt(n, s, Calls(call, s, j), pages, Read(maxPages, j))
  {
    forall j: nat | j < calls
      ensures Read(maxPages, j) < |pages| && StandsAt(n, s, Calls(call, s, j), pages, Read(maxPages, j))
    {
      ReadGrows(maxPages, j, calls - 1);
      CallsStand(n, s, maxPages, pages, outcome, call, j);
    }
    assert StandsAt(n, s, Calls(call, s, calls - 1), pages, Read(maxPages, calls - 1));
  }

  /** Just enough calls: one less does not read everything. */
  lemma RoundedUp(total: nat, m: nat, calls: nat)
    requires total > 0 && m > 0 && calls == (total + m - 1) / m
    ensures calls > 0 && Read(m, calls - 1) < total <= Read(m, calls)
  {
    var rest := (total + m - 1) % m;
    assert total + m - 1 == calls * m + rest;
    ReadIsProduct(m, calls);
  }
}

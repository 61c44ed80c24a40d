/** However a listing is interrupted, once some run has reached its last page the
    tables are those of one uninterrupted pass over it. */
module ContactConvergence {
  import opened Options
  import opened ContactRecords
  import opened ContactTables
  import opened ContactReplay
  import opened ContactRuns

  function Records(pages: seq<Page>): seq<Remote> {
    if pages == [] then [] else Records(pages[..|pages| - 1]) + pages[|pages| - 1].contacts
  }

  /** Where page `p` begins. */
  function Offset(pages: seq<Page>, p: nat): nat requires p <= |pages| { |Records(pages[..p])| }

  lemma {:induction false} RecordsPrefix(pages: seq<Page>, p: nat)
    requires p <= |pages|
    ensures Records(pages[..p]) <= Records(pages)
  {
    if p < |pages| {
      RecordsPrefix(pages[..|pages| - 1], p);
      assert pages[..|pages| - 1][..p] == pages[..p];
    } else {
      assert pages[..p] == pages;
    }
  }

  lemma NextOffset(pages: seq<Page>, p: nat)
    requires p < |pages|
    ensures Records(pages[..p + 1]) == Records(pages[..p]) + pages[p].contacts
  {
    assert pages[..p + 1][..p] == pages[..p];
  }

  lemma AtIndex(all: seq<Remote>, before: seq<Remote>, page: seq<Remote>, i: nat)
    requires before + page <= all && i <= |page|
    ensures |before| + |page| <= |all| && (i < |page| ==> all[|before| + i] == page[i])
  {
    if i < |page| { assert all[|before| + i] == (before + page)[|before| + i]; }
  }

  /** The record at index `i` of page `p`, in the whole listing. */
  lemma RecordAt(pages: seq<Page>, p: nat, i: nat)
    requires p < |pages| && i <= |pages[p].contacts|
    ensures Offset(pages, p + 1) == Offset(pages, p) + |pages[p].contacts| <= |Records(pages)|
    ensures i < |pages[p].contacts| ==> Records(pages)[Offset(pages, p) + i] == pages[p].contacts[i]
  {
    NextOffset(pages, p);
    RecordsPrefix(pages, p + 1);
    AtIndex(Records(pages), Records(pages[..p]), pages[p].contacts, i);
  }

  /** A listing: every page but the last names the next one by its own cursor. */
  ghost predicate Chain(pages: seq<Page>) {
    && |pages| > 0
    && (forall p | 0 <= p < |pages| :: pages[p].nextPage.Some? <==> p + 1 < |pages|)
    && (forall p, q | 0 <= p < q < |pages| - 1 :: pages[p].nextPage != pages[q].nextPage)
    && DistinctSources(Records(pages))
  }

  /** The page a cursor asks for. */
  ghost predicate At(pages: seq<Page>, cursor: Option<Cursor>, p: nat) {
    p < |pages| && if p == 0 then cursor.None? else cursor.Some? && pages[p - 1].nextPage == cursor
  }

  /** What may happen to origin `o` while the provider serves `pages`: claims,
      bounded runs, failures that clear the checkpoint, crashes between records
      and inside an update, and a worker recovering an abandoned claim. */
  ghost predicate Allowed(w: World, e: Event, o: Origin, pages: seq<Page>) {
    match e
    case Claim(_, id, maxPages) => id == o.id && maxPages > 0
    case Respond(run, Listed(listing)) => run in w.runs ==>
        forall p: nat | At(pages, w.runs[run].page, p) :: listing == pages[p]
    case Respond(_, Broken(_)) => true
    case Record(_) => true
    case Turn(_) => true
    case Bound(_) => true
    case Throw(_, _) => true
    case Crash(_) => true
    case CrashInUpdate(_) => true
    case Recover(_) => true
    case Deny(_, _) => true
    case _ => false
  }

  ghost predicate Schedule(n: Normal, w: World, es: seq<Event>, o: Origin, pages: seq<Page>)
    decreases es
  {
    es == [] || (Allowed(w, es[0], o, pages) && Schedule(n, Step(n, w, es[0]), es[1..], o, pages))
  }

  /** The delta cursor a run that reached the last page publishes. */
  function NextDelta(pages: seq<Page>, d0: Option<Cursor>): Option<Cursor>
    requires |pages| > 0
  {
    if pages[|pages| - 1].nextDelta.Some? then pages[|pages| - 1].nextDelta else d0
  }

  /** The first `k` records are in, and at most the row of the next one. */
  ghost predicate Applied(n: Normal, t: Tables, t0: Tables, o: Origin, rs: seq<Remote>, k: nat) {
    && k <= |rs|
    && var done := Pass(n, t0, o, rs[..k]);
       || t == done
       || (&& k < |rs| && Decide(n, done, o, rs[k]) == Updated
           && t == WriteRow(done, done.links[LinkKey(o.id, rs[k].sourceId)].contact, o, rs[k]))
  }

  /** A cursor asks for nothing beyond the first `k` records. */
  ghost predicate Reaches(pages: seq<Page>, cursor: Option<Cursor>, k: nat) {
    exists p: nat :: At(pages, cursor, p) && Offset(pages, p) <= k
  }

  /** A page half applied has brought in nothing beyond the first `k` records. */
  ghost predicate Within(pages: seq<Page>, listing: Page, at: nat, k: nat) {
    exists p: nat :: p < |pages| && listing == pages[p] && at <= |listing.contacts| && Offset(pages, p) + at <= k
  }

  /** A run never stands beyond the records that are in. */
  ghost predicate RunAt(r: Run, o: Origin, pages: seq<Page>, d0: Option<Cursor>, k: nat)
    requires |pages| > 0
  {
    && r.origin == o.id
    && match r.phase
       case Asking => r.delta == d0 && Reaches(pages, r.page, k) && (r.page.None? ==> r.fuel > 0)
       case Applying(listing, at) => r.delta == d0 && Within(pages, listing, at, k)
       case Pulled => k == |Records(pages)| && r.delta == NextDelta(pages, d0)
  }

  ghost predicate RunsAt(runs: map<nat, Run>, o: Origin, pages: seq<Page>, d0: Option<Cursor>, k: nat)
    requires |pages| > 0
  {
    forall run | run in runs :: RunAt(runs[run], o, pages, d0, k)
  }

  ghost predicate RowAt(rows: map<string, Row>, o: Origin, pages: seq<Page>, d0: Option<Cursor>, k: nat) {
    o.id in rows && rows[o.id].origin == o && rows[o.id].delta == d0 && Reaches(pages, rows[o.id].page, k)
  }

  ghost predicate Progress(n: Normal, w: World, t0: Tables, o: Origin, pages: seq<Page>, d0: Option<Cursor>, k: nat)
    requires |pages| > 0
  {
    && RowAt(w.rows, o, pages, d0, k)
    && Applied(n, w.tables, t0, o, Records(pages), k)
    && RunsAt(w.runs, o, pages, d0, k)
  }

  /** What is in stays settled, also while the next row is half written. */
  lemma AppliedSettled(n: Normal, t: Tables, t0: Tables, o: Origin, rs: seq<Remote>, k: nat, i: nat)
    requires Sound(t0, o) && DistinctSources(rs) && Applied(n, t, t0, o, rs, k) && i < k
    ensures Sound(t, o) && Apply(n, t, o, rs[i]) == t
  {
    var done := Pass(n, t0, o, rs[..k]);
    PassSettles(n, t0, o, rs[..k]);
    assert Settled(n, done, o, rs[..k][i]);
    if t != done {
      var c := done.links[LinkKey(o.id, rs[k].sourceId)].contact;
      RowSound(done, o, c, t.contacts[c]);
      assert SameView(done, t, o, rs[i].sourceId);
    }
    SettledIffFixed(n, t, o, rs[i]);
  }

  /** Delivering the next record completes it, half written or not. */
  lemma AppliedNext(n: Normal, t: Tables, t0: Tables, o: Origin, rs: seq<Remote>, k: nat)
    requires Sound(t0, o) && DistinctSources(rs) && Applied(n, t, t0, o, rs, k) && k < |rs|
    ensures Apply(n, t, o, rs[k]) == Pass(n, t0, o, rs[..k + 1])
  {
    var done := Pass(n, t0, o, rs[..k]);
    PassSettles(n, t0, o, rs[..k]);
    assert rs[..k + 1][..k] == rs[..k];
    if t != done { StopInsideUpdateRepaired(n, done, o, rs[k]); }
  }

  /** Being further along weakens nothing that was known. */
  lemma Monotone(w: World, o: Origin, pages: seq<Page>, d0: Option<Cursor>, k: nat, k': nat)
    requires |pages| > 0 && k <= k' <= |Records(pages)|
    requires RowAt(w.rows, o, pages, d0, k) && RunsAt(w.runs, o, pages, d0, k)
    ensures RowAt(w.rows, o, pages, d0, k') && RunsAt(w.runs, o, pages, d0, k')
  {
  }

  /** The record a run stands at, as an index into the whole listing. */
  lemma RunStandsAt(
      w: World, run: nat, o: Origin, pages: seq<Page>, d0: Option<Cursor>, k: nat) returns (p: nat, i: nat)
    requires |pages| > 0 && RowAt(w.rows, o, pages, d0, k) && RunsAt(w.runs, o, pages, d0, k) && HasRecord(w, run)
    ensures OriginOf(w, run) == o && w.runs[run].delta == d0
    ensures i < |Records(pages)| && i <= k && Records(pages)[i] == NextRecord(w, run)
    ensures p < |pages| && w.runs[run].phase.listing == pages[p] && i == Offset(pages, p) + w.runs[run].phase.at
  {
    var r := w.runs[run];
    assert RunAt(r, o, pages, d0, k);
    p :| p < |pages| && r.phase.listing == pages[p] && r.phase.at <= |pages[p].contacts|
        && Offset(pages, p) + r.phase.at <= k;
    RecordAt(pages, p, r.phase.at);
    i := Offset(pages, p) + r.phase.at;
  }

  /** Delivering record `i` when the first `k >= i` are in. */
  lemma DeliverApplied(n: Normal, t: Tables, t0: Tables, o: Origin, rs: seq<Remote>, k: nat, i: nat)
    requires Sound(t0, o) && DistinctSources(rs) && Applied(n, t, t0, o, rs, k) && i <= k && i < |rs|
    ensures Applied(n, Apply(n, t, o, rs[i]), t0, o, rs, if i < k then k else k + 1)
    ensures i < k ==> Decide(n, t, o, rs[i]) != Updated
    ensures i == k && t != Pass(n, t0, o, rs[..k]) ==> Decide(n, t, o, rs[i]) != Updated
  {
    if i < k {
      AppliedSettled(n, t, t0, o, rs, k, i);
      SettledIffFixed(n, t, o, rs[i]);
    } else {
      AppliedNext(n, t, t0, o, rs, k);
      PassSettles(n, t0, o, rs[..k]);
    }
  }

  lemma RecordProgress(
      n: Normal, w: World, run: nat, t0: Tables, o: Origin, pages: seq<Page>, d0: Option<Cursor>, k: nat)
      returns (k': nat)
    requires Sound(t0, o) && Chain(pages) && Progress(n, w, t0, o, pages, d0, k)
    requires HasRecord(w, run)
    ensures Progress(n, Step(n, w, Record(run)), t0, o, pages, d0, k')
  {
    var p, i := RunStandsAt(w, run, o, pages, d0, k);
    DeliverApplied(n, w.tables, t0, o, Records(pages), k, i);
    k' := if i < k then k else k + 1;
    Monotone(w, o, pages, d0, k, k');
    var r := w.runs[run];
    assert p < |pages| && r.phase.listing == pages[p] && Offset(pages, p) + (r.phase.at + 1) <= k';
    MoveRun(w.runs, run, r.(phase := r.phase.(at := r.phase.at + 1)), o, pages, d0, k');
  }

  lemma MoveRun(runs: map<nat, Run>, run: nat, r: Run, o: Origin, pages: seq<Page>, d0: Option<Cursor>, k: nat)
    requires |pages| > 0 && RunsAt(runs, o, pages, d0, k) && RunAt(r, o, pages, d0, k)
    ensures RunsAt(runs[run := r], o, pages, d0, k)
  {
  }

  lemma CrashInUpdateProgress(
      n: Normal, w: World, run: nat, t0: Tables, o: Origin, pages: seq<Page>, d0: Option<Cursor>, k: nat)
    requires Sound(t0, o) && Chain(pages) && Progress(n, w, t0, o, pages, d0, k)
    requires HasRecord(w, run)
    ensures Progress(n, Step(n, w, CrashInUpdate(run)), t0, o, pages, d0, k)
  {
    var p, i := RunStandsAt(w, run, o, pages, d0, k);
    DeliverApplied(n, w.tables, t0, o, Records(pages), k, i);
  }

  lemma RespondProgress(
      n: Normal, w: World, run: nat, listing: Page, t0: Tables, o: Origin, pages: seq<Page>, d0: Option<Cursor>, k: nat)
    requires Chain(pages) && Progress(n, w, t0, o, pages, d0, k)
    requires Allowed(w, Respond(run, Listed(listing)), o, pages)
    ensures Progress(n, Step(n, w, Respond(run, Listed(listing))), t0, o, pages, d0, k)
  {
  }

  /** A page applied to its end: what its cursors reach. */
  lemma PageEnds(pages: seq<Page>, p: nat, at: nat, k: nat)
    requires Chain(pages) && p < |pages| && at == |pages[p].contacts| && Offset(pages, p) + at <= k <= |Records(pages)|
    ensures pages[p].nextPage.Some? ==> Reaches(pages, pages[p].nextPage, k)
    ensures pages[p].nextPage.None? ==> p + 1 == |pages| && k == |Records(pages)|
  {
    RecordAt(pages, p, at);
    if p + 1 < |pages| {
      assert At(pages, pages[p].nextPage, p + 1);
    } else {
      assert pages[..p + 1] == pages;
    }
  }

  /** The run after its page, and the checkpoint it leaves. */
  lemma TurnedAt(r: Run, next: Run, listing: Page, o: Origin, pages: seq<Page>, d0: Option<Cursor>, k: nat)
    requires Chain(pages) && k <= |Records(pages)| && RunAt(r, o, pages, d0, k)
    requires r.phase == Applying(listing, |listing.contacts|)
    requires next.origin == r.origin && next.page == listing.nextPage
    requires if listing.nextPage.Some? then next.phase.Asking? && next.delta == r.delta
             else next.phase.Pulled? && next.delta == if listing.nextDelta.Some? then listing.nextDelta else r.delta
    ensures RunAt(next, o, pages, d0, k) && (listing.nextPage.Some? ==> Reaches(pages, listing.nextPage, k))
  {
    var p: nat :| p < |pages| && listing == pages[p] && Offset(pages, p) + |listing.contacts| <= k;
    PageEnds(pages, p, |listing.contacts|, k);
  }

  lemma TurnProgress(n: Normal, w: World, run: nat, t0: Tables, o: Origin, pages: seq<Page>, d0: Option<Cursor>, k: nat)
    requires RunsInv(w) && Chain(pages) && Progress(n, w, t0, o, pages, d0, k)
    ensures Progress(n, Step(n, w, Turn(run)), t0, o, pages, d0, k)
  {
    if Live(w, run) && w.runs[run].phase.Applying? && !HasRecord(w, run) {
      var next := Turn'(w, run).runs[run];
      assert RunAt(w.runs[run], o, pages, d0, k) && RunSound(w.runs[run]);
      TurnedAt(w.runs[run], next, w.runs[run].phase.listing, o, pages, d0, k);
      MoveRun(w.runs, run, next, o, pages, d0, k);
    }
  }

  lemma BoundProgress(
      n: Normal, w: World, run: nat, t0: Tables, o: Origin, pages: seq<Page>, d0: Option<Cursor>, k: nat)
    requires Chain(pages) && Progress(n, w, t0, o, pages, d0, k)
    ensures Progress(n, Step(n, w, Bound(run)), t0, o, pages, d0, k)
  {
  }

  /** A run starts from the checkpoint, or the listing's beginning. */
  lemma ClaimProgress(
      n: Normal, w: World, run: nat, maxPages: nat, t0: Tables, o: Origin, pages: seq<Page>, d0: Option<Cursor>, k: nat)
    requires Chain(pages) && Progress(n, w, t0, o, pages, d0, k) && maxPages > 0
    ensures Progress(n, Step(n, w, Claim(run, o.id, maxPages)), t0, o, pages, d0, k)
  {
  }

  /** Other events that only touch rows and runs: they end runs and clear the checkpoint. */
  lemma OtherProgress(
      n: Normal, w: World, e: Event, t0: Tables, o: Origin, pages: seq<Page>, d0: Option<Cursor>, k: nat)
    requires Chain(pages) && Progress(n, w, t0, o, pages, d0, k) && Allowed(w, e, o, pages)
    requires e.Claim? || (e.Respond? && e.answer.Broken?) || e.Throw? || e.Crash? || e.Recover? || e.Deny?
    ensures Progress(n, Step(n, w, e), t0, o, pages, d0, k)
  {
    assert At(pages, None, 0) && Offset(pages, 0) == 0 <= k;
    assert Reaches(pages, None, k);
    if e.Claim? { ClaimProgress(n, w, e.run, e.maxPages, t0, o, pages, d0, k); }
  }

  lemma StepProgress(
      n: Normal, w: World, e: Event, t0: Tables, o: Origin, pages: seq<Page>, d0: Option<Cursor>, k: nat)
      returns (k': nat)
    requires RunsInv(w) && Sound(t0, o) && Chain(pages) && Progress(n, w, t0, o, pages, d0, k)
    requires Allowed(w, e, o, pages)
    ensures Progress(n, Step(n, w, e), t0, o, pages, d0, k')
  {
    k' := k;
    match e
    case Record(run) => if HasRecord(w, run) { k' := RecordProgress(n, w, run, t0, o, pages, d0, k); }
    case CrashInUpdate(run) => if HasRecord(w, run) { CrashInUpdateProgress(n, w, run, t0, o, pages, d0, k); }
    case Respond(run, Listed(listing)) => RespondProgress(n, w, run, listing, t0, o, pages, d0, k);
    case Turn(run) => TurnProgress(n, w, run, t0, o, pages, d0, k);
    case Bound(run) => BoundProgress(n, w, run, t0, o, pages, d0, k);
    case _ => OtherProgress(n, w, e, t0, o, pages, d0, k);
  }

  lemma {:induction false} ScheduleProgress(
      n: Normal, w: World, es: seq<Event>, t0: Tables, o: Origin, pages: seq<Page>, d0: Option<Cursor>, k: nat)
      returns (k': nat)
    requires RunsInv(w) && Sound(t0, o) && Chain(pages) && Progress(n, w, t0, o, pages, d0, k)
    requires Schedule(n, w, es, o, pages)
    ensures Progress(n, Exec(n, w, es), t0, o, pages, d0, k')
    decreases es
  {
    k' := k;
    if es != [] {
      k' := StepProgress(n, w, es[0], t0, o, pages, d0, k);
      StepKeepsRuns(n, w, es[0]);
      k' := ScheduleProgress(n, Step(n, w, es[0]), es[1..], t0, o, pages, d0, k');
    }
  }

  lemma PulledProgress(
      n: Normal, w: World, t0: Tables, o: Origin, pages: seq<Page>, d0: Option<Cursor>, k: nat, run: nat)
    requires Chain(pages) && Progress(n, w, t0, o, pages, d0, k)
    requires run in w.runs && w.runs[run].phase.Pulled?
    ensures w.tables == Pass(n, t0, o, Records(pages)) && w.rows[o.id].delta == d0
    ensures var rows := Step(n, w, Finish(run)).rows;
            o.id in rows && rows[o.id] == Published(w.rows[o.id], NextDelta(pages, d0))
  {
    assert RunAt(w.runs[run], o, pages, d0, k);
    assert Records(pages)[..k] == Records(pages);
  }

  /** Crash-resume convergence. Whatever mix of bounded runs, failures, crashes
      and overlapping claims came before, once a run has left the page loop the
      contacts, links and tombstones are those of one uninterrupted pass, the
      delta cursor is still the old one, and that run publishes the listing's
      own with no checkpoint left. */
  lemma Convergence(n: Normal, w: World, es: seq<Event>, o: Origin, pages: seq<Page>, run: nat)
    requires WorldInv(w) && w.runs == map[] && o.id in w.rows && w.rows[o.id].origin == o && w.rows[o.id].page.None?
    requires Chain(pages) && Schedule(n, w, es, o, pages)
    requires run in Exec(n, w, es).runs && Exec(n, w, es).runs[run].phase.Pulled?
    ensures var w' := Exec(n, w, es);
            && w'.tables == Pass(n, w.tables, o, Records(pages))
            && o.id in w'.rows && w'.rows[o.id].delta == w.rows[o.id].delta
            && var rows := Step(n, w', Finish(run)).rows;
               o.id in rows && rows[o.id] == Published(w'.rows[o.id], NextDelta(pages, w.rows[o.id].delta))
  {
    assert At(pages, None, 0) && Offset(pages, 0) == 0;
    assert Records(pages)[..0] == [];
    var d0 := w.rows[o.id].delta;
    var k := ScheduleProgress(n, w, es, w.tables, o, pages, d0, 0);
    PulledProgress(n, Exec(n, w, es), w.tables, o, pages, d0, k, run);
  }
}

/** A second run over an unchanged folder. */
module FolderQuiet {
  import opened FolderWalk
  import opened FolderTheorems

  /** A file of the granted tree. */
  ghost predicate ItemIn(env: Env, item: Item) {
    exists f :: Located(env, f) && item.entry in All(env.listing(f.id)) && !item.entry.folder
        && item.path == PathOf(env.rules.names, f, item.entry)
  }

  /** No two files of the tree share a path; each has a modification time, can be
      stored, and fails no run. */
  ghost predicate Regular(env: Env) {
    && (forall x, y | ItemIn(env, x) && ItemIn(env, y) && x.path == y.path :: x == y)
    && (forall x | ItemIn(env, x) ::
          x.entry.modifiedAt.Some? && env.rules.storable(x.path) && !FailsRun(env.rules.ending(x.path, x.entry)))
  }

  /** Besides, what is stored of a file has the size it was listed with. */
  ghost predicate Definite(env: Env) {
    Regular(env) && forall x | ItemIn(env, x) && env.rules.ending(x.path, x.entry).Stored? ::
      env.rules.ending(x.path, x.entry).length == x.entry.byteSize
  }

  /** The file is in the index at another size than it is listed with. */
  ghost predicate Resized(rules: Rules, docs: map<string, Doc>, x: Item) {
    && x.path in docs && rules.admits(x.path, x.entry.byteSize)
    && var ending := rules.ending(x.path, x.entry);
       && ending.Stored? && ending.length != x.entry.byteSize
       && docs[x.path] == Doc(ending.length, x.entry.modifiedAt, Indexed)
  }

  /** Every file seen so far is settled in the index, or in it at another size. */
  ghost predicate SettledSoFar(env: Env, s: State) {
    forall x | ItemIn(env, x) && x.path in s.seen :: SettledIn(s.docs, x) || Resized(env.rules, s.docs, x)
  }

  lemma VisitDone(env: Env, s: State, x: Item)
    requires Regular(env) && ItemIn(env, x)
    requires Settled(env.rules, x) ==> x.path in s.docs && (SettledIn(s.docs, x) || Resized(env.rules, s.docs, x))
    ensures var s' := Visit(env.rules, s, x); SettledIn(s'.docs, x) || Resized(env.rules, s'.docs, x)
  {
  }

  lemma VisitSettles(env: Env, s: State, x: Item)
    requires Regular(env) && ItemIn(env, x) && SettledSoFar(env, s) && Indexing(env.rules, s)
    ensures SettledSoFar(env, Visit(env.rules, s, x)) && Indexing(env.rules, Visit(env.rules, s, x))
  {
    VisitSees(env.rules, s, x);
    if Settled(env.rules, x) && x.path !in s.seen { assert s.docs[x.path] == env.rules.existing[x.path]; }
    VisitDone(env, s, x);
    var s' := Visit(env.rules, s, x);
    forall y | ItemIn(env, y) && y.path in s'.seen ensures SettledIn(s'.docs, y) || Resized(env.rules, s'.docs, y) {
      if y.path != x.path { assert y.path in s.seen; }
    }
  }

  lemma {:induction false} VisitAllSettles(env: Env, s: State, items: seq<Item>)
    requires Regular(env) && (forall x | x in items :: ItemIn(env, x)) && SettledSoFar(env, s)
             && Indexing(env.rules, s)
    ensures SettledSoFar(env, VisitAll(env.rules, s, items)) && Indexing(env.rules, VisitAll(env.rules, s, items))
    decreases items
  {
    if items != [] && !s.failed {
      VisitSettles(env, s, items[0]);
      VisitAllSettles(env, Visit(env.rules, s, items[0]), items[1..]);
    }
  }

  lemma BatchItems(env: Env, folder: Folder, room: nat)
    requires Located(env, folder)
    ensures forall x | x in BatchOf(env, folder, room).files :: ItemIn(env, x)
  {
    var es := Take(env.listing(folder.id), room).entries;
    TakeComplete(env.listing(folder.id), room);
    forall x | x in BatchOf(env, folder, room).files ensures ItemIn(env, x) {
      FilesIn(env.rules.names, folder, es, x);
      assert x.entry in All(env.listing(folder.id));
    }
  }

  lemma NextItems(env: Env, s: State, folder: Folder)
    requires s.folders != [] && s.entriesSeen <= env.rules.maxEntries && InGrant(env, s) && folder == Queue(s)[0]
    ensures forall x | x in NextBatch(env, s).files :: ItemIn(env, x)
  {
    QueueIn(s, folder);
    BatchItems(env, folder, env.rules.maxEntries - s.entriesSeen);
  }

  lemma {:induction false} WalkSettles(env: Env, s: State)
    requires Regular(env) && s.entriesSeen <= env.rules.maxEntries && InGrant(env, s)
    requires SettledSoFar(env, s) && Indexing(env.rules, s)
    ensures SettledSoFar(env, Walk(env, s))
    decreases env.rules.maxEntries - s.entriesSeen, |s.folders|
  {
    if s.folders != [] && s.complete && !s.failed {
      OneFolderDescends(env, s);
      NextItems(env, s, Queue(s)[0]);
      OneFolderInGrant(env, s, Queue(s)[0], Queue(s)[1..], env.rules.maxEntries - s.entriesSeen);
      var b, rest := NextBatch(env, s), Queue(s)[1..];
      VisitAllSettles(env, Opened(s, rest, b), b.files);
      WalkSettles(env, OneFolder(env, s));
    }
  }

  // ------------------------------------------------------------- second run

  /** Nothing was decided: index and usage are as they were. */
  ghost predicate Quiet(env: Env, usage: Usage, s: State) {
    && s.docs == env.rules.existing && s.usage == usage && s.counts.indexed == 0 && s.counts.skipped == 0
    && s.counts.kept == s.counts.seen
  }

  lemma {:induction false} VisitAllQuiet(env: Env, usage: Usage, s: State, items: seq<Item>)
    requires Quiet(env, usage, s) && forall x | x in items :: Settled(env.rules, x)
    ensures Quiet(env, usage, VisitAll(env.rules, s, items))
    decreases items
  {
    if items != [] && !s.failed { VisitAllQuiet(env, usage, Visit(env.rules, s, items[0]), items[1..]); }
  }

  lemma {:induction false} WalkQuiet(env: Env, usage: Usage, s: State)
    requires s.entriesSeen <= env.rules.maxEntries && InGrant(env, s) && Quiet(env, usage, s)
    requires forall x | ItemIn(env, x) :: Settled(env.rules, x)
    ensures Quiet(env, usage, Walk(env, s))
    decreases env.rules.maxEntries - s.entriesSeen, |s.folders|
  {
    if s.folders != [] && s.complete && !s.failed {
      OneFolderDescends(env, s);
      NextItems(env, s, Queue(s)[0]);
      OneFolderInGrant(env, s, Queue(s)[0], Queue(s)[1..], env.rules.maxEntries - s.entriesSeen);
      var b, rest := NextBatch(env, s), Queue(s)[1..];
      VisitAllQuiet(env, usage, Opened(s, rest, b), b.files);
      WalkQuiet(env, usage, OneFolder(env, s));
    }
  }

  /** A later run over the same tree: the index is as the earlier one left it, while
      quota, gates, scanner and entry bound may have changed. */
  ghost predicate NextRun(env: Env, usage: Usage, next: Env) {
    && next.listing == env.listing && next.rules.existing == Synced(env, usage)
    && next.rules.names == env.rules.names && next.rules.root == env.rules.root
       && next.rules.recursive == env.rules.recursive
  }

  lemma {:induction false} SameTrails(env: Env, usage: Usage, next: Env, trail: seq<Entry>)
    requires NextRun(env, usage, next)
    ensures Reached(next, trail) == Reached(env, trail) && (Trail(next, trail) <==> Trail(env, trail))
  {
    if trail != [] { SameTrails(env, usage, next, trail[..|trail| - 1]); }
  }

  lemma SameItems(env: Env, usage: Usage, next: Env, item: Item)
    requires NextRun(env, usage, next) && ItemIn(next, item)
    ensures ItemIn(env, item)
  {
    var f :| Located(next, f) && item.entry in All(next.listing(f.id)) && !item.entry.folder
             && item.path == PathOf(next.rules.names, f, item.entry);
    var trail :| Trail(next, trail) && Reached(next, trail) == f;
    SameTrails(env, usage, next, trail);
    assert Located(env, f);
  }

  /** Syncing is idempotent: after a complete run over a definite tree, another run
      over the same tree decides nothing, whatever quota, gates and scanner have come to
      be. Index and usage stay, every file is counted as unchanged. */
  lemma SecondRunIsQuiet(env: Env, usage: Usage, next: Env, usage': Usage)
    requires Definite(env) && Walk(env, Start(env, usage)).complete && !Walk(env, Start(env, usage)).failed
    requires NextRun(env, usage, next)
    ensures Quiet(next, usage', Walk(next, Start(next, usage')))
  {
    StartInGrant(env, usage);
    StartInGrant(next, usage');
    WalkSettles(env, Start(env, usage));
    forall x | ItemIn(next, x) ensures Settled(next.rules, x) {
      SameItems(env, usage, next, x);
      assert InTree(env, x.path);
      CompleteWalkSeesTheTree(env, usage, x.path);
    }
    WalkQuiet(next, usage', Start(next, usage'));
  }

  // --------------------------------------------------------- a missing scanner

  /** Every file of the tree at path `p` is settled, and the index still has its row. */
  ghost predicate RowRests(env: Env, s: State, p: string) {
    p in env.rules.existing && p in s.docs && s.docs[p] == env.rules.existing[p]
  }

  lemma {:induction false} VisitAllRests(env: Env, s: State, items: seq<Item>, p: string)
    requires RowRests(env, s, p) && forall x | x in items && x.path == p :: Settled(env.rules, x)
    ensures RowRests(env, VisitAll(env.rules, s, items), p)
    decreases items
  {
    if items != [] && !s.failed {
      assert items[0] in items;
      VisitSees(env.rules, s, items[0]);
      VisitAllRests(env, Visit(env.rules, s, items[0]), items[1..], p);
    }
  }

  lemma {:induction false} WalkRests(env: Env, s: State, p: string)
    requires s.entriesSeen <= env.rules.maxEntries && InGrant(env, s) && RowRests(env, s, p)
    requires forall x | ItemIn(env, x) && x.path == p :: Settled(env.rules, x)
    ensures RowRests(env, Walk(env, s), p)
    decreases env.rules.maxEntries - s.entriesSeen, |s.folders|
  {
    if s.folders != [] && s.complete && !s.failed {
      OneFolderDescends(env, s);
      NextItems(env, s, Queue(s)[0]);
      OneFolderInGrant(env, s, Queue(s)[0], Queue(s)[1..], env.rules.maxEntries - s.entriesSeen);
      VisitAllRests(env, Opened(s, Queue(s)[1..], NextBatch(env, s)), NextBatch(env, s).files, p);
      WalkRests(env, OneFolder(env, s), p);
    }
  }

  /** The run ended at this file, for want of a scanner. `at` is the state it was in. */
  ghost predicate EndsUnscanned(env: Env, usage: Usage, at: State, item: Item) {
    && Walk(env, Start(env, usage)) == Visit(env.rules, at, item) && !at.failed && !Settled(env.rules, item)
    && env.rules.storable(item.path) && Accepts(env.rules, at.usage, item)
    && env.rules.ending(item.path, item.entry).NoScanner? && item.entry.modifiedAt.Some?
  }

  /** The index had the file with its present modification time. */
  predicate HadWithTime(at: State, item: Item) {
    item.path in at.docs && at.docs[item.path].modifiedAt == item.entry.modifiedAt
  }

  /** What the run that ended so leaves behind. */
  lemma UnscannedRow(env: Env, usage: Usage, at: State, item: Item)
    requires EndsUnscanned(env, usage, at, item)
    ensures Walk(env, Start(env, usage)).failed && item.path in Synced(env, usage)
    ensures SettledIn(Synced(env, usage), item) <==> HadWithTime(at, item)
    ensures HadWithTime(at, item) ==>
              Synced(env, usage)[item.path] == Doc(item.entry.byteSize, item.entry.modifiedAt, Skipped)
  {
  }

  /** A missing scanner fails the run, so that the file is looked at again by the next.
      It is not, exactly when the index had it with its present time: then the next
      run passes it over, with a scanner or without, and its row stays as it is although
      the file was never scanned. Otherwise the next run takes it in again. */
  lemma OutageSticksIff(env: Env, usage: Usage, at: State, item: Item, next: Env, usage': Usage)
    requires EndsUnscanned(env, usage, at, item) && NextRun(env, usage, next)
    requires forall x | ItemIn(env, x) && x.path == item.path :: x == item
    ensures Walk(env, Start(env, usage)).failed
    ensures Settled(next.rules, item) <==> HadWithTime(at, item)
    ensures HadWithTime(at, item) ==>
              && RowRests(next, Walk(next, Start(next, usage')), item.path)
              && Synced(env, usage)[item.path].state == Skipped
    ensures !HadWithTime(at, item) ==>
              forall s: State :: Visit(next.rules, s, item) ==
                IngestOne(next.rules, s.(seen := s.seen + {item.path}, counts := s.counts.(seen := s.counts.seen + 1)),
                    item)
  {
    UnscannedRow(env, usage, at, item);
    if HadWithTime(at, item) {
      StartInGrant(next, usage');
      forall x | ItemIn(next, x) && x.path == item.path ensures Settled(next.rules, x) {
        SameItems(env, usage, next, x);
      }
      WalkRests(next, Start(next, usage'), item.path);
    }
  }

  /** A failed run over listings that do not fail ended at some file. */
  lemma {:induction false} VisitAllStopsAt(rules: Rules, s: State, items: seq<Item>) returns (at: State, item: Item)
    requires !s.failed && VisitAll(rules, s, items).failed
    ensures !at.failed && item in items && VisitAll(rules, s, items) == Visit(rules, at, item)
    decreases items
  {
    var s1 := Visit(rules, s, items[0]);
    if s1.failed {
      at, item := s, items[0];
    } else {
      at, item := VisitAllStopsAt(rules, s1, items[1..]);
    }
  }

  lemma {:induction false} FailedWalkStopsAt(env: Env, s: State) returns (at: State, item: Item)
    requires s.entriesSeen <= env.rules.maxEntries && InGrant(env, s) && !s.failed && Walk(env, s).failed
    requires forall f | Located(env, f) :: forall r | r in env.listing(f.id) :: r.Entries?
    ensures !at.failed && ItemIn(env, item) && Walk(env, s) == Visit(env.rules, at, item)
    decreases env.rules.maxEntries - s.entriesSeen, |s.folders|
  {
    var g, rest := Queue(s)[0], Queue(s)[1..];
    OneFolderDescends(env, s);
    NextItems(env, s, g);
    OneFolderInGrant(env, s, g, rest, env.rules.maxEntries - s.entriesSeen);
    var b := NextBatch(env, s);
    QueueIn(s, g);
    NoListingFails(env, g, env.rules.maxEntries - s.entriesSeen);
    if OneFolder(env, s).failed {
      at, item := VisitAllStopsAt(env.rules, Opened(s, rest, b), b.files);
    } else {
      at, item := FailedWalkStopsAt(env, OneFolder(env, s));
    }
  }

  lemma {:induction false} TakesWithoutFailure(replies: seq<Reply>, room: nat)
    requires forall r | r in replies :: r.Entries?
    ensures !Take(replies, room).failed
    decreases replies
  {
    if replies != [] {
      assert replies[0].Entries?;
      if |replies[0].entries| <= room { TakesWithoutFailure(replies[1..], room - |replies[0].entries|); }
    }
  }

  lemma NoListingFails(env: Env, g: Folder, room: nat)
    requires Located(env, g) && forall f | Located(env, f) :: forall r | r in env.listing(f.id) :: r.Entries?
    ensures !BatchOf(env, g, room).failed
  {
    TakesWithoutFailure(env.listing(g.id), room);
  }
}

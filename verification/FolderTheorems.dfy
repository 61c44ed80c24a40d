/** What a walk has seen when it says it is complete, and that the provider's
    page order has no say in the outcome. */
module FolderTheorems {
  import opened Sorting
  import opened FolderWalk

  // ------------------------------------------------------- the remote tree

  /** Every entry the provider lists for a folder, over all its pages. */
  function All(replies: seq<Reply>): seq<Entry>
    decreases replies
  {
    if replies == [] then [] else (if replies[0].Entries? then replies[0].entries else []) + All(replies[1..])
  }

  /** The folder a trail of folder entries leads to from the mapped one. */
  function Reached(env: Env, trail: seq<Entry>): Folder {
    if trail == [] then Folder(env.rules.root, "")
        else ChildFolder(env.rules.names, Reached(env, trail[..|trail| - 1]), trail[|trail| - 1])
  }

  /** Each entry of the trail is a folder listed in the one before; without
      recursion only the mapped folder is inside the grant. */
  ghost predicate Trail(env: Env, trail: seq<Entry>) {
    trail == [] || (
      && env.rules.recursive && Trail(env, trail[..|trail| - 1])
      && trail[|trail| - 1].folder && trail[|trail| - 1] in All(env.listing(Reached(env, trail[..|trail| - 1]).id)))
  }

  ghost predicate Located(env: Env, f: Folder) { exists trail :: Trail(env, trail) && Reached(env, trail) == f }

  /** A path of a file inside the grant. */
  ghost predicate InTree(env: Env, path: string) {
    exists f, e :: Located(env, f) && e in All(env.listing(f.id)) && !e.folder && path == PathOf(env.rules.names, f, e)
  }

  // ---------------------------------------------------------- what is seen

  /** Taking less than everything is reported. */
  lemma {:induction false} TakeComplete(replies: seq<Reply>, room: nat)
    ensures var t := Take(replies, room);
            && (t.complete && !t.failed ==> t.entries == All(replies))
            && (forall e | e in t.entries :: e in All(replies))
    decreases replies
  {
    if replies != [] && replies[0].Entries? && |replies[0].entries| <= room {
      TakeComplete(replies[1..], room - |replies[0].entries|);
    }
  }

  lemma {:induction false} CollectIn<T, U>(f: T -> seq<U>, xs: seq<T>, y: U)
    ensures y in Collect(f, xs) <==> exists x | x in xs :: y in f(x)
    decreases xs
  {
    if xs != [] {
      CollectIn(f, xs[1..], y);
      assert forall x :: x in xs <==> x == xs[0] || x in xs[1..];
    }
  }

  lemma FilesIn(names: Names, folder: Folder, es: seq<Entry>, item: Item)
    ensures item in Files(names, folder, es) <==>
              item.entry in es && !item.entry.folder && item.path == PathOf(names, folder, item.entry)
  {
    var f := FileOf(names, folder);
    SortSorts(ByPath(), Collect(f, es));
    SameSize(Collect(f, es), Files(names, folder, es));
    CollectIn(f, es, item);
    if item.entry in es && !item.entry.folder && item.path == PathOf(names, folder, item.entry) {
      assert item in f(item.entry);
    }
  }

  lemma SubfoldersIn(rules: Rules, folder: Folder, es: seq<Entry>, child: Folder)
    ensures child in Subfolders(rules, folder, es) <==>
            rules.recursive && exists e | e in es :: e.folder && child == ChildFolder(rules.names, folder, e)
  {
    var f := FolderOf(rules, folder);
    SortSorts(ByPrefix(), Collect(f, es));
    SameSize(Collect(f, es), Subfolders(rules, folder, es));
    CollectIn(f, es, child);
    if rules.recursive {
      forall e | e in es && e.folder && child == ChildFolder(rules.names, folder, e) ensures child in f(e) {}
    }
  }

  lemma QueueIn(s: State, f: Folder)
    requires s.folders != []
    ensures f in s.folders <==> f == Queue(s)[0] || f in Queue(s)[1..]
  {
    SortSorts(ByPrefix(), s.folders);
    SameSize(s.folders, Queue(s));
    assert Queue(s) == [Queue(s)[0]] + Queue(s)[1..];
  }

  /** Ingesting a file touches its row only, and leaves one if the run goes on. */
  lemma IngestTouches(rules: Rules, s: State, item: Item)
    ensures var s' := IngestOne(rules, s, item);
            && s'.seen == s.seen
            && (s'.docs == s.docs || (item.path in s'.docs && s'.docs == s.docs[item.path := s'.docs[item.path]]))
            && (!s'.failed ==> item.path in s'.docs)
  {
  }

  lemma RowTouched(docs: map<string, Doc>, docs': map<string, Doc>, path: string)
    requires docs' == docs || (path in docs' && docs' == docs[path := docs'[path]])
    ensures docs.Keys <= docs'.Keys <= docs.Keys + {path}
    ensures forall p | p in docs && p != path :: docs'[p] == docs[p]
  {
  }

  lemma VisitTouches(rules: Rules, s: State, item: Item)
    ensures var s' := Visit(rules, s, item);
            && s'.seen == s.seen + {item.path}
            && (s'.docs == s.docs || (item.path in s'.docs && s'.docs == s.docs[item.path := s'.docs[item.path]]))
            && (!s'.failed ==> item.path in s'.docs || (item.path in rules.existing && s'.docs == s.docs))
  {
    IngestTouches(rules, s.(seen := s.seen + {item.path}, counts := s.counts.(seen := s.counts.seen + 1)), item);
  }

  lemma VisitSees(rules: Rules, s: State, item: Item)
    ensures var s' := Visit(rules, s, item);
            && s'.seen == s.seen + {item.path}
            && s.docs.Keys <= s'.docs.Keys <= s.docs.Keys + {item.path}
            && ((item.path in rules.existing ==> item.path in s.docs) && !s'.failed ==> item.path in s'.docs)
            && (forall p | p in s.docs && p != item.path :: s'.docs[p] == s.docs[p])
  {
    VisitTouches(rules, s, item);
    RowTouched(s.docs, Visit(rules, s, item).docs, item.path);
  }

  lemma {:induction false} VisitAllSees(rules: Rules, s: State, items: seq<Item>)
    ensures var s' := VisitAll(rules, s, items);
            && s.seen <= s'.seen
            && (forall p | p in s'.seen :: p in s.seen || exists i | i in items :: i.path == p)
            && (!s'.failed ==> forall i | i in items :: i.path in s'.seen)
    decreases items
  {
    if items != [] && !s.failed {
      var s1 := Visit(rules, s, items[0]);
      VisitSees(rules, s, items[0]);
      VisitAllSees(rules, s1, items[1..]);
      var s' := VisitAll(rules, s, items);
      forall p | p in s'.seen ensures p in s.seen || exists i | i in items :: i.path == p {
        if p == items[0].path { assert items[0] in items; }
      }
    }
  }

  // ------------------------------------------------- the work list argument

  /** `done` folders are finished: their files are seen, their subfolders are
      done or waiting. Nothing outside the grant is ever queued or seen. */
  ghost predicate Covers(env: Env, s: State, done: set<Folder>) {
    && (Folder(env.rules.root, "") in done || Folder(env.rules.root, "") in s.folders)
    && (forall f | f in done || f in s.folders :: Located(env, f))
    && (forall f | f in done :: Finished(env, s, done, f))
    && (forall p | p in s.seen :: InTree(env, p))
  }

  ghost predicate Finished(env: Env, s: State, done: set<Folder>, f: Folder) {
    forall e | e in All(env.listing(f.id)) ::
      && (!e.folder ==> PathOf(env.rules.names, f, e) in s.seen)
      && (e.folder && env.rules.recursive ==>
         ChildFolder(env.rules.names, f, e) in done || ChildFolder(env.rules.names, f, e) in s.folders)
  }

  lemma ChildLocated(env: Env, f: Folder, e: Entry)
    requires Located(env, f) && env.rules.recursive && e.folder && e in All(env.listing(f.id))
    ensures Located(env, ChildFolder(env.rules.names, f, e))
  {
    var trail :| Trail(env, trail) && Reached(env, trail) == f;
    assert (trail + [e])[..|trail|] == trail;
    assert Trail(env, trail + [e]) && Reached(env, trail + [e]) == ChildFolder(env.rules.names, f, e);
  }

  lemma FileInTree(env: Env, folder: Folder, room: nat, item: Item)
    requires Located(env, folder) && item in Files(env.rules.names, folder, Take(env.listing(folder.id), room).entries)
    ensures InTree(env, item.path)
  {
    TakeComplete(env.listing(folder.id), room);
    FilesIn(env.rules.names, folder, Take(env.listing(folder.id), room).entries, item);
    assert item.entry in All(env.listing(folder.id));
  }

  lemma SubfolderLocated(env: Env, folder: Folder, room: nat, f: Folder)
    requires Located(env, folder) && f in Subfolders(env.rules, folder, Take(env.listing(folder.id), room).entries)
    ensures Located(env, f)
  {
    var es := Take(env.listing(folder.id), room).entries;
    TakeComplete(env.listing(folder.id), room);
    SubfoldersIn(env.rules, folder, es, f);
    var e :| e in es && e.folder && f == ChildFolder(env.rules.names, folder, e);
    ChildLocated(env, folder, e);
  }

  /** What one pass sees, and what it queues, is inside the grant. */
  lemma OneFolderInTree(env: Env, s: State, folder: Folder, rest: seq<Folder>, room: nat)
    requires Located(env, folder) && (forall f | f in rest :: Located(env, f))
             && (forall p | p in s.seen :: InTree(env, p))
    ensures var s' := Handle(env.rules, s, rest, BatchOf(env, folder, room));
            (forall p | p in s'.seen :: InTree(env, p)) && (forall f | f in s'.folders :: Located(env, f))
  {
    var b := BatchOf(env, folder, room);
    VisitAllSees(env.rules, Opened(s, rest, b), b.files);
    HandleFrame(env.rules, s, rest, b);
    var s' := Handle(env.rules, s, rest, b);
    forall p | p in s'.seen ensures InTree(env, p) {
      if p !in s.seen {
        var i :| i in b.files && i.path == p;
        FileInTree(env, folder, room, i);
      }
    }
    forall f | f in s'.folders ensures Located(env, f) {
      if f !in rest { SubfolderLocated(env, folder, room, f); }
    }
  }

  ghost predicate InGrant(env: Env, s: State) {
    (forall f | f in s.folders :: Located(env, f)) && (forall p | p in s.seen :: InTree(env, p))
  }

  /** The work list, taken apart. */
  ghost predicate Parts(s: State, folder: Folder, rest: seq<Folder>) {
    forall f :: f in s.folders <==> f == folder || f in rest
  }

  lemma QueueParts(s: State)
    requires s.folders != []
    ensures Parts(s, Queue(s)[0], Queue(s)[1..])
  {
    forall f ensures f in s.folders <==> f == Queue(s)[0] || f in Queue(s)[1..] { QueueIn(s, f); }
  }

  lemma HandleStaysInGrant(env: Env, s: State, folder: Folder, rest: seq<Folder>, room: nat)
    requires InGrant(env, s) && Parts(s, folder, rest)
    ensures InGrant(env, Handle(env.rules, s, rest, BatchOf(env, folder, room)))
  {
    assert folder in s.folders;
    OneFolderInTree(env, s, folder, rest, room);
  }

  /** One pass finishes its folder. */
  lemma HandleFinishes(env: Env, s: State, folder: Folder, rest: seq<Folder>, room: nat, done: set<Folder>)
    requires var s' := Handle(env.rules, s, rest, BatchOf(env, folder, room)); s'.complete && !s'.failed
    ensures Finished(env, Handle(env.rules, s, rest, BatchOf(env, folder, room)), done, folder)
  {
    var b := BatchOf(env, folder, room);
    VisitAllSees(env.rules, Opened(s, rest, b), b.files);
    HandleFrame(env.rules, s, rest, b);
    TakeComplete(env.listing(folder.id), room);
    var s' := Handle(env.rules, s, rest, b);
    var es := Take(env.listing(folder.id), room).entries;
    forall e | e in All(env.listing(folder.id))
      ensures !e.folder ==> PathOf(env.rules.names, folder, e) in s'.seen
      ensures e.folder && env.rules.recursive ==> ChildFolder(env.rules.names, folder, e) in s'.folders
    {
      FilesIn(env.rules.names, folder, es, Item(e, PathOf(env.rules.names, folder, e)));
      SubfoldersIn(env.rules, folder, es, ChildFolder(env.rules.names, folder, e));
    }
  }

  /** What was finished stays finished. */
  lemma StaysFinished(env: Env, s: State, s': State, done: set<Folder>, done': set<Folder>, f: Folder)
    requires Finished(env, s, done, f) && s.seen <= s'.seen
    requires forall g | g in done || g in s.folders :: g in done' || g in s'.folders
    ensures Finished(env, s', done', f)
  {
  }

  lemma HandleCovers(env: Env, s: State, folder: Folder, rest: seq<Folder>, room: nat, done: set<Folder>)
    requires Covers(env, s, done) && Parts(s, folder, rest)
    requires var s' := Handle(env.rules, s, rest, BatchOf(env, folder, room)); s'.complete && !s'.failed
    ensures Covers(env, Handle(env.rules, s, rest, BatchOf(env, folder, room)), done + {folder})
  {
    var b := BatchOf(env, folder, room);
    var s' := Handle(env.rules, s, rest, b);
    var done' := done + {folder};
    assert folder in s.folders;
    VisitAllSees(env.rules, Opened(s, rest, b), b.files);
    HandleFrame(env.rules, s, rest, b);
    HandleStaysInGrant(env, s, folder, rest, room);
    HandleFinishes(env, s, folder, rest, room, done');
    forall f | f in done ensures Finished(env, s', done', f) { StaysFinished(env, s, s', done, done', f); }
  }

  lemma HandleKeepsAll(env: Env, s: State, folder: Folder, rest: seq<Folder>, room: nat, done: set<Folder>, s': State)
    requires Covers(env, s, done) && Parts(s, folder, rest)
             && s' == Handle(env.rules, s, rest, BatchOf(env, folder, room))
    ensures InGrant(env, s') && (s'.complete && !s'.failed ==> Covers(env, s', done + {folder}))
  {
    HandleStaysInGrant(env, s, folder, rest, room);
    if s'.complete && !s'.failed { HandleCovers(env, s, folder, rest, room, done); }
  }

  lemma OneFolderCovers(env: Env, s: State, done: set<Folder>) returns (done': set<Folder>)
    requires s.folders != [] && s.entriesSeen <= env.rules.maxEntries && Covers(env, s, done)
    ensures var s' := OneFolder(env, s);
            InGrant(env, s') && (s'.complete && !s'.failed ==> Covers(env, s', done'))
  {
    var folder, rest, room := Queue(s)[0], Queue(s)[1..], env.rules.maxEntries - s.entriesSeen;
    QueueParts(s);
    OneFolderIs(env, s, folder, rest, room);
    HandleKeepsAll(env, s, folder, rest, room, done, OneFolder(env, s));
    done' := done + {folder};
  }

  lemma StartInGrant(env: Env, usage: Usage)
    ensures InGrant(env, Start(env, usage))
  {
    assert Trail(env, []) && Reached(env, []) == Folder(env.rules.root, "");
  }

  lemma OneFolderInGrant(env: Env, s: State, folder: Folder, rest: seq<Folder>, room: nat)
    requires s.folders != [] && s.entriesSeen <= env.rules.maxEntries && InGrant(env, s)
    requires folder == Queue(s)[0] && rest == Queue(s)[1..] && room == env.rules.maxEntries - s.entriesSeen
    ensures InGrant(env, OneFolder(env, s))
  {
    QueueParts(s);
    OneFolderIs(env, s, folder, rest, room);
    HandleStaysInGrant(env, s, folder, rest, room);
  }

  lemma {:induction false} WalkCovers(env: Env, s: State, done: set<Folder>) returns (done': set<Folder>)
    requires s.entriesSeen <= env.rules.maxEntries && Covers(env, s, done)
    ensures var s' := Walk(env, s);
            InGrant(env, s') && (s'.complete && !s'.failed ==> s'.folders == [] && Covers(env, s', done'))
    decreases env.rules.maxEntries - s.entriesSeen, |s.folders|
  {
    done' := done;
    if s.folders != [] && s.complete && !s.failed {
      var s1 := OneFolder(env, s);
      OneFolderDescends(env, s);
      var done1 := OneFolderCovers(env, s, done);
      if s1.complete && !s1.failed { done' := WalkCovers(env, s1, done1); }
    }
  }

  lemma {:induction false} AllReached(env: Env, s: State, done: set<Folder>, trail: seq<Entry>)
    requires Covers(env, s, done) && s.folders == [] && Trail(env, trail)
    ensures Reached(env, trail) in done
  {
    if trail != [] {
      AllReached(env, s, done, trail[..|trail| - 1]);
      assert Finished(env, s, done, Reached(env, trail[..|trail| - 1]));
    }
  }

  /** A walk that says it is complete has seen exactly the files inside the
      grant; any walk has seen nothing else. */
  lemma CompleteWalkSeesTheTree(env: Env, usage: Usage, path: string)
    ensures var s := Walk(env, Start(env, usage));
            && (path in s.seen ==> InTree(env, path))
            && (s.complete && !s.failed ==> (path in s.seen <==> InTree(env, path)))
  {
    var s0 := Start(env, usage);
    assert Trail(env, []) && Reached(env, []) == Folder(env.rules.root, "");
    var done := WalkCovers(env, s0, {});
    var s := Walk(env, s0);
    if s.complete && !s.failed && InTree(env, path) {
      var f, e :| Located(env, f) && e in All(env.listing(f.id)) && !e.folder && path == PathOf(env.rules.names, f, e);
      var trail :| Trail(env, trail) && Reached(env, trail) == f;
      AllReached(env, s, done, trail);
      assert Finished(env, s, done, f);
    }
  }

  // ------------------------------------------------------------- the index

  /** Rows are only added or rewritten, and only at paths the walk has seen. */
  ghost predicate Indexing(rules: Rules, s: State) {
    && rules.existing.Keys <= s.docs.Keys && (!s.failed ==> s.seen <= s.docs.Keys)
    && (forall p | p in s.docs.Keys :: p in rules.existing.Keys || p in s.seen)
    && (forall p | p in rules.existing && p !in s.seen :: s.docs[p] == rules.existing[p])
  }

  lemma {:induction false} VisitAllIndexing(rules: Rules, s: State, items: seq<Item>)
    requires Indexing(rules, s)
    ensures Indexing(rules, VisitAll(rules, s, items))
    decreases items
  {
    if items != [] && !s.failed {
      VisitSees(rules, s, items[0]);
      VisitAllIndexing(rules, Visit(rules, s, items[0]), items[1..]);
    }
  }

  lemma {:induction false} WalkIndexing(env: Env, s: State)
    requires s.entriesSeen <= env.rules.maxEntries && Indexing(env.rules, s)
    ensures Indexing(env.rules, Walk(env, s))
    decreases env.rules.maxEntries - s.entriesSeen, |s.folders|
  {
    if s.folders != [] && s.complete && !s.failed {
      OneFolderDescends(env, s);
      VisitAllIndexing(env.rules, Opened(s, Queue(s)[1..], NextBatch(env, s)), NextBatch(env, s).files);
      WalkIndexing(env, OneFolder(env, s));
    }
  }

  /** Removal is safe. After a complete run the index holds exactly the files of
      the tree; after a truncated or failed one every row that was there still
      is, and those the walk did not reach are as they were. */
  lemma RemovalIsSafe(env: Env, usage: Usage)
    ensures var s, docs := Walk(env, Start(env, usage)), Synced(env, usage);
            && (s.complete && !s.failed ==> forall p :: p in docs <==> InTree(env, p))
            && (!(s.complete && !s.failed) ==>
                  && env.rules.existing.Keys <= docs.Keys
                  && forall p | p in env.rules.existing && p !in s.seen :: docs[p] == env.rules.existing[p])
  {
    var s := Walk(env, Start(env, usage));
    WalkIndexing(env, Start(env, usage));
    if s.complete && !s.failed {
      forall p ensures p in Synced(env, usage) <==> InTree(env, p) {
        CompleteWalkSeesTheTree(env, usage, p);
      }
    }
  }

  /** New rows are only at paths the index can store. */
  ghost predicate StorableRows(rules: Rules, s: State)
  {
    forall p | p in s.docs :: p in rules.existing || rules.storable(p)
  }

  lemma {:induction false} VisitAllStorable(rules: Rules, s: State, items: seq<Item>)
    requires StorableRows(rules, s)
    ensures StorableRows(rules, VisitAll(rules, s, items))
    decreases items
  {
    if items != [] && !s.failed { VisitAllStorable(rules, Visit(rules, s, items[0]), items[1..]); }
  }

  lemma {:induction false} WalkStorable(env: Env, s: State)
    requires s.entriesSeen <= env.rules.maxEntries && StorableRows(env.rules, s)
    ensures StorableRows(env.rules, Walk(env, s))
    decreases env.rules.maxEntries - s.entriesSeen, |s.folders|
  {
    if s.folders != [] && s.complete && !s.failed {
      OneFolderDescends(env, s);
      VisitAllStorable(env.rules, Opened(s, Queue(s)[1..], NextBatch(env, s)), NextBatch(env, s).files);
      WalkStorable(env, OneFolder(env, s));
    }
  }

  /** One new file at a path the index cannot store keeps the whole folder from ever
      being synced to the end: nothing is removed, however often it is tried. */
  lemma UnstorableNeverSyncs(env: Env, usage: Usage, path: string)
    requires InTree(env, path) && !env.rules.storable(path) && path !in env.rules.existing
    ensures var s := Walk(env, Start(env, usage));
            !(s.complete && !s.failed) && env.rules.existing.Keys <= Synced(env, usage).Keys
  {
    RemovalIsSafe(env, usage);
    WalkStorable(env, Start(env, usage));
  }
}

/** What is decided about a file, and for which files the quota is spent. */
module FolderDecision {
  import opened Options
  import opened Sorting
  import opened FolderWalk
  import opened FolderTheorems
  import opened FolderOrder
  import opened FolderExact
  import opened FolderAgain
  import opened FolderBound

  // ------------------------------------------------------------- one file

  /** A file is left alone exactly if its row has its time, known, and its size, and is
      indexed, skipped or blocked. Any other file the quota has no room for, by number or
      by listed size, or the gates do not admit, is skipped; the rest is charged with one
      file and the listed size, and comes to what scanning and extraction make of it. */
  lemma VisitOutcome(rules: Rules, s: State, x: Item)
    requires rules.storable(x.path) && !s.failed
    ensures var s', size, time := Visit(rules, s, x), x.entry.byteSize, x.entry.modifiedAt;
            var was := if x.path in rules.existing then Some(rules.existing[x.path]) else None;
            var kept := was.Some? && time.Some? && was.value.modifiedAt == time && was.value.byteSize == size
              && (was.value.state == Indexed || was.value.state == Skipped || was.value.state == Blocked);
            var room := s.usage.files + 1 <= rules.maxFiles && s.usage.bytes + size <= rules.maxBytes;
            var ending := rules.ending(x.path, x.entry);
            && s'.seen == s.seen + {x.path} && s'.counts.seen == s.counts.seen + 1
            && (kept ==> s'.docs == s.docs && s'.usage == s.usage && !s'.failed && s'.counts.kept == s.counts.kept + 1)
            && (!kept && !(room && rules.admits(x.path, size)) ==>
                  && s'.docs == s.docs[x.path := Doc(size, time, Skipped)] && s'.usage == s.usage && !s'.failed
                  && s'.counts.skipped == s.counts.skipped + 1)
            && (!kept && room && rules.admits(x.path, size) ==>
                  && s'.usage == Usage(s.usage.files + 1, s.usage.bytes + size)
                  && (ending.Stored? ==>
                        && s'.docs == s.docs[x.path := Doc(ending.length, time, Indexed)] && !s'.failed
                        && s'.counts.indexed == s.counts.indexed + 1)
                  && (ending.PassedOver? ==>
                        && s'.docs == s.docs[x.path := Doc(size, time, Skipped)] && !s'.failed
                        && s'.counts.skipped == s.counts.skipped + 1)
                  && (ending.Infected? ==>
                        && s'.docs == s.docs[x.path := Doc(size, time, Blocked)] && !s'.failed
                        && s'.counts.skipped == s.counts.skipped + 1)
                  && (ending.Throws? ==> s'.docs == s.docs[x.path := Doc(size, time, Discovered)] && s'.failed)
                  && (ending.NoScanner? || ending.ScanThrows? ==> s'.failed && s'.docs.Keys == s.docs.Keys + {x.path}))
  {
  }

  /** What is taken of a folder is a beginning of what the provider lists, all of it or as
      much as the entry bound leaves room for. */
  lemma {:induction false} TakeIsPrefix(replies: seq<Reply>, room: nat)
    requires NoFailure(replies)
    ensures var t, all := Take(replies, room), All(replies);
            && !t.failed && (t.complete <==> |all| <= room)
            && t.entries == if |all| <= room then all else all[..room]
    decreases replies
  {
    if replies != [] {
      assert replies[0].Entries?;
      var es := replies[0].entries;
      if |es| <= room {
        TakeIsPrefix(replies[1..], room - |es|);
        var rest := All(replies[1..]);
        if |es + rest| > room { assert (es + rest)[..room] == es + rest[..room - |es|]; }
      } else {
        assert (es + All(replies[1..]))[..room] == es[..room];
      }
    }
  }

  /** Request `i` fails, and what the ones before it brought is within the room. */
  ghost predicate FailsWithin(replies: seq<Reply>, room: nat, i: int) {
    0 <= i < |replies| && replies[i].ListFails? && |All(replies[..i])| <= room
  }

  /** Taking a folder's listing fails exactly if some request of it does before the entry
      bound is passed. */
  lemma {:induction false} TakeFailsIff(replies: seq<Reply>, room: nat)
    ensures Take(replies, room).failed <==> exists i :: FailsWithin(replies, room, i)
    decreases replies
  {
    if replies != [] && replies[0].ListFails? {
      assert replies[..0] == [] && FailsWithin(replies, room, 0);
    } else if replies != [] {
      var es := replies[0].entries;
      forall i | 0 < i < |replies| ensures |All(replies[..i])| == |es| + |All(replies[1..][..i - 1])| {
        assert replies[..i][1..] == replies[1..][..i - 1];
      }
      if |es| <= room {
        var rest, left := replies[1..], room - |es|;
        TakeFailsIff(rest, left);
        forall i | FailsWithin(rest, left, i) ensures FailsWithin(replies, room, i + 1) {
          assert replies[i + 1] == replies[1..][i];
        }
        forall i | FailsWithin(replies, room, i) ensures FailsWithin(rest, left, i - 1) {
          assert replies[1..][i - 1] == replies[i];
        }
      }
    }
  }

  /** A request that fails ends the walk before any file of its folder was looked at: no
      row is written, and none removed. */
  lemma FailedListingEndsWalk(env: Env, s: State, f: Folder, i: int)
    requires s.folders != [] && s.entriesSeen <= env.rules.maxEntries && s.complete && !s.failed && f == Queue(s)[0]
    requires FailsWithin(env.listing(f.id), env.rules.maxEntries - s.entriesSeen, i)
    ensures var end := Walk(env, s); end.failed && end.docs == s.docs && end.seen == s.seen && end.usage == s.usage
  {
    var room := env.rules.maxEntries - s.entriesSeen;
    FailedListingFailsBatch(env, f, room, i);
    OneFolderIs(env, s, f, Queue(s)[1..], room);
    FailedBatch(env.rules, s, Queue(s)[1..], BatchOf(env, f, room));
    WalkGoesOn(env, s);
    WalkOver(env, OneFolder(env, s));
  }

  lemma FailedListingFailsBatch(env: Env, f: Folder, room: nat, i: int)
    requires FailsWithin(env.listing(f.id), room, i)
    ensures BatchOf(env, f, room).failed
  {
    TakeFailsIff(env.listing(f.id), room);
    BatchFrom(env, f, room, Take(env.listing(f.id), room));
  }

  lemma FailedBatch(rules: Rules, s: State, rest: seq<Folder>, b: Batch)
    requires b.failed
    ensures var s' := Handle(rules, s, rest, b);
            s'.failed && s'.docs == s.docs && s'.seen == s.seen && s'.usage == s.usage
  {
  }

  // ------------------------------------------------------------------- the order

  /** The files of a folder come in the order of their paths. */
  lemma FilesInOrder(names: Names, folder: Folder, es: seq<Entry>, i: nat, j: nat)
    requires i < j < |Files(names, folder, es)|
    ensures !Before(Files(names, folder, es)[j].path, Files(names, folder, es)[i].path)
  {
    var files := Collect(FileOf(names, folder), es);
    SortSorts(ByPath(), files);
    LessIsBefore(Files(names, folder, es)[j].path, Files(names, folder, es)[i].path);
  }

  /** The next folder of the work list is one with the least prefix. */
  lemma LeastPrefixNext(s: State, f: Folder)
    requires f in s.folders
    ensures s.folders != [] && !Before(f.prefix, Queue(s)[0].prefix)
  {
    SortSorts(ByPrefix(), s.folders);
    SameSize(s.folders, Queue(s));
    var i :| 0 <= i < |Queue(s)| && Queue(s)[i] == f;
    LessTotal(f.prefix, f.prefix);
    LessIsBefore(f.prefix, Queue(s)[0].prefix);
  }

  /** One pass serves a waiting folder with the least prefix: it sees files of that folder
      and no others, and all of them unless it is cut short or fails. */
  lemma PassServesLeast(env: Env, s: State) returns (f: Folder)
    requires s.folders != [] && s.entriesSeen <= env.rules.maxEntries
    ensures f in s.folders && forall g | g in s.folders :: !Before(g.prefix, f.prefix)
    ensures forall p | p in OneFolder(env, s).seen && p !in s.seen :: IsFileOf(env, f, p)
    ensures OneFolder(env, s).complete && !OneFolder(env, s).failed ==>
              forall e | e in All(env.listing(f.id)) && !e.folder ::
                PathOf(env.rules.names, f, e) in OneFolder(env, s).seen
  {
    f := Queue(s)[0];
    QueueIn(s, f);
    forall g | g in s.folders ensures !Before(g.prefix, f.prefix) { LeastPrefixNext(s, g); }
    var room := env.rules.maxEntries - s.entriesSeen;
    OneFolderIs(env, s, f, Queue(s)[1..], room);
    HandleSeesFiles(env, s, f, Queue(s)[1..], room);
    if OneFolder(env, s).complete && !OneFolder(env, s).failed {
      HandleFinishes(env, s, f, Queue(s)[1..], room, {});
    }
  }

  ghost predicate IsFileOf(env: Env, f: Folder, path: string) {
    exists e | e in All(env.listing(f.id)) :: !e.folder && path == PathOf(env.rules.names, f, e)
  }

  lemma HandleSeesFiles(env: Env, s: State, f: Folder, rest: seq<Folder>, room: nat)
    ensures forall p | p in Handle(env.rules, s, rest, BatchOf(env, f, room)).seen && p !in s.seen ::
              IsFileOf(env, f, p)
  {
    var b, es := BatchOf(env, f, room), Take(env.listing(f.id), room).entries;
    VisitAllSees(env.rules, Opened(s, rest, b), b.files);
    TakeComplete(env.listing(f.id), room);
    forall p | p in Handle(env.rules, s, rest, b).seen && p !in s.seen ensures IsFileOf(env, f, p) {
      var i :| i in b.files && i.path == p;
      FilesIn(env.rules.names, f, es, i);
      assert i.entry in All(env.listing(f.id));
    }
  }

  // ----------------------------------------------------------- the last place

  /** Both files are new or changed, can be stored and are admitted; the quota has room
      for one more file, and for the bytes of the first. */
  ghost predicate OnePlace(rules: Rules, usage: Usage, x: Item, y: Item) {
    && !Settled(rules, x) && !Settled(rules, y) && rules.storable(x.path) && rules.storable(y.path)
    && rules.admits(x.path, x.entry.byteSize) && rules.admits(y.path, y.entry.byteSize)
    && usage.files + 1 == rules.maxFiles && usage.bytes + x.entry.byteSize <= rules.maxBytes
    && rules.ending(x.path, x.entry).Stored?
  }

  /** What becomes of them: the first is charged and indexed, the second skipped. */
  ghost predicate FirstServed(rules: Rules, usage: Usage, end: State, x: Item, y: Item) {
    && !end.failed && end.usage == Usage(usage.files + 1, usage.bytes + x.entry.byteSize)
    && x.path in end.docs && y.path in end.docs
    && rules.ending(x.path, x.entry).Stored?
    && end.docs[x.path] == Doc(rules.ending(x.path, x.entry).length, x.entry.modifiedAt, Indexed)
    && end.docs[y.path] == Doc(y.entry.byteSize, y.entry.modifiedAt, Skipped)
  }

  lemma VisitsServeFirst(rules: Rules, s: State, x: Item, y: Item)
    requires OnePlace(rules, s.usage, x, y) && x.path != y.path && !s.failed
    ensures FirstServed(rules, s.usage, VisitAll(rules, s, [x, y]), x, y)
  {
    var s1 := Visit(rules, s, x);
    var s2 := Visit(rules, s1, y);
    VisitOutcome(rules, s, x);
    VisitOutcome(rules, s1, y);
    assert [x, y][1..] == [y] && [y][1..] == [];
    assert VisitAll(rules, s2, []) == s2 && VisitAll(rules, s1, [y]) == s2;
  }

  lemma PathsDiffer(a: string, b: string)
    requires Before(a, b)
    ensures a != b && Less(a, b) && !Less(b, a)
  {
    LessIsBefore(a, b);
    LessTotal(a, b);
  }

  lemma SortPair(x: Item, y: Item)
    requires Less(x.path, y.path) && !Less(y.path, x.path)
    ensures Sort(ByPath(), [x, y]) == [x, y] && Sort(ByPath(), [y, x]) == [x, y]
  {
    assert [x, y][..1] == [x] && [y, x][..1] == [y] && [x][..0] == [] && [y][..0] == [];
    assert Sort(ByPath(), [x]) == [x] && Sort(ByPath(), [y]) == [y];
    assert [x][1..] == [] && Insert(ByPath(), [], y) == [y];
  }

  /** Listed in either order, the last place of the quota goes to the file whose path comes
      first. */
  lemma LastPlaceToFirstPath(rules: Rules, s: State, x: Item, y: Item)
    requires OnePlace(rules, s.usage, x, y) && Before(x.path, y.path) && !s.failed
    ensures FirstServed(rules, s.usage, VisitAll(rules, s, Sort(ByPath(), [x, y])), x, y)
    ensures FirstServed(rules, s.usage, VisitAll(rules, s, Sort(ByPath(), [y, x])), x, y)
  {
    PathsDiffer(x.path, y.path);
    SortPair(x, y);
    VisitsServeFirst(rules, s, x, y);
  }

  /** A walk over one folder visits its files, in path order, and nothing else. */
  lemma WalkOneFolder(env: Env, usage: Usage, folder: Folder, es: seq<Entry>)
    requires folder == Folder(env.rules.root, "") && !env.rules.recursive && NoFailure(env.listing(folder.id))
    requires es == All(env.listing(folder.id)) && |es| <= env.rules.maxEntries
    ensures var end := Walk(env, Start(env, usage));
            && end.complete
            && SameBooks(end,
                 VisitAll(env.rules, Start(env, usage), Sort(ByPath(), Collect(FileOf(env.rules.names, folder), es))))
  {
    var s0 := Start(env, usage);
    TakeIsPrefix(env.listing(folder.id), env.rules.maxEntries);
    FirstFolder(env, usage, folder);
    BatchFrom(env, folder, env.rules.maxEntries, Taken(es, true, false));
    NoSubfolders(env.rules, folder, es);
    var b := BatchOf(env, folder, env.rules.maxEntries);
    OnlyFolder(env, s0, b);
    VisitAllSameBooks(env.rules, Opened(s0, [], b), s0, b.files);
  }

  lemma OnlyFolder(env: Env, s: State, b: Batch)
    requires s.folders != [] && s.entriesSeen <= env.rules.maxEntries && s.complete && !s.failed
    requires OneFolder(env, s) == Handle(env.rules, s, [], b) && b.subfolders == [] && b.complete && !b.failed
    ensures var end := Walk(env, s);
            end.complete && SameBooks(end, VisitAll(env.rules, Opened(s, [], b), b.files))
  {
    OneFolderDescends(env, s);
    HandleFrame(env.rules, s, [], b);
    var s1 := OneFolder(env, s);
    assert s1.folders == [];
    assert Walk(env, s1) == s1;
  }

  /** The same for a whole walk, whatever pages and order the provider lists the two files
      in: the first in path order is charged and indexed, the other skipped. */
  lemma WalkServesFirstPath(env: Env, usage: Usage, e: Entry, e': Entry, x: Item, y: Item)
    requires var folder := Folder(env.rules.root, "");
             && x == Item(e, PathOf(env.rules.names, folder, e)) && y == Item(e', PathOf(env.rules.names, folder, e'))
    requires !env.rules.recursive && !e.folder && !e'.folder && env.rules.maxEntries >= 2
    requires NoFailure(env.listing(env.rules.root))
    requires All(env.listing(env.rules.root)) == [e, e'] || All(env.listing(env.rules.root)) == [e', e]
    requires OnePlace(env.rules, usage, x, y) && Before(x.path, y.path)
    ensures FirstServed(env.rules, usage, Walk(env, Start(env, usage)), x, y) && Walk(env, Start(env, usage)).complete
  {
    var folder, es := Folder(env.rules.root, ""), All(env.listing(env.rules.root));
    WalkOneFolder(env, usage, folder, es);
    CollectPair(env.rules.names, folder, e, e');
    CollectPair(env.rules.names, folder, e', e);
    LastPlaceToFirstPath(env.rules, Start(env, usage), x, y);
  }

  lemma CollectPair(names: Names, folder: Folder, a: Entry, b: Entry)
    requires !a.folder && !b.folder
    ensures Collect(FileOf(names, folder), [a, b])
              == [Item(a, PathOf(names, folder, a)), Item(b, PathOf(names, folder, b))]
  {
    assert [a, b][1..] == [b] && [b][1..] == [];
    var file := FileOf(names, folder);
    assert Collect(file, [b]) == [Item(b, PathOf(names, folder, b))] + Collect(file, []);
  }
}

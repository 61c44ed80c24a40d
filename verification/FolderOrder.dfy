/** Paging and listing order are not part of the outcome. */
module FolderOrder {
  import opened Sorting
  import opened FolderWalk
  import opened FolderTheorems

  /** Within the grant the same folders hold the same entries, sliced into pages and
      ordered in whatever way the provider chose on each occasion. */
  ghost predicate SameTree(a: Env, b: Env) {
    b.rules == a.rules && forall f | Located(a, f) :: SameFolder(a.listing(f.id), b.listing(f.id))
  }

  ghost predicate SameFolder(a: seq<Reply>, b: seq<Reply>) {
    multiset(All(a)) == multiset(All(b)) && NoFailure(a) && NoFailure(b)
  }

  predicate NoFailure(replies: seq<Reply>) { forall r | r in replies :: r.Entries? }

  /** No two different files get one name, and of the folders descended into no two with
      different ids do. */
  ghost predicate NamesApart(rules: Rules, es: seq<Entry>) {
    forall e, e' | e in es && e' in es ::
      && (!e.folder && !e'.folder && rules.names.file(e) == rules.names.file(e') ==> e == e')
      && (rules.recursive && e.folder && e'.folder && rules.names.folder(e) == rules.names.folder(e') ==>
            e.sourceId == e'.sourceId)
  }

  /** Names are apart within every folder of the grant. */
  ghost predicate TreeApart(a: Env) { forall f | Located(a, f) :: NamesApart(a.rules, All(a.listing(f.id))) }

  lemma {:induction false} TakeAll(replies: seq<Reply>, room: nat)
    requires NoFailure(replies)
    ensures var t := Take(replies, room);
            !t.failed && (t.complete <==> |All(replies)| <= room) && (t.complete ==> t.entries == All(replies))
    decreases replies
  {
    if replies != [] {
      assert replies[0].Entries?;
      if |replies[0].entries| <= room { TakeAll(replies[1..], room - |replies[0].entries|); }
    }
  }

  lemma TakeOut<T>(ys: seq<T>, i: nat)
    requires i < |ys|
    ensures multiset(ys) == multiset(ys[..i] + ys[i + 1..]) + multiset{ys[i]}
  {
    assert ys == ys[..i] + ([ys[i]] + ys[i + 1..]);
  }

  lemma MiddleOut<U>(a: seq<U>, b: seq<U>, c: seq<U>)
    ensures multiset(a + (b + c)) == multiset(a + c) + multiset(b)
  {
  }

  lemma CollectTakeOut<T, U>(f: T -> seq<U>, ys: seq<T>, i: nat)
    requires i < |ys|
    ensures multiset(Collect(f, ys)) == multiset(Collect(f, ys[..i] + ys[i + 1..])) + multiset(f(ys[i]))
  {
    var tail := [ys[i]] + ys[i + 1..];
    assert ys == ys[..i] + tail && tail[1..] == ys[i + 1..];
    CollectAppend(f, ys[..i], ys[i + 1..]);
    CollectAppend(f, ys[..i], tail);
    MiddleOut(Collect(f, ys[..i]), f(ys[i]), Collect(f, ys[i + 1..]));
  }

  lemma {:induction false} CollectPermutes<T, U>(f: T -> seq<U>, xs: seq<T>, ys: seq<T>)
    requires multiset(xs) == multiset(ys)
    ensures multiset(Collect(f, xs)) == multiset(Collect(f, ys))
    decreases xs
  {
    SameSize(xs, ys);
    if xs != [] {
      assert xs[0] in ys;
      var i :| 0 <= i < |ys| && ys[i] == xs[0];
      DropFirst(xs);
      TakeOut(ys, i);
      CollectTakeOut(f, ys, i);
      CollectPermutes(f, xs[1..], ys[..i] + ys[i + 1..]);
    }
  }

  /** Where names are apart, so are the paths sorted by. */
  lemma PathsApart(rules: Rules, folder: Folder, es: seq<Entry>)
    requires NamesApart(rules, es)
    ensures Unambiguous(ByPath(), Collect(FileOf(rules.names, folder), es))
  {
    var files := FileOf(rules.names, folder);
    forall x: Item, y: Item | x in Collect(files, es) && y in Collect(files, es) && x.path == y.path ensures x == y {
      CollectIn(files, es, x);
      CollectIn(files, es, y);
      SamePathSameName(folder.prefix, rules.names.file(x.entry), rules.names.file(y.entry));
    }
  }

  /** Two folders waiting under one prefix are one. */
  lemma OnePrefixOneFolder(rules: Rules, folder: Folder, es: seq<Entry>, e: Entry, e': Entry)
    requires NamesApart(rules, es) && e in es && e' in es && e.folder && e'.folder && rules.recursive
    requires ChildFolder(rules.names, folder, e).prefix == ChildFolder(rules.names, folder, e').prefix
    ensures ChildFolder(rules.names, folder, e) == ChildFolder(rules.names, folder, e')
  {
    SamePrefixSameName(folder.prefix, rules.names.folder(e), rules.names.folder(e'));
  }

  lemma PrefixesApart(rules: Rules, folder: Folder, es: seq<Entry>)
    requires NamesApart(rules, es)
    ensures Unambiguous(ByPrefix(), Collect(FolderOf(rules, folder), es))
  {
    var folders := FolderOf(rules, folder);
    forall x: Folder, y: Folder | x in Collect(folders, es) && y in Collect(folders, es) && x.prefix == y.prefix
      ensures x == y
    {
      CollectIn(folders, es, x);
      CollectIn(folders, es, y);
      var e :| e in es && x in folders(e);
      var e' :| e' in es && y in folders(e');
      OnePrefixOneFolder(rules, folder, es, e, e');
    }
  }

  lemma SamePathSameName(prefix: string, a: string, b: string)
    requires prefix + a == prefix + b
    ensures a == b
  {
    assert (prefix + a)[|prefix|..] == a && (prefix + b)[|prefix|..] == b;
  }

  lemma SamePrefixSameName(prefix: string, a: string, b: string)
    requires prefix + a + "/" == prefix + b + "/"
    ensures a == b
  {
    assert (prefix + a + "/")[|prefix|..] == a + "/" && (prefix + b + "/")[|prefix|..] == b + "/";
    assert (a + "/")[..|a|] == a && (b + "/")[..|b|] == b;
  }

  /** One folder's batch is the same in whatever order it was listed. */
  lemma BatchSame(rules: Rules, folder: Folder, replies: seq<Reply>, es: seq<Entry>)
    requires NamesApart(rules, All(replies)) && multiset(All(replies)) == multiset(es)
    ensures Files(rules.names, folder, es) == Files(rules.names, folder, All(replies))
    ensures Subfolders(rules, folder, es) == Subfolders(rules, folder, All(replies))
  {
    PathsApart(rules, folder, All(replies));
    PrefixesApart(rules, folder, All(replies));
    CollectPermutes(FileOf(rules.names, folder), All(replies), es);
    CollectPermutes(FolderOf(rules, folder), All(replies), es);
    SortDetermined(ByPath(), Collect(FileOf(rules.names, folder), All(replies)),
        Collect(FileOf(rules.names, folder), es));
    SortDetermined(ByPrefix(), Collect(FolderOf(rules, folder), All(replies)), Collect(FolderOf(rules, folder), es));
  }

  lemma TakenSame(a: seq<Reply>, b: seq<Reply>, room: nat)
    requires SameFolder(a, b) && Take(a, room).complete
    ensures Take(a, room) == Taken(All(a), true, false) && Take(b, room) == Taken(All(b), true, false)
    ensures |All(a)| == |All(b)|
  {
    TakeAll(a, room);
    SameSize(All(a), All(b));
    TakeAll(b, room);
  }

  /** A folder listed to its end comes to the same batch, whatever its order. */
  lemma FolderSame(a: Env, b: Env, folder: Folder, room: nat)
    requires b.rules == a.rules && SameFolder(a.listing(folder.id), b.listing(folder.id))
    requires NamesApart(a.rules, All(a.listing(folder.id))) && BatchOf(a, folder, room).complete
    ensures BatchOf(b, folder, room) == BatchOf(a, folder, room)
  {
    TakenSame(a.listing(folder.id), b.listing(folder.id), room);
    BatchSame(a.rules, folder, a.listing(folder.id), All(b.listing(folder.id)));
  }

  lemma NextBatchIs(env: Env, s: State, folder: Folder, room: nat)
    requires s.folders != [] && s.entriesSeen <= env.rules.maxEntries
    requires folder == Queue(s)[0] && room == env.rules.maxEntries - s.entriesSeen
    ensures NextBatch(env, s) == BatchOf(env, folder, room)
  {
  }

  lemma SameBatchSameStep(a: Env, b: Env, s: State)
    requires b.rules == a.rules && s.folders != [] && s.entriesSeen <= a.rules.maxEntries
             && NextBatch(b, s) == NextBatch(a, s)
    ensures OneFolder(b, s) == OneFolder(a, s)
  {
  }

  lemma OneFolderComplete(env: Env, s: State)
    requires s.folders != [] && s.entriesSeen <= env.rules.maxEntries
    ensures OneFolder(env, s).complete == NextBatch(env, s).complete
  {
    HandleFrame(env.rules, s, Queue(s)[1..], NextBatch(env, s));
  }

  lemma OneFolderSame(a: Env, b: Env, s: State, folder: Folder, room: nat)
    requires SameTree(a, b) && TreeApart(a) && InGrant(a, s)
    requires s.folders != [] && s.entriesSeen <= a.rules.maxEntries && OneFolder(a, s).complete
    requires folder == Queue(s)[0] && room == a.rules.maxEntries - s.entriesSeen
    ensures OneFolder(b, s) == OneFolder(a, s)
  {
    QueueIn(s, folder);
    assert Located(a, folder);
    OneFolderComplete(a, s);
    NextBatchIs(a, s, folder, room);
    NextBatchIs(b, s, folder, room);
    FolderSame(a, b, folder, room);
    SameBatchSameStep(a, b, s);
  }

  lemma {:induction false} WalkSame(a: Env, b: Env, s: State)
    requires SameTree(a, b) && TreeApart(a) && InGrant(a, s)
    requires s.entriesSeen <= a.rules.maxEntries && Walk(a, s).complete
    ensures Walk(b, s) == Walk(a, s)
    decreases a.rules.maxEntries - s.entriesSeen, |s.folders|
  {
    if s.folders != [] && s.complete && !s.failed {
      var room := a.rules.maxEntries - s.entriesSeen;
      OneFolderDescends(a, s);
      OneFolderInGrant(a, s, Queue(s)[0], Queue(s)[1..], room);
      OneFolderSame(a, b, s, Queue(s)[0], room);
      WalkSame(a, b, OneFolder(a, s));
    }
  }

  /** Order independence. Whatever pages a provider slices the folders of the grant into
      and in whatever order, a walk that is not cut short takes the same decision on
      every file and leaves the same usage, counts and index. */
  lemma OrderIndependence(a: Env, b: Env, usage: Usage)
    requires SameTree(a, b) && TreeApart(a) && Walk(a, Start(a, usage)).complete
    ensures Walk(b, Start(b, usage)) == Walk(a, Start(a, usage))
    ensures Synced(a, usage) == Synced(b, usage)
  {
    StartInGrant(a, usage);
    WalkSame(a, b, Start(a, usage));
  }

  /** The premise on names is needed, although the quota decisions are meant to be
      a function of the file set alone: of two files stored under one path, with
      room for one more, the one listed first is charged to the quota and the one
      listed last is what the index row describes. */
  lemma SharedPathDependsOnOrder(rules: Rules, s: State, x: Item, y: Item)
    requires x.path == y.path && x.entry.byteSize != y.entry.byteSize && OneMoreFits(rules, s, x, y)
             && OneMoreFits(rules, s, y, x)
    ensures Sort(ByPath(), [x, y]) == [x, y] && Sort(ByPath(), [y, x]) == [y, x]
    ensures VisitAll(rules, s, [x, y]).usage != VisitAll(rules, s, [y, x]).usage
    ensures VisitAll(rules, s, [x, y]).docs != VisitAll(rules, s, [y, x]).docs
  {
    SortTwo(x, y);
    SortTwo(y, x);
    VisitTwo(rules, s, x, y);
    VisitTwo(rules, s, y, x);
  }

  /** Both files pass the gates by themselves, neither is settled, and the quota
      has room for one more file. */
  predicate OneMoreFits(rules: Rules, s: State, x: Item, y: Item) {
    && !s.failed && s.usage.files + 1 == rules.maxFiles && s.usage.bytes + x.entry.byteSize <= rules.maxBytes
    && rules.admits(x.path, x.entry.byteSize) && !Settled(rules, x) && !Settled(rules, y)
    && rules.storable(x.path) && !FailsRun(rules.ending(x.path, x.entry))
  }

  lemma VisitTwo(rules: Rules, s: State, x: Item, y: Item)
    requires x.path == y.path && OneMoreFits(rules, s, x, y)
    ensures var s' := VisitAll(rules, s, [x, y]);
            s'.usage == Charge(s.usage, x) && y.path in s'.docs
                && s'.docs[y.path] == Doc(y.entry.byteSize, y.entry.modifiedAt, Skipped)
  {
    var s1 := Visit(rules, s, x);
    var s2 := Visit(rules, s1, y);
    assert !s1.failed && s1.usage == Charge(s.usage, x);
    assert s2.usage == s1.usage;
    assert [x, y][1..] == [y] && [y][1..] == [];
    assert VisitAll(rules, s2, []) == s2;
    assert VisitAll(rules, s1, [y]) == s2;
  }

  lemma SortTwo(x: Item, y: Item)
    requires x.path == y.path
    ensures Sort(ByPath(), [x, y]) == [x, y]
  {
    LessTotal(x.path, x.path);
    assert [x, y][..1] == [x] && [x][..0] == [];
    assert Sort(ByPath(), [x]) == [x];
    assert Insert(ByPath(), [x], y) == [x] + Insert(ByPath(), [x][1..], y);
  }
}

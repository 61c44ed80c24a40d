/** One sync run of a mapped folder, over its mutable index, usage and counts. */
module FolderSync {
  import RemoteNames
  import opened Sorting
  import opened FolderWalk
  import opened FolderTheorems

  /** The naming in use: effectiveName for files, sanitizeRemoteName for folders. */
  function NamesInUse(): Names {
    Names((e: Entry) => RemoteNames.EffectiveName(e.name, e.exportExtension),
        (e: Entry) => RemoteNames.Sanitize(e.name))
  }

  /** What has been taken so far, and what the rest of the pages add. */
  function Joined(es: seq<Entry>, t: Taken): Taken { Taken(es + t.entries, t.complete, t.failed) }

  lemma JoinedTake(es: seq<Entry>, replies: seq<Reply>, p: nat, room: nat)
    requires p < |replies|
    ensures Joined(es, Take(replies[p..], room)) ==
            match replies[p]
            case ListFails => Taken(es, true, true)
            case Entries(page) =>
              if |page| > room then Taken(es + page[..room], false, false)
              else Joined(es + page, Take(replies[p + 1..], room - |page|))
  {
  }

  lemma CollectNext<T, U>(f: T -> seq<U>, xs: seq<T>, i: nat)
    requires i < |xs|
    ensures Collect(f, xs[..i + 1]) == Collect(f, xs[..i]) + f(xs[i])
  {
    assert xs[..i + 1] == xs[..i] + [xs[i]] && [xs[i]][1..] == [];
    CollectAppend(f, xs[..i], [xs[i]]);
    assert f(xs[i]) + [] == f(xs[i]);
  }

  /** What the pages come to, given what was taken from the first `p`. */
  ghost function Remaining(
      es: seq<Entry>, complete: bool, failed: bool, replies: seq<Reply>, p: nat, room: nat): Taken
    requires p <= |replies| && |es| <= room
  {
    if complete && !failed then Joined(es, Take(replies[p..], room - |es|)) else Taken(es, complete, failed)
  }

  /** One more page, up to the room that is left. */
  lemma RemainingStep(es: seq<Entry>, replies: seq<Reply>, p: nat, room: nat)
    requires p < |replies| && |es| <= room
    ensures replies[p].ListFails? ==>
              Remaining(es, true, true, replies, p, room) == Remaining(es, true, false, replies, p, room)
    ensures replies[p].Entries? ==>
              var page := replies[p].entries;
              var n := if |page| <= room - |es| then |page| else room - |es|;
              Remaining(es + page[..n], n == |page|, false, replies, p + 1, room)
              == Remaining(es, true, false, replies, p, room)
  {
    JoinedTake(es, replies, p, room - |es|);
    if replies[p].Entries? && |replies[p].entries| <= room - |es| {
      assert replies[p].entries[..|replies[p].entries|] == replies[p].entries;
    }
  }

  lemma QueueIs(s: State)
    ensures Queue(s) == Sort(ByPrefix(), s.folders) && |Sort(ByPrefix(), s.folders)| == |s.folders|
  {
  }

  class MappingSync {
    var docs: map<string, Doc>
    var usage: Usage
    var counts: Counts

    constructor (docs: map<string, Doc>, usage: Usage)
      ensures this.docs == docs && this.usage == usage && counts == Counts(0, 0, 0, 0)
    {
      this.docs, this.usage, counts := docs, usage, Counts(0, 0, 0, 0);
    }

    /** One page of a folder, entry by entry, until the room is used up. */
    method ListPage(
        rules: Rules, folder: Folder, page: seq<Entry>, room: nat)
        returns (files: seq<Item>, subfolders: seq<Folder>, size: nat)
      ensures size == if |page| <= room then |page| else room
      ensures files == Collect(FileOf(rules.names, folder), page[..size])
      ensures subfolders == Collect(FolderOf(rules, folder), page[..size])
    {
      files, subfolders, size := [], [], 0;
      while size < |page| && size < room
        invariant size <= |page| && size <= room
        invariant files == Collect(FileOf(rules.names, folder), page[..size])
        invariant subfolders == Collect(FolderOf(rules, folder), page[..size])
      {
        var e := page[size];
        CollectNext(FileOf(rules.names, folder), page, size);
        CollectNext(FolderOf(rules, folder), page, size);
        if e.folder {
          if rules.recursive { subfolders := subfolders + [ChildFolder(rules.names, folder, e)]; }
        } else {
          files := files + [Item(e, PathOf(rules.names, folder, e))];
        }
        size := size + 1;
      }
    }

    /** One page more, after the entries `es`. */
    method AddPage(
        rules: Rules, folder: Folder, page: seq<Entry>, room: nat, ghost es: seq<Entry>, files: seq<Item>,
        subfolders: seq<Folder>)
        returns (files': seq<Item>, subfolders': seq<Folder>, size: nat)
      requires files == Collect(FileOf(rules.names, folder), es) && subfolders == Collect(FolderOf(rules, folder), es)
      ensures size == if |page| <= room then |page| else room
      ensures files' == Collect(FileOf(rules.names, folder), es + page[..size])
      ensures subfolders' == Collect(FolderOf(rules, folder), es + page[..size])
    {
      files', subfolders', size := ListPage(rules, folder, page, room);
      CollectAppend(FileOf(rules.names, folder), es, page[..size]);
      CollectAppend(FolderOf(rules, folder), es, page[..size]);
      files', subfolders' := files + files', subfolders + subfolders';
    }

    /** All pages of one folder, and its files and subfolders in order. */
    method ListFolder(rules: Rules, listing: string -> seq<Reply>, folder: Folder, room: nat) returns (b: Batch)
      ensures b == BatchOf(Env(rules, listing), folder, room)
    {
      var files, subfolders, size, complete, failed := ListPages(rules, listing(folder.id), folder, room);
      b := Batch(Sort(ByPath(), files), Sort(ByPrefix(), subfolders), size, complete, failed);
      BatchFrom(Env(rules, listing), folder, room, Take(listing(folder.id), room));
    }

    method ListPages(rules: Rules, replies: seq<Reply>, folder: Folder, room: nat)
      returns (files: seq<Item>, subfolders: seq<Folder>, size: nat, complete: bool, failed: bool)
      ensures var t := Take(replies, room); size == |t.entries| && complete == t.complete && failed == t.failed
      ensures files == Collect(FileOf(rules.names, folder), Take(replies, room).entries)
      ensures subfolders == Collect(FolderOf(rules, folder), Take(replies, room).entries)
    {
      var p := 0;
      ghost var es: seq<Entry> := [];
      files, subfolders, size, complete, failed := [], [], 0, true, false;
      assert replies[0..] == replies;
      while p < |replies| && complete && !failed
        invariant p <= |replies| && size == |es| <= room
        invariant files == Collect(FileOf(rules.names, folder), es)
        invariant subfolders == Collect(FolderOf(rules, folder), es)
        invariant Remaining(es, complete, failed, replies, p, room) == Take(replies, room)
        decreases |replies| - p, complete, !failed
      {
        RemainingStep(es, replies, p, room);
        if replies[p].ListFails? {
          failed := true;
        } else {
          var page := replies[p].entries;
          var n;
          files, subfolders, n := AddPage(rules, folder, page, room - size, es, files, subfolders);
          size, es := size + n, es + page[..n];
          complete := n == |page|;
          p := p + 1;
        }
      }
      assert es + [] == es;
    }

    /** The run so far, as the walk's functions see it. */
    ghost function S(folders: seq<Folder>, seen: set<string>, entriesSeen: nat, complete: bool, failed: bool): State
      reads this
    {
      State(folders, seen, docs, usage, counts, entriesSeen, complete, failed)
    }

    /** ingestOne; true when the failure is the whole run's. */
    method IngestFile(
        rules: Rules, item: Item, ghost folders: seq<Folder>, ghost seen: set<string>, ghost entriesSeen: nat,
        ghost complete: bool)
      returns (failed: bool)
      modifies this
      ensures S(folders, seen, entriesSeen, complete, failed)
                == IngestOne(rules, old(S(folders, seen, entriesSeen, complete, false)), item)
    {
      failed := false;
      if !rules.storable(item.path) { return true; }
      var before := Upserted(docs, item);
      var row := Doc(item.entry.byteSize, item.entry.modifiedAt, Discovered);
      if !(usage.files < rules.maxFiles && usage.bytes + item.entry.byteSize <= rules.maxBytes
          && rules.admits(item.path, item.entry.byteSize)) {
        docs := docs[item.path := row.(state := Skipped)];
        counts := counts.(skipped := counts.skipped + 1);
        return;
      }
      usage := Usage(usage.files + 1, usage.bytes + item.entry.byteSize);
      match rules.ending(item.path, item.entry) {
        case NoScanner =>
          docs := docs[item.path := before.(state := Skipped)];
          failed := true;
        case ScanThrows =>
          docs := docs[item.path := before];
          failed := true;
        case Throws =>
          docs := docs[item.path := row];
          failed := true;
        case Infected =>
          docs := docs[item.path := row.(state := Blocked)];
          counts := counts.(skipped := counts.skipped + 1);
        case PassedOver =>
          docs := docs[item.path := row.(state := Skipped)];
          counts := counts.(skipped := counts.skipped + 1);
        case Stored(length) =>
          docs := docs[item.path := row.(byteSize := length, state := Indexed)];
          counts := counts.(indexed := counts.indexed + 1);
      }
    }

    /** One file of the sorted batch: unchanged since a settled run, or ingested. */
    method VisitFile(
        rules: Rules, item: Item, seen: set<string>, ghost folders: seq<Folder>, ghost entriesSeen: nat,
        ghost complete: bool)
      returns (seen': set<string>, failed: bool)
      modifies this
      ensures S(folders, seen', entriesSeen, complete, failed)
                == Visit(rules, old(S(folders, seen, entriesSeen, complete, false)), item)
    {
      seen', failed := seen + {item.path}, false;
      counts := counts.(seen := counts.seen + 1);
      if && item.path in rules.existing && item.entry.modifiedAt.Some?
          && rules.existing[item.path].modifiedAt == item.entry.modifiedAt
         && rules.existing[item.path].byteSize == item.entry.byteSize
            && rules.existing[item.path].state in {Indexed, Skipped, Blocked} {
        counts := counts.(kept := counts.kept + 1);
      } else {
        failed := IngestFile(rules, item, folders, seen', entriesSeen, complete);
      }
    }

    method VisitFiles(
        rules: Rules, items: seq<Item>, seen: set<string>, ghost folders: seq<Folder>, ghost entriesSeen: nat,
        ghost complete: bool)
      returns (seen': set<string>, failed: bool)
      modifies this
      ensures S(folders, seen', entriesSeen, complete, failed)
                == VisitAll(rules, old(S(folders, seen, entriesSeen, complete, false)), items)
    {
      seen', failed := seen, false;
      var i := 0;
      assert items[0..] == items;
      while i < |items| && !failed
        invariant i <= |items|
        invariant VisitAll(rules, S(folders, seen', entriesSeen, complete, failed), items[i..])
               == VisitAll(rules, old(S(folders, seen, entriesSeen, complete, false)), items)
      {
        assert items[i..][1..] == items[i + 1..];
        seen', failed := VisitFile(rules, items[i], seen', folders, entriesSeen, complete);
        i := i + 1;
      }
    }

    /** One pass of the work list. */
    method WalkFolder(
        rules: Rules, listing: string -> seq<Reply>, folders: seq<Folder>, seen: set<string>, entriesSeen: nat)
      returns (folders': seq<Folder>, seen': set<string>, entriesSeen': nat, complete: bool, failed: bool)
      requires folders != [] && entriesSeen <= rules.maxEntries
      modifies this
      ensures S(folders', seen', entriesSeen', complete, failed)
           == OneFolder(Env(rules, listing), old(S(folders, seen, entriesSeen, true, false)))
    {
      ghost var s := S(folders, seen, entriesSeen, true, false);
      var queue := Sort(ByPrefix(), folders);
      QueueIs(s);
      var b := ListFolder(rules, listing, queue[0], rules.maxEntries - entriesSeen);
      OneFolderIs(Env(rules, listing), s, queue[0], queue[1..], rules.maxEntries - entriesSeen);
      folders', seen', entriesSeen', complete, failed := HandleBatch(rules, queue[1..], seen, entriesSeen, b, folders);
    }

    method HandleBatch(
        rules: Rules, rest: seq<Folder>, seen: set<string>, entriesSeen: nat, b: Batch, ghost folders: seq<Folder>)
      returns (folders': seq<Folder>, seen': set<string>, entriesSeen': nat, complete: bool, failed: bool)
      modifies this
      ensures S(folders', seen', entriesSeen', complete, failed)
                == Handle(rules, old(S(folders, seen, entriesSeen, true, false)), rest, b)
    {
      folders', seen', entriesSeen', complete, failed := rest, seen, entriesSeen + b.size, b.complete, b.failed;
      if !failed {
        seen', failed := VisitFiles(rules, b.files, seen, rest, entriesSeen', complete);
        if !failed { folders' := rest + b.subfolders; }
      }
    }

    /** walkAndIngest. The index as it stands is read once, before anything is decided. */
    method WalkAndIngest(
        rules: Rules, listing: string -> seq<Reply>) returns (complete: bool, seen: set<string>, failed: bool)
      requires counts == Counts(0, 0, 0, 0)
      modifies this
      ensures var env := Env(rules.(existing := old(docs)), listing);
              var end := Walk(env, Start(env, old(usage)));
              docs == end.docs && usage == end.usage && counts == end.counts && complete == end.complete
                  && seen == end.seen && failed == end.failed
    {
      var rules' := rules.(existing := docs);
      ghost var env := Env(rules', listing);
      var folders, entriesSeen := [Folder(rules.root, "")], 0;
      complete, seen, failed := true, {}, false;
      ghost var end := Walk(env, Start(env, usage));
      while folders != [] && complete && !failed
        invariant entriesSeen <= rules.maxEntries
        invariant Walk(env, S(folders, seen, entriesSeen, complete, failed)) == end
        decreases rules.maxEntries - entriesSeen, |folders|
      {
        OneFolderDescends(env, S(folders, seen, entriesSeen, true, false));
        folders, seen, entriesSeen, complete, failed := WalkFolder(rules', listing, folders, seen, entriesSeen);
      }
    }

    /** removeUnseen: rows of the mapping at paths a complete walk did not see. */
    method RemoveUnseen(seen: set<string>) returns (removed: nat)
      modifies this`docs
      ensures docs == map p | p in old(docs) && p in seen :: old(docs)[p]
      ensures removed == |old(docs).Keys - seen|
    {
      removed := |docs.Keys - seen|;
      docs := map p | p in docs && p in seen :: docs[p];
    }

    /** syncCloudMapping after its checks. Removal happens only after a complete
        walk, and then the index is exactly the mapped tree. */
    method SyncMapping(rules: Rules, listing: string -> seq<Reply>) returns (synced: bool)
      requires counts == Counts(0, 0, 0, 0)
      modifies this
      ensures var env := Env(rules.(existing := old(docs)), listing);
              && docs == Synced(env, old(usage))
              && synced == !Walk(env, Start(env, old(usage))).failed
              && (Walk(env, Start(env, old(usage))).complete && synced ==> forall p :: p in docs <==> InTree(env, p))
              && (!(Walk(env, Start(env, old(usage))).complete && synced) ==> old(docs).Keys <= docs.Keys)
    {
      ghost var env := Env(rules.(existing := docs), listing);
      RemovalIsSafe(env, usage);
      var complete, seen, failed := WalkAndIngest(rules, listing);
      synced := !failed;
      if complete && !failed {
        var _ := RemoveUnseen(seen);
      }
    }
  }

  /** The constraint of the index on paths. */
  predicate Storable(path: string) { !RemoteNames.HasDotDot(path) && (path == "" || path[0] != '/') }

  lemma DotDotInside(prefix: string, file: string)
    requires RemoteNames.HasDotDot(file)
    ensures RemoteNames.HasDotDot(prefix + file)
  {
    var i :| 0 <= i < |file| - 1 && file[i] == '.' && file[i + 1] == '.';
    assert (prefix + file)[|prefix| + i] == '.' && (prefix + file)[|prefix| + i + 1] == '.';
  }

  /** Under the naming in use a path of the tree splits back into the names of its
      folders and its file, and the index can store it: except exactly when the
      file's export extension follows a trailing dot, and then the run fails. */
  lemma {:induction false} TreePathsStorableIff(env: Env, trail: seq<Entry>, e: Entry)
    requires env.rules.names == NamesInUse() && Trail(env, trail)
    requires e.exportExtension.Some? ==> RemoteNames.PlainExtension(e.exportExtension.value)
    ensures var names := TrailNames(trail);
            var path := PathOf(env.rules.names, Reached(env, trail), e);
            && Reached(env, trail).prefix == RemoteNames.Prefix(names)
            && RemoteNames.Split(path) == names + [RemoteNames.EffectiveName(e.name, e.exportExtension)]
            && (Storable(path) <==>
               (e.exportExtension.Some? ==> !RemoteNames.EndsWith(RemoteNames.Sanitize(e.name), ".")))
  {
    PrefixIsNames(env, trail);
    TrailNamesSafe(trail);
    RemoteNames.EffectiveNameSafeIff(e.name, e.exportExtension);
    var file := RemoteNames.EffectiveName(e.name, e.exportExtension);
    forall m | m in TrailNames(trail) ensures '/' !in m {
      assert RemoteNames.Safe(m) && RemoteNames.Forbidden('/');
    }
    assert RemoteNames.Forbidden('/');
    RemoteNames.PathSplitsBack(TrailNames(trail), file);
    if RemoteNames.Safe(file) {
      RemoteNames.PathSafe(TrailNames(trail), file);
    } else {
      DotDotInside(Reached(env, trail).prefix, file);
    }
  }

  function TrailNames(trail: seq<Entry>): seq<string> {
    if trail == [] then [] else TrailNames(trail[..|trail| - 1]) + [RemoteNames.Sanitize(trail[|trail| - 1].name)]
  }

  lemma {:induction false} TrailNamesSafe(trail: seq<Entry>)
    ensures forall m | m in TrailNames(trail) :: RemoteNames.Safe(m)
  {
    if trail != [] {
      TrailNamesSafe(trail[..|trail| - 1]);
      RemoteNames.SanitizeSafeAndIdempotent(trail[|trail| - 1].name);
    }
  }

  lemma {:induction false} PrefixIsNames(env: Env, trail: seq<Entry>)
    requires env.rules.names == NamesInUse()
    ensures Reached(env, trail).prefix == RemoteNames.Prefix(TrailNames(trail))
  {
    if trail != [] {
      PrefixIsNames(env, trail[..|trail| - 1]);
      assert TrailNames(trail)[..|TrailNames(trail)| - 1] == TrailNames(trail[..|trail| - 1]);
    }
  }
}

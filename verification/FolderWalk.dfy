/** Walking one mapped cloud folder into the document index. */
module FolderWalk {
  import opened Options
  import opened Sorting

  /** A file or folder as a provider lists it. */
  datatype Entry = Entry(
    sourceId: string, name: string, folder: bool, byteSize: nat, modifiedAt: Option<int>,
        exportExtension: Option<string>)

  /** One page of a listing, or the failure the request ends in. */
  datatype Reply = Entries(entries: seq<Entry>) | ListFails

  datatype DocState = Discovered | Extracted | Indexed | Skipped | Blocked | FailedState

  /** One row of documents, keyed by relative path. */
  datatype Doc = Doc(byteSize: nat, modifiedAt: Option<int>, state: DocState)

  datatype Usage = Usage(files: nat, bytes: nat)

  /** What becomes of a file the gates accepted: scanning, download, decryption
      check and extraction. The last three fail the whole run: no scanner, a scan that
      throws, and anything that throws later. */
  datatype Ending = Stored(length: nat) | PassedOver | Infected | NoScanner | ScanThrows | Throws

  predicate FailsRun(e: Ending) { e.NoScanner? || e.ScanThrows? || e.Throws? }

  /** The path segment an entry is given, as a file and as a folder. The walk's
      theorems hold for every naming; RemoteNames has the one in use. */
  datatype Names = Names(file: Entry -> string, folder: Entry -> string)

  /** Everything a run reads but does not change. `admits` is the part of the
      gates that looks at the file alone, `existing` the index as it was, `storable`
      the constraint the index puts on paths. */
  datatype Rules = Rules(
    names: Names, root: string, recursive: bool, maxEntries: nat, maxFiles: nat, maxBytes: nat,
    existing: map<string, Doc>,
    storable: string -> bool, admits: (string, nat) -> bool, ending: (string, Entry) -> Ending)

  /** The rules of a run and the provider's listing of each folder, page by page. */
  datatype Env = Env(rules: Rules, listing: string -> seq<Reply>)

  datatype Folder = Folder(id: string, prefix: string)

  datatype Item = Item(entry: Entry, path: string)

  datatype Counts = Counts(indexed: nat, skipped: nat, kept: nat, seen: nat)

  datatype State = State(
    folders: seq<Folder>, seen: set<string>, docs: map<string, Doc>, usage: Usage, counts: Counts,
    entriesSeen: nat, complete: bool, failed: bool)

  // ---------------------------------------------------------- one folder

  datatype Taken = Taken(entries: seq<Entry>, complete: bool, failed: bool)

  /** The pages of one folder, up to the room left in the entry bound. */
  function Take(replies: seq<Reply>, room: nat): (t: Taken)
    ensures |t.entries| <= room
    decreases replies
  {
    if replies == [] then Taken([], true, false)
    else match replies[0]
      case ListFails => Taken([], true, true)
      case Entries(es) =>
        if |es| > room then Taken(es[..room], false, false)
        else
          var rest := Take(replies[1..], room - |es|);
          Taken(es + rest.entries, rest.complete, rest.failed)
  }

  /** Concatenates what `f` makes of each element. */
  function Collect<T, U>(f: T -> seq<U>, xs: seq<T>): seq<U>
    decreases xs
  {
    if xs == [] then [] else f(xs[0]) + Collect(f, xs[1..])
  }

  lemma {:induction false} CollectAppend<T, U>(f: T -> seq<U>, xs: seq<T>, ys: seq<T>)
    ensures Collect(f, xs + ys) == Collect(f, xs) + Collect(f, ys)
    decreases xs
  {
    if xs == [] {
      assert xs + ys == ys;
    } else {
      CollectAppend(f, xs[1..], ys);
      assert (xs + ys)[1..] == xs[1..] + ys;
    }
  }

  function PathOf(names: Names, f: Folder, e: Entry): string { f.prefix + names.file(e) }

  function ChildFolder(names: Names, f: Folder, e: Entry): Folder
  {
    Folder(e.sourceId, f.prefix + names.folder(e) + "/")
  }

  function FileOf(names: Names, f: Folder): Entry -> seq<Item> {
    (e: Entry) => if e.folder then [] else [Item(e, PathOf(names, f, e))]
  }

  function FolderOf(rules: Rules, f: Folder): Entry -> seq<Folder> {
    (e: Entry) => if e.folder && rules.recursive then [ChildFolder(rules.names, f, e)] else []
  }

  function ByPath(): Item -> string { (i: Item) => i.path }

  function ByPrefix(): Folder -> string { (f: Folder) => f.prefix }

  // ------------------------------------------------------------- one file

  /** The index has settled this file, as it is now. */
  predicate SettledIn(docs: map<string, Doc>, item: Item) {
    && item.path in docs
    && var before := docs[item.path];
       && item.entry.modifiedAt.Some? && before.modifiedAt == item.entry.modifiedAt
       && before.byteSize == item.entry.byteSize
       && before.state in {Indexed, Skipped, Blocked}
  }

  /** Unchanged since a run that settled it. */
  predicate Settled(rules: Rules, item: Item) { SettledIn(rules.existing, item) }

  /** The gates: the quota against the running snapshot, then the file itself. */
  predicate Accepts(rules: Rules, usage: Usage, item: Item) {
    usage.files < rules.maxFiles && usage.bytes + item.entry.byteSize <= rules.maxBytes
        && rules.admits(item.path, item.entry.byteSize)
  }

  function Charge(usage: Usage, item: Item): Usage { Usage(usage.files + 1, usage.bytes + item.entry.byteSize) }

  /** The row that taking a file in starts from. */
  function Upserted(docs: map<string, Doc>, item: Item): Doc {
    if item.path in docs then docs[item.path].(byteSize := item.entry.byteSize)
        else Doc(item.entry.byteSize, None, Discovered)
  }

  /** ingestOne. */
  function IngestOne(rules: Rules, s: State, item: Item): State {
    var row := Doc(item.entry.byteSize, item.entry.modifiedAt, Discovered);
    var skipped := s.counts.(skipped := s.counts.skipped + 1);
    if !rules.storable(item.path) then s.(failed := true)
    else if !Accepts(rules, s.usage, item) then
      s.(docs := s.docs[item.path := row.(state := Skipped)], counts := skipped)
    else
      var s1 := s.(usage := Charge(s.usage, item));
      match rules.ending(item.path, item.entry)
      case NoScanner => s1.(docs := s.docs[item.path := Upserted(s.docs, item).(state := Skipped)], failed := true)
      case ScanThrows => s1.(docs := s.docs[item.path := Upserted(s.docs, item)], failed := true)
      case Throws => s1.(docs := s.docs[item.path := row], failed := true)
      case Infected => s1.(docs := s.docs[item.path := row.(state := Blocked)], counts := skipped)
      case PassedOver => s1.(docs := s.docs[item.path := row.(state := Skipped)], counts := skipped)
      case Stored(length) =>
        s1.(docs := s.docs[item.path := row.(byteSize := length, state := Indexed)],
            counts := s.counts.(indexed := s.counts.indexed + 1))
  }

  function Visit(rules: Rules, s: State, item: Item): State {
    var s1 := s.(seen := s.seen + {item.path}, counts := s.counts.(seen := s.counts.seen + 1));
    if Settled(rules, item) then s1.(counts := s1.counts.(kept := s1.counts.kept + 1))
    else IngestOne(rules, s1, item)
  }

  function VisitAll(rules: Rules, s: State, items: seq<Item>): State
    decreases items
  {
    if items == [] || s.failed then s else VisitAll(rules, Visit(rules, s, items[0]), items[1..])
  }

  // -------------------------------------------------------------- the walk

  lemma {:induction false} CollectSize<T, U>(f: T -> seq<U>, xs: seq<T>)
    requires forall x :: |f(x)| <= 1
    ensures |Collect(f, xs)| <= |xs|
    decreases xs
  {
    if xs != [] { CollectSize(f, xs[1..]); }
  }

  /** The files of a folder, in the order they are ingested. */
  function Files(names: Names, folder: Folder, es: seq<Entry>): (r: seq<Item>)
    ensures |r| <= |es|
  {
    CollectSize(FileOf(names, folder), es);
    SortSorts(ByPath(), Collect(FileOf(names, folder), es));
    Sort(ByPath(), Collect(FileOf(names, folder), es))
  }

  /** The folders to descend into, in order; none when the grant is not recursive. */
  function Subfolders(rules: Rules, folder: Folder, es: seq<Entry>): (r: seq<Folder>)
    ensures |r| <= |es|
  {
    CollectSize(FolderOf(rules, folder), es);
    SortSorts(ByPrefix(), Collect(FolderOf(rules, folder), es));
    Sort(ByPrefix(), Collect(FolderOf(rules, folder), es))
  }

  /** The work list, least prefix first. */
  function Queue(s: State): (q: seq<Folder>)
    ensures |q| == |s.folders|
  {
    SortSorts(ByPrefix(), s.folders);
    Sort(ByPrefix(), s.folders)
  }

  /** One folder, listed: its files and subfolders in order, how many entries it
      took, whether the bound cut it short, whether a request failed. */
  datatype Batch = Batch(files: seq<Item>, subfolders: seq<Folder>, size: nat, complete: bool, failed: bool)

  function BatchOf(env: Env, folder: Folder, room: nat): (b: Batch)
    ensures |b.files| <= b.size && |b.subfolders| <= b.size <= room
  {
    var t := Take(env.listing(folder.id), room);
    Batch(Files(env.rules.names, folder, t.entries), Subfolders(env.rules, folder, t.entries), |t.entries|, t.complete,
        t.failed)
  }

  /** The state in which a folder's files are about to be ingested. */
  function Opened(s: State, rest: seq<Folder>, b: Batch): State {
    s.(folders := rest, entriesSeen := s.entriesSeen + b.size, complete := b.complete, failed := b.failed)
  }

  /** The files of the batch are ingested, then its subfolders wait their turn. */
  function Handle(rules: Rules, s: State, rest: seq<Folder>, b: Batch): State {
    var s1 := VisitAll(rules, Opened(s, rest, b), b.files);
    if s1.failed then s1 else s1.(folders := s1.folders + b.subfolders)
  }

  function NextBatch(env: Env, s: State): Batch
    requires s.folders != [] && s.entriesSeen <= env.rules.maxEntries
  {
    BatchOf(env, Queue(s)[0], env.rules.maxEntries - s.entriesSeen)
  }

  /** One pass of the work list: the folder with the least prefix. */
  function OneFolder(env: Env, s: State): State
    requires s.folders != [] && s.entriesSeen <= env.rules.maxEntries
  {
    Handle(env.rules, s, Queue(s)[1..], NextBatch(env, s))
  }

  lemma BatchFrom(env: Env, folder: Folder, room: nat, t: Taken)
    requires t == Take(env.listing(folder.id), room)
    ensures BatchOf(env, folder, room) == Batch(
      Sort(ByPath(), Collect(FileOf(env.rules.names, folder), t.entries)),
      Sort(ByPrefix(), Collect(FolderOf(env.rules, folder), t.entries)), |t.entries|, t.complete, t.failed)
  {
  }

  lemma OneFolderIs(env: Env, s: State, folder: Folder, rest: seq<Folder>, room: nat)
    requires s.folders != [] && s.entriesSeen <= env.rules.maxEntries
    requires folder == Queue(s)[0] && rest == Queue(s)[1..] && room == env.rules.maxEntries - s.entriesSeen
    ensures OneFolder(env, s) == Handle(env.rules, s, rest, BatchOf(env, folder, room))
  {
  }

  lemma {:induction false} VisitAllFrame(rules: Rules, s: State, items: seq<Item>)
    ensures var s' := VisitAll(rules, s, items);
            s'.folders == s.folders && s'.entriesSeen == s.entriesSeen && s'.complete == s.complete
    decreases items
  {
    if items != [] && !s.failed { VisitAllFrame(rules, Visit(rules, s, items[0]), items[1..]); }
  }

  lemma HandleFrame(rules: Rules, s: State, rest: seq<Folder>, b: Batch)
    ensures var s' := Handle(rules, s, rest, b);
            && s'.entriesSeen == s.entriesSeen + b.size && s'.complete == b.complete
            && (s'.folders == rest || s'.folders == rest + b.subfolders)
            && (!s'.failed ==> s'.folders == rest + b.subfolders)
  {
    VisitAllFrame(rules, Opened(s, rest, b), b.files);
  }

  /** Each pass lists new entries or shortens the work list, also on a remote
      graph with cycles. */
  lemma OneFolderDescends(env: Env, s: State)
    requires s.folders != [] && s.entriesSeen <= env.rules.maxEntries
    ensures var s' := OneFolder(env, s);
            && s.entriesSeen <= s'.entriesSeen <= env.rules.maxEntries
            && (s'.entriesSeen == s.entriesSeen ==> |s'.folders| == |s.folders| - 1)
  {
    HandleFrame(env.rules, s, Queue(s)[1..], NextBatch(env, s));
  }

  /** walkAndIngest. Its termination measure is the entry room left, then the
      length of the work list. */
  function Walk(env: Env, s: State): State
    requires s.entriesSeen <= env.rules.maxEntries
    decreases env.rules.maxEntries - s.entriesSeen, |s.folders|
  {
    if s.folders == [] || !s.complete || s.failed then s
    else
      OneFolderDescends(env, s);
      Walk(env, OneFolder(env, s))
  }

  function Start(env: Env, usage: Usage): State {
    State([Folder(env.rules.root, "")], {}, env.rules.existing, usage, Counts(0, 0, 0, 0), 0, true, false)
  }

  /** syncCloudMapping after its checks: the walk, then the removal pass, which a
      truncated or failed walk does not reach. */
  function Synced(env: Env, usage: Usage): map<string, Doc> {
    var s := Walk(env, Start(env, usage));
    if s.complete && !s.failed then map p | p in s.docs && p in s.seen :: s.docs[p] else s.docs
  }

  // ---------------------------------------------------------- accounting

  ghost predicate Accounted(rules: Rules, s: State) {
    && s.entriesSeen <= rules.maxEntries && s.counts.seen <= s.entriesSeen
    && (!s.failed ==> s.counts.seen == s.counts.indexed + s.counts.skipped + s.counts.kept)
  }

  lemma {:induction false} VisitAllAccounted(rules: Rules, s: State, items: seq<Item>)
    requires s.counts.seen + |items| <= s.entriesSeen <= rules.maxEntries
    requires !s.failed && s.counts.seen == s.counts.indexed + s.counts.skipped + s.counts.kept
    ensures Accounted(rules, VisitAll(rules, s, items))
    decreases items
  {
    if items != [] {
      var s1 := Visit(rules, s, items[0]);
      if !s1.failed { VisitAllAccounted(rules, s1, items[1..]); }
    }
  }

  lemma HandleAccounted(rules: Rules, s: State, rest: seq<Folder>, b: Batch)
    requires Accounted(rules, s) && !s.failed && |b.files| <= b.size && s.entriesSeen + b.size <= rules.maxEntries
    ensures Accounted(rules, Handle(rules, s, rest, b))
  {
    if !b.failed { VisitAllAccounted(rules, Opened(s, rest, b), b.files); }
  }

  /** Every normal ending accounts for each file seen once, and the bound on
      listed entries is never passed. */
  lemma {:induction false} WalkAccounted(env: Env, s: State)
    requires Accounted(env.rules, s)
    ensures Accounted(env.rules, Walk(env, s))
    decreases env.rules.maxEntries - s.entriesSeen, |s.folders|
  {
    if s.folders != [] && s.complete && !s.failed {
      OneFolderDescends(env, s);
      HandleAccounted(env.rules, s, Queue(s)[1..], NextBatch(env, s));
      WalkAccounted(env, OneFolder(env, s));
    }
  }

  // --------------------------------------------------------------- quota

  /** What is charged stays within the quota, or is no more than it was. */
  predicate WithinQuota(rules: Rules, was: Usage, now: Usage) {
    && was.files <= now.files && (now.files <= rules.maxFiles || now.files == was.files)
    && was.bytes <= now.bytes && (now.bytes <= rules.maxBytes || (now.files == was.files && now.bytes == was.bytes))
  }

  lemma {:induction false} VisitAllWithinQuota(rules: Rules, was: Usage, s: State, items: seq<Item>)
    requires WithinQuota(rules, was, s.usage)
    ensures WithinQuota(rules, was, VisitAll(rules, s, items).usage)
    decreases items
  {
    if items != [] && !s.failed { VisitAllWithinQuota(rules, was, Visit(rules, s, items[0]), items[1..]); }
  }

  /** A walk never takes more files or bytes than the quota allows, wherever the
      usage stood before. */
  lemma {:induction false} WalkWithinQuota(env: Env, was: Usage, s: State)
    requires s.entriesSeen <= env.rules.maxEntries && WithinQuota(env.rules, was, s.usage)
    ensures WithinQuota(env.rules, was, Walk(env, s).usage)
    decreases env.rules.maxEntries - s.entriesSeen, |s.folders|
  {
    if s.folders != [] && s.complete && !s.failed {
      OneFolderDescends(env, s);
      VisitAllWithinQuota(env.rules, was, Opened(s, Queue(s)[1..], NextBatch(env, s)), NextBatch(env, s).files);
      WalkWithinQuota(env, was, OneFolder(env, s));
    }
  }
}

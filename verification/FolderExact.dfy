/** When exactly the order in which a provider lists a folder has no say in the outcome. */
module FolderExact {
  import opened Options
  import opened Sorting
  import opened FolderWalk
  import opened FolderTheorems
  import opened FolderOrder
  import FolderSync

  // ----------------------------------------------------------- telling orders apart

  /** Rules under which a run fails exactly if the first file they admit is `x`: they
      admit only one. */
  function Probe(rules: Rules, x: Entry, admits: (string, nat) -> bool, maxBytes: nat): Rules {
    Rules(rules.names, rules.root, rules.recursive, rules.maxEntries, 1, maxBytes, map[], (p: string) => true, admits,
          (p: string, e: Entry) => if e == x then Throws else PassedOver)
  }

  ghost predicate Probes(rules: Rules, x: Entry) {
    && rules.maxFiles == 1 && rules.existing == map[] && (forall p :: rules.storable(p))
    && (forall p, size: nat :: rules.admits(p, size) ==> size <= rules.maxBytes)
    && (forall p, e :: rules.ending(p, e) == if e == x then Throws else PassedOver)
  }

  function FirstAdmitted(rules: Rules, items: seq<Item>): Option<Item>
    decreases items
  {
    if items == [] then None
    else if rules.admits(items[0].path, items[0].entry.byteSize) then Some(items[0])
    else FirstAdmitted(rules, items[1..])
  }

  /** Once the quota is used up nothing fails any more. */
  lemma {:induction false} FullVisits(rules: Rules, s: State, items: seq<Item>, x: Entry)
    requires Probes(rules, x) && s.usage.files == 1 && !s.failed
    ensures var s' := VisitAll(rules, s, items); !s'.failed && s'.usage == s.usage
    decreases items
  {
    if items != [] { FullVisits(rules, Visit(rules, s, items[0]), items[1..], x); }
  }

  lemma {:induction false} ProbeVisits(rules: Rules, s: State, items: seq<Item>, x: Entry)
    requires Probes(rules, x) && s.usage == Usage(0, 0) && !s.failed
    ensures var s', first := VisitAll(rules, s, items), FirstAdmitted(rules, items);
            && (s'.failed <==> first.Some? && first.value.entry == x)
            && (first.None? ==> s'.usage == s.usage) && (first.Some? && !s'.failed ==> s'.usage.files == 1)
    decreases items
  {
    if items != [] {
      var s1 := Visit(rules, s, items[0]);
      if !rules.admits(items[0].path, items[0].entry.byteSize) {
        ProbeVisits(rules, s1, items[1..], x);
      } else if items[0].entry != x {
        FullVisits(rules, s1, items[1..], x);
      }
    }
  }

  /** Where files of one path are admitted up to a size, the first of that path decides. */
  lemma {:induction false} FirstOfPath(rules: Rules, items: seq<Item>, k: string, i: Item)
    requires forall p, size: nat :: rules.admits(p, size) <==> p == k && size <= rules.maxBytes
    requires FirstWith(ByPath(), k, items) == Some(i) && i.entry.byteSize <= rules.maxBytes
    ensures FirstAdmitted(rules, items) == Some(i)
    decreases items
  {
    if items[0].path != k { FirstOfPath(rules, items[1..], k, i); }
  }

  /** Rules that tell whether `x` or another file stored at its path came first. */
  function PathProbe(rules: Rules, x: Item, y: Item): Rules {
    var most := x.entry.byteSize + y.entry.byteSize;
    Probe(rules, x.entry, (p: string, size: nat) => p == x.path && size <= most, most)
  }

  lemma PathProbeTells(rules: Rules, s: State, items: seq<Item>, x: Item, y: Item, first: Item)
    requires x.path == y.path && x != y && (first == x || first == y) && s.usage == Usage(0, 0) && !s.failed
    requires FirstWith(ByPath(), x.path, items) == Some(first)
    ensures VisitAll(PathProbe(rules, x, y), s, Sort(ByPath(), items)).failed <==> first == x
  {
    var probe := PathProbe(rules, x, y);
    SortStable(ByPath(), x.path, items);
    FirstOfPath(probe, Sort(ByPath(), items), x.path, first);
    ProbeVisits(probe, s, Sort(ByPath(), items), x.entry);
  }

  const NOTHING_SEEN := State([], {}, map[], Usage(0, 0), Counts(0, 0, 0, 0), 0, true, false)

  /** The files of a folder come to the same state in every order, under all rules and
      from every state. */
  ghost predicate VisitsOrderFree(xs: seq<Item>) {
    forall rules: Rules, s: State, ys: seq<Item> | multiset(ys) == multiset(xs) ::
      VisitAll(rules, s, Sort(ByPath(), ys)) == VisitAll(rules, s, Sort(ByPath(), xs))
  }

  lemma FreeVisits(xs: seq<Item>, rules: Rules, s: State, ys: seq<Item>)
    requires VisitsOrderFree(xs) && multiset(ys) == multiset(xs)
    ensures VisitAll(rules, s, Sort(ByPath(), ys)) == VisitAll(rules, s, Sort(ByPath(), xs))
  {
  }

  lemma VisitsClash(rules: Rules, xs: seq<Item>, x: Item, y: Item)
    requires x in xs && y in xs && x.path == y.path && x != y
    ensures !VisitsOrderFree(xs)
  {
    var xfirst := MoveToFront(xs, x);
    var yfirst := MoveToFront(xs, y);
    PathProbeTells(rules, NOTHING_SEEN, xfirst, x, y, x);
    PathProbeTells(rules, NOTHING_SEEN, yfirst, x, y, y);
    if VisitsOrderFree(xs) {
      FreeVisits(xs, PathProbe(rules, x, y), NOTHING_SEEN, xfirst);
      FreeVisits(xs, PathProbe(rules, x, y), NOTHING_SEEN, yfirst);
    }
  }

  /** That is so exactly when no two different files are stored at one path. */
  lemma VisitsOrderFreeIff(xs: seq<Item>)
    ensures VisitsOrderFree(xs) <==> Unambiguous(ByPath(), xs)
  {
    if Unambiguous(ByPath(), xs) {
      forall rules: Rules, s: State, ys: seq<Item> | multiset(ys) == multiset(xs)
        ensures VisitAll(rules, s, Sort(ByPath(), ys)) == VisitAll(rules, s, Sort(ByPath(), xs))
      {
        SortDetermined(ByPath(), xs, ys);
      }
    } else {
      var x, y :| x in xs && y in xs && x.path == y.path && x != y;
      VisitsClash(BareRules(Names((e: Entry) => "", (e: Entry) => ""), "", 0), xs, x, y);
    }
  }

  // --------------------------------------------------------- a folder by itself

  /** The provider's pages of a folder come to these entries, in some order. */
  ghost predicate Lists(replies: seq<Reply>, es: seq<Entry>)
  {
    NoFailure(replies) && multiset(All(replies)) == multiset(es)
  }

  /** Two walks over one folder without its subfolders: only pages and order differ. */
  ghost predicate TwoListings(a: Env, b: Env, names: Names, root: string, es: seq<Entry>) {
    && b.rules == a.rules && a.rules.names == names && a.rules.root == root && !a.rules.recursive
    && Lists(a.listing(root), es) && Lists(b.listing(root), es)
  }

  /** No untruncated walk over the folder depends on how it is listed. */
  ghost predicate OrderFree(names: Names, root: string, es: seq<Entry>) {
    forall a: Env, b: Env, usage: Usage | TwoListings(a, b, names, root, es) && Walk(a, Start(a, usage)).complete ::
      Walk(b, Start(b, usage)) == Walk(a, Start(a, usage))
  }

  ghost predicate FilesApart(names: Names, es: seq<Entry>) {
    forall e, e' | e in es && e' in es && !e.folder && !e'.folder && names.file(e) == names.file(e') :: e == e'
  }

  lemma ApartIsFree(names: Names, root: string, es: seq<Entry>, a: Env, b: Env, usage: Usage)
    requires FilesApart(names, es) && TwoListings(a, b, names, root, es) && Walk(a, Start(a, usage)).complete
    ensures Walk(b, Start(b, usage)) == Walk(a, Start(a, usage))
  {
    forall f | Located(a, f) ensures f.id == root {
      var trail :| Trail(a, trail) && Reached(a, trail) == f;
    }
    forall e | e in All(a.listing(root)) ensures e in es { assert multiset(All(a.listing(root)))[e] > 0; }
    OrderIndependence(a, b, usage);
  }

  /** An environment in which only this folder has entries, on one page. */
  function OnePage(rules: Rules, es: seq<Entry>): Env {
    Env(rules, (id: string) => if id == rules.root then [Entries(es)] else [])
  }

  lemma TakeOnePage(es: seq<Entry>, room: nat)
    requires |es| <= room
    ensures Take([Entries(es)], room) == Taken(es, true, false) && All([Entries(es)]) == es && NoFailure([Entries(es)])
  {
    var replies := [Entries(es)];
    assert replies[1..] == [] && Take([], room - |es|) == Taken([], true, false) && es + [] == es;
  }

  lemma OnePageTakes(rules: Rules, es: seq<Entry>, room: nat)
    requires |es| <= room
    ensures Take(OnePage(rules, es).listing(rules.root), room) == Taken(es, true, false)
    ensures All(OnePage(rules, es).listing(rules.root)) == es && NoFailure(OnePage(rules, es).listing(rules.root))
  {
    TakeOnePage(es, room);
  }

  /** The mapped folder itself is the first and, by itself, the only one. */
  lemma FirstFolder(env: Env, usage: Usage, folder: Folder)
    requires folder == Folder(env.rules.root, "")
    ensures var s := Start(env, usage);
            Queue(s) == [folder]
                && OneFolder(env, s) == Handle(env.rules, s, [], BatchOf(env, folder, env.rules.maxEntries))
  {
    var s := Start(env, usage);
    assert s.folders[..0] == [] && Sort(ByPrefix(), [folder]) == [folder] by {
      assert [folder][..0] == [];
    }
    OneFolderIs(env, s, folder, [], env.rules.maxEntries);
  }

  /** What such a walk comes to: the files of the folder, in path order. */
  lemma WalkOnePage(rules: Rules, es: seq<Entry>, folder: Folder)
    requires folder == Folder(rules.root, "") && |es| <= rules.maxEntries && !rules.recursive
    ensures var env := OnePage(rules, es);
            var end := Walk(env, Start(env, Usage(0, 0)));
            && end.complete
            && (exists s: State ::
                  && s.usage == Usage(0, 0) && !s.failed
                  && end.failed == VisitAll(rules, s, Sort(ByPath(), Collect(FileOf(rules.names, folder), es))).failed)
  {
    var env := OnePage(rules, es);
    var s0 := Start(env, Usage(0, 0));
    OnePageTakes(rules, es, rules.maxEntries);
    FirstFolder(env, Usage(0, 0), folder);
    var b := BatchOf(env, folder, rules.maxEntries);
    NoSubfolders(rules, folder, es);
    HandleFrame(rules, s0, [], b);
    var s := Opened(s0, [], b);
    assert OneFolder(env, s0).folders == [] && OneFolder(env, s0).complete;
    assert OneFolder(env, s0).failed == VisitAll(rules, s, b.files).failed;
    OneFolderDescends(env, s0);
    assert Walk(env, s0) == Walk(env, OneFolder(env, s0)) == OneFolder(env, s0);
    assert s.usage == Usage(0, 0) && !s.failed;
  }

  lemma {:induction false} NoSubfolders(rules: Rules, folder: Folder, es: seq<Entry>)
    requires !rules.recursive
    ensures Collect(FolderOf(rules, folder), es) == [] && Subfolders(rules, folder, es) == []
    decreases es
  {
    if es != [] { NoSubfolders(rules, folder, es[1..]); }
  }

  /** Some rules tell which of two entries for one path was listed first. */
  lemma ClashTells(names: Names, root: string, es: seq<Entry>, e: Entry, e': Entry, first: Entry, xs: seq<Entry>)
    requires !e.folder && !e'.folder && e != e' && names.file(e) == names.file(e') && (first == e || first == e')
    requires |xs| == |es| > 0 && xs[0] == first
    ensures var rules := ClashRules(names, root, es, e, e');
            var env := OnePage(rules, xs);
            && Walk(env, Start(env, Usage(0, 0))).complete
            && (Walk(env, Start(env, Usage(0, 0))).failed <==> first == e)
  {
    var folder := Folder(root, "");
    var rules := ClashRules(names, root, es, e, e');
    WalkOnePage(rules, xs, folder);
    var s: State :| s.usage == Usage(0, 0) && !s.failed
      && Walk(OnePage(rules, xs), Start(OnePage(rules, xs), Usage(0, 0))).failed
         == VisitAll(rules, s, Sort(ByPath(), Collect(FileOf(names, folder), xs))).failed;
    var x, y, item := ItemAt(names, folder, e), ItemAt(names, folder, e'), ItemAt(names, folder, first);
    assert Collect(FileOf(names, folder), xs)[0] == item;
    PathProbeTells(BareRules(names, root, |es|), s, Collect(FileOf(names, folder), xs), x, y, item);
  }

  function ItemAt(names: Names, folder: Folder, e: Entry): Item { Item(e, PathOf(names, folder, e)) }

  function BareRules(names: Names, root: string, maxEntries: nat): Rules {
    Rules(names, root, false, maxEntries, 0, 0, map[], (p: string) => true, (p: string, n: nat) => true,
          (p: string, e: Entry) => PassedOver)
  }

  function ClashRules(names: Names, root: string, es: seq<Entry>, e: Entry, e': Entry): Rules {
    PathProbe(BareRules(names, root, |es|), ItemAt(names, Folder(root, ""), e), ItemAt(names, Folder(root, ""), e'))
  }

  /** The outcome of walking one folder is the same for every slicing and order of its
      listing exactly when no two different files of it get one name. */
  lemma WalkOrderFreeIff(names: Names, root: string, es: seq<Entry>)
    ensures OrderFree(names, root, es) <==> FilesApart(names, es)
  {
    if FilesApart(names, es) {
      forall a: Env, b: Env, usage: Usage | TwoListings(a, b, names, root, es) && Walk(a, Start(a, usage)).complete
        ensures Walk(b, Start(b, usage)) == Walk(a, Start(a, usage))
      {
        ApartIsFree(names, root, es, a, b, usage);
      }
    } else {
      var e, e' :| e in es && e' in es && !e.folder && !e'.folder && names.file(e) == names.file(e') && e != e';
      var xs := MoveToFront(es, e);
      var ys := MoveToFront(es, e');
      SameSize(xs, es);
      SameSize(ys, es);
      var rules := ClashRules(names, root, es, e, e');
      ClashTells(names, root, es, e, e', e, xs);
      ClashTells(names, root, es, e, e', e', ys);
      OnePageTakes(rules, xs, |es|);
      OnePageTakes(rules, ys, |es|);
      assert TwoListings(OnePage(rules, xs), OnePage(rules, ys), names, root, es);
    }
  }

  // ------------------------------------------------------- with its subfolders

  /** Two walks over the folder and what is below it, where names are apart. */
  ghost predicate TwoTrees(a: Env, b: Env, names: Names, root: string, es: seq<Entry>) {
    && SameTree(a, b) && a.rules.names == names && a.rules.root == root
    && Lists(a.listing(root), es) && Lists(b.listing(root), es)
    && (forall f | Located(a, f) && f.id != root :: NamesApart(a.rules, All(a.listing(f.id))))
  }

  /** No untruncated walk over the folder and any trees below it depends on listings. */
  ghost predicate TreeOrderFree(names: Names, root: string, es: seq<Entry>) {
    forall a: Env, b: Env, usage: Usage | TwoTrees(a, b, names, root, es) && Walk(a, Start(a, usage)).complete ::
      Walk(b, Start(b, usage)) == Walk(a, Start(a, usage))
  }

  ghost predicate FoldersApart(names: Names, es: seq<Entry>) {
    forall e, e' | e in es && e' in es && e.folder && e'.folder && names.folder(e) == names.folder(e') ::
      e.sourceId == e'.sourceId
  }

  /** A file is named by what it is called and exported as, as both names in use are. */
  ghost predicate ByName(names: Names) {
    forall e: Entry, e': Entry | e.name == e'.name
        && e.exportExtension == e'.exportExtension :: names.file(e) == names.file(e')
  }

  lemma NamesInUseByName()
    ensures ByName(FolderSync.NamesInUse())
  {
  }

  function Sizes(es: seq<Entry>): nat
    decreases es
  {
    if es == [] then 0 else es[0].byteSize + Sizes(es[1..])
  }

  lemma {:induction false} SizeWithin(es: seq<Entry>, e: Entry)
    requires e in es
    ensures e.byteSize <= Sizes(es)
    decreases es
  {
    if e != es[0] { SizeWithin(es[1..], e); }
  }

  /** Two folders that share a prefix, each with one file; the files share their path. */
  datatype Clash = Clash(first: string, second: string, prefix: string, size: nat)

  function FirstFile(c: Clash): Entry { Entry("1", "", false, c.size, None, None) }

  function SecondFile(c: Clash): Entry { Entry("2", "", false, c.size, None, None) }

  function FileIn(c: Clash, id: string): seq<Entry> {
    if id == c.first then [FirstFile(c)] else if id == c.second then [SecondFile(c)] else []
  }

  function ClashProbe(c: Clash, names: Names, root: string, maxEntries: nat): Rules {
    var k := c.prefix + names.file(FirstFile(c));
    var bare := BareRules(names, root, maxEntries).(recursive := true);
    Probe(bare, FirstFile(c), (p: string, size: nat) => p == k && size == c.size, c.size)
  }

  function ClashTree(c: Clash, rules: Rules, es: seq<Entry>): Env {
    Env(rules, (id: string) => if id == rules.root then [Entries(es)] else [Entries(FileIn(c, id))])
  }

  lemma CollectOne<T, U>(f: T -> seq<U>, xs: seq<T>)
    requires |xs| <= 1
    ensures Collect(f, xs) == if xs == [] then [] else f(xs[0])
  {
    if xs != [] { assert xs[1..] == [] && f(xs[0]) + [] == f(xs[0]); }
  }

  lemma SortOne<T>(key: T -> string, xs: seq<T>)
    requires |xs| <= 1
    ensures Sort(key, xs) == xs
  {
    if xs != [] { assert xs[..0] == [] && xs == [xs[0]]; }
  }

  /** The file of a folder below the root, as it will be visited. */
  function ItemsOf(c: Clash, names: Names, g: Folder): seq<Item> {
    if FileIn(c, g.id) == [] then [] else [ItemAt(names, g, FileIn(c, g.id)[0])]
  }

  /** A folder below the root takes at most one entry, and has no folders. */
  lemma SmallBatch(c: Clash, rules: Rules, es: seq<Entry>, g: Folder, room: nat)
    requires g.id != rules.root && room >= 1
    ensures BatchOf(ClashTree(c, rules, es), g, room) ==
            Batch(ItemsOf(c, rules.names, g), [], |FileIn(c, g.id)|, true, false)
  {
    var small := FileIn(c, g.id);
    TakeOnePage(small, room);
    BatchFrom(ClashTree(c, rules, es), g, room, Taken(small, true, false));
    SmallSorted(c, rules, g, small);
  }

  lemma SmallSorted(c: Clash, rules: Rules, g: Folder, small: seq<Entry>)
    requires small == FileIn(c, g.id)
    ensures Sort(ByPath(), Collect(FileOf(rules.names, g), small)) == ItemsOf(c, rules.names, g)
    ensures Sort(ByPrefix(), Collect(FolderOf(rules, g), small)) == []
  {
    CollectOne(FileOf(rules.names, g), small);
    CollectOne(FolderOf(rules, g), small);
    SortOne(ByPath(), ItemsOf(c, rules.names, g));
    SortOne<Folder>(ByPrefix(), []);
  }

  /** Only the two files at the shared path are admitted. */
  ghost predicate Distinguishes(c: Clash, rules: Rules) {
    && c.first != c.second && c.first != rules.root && c.second != rules.root && Probes(rules, FirstFile(c))
    && rules.names.file(FirstFile(c)) == rules.names.file(SecondFile(c))
    && forall p, size: nat :: rules.admits(p, size) <==>
       p == c.prefix + rules.names.file(FirstFile(c)) && size == c.size
  }

  /** On the way through the subfolders. */
  ghost predicate Below(rules: Rules, s: State) {
    && !s.failed && s.complete && s.entriesSeen + |s.folders| <= rules.maxEntries
    && forall g | g in s.folders :: g.id != rules.root
  }

  lemma BelowRest(rules: Rules, s: State, g: Folder, rest: seq<Folder>)
    requires Below(rules, s) && s.folders != [] && g == Queue(s)[0] && rest == Queue(s)[1..]
    ensures g.id != rules.root && |rest| == |s.folders| - 1 && forall f | f in rest :: f.id != rules.root
  {
    QueueIn(s, g);
    forall f | f in rest ensures f.id != rules.root { QueueIn(s, f); }
  }

  /** The files of one subfolder are visited, and the queue is shorter. */
  lemma BelowHandle(rules: Rules, s: State, rest: seq<Folder>, items: seq<Item>, size: nat, b: Batch)
    requires b == Batch(items, [], size, true, false) && !s.failed
    ensures var s', v := Handle(rules, s, rest, b), VisitAll(rules, Opened(s, rest, b), items);
            && s'.complete && s'.entriesSeen == s.entriesSeen + size && s'.failed == v.failed && s'.usage == v.usage
            && s'.folders == rest
  {
    HandleFrame(rules, s, rest, b);
    assert rest + [] == rest;
  }

  /** One subfolder of the queue. */
  lemma BelowStep(c: Clash, rules: Rules, es: seq<Entry>, s: State, g: Folder, rest: seq<Folder>) returns (at: State)
    requires Below(rules, s) && s.folders != [] && g == Queue(s)[0] && rest == Queue(s)[1..]
    ensures at.usage == s.usage && !at.failed
    ensures var s', v := OneFolder(ClashTree(c, rules, es), s), VisitAll(rules, at, ItemsOf(c, rules.names, g));
            && s'.complete && s'.failed == v.failed && s'.usage == v.usage && s'.folders == rest
            && (!s'.failed ==> Below(rules, s'))
  {
    var env, room := ClashTree(c, rules, es), rules.maxEntries - s.entriesSeen;
    BelowRest(rules, s, g, rest);
    OneFolderIs(env, s, g, rest, room);
    SmallBatch(c, rules, es, g, room);
    var b := BatchOf(env, g, room);
    BelowHandle(rules, s, rest, ItemsOf(c, rules.names, g), b.size, b);
    at := Opened(s, rest, b);
  }

  lemma {:induction false} FullBelow(c: Clash, rules: Rules, es: seq<Entry>, s: State)
    requires Distinguishes(c, rules) && Below(rules, s) && s.usage.files == 1
    ensures var end := Walk(ClashTree(c, rules, es), s); end.complete && !end.failed
    decreases |s.folders|
  {
    if s.folders != [] {
      var at := BelowStep(c, rules, es, s, Queue(s)[0], Queue(s)[1..]);
      OneFolderDescends(ClashTree(c, rules, es), s);
      FullVisits(rules, at, ItemsOf(c, rules.names, Queue(s)[0]), FirstFile(c));
      FullBelow(c, rules, es, OneFolder(ClashTree(c, rules, es), s));
    }
  }

  lemma AdmitsOnlyShared(c: Clash, rules: Rules, g: Folder, v: Entry)
    requires Distinguishes(c, rules) && FileIn(c, g.id) == [v]
    ensures rules.admits(ItemAt(rules.names, g, v).path, v.byteSize) <==> g.prefix == c.prefix
  {
    if g.prefix + rules.names.file(v) == c.prefix + rules.names.file(v) {
      SamePrefix(g.prefix, c.prefix, rules.names.file(v));
    }
  }

  lemma SamePrefix(a: string, b: string, tail: string)
    requires a + tail == b + tail
    ensures a == b
  {
    assert |a| == |b| && (a + tail)[..|a|] == a && (b + tail)[..|b|] == b;
  }

  /** What the file of a subfolder comes to, if any. */
  lemma SmallProbe(c: Clash, rules: Rules, at: State, g: Folder)
    requires Distinguishes(c, rules) && at.usage == Usage(0, 0) && !at.failed
    ensures var v := VisitAll(rules, at, ItemsOf(c, rules.names, g));
            && (g.prefix != c.prefix ==> !v.failed && v.usage == at.usage)
            && (g.prefix == c.prefix && g.id == c.first ==> v.failed)
            && (g.prefix == c.prefix && g.id == c.second ==> !v.failed && v.usage.files == 1)
  {
    var items := ItemsOf(c, rules.names, g);
    ProbeVisits(rules, at, items, FirstFile(c));
    if items != [] {
      AdmitsOnlyShared(c, rules, g, FileIn(c, g.id)[0]);
      assert items[1..] == [];
    }
  }

  lemma {:induction false} FirstBelow(c: Clash, rules: Rules, es: seq<Entry>, s: State, first: Folder)
    requires Distinguishes(c, rules) && Below(rules, s) && s.usage == Usage(0, 0)
    requires FirstWith(ByPrefix(), c.prefix, s.folders) == Some(first) && (first.id == c.first || first.id == c.second)
    ensures var end := Walk(ClashTree(c, rules, es), s); end.complete && (end.failed <==> first.id == c.first)
    decreases |s.folders|
  {
    var env, g, rest := ClashTree(c, rules, es), Queue(s)[0], Queue(s)[1..];
    SortStable(ByPrefix(), c.prefix, s.folders);
    var at := BelowStep(c, rules, es, s, g, rest);
    OneFolderDescends(env, s);
    SmallProbe(c, rules, at, g);
    if g.prefix != c.prefix {
      FirstBelow(c, rules, es, OneFolder(env, s), first);
    } else if g.id == c.second {
      FullBelow(c, rules, es, OneFolder(env, s));
    }
  }

  /** No file of the listing is admitted. */
  lemma {:induction false} NoneAdmitted(rules: Rules, items: seq<Item>, size: nat)
    requires forall i | i in items :: i.entry.byteSize < size
    requires forall p, n: nat :: rules.admits(p, n) ==> n == size
    ensures FirstAdmitted(rules, items) == None
    decreases items
  {
    if items != [] {
      assert items[0] in items;
      NoneAdmitted(rules, items[1..], size);
    }
  }

  /** The root passes by without a decision, and its subfolders wait. */
  lemma RootStep(c: Clash, rules: Rules, es: seq<Entry>, folder: Folder)
    requires Distinguishes(c, rules) && rules.recursive && 2 * |es| <= rules.maxEntries
    requires forall e | e in es :: e.byteSize < c.size
    requires folder == Folder(rules.root, "") && forall e | e in es && e.folder :: e.sourceId != rules.root
    ensures var env := ClashTree(c, rules, es);
            var s := OneFolder(env, Start(env, Usage(0, 0)));
            && Below(rules, s) && s.usage == Usage(0, 0) && s.folders == Subfolders(rules, folder, es)
            && Walk(env, Start(env, Usage(0, 0))) == Walk(env, s)
  {
    var env := ClashTree(c, rules, es);
    var s0 := Start(env, Usage(0, 0));
    TakeOnePage(es, rules.maxEntries);
    BatchFrom(env, folder, rules.maxEntries, Taken(es, true, false));
    FirstFolder(env, Usage(0, 0), folder);
    var b := BatchOf(env, folder, rules.maxEntries);
    forall i | i in b.files ensures i.entry.byteSize < c.size {
      FilesIn(rules.names, folder, es, i);
    }
    NoneAdmitted(rules, b.files, c.size);
    ProbeVisits(rules, Opened(s0, [], b), b.files, FirstFile(c));
    RootHandle(rules, s0, b);
    forall g | g in b.subfolders ensures g.id != rules.root { SubfoldersIn(rules, folder, es, g); }
    OneFolderDescends(env, s0);
  }

  lemma RootHandle(rules: Rules, s: State, b: Batch)
    requires var v := VisitAll(rules, Opened(s, [], b), b.files); !v.failed && v.usage == s.usage
    ensures var s' := Handle(rules, s, [], b);
            && !s'.failed && s'.complete == b.complete && s'.usage == s.usage
            && s'.entriesSeen == s.entriesSeen + b.size && s'.folders == b.subfolders
  {
    HandleFrame(rules, s, [], b);
    assert [] + b.subfolders == b.subfolders;
  }

  /** The clash of two folders of one listing. */
  function ClashOf(names: Names, root: string, es: seq<Entry>, e: Entry, e': Entry): Clash {
    Clash(e.sourceId, e'.sourceId, ChildFolder(names, Folder(root, ""), e).prefix, Sizes(es) + 1)
  }

  /** Some tree below tells which of two folders of one name was listed first. */
  lemma FolderClashTells(names: Names, root: string, es: seq<Entry>, e: Entry, e': Entry, first: Entry, xs: seq<Entry>)
    requires ByName(names) && e.folder && e'.folder && names.folder(e) == names.folder(e') && e.sourceId != e'.sourceId
    requires (first == e || first == e') && e in es && e' in es && multiset(xs) == multiset(es) && xs != []
             && xs[0] == first
    requires forall g | g in es && g.folder :: g.sourceId != root
    ensures var c := ClashOf(names, root, es, e, e');
            var env := ClashTree(c, ClashProbe(c, names, root, 2 * |es|), xs);
            var end := Walk(env, Start(env, Usage(0, 0)));
            end.complete && (end.failed <==> first == e)
  {
    var c, folder := ClashOf(names, root, es, e, e'), Folder(root, "");
    var rules := ClashProbe(c, names, root, 2 * |es|);
    SameSize(xs, es);
    forall g | g in xs ensures g in es && g.byteSize < c.size {
      assert multiset(xs)[g] > 0;
      SizeWithin(es, g);
    }
    RootStep(c, rules, xs, folder);
    var env := ClashTree(c, rules, xs);
    var child := ChildFolder(names, folder, first);
    assert Collect(FolderOf(rules, folder), xs)[0] == child;
    SortStable(ByPrefix(), c.prefix, Collect(FolderOf(rules, folder), xs));
    assert FirstWith(ByPrefix(), c.prefix, Collect(FolderOf(rules, folder), xs)) == Some(child);
    FirstBelow(c, rules, xs, OneFolder(env, Start(env, Usage(0, 0))), child);
  }

  lemma SmallListing(c: Clash, rules: Rules, es: seq<Entry>, id: string)
    requires id != rules.root
    ensures var replies := ClashTree(c, rules, es).listing(id);
            replies == [Entries(FileIn(c, id))] && NoFailure(replies) && All(replies) == FileIn(c, id)
  {
    TakeOnePage(FileIn(c, id), 1);
  }

  lemma SmallApart(c: Clash, rules: Rules, id: string)
    ensures NamesApart(rules, FileIn(c, id))
  {
  }

  /** Both environments of a clash are two listings of the same trees. */
  lemma ClashTrees(c: Clash, rules: Rules, names: Names, es: seq<Entry>, xs: seq<Entry>, ys: seq<Entry>)
    requires multiset(xs) == multiset(es) == multiset(ys) && rules.names == names
    ensures TwoTrees(ClashTree(c, rules, xs), ClashTree(c, rules, ys), names, rules.root, es)
  {
    var a, b := ClashTree(c, rules, xs), ClashTree(c, rules, ys);
    TakeOnePage(xs, |xs|);
    TakeOnePage(ys, |ys|);
    forall f: Folder
      ensures SameFolder(a.listing(f.id), b.listing(f.id))
      ensures f.id != rules.root ==> NamesApart(a.rules, All(a.listing(f.id)))
    {
      if f.id != rules.root {
        SmallListing(c, rules, xs, f.id);
        SmallListing(c, rules, ys, f.id);
        SmallApart(c, rules, f.id);
      }
    }
  }

  lemma TreesApartAreFree(names: Names, root: string, es: seq<Entry>, a: Env, b: Env, usage: Usage)
    requires FilesApart(names, es) && FoldersApart(names, es) && TwoTrees(a, b, names, root, es)
    requires Walk(a, Start(a, usage)).complete
    ensures Walk(b, Start(b, usage)) == Walk(a, Start(a, usage))
  {
    forall e | e in All(a.listing(root)) ensures e in es { assert multiset(All(a.listing(root)))[e] > 0; }
    OrderIndependence(a, b, usage);
  }

  /** With subfolders: the outcome is the same for every slicing and order of the
      listings, whatever trees with names apart are below, exactly when neither two
      different files nor two different folders of the folder itself get one name. */
  lemma TreeOrderFreeIff(names: Names, root: string, es: seq<Entry>)
    requires ByName(names) && forall e | e in es && e.folder :: e.sourceId != root
    ensures TreeOrderFree(names, root, es) <==> FilesApart(names, es) && FoldersApart(names, es)
  {
    if FilesApart(names, es) && FoldersApart(names, es) {
      forall a: Env, b: Env, usage: Usage | TwoTrees(a, b, names, root, es) && Walk(a, Start(a, usage)).complete
        ensures Walk(b, Start(b, usage)) == Walk(a, Start(a, usage))
      {
        TreesApartAreFree(names, root, es, a, b, usage);
      }
    } else if !FilesApart(names, es) {
      FileClashInTree(names, root, es);
    } else {
      var e, e' :| e in es && e' in es && e.folder && e'.folder && names.folder(e) == names.folder(e')
          && e.sourceId != e'.sourceId;
      FolderClashInTree(names, root, es, e, e');
    }
  }

  lemma FreeTrees(names: Names, root: string, es: seq<Entry>, a: Env, b: Env, usage: Usage)
    requires TreeOrderFree(names, root, es) && TwoTrees(a, b, names, root, es) && Walk(a, Start(a, usage)).complete
    ensures Walk(b, Start(b, usage)) == Walk(a, Start(a, usage))
  {
  }

  lemma FolderClashInTree(names: Names, root: string, es: seq<Entry>, e: Entry, e': Entry)
    requires ByName(names) && e.folder && e'.folder && names.folder(e) == names.folder(e') && e.sourceId != e'.sourceId
    requires e in es && e' in es && forall g | g in es && g.folder :: g.sourceId != root
    ensures !TreeOrderFree(names, root, es)
  {
    var xs := MoveToFront(es, e);
    var ys := MoveToFront(es, e');
    var c := ClashOf(names, root, es, e, e');
    var rules := ClashProbe(c, names, root, 2 * |es|);
    FolderClashTells(names, root, es, e, e', e, xs);
    FolderClashTells(names, root, es, e, e', e', ys);
    ClashTrees(c, rules, names, es, xs, ys);
    if TreeOrderFree(names, root, es) {
      FreeTrees(names, root, es, ClashTree(c, rules, xs), ClashTree(c, rules, ys), Usage(0, 0));
    }
  }

  /** A folder without its subfolders is a tree as well. */
  lemma FlatIsTree(names: Names, root: string, es: seq<Entry>, a: Env, b: Env)
    requires TwoListings(a, b, names, root, es)
    ensures TwoTrees(a, b, names, root, es)
  {
    forall f | Located(a, f) ensures f.id == root {
      var trail :| Trail(a, trail) && Reached(a, trail) == f;
    }
  }

  lemma FileClashInTree(names: Names, root: string, es: seq<Entry>)
    requires !FilesApart(names, es)
    ensures !TreeOrderFree(names, root, es)
  {
    WalkOrderFreeIff(names, root, es);
    var a: Env, b: Env, usage: Usage :| TwoListings(a, b, names, root, es) && Walk(a, Start(a, usage)).complete
      && Walk(b, Start(b, usage)) != Walk(a, Start(a, usage));
    FlatIsTree(names, root, es, a, b);
    if TreeOrderFree(names, root, es) { FreeTrees(names, root, es, a, b, usage); }
  }
}

/** What the bound on listed entries decides about a walk, and what it does not. */
module FolderBound {
  import opened Options
  import opened Sorting
  import opened FolderWalk
  import opened FolderTheorems

  /** The same run with room for `m` entries. */
  function Bounded(env: Env, m: nat): Env { env.(rules := env.rules.(maxEntries := m)) }

  /** What is taken in full within some room is taken alike within any that suffices, and
      cut short within any other. */
  lemma {:induction false} TakeWithin(replies: seq<Reply>, room: nat, other: nat)
    requires var t := Take(replies, room); t.complete && !t.failed
    ensures var t, u := Take(replies, room), Take(replies, other);
            if |t.entries| <= other then u == t else !u.complete && |u.entries| == other
    decreases replies
  {
    if replies != [] {
      var es := replies[0].entries;
      if |es| <= other { TakeWithin(replies[1..], room - |es|, other - |es|); }
    }
  }

  lemma {:induction false} TakeCut(replies: seq<Reply>, room: nat)
    ensures !Take(replies, room).complete ==> |Take(replies, room).entries| == room
    decreases replies
  {
    if replies != [] && replies[0].Entries? && |replies[0].entries| <= room {
      TakeCut(replies[1..], room - |replies[0].entries|);
    }
  }

  lemma {:induction false} FoldersBounded(rules: Rules, m: nat, folder: Folder, es: seq<Entry>)
    ensures Collect(FolderOf(rules.(maxEntries := m), folder), es) == Collect(FolderOf(rules, folder), es)
    decreases es
  {
    if es != [] { FoldersBounded(rules, m, folder, es[1..]); }
  }

  lemma BatchBounded(env: Env, m: nat, folder: Folder, room: nat, other: nat)
    requires var b := BatchOf(env, folder, room); b.complete && !b.failed
    ensures var b, c := BatchOf(env, folder, room), BatchOf(Bounded(env, m), folder, other);
            if b.size <= other then c == b else !c.complete
  {
    var t, u := Take(env.listing(folder.id), room), Take(env.listing(folder.id), other);
    TakeWithin(env.listing(folder.id), room, other);
    BatchFrom(env, folder, room, t);
    BatchFrom(Bounded(env, m), folder, other, u);
    FoldersBounded(env.rules, m, folder, t.entries);
  }

  lemma VisitBounded(rules: Rules, m: nat, s: State, item: Item)
    ensures Visit(rules.(maxEntries := m), s, item) == Visit(rules, s, item)
  {
  }

  lemma {:induction false} VisitAllBounded(rules: Rules, m: nat, s: State, items: seq<Item>)
    ensures VisitAll(rules.(maxEntries := m), s, items) == VisitAll(rules, s, items)
    decreases items
  {
    if items != [] && !s.failed {
      VisitBounded(rules, m, s, items[0]);
      VisitAllBounded(rules, m, Visit(rules, s, items[0]), items[1..]);
    }
  }

  lemma HandleBounded(rules: Rules, m: nat, s: State, rest: seq<Folder>, b: Batch)
    ensures Handle(rules.(maxEntries := m), s, rest, b) == Handle(rules, s, rest, b)
  {
    VisitAllBounded(rules, m, Opened(s, rest, b), b.files);
  }

  /** One pass of a walk that goes on to its end, under another bound. */
  lemma PassBounded(env: Env, m: nat, s: State)
    requires s.folders != [] && s.entriesSeen <= env.rules.maxEntries && s.entriesSeen <= m
    requires OneFolder(env, s).complete && !OneFolder(env, s).failed
    ensures var s', u := OneFolder(env, s), OneFolder(Bounded(env, m), s);
            if s'.entriesSeen <= m then u == s' else !u.complete
  {
    var folder, rest := Queue(s)[0], Queue(s)[1..];
    var room, other := env.rules.maxEntries - s.entriesSeen, m - s.entriesSeen;
    var b, c := BatchOf(env, folder, room), BatchOf(Bounded(env, m), folder, other);
    OneFolderIs(env, s, folder, rest, room);
    OneFolderIs(Bounded(env, m), s, folder, rest, other);
    HandleFrame(env.rules, s, rest, b);
    HandleFrame(Bounded(env, m).rules, s, rest, c);
    BatchNotFailed(env.rules, s, rest, b);
    BatchBounded(env, m, folder, room, other);
    HandleBounded(env.rules, m, s, rest, b);
  }

  lemma BatchNotFailed(rules: Rules, s: State, rest: seq<Folder>, b: Batch)
    ensures b.failed ==> Handle(rules, s, rest, b).failed
  {
  }

  /** Where two walks stand under the two bounds, given how one of them ends. */
  ghost predicate Cut(m: nat, end: State, other: State) {
    if end.entriesSeen <= m then other == end else !other.complete
  }

  /** A walk with a folder waiting goes on with one pass. */
  lemma WalkGoesOn(env: Env, s: State)
    requires s.entriesSeen <= env.rules.maxEntries && s.complete && !s.failed && s.folders != []
    ensures var s' := OneFolder(env, s);
            && s.entriesSeen <= s'.entriesSeen <= env.rules.maxEntries && Walk(env, s) == Walk(env, s')
            && (s'.entriesSeen == s.entriesSeen ==> |s'.folders| < |s.folders|)
  {
    OneFolderDescends(env, s);
  }

  lemma WalkOver(env: Env, s: State)
    requires s.entriesSeen <= env.rules.maxEntries && (s.folders == [] || !s.complete || s.failed)
    ensures Walk(env, s) == s
  {
  }

  lemma {:induction false} WalkGrows(env: Env, s: State)
    requires s.entriesSeen <= env.rules.maxEntries
    ensures Walk(env, s).entriesSeen >= s.entriesSeen
    decreases env.rules.maxEntries - s.entriesSeen, |s.folders|
  {
    if s.complete && !s.failed && s.folders != [] {
      WalkGoesOn(env, s);
      WalkGrows(env, OneFolder(env, s));
    }
  }

  lemma {:induction false} WalkBounded(env: Env, tight: Env, m: nat, s: State)
    requires s.entriesSeen <= env.rules.maxEntries && s.entriesSeen <= m && tight == Bounded(env, m)
    requires Walk(env, s).complete && !Walk(env, s).failed
    ensures Cut(m, Walk(env, s), Walk(tight, s))
    decreases env.rules.maxEntries - s.entriesSeen, |s.folders|
  {
    GoesOn(env, s);
    if s.folders != [] {
      var s', u := OneFolder(env, s), OneFolder(tight, s);
      WalkGoesOn(env, s);
      WalkGoesOn(tight, s);
      GoesOn(env, s');
      PassBounded(env, m, s);
      WalkGrows(env, s');
      if s'.entriesSeen <= m { WalkBounded(env, tight, m, s'); } else { WalkOver(tight, u); }
    } else {
      WalkOver(env, s);
      WalkOver(tight, s);
    }
  }

  /** A walk that is over says what it ended with. */
  lemma GoesOn(env: Env, s: State)
    requires s.entriesSeen <= env.rules.maxEntries && Walk(env, s).complete && !Walk(env, s).failed
    ensures s.complete && !s.failed
  {
  }

  /** The bound decides whether a walk gets to the end, and nothing else: if it does with
      some bound, it does, with the same files, rows, usage and counts, exactly with the
      bounds that are not less than the entries it lists. */
  lemma BoundOnlyCutsShort(env: Env, usage: Usage, m: nat)
    requires var end := Walk(env, Start(env, usage)); end.complete && !end.failed
    ensures var end, other := Walk(env, Start(env, usage)), Walk(Bounded(env, m), Start(Bounded(env, m), usage));
            && (other.complete && !other.failed <==> end.entriesSeen <= m)
            && (end.entriesSeen <= m ==> other == end)
  {
    WalkBounded(env, Bounded(env, m), m, Start(env, usage));
  }

  /** A walk is cut short only once it has listed as many entries as the bound allows, and
      one that is not cut short and does not fail leaves no folder waiting. */
  lemma {:induction false} CutShortOnlyWhenFull(env: Env, s: State)
    requires s.entriesSeen <= env.rules.maxEntries && s.complete && !s.failed
    ensures var end := Walk(env, s);
            && (!end.complete ==> end.entriesSeen == env.rules.maxEntries)
            && (end.complete && !end.failed ==> end.folders == [])
    decreases env.rules.maxEntries - s.entriesSeen, |s.folders|
  {
    if s.folders != [] {
      var s' := OneFolder(env, s);
      WalkGoesOn(env, s);
      PassCut(env, s);
      if s'.complete && !s'.failed { CutShortOnlyWhenFull(env, s'); } else { WalkOver(env, s'); }
    }
  }

  lemma PassCut(env: Env, s: State)
    requires s.folders != [] && s.entriesSeen <= env.rules.maxEntries
    ensures !OneFolder(env, s).complete ==> OneFolder(env, s).entriesSeen == env.rules.maxEntries
  {
    var folder, rest, room := Queue(s)[0], Queue(s)[1..], env.rules.maxEntries - s.entriesSeen;
    OneFolderIs(env, s, folder, rest, room);
    HandleFrame(env.rules, s, rest, BatchOf(env, folder, room));
    TakeCut(env.listing(folder.id), room);
  }
}

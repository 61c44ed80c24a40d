/** Files that every run takes in again, and the usage that is charged for them. */
module FolderAgain {
  import opened Options
  import opened FolderWalk
  import opened FolderTheorems
  import opened FolderQuiet

  // --------------------------------------------------- charged usage and the index

  /** A sum over all rows. */
  ghost function Total(docs: map<string, Doc>, f: Doc -> nat): nat {
    if docs == map[] then 0
    else
      var p :| p in docs;
      Total(docs - {p}, f) + f(docs[p])
  }

  lemma {:induction false} TotalWithout(docs: map<string, Doc>, f: Doc -> nat, p: string)
    requires p in docs
    ensures Total(docs, f) == Total(docs - {p}, f) + f(docs[p])
    decreases |docs|
  {
    var q :| q in docs && Total(docs, f) == Total(docs - {q}, f) + f(docs[q]);
    if q != p {
      TotalWithout(docs - {q}, f, p);
      TotalWithout(docs - {p}, f, q);
      assert docs - {q} - {p} == docs - {p} - {q};
    }
  }

  /** What usageFor counts: rows that are not skipped, and their bytes. */
  function CountsFile(): Doc -> nat { (d: Doc) => if d.state.Skipped? then 0 else 1 }

  function CountsBytes(): Doc -> nat { (d: Doc) => if d.state.Skipped? then 0 else d.byteSize }

  /** The part of a row in a sum, none if there is no row. */
  function Part(docs: map<string, Doc>, p: string, f: Doc -> nat): nat { if p in docs then f(docs[p]) else 0 }

  lemma TotalMoves(docs: map<string, Doc>, docs': map<string, Doc>, p: string, f: Doc -> nat)
    requires docs' == docs || (p in docs' && docs' == docs[p := docs'[p]])
    ensures Total(docs', f) + Part(docs, p, f) == Total(docs, f) + Part(docs', p, f)
  {
    if p in docs' {
      TotalWithout(docs', f, p);
      if p in docs { TotalWithout(docs, f, p); }
      assert docs' - {p} == docs - {p};
    }
  }

  /** The accounts of one file. What is charged and what the rows come to move apart by
      what the file's row counted for before, is charged now, and counts for now. */
  lemma ChargeLaw(rules: Rules, s: State, x: Item)
    ensures var s' := Visit(rules, s, x);
            var charged := !Settled(rules, x) && rules.storable(x.path) && Accepts(rules, s.usage, x);
            && s'.usage == (if charged then Charge(s.usage, x) else s.usage)
            && Total(s'.docs, CountsFile()) + Part(s.docs, x.path, CountsFile())
               == Total(s.docs, CountsFile()) + Part(s'.docs, x.path, CountsFile())
            && Total(s'.docs, CountsBytes()) + Part(s.docs, x.path, CountsBytes())
               == Total(s.docs, CountsBytes()) + Part(s'.docs, x.path, CountsBytes())
  {
    VisitTouches(rules, s, x);
    TotalMoves(s.docs, Visit(rules, s, x).docs, x.path, CountsFile());
    TotalMoves(s.docs, Visit(rules, s, x).docs, x.path, CountsBytes());
    VisitCharges(rules, s, x);
  }

  lemma VisitCharges(rules: Rules, s: State, x: Item)
    ensures var charged := !Settled(rules, x) && rules.storable(x.path) && Accepts(rules, s.usage, x);
            Visit(rules, s, x).usage == if charged then Charge(s.usage, x) else s.usage
  {
  }

  /** A file counts for more than before only if it is charged. */
  lemma OnlyChargedCounts(rules: Rules, s: State, x: Item)
    ensures var s' := Visit(rules, s, x);
            && Part(s'.docs, x.path, CountsFile()) <= 1
            && (s'.usage == s.usage ==> Part(s'.docs, x.path, CountsFile()) <= Part(s.docs, x.path, CountsFile()))
            && (s'.usage != s.usage ==> s'.usage.files == s.usage.files + 1)
  {
  }

  /** The snapshot never has fewer files than the index counts, if it starts so. */
  lemma {:induction false} VisitsNeverUndercount(rules: Rules, s: State, items: seq<Item>, others: nat)
    requires others + Total(s.docs, CountsFile()) <= s.usage.files
    ensures var s' := VisitAll(rules, s, items); others + Total(s'.docs, CountsFile()) <= s'.usage.files
    decreases items
  {
    if items != [] && !s.failed {
      ChargeLaw(rules, s, items[0]);
      OnlyChargedCounts(rules, s, items[0]);
      VisitsNeverUndercount(rules, Visit(rules, s, items[0]), items[1..], others);
    }
  }

  /** Over a whole walk that starts with what is counted, `others` for the owner's other
      folders, what is charged is never less than what the index then counts. */
  lemma {:induction false} WalkNeverUndercounts(env: Env, s: State, others: nat)
    requires s.entriesSeen <= env.rules.maxEntries && others + Total(s.docs, CountsFile()) <= s.usage.files
    ensures var end := Walk(env, s); others + Total(end.docs, CountsFile()) <= end.usage.files
    decreases env.rules.maxEntries - s.entriesSeen, |s.folders|
  {
    if s.folders != [] && s.complete && !s.failed {
      OneFolderDescends(env, s);
      VisitsNeverUndercount(env.rules, Opened(s, Queue(s)[1..], NextBatch(env, s)), NextBatch(env, s).files, others);
      WalkNeverUndercounts(env, OneFolder(env, s), others);
    }
  }

  // ------------------------------------------------------------- taken in again

  /** The files a walk comes to, in order. */
  function Met(env: Env, s: State): seq<Item>
    requires s.entriesSeen <= env.rules.maxEntries
    decreases env.rules.maxEntries - s.entriesSeen, |s.folders|
  {
    if s.folders == [] || !s.complete || s.failed then []
    else
      OneFolderDescends(env, s);
      NextBatch(env, s).files + Met(env, OneFolder(env, s))
  }

  /** Those of them that are not settled, so that they are taken in again. */
  function Again(rules: Rules, items: seq<Item>): seq<Item>
    decreases items
  {
    if items == [] then []
    else (if Settled(rules, items[0]) then [] else [items[0]]) + Again(rules, items[1..])
  }

  function Bytes(items: seq<Item>): nat
    decreases items
  {
    if items == [] then 0 else items[0].entry.byteSize + Bytes(items[1..])
  }

  /** The quota has room for all of these once more. */
  predicate RoomFor(rules: Rules, usage: Usage, items: seq<Item>) {
    items == [] || (usage.files + |items| <= rules.maxFiles && usage.bytes + Bytes(items) <= rules.maxBytes)
  }

  /** A file taken in again has the row it had, and only the quota can change that. */
  ghost predicate Retaken(rules: Rules, x: Item) {
    Settled(rules, x) || (rules.storable(x.path) && Resized(rules, rules.existing, x))
  }

  ghost predicate AllRetaken(rules: Rules, items: seq<Item>) {
    && (forall x | x in items :: Retaken(rules, x))
    && (forall x, y | x in items && y in items && x.path == y.path :: x == y)
  }

  /** Once a file was turned away it stays so: usage only grows. */
  lemma {:induction false} TurnedAwayStays(rules: Rules, s: State, items: seq<Item>, x: Item)
    requires AllRetaken(rules, items) && !Settled(rules, x) && forall y | y in items && y.path == x.path :: y == x
    requires !s.failed && !Accepts(rules, s.usage, x) && x.path in s.docs && s.docs[x.path].state.Skipped?
    ensures var s' := VisitAll(rules, s, items); x.path in s'.docs && s'.docs[x.path].state.Skipped?
    decreases items
  {
    if items != [] {
      var y, s1 := items[0], Visit(rules, s, items[0]);
      assert y in items && Retaken(rules, y);
      VisitTouches(rules, s, y);
      VisitCharges(rules, s, y);
      KeepsGoing(rules, s, y);
      assert forall z | z in items[1..] :: z in items;
      TurnedAwayStays(rules, s1, items[1..], x);
    }
  }

  lemma KeepsGoing(rules: Rules, s: State, x: Item)
    requires Retaken(rules, x) && !s.failed
    ensures var s' := Visit(rules, s, x);
            && !s'.failed
            && (Settled(rules, x) ==> s'.docs == s.docs && s'.usage == s.usage)
            && (!Settled(rules, x) && Accepts(rules, s.usage, x) ==>
                  s'.docs == s.docs[x.path := rules.existing[x.path]] && s'.usage == Charge(s.usage, x))
            && (!Settled(rules, x) && !Accepts(rules, s.usage, x) ==>
                  x.path in s'.docs && s'.docs[x.path].state.Skipped? && s'.usage == s.usage)
  {
  }

  /** Taking the files in again leaves the index as it is exactly if the quota has room
      for all of them once more. */
  lemma {:induction false} VisitsRepeatIff(rules: Rules, s: State, items: seq<Item>)
    requires AllRetaken(rules, items) && !s.failed && s.docs == rules.existing
    ensures var s' := VisitAll(rules, s, items);
            !s'.failed && (s'.docs == rules.existing <==> RoomFor(rules, s.usage, Again(rules, items)))
    decreases items
  {
    if items != [] {
      var x, rest := items[0], items[1..];
      assert x in items && Retaken(rules, x);
      assert forall z | z in rest :: z in items;
      var s1 := Visit(rules, s, x);
      KeepsGoing(rules, s, x);
      if Settled(rules, x) {
        VisitsRepeatIff(rules, s1, rest);
        assert [] + Again(rules, rest) == Again(rules, rest);
      } else if Accepts(rules, s.usage, x) {
        assert s.docs[x.path := rules.existing[x.path]] == s.docs;
        VisitsRepeatIff(rules, s1, rest);
        AgainFits(rules, s.usage, x, Again(rules, rest));
      } else {
        TurnedAwayStays(rules, s1, rest, x);
        NeverFails(rules, s1, rest);
        assert rules.existing[x.path].state.Indexed?;
      }
    }
  }

  lemma AgainFits(rules: Rules, usage: Usage, x: Item, rest: seq<Item>)
    requires usage.files < rules.maxFiles && usage.bytes + x.entry.byteSize <= rules.maxBytes
    ensures RoomFor(rules, Charge(usage, x), rest) <==> RoomFor(rules, usage, [x] + rest)
  {
    assert ([x] + rest)[1..] == rest;
    assert Bytes([x] + rest) == x.entry.byteSize + Bytes(rest);
  }

  lemma {:induction false} NeverFails(rules: Rules, s: State, items: seq<Item>)
    requires AllRetaken(rules, items) && !s.failed
    ensures !VisitAll(rules, s, items).failed
    decreases items
  {
    if items != [] {
      assert items[0] in items;
      KeepsGoing(rules, s, items[0]);
      assert forall z | z in items[1..] :: z in items;
      NeverFails(rules, Visit(rules, s, items[0]), items[1..]);
    }
  }

  // ------------------------------------------------------------- the whole walk

  lemma {:induction false} VisitAllOfSum(rules: Rules, s: State, xs: seq<Item>, ys: seq<Item>)
    ensures VisitAll(rules, s, xs + ys) == VisitAll(rules, VisitAll(rules, s, xs), ys)
    decreases xs
  {
    if xs == [] {
      assert xs + ys == ys;
    } else if s.failed {
    } else {
      assert (xs + ys)[1..] == xs[1..] + ys;
      VisitAllOfSum(rules, Visit(rules, s, xs[0]), xs[1..], ys);
    }
  }

  /** Two states that differ in the work list and its counters only. */
  predicate SameBooks(a: State, b: State) { a.docs == b.docs && a.usage == b.usage && a.failed == b.failed }

  lemma {:induction false} VisitAllSameBooks(rules: Rules, a: State, b: State, items: seq<Item>)
    requires SameBooks(a, b)
    ensures SameBooks(VisitAll(rules, a, items), VisitAll(rules, b, items))
    decreases items
  {
    if items != [] && !a.failed {
      VisitAllSameBooks(rules, Visit(rules, a, items[0]), Visit(rules, b, items[0]), items[1..]);
    }
  }

  /** A walk that is complete visits the files it meets, one after the other. */
  lemma {:induction false} WalkIsVisits(env: Env, s: State)
    requires s.entriesSeen <= env.rules.maxEntries && s.complete && !s.failed
    requires Walk(env, s).complete && !Walk(env, s).failed
    ensures SameBooks(Walk(env, s), VisitAll(env.rules, s, Met(env, s)))
    decreases env.rules.maxEntries - s.entriesSeen, |s.folders|
  {
    if s.folders != [] {
      OneFolderDescends(env, s);
      var b, s1 := NextBatch(env, s), OneFolder(env, s);
      StillGoing(env, s);
      HandleBooks(env, s, b, Queue(s)[1..]);
      WalkIsVisits(env, s1);
      VisitAllSameBooks(env.rules, s1, VisitAll(env.rules, s, b.files), Met(env, s1));
      VisitAllOfSum(env.rules, s, b.files, Met(env, s1));
    }
  }

  /** A walk that ends well has gone well so far. */
  lemma StillGoing(env: Env, s: State)
    requires s.entriesSeen <= env.rules.maxEntries && s.folders != [] && s.complete && !s.failed
    requires Walk(env, s).complete && !Walk(env, s).failed
    ensures OneFolder(env, s).complete && !OneFolder(env, s).failed
  {
    OneFolderDescends(env, s);
  }

  lemma HandleBooks(env: Env, s: State, b: Batch, rest: seq<Folder>)
    requires s.entriesSeen <= env.rules.maxEntries && s.folders != [] && !s.failed
    requires b == NextBatch(env, s) && rest == Queue(s)[1..] && !OneFolder(env, s).failed
    ensures SameBooks(OneFolder(env, s), VisitAll(env.rules, s, b.files))
  {
    assert !b.failed;
    VisitAllSameBooks(env.rules, Opened(s, rest, b), s, b.files);
  }

  lemma {:induction false} MetInTree(env: Env, s: State)
    requires s.entriesSeen <= env.rules.maxEntries && InGrant(env, s)
    ensures forall x | x in Met(env, s) :: ItemIn(env, x)
    decreases env.rules.maxEntries - s.entriesSeen, |s.folders|
  {
    if s.folders != [] && s.complete && !s.failed {
      OneFolderDescends(env, s);
      NextItems(env, s, Queue(s)[0]);
      OneFolderInGrant(env, s, Queue(s)[0], Queue(s)[1..], env.rules.maxEntries - s.entriesSeen);
      MetInTree(env, OneFolder(env, s));
    }
  }

  /** A next run with the same gates and the same endings; quota and bound may differ. */
  ghost predicate SameGates(env: Env, next: Env) {
    && next.rules.storable == env.rules.storable && next.rules.admits == env.rules.admits
    && next.rules.ending == env.rules.ending
  }

  /** After a complete run over a regular tree, what another complete run takes in again
      are the files that were stored at another size than they are listed with. It
      repeats every decision, and leaves the index as it is, exactly if the quota has
      room for all of these once more, although the index counts them already. */
  lemma SecondRunRepeatsIff(env: Env, usage: Usage, next: Env, usage': Usage)
    requires Regular(env) && Walk(env, Start(env, usage)).complete && !Walk(env, Start(env, usage)).failed
    requires NextRun(env, usage, next) && SameGates(env, next)
    requires Walk(next, Start(next, usage')).complete && !Walk(next, Start(next, usage')).failed
    ensures var again := Again(next.rules, Met(next, Start(next, usage')));
            && (forall x | x in again :: Resized(next.rules, next.rules.existing, x))
            && (Walk(next, Start(next, usage')).docs == next.rules.existing <==> RoomFor(next.rules, usage', again))
  {
    var s0 := Start(next, usage');
    var met := Met(next, s0);
    StartInGrant(env, usage);
    StartInGrant(next, usage');
    WalkSettles(env, Start(env, usage));
    MetInTree(next, s0);
    forall x | x in met ensures ItemIn(env, x) && Retaken(next.rules, x) {
      SameItems(env, usage, next, x);
      assert InTree(env, x.path);
      CompleteWalkSeesTheTree(env, usage, x.path);
    }
    WalkIsVisits(next, s0);
    VisitsRepeatIff(next.rules, s0, met);
    AgainIn(next.rules, met);
  }

  lemma {:induction false} AgainIn(rules: Rules, items: seq<Item>)
    ensures forall x | x in Again(rules, items) :: x in items && !Settled(rules, x)
    decreases items
  {
    if items != [] { AgainIn(rules, items[1..]); }
  }
}

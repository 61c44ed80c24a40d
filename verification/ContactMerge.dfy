/** What people and the push pass do to the same tables. */
module ContactMerge {
  import opened Options
  import opened ContactRecords
  import opened ContactTables
  import opened ContactReplay

  /** First occurrences, in order. */
  function Unique(xs: seq<string>): (u: seq<string>)
    ensures forall x :: x in u <==> x in xs
    ensures forall i, j | 0 <= i < j < |u| :: u[i] != u[j]
  {
    if xs == [] then []
    else
      var u := Unique(xs[..|xs| - 1]);
      assert forall x :: x in xs <==> x in xs[..|xs| - 1] || x == xs[|xs| - 1];
      if xs[|xs| - 1] in u then u else u + [xs[|xs| - 1]]
  }

  function OrElse(a: Option<string>, b: Option<string>): Option<string> {
    if a.Some? then a else b
  }

  /** The surviving row. */
  function Folded(keep: Contact, merge: Contact): Contact {
    var emails := Unique(keep.fields.emails + merge.fields.emails);
    var phones := Unique(keep.fields.phones + merge.fields.phones);
    keep.(fields := Fields(OrElse(keep.fields.name, merge.fields.name), emails, phones),
          email := OrElse(keep.email, First(emails)), phone := OrElse(keep.phone, First(phones)))
  }

  predicate LinkedIn(t: Tables, origin: string, c: nat) {
    exists k | k in t.links :: k.origin == origin && t.links[k].contact == c
  }

  /** Links follow the merged contact, except where the survivor has one already. */
  function Moved(t: Tables, keep: nat, merge: nat): map<LinkKey, Link> {
    map k | k in t.links ::
      if t.links[k].contact == merge && !LinkedIn(t, k.origin, keep) then t.links[k].(contact := keep) else t.links[k]
  }

  predicate MayMerge(t: Tables, owner: string, keep: nat, merge: nat) {
    keep in t.contacts && merge in t.contacts && t.contacts[keep].owner == owner && t.contacts[merge].owner == owner
  }

  /** mergeContacts; None is the error the caller sees. */
  function Merge(t: Tables, owner: string, keep: nat, merge: nat): Option<Tables> {
    if !MayMerge(t, owner, keep, merge) then None
    else
      var row := Folded(t.contacts[keep], t.contacts[merge]);
      var folded := t.(contacts := t.contacts[keep := row], links := Moved(t, keep, merge));
      Some(DropContact(folded, merge, owner))
  }

  lemma MovedSound(t: Tables, o: Origin, keep: nat, merge: nat)
    requires Sound(t, o) && keep in t.contacts && merge in t.contacts
             && t.contacts[keep].owner == t.contacts[merge].owner
    ensures Sound(t.(links := Moved(t, keep, merge)), o)
  {
  }

  lemma MergeKeepsSound(t: Tables, o: Origin, owner: string, keep: nat, merge: nat)
    requires Sound(t, o) && MayMerge(t, owner, keep, merge)
    ensures Sound(Merge(t, owner, keep, merge).value, o)
  {
    var row := Folded(t.contacts[keep], t.contacts[merge]);
    MovedSound(t, o, keep, merge);
    var moved := t.(links := Moved(t, keep, merge));
    RowSound(moved, o, keep, row);
    DropContactSound(moved.(contacts := moved.contacts[keep := row]), o, merge, owner);
  }

  /** The survivor loses nothing it had and gains every address of the other,
      except when a contact is merged into itself: then it is gone. */
  lemma MergeSurvivorIff(t: Tables, owner: string, keep: nat, merge: nat)
    requires MayMerge(t, owner, keep, merge)
    ensures var t' := Merge(t, owner, keep, merge).value;
            && merge !in t'.contacts
            && (keep in t'.contacts <==> keep != merge)
            && (keep != merge ==>
                  var was, gone, now := t.contacts[keep], t.contacts[merge], t'.contacts[keep];
                  && (forall e :: e in now.fields.emails <==> e in was.fields.emails || e in gone.fields.emails)
                  && (forall p :: p in now.fields.phones <==> p in was.fields.phones || p in gone.fields.phones)
                  && now.fields.name == OrElse(was.fields.name, gone.fields.name)
                  && (was.email.Some? ==> now.email == was.email) && (was.phone.Some? ==> now.phone == was.phone)
                  && (now.email.None? <==> was.email.None? && now.fields.emails == [])
                  && (now.phone.None? <==> was.phone.None? && now.fields.phones == [])
                  && (now.email.Some? && was.email.None? ==> now.email.value in now.fields.emails)
                  && (now.phone.Some? && was.phone.None? ==> now.phone.value in now.fields.phones)
                  && now.owner == was.owner && now.source == was.source && now.hasNotes == was.hasNotes
                     && now.conflict == was.conflict)
  {
  }

  /** `x` is first met at `p`. */
  ghost predicate FirstAt(xs: seq<string>, x: string, p: int) { 0 <= p < |xs| && xs[p] == x && x !in xs[..p] }

  /** `u` lists what occurs in `xs`, once each, as it is first met there. */
  ghost predicate AsFirstMet(xs: seq<string>, u: seq<string>) {
    && (forall x :: x in u <==> x in xs) && (forall i, j | 0 <= i < j < |u| :: u[i] != u[j])
    && forall i, j, p, q | 0 <= i < j < |u| && FirstAt(xs, u[i], p) && FirstAt(xs, u[j], q) :: p < q
  }

  lemma {:induction false} UniqueAsFirstMet(xs: seq<string>)
    ensures AsFirstMet(xs, Unique(xs))
    ensures xs != [] ==> Unique(xs) != [] && Unique(xs)[0] == xs[0]
  {
    if xs != [] {
      var n := |xs| - 1;
      UniqueAsFirstMet(xs[..n]);
      var u, v := Unique(xs[..n]), Unique(xs);
      forall i, j, p, q | 0 <= i < j < |v| && FirstAt(xs, v[i], p) && FirstAt(xs, v[j], q) ensures p < q {
        assert v[i] in xs[..n];
        FirstEarlier(xs, v[i], p);
        if q < n {
          assert xs[..n][..q] == xs[..q] && xs[..n][q] == v[j];
          assert v[j] in xs[..n] && FirstAt(xs[..n], v[j], q);
        }
      }
      if n == 0 { assert xs[..n] == []; }
    }
  }

  /** What occurs before the last is first met there. */
  lemma FirstEarlier(xs: seq<string>, x: string, p: int)
    requires xs != [] && x in xs[..|xs| - 1] && FirstAt(xs, x, p)
    ensures p < |xs| - 1 && FirstAt(xs[..|xs| - 1], x, p)
  {
    if p < |xs| - 1 { assert xs[..|xs| - 1][..p] == xs[..p]; }
  }

  /** The survivor's addresses are its own and then the other's, each once; a primary
      address it lacked is the first of them. */
  lemma MergeKeepsOrder(t: Tables, owner: string, keep: nat, merge: nat)
    requires MayMerge(t, owner, keep, merge) && keep != merge
    ensures var t' := Merge(t, owner, keep, merge).value;
            && keep in t'.contacts
            && var was, gone, now := t.contacts[keep], t.contacts[merge], t'.contacts[keep];
               var emails, phones := was.fields.emails + gone.fields.emails, was.fields.phones + gone.fields.phones;
               && AsFirstMet(emails, now.fields.emails) && AsFirstMet(phones, now.fields.phones)
               && (was.email.None? ==> now.email == if emails == [] then None else Some(emails[0]))
               && (was.phone.None? ==> now.phone == if phones == [] then None else Some(phones[0]))
  {
    UniqueAsFirstMet(t.contacts[keep].fields.emails + t.contacts[merge].fields.emails);
    UniqueAsFirstMet(t.contacts[keep].fields.phones + t.contacts[merge].fields.phones);
  }

  /** Nothing but the two contacts and their links is touched: of the links to the merged
      contact those are gone whose origin knows the survivor, the rest point to it, and no
      other link, contact or tombstone changes. */
  lemma MergeLeavesRest(t: Tables, owner: string, keep: nat, merge: nat)
    requires MayMerge(t, owner, keep, merge) && keep != merge
    ensures var t' := Merge(t, owner, keep, merge).value;
            && t'.tombs == t.tombs && t'.contacts.Keys == t.contacts.Keys - {merge} && t'.links.Keys <= t.links.Keys
            && (forall c | c in t'.contacts && c != keep :: t'.contacts[c] == t.contacts[c])
            && (forall k | k in t.links && t.links[k].contact != merge :: k in t'.links && t'.links[k] == t.links[k])
            && forall k | k in t.links && t.links[k].contact == merge ::
                 && (k in t'.links <==>
                       forall l | l in t.links && l.origin == k.origin :: t.links[l].contact != keep)
                 && (k in t'.links ==> t'.links[k] == t.links[k].(contact := keep))
  {
    LinksAfterMerge(t, owner, keep, merge);
  }

  lemma LinksAfterMerge(t: Tables, owner: string, keep: nat, merge: nat)
    requires MayMerge(t, owner, keep, merge) && keep != merge
    ensures var links := Merge(t, owner, keep, merge).value.links;
            && links.Keys <= t.links.Keys
            && forall k | k in t.links ::
                 && (k in links <==> t.links[k].contact != merge || !LinkedIn(t, k.origin, keep))
                 && (k in links ==>
                       links[k] == if t.links[k].contact == merge then t.links[k].(contact := keep) else t.links[k])
  {
  }

  /** A link of the merged contact follows it exactly when the survivor had no
      link to that origin; the others are gone, and leave no tombstone. So the
      provider's next full listing creates the merged person again. */
  lemma MergedRecordReturnsIff(n: Normal, t: Tables, o: Origin, keep: nat, merge: nat, r: Remote)
    requires Sound(t, o) && MayMerge(t, o.owner, keep, merge) && keep != merge
    requires LinkKey(o.id, r.sourceId) in t.links && t.links[LinkKey(o.id, r.sourceId)].contact == merge
    requires !r.deleted && TombOf(o, r.sourceId) !in t.tombs
    ensures var t' := Merge(t, o.owner, keep, merge).value;
            && (Decide(n, t', o, r) == Created <==> LinkedIn(t, o.id, keep))
            && (!LinkedIn(t, o.id, keep) ==>
               t'.links[LinkKey(o.id, r.sourceId)] == t.links[LinkKey(o.id, r.sourceId)].(contact := keep))
  {
  }

  lemma MergeKeepsBuried(t: Tables, o: Origin, owner: string, keep: nat, merge: nat, sourceId: string)
    requires MayMerge(t, owner, keep, merge) && Buried(t, o, sourceId)
    ensures Buried(Merge(t, owner, keep, merge).value, o, sourceId)
  {
  }

  // ------------------------------------------------------------- the push pass

  datatype PushOutcome = Written(etag: Option<string>, fields: Fields) | Precondition

  /** The links the push pass asks for: the origin's, of contacts not in conflict. */
  function LinksToPush(t: Tables, o: Origin): set<LinkKey> {
    set k | k in t.links && k.origin == o.id && t.links[k].owner == o.owner
            && Linked(t, k).Some? && Linked(t, k).value.conflict != BothChanged
  }

  /** One link of the push pass, with what the provider answered. */
  function Push(n: Normal, t: Tables, o: Origin, k: LinkKey, outcome: PushOutcome): Tables {
    if k.origin != o.id || Linked(t, k).None? then t
    else
      var now := Some(Fingerprint(n, Linked(t, k).value.fields));
      if t.links[k].localPrint == now then t
      else
        match outcome
        case Written(etag, fields) =>
          var agreed := t.links[k].(etag := etag, remotePrint := Some(Fingerprint(n, fields)), localPrint := now);
          t.(links := t.links[k := agreed])
        case Precondition => Flag(t, t.links[k].contact, o.owner)
  }

  lemma PushKeepsSound(n: Normal, t: Tables, o: Origin, pusher: Origin, k: LinkKey, outcome: PushOutcome)
    requires Sound(t, o)
    ensures Sound(Push(n, t, pusher, k, outcome), o)
  {
  }

  /** After a push the provider's own report of what was written agrees with the
      contact: the next pull of that record settles it without writing. */
  lemma PushedEditIsAgreed(n: Normal, t: Tables, o: Origin, k: LinkKey, etag: Option<string>, r: Remote)
    requires Sound(t, o) && k == LinkKey(o.id, r.sourceId) && k in t.links && !r.deleted
    requires Fingerprint(n, r.fields) == Fingerprint(n, Linked(t, k).value.fields)
    ensures var t' := Push(n, t, o, k, Written(etag, r.fields));
            && t'.contacts == t.contacts && Apply(n, t', o, r).contacts == t.contacts
            && t'.links[k].localPrint == Some(Fingerprint(n, Linked(t, k).value.fields))
  {
  }

  // ------------------------------------------------------- the whole push pass

  /** The contact was edited since this link's last agreement. */
  predicate Edited(n: Normal, t: Tables, k: LinkKey) {
    Linked(t, k).Some? && t.links[k].localPrint != Some(Fingerprint(n, Linked(t, k).value.fields))
  }

  /** The provider refused a pushed edit of the contact: it had moved as well. */
  predicate Refused(n: Normal, t: Tables, keys: set<LinkKey>, outcome: LinkKey -> PushOutcome, c: nat) {
    exists k | k in keys :: k in t.links && Edited(n, t, k) && outcome(k).Precondition? && t.links[k].contact == c
  }

  /** The tables after the links `keys` were pushed, all at once: an edited contact's
      link agrees on what was written, a refused one's contact is in conflict. */
  function Pushed(n: Normal, t: Tables, o: Origin, keys: set<LinkKey>, outcome: LinkKey -> PushOutcome): Tables {
    t.(links := map k | k in t.links ::
         if k in keys && Edited(n, t, k) && outcome(k).Written? then
           t.links[k].(etag := outcome(k).etag, remotePrint := Some(Fingerprint(n, outcome(k).fields)),
                       localPrint := Some(Fingerprint(n, Linked(t, k).value.fields)))
         else t.links[k],
       contacts := map c | c in t.contacts ::
         if t.contacts[c].owner == o.owner && Refused(n, t, keys, outcome, c) then
           t.contacts[c].(conflict := BothChanged)
         else t.contacts[c])
  }

  /** pushLocalChanges, when no push fails for another reason. */
  function PushPass(n: Normal, t: Tables, o: Origin, outcome: LinkKey -> PushOutcome): Tables {
    Pushed(n, t, o, LinksToPush(t, o), outcome)
  }

  lemma NothingPushed(n: Normal, t: Tables, o: Origin, outcome: LinkKey -> PushOutcome)
    ensures Pushed(n, t, o, {}, outcome) == t
  {
  }

  /** A link not pushed yet looks as it did before the pass. */
  lemma NotPushedYet(
      n: Normal, t: Tables, o: Origin, done: set<LinkKey>, outcome: LinkKey -> PushOutcome, k: LinkKey, now: Tables)
    requires k !in done && k in t.links && now == Pushed(n, t, o, done, outcome)
    ensures k in now.links && now.links[k] == t.links[k] && (Linked(now, k).Some? <==> Linked(t, k).Some?)
    ensures Linked(t, k).Some? ==> Linked(now, k).value.fields == Linked(t, k).value.fields
    ensures Edited(n, now, k) <==> Edited(n, t, k)
  {
  }

  lemma RefusedOneMore(n: Normal, t: Tables, done: set<LinkKey>, outcome: LinkKey -> PushOutcome, k: LinkKey, c: nat)
    requires k in t.links
    ensures Refused(n, t, done + {k}, outcome, c) <==>
            Refused(n, t, done, outcome, c) || (Edited(n, t, k) && outcome(k).Precondition? && t.links[k].contact == c)
  {
  }

  lemma PushedLink(
      n: Normal, t: Tables, o: Origin, keys: set<LinkKey>, outcome: LinkKey -> PushOutcome, k: LinkKey, l: LinkKey)
    requires k in t.links && l in t.links
    ensures var a, b := Pushed(n, t, o, keys, outcome), Pushed(n, t, o, keys + {k}, outcome);
            && a.links.Keys == b.links.Keys == t.links.Keys
            && (l != k ==> a.links[l] == b.links[l])
            && (l == k && !(Edited(n, t, k) && outcome(k).Written?) ==> b.links[k] == t.links[k])
            && (l == k && Edited(n, t, k) && outcome(k).Written? ==> b.links[k] == Agreed(n, t, k, outcome(k)))
  {
  }

  /** The link once its contact's edit was written. */
  function Agreed(n: Normal, t: Tables, k: LinkKey, outcome: PushOutcome): Link
    requires k in t.links && Linked(t, k).Some? && outcome.Written?
  {
    t.links[k].(etag := outcome.etag, remotePrint := Some(Fingerprint(n, outcome.fields)),
                localPrint := Some(Fingerprint(n, Linked(t, k).value.fields)))
  }

  lemma PushLink(n: Normal, t: Tables, o: Origin, k: LinkKey, outcome: PushOutcome, l: LinkKey)
    requires k in t.links && l in t.links && k.origin == o.id
    ensures var t' := Push(n, t, o, k, outcome);
            && t'.links.Keys == t.links.Keys
            && (l != k ==> t'.links[l] == t.links[l])
            && (l == k && !(Edited(n, t, k) && outcome.Written?) ==> t'.links[k] == t.links[k])
            && (l == k && Edited(n, t, k) && outcome.Written? ==> t'.links[k] == Agreed(n, t, k, outcome))
  {
  }

  lemma PushOneLink(
      n: Normal, t: Tables, o: Origin, done: set<LinkKey>, outcome: LinkKey -> PushOutcome, k: LinkKey, now: Tables,
      next: Tables, l: LinkKey)
    requires k !in done && k in t.links && k.origin == o.id && now == Pushed(n, t, o, done, outcome) && l in t.links
    requires next == Push(n, now, o, k, outcome(k))
    ensures next.links.Keys == t.links.Keys && next.links[l] == Pushed(n, t, o, done + {k}, outcome).links[l]
  {
    NotPushedYet(n, t, o, done, outcome, k, now);
    PushedLink(n, t, o, done, outcome, k, l);
    PushLink(n, now, o, k, outcome(k), l);
  }

  lemma PushOneLinks(
      n: Normal, t: Tables, o: Origin, done: set<LinkKey>, outcome: LinkKey -> PushOutcome, k: LinkKey, now: Tables,
      next: Tables)
    requires k !in done && k in t.links && k.origin == o.id && now == Pushed(n, t, o, done, outcome)
    requires next == Push(n, now, o, k, outcome(k))
    ensures next.links == Pushed(n, t, o, done + {k}, outcome).links
  {
    forall l | l in t.links
      ensures next.links.Keys == t.links.Keys && next.links[l] == Pushed(n, t, o, done + {k}, outcome).links[l]
    {
      PushOneLink(n, t, o, done, outcome, k, now, next, l);
    }
    PushOneLink(n, t, o, done, outcome, k, now, next, k);
  }

  lemma PushContact(n: Normal, t: Tables, o: Origin, k: LinkKey, outcome: PushOutcome, c: nat)
    requires k in t.links && k.origin == o.id && c in t.contacts
    ensures var mine := t.links[k].contact == c && t.contacts[c].owner == o.owner;
            var flagged := mine && Edited(n, t, k) && outcome.Precondition?;
            var t' := Push(n, t, o, k, outcome);
            && t'.contacts.Keys == t.contacts.Keys
            && t'.contacts[c] == if flagged then t.contacts[c].(conflict := BothChanged) else t.contacts[c]
  {
  }

  lemma PushedContact(n: Normal, t: Tables, o: Origin, keys: set<LinkKey>, outcome: LinkKey -> PushOutcome, c: nat)
    requires c in t.contacts
    ensures var t' := Pushed(n, t, o, keys, outcome);
            var flagged := t.contacts[c].owner == o.owner && Refused(n, t, keys, outcome, c);
            && t'.contacts.Keys == t.contacts.Keys
            && t'.contacts[c] == if flagged then t.contacts[c].(conflict := BothChanged) else t.contacts[c]
  {
  }

  lemma PushOneContact(
      n: Normal, t: Tables, o: Origin, done: set<LinkKey>, outcome: LinkKey -> PushOutcome, k: LinkKey, now: Tables,
      next: Tables, c: nat)
    requires k !in done && k in t.links && k.origin == o.id && now == Pushed(n, t, o, done, outcome) && c in t.contacts
    requires next == Push(n, now, o, k, outcome(k))
    ensures next.contacts.Keys == t.contacts.Keys
            && next.contacts[c] == Pushed(n, t, o, done + {k}, outcome).contacts[c]
  {
    NotPushedYet(n, t, o, done, outcome, k, now);
    RefusedOneMore(n, t, done, outcome, k, c);
    PushedContact(n, t, o, done, outcome, c);
    PushedContact(n, t, o, done + {k}, outcome, c);
    PushContact(n, now, o, k, outcome(k), c);
  }

  lemma PushKeepsKeys(n: Normal, t: Tables, o: Origin, k: LinkKey, outcome: PushOutcome)
    ensures Push(n, t, o, k, outcome).contacts.Keys == t.contacts.Keys
  {
  }

  lemma PushedKeepsKeys(n: Normal, t: Tables, o: Origin, keys: set<LinkKey>, outcome: LinkKey -> PushOutcome)
    ensures Pushed(n, t, o, keys, outcome).contacts.Keys == t.contacts.Keys
  {
  }

  lemma SameRows(a: map<nat, Contact>, b: map<nat, Contact>)
    requires a.Keys == b.Keys && forall c | c in a :: a[c] == b[c]
    ensures a == b
  {
  }

  lemma PushOneContacts(
      n: Normal, t: Tables, o: Origin, done: set<LinkKey>, outcome: LinkKey -> PushOutcome, k: LinkKey, now: Tables,
      next: Tables)
    requires k !in done && k in t.links && k.origin == o.id && now == Pushed(n, t, o, done, outcome)
    requires next == Push(n, now, o, k, outcome(k))
    ensures next.contacts == Pushed(n, t, o, done + {k}, outcome).contacts
  {
    var end := Pushed(n, t, o, done + {k}, outcome).contacts;
    PushKeepsKeys(n, now, o, k, outcome(k));
    PushedKeepsKeys(n, t, o, done, outcome);
    PushedKeepsKeys(n, t, o, done + {k}, outcome);
    forall c | c in next.contacts ensures next.contacts[c] == end[c] {
      PushOneContact(n, t, o, done, outcome, k, now, next, c);
    }
    SameRows(next.contacts, end);
  }

  /** Links do not get in each other's way, so their order does not matter. */
  lemma PushOneMore(n: Normal, t: Tables, o: Origin, done: set<LinkKey>, outcome: LinkKey -> PushOutcome, k: LinkKey)
    requires k !in done && k in t.links && k.origin == o.id
    ensures Push(n, Pushed(n, t, o, done, outcome), o, k, outcome(k)) == Pushed(n, t, o, done + {k}, outcome)
  {
    var now := Pushed(n, t, o, done, outcome);
    PushOneLinks(n, t, o, done, outcome, k, now, Push(n, now, o, k, outcome(k)));
    PushOneContacts(n, t, o, done, outcome, k, now, Push(n, now, o, k, outcome(k)));
  }

  lemma PassKeepsSound(n: Normal, t: Tables, o: Origin, outcome: LinkKey -> PushOutcome, t': Tables)
    requires Sound(t, o) && t' == PushPass(n, t, o, outcome)
    ensures Sound(t', o)
  {
    forall k | k in t'.links ensures LinkSound(t', t'.links[k]) { assert LinkSound(t, t.links[k]); }
  }

  /** After a whole pass every changed, unconflicted contact of the origin has had its
      edit written and agreed on, or is in conflict: nothing is left to push. The pass
      changes no name or address and no link of another origin. */
  lemma PassLeavesNothing(n: Normal, t: Tables, o: Origin, outcome: LinkKey -> PushOutcome, t': Tables)
    requires Sound(t, o) && t' == PushPass(n, t, o, outcome)
    ensures forall k | k in LinksToPush(t', o) :: !Edited(n, t', k)
    ensures forall c | c in t.contacts :: c in t'.contacts && t'.contacts[c].fields == t.contacts[c].fields
    ensures forall k | k in t.links && k.origin != o.id :: t'.links[k] == t.links[k]
  {
    forall k | k in LinksToPush(t', o) ensures !Edited(n, t', k) {
      assert LinkSound(t, t.links[k]) && k in LinksToPush(t, o);
      if Edited(n, t, k) && outcome(k).Precondition? {
        assert Refused(n, t, LinksToPush(t, o), outcome, t.links[k].contact);
      }
    }
  }

  /** The provider's answer to each push, and nothing else, decides: an edited contact of
      the origin that is not in conflict is written and its link agrees on what was, or it
      is refused and in conflict. Other links of the origin, and contacts no push of which
      was refused, stay as they are. */
  lemma PassOutcome(n: Normal, t: Tables, o: Origin, outcome: LinkKey -> PushOutcome, t': Tables, k: LinkKey)
    requires Sound(t, o) && t' == PushPass(n, t, o, outcome)
    requires k in t.links && k.origin == o.id && t.links[k].owner == o.owner && t.links[k].contact in t.contacts
    ensures t'.links.Keys == t.links.Keys && t'.contacts.Keys == t.contacts.Keys && t'.tombs == t.tombs
    ensures var c, l := t.contacts[t.links[k].contact], t.links[k];
            var here := Some(Fingerprint(n, c.fields));
            var asked := c.conflict != BothChanged && l.localPrint != here;
            && (asked && outcome(k).Written? ==>
                  t'.links[k] == l.(etag := outcome(k).etag, localPrint := here,
                                    remotePrint := Some(Fingerprint(n, outcome(k).fields))))
            && (!asked || outcome(k).Precondition? ==> t'.links[k] == l)
            && (asked && outcome(k).Precondition? ==> t'.contacts[l.contact] == c.(conflict := BothChanged))
            && (!asked || outcome(k).Written? ==> t'.contacts[l.contact] == c)
  {
    var keys := LinksToPush(t, o);
    if k in keys && Edited(n, t, k) && outcome(k).Precondition? {
      assert Refused(n, t, keys, outcome, t.links[k].contact);
    }
    PushedContact(n, t, o, keys, outcome, t.links[k].contact);
  }

  /** The same without naming the links asked for. */
  lemma NothingLeftToPush(n: Normal, t: Tables, o: Origin, outcome: LinkKey -> PushOutcome, t': Tables, k: LinkKey)
    requires Sound(t, o) && t' == PushPass(n, t, o, outcome)
    requires k in t'.links && k.origin == o.id && t'.links[k].owner == o.owner && t'.links[k].contact in t'.contacts
    requires t'.contacts[t'.links[k].contact].conflict != BothChanged
    ensures t'.links[k].localPrint == Some(Fingerprint(n, t'.contacts[t'.links[k].contact].fields))
  {
    PassOutcome(n, t, o, outcome, t', k);
  }
}

/** The contact tables, what one provider record does to them, and the laws
    every such step keeps. */
module ContactTables {
  import opened Options
  import opened ContactRecords

  /** contact_links is unique on (origin_id, source_id). */
  datatype LinkKey = LinkKey(origin: string, sourceId: string)

  datatype Link = Link(
    contact: nat, owner: string, etag: Option<string>, updatedAt: Option<string>,
    remotePrint: Option<Print>, localPrint: Option<Print>)

  /** A tombstone outlives the origin that wrote it: it is keyed by account. */
  datatype Tomb = Tomb(owner: string, provider: string, account: string, sourceId: string)

  /** The columns of an origin row that never change. */
  datatype Origin = Origin(id: string, owner: string, provider: string, account: string)

  /** `next` stands for gen_random_uuid: an id no row uses yet. */
  datatype Tables = Tables(
    contacts: map<nat, Contact>, links: map<LinkKey, Link>, tombs: set<Tomb>, next: nat)

  function TombOf(o: Origin, sourceId: string): Tomb {
    Tomb(o.owner, o.provider, o.account, sourceId)
  }

  function First(xs: seq<string>): Option<string> {
    if xs == [] then None else Some(xs[0])
  }

  // ------------------------------------------------------------ invariants

  /** What every reachable state of the tables satisfies: foreign keys and
      ownership hold, a contact is linked at most once per origin
      (contact_links_local), and no link has forgotten an agreement. */
  ghost predicate Inv(t: Tables) {
    && (forall c | c in t.contacts :: c < t.next)
    && (forall k | k in t.links :: LinkSound(t, t.links[k]))
    && (forall k, k' | k in t.links && k' in t.links && k.origin == k'.origin
       && t.links[k].contact == t.links[k'].contact :: k == k')
  }

  ghost predicate LinkSound(t: Tables, l: Link) {
    && l.contact in t.contacts && l.owner == t.contacts[l.contact].owner
    && l.remotePrint.Some? && l.localPrint.Some?
  }

  /** The links of an origin belong to the origin's owner. */
  ghost predicate Owns(t: Tables, o: Origin) {
    forall k | k in t.links && k.origin == o.id :: t.links[k].owner == o.owner
  }

  // ------------------------------------------------- one incoming record

  function Linked(t: Tables, k: LinkKey): Option<Contact> {
    if k in t.links && t.links[k].contact in t.contacts then Some(t.contacts[t.links[k].contact]) else None
  }

  function Decide(n: Normal, t: Tables, o: Origin, r: Remote): Action {
    var k := LinkKey(o.id, r.sourceId);
    DecideApply(n, r, Linked(t, k),
      if k in t.links then t.links[k].remotePrint else None,
      if k in t.links then t.links[k].localPrint else None,
      TombOf(o, r.sourceId) in t.tombs)
  }

  /** Each of the next functions is one statement of the transaction-free code. */
  function DropLink(t: Tables, k: LinkKey): Tables { t.(links := t.links - {k}) }

  function AddTomb(t: Tables, tomb: Tomb): Tables { t.(tombs := t.tombs + {tomb}) }

  function LinkedBy(t: Tables, c: nat): set<LinkKey> { set k | k in t.links && t.links[k].contact == c }

  /** Deleting a contact row cascades to the links that reference it. */
  function DropContact(t: Tables, c: nat, owner: string): Tables {
    if c in t.contacts && t.contacts[c].owner == owner then
      t.(contacts := t.contacts - {c}, links := t.links - LinkedBy(t, c))
    else t
  }

  function DropIfUnlinked(t: Tables, c: nat, owner: string): Tables {
    if LinkedBy(t, c) == {} then DropContact(t, c, owner) else t
  }

  function Flag(t: Tables, c: nat, owner: string): Tables {
    if c in t.contacts && t.contacts[c].owner == owner then
      t.(contacts := t.contacts[c := t.contacts[c].(conflict := BothChanged)])
    else t
  }

  function WriteRow(t: Tables, c: nat, o: Origin, r: Remote): Tables {
    if c in t.contacts && t.contacts[c].owner == o.owner then
      t.(contacts := t.contacts[c := t.contacts[c].(
          fields := r.fields, email := First(r.fields.emails), phone := First(r.fields.phones),
          conflict := NoConflict)])
    else t
  }

  function Touch(n: Normal, t: Tables, k: LinkKey, r: Remote): Tables {
    if k in t.links then
      var local := Linked(t, k);
      t.(links := t.links[k := t.links[k].(
          etag := r.etag, updatedAt := r.updatedAt, remotePrint := Some(Fingerprint(n, r.fields)),
          localPrint := Some(Fingerprint(n, if local.Some? then local.value.fields else r.fields)))])
    else t
  }

  /** Contact and link are inserted by one statement. */
  function Insert(n: Normal, t: Tables, o: Origin, r: Remote): Tables {
    var agreed := Some(Fingerprint(n, r.fields));
    t.(contacts := t.contacts[t.next := Contact(
          o.owner, r.fields, First(r.fields.emails), First(r.fields.phones),
          Provider(o.provider), Some(o.account), false, NoConflict)],
       links := t.links[LinkKey(o.id, r.sourceId) := Link(t.next, o.owner, r.etag, r.updatedAt, agreed, agreed)],
       next := t.next + 1)
  }

  /** What each action does to the tables. */
  function Effect(n: Normal, t: Tables, o: Origin, r: Remote, action: Action): Tables
    requires action in {Deleted, Conflicted, Updated} ==> LinkKey(o.id, r.sourceId) in t.links
  {
    var k := LinkKey(o.id, r.sourceId);
    match action
    case SkippedTombstoned => t
    case DeleteIgnored => t
    case Deleted =>
      var c := t.links[k].contact;
      DropIfUnlinked(AddTomb(DropLink(t, k), TombOf(o, r.sourceId)), c, o.owner)
    case Conflicted => Flag(t, t.links[k].contact, o.owner)
    case Unchanged =>
      if k in t.links && Linked(t, k).Some? && Fingerprint(n, r.fields) == Fingerprint(n, Linked(t, k).value.fields)
      then Touch(n, t, k, r) else t
    case Created => Insert(n, t, o, r)
    case Updated => Touch(n, WriteRow(t, t.links[k].contact, o, r), k, r)
  }

  /** applyRemote. */
  function Apply(n: Normal, t: Tables, o: Origin, r: Remote): Tables { Effect(n, t, o, r, Decide(n, t, o, r)) }

  /** A whole listing, record by record. */
  function Pass(n: Normal, t: Tables, o: Origin, rs: seq<Remote>): Tables {
    if rs == [] then t else Apply(n, Pass(n, t, o, rs[..|rs| - 1]), o, rs[|rs| - 1])
  }

  /** What a step of origin `o` may assume, and must leave behind. */
  ghost predicate Sound(t: Tables, o: Origin) { Inv(t) && Owns(t, o) }

  lemma InsertSound(n: Normal, t: Tables, o: Origin, r: Remote)
    requires Sound(t, o) && LinkKey(o.id, r.sourceId) !in t.links
    ensures Sound(Insert(n, t, o, r), o)
  {
  }

  lemma TouchSound(n: Normal, t: Tables, o: Origin, k: LinkKey, r: Remote)
    requires Sound(t, o)
    ensures Sound(Touch(n, t, k, r), o)
  {
  }

  /** Overwriting a contact row in place, keeping its owner. */
  lemma RowSound(t: Tables, o: Origin, c: nat, row: Contact)
    requires Sound(t, o) && c in t.contacts && row.owner == t.contacts[c].owner
    ensures Sound(t.(contacts := t.contacts[c := row]), o)
  {
  }

  lemma DropLinkSound(t: Tables, o: Origin, k: LinkKey)
    requires Sound(t, o)
    ensures Sound(DropLink(t, k), o)
  {
  }

  lemma DropContactSound(t: Tables, o: Origin, c: nat, owner: string)
    requires Sound(t, o)
    ensures Sound(DropContact(t, c, owner), o)
  {
  }

  lemma ApplyKeepsSound(n: Normal, t: Tables, o: Origin, r: Remote)
    requires Sound(t, o)
    ensures Sound(Apply(n, t, o, r), o)
  {
    var k := LinkKey(o.id, r.sourceId);
    match Decide(n, t, o, r)
    case SkippedTombstoned =>
    case DeleteIgnored =>
    case Deleted =>
      DropLinkSound(t, o, k);
      DropContactSound(AddTomb(DropLink(t, k), TombOf(o, r.sourceId)), o, t.links[k].contact, o.owner);
    case Conflicted =>
      RowSound(t, o, t.links[k].contact, t.contacts[t.links[k].contact].(conflict := BothChanged));
    case Unchanged => TouchSound(n, t, o, k, r);
    case Created => InsertSound(n, t, o, r);
    case Updated =>
      var c := t.links[k].contact;
      RowSound(t, o, c, WriteRow(t, c, o, r).contacts[c]);
      TouchSound(n, WriteRow(t, c, o, r), o, k, r);
  }

  /** What the tables say about the record afterwards. A created or updated contact
      holds the provider's values and both fingerprints agree on them; a deleted one
      is gone exactly when nothing else links it; otherwise no row comes or goes. */
  lemma ApplyOutcome(n: Normal, t: Tables, o: Origin, r: Remote)
    requires Sound(t, o)
    ensures var a, t', k := Decide(n, t, o, r), Apply(n, t, o, r), LinkKey(o.id, r.sourceId);
            && (a in {Created, Updated} ==>
                  && k in t'.links && Linked(t', k).Some?
                  && var l, c := t'.links[k], Linked(t', k).value;
                     && c.fields == r.fields && c.email == First(r.fields.emails) && c.phone == First(r.fields.phones)
                     && c.conflict == NoConflict && c.owner == l.owner == o.owner
                     && l.etag == r.etag && l.updatedAt == r.updatedAt
                     && l.remotePrint == l.localPrint == Some(Fingerprint(n, c.fields)))
            && (a == Created ==>
               ContactAt(t', k) !in t.contacts && t'.contacts.Keys == t.contacts.Keys + {ContactAt(t', k)})
            && (a == Deleted ==>
                  && k !in t'.links && TombOf(o, r.sourceId) in t'.tombs
                  && t'.contacts.Keys == if LinkedBy(t, ContactAt(t, k)) == {k} then t.contacts.Keys - {ContactAt(t, k)}
                     else t.contacts.Keys)
            && (a !in {Created, Deleted} ==> t'.contacts.Keys == t.contacts.Keys)
            && (a != Deleted ==> t'.tombs == t.tombs)
  {
    var k := LinkKey(o.id, r.sourceId);
    if Decide(n, t, o, r) == Deleted {
      var c, t1 := t.links[k].contact, AddTomb(DropLink(t, k), TombOf(o, r.sourceId));
      assert LinkedBy(t1, c) == LinkedBy(t, c) - {k} && k in LinkedBy(t, c);
    }
  }

  /** The contact a link leads to. */
  function ContactAt(t: Tables, k: LinkKey): nat { if k in t.links then t.links[k].contact else 0 }

  // -------------------------------------------------- no lost local edit

  /** Contact `c` differs from what this origin last agreed to. */
  ghost predicate EditedSince(n: Normal, t: Tables, o: Origin, c: nat)
    requires c in t.contacts
  {
    forall k | k in t.links && k.origin == o.id && t.links[k].contact == c ::
      t.links[k].localPrint != Some(Fingerprint(n, t.contacts[c].fields))
  }

  /** The actions the matrix can choose for a contact edited since its link agreed. */
  lemma EditedIsSpared(n: Normal, t: Tables, o: Origin, r: Remote)
    requires Sound(t, o) && LinkKey(o.id, r.sourceId) in t.links
    requires EditedSince(n, t, o, t.links[LinkKey(o.id, r.sourceId)].contact)
    ensures Decide(n, t, o, r) in {Unchanged, Conflicted}
  {
    assert LinkSound(t, t.links[LinkKey(o.id, r.sourceId)]);
  }

  /** No action but an update or a delete of the contact itself does more than flag it. */
  lemma EffectKeepsContact(n: Normal, t: Tables, o: Origin, r: Remote, action: Action, c: nat)
    requires action in {Deleted, Conflicted, Updated} ==> LinkKey(o.id, r.sourceId) in t.links
    requires c in t.contacts && c < t.next
    requires action in {Deleted, Updated} ==> t.links[LinkKey(o.id, r.sourceId)].contact != c
    ensures var t' := Effect(n, t, o, r, action);
            c in t'.contacts && t'.contacts[c] in {t.contacts[c], t.contacts[c].(conflict := BothChanged)}
  {
  }

  /** One record of an origin leaves every contact edited since that origin's
      last agreement in place with all it held; only the flag may be raised. */
  lemma PullKeepsLocalEdit(n: Normal, t: Tables, o: Origin, r: Remote, c: nat)
    requires Sound(t, o) && c in t.contacts && EditedSince(n, t, o, c)
    ensures var t' := Apply(n, t, o, r);
            c in t'.contacts && t'.contacts[c] in {t.contacts[c], t.contacts[c].(conflict := BothChanged)}
  {
    var k := LinkKey(o.id, r.sourceId);
    if k in t.links && t.links[k].contact == c { EditedIsSpared(n, t, o, r); }
    EffectKeepsContact(n, t, o, r, Decide(n, t, o, r), c);
  }

  /** The provider itself sent a record that equals the edit. */
  ghost predicate Echoed(n: Normal, rs: seq<Remote>, f: Fields) {
    exists r | r in rs :: !r.deleted && Fingerprint(n, r.fields) == Fingerprint(n, f)
  }

  /** Over a whole listing the edit survives as well, until the provider itself
      reports a record equal to it: only then are the two sides in agreement. */
  lemma {:induction false} PassKeepsLocalEdit(n: Normal, t: Tables, o: Origin, rs: seq<Remote>, c: nat)
    requires Sound(t, o) && c in t.contacts && EditedSince(n, t, o, c)
    requires !Echoed(n, rs, t.contacts[c].fields)
    ensures var t' := Pass(n, t, o, rs);
            && Sound(t', o) && c in t'.contacts && EditedSince(n, t', o, c)
            && t'.contacts[c] in {t.contacts[c], t.contacts[c].(conflict := BothChanged)}
  {
    if rs != [] {
      var before, last := rs[..|rs| - 1], rs[|rs| - 1];
      assert last in rs;
      PassKeepsLocalEdit(n, t, o, before, c);
      var t1 := Pass(n, t, o, before);
      ApplyKeepsSound(n, t1, o, last);
      PullKeepsLocalEdit(n, t1, o, last, c);
      StillEdited(n, t1, o, last, c);
    }
  }

  lemma StillEdited(n: Normal, t: Tables, o: Origin, r: Remote, c: nat)
    requires Sound(t, o) && c in t.contacts && EditedSince(n, t, o, c)
    requires !r.deleted ==> Fingerprint(n, r.fields) != Fingerprint(n, t.contacts[c].fields)
    requires c in Apply(n, t, o, r).contacts && Apply(n, t, o, r).contacts[c].fields == t.contacts[c].fields
    ensures EditedSince(n, Apply(n, t, o, r), o, c)
  {
  }

  /** One person's pull never reaches another person's contacts. */
  lemma PullStaysWithOwner(n: Normal, t: Tables, o: Origin, r: Remote)
    requires Sound(t, o)
    ensures var t' := Apply(n, t, o, r);
            && (forall c | c in t.contacts && t.contacts[c].owner != o.owner ::
                  c in t'.contacts && t'.contacts[c] == t.contacts[c])
            && (forall c | c in t'.contacts && c !in t.contacts :: t'.contacts[c].owner == o.owner)
  {
  }

  lemma EffectKeepsOtherLinks(n: Normal, t: Tables, o: Origin, r: Remote, action: Action, k: LinkKey)
    requires action in {Deleted, Conflicted, Updated} ==> LinkKey(o.id, r.sourceId) in t.links
    requires k != LinkKey(o.id, r.sourceId) && (k in t.links ==> t.links[k].contact in t.contacts)
    ensures k in t.links <==> k in Effect(n, t, o, r, action).links
    ensures k in t.links ==> Effect(n, t, o, r, action).links[k] == t.links[k]
  {
  }

  /** A record moves no link but its own. */
  lemma PullKeepsOtherLinks(n: Normal, t: Tables, o: Origin, r: Remote, k: LinkKey)
    requires Sound(t, o) && k != LinkKey(o.id, r.sourceId)
    ensures k in t.links <==> k in Apply(n, t, o, r).links
    ensures k in t.links ==> Apply(n, t, o, r).links[k] == t.links[k]
  {
    if k in t.links { assert LinkSound(t, t.links[k]); }
    EffectKeepsOtherLinks(n, t, o, r, Decide(n, t, o, r), k);
  }

}

/** Delivering a record again: what is settled stays settled, and what a stop
    inside one record's statements costs. */
module ContactReplay {
  import opened Options
  import opened ContactRecords
  import opened ContactTables

  /** Delivering the record again would change nothing. Stated on the record's
      own link, contact and tombstone only. */
  ghost predicate Settled(n: Normal, t: Tables, o: Origin, r: Remote) {
    var k := LinkKey(o.id, r.sourceId);
    match Decide(n, t, o, r)
    case SkippedTombstoned => true
    case DeleteIgnored => true
    case Conflicted => k in t.links && t.links[k].contact in t.contacts
        && t.contacts[t.links[k].contact].conflict == BothChanged
    case Unchanged =>
      && k in t.links && t.links[k].contact in t.contacts
      && (Fingerprint(n, r.fields) == Fingerprint(n, t.contacts[t.links[k].contact].fields) ==>
            && t.links[k].etag == r.etag && t.links[k].updatedAt == r.updatedAt
            && t.links[k].remotePrint == t.links[k].localPrint == Some(Fingerprint(n, r.fields)))
    case _ => false
  }

  /** A settled record is a fixed point of delivery, and nothing else is. */
  lemma SettledIffFixed(n: Normal, t: Tables, o: Origin, r: Remote)
    requires Sound(t, o)
    ensures Settled(n, t, o, r) <==> Apply(n, t, o, r) == t
  {
  }

  lemma InsertSettles(n: Normal, t: Tables, o: Origin, r: Remote)
    requires !r.deleted
    ensures Settled(n, Insert(n, t, o, r), o, r)
  {
  }

  lemma TouchSettles(n: Normal, t: Tables, o: Origin, r: Remote)
    requires !r.deleted && LinkKey(o.id, r.sourceId) in t.links
    requires t.links[LinkKey(o.id, r.sourceId)].contact in t.contacts
    ensures Settled(n, Touch(n, t, LinkKey(o.id, r.sourceId), r), o, r)
  {
  }

  lemma DeleteSettles(n: Normal, t: Tables, o: Origin, r: Remote, t': Tables)
    requires r.deleted && LinkKey(o.id, r.sourceId) !in t'.links
    ensures Settled(n, t', o, r)
  {
  }

  lemma FlagSettles(n: Normal, t: Tables, o: Origin, r: Remote)
    requires Sound(t, o) && Decide(n, t, o, r) == Conflicted
    ensures Settled(n, Flag(t, t.links[LinkKey(o.id, r.sourceId)].contact, o.owner), o, r)
  {
    assert LinkSound(t, t.links[LinkKey(o.id, r.sourceId)]);
  }

  /** Applying a record settles it. */
  lemma ApplySettles(n: Normal, t: Tables, o: Origin, r: Remote)
    requires Sound(t, o)
    ensures Settled(n, Apply(n, t, o, r), o, r)
  {
    var k := LinkKey(o.id, r.sourceId);
    match Decide(n, t, o, r)
    case Created => InsertSettles(n, t, o, r);
    case Updated => TouchSettles(n, WriteRow(t, t.links[k].contact, o, r), o, r);
    case Unchanged => if Apply(n, t, o, r) != t { TouchSettles(n, t, o, r); }
    case Deleted => DeleteSettles(n, t, o, r, Apply(n, t, o, r));
    case Conflicted => FlagSettles(n, t, o, r);
    case _ =>
  }

  /** Two tables that look alike to one source id of an origin. */
  ghost predicate SameView(t: Tables, t': Tables, o: Origin, sourceId: string) {
    var k := LinkKey(o.id, sourceId);
    && (k in t.links <==> k in t'.links)
    && (k in t.links ==> t.links[k] == t'.links[k] && Linked(t, k) == Linked(t', k))
    && (TombOf(o, sourceId) in t.tombs <==> TombOf(o, sourceId) in t'.tombs)
  }

  lemma PullKeepsOtherTombs(n: Normal, t: Tables, o: Origin, r: Remote, other: string)
    requires other != r.sourceId
    ensures TombOf(o, other) in t.tombs <==> TombOf(o, other) in Apply(n, t, o, r).tombs
  {
  }

  /** A contact that the record's link does not lead to is left alone. */
  lemma PullKeepsOtherContact(n: Normal, t: Tables, o: Origin, r: Remote, c: nat)
    requires c in t.contacts && c < t.next
    requires LinkKey(o.id, r.sourceId) in t.links ==> t.links[LinkKey(o.id, r.sourceId)].contact != c
    ensures c in Apply(n, t, o, r).contacts && Apply(n, t, o, r).contacts[c] == t.contacts[c]
  {
  }

  /** A record is invisible to every other source id of the same origin: it
      works on another contact, because an origin links a contact only once. */
  lemma ApplyInvisibleToOthers(n: Normal, t: Tables, o: Origin, r: Remote, other: string)
    requires Sound(t, o) && other != r.sourceId
    ensures SameView(t, Apply(n, t, o, r), o, other)
  {
    PullKeepsOtherLinks(n, t, o, r, LinkKey(o.id, other));
    PullKeepsOtherTombs(n, t, o, r, other);
    var k := LinkKey(o.id, other);
    if k in t.links {
      assert LinkSound(t, t.links[k]);
      PullKeepsOtherContact(n, t, o, r, t.links[k].contact);
    }
  }

  ghost predicate DistinctSources(rs: seq<Remote>) {
    forall i, j | 0 <= i < j < |rs| :: rs[i].sourceId != rs[j].sourceId
  }

  /** After a listing with distinct source ids, every record in it is settled. */
  lemma {:induction false} PassSettles(n: Normal, t: Tables, o: Origin, rs: seq<Remote>)
    requires Sound(t, o) && DistinctSources(rs)
    ensures Sound(Pass(n, t, o, rs), o)
    ensures forall i | 0 <= i < |rs| :: Settled(n, Pass(n, t, o, rs), o, rs[i])
  {
    if rs != [] {
      var before, last := rs[..|rs| - 1], rs[|rs| - 1];
      PassSettles(n, t, o, before);
      var t1 := Pass(n, t, o, before);
      ApplyKeepsSound(n, t1, o, last);
      ApplySettles(n, t1, o, last);
      forall i | 0 <= i < |rs| - 1 ensures Settled(n, Pass(n, t, o, rs), o, rs[i]) {
        assert Settled(n, t1, o, before[i]);
        ApplyInvisibleToOthers(n, t1, o, last, rs[i].sourceId);
      }
    }
  }

  // ------------------------------------------ stopping inside one record

  /** Stopping after the row was rewritten but before its link was touched is
      repaired by the next delivery, whatever the rest of the tables hold. */
  lemma StopInsideUpdateRepaired(n: Normal, t: Tables, o: Origin, r: Remote)
    requires Sound(t, o) && Decide(n, t, o, r) == Updated
    ensures var half := WriteRow(t, t.links[LinkKey(o.id, r.sourceId)].contact, o, r);
            Sound(half, o) && Apply(n, half, o, r) == Apply(n, t, o, r)
  {
  }

  /** The tables when a delete stops after its first or second statement. */
  function DeleteStopped(t: Tables, o: Origin, r: Remote, statements: nat): Tables
  {
    var t1 := DropLink(t, LinkKey(o.id, r.sourceId));
    if statements == 0 then t else if statements == 1 then t1 else AddTomb(t1, TombOf(o, r.sourceId))
  }

  /** A whole delete, by whether another link keeps the contact. */
  lemma WholeDelete(n: Normal, t: Tables, o: Origin, r: Remote, c: nat)
    requires Sound(t, o) && Decide(n, t, o, r) == Deleted && c == t.links[LinkKey(o.id, r.sourceId)].contact
    ensures c in t.contacts
    ensures LinkedBy(t, c) != {LinkKey(o.id, r.sourceId)} ==> Apply(n, t, o, r) == DeleteStopped(t, o, r, 2)
    ensures LinkedBy(t, c) == {LinkKey(o.id, r.sourceId)} ==> c !in Apply(n, t, o, r).contacts
  {
    var k := LinkKey(o.id, r.sourceId);
    assert LinkSound(t, t.links[k]);
    var t1 := AddTomb(DropLink(t, k), TombOf(o, r.sourceId));
    assert LinkedBy(t1, c) == LinkedBy(t, c) - {k} && k in LinkedBy(t, c);
  }

  /** A second delivery finds no link any more. */
  lemma StoppedIgnores(n: Normal, t: Tables, o: Origin, r: Remote, statements: nat)
    requires r.deleted && 1 <= statements <= 2
    ensures var t' := DeleteStopped(t, o, r, statements); Apply(n, t', o, r) == t' && t'.contacts == t.contacts
  {
  }

  /** A delete is not repaired in general: the link that led to the contact is
      gone, so a second delivery is ignored. It ends where an uninterrupted
      delete ends exactly when another link keeps the contact and, before the
      tombstone is written, the account already had one. */
  lemma StopInsideDeleteRepairedIff(n: Normal, t: Tables, o: Origin, r: Remote, statements: nat)
    requires Sound(t, o) && Decide(n, t, o, r) == Deleted
    requires 1 <= statements <= 2
    ensures var k := LinkKey(o.id, r.sourceId);
            Apply(n, DeleteStopped(t, o, r, statements), o, r) == Apply(n, t, o, r) <==>
              && LinkedBy(t, t.links[k].contact) != {k}
              && (statements == 1 ==> TombOf(o, r.sourceId) in t.tombs)
  {
    WholeDelete(n, t, o, r, t.links[LinkKey(o.id, r.sourceId)].contact);
    StoppedIgnores(n, t, o, r, statements);
    var tomb := TombOf(o, r.sourceId);
    assert tomb in t.tombs <==> t.tombs + {tomb} == t.tombs;
  }

  // ------------------------------------------------------------ agreeing

  /** Touching a link is an agreement: neither side counts as changed any more. The
      contact is not an edited one, the same record changes nothing from now on, and
      its deletion is applied unless the contact is the person's own. */
  lemma TouchAgrees(n: Normal, t: Tables, o: Origin, r: Remote)
    requires Sound(t, o) && LinkKey(o.id, r.sourceId) in t.links
    ensures var k, t' := LinkKey(o.id, r.sourceId), Touch(n, t, LinkKey(o.id, r.sourceId), r);
            && Sound(t', o) && t'.contacts == t.contacts && t'.tombs == t.tombs
            && !EditedSince(n, t', o, t.links[k].contact)
            && (!r.deleted ==> Decide(n, t', o, r) == Unchanged && Apply(n, t', o, r) == t')
            && (r.deleted ==>
                  (Decide(n, t', o, r) == Deleted <==>
                      Linked(t, k).value.source.Provider? && !Linked(t, k).value.hasNotes))
            && forall k' | k' in t.links && k' != k :: t'.links[k'] == t.links[k']
  {
    var k := LinkKey(o.id, r.sourceId);
    TouchSound(n, t, o, k, r);
    assert LinkSound(t, t.links[k]);
    var t' := Touch(n, t, k, r);
    assert k in t'.links && t'.links[k].contact == t.links[k].contact && Linked(t', k) == Linked(t, k);
    if !r.deleted { assert t'.links[k := t'.links[k]] == t'.links; }
  }

  /** A tombstone speaks for the account, not for the origin that wrote it: every
      origin of that account that has no link skips the record from then on, and
      writing it a second time changes nothing. */
  lemma TombstoneSpeaksForAccount(n: Normal, t: Tables, o: Origin, other: Origin, r: Remote)
    requires other.owner == o.owner && other.provider == o.provider && other.account == o.account
    requires LinkKey(other.id, r.sourceId) !in t.links
    ensures var t' := AddTomb(t, TombOf(o, r.sourceId));
            && Buried(t', other, r.sourceId) && Apply(n, t', other, r) == t'
            && (!r.deleted ==> Decide(n, t', other, r) == SkippedTombstoned)
            && AddTomb(t', TombOf(other, r.sourceId)) == t'
  {
  }

  // ------------------------------------------------------ no resurrection

  /** The record was deleted for this account and this origin no longer links it. */
  ghost predicate Buried(t: Tables, o: Origin, sourceId: string) {
    TombOf(o, sourceId) in t.tombs && LinkKey(o.id, sourceId) !in t.links
  }

  /** No record of any origin, this one included, brings a buried one back. */
  lemma ApplyKeepsBuried(n: Normal, t: Tables, puller: Origin, r: Remote, o: Origin, sourceId: string)
    requires puller.id == o.id ==> puller == o
    requires Buried(t, o, sourceId)
    ensures Buried(Apply(n, t, puller, r), o, sourceId)
    ensures puller == o && r.sourceId == sourceId ==> Apply(n, t, puller, r) == t
  {
  }

  /** An applied delete buries the record for good. */
  lemma DeleteBuries(n: Normal, t: Tables, o: Origin, r: Remote)
    requires Sound(t, o) && Decide(n, t, o, r) == Deleted
    ensures Buried(Apply(n, t, o, r), o, r.sourceId)
  {
  }
}

/** What becomes of a record from the provider, told by the link and the contact it finds. */
module ContactArrival {
  import opened Options
  import opened ContactRecords
  import opened ContactTables

  function Head(xs: seq<string>): Option<string> { if xs == [] then None else Some(xs[0]) }

  /** The contact with the provider's values, its first address of each kind the primary. */
  function Imported(row: Contact, f: Fields): Contact {
    row.(fields := f, email := Head(f.emails), phone := Head(f.phones), conflict := NoConflict)
  }

  function AgreedOn(l: Link, r: Remote, p: Print): Link {
    l.(etag := r.etag, updatedAt := r.updatedAt, remotePrint := Some(p), localPrint := Some(p))
  }

  lemma LinkedDecision(n: Normal, t: Tables, o: Origin, r: Remote, k: LinkKey, l: Link, row: Contact)
    requires k == LinkKey(o.id, r.sourceId) && k in t.links && l == t.links[k] && l.contact in t.contacts
    requires row == t.contacts[l.contact] && !r.deleted && l.remotePrint.Some? && l.localPrint.Some?
    ensures var there, here := Fingerprint(n, r.fields), Fingerprint(n, row.fields);
            var moved := there != here && Some(there) != l.remotePrint;
            && (moved && Some(here) == l.localPrint <==> Decide(n, t, o, r) == Updated)
            && (moved && Some(here) != l.localPrint <==> Decide(n, t, o, r) == Conflicted)
            && (!moved <==> Decide(n, t, o, r) == Unchanged)
  {
  }

  /** A change made at the provider arrives. Of a linked contact, with the record as it is
      there now, as it was there when both last agreed, and the contact as it is here:
      a record that differs from both is imported into a contact that nobody edited, and
      a conflict with one that somebody did; any other record leaves the contact alone. */
  lemma LinkedRecordArrives(n: Normal, t: Tables, o: Origin, r: Remote, k: LinkKey, l: Link, row: Contact)
    requires Sound(t, o) && k == LinkKey(o.id, r.sourceId) && k in t.links && l == t.links[k]
    requires l.contact in t.contacts && row == t.contacts[l.contact] && !r.deleted
    ensures var t' := Apply(n, t, o, r);
            var there, here := Fingerprint(n, r.fields), Fingerprint(n, row.fields);
            var moved, edited := there != here && Some(there) != l.remotePrint, Some(here) != l.localPrint;
            && t'.tombs == t.tombs
            && (moved && !edited ==>
                  && t'.contacts == t.contacts[l.contact := Imported(row, r.fields)]
                  && t'.links == t.links[k := AgreedOn(l, r, there)])
            && (moved && edited ==>
                  t'.contacts == t.contacts[l.contact := row.(conflict := BothChanged)] && t'.links == t.links)
            && (!moved && there == here ==>
                  t'.contacts == t.contacts && t'.links == t.links[k := AgreedOn(l, r, there)])
            && (!moved && there != here ==> t'.contacts == t.contacts && t'.links == t.links)
  {
    assert LinkSound(t, l);
    LinkedDecision(n, t, o, r, k, l, row);
    LinkedEffect(n, t, o, r, k, l, row);
  }

  lemma LinkedEffect(n: Normal, t: Tables, o: Origin, r: Remote, k: LinkKey, l: Link, row: Contact)
    requires k == LinkKey(o.id, r.sourceId) && k in t.links && l == t.links[k] && l.contact in t.contacts
    requires row == t.contacts[l.contact] && row.owner == o.owner
    ensures Effect(n, t, o, r, Updated) ==
            t.(contacts := t.contacts[l.contact := Imported(row, r.fields)],
               links := t.links[k := AgreedOn(l, r, Fingerprint(n, r.fields))])
    ensures Effect(n, t, o, r, Conflicted) == t.(contacts := t.contacts[l.contact := row.(conflict := BothChanged)])
    ensures Effect(n, t, o, r, Unchanged) ==
            if Fingerprint(n, r.fields) == Fingerprint(n, row.fields) then
              t.(links := t.links[k := AgreedOn(l, r, Fingerprint(n, r.fields))])
            else t
  {
  }

  /** A record without a link: skipped if the account has a tombstone for it, else a new
      contact of the origin's owner with the provider's values and where they are from. */
  lemma NewRecordArrives(n: Normal, t: Tables, o: Origin, r: Remote, k: LinkKey)
    requires k == LinkKey(o.id, r.sourceId) && k !in t.links && !r.deleted
    ensures var t' := Apply(n, t, o, r); var p := Some(Fingerprint(n, r.fields));
            if Tomb(o.owner, o.provider, o.account, r.sourceId) in t.tombs then t' == t
            else
              && t'.tombs == t.tombs
              && t'.contacts == t.contacts[t.next := Contact(
                   o.owner, r.fields, Head(r.fields.emails), Head(r.fields.phones), Provider(o.provider),
                   Some(o.account), false, NoConflict)]
              && t'.links == t.links[k := Link(t.next, o.owner, r.etag, r.updatedAt, p, p)]
  {
  }

  /** A deletion at the provider: ignored without a link; a conflict if the contact is the
      person's own, has notes or was edited since; else the link goes for a tombstone, and
      with it the contact unless another link keeps it. */
  lemma DeletionArrives(n: Normal, t: Tables, o: Origin, r: Remote, k: LinkKey)
    requires Sound(t, o) && k == LinkKey(o.id, r.sourceId) && r.deleted
    ensures var t' := Apply(n, t, o, r);
            && (k !in t.links ==> t' == t)
            && (k in t.links ==>
                  var l := t.links[k];
                  l.contact in t.contacts &&
                  var row := t.contacts[l.contact];
                  var spared := row.source.Josi? || row.hasNotes || l.localPrint != Some(Fingerprint(n, row.fields));
                  var kept := exists k' | k' in t.links :: k' != k && t.links[k'].contact == l.contact;
                  && (spared ==> t' == t.(contacts := t.contacts[l.contact := row.(conflict := BothChanged)]))
                  && (!spared ==>
                        && t'.links == t.links - {k}
                        && t'.tombs == t.tombs + {Tomb(o.owner, o.provider, o.account, r.sourceId)}
                        && t'.contacts == if kept then t.contacts else t.contacts - {l.contact}))
  {
    if k in t.links {
      assert LinkSound(t, t.links[k]);
      DeletionDecision(n, t, o, r, k);
      var c, dropped := t.links[k].contact, AddTomb(DropLink(t, k), TombOf(o, r.sourceId));
      assert LinkedBy(dropped, c) == LinkedBy(t, c) - {k};
      if exists k' | k' in t.links :: k' != k && t.links[k'].contact == c {
        var k' :| k' in t.links && k' != k && t.links[k'].contact == c;
        assert k' in LinkedBy(dropped, c);
      } else {
        assert LinkedBy(dropped, c) == {};
      }
    }
  }

  lemma DeletionDecision(n: Normal, t: Tables, o: Origin, r: Remote, k: LinkKey)
    requires k == LinkKey(o.id, r.sourceId) && k in t.links && t.links[k].contact in t.contacts && r.deleted
    requires t.links[k].localPrint.Some?
    ensures var row := t.contacts[t.links[k].contact];
            Decide(n, t, o, r) ==
              if row.source.Josi? || row.hasNotes || t.links[k].localPrint != Some(Fingerprint(n, row.fields))
              then Conflicted else Deleted
  {
  }
}

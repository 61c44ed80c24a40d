/** Contacts, links and provider records, the fingerprint that says whether two
    of them agree, and the decision taken for one incoming record. */
module ContactRecords {
  import opened Options

  /** The part of a contact that is synchronised. */
  datatype Fields = Fields(name: Option<string>, emails: seq<string>, phones: seq<string>)

  /** A provider's description of one contact, or of its deletion. */
  datatype Remote = Remote(
    sourceId: string, fields: Fields, etag: Option<string>, updatedAt: Option<string>, deleted: bool)

  datatype Source = Josi | Provider(name: string)

  datatype Conflict = Unset | NoConflict | BothChanged

  /** One row of contacts. `hasNotes` is whether the notes object has any key. */
  datatype Contact = Contact(
    owner: string, fields: Fields, email: Option<string>, phone: Option<string>,
    source: Source, account: Option<string>, hasNotes: bool, conflict: Conflict)

  /** The normalisation applied before hashing: name folding, email folding,
      phone folding. The proofs hold for every choice of the three. */
  datatype Normal = Normal(name: string -> string, email: string -> string, phone: string -> string)

  /** What the hash is taken of. Sorting a duplicate-free array is a set, and the
      hash itself is taken to be injective. */
  datatype Print = Print(name: string, emails: set<string>, phones: set<string>)

  function Fingerprint(n: Normal, f: Fields): Print {
    Print(
      n.name(if f.name.Some? then f.name.value else ""),
      set e | e in f.emails :: n.email(e),
      set p | p in f.phones :: n.phone(p))
  }

  /** Every value of `a` has a counterpart in `b` under the normaliser. */
  ghost predicate Covered(fold: string -> string, a: seq<string>, b: seq<string>) {
    forall x | x in a :: exists y | y in b :: fold(x) == fold(y)
  }

  /** A provider that reorders, repeats or re-cases values has changed nothing,
      and anything else is a change. */
  lemma FingerprintAgreement(n: Normal, a: Fields, b: Fields)
    ensures Fingerprint(n, a) == Fingerprint(n, b) <==>
            && n.name(if a.name.Some? then a.name.value else "") == n.name(if b.name.Some? then b.name.value else "")
            && Covered(n.email, a.emails, b.emails) && Covered(n.email, b.emails, a.emails)
            && Covered(n.phone, a.phones, b.phones) && Covered(n.phone, b.phones, a.phones)
  {
    CoveredBothWays(n.email, a.emails, b.emails);
    CoveredBothWays(n.phone, a.phones, b.phones);
  }

  lemma CoveredBothWays(fold: string -> string, a: seq<string>, b: seq<string>)
    ensures (set x | x in a :: fold(x)) == (set x | x in b :: fold(x))
            <==> Covered(fold, a, b) && Covered(fold, b, a)
  {
    var sa, sb := (set x | x in a :: fold(x)), (set x | x in b :: fold(x));
    if sa == sb {
      forall x | x in a ensures exists y | y in b :: fold(x) == fold(y) {
        assert fold(x) in sb;
      }
      forall x | x in b ensures exists y | y in a :: fold(x) == fold(y) {
        assert fold(x) in sa;
      }
    }
  }

  datatype Action = Created | Updated | Unchanged | Conflicted | Deleted | DeleteIgnored | SkippedTombstoned

  /** What should happen to one incoming record. */
  function DecideApply(
    n: Normal, remote: Remote, linked: Option<Contact>,
    lastRemote: Option<Print>, lastLocal: Option<Print>, tombstoned: bool): Action
  {
    if remote.deleted then
      if linked.None? then DeleteIgnored
      else if linked.value.source.Josi? || linked.value.hasNotes ||
              (lastLocal.Some? && Fingerprint(n, linked.value.fields) != lastLocal.value) then Conflicted
      else Deleted
    else if tombstoned && linked.None? then SkippedTombstoned
    else if linked.None? then Created
    else
      var remoteNow := Fingerprint(n, remote.fields);
      var localNow := Fingerprint(n, linked.value.fields);
      var remoteChanged := lastRemote.Some? && remoteNow != lastRemote.value;
      var localChanged := lastLocal.Some? && localNow != lastLocal.value;
      if remoteNow == localNow then Unchanged
      else if remoteChanged && localChanged then Conflicted
      else if remoteChanged || lastRemote.None? then Updated
      else Unchanged
  }

  /** The matrix protects a local edit exactly when the link remembers both
      agreements: for a record that disagrees with an edited contact, a missing
      fingerprint on either side lets some record overwrite or delete it. */
  lemma MatrixSafeIffBothAgreementsKnown(
      n: Normal, local: Contact, lastRemote: Option<Print>, lastLocal: Option<Print>, probe: Remote)
    requires local.source.Provider? && !local.hasNotes
    requires lastLocal != Some(Fingerprint(n, local.fields))
    requires !probe.deleted && Fingerprint(n, probe.fields) != Fingerprint(n, local.fields)
    ensures lastRemote.Some? && lastLocal.Some? <==>
            forall r: Remote, t: bool :: DecideApply(n, r, Some(local), lastRemote, lastLocal, t) !in {Updated, Deleted}
  {
    if lastRemote.None? {
      assert DecideApply(n, probe, Some(local), lastRemote, lastLocal, false) == Updated;
    }
    if lastLocal.None? {
      assert DecideApply(n, probe.(deleted := true), Some(local), lastRemote, lastLocal, false) == Deleted;
    }
  }
}

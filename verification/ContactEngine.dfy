/** The sync engine over its mutable tables. Every method is specified by the
    functions the theorems are about. */
module ContactEngine {
  import opened Options
  import opened ContactRecords
  import opened ContactTables
  import opened ContactMerge
  import opened ContactRuns
  import opened ContactDrive

  /** What the connection and capability checks come to at the moment of use. */
  datatype Access = Granted | RevokedConnection | MissingScope

  class SyncEngine {
    const n: Normal
    var contacts: map<nat, Contact>
    var links: map<LinkKey, Link>
    var tombs: set<Tomb>
    var next: nat
    var rows: map<string, Row>

    constructor (n: Normal)
      ensures this.n == n && World(T(), rows, map[]) == EMPTY_WORLD
    {
      this.n := n;
      contacts, links, tombs, next, rows := map[], map[], {}, 0, map[];
    }

    ghost function T(): Tables reads this { Tables(contacts, links, tombs, next) }

    /** recordTombstone: inserting a row that exists changes nothing. */
    method RecordTombstone(o: Origin, sourceId: string)
      modifies this`tombs
      ensures T() == AddTomb(old(T()), TombOf(o, sourceId))
    {
      tombs := tombs + {TombOf(o, sourceId)};
    }

    /** touchLink: both agreements move forward together. */
    method TouchLink(k: LinkKey, r: Remote, local: Option<Contact>)
      requires local == Linked(T(), k)
      modifies this`links
      ensures T() == Touch(n, old(T()), k, r)
    {
      if k in links {
        links := links[k := links[k].(
          etag := r.etag, updatedAt := r.updatedAt, remotePrint := Some(Fingerprint(n, r.fields)),
          localPrint := Some(Fingerprint(n, if local.Some? then local.value.fields else r.fields)))];
      }
    }

    method LoadContact(k: LinkKey) returns (linked: Option<Contact>)
      ensures linked == Linked(T(), k)
    {
      linked := if k in links && links[k].contact in contacts then Some(contacts[links[k].contact]) else None;
    }

    method DeleteContact(c: nat, owner: string)
      modifies this`contacts, this`links
      ensures T() == DropContact(old(T()), c, owner)
    {
      if c in contacts && contacts[c].owner == owner {
        contacts := contacts - {c};
        links := links - (set k | k in links && links[k].contact == c);
      }
    }

    /** applyRemote. The touched contact is reported for everything that leaves one in place. */
    method ApplyRemote(o: Origin, r: Remote) returns (action: Action, touched: Option<nat>)
      modifies this`contacts, this`links, this`tombs, this`next
      ensures action == Decide(n, old(T()), o, r)
      ensures T() == Apply(n, old(T()), o, r)
      ensures touched.Some? <==> action in {Created, Updated, Unchanged, Conflicted}
      ensures touched.Some? ==>
                LinkKey(o.id, r.sourceId) in links && links[LinkKey(o.id, r.sourceId)].contact == touched.value
    {
      var k := LinkKey(o.id, r.sourceId);
      var linked := LoadContact(k);
      action := DecideApply(n, r, linked,
        if k in links then links[k].remotePrint else None, if k in links then links[k].localPrint else None,
        TombOf(o, r.sourceId) in tombs);
      touched := None;
      match action {
        case SkippedTombstoned =>
        case DeleteIgnored =>
        case Deleted =>
          var c := links[k].contact;
          links := links - {k};
          RecordTombstone(o, r.sourceId);
          if (set l | l in links && links[l].contact == c) == {} {
            DeleteContact(c, o.owner);
          }
        case Conflicted =>
          var c := links[k].contact;
          if contacts[c].owner == o.owner {
            contacts := contacts[c := contacts[c].(conflict := BothChanged)];
          }
          touched := Some(c);
        case Unchanged =>
          if Fingerprint(n, r.fields) == Fingerprint(n, linked.value.fields) {
            TouchLink(k, r, linked);
          }
          touched := Some(links[k].contact);
        case Created =>
          var agreed := Some(Fingerprint(n, r.fields));
          contacts := contacts[next := Contact(
            o.owner, r.fields, First(r.fields.emails), First(r.fields.phones),
            Provider(o.provider), Some(o.account), false, NoConflict)];
          links := links[k := Link(next, o.owner, r.etag, r.updatedAt, agreed, agreed)];
          touched := Some(next);
          next := next + 1;
        case Updated =>
          var c := links[k].contact;
          if contacts[c].owner == o.owner {
            contacts := contacts[c := contacts[c].(
              fields := r.fields, email := First(r.fields.emails), phone := First(r.fields.phones),
                  conflict := NoConflict)];
          }
          var local := LoadContact(k);
          TouchLink(k, r, local);
          touched := Some(c);
      }
    }

    /** mergeContacts. */
    method MergeContacts(owner: string, keep: nat, merge: nat) returns (ok: bool)
      modifies this`contacts, this`links
      ensures ok == Merge(old(T()), owner, keep, merge).Some?
      ensures T() == if ok then Merge(old(T()), owner, keep, merge).value else old(T())
    {
      ok := keep in contacts && merge in contacts && contacts[keep].owner == owner && contacts[merge].owner == owner;
      if ok {
        contacts := contacts[keep := Folded(contacts[keep], contacts[merge])];
        var linkedOrigins := set k | k in links && links[k].contact == keep :: k.origin;
        ghost var was := old(T());
        assert forall origin :: LinkedIn(was, origin, keep) <==> origin in linkedOrigins;
        links := map k | k in links ::
          if links[k].contact == merge && k.origin !in linkedOrigins then links[k].(contact := keep) else links[k];
        assert links == Moved(was, keep, merge);
        DeleteContact(merge, owner);
      }
    }

    /** failOrigin. */
    method FailOrigin(id: string, revoked: bool)
      modifies this`rows
      ensures World(T(), rows, map[]) == FailRow(old(World(T(), rows, map[])), id, revoked)
    {
      if id in rows {
        rows := rows[id := rows[id].(status := if revoked then Disconnected else Failing, page := None)];
      }
    }

    method PushLocalChange(o: Origin, k: LinkKey, outcome: PushOutcome)
      modifies this`contacts, this`links
      ensures T() == Push(n, old(T()), o, k, outcome)
    {
      var local := LoadContact(k);
      if k.origin != o.id || local.None? { return; }
      var now := Some(Fingerprint(n, local.value.fields));
      if links[k].localPrint == now { return; }
      match outcome {
        case Written(etag, fields) =>
          links := links[k := links[k].(etag := etag, remotePrint := Some(Fingerprint(n, fields)), localPrint := now)];
        case Precondition =>
          var c := links[k].contact;
          if contacts[c].owner == o.owner {
            contacts := contacts[c := contacts[c].(conflict := BothChanged)];
          }
      }
    }

    /** One page, record by record. */
    method ApplyPage(o: Origin, rs: seq<Remote>)
      modifies this`contacts, this`links, this`tombs, this`next
      ensures T() == ApplyAll(n, old(T()), o, rs)
    {
      for i := 0 to |rs|
        invariant ApplyAll(n, T(), o, rs[i..]) == ApplyAll(n, old(T()), o, rs)
      {
        var _, _ := ApplyRemote(o, rs[i]);
      }
    }

    /** The query of the push pass. */
    method AskLinks(o: Origin) returns (todo: set<LinkKey>)
      ensures todo == LinksToPush(T(), o)
    {
      todo := set k | k in links && k.origin == o.id && links[k].owner == o.owner
                      && links[k].contact in contacts && contacts[links[k].contact].conflict != BothChanged;
    }

    /** pushLocalChanges: every link asked for when the pass begins, in whatever order. */
    method PushLocalChanges(o: Origin, outcome: LinkKey -> PushOutcome)
      modifies this`contacts, this`links
      ensures T() == PushPass(n, old(T()), o, outcome)
    {
      var todo := AskLinks(o);
      ghost var was, done := T(), {};
      NothingPushed(n, was, o, outcome);
      while todo != {}
        invariant done + todo == LinksToPush(was, o) && done !! todo
        invariant T() == Pushed(n, was, o, done, outcome)
        decreases todo
      {
        var k :| k in todo;
        PushNext(o, k, outcome, was, done);
        todo, done := todo - {k}, done + {k};
      }
    }

    /** One link of the pass, after those in `done`. */
    method PushNext(o: Origin, k: LinkKey, outcome: LinkKey -> PushOutcome, ghost was: Tables, ghost done: set<LinkKey>)
      requires T() == Pushed(n, was, o, done, outcome) && k !in done && k in was.links && k.origin == o.id
      modifies this`contacts, this`links
      ensures T() == Pushed(n, was, o, done + {k}, outcome)
    {
      PushOneMore(n, was, o, done, outcome, k);
      PushLocalChange(o, k, outcome(k));
    }

    /** The records of one page, then its checkpoint or the way out of the loop. */
    method ReadPage(id: string, o: Origin, listing: Page, was: Option<Cursor>)
      returns (page: Option<Cursor>, delta: Option<Cursor>, finished: bool)
      requires id in rows
      modifies this`contacts, this`links, this`tombs, this`next, this`rows
      ensures T() == ApplyAll(n, old(T()), o, listing.contacts) && page == listing.nextPage && finished == page.None?
      ensures rows == if page.Some? then old(rows)[id := old(rows)[id].(page := page)] else old(rows)
      ensures delta == if finished && listing.nextDelta.Some? then listing.nextDelta else was
    {
      ApplyPage(o, listing.contacts);
      page, delta, finished := listing.nextPage, was, false;
      if page.Some? {
        rows := rows[id := rows[id].(page := page)];
      } else {
        if listing.nextDelta.Some? { delta := listing.nextDelta; }
        finished := true;
      }
    }

    /** The page loop of syncOrigin. */
    method ReadPages(
        id: string, maxPages: nat, answers: seq<Answer>)
        returns (page: Option<Cursor>, delta: Option<Cursor>, failed: bool)
      requires id in rows
      modifies this`contacts, this`links, this`tombs, this`next, this`rows
      ensures var c := Call(old(T()), old(rows)[id],
                            Run(id, old(rows)[id].delta, old(rows)[id].delta, old(rows)[id].page, maxPages, Asking, [],
                                false), false);
              var end := Pages(n, c, answers);
              && T() == end.tables && rows == old(rows)[id := end.row] && failed == end.gone
              && (!failed ==> page == end.run.page && delta == end.run.delta)
      ensures rows[id].origin == old(rows)[id].origin && rows[id].twoWay == old(rows)[id].twoWay
    {
      var o := rows[id].origin;
      delta, page, failed := rows[id].delta, rows[id].page, false;
      var finished, i := false, 0;
      ghost var c := Call(T(), rows[id], Run(id, delta, delta, page, maxPages, Asking, [], false), false);
      ghost var end := Pages(n, c, answers);
      ghost var rest := answers;
      while i < maxPages && !finished
        invariant i <= maxPages && rows == old(rows)[id := c.row] && T() == c.tables && !c.gone
        invariant c.row.origin == o && c.row.twoWay == old(rows)[id].twoWay
        invariant c.run.delta == delta && c.run.page == page && c.run.fuel == maxPages - i
        invariant if finished then c.run.phase == Pulled else c.run.phase == Asking
        invariant rest == if i <= |answers| then answers[i..] else []
        invariant Pages(n, c, rest) == end
      {
        var answer := if i < |answers| then answers[i] else Broken(false);
        c, rest, i := OnePage(n, c, answer), Rest(rest, true), i + 1;
        if answer.Broken? {
          FailOrigin(id, answer.revoked);
          failed := true;
          return;
        }
        if answer.Expired? {
          delta, page := None, None;
          rows := rows[id := rows[id].(delta := None, page := None)];
          continue;
        }
        page, delta, finished := ReadPage(id, o, answer.listing, delta);
      }
    }

    /** syncOrigin, given what the provider answers to each page request in turn
        and to each push. None is the error for an origin that does not exist. */
    method SyncOrigin(id: string, access: Access, maxPages: nat, answers: seq<Answer>, outcome: LinkKey -> PushOutcome)
      returns (status: Option<Status>)
      modifies this`contacts, this`links, this`tombs, this`next, this`rows
      ensures status.None? <==> id !in old(rows)
      ensures id in old(rows) ==> id in rows && status == Some(rows[id].status)
      ensures id !in old(rows) || old(rows)[id].status in {Paused, Disconnected} ==>
                T() == old(T()) && rows == old(rows)
      ensures id in old(rows) && old(rows)[id].status !in {Paused, Disconnected} && access != Granted ==>
                T() == old(T()) && rows == old(rows)[id := FailedRow(old(rows)[id], access.RevokedConnection?)]
      ensures id in old(rows) && old(rows)[id].status == Syncing && access == Granted ==>
                T() == old(T()) && rows == old(rows)
      ensures id in old(rows) && old(rows)[id].status in {Idle, Failing} && access == Granted ==>
                var end := AfterPages(n, Pages(n, Claimed(old(T()), old(rows)[id], id, maxPages), answers), outcome);
                T() == end.tables && rows == old(rows)[id := end.row] && status == Some(end.row.status)
    {
      if id !in rows { return None; }
      var row := rows[id];
      if row.status in {Paused, Disconnected} { return Some(row.status); }
      if access != Granted {
        FailOrigin(id, access.RevokedConnection?);
        return Some(rows[id].status);
      }
      if row.status !in {Idle, Failing} { return Some(row.status); }
      rows := rows[id := row.(status := Syncing)];
      status := RunClaimed(id, maxPages, answers, outcome);
    }

    /** The body of the try block, and what follows a failure. */
    method RunClaimed(id: string, maxPages: nat, answers: seq<Answer>, outcome: LinkKey -> PushOutcome)
      returns (status: Option<Status>)
      requires id in rows
      modifies this`contacts, this`links, this`tombs, this`next, this`rows
      ensures var row := old(rows)[id];
              var c := Call(old(T()), row, Run(id, row.delta, row.delta, row.page, maxPages, Asking, [], false), false);
              var end := AfterPages(n, Pages(n, c, answers), outcome);
              T() == end.tables && rows == old(rows)[id := end.row] && status == Some(end.row.status)
    {
      var page, delta, failed := ReadPages(id, maxPages, answers);
      if failed { return Some(rows[id].status); }
      if page.Some? {
        rows := rows[id := rows[id].(status := Idle, page := page)];
        return Some(Idle);
      }
      if rows[id].twoWay {
        PushLocalChanges(rows[id].origin, outcome);
      }
      rows := rows[id := rows[id].(status := Idle, delta := delta, page := None, published := rows[id].published + 1)];
      return Some(Idle);
    }
  }
}

/** The notifier's release side: `failed_notifications`, `processed_releases` and
    the outbox; the notify-release use case and the release half of the retrier. */
module Releases {
  import opened Types
  import opened Mailer

  /** UNIQUE (repo_name, tag, email). */
  datatype Key = Key(rel: Release, email: Email)
  datatype Failed = Failed(id: nat, saga: SagaId, url: Url, retry: nat)
  datatype Db = Db(failed: map<Key, Failed>, nextId: nat, processed: set<Release>, outbox: seq<Event>)
  datatype Input = Input(saga: SagaId, rel: Release, url: Url)

  const FAILED := "release email delivery failed"
  const DEAD := "release email delivery failed after max retries"

  function Recipients(v: View, repo: Repo): set<Email> {
    set p | p in Subscribers(v, repo) :: p.email
  }

  // --------------------------------------------------------- recording a batch

  /** INSERT ... ON CONFLICT DO NOTHING. */
  function Add(db: Db, input: Input, email: Email): Db {
    var k := Key(input.rel, email);
    if k in db.failed then db
    else db.(failed := db.failed[k := Failed(db.nextId, input.saga, input.url, 0)], nextId := db.nextId + 1)
  }

  function Outcome(input: Input, email: Email, lost: set<Email>): Event {
    if email in lost then ReleaseFailed(input.saga, input.rel, email, FAILED) else ReleaseSent(input.saga, input.rel, email)
  }

  function Record(db: Db, input: Input, emails: seq<Email>, lost: set<Email>): Db {
    if emails == [] then db else
    var d := Record(db, input, Front(emails), lost);
    var e := if Last(emails) in lost then Add(d, input, Last(emails)) else d;
    e.(outbox := e.outbox + [Outcome(input, Last(emails), lost)])
  }

  /** The committed outcome of a batch: one event per recipient, a retry row per
      failure, the summary event and the dedupe mark. */
  function Commit(db: Db, input: Input, emails: seq<Email>, lost: seq<Email>, sent: nat): Db {
    var d := Record(db, input, emails, Elems(lost));
    d.(outbox := d.outbox + [ReleaseNotified(input.saga, input.rel, sent, lost)], processed := d.processed + {input.rel})
  }

  function Outcomes(input: Input, emails: seq<Email>, lost: set<Email>): (es: seq<Event>)
    ensures |es| == |emails| && forall i :: 0 <= i < |es| ==> es[i] == Outcome(input, emails[i], lost)
  {
    seq(|emails|, i requires 0 <= i < |emails| => Outcome(input, emails[i], lost))
  }

  /** What recording a batch leaves: an outcome per recipient in order; new rows
      exactly for the lost recipients that had none; old rows as they were. */
  lemma RecordShape(db: Db, input: Input, emails: seq<Email>, lost: set<Email>)
    ensures var d := Record(db, input, emails, lost);
      && d.outbox == db.outbox + Outcomes(input, emails, lost)
      && d.processed == db.processed && d.nextId >= db.nextId
      && (forall k :: k in d.failed <==> k in db.failed || (k.rel == input.rel && k.email in emails && k.email in lost))
      && (forall k :: k in db.failed ==> d.failed[k] == db.failed[k])
      && (forall k :: k in d.failed && k !in db.failed ==>
            && d.failed[k].retry == 0 && db.nextId <= d.failed[k].id < d.nextId
            && d.failed[k].saga == input.saga && d.failed[k].url == input.url)
  {
    RecordEvents(db, input, emails, lost);
    RecordRows(db, input, emails, lost);
  }

  lemma {:induction false} RecordEvents(db: Db, input: Input, emails: seq<Email>, lost: set<Email>)
    ensures Record(db, input, emails, lost).outbox == db.outbox + Outcomes(input, emails, lost)
  {
    if emails != [] {
      RecordEvents(db, input, Front(emails), lost);
      assert Outcomes(input, emails, lost) == Outcomes(input, Front(emails), lost) + [Outcome(input, Last(emails), lost)];
    }
  }

  lemma {:induction false} RecordRows(db: Db, input: Input, emails: seq<Email>, lost: set<Email>)
    ensures var d := Record(db, input, emails, lost);
      && d.processed == db.processed && d.nextId >= db.nextId
      && (forall k :: k in d.failed <==> k in db.failed || (k.rel == input.rel && k.email in emails && k.email in lost))
      && (forall k :: k in db.failed ==> d.failed[k] == db.failed[k])
      && (forall k :: k in d.failed && k !in db.failed ==>
            && d.failed[k].retry == 0 && db.nextId <= d.failed[k].id < d.nextId
            && d.failed[k].saga == input.saga && d.failed[k].url == input.url)
  {
    if emails != [] {
      var f, e := Front(emails), Last(emails);
      RecordRows(db, input, f, lost);
      AddShape(Record(db, input, f, lost), input, e);
      assert forall x :: x in emails <==> x in f || x == e;
    }
  }

  lemma AddShape(db: Db, input: Input, email: Email)
    ensures var d := Add(db, input, email); var k := Key(input.rel, email);
      && d.outbox == db.outbox && d.processed == db.processed && d.nextId >= db.nextId
      && d.failed.Keys == db.failed.Keys + {k}
      && (forall l :: l in db.failed ==> d.failed[l] == db.failed[l])
      && (k !in db.failed ==> d.failed[k] == Failed(db.nextId, input.saga, input.url, 0) && d.nextId == db.nextId + 1)
  {
  }

  lemma {:induction false} MissOfDistinct(emails: seq<Email>, ok: seq<bool>, i: nat)
    requires |emails| == |ok| && Distinct(emails) && i < |ok|
    ensures emails[i] in Miss(emails, ok) <==> !ok[i]
  {
    MissWithin(Front(emails), Front(ok));
    if i < |ok| - 1 {
      MissOfDistinct(Front(emails), Front(ok), i);
    }
  }

  lemma {:induction false} MissWithin(emails: seq<Email>, ok: seq<bool>)
    requires |emails| == |ok|
    ensures forall e :: e in Miss(emails, ok) ==> e in emails
  {
    if emails != [] { MissWithin(Front(emails), Front(ok)); }
  }

  /** Delivery accounting. Recipients of a repository are distinct, so the outcome
      events match the mailer's verdicts one for one: recipient i gets ReleaseSent
      exactly if its mail went out and ReleaseFailed otherwise; SentCount is the
      number of the former and FailedEmails names exactly the latter. */
  lemma DeliveryAccounting(db: Db, input: Input, emails: seq<Email>, ok: seq<bool>, lost: seq<Email>)
    requires Distinct(emails) && |ok| == |emails| && multiset(lost) == multiset(Miss(emails, ok))
    ensures var d := Commit(db, input, emails, lost, CountTrue(ok));
      && |d.outbox| == |db.outbox| + |emails| + 1
      && (forall i :: 0 <= i < |emails| ==>
            d.outbox[|db.outbox| + i] == if ok[i] then ReleaseSent(input.saga, input.rel, emails[i])
                                         else ReleaseFailed(input.saga, input.rel, emails[i], FAILED))
      && Last(d.outbox) == ReleaseNotified(input.saga, input.rel, CountTrue(ok), lost)
      && CountTrue(ok) + |lost| == |emails|
      && (forall i :: 0 <= i < |emails| ==> (emails[i] in lost <==> !ok[i]))
  {
    RecordShape(db, input, emails, Elems(lost));
    LostAreMissed(emails, ok, lost);
    var d := Record(db, input, emails, Elems(lost));
    forall i | 0 <= i < |emails|
      ensures d.outbox[|db.outbox| + i] == if ok[i] then ReleaseSent(input.saga, input.rel, emails[i])
                                           else ReleaseFailed(input.saga, input.rel, emails[i], FAILED)
    {
      assert d.outbox[|db.outbox| + i] == Outcomes(input, emails, Elems(lost))[i];
    }
  }

  lemma LostAreMissed(emails: seq<Email>, ok: seq<bool>, lost: seq<Email>)
    requires Distinct(emails) && |ok| == |emails| && multiset(lost) == multiset(Miss(emails, ok))
    ensures CountTrue(ok) + |lost| == |emails|
    ensures forall i :: 0 <= i < |emails| ==> (emails[i] in lost <==> !ok[i])
  {
    forall i | 0 <= i < |emails| ensures emails[i] in lost <==> !ok[i] {
      MissOfDistinct(emails, ok, i);
      assert emails[i] in lost <==> emails[i] in multiset(lost);
      assert emails[i] in Miss(emails, ok) <==> emails[i] in multiset(Miss(emails, ok));
    }
    Balance(emails, ok, lost);
  }

  // ------------------------------------------------------------------ retrying

  /** The result of looking the recipient up in the read model. */
  datatype Lookup = Subscribed | Gone | LookupError

  function LookUp(v: View, k: Key, fails: bool): Lookup {
    if fails then LookupError else if Pair(k.email, k.rel.repo) in v then Subscribed else Gone
  }

  function Delete(db: Db, k: Key, row: Failed): Db {
    if k in db.failed && db.failed[k].id == row.id then db.(failed := db.failed - {k}) else db
  }

  function Bump(db: Db, k: Key, row: Failed): Db {
    if k in db.failed && db.failed[k].id == row.id
    then db.(failed := db.failed[k := db.failed[k].(retry := db.failed[k].retry + 1)]) else db
  }

  /** retryRelease on a listed row; `stored` tells whether its one write (or its
      transaction) succeeded. */
  function RetryRow(db: Db, max: int, k: Key, row: Failed, look: Lookup, sent: bool, stored: bool): Db {
    if look == LookupError || !stored then db
    else if look == Gone then Delete(db, k, row)
    else if sent then
      var d := Delete(db, k, row); d.(outbox := d.outbox + [ReleaseSent(row.saga, k.rel, k.email)])
    else if row.retry + 1 >= max then
      var d := Delete(db, k, row); d.(outbox := d.outbox + [ReleaseDead(row.saga, k.rel, k.email, DEAD)])
    else Bump(db, k, row)
  }

  /** The retry bound on a table: every row can still be listed. */
  predicate Bounded(t: map<Key, Failed>, max: int) {
    forall k :: k in t ==> t[k].retry < max
  }

  /** What happens to one listed row in a pass. */
  datatype Fate = Fate(look: Lookup, sent: bool, stored: bool)

  predicate Undisturbed(fates: seq<Fate>) {
    forall f :: f in fates ==> f.stored && f.look != LookupError
  }

  /** A pass: the listed rows are worked off in order, as they were listed. */
  function RetryRows(db: Db, max: int, listed: map<Key, Failed>, keys: seq<Key>, fates: seq<Fate>): Db
    requires |fates| == |keys| && forall k :: k in keys ==> k in listed
  {
    if keys == [] then db else
    var d, k, f := RetryRows(db, max, listed, Front(keys), Front(fates)), Last(keys), Last(fates);
    RetryRow(d, max, k, listed[k], f.look, f.sent, f.stored)
  }

  /** A pass strands no row and touches none that was not listed; if no store failed
      each listed row is gone or exactly one attempt further. */
  lemma {:induction false} RetryRowsShape(db: Db, max: int, keys: seq<Key>, fates: seq<Fate>)
    requires |fates| == |keys| && Distinct(keys) && (forall k :: k in keys ==> k in db.failed) && Bounded(db.failed, max)
    ensures var d := RetryRows(db, max, db.failed, keys, fates);
      && Bounded(d.failed, max) && d.failed.Keys <= db.failed.Keys && d.processed == db.processed && d.nextId == db.nextId
      && (forall k :: k in db.failed && k !in keys ==> k in d.failed && d.failed[k] == db.failed[k])
      && (Undisturbed(fates) ==> forall k :: k in keys && k in d.failed ==>
            d.failed[k].id == db.failed[k].id && d.failed[k].retry == db.failed[k].retry + 1)
  {
    if keys != [] {
      var k, f := Last(keys), Last(fates);
      assert forall x :: x in keys <==> x in Front(keys) || x == k;
      assert k !in Front(keys) && f in fates && forall g :: g in Front(fates) ==> g in fates;
      RetryRowsShape(db, max, Front(keys), Front(fates));
      RetryRowShape(RetryRows(db, max, db.failed, Front(keys), Front(fates)), max, k, f);
    }
  }

  lemma RetryRowShape(db: Db, max: int, k: Key, f: Fate)
    requires k in db.failed && Bounded(db.failed, max)
    ensures var d := RetryRow(db, max, k, db.failed[k], f.look, f.sent, f.stored);
      && Bounded(d.failed, max) && d.failed.Keys <= db.failed.Keys && d.processed == db.processed && d.nextId == db.nextId
      && (forall l :: l in db.failed && l != k ==> l in d.failed && d.failed[l] == db.failed[l])
      && (f.stored && f.look != LookupError && k in d.failed ==>
            d.failed[k].id == db.failed[k].id && d.failed[k].retry == db.failed[k].retry + 1)
  {
  }

  // ----------------------------------------------------------------- the objects

  class ReleaseNotifier {
    var db: Db
    var view: View
    const mailer: Mailer
    const maxRetries: int

    constructor (mailer: Mailer, maxRetries: int)
      ensures db == Db(map[], 0, {}, []) && view == map[] && this.mailer == mailer && this.maxRetries == maxRetries
    {
      this.db, this.view := Db(map[], 0, {}, []), map[];
      this.mailer, this.maxRetries := mailer, maxRetries;
    }

    /** The recipients in whatever order the query returns them. */
    method RecipientsByRepo(repo: Repo) returns (emails: seq<Email>, err: bool)
      ensures !err ==> Distinct(emails) && Elems(emails) == Recipients(view, repo)
      ensures !err ==> forall e :: e in emails <==> Pair(e, repo) in view
    {
      emails, err := [], *;
      if err {
        return;
      }
      emails := Enumerate(Recipients(view, repo));
      forall e ensures e in Recipients(view, repo) <==> Pair(e, repo) in view {
        assert Pair(e, repo) in view ==> Pair(e, repo) in Subscribers(view, repo);
      }
      assert forall e :: e in emails <==> e in Elems(emails);
    }

    /** One mail per recipient, with the recipient's own unsubscribe token; `ok` is what
        the mailer reports of each. */
    method Deliver(input: Input, emails: seq<Email>) returns (result: BatchResult, ghost ok: seq<bool>)
      requires forall e :: e in emails ==> Pair(e, input.rel.repo) in view
      modifies mailer
      ensures |ok| == |emails| && result.sent == CountTrue(ok) && multiset(result.failed) == multiset(Miss(emails, ok))
      ensures old(mailer.accepted) <= mailer.accepted && old(mailer.reported) <= mailer.reported
      ensures Tos(mailer.reported[|old(mailer.reported)|..]) == Pick(emails, ok)
      ensures forall i :: 0 <= i < |emails| && ok[i] ==>
                exists n :: n in mailer.accepted[|old(mailer.accepted)|..] && n.to == emails[i] && n.rel == input.rel
      ensures forall n :: n in mailer.accepted[|old(mailer.accepted)|..] ==>
                && n.to in emails && n.rel == input.rel && n.url == input.url
                && Pair(n.to, input.rel.repo) in view && n.token == view[Pair(n.to, input.rel.repo)]
    {
      if |emails| == 0 {
        return BatchResult(0, []), [];
      }
      var ns: seq<Notification> := [];
      for i := 0 to |emails|
        invariant |ns| == i && mailer.accepted == old(mailer.accepted) && mailer.reported == old(mailer.reported)
        invariant forall j :: 0 <= j < i ==>
          && ns[j].to == emails[j] && ns[j].rel == input.rel && ns[j].url == input.url
          && ns[j].token == view[Pair(emails[j], input.rel.repo)]
      {
        ns := ns + [Notification(emails[i], input.rel, input.url, view[Pair(emails[i], input.rel.repo)])];
      }
      assert Tos(ns) == emails;
      result, ok := mailer.SendReleaseNotifications(ns);
      PickTos(ns, ok);
      assert mailer.reported[|old(mailer.reported)|..] == Pick(ns, ok);
      forall i | 0 <= i < |emails| && ok[i]
        ensures exists n :: n in mailer.accepted[|old(mailer.accepted)|..] && n.to == emails[i] && n.rel == input.rel
      {
        PickHas(ns, ok, i);
      }
    }

    /** recordOutcomes inside the caller's transaction; any write may fail. */
    method RecordOutcomes(input: Input, emails: seq<Email>, result: BatchResult) returns (err: bool)
      modifies this`db
      ensures !err ==> db == Record(old(db), input, emails, Elems(result.failed))
    {
      var failed: set<Email> := {};
      for i := 0 to |result.failed|
        invariant failed == Elems(result.failed[..i])
      {
        assert result.failed[..i + 1] == result.failed[..i] + [result.failed[i]];
        failed := failed + {result.failed[i]};
      }
      assert result.failed[..|result.failed|] == result.failed;
      for i := 0 to |emails|
        invariant db == Record(old(db), input, emails[..i], failed)
      {
        assert Front(emails[..i + 1]) == emails[..i];
        var added: bool, enqueued: bool := *, *;
        var event := ReleaseSent(input.saga, input.rel, emails[i]);
        if emails[i] in failed {
          if !added {
            return true;
          }
          if Key(input.rel, emails[i]) !in db.failed {
            var row := Failed(db.nextId, input.saga, input.url, 0);
            db := db.(failed := db.failed[Key(input.rel, emails[i]) := row], nextId := db.nextId + 1);
          }
          event := ReleaseFailed(input.saga, input.rel, emails[i], FAILED);
        }
        if !enqueued {
          return true;
        }
        db := db.(outbox := db.outbox + [event]);
      }
      assert emails[..|emails|] == emails;
      err := false;
    }

    /** The use case: skip what is processed, otherwise deliver and commit all
        outcomes together with the summary and the mark, or nothing at all. */
    method Execute(input: Input) returns (err: bool, ghost emails: seq<Email>, ghost ok: seq<bool>, ghost lost: seq<Email>)
      modifies this`db, mailer
      ensures err || input.rel in old(db.processed) ==> db == old(db)
      ensures input.rel in old(db.processed) ==> mailer.accepted == old(mailer.accepted)
      ensures !err && input.rel !in old(db.processed) ==>
        && Distinct(emails) && Elems(emails) == Recipients(view, input.rel.repo)
        && |ok| == |emails| && multiset(lost) == multiset(Miss(emails, ok))
        && (forall e :: e in emails <==> Pair(e, input.rel.repo) in view)
        && db == Commit(old(db), input, emails, lost, CountTrue(ok))
        && old(mailer.reported) <= mailer.reported && Tos(mailer.reported[|old(mailer.reported)|..]) == Pick(emails, ok)
        && forall i :: 0 <= i < |emails| && ok[i] ==> exists n :: n in mailer.accepted && n.to == emails[i] && n.rel == input.rel
      ensures old(mailer.accepted) <= mailer.accepted
      ensures forall n :: n in mailer.accepted[|old(mailer.accepted)|..] ==>
        && n.rel == input.rel && n.url == input.url
        && Pair(n.to, input.rel.repo) in view && n.token == view[Pair(n.to, input.rel.repo)]
    {
      emails, ok, lost := [], [], [];
      var checked: bool := *;
      if !checked {
        return true, [], [], [];
      }
      if input.rel in db.processed {
        return false, [], [], [];
      }
      var saved := db;
      var recipients, e := RecipientsByRepo(input.rel.repo);
      if e {
        return true, [], [], [];
      }
      emails := recipients;
      var result, o := Deliver(input, recipients);
      ok, lost := o, result.failed;
      var failed := RecordOutcomes(input, recipients, result);
      var notified: bool, marked: bool, committed: bool := *, *, *;
      if failed || !notified || !marked || !committed {
        db := saved;
        return true, emails, ok, lost;
      }
      db := db.(outbox := db.outbox + [ReleaseNotified(input.saga, input.rel, result.sent, result.failed)],
                processed := db.processed + {input.rel});
      err := false;
    }

    /** DELETE ... WHERE id = $1. */
    method DeleteNotification(k: Key, row: Failed)
      modifies this`db
      ensures db == Delete(old(db), k, row)
    {
      if k in db.failed && db.failed[k].id == row.id {
        db := db.(failed := db.failed - {k});
      }
    }

    /** retryRelease for one listed row. Somebody who unsubscribed is dropped without an
        event. Otherwise the row leaves with a sent event exactly if the mailer reports
        the mail as sent, with a dead event exactly if it does not and this was the last
        attempt, and is counted one attempt further if neither; a failed lookup or write
        changes nothing. */
    method RetryRelease(k: Key, row: Failed) returns (ghost look: Lookup, ghost sent: bool, ghost stored: bool)
      modifies this`db, mailer
      ensures db == RetryRow(old(db), maxRetries, k, row, look, sent, stored)
      ensures look == LookUp(view, k, look == LookupError)
      ensures look == Subscribed ==> Pair(k.email, k.rel.repo) in view
      ensures look == Gone ==> Pair(k.email, k.rel.repo) !in view
      ensures look == Subscribed && sent ==> exists n :: n in mailer.accepted && n.to == k.email && n.rel == k.rel
      ensures old(mailer.accepted) <= mailer.accepted
      ensures forall n :: n in mailer.accepted[|old(mailer.accepted)|..] ==>
        look == Subscribed && n == Notification(k.email, k.rel, row.url, view[Pair(k.email, k.rel.repo)])
      ensures mailer.reported == old(mailer.reported) +
        if look == Subscribed && sent then [Notification(k.email, k.rel, row.url, view[Pair(k.email, k.rel.repo)])] else []
      ensures !stored || look == LookupError ==> db == old(db)
      ensures stored && look == Gone && k in old(db.failed) && old(db.failed)[k].id == row.id ==>
        k !in db.failed && db.outbox == old(db.outbox)
      ensures stored && look == Subscribed && k in old(db.failed) && old(db.failed)[k].id == row.id ==>
        if sent then k !in db.failed && db.outbox == old(db.outbox) + [ReleaseSent(row.saga, k.rel, k.email)]
        else if row.retry + 1 >= maxRetries then k !in db.failed && db.outbox == old(db.outbox) + [ReleaseDead(row.saga, k.rel, k.email, DEAD)]
        else k in db.failed && db.failed[k].retry == old(db.failed)[k].retry + 1 && db.outbox == old(db.outbox)
    {
      sent := false;
      assert mailer.reported + [] == mailer.reported;
      var s: bool := *;
      stored := s;
      var read: bool := *;
      if !read {
        look := LookupError;
        return;
      }
      if Pair(k.email, k.rel.repo) !in view {
        look := Gone;
        if s { DeleteNotification(k, row); }
        return;
      }
      look := Subscribed;
      var n := Notification(k.email, k.rel, row.url, view[Pair(k.email, k.rel.repo)]);
      var result, ok := mailer.SendReleaseNotifications([n]);
      PickOne(n, ok);
      if result.sent > 0 {
        sent := true;
        assert n in Pick([n], ok);
        assert n in mailer.accepted;
        if s {
          DeleteNotification(k, row);
          db := db.(outbox := db.outbox + [ReleaseSent(row.saga, k.rel, k.email)]);
        }
        return;
      }
      if row.retry + 1 >= maxRetries {
        if s {
          DeleteNotification(k, row);
          db := db.(outbox := db.outbox + [ReleaseDead(row.saga, k.rel, k.email, DEAD)]);
        }
        return;
      }
      if s && k in db.failed && db.failed[k].id == row.id {
        var now := db.failed[k];
        db := db.(failed := db.failed[k := now.(retry := now.retry + 1)]);
      }
    }

    /** SELECT ... WHERE retry_count < max, in whatever order. */
    method ListRetryable() returns (keys: seq<Key>)
      ensures Distinct(keys) && Elems(keys) == set k | k in db.failed && db.failed[k].retry < maxRetries
    {
      keys := Enumerate(set k | k in db.failed && db.failed[k].retry < maxRetries);
    }

    /** One pass over the listed rows, which are all there are. No row is stranded,
        and if no store failed every row is gone or one attempt further. */
    method RetryPass() returns (err: bool, keys: seq<Key>, ghost fates: seq<Fate>)
      requires Bounded(db.failed, maxRetries)
      modifies this`db, mailer
      ensures err ==> db == old(db)
      ensures !err ==>
        && Distinct(keys) && Elems(keys) == old(db.failed).Keys && |fates| == |keys|
        && (forall k :: k in keys ==> k in old(db.failed))
        && db == RetryRows(old(db), maxRetries, old(db.failed), keys, fates)
      ensures Bounded(db.failed, maxRetries)
      ensures !err && Undisturbed(fates) ==> forall k :: k in db.failed ==>
        k in old(db.failed) && db.failed[k].id == old(db.failed)[k].id && db.failed[k].retry == old(db.failed)[k].retry + 1
    {
      err, keys, fates := *, [], [];
      if err {
        return;
      }
      keys := ListRetryable();
      assert forall k :: k in keys ==> k in Elems(keys);
      assert forall k :: k in db.failed ==> k in Elems(keys);
      var listed := db.failed;
      assert forall k :: k in keys ==> k in listed;
      for i := 0 to |keys|
        invariant |fates| == i && db == RetryRows(old(db), maxRetries, listed, keys[..i], fates)
      {
        var look, sent, stored := RetryRelease(keys[i], listed[keys[i]]);
        ghost var f := Fate(look, sent, stored);
        assert Front(keys[..i + 1]) == keys[..i] && Front(fates + [f]) == fates;
        fates := fates + [f];
      }
      assert keys[..|keys|] == keys;
      RetryRowsShape(old(db), maxRetries, keys, fates);
    }
  }

  lemma {:induction false} PickHas<T>(xs: seq<T>, ok: seq<bool>, i: nat)
    requires |xs| == |ok| && i < |ok| && ok[i]
    ensures xs[i] in Pick(xs, ok)
  {
    if i < |ok| - 1 { PickHas(Front(xs), Front(ok), i); }
  }

  lemma {:induction false} PickTos(ns: seq<Notification>, ok: seq<bool>)
    requires |ns| == |ok|
    ensures Tos(Pick(ns, ok)) == Pick(Tos(ns), ok)
  {
    if ns != [] {
      PickTos(Front(ns), Front(ok));
      assert Tos(Front(ns)) == Front(Tos(ns));
    }
  }
}

/** The notifier's confirmation side: `failed_confirmations`, the send-confirmation
    use case and the confirmation half of the retrier. */
module Confirmations {
  import opened Types
  import Mailer

  /** A row of failed_confirmations; the map key carries (email, repo_name). */
  datatype Row = Row(id: nat, saga: SagaId, url: Url, retry: nat, failedAt: nat)
  type Table = map<Pair, Row>
  datatype Db = Db(failed: Table, nextId: nat, outbox: seq<Event>)

  const DEAD := "confirmation email delivery failed after max retries"
  const EXPIRED := "confirmation link expired before delivery"

  /** send-confirmation, committed: a sent event, or a retry row (the first one for
      a pair stays, with its saga id) and a failed event. */
  function Send(db: Db, saga: SagaId, pair: Pair, url: Url, delivered: bool, reason: Reason, now: nat): Db {
    if delivered then db.(outbox := db.outbox + [ConfirmationSent(saga, pair.email)])
    else
      var d := if pair in db.failed then db
               else db.(failed := db.failed[pair := Row(db.nextId, saga, url, 0, now)], nextId := db.nextId + 1);
      d.(outbox := d.outbox + [ConfirmationFailed(saga, pair.email, reason)])
  }

  function Delete(db: Db, pair: Pair, row: Row): Db {
    if pair in db.failed && db.failed[pair].id == row.id then db.(failed := db.failed - {pair}) else db
  }

  function Bump(db: Db, pair: Pair, row: Row): Db {
    if pair in db.failed && db.failed[pair].id == row.id
    then db.(failed := db.failed[pair := db.failed[pair].(retry := db.failed[pair].retry + 1)]) else db
  }

  function DeadLetter(db: Db, pair: Pair, row: Row, reason: Reason, stored: bool): Db {
    if !stored then db else
    var d := Delete(db, pair, row); d.(outbox := d.outbox + [ConfirmationDead(row.saga, pair.email, reason)])
  }

  function RetryRow(db: Db, max: int, pair: Pair, row: Row, delivered: bool, stored: bool): Db {
    if delivered then
      if !stored then db else
      var d := Delete(db, pair, row); d.(outbox := d.outbox + [ConfirmationSent(row.saga, pair.email)])
    else if row.retry + 1 >= max then DeadLetter(db, pair, row, DEAD, stored)
    else if stored then Bump(db, pair, row) else db
  }

  predicate IsExpired(row: Row, cutoff: nat) { row.failedAt <= cutoff }
  predicate IsRetryable(row: Row, max: int, cutoff: nat) { row.retry < max && row.failedAt > cutoff }

  function ExpiredKeys(t: Table, cutoff: nat): set<Pair> { set p | p in t && IsExpired(t[p], cutoff) }
  function RetryableKeys(t: Table, max: int, cutoff: nat): set<Pair> { set p | p in t && IsRetryable(t[p], max, cutoff) }

  predicate Bounded(t: Table, max: int) { forall p :: p in t ==> t[p].retry < max }

  /** The expired rows dead-lettered in order; stored[i] tells whether the i-th
      transaction committed. */
  function ExpireRows(db: Db, listed: Table, order: seq<Pair>, stored: seq<bool>): Db
    requires |stored| == |order| && forall p :: p in order ==> p in listed
  {
    if order == [] then db else
    DeadLetter(ExpireRows(db, listed, Front(order), Front(stored)), Last(order), listed[Last(order)], EXPIRED, Last(stored))
  }

  /** The retryable rows sent again in order. */
  datatype Try = Try(delivered: bool, stored: bool)

  function RetryRows(db: Db, max: int, listed: Table, order: seq<Pair>, tries: seq<Try>): Db
    requires |tries| == |order| && forall p :: p in order ==> p in listed
  {
    if order == [] then db else
    var d, p, t := RetryRows(db, max, listed, Front(order), Front(tries)), Last(order), Last(tries);
    RetryRow(d, max, p, listed[p], t.delivered, t.stored)
  }

  /** Expiring removes exactly the listed rows whose transaction committed, and
      changes no other. */
  lemma {:induction false} ExpireRowsShape(db: Db, order: seq<Pair>, stored: seq<bool>)
    requires |stored| == |order| && Distinct(order) && forall p :: p in order ==> p in db.failed
    ensures var d := ExpireRows(db, db.failed, order, stored);
      && d.failed.Keys <= db.failed.Keys && d.nextId == db.nextId
      && (forall p :: p in d.failed ==> d.failed[p] == db.failed[p])
      && (forall p :: p in db.failed && p !in order ==> p in d.failed)
      && (forall i :: 0 <= i < |order| ==> (order[i] in d.failed <==> !stored[i]))
  {
    if order != [] {
      var p := Last(order);
      assert forall x :: x in order <==> x in Front(order) || x == p;
      assert forall i :: 0 <= i < |order| - 1 ==> order[i] == Front(order)[i] && Front(stored)[i] == stored[i] && order[i] != p;
      ExpireRowsShape(db, Front(order), Front(stored));
      DeadLetterShape(ExpireRows(db, db.failed, Front(order), Front(stored)), p, EXPIRED, Last(stored));
    }
  }

  lemma DeadLetterShape(db: Db, p: Pair, reason: Reason, stored: bool)
    requires p in db.failed
    ensures var d := DeadLetter(db, p, db.failed[p], reason, stored);
      && d.failed.Keys == (if stored then db.failed.Keys - {p} else db.failed.Keys) && d.nextId == db.nextId
      && (forall q :: q in d.failed ==> d.failed[q] == db.failed[q])
  {
  }

  /** Retrying strands no row and touches none that was not listed; if no store failed
      each listed row is gone or exactly one attempt further. */
  lemma {:induction false} RetryRowsShape(db: Db, max: int, order: seq<Pair>, tries: seq<Try>)
    requires |tries| == |order| && Distinct(order) && (forall p :: p in order ==> p in db.failed) && Bounded(db.failed, max)
    ensures var d := RetryRows(db, max, db.failed, order, tries);
      && Bounded(d.failed, max) && d.failed.Keys <= db.failed.Keys && d.nextId == db.nextId
      && (forall p :: p in db.failed && p !in order ==> p in d.failed && d.failed[p] == db.failed[p])
      && ((forall t :: t in tries ==> t.stored) ==> forall p :: p in order && p in d.failed ==>
            d.failed[p].id == db.failed[p].id && d.failed[p].retry == db.failed[p].retry + 1)
  {
    if order != [] {
      var p, t := Last(order), Last(tries);
      assert forall x :: x in order <==> x in Front(order) || x == p;
      assert p !in Front(order) && t in tries && forall u :: u in Front(tries) ==> u in tries;
      RetryRowsShape(db, max, Front(order), Front(tries));
      RetryRowShape(RetryRows(db, max, db.failed, Front(order), Front(tries)), max, p, t);
    }
  }

  lemma RetryRowShape(db: Db, max: int, p: Pair, t: Try)
    requires p in db.failed && Bounded(db.failed, max)
    ensures var d := RetryRow(db, max, p, db.failed[p], t.delivered, t.stored);
      && Bounded(d.failed, max) && d.failed.Keys <= db.failed.Keys && d.nextId == db.nextId
      && (forall q :: q in db.failed && q != p ==> q in d.failed && d.failed[q] == db.failed[q])
      && (t.stored && p in d.failed ==> d.failed[p].id == db.failed[p].id && d.failed[p].retry == db.failed[p].retry + 1)
  {
  }

  /** The mail a confirmation is. */
  function Letter(pair: Pair, url: Url): Mailer.Notification {
    Mailer.Notification(pair.email, Release(pair.repo, ""), url, "")
  }

  // ------------------------------------------------------------------ the object

  class ConfirmationNotifier {
    var db: Db
    const mailer: Mailer.Mailer
    const maxRetries: int

    constructor (mailer: Mailer.Mailer, maxRetries: int)
      ensures db == Db(map[], 0, []) && this.mailer == mailer && this.maxRetries == maxRetries
    {
      this.db := Db(map[], 0, []);
      this.mailer, this.maxRetries := mailer, maxRetries;
    }

    method Deliver(pair: Pair, url: Url) returns (err: bool)
      modifies mailer
      ensures !err ==> mailer.accepted == old(mailer.accepted) + [Letter(pair, url)]
      ensures old(mailer.accepted) <= mailer.accepted
      ensures forall n :: n in mailer.accepted[|old(mailer.accepted)|..] ==>
        n.to == pair.email && n.rel.repo == pair.repo && n.url == url
      ensures mailer.reported == if err then old(mailer.reported) else old(mailer.reported) + [Letter(pair, url)]
    {
      err := mailer.DeliverConfirmation(Letter(pair, url));
    }

    method Execute(saga: SagaId, pair: Pair, url: Url, now: nat) returns (err: bool, ghost delivered: bool, ghost reason: Reason)
      modifies this`db, mailer
      ensures err ==> db == old(db)
      ensures !err ==> db == Send(old(db), saga, pair, url, delivered, reason, now)
      ensures delivered ==> mailer.accepted == old(mailer.accepted) + [Letter(pair, url)]
      ensures mailer.reported == if delivered then old(mailer.reported) + [Letter(pair, url)] else old(mailer.reported)
      ensures !err && delivered ==> db.outbox == old(db.outbox) + [ConfirmationSent(saga, pair.email)]
      ensures !err && !delivered ==> db.outbox == old(db.outbox) + [ConfirmationFailed(saga, pair.email, reason)]
      ensures !err && delivered ==> db.failed == old(db.failed)
      ensures !err && !delivered ==>
        && pair in db.failed && db.failed - {pair} == old(db.failed) - {pair}
        && (pair in old(db.failed) ==> db.failed[pair] == old(db.failed)[pair])
        && (pair !in old(db.failed) ==> db.failed[pair] == Row(old(db.nextId), saga, url, 0, now))
    {
      var saved := db;
      var sendErr := Deliver(pair, url);
      delivered, reason := !sendErr, "";
      var text: Reason, added: bool, enqueued: bool, committed: bool := *, *, *, *;
      if sendErr {
        reason := text;
        if pair !in db.failed {
          db := db.(failed := db.failed[pair := Row(db.nextId, saga, url, 0, now)], nextId := db.nextId + 1);
        }
        db := db.(outbox := db.outbox + [ConfirmationFailed(saga, pair.email, text)]);
        err := !added || !enqueued || !committed;
      } else {
        db := db.(outbox := db.outbox + [ConfirmationSent(saga, pair.email)]);
        err := !enqueued || !committed;
      }
      if err { db := saved; }
    }

    /** One transaction: delete the row by its id, enqueue the event. A failure of
        either, or of the commit, leaves both as they were. */
    method DeleteAndPublish(pair: Pair, row: Row, e: Event) returns (stored: bool)
      modifies this`db
      ensures !stored ==> db == old(db)
      ensures stored ==> db == Delete(old(db), pair, row).(outbox := old(db.outbox) + [e])
    {
      var saved := db;
      var deleted: bool, enqueued: bool, committed: bool := *, *, *;
      if deleted && pair in db.failed && db.failed[pair].id == row.id {
        db := db.(failed := db.failed - {pair});
      }
      if deleted && enqueued {
        db := db.(outbox := db.outbox + [e]);
      }
      stored := deleted && enqueued && committed;
      if !stored { db := saved; }
    }

    method DeadLetterConfirmation(pair: Pair, row: Row, reason: Reason) returns (ghost stored: bool)
      modifies this`db
      ensures db == DeadLetter(old(db), pair, row, reason, stored)
      ensures db.outbox == old(db.outbox) + if stored then [ConfirmationDead(row.saga, pair.email, reason)] else []
      ensures pair in old(db.failed) && old(db.failed)[pair].id == row.id ==> (pair in db.failed <==> !stored)
    {
      stored := DeleteAndPublish(pair, row, ConfirmationDead(row.saga, pair.email, reason));
    }

    method IncrementRetry(pair: Pair, row: Row) returns (stored: bool)
      modifies this`db
      ensures db == if stored then Bump(old(db), pair, row) else old(db)
    {
      stored := *;
      if stored && pair in db.failed && db.failed[pair].id == row.id {
        var now := db.failed[pair];
        db := db.(failed := db.failed[pair := now.(retry := now.retry + 1)]);
      }
    }

    /** Sends a listed row again: sent, dead at the limit, or one attempt more. */
    method RetryConfirmation(pair: Pair, row: Row) returns (ghost t: Try)
      modifies this`db, mailer
      ensures db == RetryRow(old(db), maxRetries, pair, row, t.delivered, t.stored)
      ensures t.delivered ==> mailer.accepted == old(mailer.accepted) + [Letter(pair, row.url)]
      ensures mailer.reported == if t.delivered then old(mailer.reported) + [Letter(pair, row.url)] else old(mailer.reported)
      ensures !t.stored ==> db == old(db)
      ensures t.stored && pair in old(db.failed) && old(db.failed)[pair].id == row.id ==>
        if t.delivered then pair !in db.failed && db.outbox == old(db.outbox) + [ConfirmationSent(row.saga, pair.email)]
        else if row.retry + 1 >= maxRetries then pair !in db.failed && db.outbox == old(db.outbox) + [ConfirmationDead(row.saga, pair.email, DEAD)]
        else pair in db.failed && db.failed[pair].retry == old(db.failed)[pair].retry + 1 && db.outbox == old(db.outbox)
    {
      ghost var saved: bool;
      var err := Deliver(pair, row.url);
      if err {
        if row.retry + 1 >= maxRetries {
          saved := DeadLetterConfirmation(pair, row, DEAD);
          return Try(false, saved);
        }
        saved := IncrementRetry(pair, row);
        return Try(false, saved);
      }
      saved := DeleteAndPublish(pair, row, ConfirmationSent(row.saga, pair.email));
      t := Try(true, saved);
    }

    /** Dead-letters the listed rows; a failed transaction leaves its row in place. */
    method DeadLetterAll(order: seq<Pair>) returns (ghost stored: seq<bool>)
      requires forall p :: p in order ==> p in db.failed
      modifies this`db
      ensures |stored| == |order| && db == ExpireRows(old(db), old(db.failed), order, stored)
    {
      stored := [];
      var listed := db.failed;
      for i := 0 to |order|
        invariant |stored| == i && db == ExpireRows(old(db), listed, order[..i], stored)
      {
        var ok := DeadLetterConfirmation(order[i], listed[order[i]], EXPIRED);
        assert Front(order[..i + 1]) == order[..i] && Front(stored + [ok]) == stored;
        stored := stored + [ok];
      }
      assert order[..|order|] == order;
    }

    method RetryAll(order: seq<Pair>) returns (ghost tries: seq<Try>)
      requires forall p :: p in order ==> p in db.failed
      modifies this`db, mailer
      ensures |tries| == |order| && db == RetryRows(old(db), maxRetries, old(db.failed), order, tries)
    {
      tries := [];
      var listed := db.failed;
      for i := 0 to |order|
        invariant |tries| == i && db == RetryRows(old(db), maxRetries, listed, order[..i], tries)
      {
        var t := RetryConfirmation(order[i], listed[order[i]]);
        assert Front(order[..i + 1]) == order[..i] && Front(tries + [t]) == tries;
        tries := tries + [t];
      }
      assert order[..|order|] == order;
    }

    /** One pass. The two lists are disjoint and cover the table although the second
        is read after the first was worked off, failures and all: every row is
        handled exactly once. If no store failed, every row is gone or one attempt
        further. */
    method ConfirmationPass(cutoff: nat)
      returns (err: bool, expired: seq<Pair>, retried: seq<Pair>, ghost mid: Db, ghost stored: seq<bool>, ghost tries: seq<Try>)
      requires Bounded(db.failed, maxRetries)
      modifies this`db, mailer
      ensures |stored| == |expired| && |tries| == |retried|
      ensures (forall p :: p in expired ==> p in old(db.failed)) && forall p :: p in retried ==> p in mid.failed
      ensures mid == ExpireRows(old(db), old(db.failed), expired, stored)
      ensures db == RetryRows(mid, maxRetries, mid.failed, retried, tries)
      ensures Bounded(db.failed, maxRetries)
      ensures !err ==> Distinct(expired + retried) && Elems(expired + retried) == old(db.failed).Keys
      ensures !err ==> forall p :: p in expired <==> p in old(db.failed) && old(db.failed)[p].failedAt <= cutoff
      ensures !err ==> forall p :: p in retried <==> p in old(db.failed) && old(db.failed)[p].failedAt > cutoff
      ensures !err && (forall b :: b in stored ==> b) && (forall t :: t in tries ==> t.stored) ==>
        forall p :: p in db.failed ==>
          p in old(db.failed) && db.failed[p].id == old(db.failed)[p].id && db.failed[p].retry == old(db.failed)[p].retry + 1
    {
      expired, retried, mid, stored, tries := [], [], db, [], [];
      var listed: bool := *;
      if !listed {
        return true, [], [], mid, [], [];
      }
      expired := Enumerate(ExpiredKeys(db.failed, cutoff));
      assert forall p :: p in expired ==> p in Elems(expired);
      stored := DeadLetterAll(expired);
      mid := db;
      ExpireRowsShape(old(db), expired, stored);
      var listedAgain: bool := *;
      if !listedAgain {
        return true, expired, [], mid, stored, [];
      }
      retried := Enumerate(RetryableKeys(db.failed, maxRetries, cutoff));
      assert forall p :: p in retried ==> p in Elems(retried);
      Partition(old(db.failed), mid.failed, expired, retried, maxRetries, cutoff);
      tries := RetryAll(retried);
      RetryRowsShape(mid, maxRetries, retried, tries);
      err := false;
      if (forall b :: b in stored ==> b) && forall t :: t in tries ==> t.stored {
        QuietConfirmations(old(db), mid, db, expired, stored, retried);
      }
    }
  }

  lemma QuietConfirmations(db: Db, mid: Db, d: Db, expired: seq<Pair>, stored: seq<bool>, retried: seq<Pair>)
    requires |stored| == |expired| && (forall b :: b in stored ==> b) && mid.failed.Keys <= db.failed.Keys
    requires forall i :: 0 <= i < |expired| ==> (expired[i] in mid.failed <==> !stored[i])
    requires forall p :: p in mid.failed ==> mid.failed[p] == db.failed[p]
    requires Elems(expired + retried) == db.failed.Keys && d.failed.Keys <= mid.failed.Keys
    requires forall p :: p in retried && p in d.failed ==>
      d.failed[p].id == mid.failed[p].id && d.failed[p].retry == mid.failed[p].retry + 1
    ensures forall p :: p in d.failed ==> d.failed[p].id == db.failed[p].id && d.failed[p].retry == db.failed[p].retry + 1
  {
    assert forall i :: 0 <= i < |expired| ==> stored[i] in stored;
    assert forall p :: p in expired ==> p !in mid.failed;
    forall p | p in d.failed ensures p in retried {
      assert p in Elems(expired + retried);
    }
  }

  lemma Partition(t: Table, u: Table, expired: seq<Pair>, retried: seq<Pair>, max: int, cutoff: nat)
    requires Bounded(t, max) && u.Keys <= t.Keys && forall p :: p in u ==> u[p] == t[p]
    requires forall p :: p in t && p !in expired ==> p in u
    requires Distinct(expired) && Elems(expired) == ExpiredKeys(t, cutoff)
    requires Distinct(retried) && Elems(retried) == RetryableKeys(u, max, cutoff)
    ensures Distinct(expired + retried) && Elems(expired + retried) == t.Keys
  {
    var all := expired + retried;
    assert forall p :: p in expired ==> p in Elems(expired);
    assert forall p :: p in retried ==> p in Elems(retried);
    forall i, j | 0 <= i < j < |all| ensures all[i] != all[j] {
      if i < |expired| <= j {
        assert all[i] in Elems(expired) && all[j] in Elems(retried);
      }
    }
    forall p ensures p in Elems(all) <==> p in t.Keys {
      assert p in Elems(all) <==> p in Elems(expired) || p in Elems(retried);
    }
  }
}

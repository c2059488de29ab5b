/** The transactional outbox and its relay, run by a single relay with no
    concurrent writer: `flush`, `flushBatch` and `publishAll`, with the failures
    a broker and a database can produce at every call. */
module Outbox {
  import opened Types

  datatype Message<M> = Message(id: nat, body: M)

  /** `SELECT ... ORDER BY id`: the table as a reader sees it. */
  predicate Ordered<M>(rows: seq<Message<M>>) {
    forall i, j :: 0 <= i < j < |rows| ==> rows[i].id < rows[j].id
  }

  function Ids<M>(rows: seq<Message<M>>): (ids: seq<nat>)
    ensures |ids| == |rows|
    ensures forall i :: 0 <= i < |ids| ==> ids[i] == rows[i].id
  {
    seq(|rows|, i requires 0 <= i < |rows| => rows[i].id)
  }

  /** `DELETE ... WHERE id = ANY(ids)`. */
  function DeleteIds<M>(rows: seq<Message<M>>, ids: seq<nat>): seq<Message<M>> {
    if rows == [] then []
    else if rows[0].id in ids then DeleteIds(rows[1..], ids)
    else [rows[0]] + DeleteIds(rows[1..], ids)
  }

  lemma {:induction false} DeleteNone<M>(rows: seq<Message<M>>, ids: seq<nat>)
    requires forall m :: m in rows ==> m.id !in ids
    ensures DeleteIds(rows, ids) == rows
  {
    if rows != [] { DeleteNone(rows[1..], ids); }
  }

  lemma {:induction false} DeleteLeading<M>(rows: seq<Message<M>>, k: nat, ids: seq<nat>)
    requires k <= |rows|
    requires forall i :: 0 <= i < k ==> rows[i].id in ids
    requires forall i :: k <= i < |rows| ==> rows[i].id !in ids
    ensures DeleteIds(rows, ids) == rows[k..]
  {
    if k == 0 {
      DeleteNone(rows, ids);
    } else {
      DeleteLeading(rows[1..], k - 1, ids);
    }
  }

  /** Deleting the ids of a leading run of the table leaves exactly the rest. */
  lemma DeletePrefix<M>(rows: seq<Message<M>>, k: nat)
    requires Ordered(rows) && k <= |rows|
    ensures DeleteIds(rows, Ids(rows[..k])) == rows[k..]
    ensures Ordered(rows[k..])
  {
    var ids := Ids(rows[..k]);
    forall i | 0 <= i < k ensures rows[i].id in ids {
      assert ids[i] == rows[i].id;
    }
    DeleteLeading(rows, k, ids);
  }

  datatype FlushError = NoError | BeginError | SelectError | PublishError | DeleteError | CommitError

  /** What a flush may leave behind. `done` rows are gone from the table, the
      broker holds `reach` rows more than before; both counts are taken from the
      front of the table in id order. */
  ghost predicate Flushed<M>(
    before: seq<Message<M>>, logBefore: seq<Message<M>>,
    after: seq<Message<M>>, logAfter: seq<Message<M>>,
    err: FlushError, done: nat, reach: nat)
  {
    && done <= reach <= |before|
    && after == before[done..]
    && logAfter == logBefore + before[..reach]
    && match err {
         case NoError => done == reach
         case BeginError => done == reach
         case SelectError => done == reach
         // the failed message may still have landed; everything from it on stays
         case PublishError => done < |before| && reach <= done + 1
         // the transaction rolled back: the batch was published and stays in the table
         case DeleteError => done < reach
         case CommitError => done < reach
       }
  }

  lemma FlushedThen<M>(t0: seq<Message<M>>, l0: seq<Message<M>>, t1: seq<Message<M>>, l1: seq<Message<M>>,
                       t2: seq<Message<M>>, l2: seq<Message<M>>, err: FlushError, d1: nat, d2: nat, r2: nat)
    requires Flushed(t0, l0, t1, l1, NoError, d1, d1)
    requires Flushed(t1, l1, t2, l2, err, d2, r2)
    ensures Flushed(t0, l0, t2, l2, err, d1 + d2, d1 + r2)
  {
    assert t1[d2..] == t0[d1 + d2..];
    assert t0[..d1] + t1[..r2] == t0[..d1 + r2];
  }

  class Relay<M(!new)> {
    var table: seq<Message<M>>  // outbox_messages, in id order
    var log: seq<Message<M>>    // what the broker has accepted, in acceptance order
    const batchSize: int

    constructor (table: seq<Message<M>>, batchSize: int)
      ensures this.table == table && log == [] && this.batchSize == batchSize
    {
      this.table, this.log, this.batchSize := table, [], batchSize;
    }

    /** A publish may be lost, or land and still be reported as failed. */
    method Publish(m: Message<M>) returns (ok: bool)
      modifies this`log
      ensures ok ==> log == old(log) + [m]
      ensures !ok ==> log == old(log) || log == old(log) + [m]
    {
      var lands: bool := *;
      ok := *;
      if ok || lands {
        log := log + [m];
      }
    }

    /** Publishes in order and stops at the first reported error. */
    method PublishAll(messages: seq<Message<M>>) returns (ids: seq<nat>, err: FlushError)
      modifies this`log
      ensures |ids| <= |messages| && ids == Ids(messages[..|ids|])
      ensures err == if |ids| < |messages| then PublishError else NoError
      ensures || log == old(log) + messages[..|ids|]
              || (|ids| < |messages| && log == old(log) + messages[..|ids| + 1])
    {
      ids := [];
      for i := 0 to |messages|
        invariant |ids| == i && ids == Ids(messages[..i])
        invariant log == old(log) + messages[..i]
      {
        assert messages[..i + 1] == messages[..i] + [messages[i]];
        var ok := Publish(messages[i]);
        if !ok {
          return ids, PublishError;
        }
        ids := ids + [messages[i].id];
      }
      assert messages[..|messages|] == messages;
      err := NoError;
    }

    method FlushBatch() returns (published: nat, err: FlushError, ghost reach: nat)
      requires Ordered(table) && batchSize >= 0
      modifies this`table, this`log
      ensures Ordered(table)
      ensures Flushed(old(table), old(log), table, log, err, if err in {NoError, PublishError} then published else 0, reach)
      ensures reach <= batchSize
      ensures err !in {NoError, PublishError} ==> published == 0
      ensures err == NoError ==> published == if |old(table)| <= batchSize then |old(table)| else batchSize
    {
      reach := 0;
      var begun: bool := *;
      if !begun {
        return 0, BeginError, 0;
      }
      var selected: bool := *;
      if !selected {
        return 0, SelectError, 0;
      }
      var limit := if |table| <= batchSize then |table| else batchSize;
      var messages := table[..limit];
      if |messages| == 0 {
        return 0, NoError, 0;
      }
      var ids, publishErr := PublishAll(messages);
      assert messages[..|ids|] == table[..|ids|];
      if log == old(log) + messages[..|ids|] {
        reach := |ids|;
      } else {
        assert messages[..|ids| + 1] == table[..|ids| + 1];
        reach := |ids| + 1;
      }
      if |ids| == 0 {
        return 0, publishErr, reach;
      }
      var deleted: bool := *;
      if !deleted {
        return 0, DeleteError, reach;
      }
      var rows := DeleteIds(table, ids);
      var committed: bool := *;
      if !committed {
        return 0, CommitError, reach;
      }
      DeletePrefix(table, |ids|);
      table := rows;
      return |ids|, publishErr, reach;
    }

    /** Flushes batch after batch until one comes back short or fails. */
    method Flush() returns (err: FlushError, ghost batches: nat, ghost done: nat, ghost reach: nat)
      requires Ordered(table) && batchSize > 0
      modifies this`table, this`log
      ensures Ordered(table)
      ensures Flushed(old(table), old(log), table, log, err, done, reach)
      ensures err == NoError ==> table == [] && log == old(log) + old(table)
      ensures err in {DeleteError, CommitError} ==> reach - done <= batchSize
      ensures batches <= |old(table)| / batchSize + 1
    {
      FullBatchesIsQuotient(|table|, batchSize);
      err, batches, done, reach := FlushBatches();
    }

    /** The loop of flush, with its batches counted rather than divided. */
    method FlushBatches() returns (err: FlushError, ghost batches: nat, ghost done: nat, ghost reach: nat)
      requires Ordered(table) && batchSize > 0
      modifies this`table, this`log
      ensures Ordered(table)
      ensures Flushed(old(table), old(log), table, log, err, done, reach)
      ensures err == NoError ==> table == [] && log == old(log) + old(table)
      ensures err in {DeleteError, CommitError} ==> reach - done <= batchSize
      ensures batches <= FullBatches(|old(table)|, batchSize) + 1
    {
      ghost var t0, l0 := table, log;
      batches, done, reach := 0, 0, 0;
      while true
        invariant Ordered(table)
        invariant Flushed(t0, l0, table, log, NoError, done, done)
        invariant batches + FullBatches(|table|, batchSize) == FullBatches(|t0|, batchSize)
        decreases |table|
      {
        ghost var t1, l1 := table, log;
        var published, e, r := FlushBatch();
        ghost var gone := if e in {NoError, PublishError} then published else 0;
        FlushedThen(t0, l0, t1, l1, table, log, e, done, gone, r);
        batches, done, reach := batches + 1, done + gone, done + r;
        if e != NoError {
          return e, batches, done, reach;
        }
        if published < batchSize {
          Drained(t0, l0, table, log, done);
          return NoError, batches, done, reach;
        }
      }
    }
  }

  lemma Drained<M>(t0: seq<Message<M>>, l0: seq<Message<M>>, t: seq<Message<M>>, l: seq<Message<M>>, done: nat)
    requires Flushed(t0, l0, t, l, NoError, done, done) && |t| == 0
    ensures t == [] && l == l0 + t0
  {
    assert t0[..done] == t0;
  }

  /** How many full batches n rows make. */
  ghost function FullBatches(n: nat, batchSize: int): nat
    requires batchSize > 0
  {
    if n < batchSize then 0 else 1 + FullBatches(n - batchSize, batchSize)
  }

  lemma {:induction false} FullBatchesIsQuotient(n: nat, batchSize: int)
    requires batchSize > 0
    ensures FullBatches(n, batchSize) == n / batchSize
  {
    if n >= batchSize {
      FullBatchesIsQuotient(n - batchSize, batchSize);
      QuotientStep(n, batchSize);
    }
  }

  lemma QuotientStep(n: nat, b: int)
    requires 0 < b <= n
    ensures (n - b) / b + 1 == n / b
  {
    var r := (n - b) % b;
    var d := n / b - ((n - b) / b + 1);
    assert b * d == r - n % b;
    Multiple(b, d);
  }

  lemma Multiple(b: int, d: int)
    requires -b < b * d < b
    ensures d == 0
  {
  }
}

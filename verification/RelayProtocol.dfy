/** Any number of relays and writers on one outbox table, interleaved at the
    granularity of insert / commit / select / publish / delete-and-commit.
    Row locks come from FOR UPDATE SKIP LOCKED; a relay transaction may be
    rolled back at any point (delete error, commit error, crash). */
module RelayProtocol {
  import opened Types

  /** An open relay transaction: the ids it locked, in id order, how many of them
      were published without error, and whether publishing hit an error. */
  datatype Tx = Tx(batch: seq<nat>, sent: nat, stopped: bool)

  /** A row inserted by a transaction that has not committed yet. */
  datatype Pending<M> = Pending(writer: nat, body: M)

  datatype State<M> = State(
    next: nat,                          // identity column
    open: map<nat, Pending<M>>,         // rows of writer transactions still open
    table: map<nat, M>,                 // committed rows still in outbox_messages
    relays: map<nat, Tx>,               // relay -> its open transaction
    log: seq<nat>,                      // ids accepted by the broker, in order
    committed: map<nat, M>,             // history: every row ever committed
    rolledBack: set<nat>,               // history: ids whose writer rolled back
    failures: map<nat, nat>)            // history: failed attempts per id

  datatype Action<M> =
    | Insert(writer: nat, body: M)
    | CommitWriter(writer: nat)
    | RollbackWriter(writer: nat)
    | Select(relay: nat, limit: nat, batch: seq<nat>)
    | PublishOk(relay: nat)
    | PublishError(relay: nat, landed: bool)
    | CommitRelay(relay: nat)
    | RollbackRelay(relay: nat)

  function Init<M>(): State<M> {
    State(0, map[], map[], map[], [], map[], {}, map[])
  }

  /** The ids a transaction has published without error. */
  function Sent(tx: Tx): set<nat>
    requires tx.sent <= |tx.batch|
  {
    Elems(tx.batch[..tx.sent])
  }

  predicate Locked<M>(s: State<M>, id: nat) {
    exists r :: r in s.relays && id in s.relays[r].batch
  }

  /** `SELECT id ... ORDER BY id LIMIT limit FOR UPDATE SKIP LOCKED`: any unlocked rows,
      since a lock may be released after the scan has passed its row. */
  predicate Selection<M>(s: State<M>, limit: nat, batch: seq<nat>) {
    && (forall i, j :: 0 <= i < j < |batch| ==> batch[i] < batch[j])
    && (forall id :: id in batch ==> id in s.table && !Locked(s, id))
    && |batch| <= limit
  }

  predicate Enabled<M>(s: State<M>, a: Action<M>) {
    match a
    case Insert(_, _) => true
    case CommitWriter(_) => true
    case RollbackWriter(_) => true
    case Select(r, limit, batch) => r !in s.relays && Selection(s, limit, batch)
    case PublishOk(r) => r in s.relays && !s.relays[r].stopped && s.relays[r].sent < |s.relays[r].batch|
    case PublishError(r, _) => r in s.relays && !s.relays[r].stopped && s.relays[r].sent < |s.relays[r].batch|
    case CommitRelay(r) =>
      && r in s.relays && 0 < s.relays[r].sent <= |s.relays[r].batch|
      && (s.relays[r].stopped || s.relays[r].sent == |s.relays[r].batch|)
    case RollbackRelay(r) => r in s.relays && s.relays[r].sent <= |s.relays[r].batch|
  }

  function Failures<M>(s: State<M>, id: nat): nat {
    if id in s.failures then s.failures[id] else 0
  }

  function Charge<M>(s: State<M>, ids: set<nat>): map<nat, nat> {
    map id | id in s.failures.Keys + ids :: Failures(s, id) + if id in ids then 1 else 0
  }

  /** The uncommitted rows of one writer. */
  function Rows<M>(s: State<M>, w: nat): map<nat, M> {
    map id | id in s.open && s.open[id].writer == w :: s.open[id].body
  }

  function Next<M>(s: State<M>, a: Action<M>): State<M> {
    if !Enabled(s, a) then s else
    match a
    case Insert(w, body) =>
      s.(next := s.next + 1, open := s.open[s.next := Pending(w, body)])
    case CommitWriter(w) =>
      var rows := Rows(s, w);
      s.(open := s.open - rows.Keys, table := s.table + rows, committed := s.committed + rows)
    case RollbackWriter(w) =>
      var rows := Rows(s, w);
      s.(open := s.open - rows.Keys, rolledBack := s.rolledBack + rows.Keys)
    case Select(r, _, batch) =>
      s.(relays := s.relays[r := Tx(batch, 0, false)])
    case PublishOk(r) =>
      var tx := s.relays[r];
      s.(log := s.log + [tx.batch[tx.sent]], relays := s.relays[r := tx.(sent := tx.sent + 1)])
    case PublishError(r, landed) =>
      var tx := s.relays[r];
      s.(log := if landed then s.log + [tx.batch[tx.sent]] else s.log,
         relays := s.relays[r := tx.(stopped := true)],
         failures := Charge(s, {tx.batch[tx.sent]}))
    case CommitRelay(r) =>
      s.(table := s.table - Sent(s.relays[r]), relays := s.relays - {r})
    case RollbackRelay(r) =>
      s.(relays := s.relays - {r}, failures := Charge(s, Sent(s.relays[r])))
  }

  function Exec<M>(s: State<M>, run: seq<Action<M>>): State<M> {
    if run == [] then s else Next(Exec(s, Front(run)), Last(run))
  }

  // ---------------------------------------------------------------- invariant

  /** Ids are handed out once; each id is open, committed or rolled back. */
  ghost predicate IdsInv<M>(s: State<M>) {
    && (forall id :: id in s.open ==> id < s.next && id !in s.committed && id !in s.rolledBack)
    && (forall id :: id in s.committed ==> id < s.next && id !in s.rolledBack)
    && (forall id :: id in s.rolledBack ==> id < s.next)
    && (forall id :: id in s.table ==> id in s.committed && s.committed[id] == s.table[id])
  }

  /** Locked rows exist, and no two relays hold the same row. */
  ghost predicate LocksInv<M>(s: State<M>) {
    && (forall r :: r in s.relays ==> s.relays[r].sent <= |s.relays[r].batch| && Distinct(s.relays[r].batch))
    && (forall r, id :: r in s.relays && id in s.relays[r].batch ==> id in s.table)
    && (forall r, q, id :: r in s.relays && q in s.relays && id in s.relays[r].batch && id in s.relays[q].batch ==> r == q)
  }

  /** Nothing is deleted unpublished; nothing uncommitted is published. */
  ghost predicate LogInv<M>(s: State<M>) {
    && (forall id :: id in s.log ==> id in s.committed)
    && (forall id :: id in s.committed && id !in s.table ==> id in s.log)
    && (forall r, i :: r in s.relays && 0 <= i < s.relays[r].sent <= |s.relays[r].batch| ==> s.relays[r].batch[i] in s.log)
  }

  /** The one publication of an id that no failure accounts for. */
  ghost predicate Settled<M>(s: State<M>, id: nat) {
    || (id in s.committed && id !in s.table)
    || exists r :: r in s.relays && s.relays[r].sent <= |s.relays[r].batch| && id in Sent(s.relays[r])
  }

  ghost predicate CountInv<M>(s: State<M>) {
    forall id {:trigger multiset(s.log)[id]} :: multiset(s.log)[id] <= Failures(s, id) + if Settled(s, id) then 1 else 0
  }

  ghost predicate Inv<M>(s: State<M>) {
    IdsInv(s) && LocksInv(s) && LogInv(s) && CountInv(s)
  }

  lemma IdsKept<M>(s: State<M>, a: Action<M>)
    requires IdsInv(s)
    ensures IdsInv(Next(s, a))
  {
  }

  lemma LocksKept<M>(s: State<M>, a: Action<M>)
    requires Inv(s)
    ensures LocksInv(Next(s, a))
  {
    if Enabled(s, a) && a.CommitRelay? {
      var tx := s.relays[a.relay];
      forall r, id | r in s.relays && r != a.relay && id in s.relays[r].batch ensures id !in Sent(tx) {
      }
    }
  }

  lemma LogKept<M>(s: State<M>, a: Action<M>)
    requires Inv(s)
    ensures LogInv(Next(s, a))
  {
  }

  /** Only a publication lengthens the log, and then by one locked id. */
  lemma CountKept<M>(s: State<M>, a: Action<M>)
    requires Inv(s)
    ensures CountInv(Next(s, a))
  {
    var t := Next(s, a);
    forall id ensures multiset(t.log)[id] <= Failures(t, id) + if Settled(t, id) then 1 else 0 {
      assert multiset(s.log)[id] <= Failures(s, id) + if Settled(s, id) then 1 else 0;
      if Enabled(s, a) { StepCounted(s, a, id); }
    }
  }

  lemma StepCounted<M>(s: State<M>, a: Action<M>, id: nat)
    requires Inv(s) && Enabled(s, a)
    requires multiset(s.log)[id] <= Failures(s, id) + if Settled(s, id) then 1 else 0
    ensures var t := Next(s, a); multiset(t.log)[id] <= Failures(t, id) + if Settled(t, id) then 1 else 0
  {
    match a
    case PublishOk(r) => PublishCounted(s, r, id);
    case PublishError(r, landed) => ErrorCounted(s, r, landed, id);
    case CommitRelay(r) => CommitCounted(s, r, id);
    case RollbackRelay(r) => RollbackCounted(s, r, id);
    case Select(r, _, batch) => KeepsRelays(s, Next(s, a), r, id);
    case _ => WriterCounted(s, a, id);
  }

  lemma WriterCounted<M>(s: State<M>, a: Action<M>, id: nat)
    requires Inv(s) && Enabled(s, a) && (a.Insert? || a.CommitWriter? || a.RollbackWriter?)
    ensures Settled(s, id) ==> Settled(Next(s, a), id)
  {
  }

  /** A step that leaves every other relay's transaction alone keeps what they settle. */
  lemma KeepsRelays<M>(s: State<M>, t: State<M>, r: nat, id: nat)
    requires LocksInv(s)
    requires t.table == s.table && t.committed == s.committed
    requires forall q :: q in s.relays && q != r ==> q in t.relays && t.relays[q] == s.relays[q]
    requires r in s.relays ==> id !in Sent(s.relays[r])
    ensures Settled(s, id) ==> Settled(t, id)
  {
  }

  lemma PublishCounted<M>(s: State<M>, r: nat, id: nat)
    requires Inv(s) && Enabled(s, PublishOk(r))
    requires multiset(s.log)[id] <= Failures(s, id) + if Settled(s, id) then 1 else 0
    ensures var t := Next(s, PublishOk(r)); multiset(t.log)[id] <= Failures(t, id) + if Settled(t, id) then 1 else 0
  {
    var t := Next(s, PublishOk(r));
    var tx := s.relays[r];
    var x := tx.batch[tx.sent];
    assert t.relays[r].batch[..t.relays[r].sent] == tx.batch[..tx.sent] + [x];
    assert Sent(t.relays[r]) == Sent(tx) + {x};
    if id == x {
      NotYetSettled(s, r);
      assert x in Sent(t.relays[r]);
    } else if Settled(s, id) {
      if id in Sent(tx) {
        assert id in Sent(t.relays[r]);
      } else {
        KeepsRelays(s, t, r, id);
      }
    }
  }

  /** The next id of a transaction is accounted for by nobody yet. */
  lemma NotYetSettled<M>(s: State<M>, r: nat)
    requires Inv(s) && r in s.relays && s.relays[r].sent < |s.relays[r].batch|
    ensures !Settled(s, s.relays[r].batch[s.relays[r].sent])
  {
    var tx := s.relays[r];
    var x := tx.batch[tx.sent];
    assert x in tx.batch;
    forall q | q in s.relays ensures x !in Sent(s.relays[q]) {
      if q == r {
        NotSentYet(tx);
      } else {
        assert x !in s.relays[q].batch;
      }
    }
  }

  lemma NotSentYet(tx: Tx)
    requires tx.sent < |tx.batch| && Distinct(tx.batch)
    ensures tx.batch[tx.sent] !in Sent(tx)
  {
    forall i | 0 <= i < tx.sent ensures tx.batch[..tx.sent][i] != tx.batch[tx.sent] {
      assert tx.batch[..tx.sent][i] == tx.batch[i];
    }
  }

  lemma ErrorCounted<M>(s: State<M>, r: nat, landed: bool, id: nat)
    requires Inv(s) && Enabled(s, PublishError(r, landed))
    requires multiset(s.log)[id] <= Failures(s, id) + if Settled(s, id) then 1 else 0
    ensures var t := Next(s, PublishError(r, landed)); multiset(t.log)[id] <= Failures(t, id) + if Settled(t, id) then 1 else 0
  {
    var t := Next(s, PublishError(r, landed));
    assert Sent(t.relays[r]) == Sent(s.relays[r]);
    if Settled(s, id) && id !in Sent(s.relays[r]) {
      KeepsRelays(s, t, r, id);
    }
  }

  lemma CommitCounted<M>(s: State<M>, r: nat, id: nat)
    requires Inv(s) && Enabled(s, CommitRelay(r))
    requires multiset(s.log)[id] <= Failures(s, id) + if Settled(s, id) then 1 else 0
    ensures var t := Next(s, CommitRelay(r)); multiset(t.log)[id] <= Failures(t, id) + if Settled(t, id) then 1 else 0
  {
    var t := Next(s, CommitRelay(r));
    if id in Sent(s.relays[r]) {
      assert id in s.relays[r].batch;
      assert id in t.committed && id !in t.table;
    } else if q :| q in s.relays && id in Sent(s.relays[q]) {
      assert q in t.relays && id in Sent(t.relays[q]);
    }
  }

  lemma RollbackCounted<M>(s: State<M>, r: nat, id: nat)
    requires Inv(s) && Enabled(s, RollbackRelay(r))
    requires multiset(s.log)[id] <= Failures(s, id) + if Settled(s, id) then 1 else 0
    ensures var t := Next(s, RollbackRelay(r)); multiset(t.log)[id] <= Failures(t, id) + if Settled(t, id) then 1 else 0
  {
    var t := Next(s, RollbackRelay(r));
    if id !in Sent(s.relays[r]) {
      KeepsRelays(s, t, r, id);
    }
  }

  lemma {:induction false} Invariant<M>(run: seq<Action<M>>)
    ensures Inv(Exec(Init<M>(), run))
  {
    if run != [] {
      Invariant(Front(run));
      var s, a := Exec(Init<M>(), Front(run)), Last(run);
      IdsKept(s, a); LocksKept(s, a); LogKept(s, a); CountKept(s, a);
    }
  }

  // ----------------------------------------------------------------- theorems

  /** Over every run of every number of relays and writers. */
  lemma {:induction false} RelaysAreSafe<M>(run: seq<Action<M>>, id: nat)
    ensures var s := Exec(Init<M>(), run);
      // no two relays hold the same row
      && (forall r, q :: r in s.relays && q in s.relays && id in s.relays[r].batch && id in s.relays[q].batch ==> r == q)
      // a committed message is still in the table or was published
      && (id in s.committed ==> id in s.table || id in s.log)
      // a rolled-back message is never published
      && (id in s.log ==> id in s.committed && id !in s.rolledBack)
      // duplicates are paid for by failed attempts
      && multiset(s.log)[id] <= 1 + Failures(s, id)
      // and with none, a deleted message was published exactly once
      && (id in s.committed && id !in s.table && Failures(s, id) == 0 ==> multiset(s.log)[id] == 1)
  {
    Invariant(run);
    var s := Exec(Init<M>(), run);
    assert multiset(s.log)[id] <= Failures(s, id) + if Settled(s, id) then 1 else 0;
    assert id in s.log ==> multiset(s.log)[id] > 0;
  }

  /** What the rest of the system may rely on: `out` is what an outbox holds,
      `bus` what the broker holds. Messages enter the bus only from the outbox,
      leave the outbox only once on the bus, and the bus forgets nothing. */
  ghost predicate BusStep<M(!new)>(out: set<M>, bus: set<M>, out': set<M>, bus': set<M>) {
    bus <= bus' <= bus + out && out' <= out && out - out' <= bus'
  }

  function Outgoing<M>(s: State<M>): set<M> {
    set id | id in s.table :: s.table[id]
  }

  function Bus<M>(s: State<M>): set<M> {
    set id | id in s.log && id in s.committed :: s.committed[id]
  }

  /** Every step of the many-relay protocol is a step of that simple contract:
      relay steps are bus steps, a writer commit adds its rows to the outbox,
      and nothing else shows. */
  lemma RelayRefinesBus<M(!new)>(s: State<M>, a: Action<M>)
    requires Inv(s)
    ensures var t := Next(s, a);
      if a.CommitWriter?
      then Bus(t) == Bus(s) && Outgoing(t) == Outgoing(s) + set id | id in Rows(s, a.writer) :: Rows(s, a.writer)[id]
      else BusStep(Outgoing(s), Bus(s), Outgoing(t), Bus(t))
  {
    var t := Next(s, a);
    if Enabled(s, a) {
      match a
      case CommitWriter(w) =>
        CommitIsEnqueue(s, w);
      case PublishOk(r) => PublishIsBusStep(s, t, s.relays[r].batch[s.relays[r].sent]);
      case PublishError(r, landed) =>
        if landed { PublishIsBusStep(s, t, s.relays[r].batch[s.relays[r].sent]); }
      case CommitRelay(r) =>
        forall m | m in Outgoing(s) && m !in Outgoing(t) ensures m in Bus(t) {
          var id :| id in s.table && s.table[id] == m;
          assert id !in t.table;
          assert id in s.log && s.committed[id] == m;
        }
      case _ =>
    }
  }

  lemma CommitIsEnqueue<M(!new)>(s: State<M>, w: nat)
    requires Inv(s) && Enabled(s, CommitWriter(w))
    ensures var t := Next(s, CommitWriter(w));
      Bus(t) == Bus(s) && Outgoing(t) == Outgoing(s) + set id | id in Rows(s, w) :: Rows(s, w)[id]
  {
  }

  lemma PublishIsBusStep<M(!new)>(s: State<M>, t: State<M>, id: nat)
    requires Inv(s) && id in s.table
    requires t.table == s.table && t.committed == s.committed && t.log == s.log + [id]
    ensures BusStep(Outgoing(s), Bus(s), Outgoing(t), Bus(t))
  {
  }
}

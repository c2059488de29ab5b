/** Confirmation delivery over whole runs: confirmations sent at any time, a single
    retrier working off its two lists row by row, store failures and restarts. */
module ConfirmationDelivery {
  import opened Types
  import opened Confirmations

  /** Where the retrier stands in its pass; `present` are the rows it found. */
  datatype Phase =
    | Idle
    | Expiring(cutoff: nat, todo: seq<Pair>, present: set<nat>)
    | Retrying(cutoff: nat, todo: seq<Pair>, present: set<nat>)

  datatype State = State(
    db: Db,
    phase: Phase,
    listed: Table,                        // the snapshot the current list was read from
    clock: nat,                           // bounds all timestamps
    // history
    entered: map<nat, (Pair, SagaId)>,    // every row that ever entered the table
    left: map<nat, nat>,                  // outbox position of the event that took a row away
    direct: set<nat>,                     // outbox positions written by send-confirmation
    handled: seq<nat>,                    // row ids handled in the current pass
    completed: nat,                       // passes worked off to the end
    faults: map<nat, nat>)                // failed writes per row id

  datatype Action =
    | Sending(saga: SagaId, pair: Pair, url: Url, delivered: bool, reason: Reason)
    | Tick
    | Begin(cutoff: nat, order: seq<Pair>)
    | Expire(stored: bool)
    | ListAgain(order: seq<Pair>)
    | RetryOne(delivered: bool, stored: bool)
    | End
    | Restart

  const INIT := State(Db(map[], 0, []), Idle, map[], 1, map[], map[], {}, [], 0, map[])

  function RowIds(t: Table): set<nat> { set p | p in t :: t[p].id }

  predicate Enabled(s: State, a: Action, max: int) {
    match a
    case Begin(cutoff, order) =>
      s.phase.Idle? && cutoff < s.clock && Distinct(order) && Elems(order) == ExpiredKeys(s.db.failed, cutoff)
    case Expire(_) => s.phase.Expiring? && s.phase.todo != [] && s.phase.todo[0] in s.listed
    case ListAgain(order) =>
      && s.phase.Expiring? && s.phase.todo == []
      && Distinct(order) && Elems(order) == RetryableKeys(s.db.failed, max, s.phase.cutoff)
    case RetryOne(_, _) => s.phase.Retrying? && s.phase.todo != [] && s.phase.todo[0] in s.listed
    case End => s.phase.Retrying? && s.phase.todo == []
    case _ => true
  }

  /** A row left the table if its pair's row is gone; the event is the last one. */
  function Leaves(s: State, d: Db, pair: Pair): map<nat, nat> {
    if pair in s.db.failed && pair !in d.failed && |d.outbox| > 0 then s.left[s.db.failed[pair].id := |d.outbox| - 1] else s.left
  }

  function Faults(s: State, id: nat): nat { if id in s.faults then s.faults[id] else 0 }

  function Charge(s: State, id: nat, stored: bool): map<nat, nat> {
    if stored then s.faults else s.faults[id := Faults(s, id) + 1]
  }

  function Next(s: State, a: Action, max: int): State {
    if !Enabled(s, a, max) then s else
    match a
    case Sending(saga, pair, url, delivered, reason) =>
      s.(db := Send(s.db, saga, pair, url, delivered, reason, s.clock),
         entered := if delivered || pair in s.db.failed then s.entered else s.entered[s.db.nextId := (pair, saga)],
         direct := s.direct + {|s.db.outbox|})
    case Tick => s.(clock := s.clock + 1)
    case Begin(cutoff, order) =>
      s.(phase := Expiring(cutoff, order, RowIds(s.db.failed)), listed := s.db.failed, handled := [])
    case Expire(stored) =>
      var p := s.phase.todo[0];
      var d := DeadLetter(s.db, p, s.listed[p], EXPIRED, stored);
      s.(db := d, left := Leaves(s, d, p), phase := Expiring(s.phase.cutoff, s.phase.todo[1..], s.phase.present),
         handled := s.handled + [s.listed[p].id], faults := Charge(s, s.listed[p].id, stored))
    case ListAgain(order) =>
      s.(phase := Retrying(s.phase.cutoff, order, s.phase.present), listed := s.db.failed)
    case RetryOne(delivered, stored) =>
      var p := s.phase.todo[0];
      var d := RetryRow(s.db, max, p, s.listed[p], delivered, stored);
      s.(db := d, left := Leaves(s, d, p), phase := Retrying(s.phase.cutoff, s.phase.todo[1..], s.phase.present),
         handled := s.handled + [s.listed[p].id], faults := Charge(s, s.listed[p].id, stored))
    case End => s.(phase := Idle, completed := s.completed + 1)
    case Restart => s.(phase := Idle)
  }

  function Exec(run: seq<Action>, max: int): State {
    if run == [] then INIT else Next(Exec(Front(run), max), Last(run), max)
  }

  // -------------------------------------------------------------------- invariant

  predicate Resolution(e: Event) { e.ConfirmationSent? || e.ConfirmationDead? }

  /** Each row ever entered is live, under its own pair and saga id, or has left. */
  ghost predicate EntriesInv(s: State) {
    && (forall p :: p in s.db.failed ==>
          var r := s.db.failed[p]; r.id in s.entered && s.entered[r.id] == (p, r.saga) && r.id !in s.left)
    && (forall id :: id in s.entered ==> id < s.db.nextId)
    && (forall id :: id in s.entered ==>
          id in s.left || (s.entered[id].0 in s.db.failed && s.db.failed[s.entered[id].0].id == id))
  }

  /** A row that left did so with an event carrying its saga id and address. */
  ghost predicate DeparturesInv(s: State) {
    forall id :: id in s.left ==>
      && id in s.entered && s.left[id] < |s.db.outbox|
      && Resolution(s.db.outbox[s.left[id]])
      && s.db.outbox[s.left[id]].id == s.entered[id].1 && s.db.outbox[s.left[id]].email == s.entered[id].0.email
  }

  /** An event of the outbox was written by send-confirmation or is the departure of
      one row, never of two and never both; dead events are departures ... */
  ghost predicate OwnEventsInv(s: State) {
    && (forall id, other :: id in s.left && other in s.left && s.left[id] == s.left[other] ==> id == other)
    && (forall i :: i in s.direct ==> i < |s.db.outbox| && !s.db.outbox[i].ConfirmationDead?)
    && (forall id :: id in s.left ==> s.left[id] !in s.direct)
  }

  ghost predicate Departure(s: State, i: nat) { exists id :: id in s.left && s.left[id] == i }

  /** ... and there is no other. */
  ghost predicate CoverInv(s: State) {
    && (forall i: nat :: i < |s.db.outbox| ==> i in s.direct || Departure(s, i))
    && |s.db.outbox| == |s.direct| + |s.left|
  }

  ghost predicate LedgerInv(s: State) {
    EntriesInv(s) && DeparturesInv(s) && OwnEventsInv(s) && CoverInv(s)
  }

  ghost predicate TimesInv(s: State, max: int) {
    && Bounded(s.db.failed, max)
    && (forall p :: p in s.db.failed ==> s.db.failed[p].failedAt <= s.clock)
    && (!s.phase.Idle? ==> s.phase.cutoff < s.clock)
  }

  /** The unhandled part of the list is untouched. */
  ghost predicate ListInv(s: State) {
    !s.phase.Idle? ==>
      && Distinct(s.phase.todo)
      && (forall p :: p in s.phase.todo ==> p in s.listed && p in s.db.failed && s.db.failed[p] == s.listed[p])
  }

  /** What sending a confirmation does to the ledger: one event of its own, and perhaps
      a fresh row. */
  ghost predicate Sent(s: State, t: State, pair: Pair, e: Event) {
    && t.db.outbox == s.db.outbox + [e] && !e.ConfirmationDead?
    && t.left == s.left && t.direct == s.direct + {|s.db.outbox|}
    && (|| (t.db.failed == s.db.failed && t.db.nextId == s.db.nextId && t.entered == s.entered)
        || (&& pair !in s.db.failed && t.db.nextId == s.db.nextId + 1
            && pair in t.db.failed && t.db.failed == s.db.failed[pair := t.db.failed[pair]]
            && t.db.failed[pair].id == s.db.nextId
            && t.entered == s.entered[s.db.nextId := (pair, t.db.failed[pair].saga)]))
  }

  lemma SendingIsSent(s: State, a: Action, max: int) returns (e: Event)
    requires a.Sending?
    ensures Sent(s, Next(s, a, max), a.pair, e)
  {
    e := Last(Next(s, a, max).db.outbox);
  }

  lemma SendKeepsLedger(s: State, t: State, pair: Pair, e: Event)
    requires LedgerInv(s) && Sent(s, t, pair, e)
    ensures LedgerInv(t)
  {
    assert s.db.nextId !in s.entered && s.db.nextId !in s.left;
    SendKeepsOwnEvents(s, t, e);
    SendKeepsDepartures(s, t, e);
    SendKeepsCover(s, t, e);
    if t.db.failed != s.db.failed {
      EnterKeepsEntries(s, t, pair, t.db.failed[pair]);
    }
  }

  lemma SendKeepsCover(s: State, t: State, e: Event)
    requires CoverInv(s) && OwnEventsInv(s)
    requires t.db.outbox == s.db.outbox + [e] && t.left == s.left && t.direct == s.direct + {|s.db.outbox|}
    ensures CoverInv(t)
  {
    assert |s.db.outbox| !in s.direct;
    CoverKept(s, t, e);
  }

  lemma EnterKeepsEntries(s: State, t: State, pair: Pair, row: Row)
    requires EntriesInv(s) && pair !in s.db.failed && row.id == s.db.nextId && row.id !in s.left
    requires t.db.failed == s.db.failed[pair := row] && t.db.nextId == s.db.nextId + 1
    requires t.entered == s.entered[row.id := (pair, row.saga)] && t.left == s.left
    ensures EntriesInv(t)
  {
  }

  lemma SendKeepsDepartures(s: State, t: State, e: Event)
    requires DeparturesInv(s) && t.left == s.left && t.db.outbox == s.db.outbox + [e]
    requires forall id :: id in s.left ==> id in s.entered && id in t.entered && t.entered[id] == s.entered[id]
    ensures DeparturesInv(t)
  {
  }

  lemma SendKeepsOwnEvents(s: State, t: State, e: Event)
    requires OwnEventsInv(s) && DeparturesInv(s) && !e.ConfirmationDead?
    requires t.db.outbox == s.db.outbox + [e] && t.left == s.left && t.direct == s.direct + {|s.db.outbox|}
    ensures OwnEventsInv(t)
  {
  }

  lemma LeavingKeepsOwnEvents(s: State, t: State, id: nat, e: Event)
    requires OwnEventsInv(s) && DeparturesInv(s) && id !in s.left
    requires t.db.outbox == s.db.outbox + [e] && t.left == s.left[id := |s.db.outbox|] && t.direct == s.direct
    ensures OwnEventsInv(t)
  {
  }

  lemma LeavingKeepsCover(s: State, t: State, id: nat, e: Event)
    requires CoverInv(s) && id !in s.left
    requires t.db.outbox == s.db.outbox + [e] && t.left == s.left[id := |s.db.outbox|] && t.direct == s.direct
    ensures CoverInv(t)
  {
    assert t.left.Keys == s.left.Keys + {id};
    assert |t.left| == |t.left.Keys| && |s.left| == |s.left.Keys|;
    assert t.left[id] == |s.db.outbox|;
    CoverKept(s, t, e);
  }

  /** One more event, written by send-confirmation or by a departure, stays covered. */
  lemma CoverKept(s: State, t: State, e: Event)
    requires CoverInv(s) && t.db.outbox == s.db.outbox + [e] && s.direct <= t.direct
    requires forall id :: id in s.left ==> id in t.left && t.left[id] == s.left[id]
    requires |s.db.outbox| in t.direct || Departure(t, |s.db.outbox|)
    requires |t.direct| + |t.left| == |s.direct| + |s.left| + 1
    ensures CoverInv(t)
  {
    forall i: nat | i < |t.db.outbox| ensures i in t.direct || Departure(t, i) {
      if i < |s.db.outbox| && i !in s.direct {
        var id :| id in s.left && s.left[id] == i;
        assert id in t.left && t.left[id] == i;
      }
    }
  }

  lemma BumpKeepsLedger(s: State, t: State, p: Pair)
    requires LedgerInv(s) && p in s.db.failed && t.entered == s.entered && t.left == s.left && t.direct == s.direct
    requires t.db == s.db.(failed := s.db.failed[p := s.db.failed[p].(retry := s.db.failed[p].retry + 1)])
    ensures LedgerInv(t)
  {
  }

  /** Taking a row out with one event of its own keeps the ledger. */
  lemma LeavingKeepsLedger(s: State, t: State, p: Pair, e: Event)
    requires LedgerInv(s) && p in s.db.failed && Resolution(e) && e.id == s.db.failed[p].saga && e.email == p.email
    requires t.db == Db(s.db.failed - {p}, s.db.nextId, s.db.outbox + [e])
    requires t.left == s.left[s.db.failed[p].id := |s.db.outbox|] && t.entered == s.entered && t.direct == s.direct
    ensures LedgerInv(t)
  {
    LeavingKeepsEntries(s, t, p);
    LeavingKeepsDepartures(s, t, p, e);
    LeavingKeepsOwnEvents(s, t, s.db.failed[p].id, e);
    LeavingKeepsCover(s, t, s.db.failed[p].id, e);
  }

  lemma LeavingKeepsDepartures(s: State, t: State, p: Pair, e: Event)
    requires EntriesInv(s) && DeparturesInv(s) && t.entered == s.entered && t.db.outbox == s.db.outbox + [e]
    requires p in s.db.failed && Resolution(e) && e.id == s.db.failed[p].saga && e.email == p.email
    requires t.left == s.left[s.db.failed[p].id := |s.db.outbox|]
    ensures DeparturesInv(t)
  {
  }

  lemma LeavingKeepsEntries(s: State, t: State, p: Pair)
    requires EntriesInv(s) && p in s.db.failed && t.entered == s.entered
    requires t.db.failed == s.db.failed - {p} && t.db.nextId == s.db.nextId
    requires t.left == s.left[s.db.failed[p].id := |s.db.outbox|]
    ensures EntriesInv(t)
  {
  }

  /** What handling a listed row can do: nothing, count an attempt, or take the row
      out with one event of its own. */
  predicate RowStep(db: Db, d: Db, p: Pair) {
    p in db.failed &&
      var row := db.failed[p];
      || d == db
      || d == db.(failed := db.failed[p := row.(retry := row.retry + 1)])
      || (|d.outbox| > 0 && d == Db(db.failed - {p}, db.nextId, db.outbox + [Last(d.outbox)]) && Resolution(Last(d.outbox))
          && Last(d.outbox).id == row.saga && Last(d.outbox).email == p.email)
  }

  lemma HandlingIsRowStep(db: Db, max: int, p: Pair, reason: Reason, delivered: bool, stored: bool)
    requires p in db.failed
    ensures RowStep(db, DeadLetter(db, p, db.failed[p], reason, stored), p)
    ensures RowStep(db, RetryRow(db, max, p, db.failed[p], delivered, stored), p)
  {
  }

  lemma RowStepKeepsLedger(s: State, t: State, p: Pair)
    requires LedgerInv(s) && RowStep(s.db, t.db, p)
    requires t.left == Leaves(s, t.db, p) && t.entered == s.entered && t.direct == s.direct
    ensures LedgerInv(t)
  {
    if p !in t.db.failed {
      LeavingKeepsLedger(s, t, p, Last(t.db.outbox));
    } else {
      assert t.left == s.left;
      if t.db != s.db { BumpKeepsLedger(s, t, p); }
    }
  }

  lemma WorkKeepsLedger(s: State, a: Action, max: int)
    requires Enabled(s, a, max) && (a.Expire? || a.RetryOne?) && LedgerInv(s) && ListInv(s)
    ensures LedgerInv(Next(s, a, max))
  {
    var p := s.phase.todo[0];
    assert p in s.phase.todo;
    HandlingIsRowStep(s.db, max, p, EXPIRED, a.RetryOne? && a.delivered, a.stored);
    RowStepKeepsLedger(s, Next(s, a, max), p);
  }

  lemma LedgerKept(s: State, a: Action, max: int)
    requires LedgerInv(s) && ListInv(s)
    ensures LedgerInv(Next(s, a, max))
  {
    if Enabled(s, a, max) {
      match a
      case Sending(_, pair, _, _, _) =>
        var e := SendingIsSent(s, a, max);
        SendKeepsLedger(s, Next(s, a, max), pair, e);
      case Expire(_) => WorkKeepsLedger(s, a, max);
      case RetryOne(_, _) => WorkKeepsLedger(s, a, max);
      case _ =>
    }
  }

  lemma ListKept(s: State, a: Action, max: int)
    requires ListInv(s)
    ensures ListInv(Next(s, a, max))
  {
  }

  lemma TimesKept(s: State, a: Action, max: int)
    requires max >= 1 && TimesInv(s, max) && ListInv(s)
    ensures TimesInv(Next(s, a, max), max)
  {
  }

  lemma {:induction false} LedgerInvariant(run: seq<Action>, max: int)
    ensures LedgerInv(Exec(run, max)) && ListInv(Exec(run, max))
    ensures max >= 1 ==> TimesInv(Exec(run, max), max)
  {
    if run != [] {
      LedgerInvariant(Front(run), max);
      LedgerKept(Exec(Front(run), max), Last(run), max);
      ListKept(Exec(Front(run), max), Last(run), max);
      if max >= 1 { TimesKept(Exec(Front(run), max), Last(run), max); }
    }
  }

  /** Over all passes, with any failures: every row that ever entered the table is
      still there, without any event of its own, or left with exactly one
      confirmation-sent or confirmation-dead event, carrying its saga id and address.
      Every event in the outbox is either written by send-confirmation or such a
      departure, never both, so the retrier announces nothing else; no confirmation
      is declared dead otherwise. */
  lemma {:induction false} EveryRowLeavesOnce(run: seq<Action>, max: int, id: nat)
    ensures var s := Exec(run, max);
      && (id in s.entered ==>
            (id in s.left <==> !(s.entered[id].0 in s.db.failed && s.db.failed[s.entered[id].0].id == id)))
      && (id in s.left ==>
            && id in s.entered && s.left[id] < |s.db.outbox|
            && var e := s.db.outbox[s.left[id]];
               Resolution(e) && e.id == s.entered[id].1 && e.email == s.entered[id].0.email)
      && (forall other :: id in s.left && other in s.left && s.left[id] == s.left[other] ==> id == other)
      && (forall i: nat :: i < |s.db.outbox| ==> (i in s.direct <==> !Departure(s, i)))
      && (forall i :: i in s.direct ==> i < |s.db.outbox| && !s.db.outbox[i].ConfirmationDead?)
      && |s.db.outbox| == |s.direct| + |s.left|
  {
    LedgerInvariant(run, max);
  }

  // --------------------------------------------------------- coverage of a pass

  /** The row with this id is in the table. */
  ghost predicate LiveRow(s: State, id: nat) {
    id in s.entered && s.entered[id].0 in s.db.failed && s.db.failed[s.entered[id].0].id == id
  }

  /** The row with this id is still on the retrier's list. */
  ghost predicate Awaits(s: State, id: nat) {
    !s.phase.Idle? && LiveRow(s, id) && s.entered[id].0 in s.phase.todo
  }

  ghost predicate PassInv(s: State) {
    !s.phase.Idle? ==>
      && Distinct(s.handled)
      && (forall id :: id in s.handled ==> id in s.entered)
      && (forall id :: id in s.handled ==> !Awaits(s, id))
      && (s.phase.Expiring? ==>
            && (forall p :: p in s.db.failed && s.db.failed[p].id in s.handled ==> IsExpired(s.db.failed[p], s.phase.cutoff))
            && (forall id :: id in s.phase.present && id !in s.handled ==>
                  LiveRow(s, id) && (IsExpired(s.db.failed[s.entered[id].0], s.phase.cutoff) ==> Awaits(s, id))))
      && (s.phase.Retrying? ==> forall id :: id in s.phase.present && id !in s.handled ==> Awaits(s, id))
  }

  lemma SendKeepsRow(s: State, a: Action, max: int, id: nat)
    requires a.Sending? && EntriesInv(s) && id in s.entered
    ensures var t := Next(s, a, max);
      && id in t.entered && t.entered[id] == s.entered[id]
      && (LiveRow(s, id) <==> LiveRow(t, id))
      && (LiveRow(s, id) ==> t.db.failed[t.entered[id].0] == s.db.failed[s.entered[id].0])
  {
  }

  lemma SendKeepsPass(s: State, a: Action, max: int)
    requires a.Sending? && LedgerInv(s) && PassInv(s)
    ensures PassInv(Next(s, a, max))
  {
    var t := Next(s, a, max);
    forall id | id in s.entered ensures id in t.entered && t.entered[id] == s.entered[id]
      && (LiveRow(s, id) <==> LiveRow(t, id)) && (LiveRow(s, id) ==> t.db.failed[t.entered[id].0] == s.db.failed[s.entered[id].0])
    {
      SendKeepsRow(s, a, max, id);
    }
    forall p | p in t.db.failed && t.db.failed[p].id in s.entered ensures p in s.db.failed && s.db.failed[p] == t.db.failed[p] {
    }
    if !s.phase.Idle? { OldRowsKeepPass(s, t); }
  }

  /** The pass does not notice what leaves the rows it knows alone. */
  lemma OldRowsKeepPass(s: State, t: State)
    requires EntriesInv(s) && PassInv(s) && !s.phase.Idle? && t.phase == s.phase && t.handled == s.handled
    requires forall id :: id in s.entered ==>
      && id in t.entered && t.entered[id] == s.entered[id] && (LiveRow(s, id) <==> LiveRow(t, id))
      && (LiveRow(s, id) ==> t.db.failed[t.entered[id].0] == s.db.failed[s.entered[id].0])
    requires forall p :: p in t.db.failed && t.db.failed[p].id in s.entered ==> p in s.db.failed && s.db.failed[p] == t.db.failed[p]
    ensures PassInv(t)
  {
    forall id | id in t.handled ensures !Awaits(t, id) { assert !Awaits(s, id); }
  }

  lemma BeginKeepsPass(s: State, cutoff: nat, order: seq<Pair>, max: int)
    requires LedgerInv(s) && Enabled(s, Begin(cutoff, order), max)
    ensures PassInv(Next(s, Begin(cutoff, order), max))
  {
  }

  lemma ListAgainKeepsPass(s: State, order: seq<Pair>, max: int)
    requires LedgerInv(s) && TimesInv(s, max) && PassInv(s) && Enabled(s, ListAgain(order), max)
    ensures PassInv(Next(s, ListAgain(order), max))
  {
  }

  /** t is s after the first listed row was handled. */
  ghost predicate Handled(s: State, t: State, p: Pair) {
    && !s.phase.Idle? && s.phase.todo != [] && p == s.phase.todo[0] && p in s.db.failed
    && RowStep(s.db, t.db, p) && t.entered == s.entered && t.handled == s.handled + [s.db.failed[p].id]
    && t.phase == (if s.phase.Expiring? then Expiring(s.phase.cutoff, s.phase.todo[1..], s.phase.present)
                   else Retrying(s.phase.cutoff, s.phase.todo[1..], s.phase.present))
  }

  /** Only the handled row changes. */
  lemma OthersStay(s: State, t: State, p: Pair, id: nat)
    requires LedgerInv(s) && Handled(s, t, p) && LiveRow(s, id) && id != s.db.failed[p].id
    ensures LiveRow(t, id) && t.db.failed[t.entered[id].0] == s.db.failed[s.entered[id].0]
    ensures Awaits(s, id) ==> Awaits(t, id)
  {
  }

  lemma HandledNoLongerAwaits(s: State, t: State, p: Pair, id: nat)
    requires LedgerInv(s) && Handled(s, t, p) && Distinct(s.phase.todo) && PassInv(s) && id in t.handled
    ensures id in t.entered && !Awaits(t, id)
  {
  }

  /** Handling the first listed row keeps the pass on track. */
  lemma HandledKeepsPass(s: State, t: State, p: Pair)
    requires LedgerInv(s) && Handled(s, t, p) && Distinct(s.phase.todo) && PassInv(s)
    requires s.phase.Expiring? ==> IsExpired(s.db.failed[p], s.phase.cutoff)
    ensures PassInv(t)
  {
    var own := s.db.failed[p].id;
    assert s.entered[own].0 == p && p in s.phase.todo && Awaits(s, own);
    forall id | id in t.handled ensures id in t.entered && !Awaits(t, id) {
      HandledNoLongerAwaits(s, t, p, id);
    }
    forall id | id in t.phase.present && id !in t.handled
      ensures LiveRow(t, id) && t.db.failed[t.entered[id].0] == s.db.failed[s.entered[id].0] && (Awaits(s, id) ==> Awaits(t, id))
    {
      assert id !in s.handled && id != own by { assert t.handled[|s.handled|] == own; }
      OthersStay(s, t, p, id);
    }
    if s.phase.Expiring? { ExpireCovers(s, t, p); }
  }

  lemma WorkKeepsPass(s: State, a: Action, max: int)
    requires Enabled(s, a, max) && (a.Expire? || a.RetryOne?)
    requires LedgerInv(s) && ListInv(s) && PassInv(s)
    requires a.Expire? ==> IsExpired(s.listed[s.phase.todo[0]], s.phase.cutoff)
    ensures PassInv(Next(s, a, max))
  {
    var p := s.phase.todo[0];
    assert p in s.phase.todo && s.db.failed[p] == s.listed[p];
    HandlingIsRowStep(s.db, max, p, EXPIRED, a.RetryOne? && a.delivered, a.stored);
    HandledKeepsPass(s, Next(s, a, max), p);
  }

  lemma ExpireCovers(s: State, t: State, p: Pair)
    requires s.phase.Expiring? && LedgerInv(s) && PassInv(s)
    requires p in s.db.failed && IsExpired(s.db.failed[p], s.phase.cutoff) && RowStep(s.db, t.db, p)
    requires t.handled == s.handled + [s.db.failed[p].id] && t.entered == s.entered
    ensures forall q :: q in t.db.failed && t.db.failed[q].id in t.handled ==> IsExpired(t.db.failed[q], s.phase.cutoff)
  {
  }

  /** Rows on the expiry list are expired. */
  ghost predicate ExpiryInv(s: State) {
    s.phase.Expiring? ==> forall p :: p in s.phase.todo && p in s.listed ==> IsExpired(s.listed[p], s.phase.cutoff)
  }

  lemma ExpiryKept(s: State, a: Action, max: int)
    requires ExpiryInv(s)
    ensures ExpiryInv(Next(s, a, max))
  {
  }

  lemma {:induction false} PassInvariant(run: seq<Action>, max: int)
    requires max >= 1
    ensures PassInv(Exec(run, max)) && ExpiryInv(Exec(run, max))
  {
    if run != [] {
      PassInvariant(Front(run), max);
      LedgerInvariant(Front(run), max);
      var s, a := Exec(Front(run), max), Last(run);
      ExpiryKept(s, a, max);
      StepKeepsPass(s, a, max);
    }
  }

  lemma StepKeepsPass(s: State, a: Action, max: int)
    requires LedgerInv(s) && ListInv(s) && TimesInv(s, max) && ExpiryInv(s) && PassInv(s)
    ensures PassInv(Next(s, a, max))
  {
    if Enabled(s, a, max) {
      match a
      case Sending(_, _, _, _, _) => SendKeepsPass(s, a, max);
      case Begin(cutoff, order) => BeginKeepsPass(s, cutoff, order, max);
      case ListAgain(order) => ListAgainKeepsPass(s, order, max);
      case Expire(_) => assert s.phase.todo[0] in s.phase.todo; WorkKeepsPass(s, a, max);
      case RetryOne(_, _) => WorkKeepsPass(s, a, max);
      case _ =>
    }
  }

  /** Each confirmation pass, whatever fails in it and whatever is added meanwhile,
      handles every row it found exactly once: as expired or as retryable, never
      both, even when a dead-letter transaction failed and left its row behind. */
  lemma PassHandlesEveryRowOnce(run: seq<Action>, max: int)
    requires max >= 1
    ensures var s := Exec(run, max);
      && (s.phase.Retrying? && s.phase.todo == [] ==> forall id :: id in s.phase.present ==> id in s.handled)
      && (!s.phase.Idle? ==> Distinct(s.handled))
      && (forall p :: p in s.db.failed ==> s.db.failed[p].retry < max)
  {
    PassInvariant(run, max);
    LedgerInvariant(run, max);
  }

  // ------------------------------------------------------------ draining the table

  /** One, while a pass is under way. */
  function UnderWay(s: State): nat { if s.phase.Idle? then 0 else 1 }

  /** One, while the pass under way has not found the row, or has dealt with it. */
  ghost function Passed(s: State, id: nat): nat {
    if !s.phase.Idle? && (id in s.phase.present ==> id in s.handled) then 1 else 0
  }

  /** From s to t, every completed pass that began after s cost a row that is still
      there one attempt or one failed write. */
  ghost predicate Paid(s: State, t: State, id: nat) {
    LiveRow(t, id) ==>
      && LiveRow(s, id) && t.entered[id] == s.entered[id]
      && t.completed + Passed(t, id) + s.db.failed[s.entered[id].0].retry + Faults(s, id)
         <= s.completed + UnderWay(s) + t.db.failed[t.entered[id].0].retry + Faults(t, id)
  }

  /** A step that is no work on rows charges a live row nothing. */
  lemma OtherStepsPay(t: State, a: Action, max: int, id: nat)
    requires LedgerInv(t) && PassInv(t) && id in t.entered
    requires Enabled(t, a, max) && !a.Expire? && !a.RetryOne? && LiveRow(Next(t, a, max), id)
    ensures var u := Next(t, a, max);
      && LiveRow(t, id) && u.entered[id] == t.entered[id] && u.db.failed[u.entered[id].0] == t.db.failed[t.entered[id].0]
      && Faults(u, id) == Faults(t, id) && u.completed + Passed(u, id) <= t.completed + Passed(t, id)
  {
    match a
    case Sending(_, _, _, _, _) => SendKeepsRow(t, a, max, id);
    case Begin(_, _) => assert t.db.failed[t.entered[id].0].id in RowIds(t.db.failed);
    case End => assert id in t.phase.present && id !in t.handled ==> Awaits(t, id);
    case _ =>
  }

  /** Work on a row costs that row an attempt or a failed write, and no other row. */
  lemma WorkPays(t: State, a: Action, max: int, id: nat)
    requires LedgerInv(t) && ListInv(t) && id in t.entered
    requires Enabled(t, a, max) && (a.Expire? || a.RetryOne?) && LiveRow(Next(t, a, max), id)
    ensures var u := Next(t, a, max);
      && LiveRow(t, id) && u.entered[id] == t.entered[id]
      && u.completed + Passed(u, id) + t.db.failed[t.entered[id].0].retry + Faults(t, id)
         <= t.completed + Passed(t, id) + u.db.failed[u.entered[id].0].retry + Faults(u, id)
  {
    var u := Next(t, a, max);
    var p := t.phase.todo[0];
    assert p in t.phase.todo && t.db.failed[p] == t.listed[p];
    var own := t.db.failed[p].id;
    WorkIsHandling(t, a, max);
    WorkedRow(t, u, p, id);
    if id == own {
      OwnRowPays(t, a, max);
    }
  }

  lemma WorkIsHandling(t: State, a: Action, max: int)
    requires ListInv(t) && Enabled(t, a, max) && (a.Expire? || a.RetryOne?)
    ensures Handled(t, Next(t, a, max), t.phase.todo[0])
  {
    var p := t.phase.todo[0];
    assert p in t.phase.todo && t.db.failed[p] == t.listed[p];
    HandlingIsRowStep(t.db, max, p, EXPIRED, a.RetryOne? && a.delivered, a.stored);
  }

  lemma WorkedRow(t: State, u: State, p: Pair, id: nat)
    requires EntriesInv(t) && Handled(t, u, p) && LiveRow(u, id)
    ensures LiveRow(t, id) && (t.entered[id].0 == p <==> id == t.db.failed[p].id)
    ensures id != t.db.failed[p].id ==>
      u.db.failed[u.entered[id].0] == t.db.failed[t.entered[id].0] && Passed(u, id) == Passed(t, id)
  {
    assert id != t.db.failed[p].id ==> (id in u.handled <==> id in t.handled);
  }

  lemma OwnRowPays(t: State, a: Action, max: int)
    requires Enabled(t, a, max) && (a.Expire? || a.RetryOne?)
    requires t.phase.todo[0] in t.db.failed && t.db.failed[t.phase.todo[0]] == t.listed[t.phase.todo[0]]
    ensures var u, p := Next(t, a, max), t.phase.todo[0];
      p in u.db.failed ==>
        u.db.failed[p].retry + Faults(u, t.db.failed[p].id) == t.db.failed[p].retry + Faults(t, t.db.failed[p].id) + 1
  {
  }

  lemma {:induction false} EveryPassCosts(run: seq<Action>, more: seq<Action>, max: int, id: nat)
    requires max >= 1 && id in Exec(run, max).entered
    ensures id in Exec(run + more, max).entered && Paid(Exec(run, max), Exec(run + more, max), id)
  {
    if more == [] {
      assert run + more == run;
    } else {
      EveryPassCosts(run, Front(more), max, id);
      var all, a := run + Front(more), Last(more);
      assert Front(run + more) == all && Last(run + more) == a;
      var t := Exec(all, max);
      LedgerInvariant(all, max);
      PassInvariant(all, max);
      StepPays(Exec(run, max), t, a, max, id);
    }
  }

  lemma StepPays(s: State, t: State, a: Action, max: int, id: nat)
    requires LedgerInv(t) && ListInv(t) && PassInv(t) && id in t.entered && Paid(s, t, id)
    ensures id in Next(t, a, max).entered && Paid(s, Next(t, a, max), id)
  {
    if Enabled(t, a, max) && LiveRow(Next(t, a, max), id) {
      if a.Expire? || a.RetryOne? {
        WorkPays(t, a, max, id);
      } else {
        OtherStepsPay(t, a, max, id);
      }
    }
  }

  /** The table drains. Whatever is added meanwhile and whatever fails elsewhere, a
      row that had entered by some moment is gone, with its own event, once MaxRetries
      passes begun after that moment have completed, plus one for each failed write on
      that very row. */
  lemma PassesDrain(run: seq<Action>, more: seq<Action>, max: int, id: nat)
    requires max >= 1 && id in Exec(run, max).entered
    ensures var s, t := Exec(run, max), Exec(run + more, max);
      t.completed >= s.completed + UnderWay(s) + max + (Faults(t, id) - Faults(s, id)) ==> !LiveRow(t, id) && id in t.left
  {
    EveryPassCosts(run, more, max, id);
    LedgerInvariant(run + more, max);
  }
}

/** The subscribe saga: its state table, the guarded updates of the `sagas`
    table, and the five event handlers with the NATS compensator. */
module Saga {
  import opened Types

  datatype Phase = Pending | Sent | Completed | Compensated | Expired

  const ALLOWED_TRANSITIONS: map<Phase, seq<Phase>> := map[
    Pending := [Sent, Completed, Compensated, Expired],
    Sent := [Completed, Compensated, Expired]]

  predicate Allowed(from: Phase, to: Phase) {
    from in ALLOWED_TRANSITIONS && to in ALLOWED_TRANSITIONS[from]
  }

  function Rank(p: Phase): nat {
    match p
    case Pending => 0
    case Sent => 1
    case _ => 2
  }

  predicate Terminal(p: Phase) {
    p !in ALLOWED_TRANSITIONS
  }

  /** The transition table is a strict order towards exactly the terminal phases. */
  lemma TransitionTable(from: Phase, to: Phase)
    ensures Allowed(from, to) <==> Rank(from) < Rank(to)
    ensures Terminal(from) <==> forall p :: !Allowed(from, p)
    ensures Terminal(from) <==> from in {Completed, Compensated, Expired}
  {
    if !Terminal(from) {
      assert Allowed(from, Completed);
    }
  }

  /** The inverse relation, collected by a nested loop over the table in whatever
      order the map iteration yields. */
  method SourceStates(to: Phase) returns (sources: seq<Phase>)
    ensures forall from :: from in sources <==> Allowed(from, to)
    ensures Distinct(sources)
  {
    sources := [];
    var rest := ALLOWED_TRANSITIONS.Keys;
    while rest != {}
      invariant rest <= ALLOWED_TRANSITIONS.Keys
      invariant forall from :: from in sources <==> from !in rest && Allowed(from, to)
      invariant Distinct(sources)
    {
      var from :| from in rest;
      rest := rest - {from};
      var targets := ALLOWED_TRANSITIONS[from];
      ghost var before := sources;
      for i := 0 to |targets|
        invariant sources == if to in targets[..i] then before + [from] else before
      {
        assert targets[..i + 1] == targets[..i] + [targets[i]];
        TargetsOnce(from);
        if targets[i] == to {
          sources := sources + [from];
        }
      }
      assert targets[..|targets|] == targets;
    }
  }

  lemma AllowedComposes(a: Phase, b: Phase, c: Phase)
    requires (a == b || Allowed(a, b)) && (b == c || Allowed(b, c))
    ensures a == c || Allowed(a, c)
  {
  }

  lemma TargetsOnce(from: Phase)
    requires from in ALLOWED_TRANSITIONS
    ensures Distinct(ALLOWED_TRANSITIONS[from])
  {
  }

  // -------------------------------------------------------- the sagas table

  /** A row of `sagas`; the map key carries (email, repo_name), and the only saga
      type is "subscribe". */
  datatype Row = Row(id: SagaId, phase: Phase)
  type Table = map<Pair, Row>

  /** Primary key on id. */
  predicate UniqueIds(t: Table) {
    forall p, q :: p in t && q in t && t[p].id == t[q].id ==> p == q
  }

  /** The upsert of `Start`: it fails only if another pair already owns the id. */
  function Start(t: Table, id: SagaId, pair: Pair): Option<Table> {
    if exists p :: p in t && p != pair && t[p].id == id then None
    else Some(t[pair := Row(id, Pending)])
  }

  function ById(t: Table, id: SagaId, to: Phase): Table {
    map p | p in t :: if t[p].id == id && Allowed(t[p].phase, to) then t[p].(phase := to) else t[p]
  }

  function ByPair(t: Table, pair: Pair, to: Phase): Table {
    if pair in t && Allowed(t[pair].phase, to) then t[pair := t[pair].(phase := to)] else t
  }

  lemma UpdatesKeepIds(t: Table, id: SagaId, to: Phase)
    requires UniqueIds(t)
    ensures UniqueIds(ById(t, id, to))
  {
  }

  /** What `Get` hands to the compensator. */
  datatype Snapshot = Snapshot(id: SagaId, pair: Pair)

  predicate Compensable(t: Table, s: Snapshot) {
    s.pair in t && t[s.pair].id == s.id && !Terminal(t[s.pair].phase)
  }

  /** The saga service: its table, and the commands committed to its outbox. */
  datatype Db = Db(sagas: Table, outbox: seq<Event>)

  /** NATSCompensator.Compensate, committed: the transition's result is ignored
      and the command is enqueued either way. */
  function Compensate(db: Db, s: Snapshot): Db {
    Db(ById(db.sagas, s.id, Compensated), db.outbox + [SagaCompensate(s.id, s.pair)])
  }

  class Coordinator {
    var sagas: Table
    var outbox: seq<Event>

    ghost predicate Valid() reads this { UniqueIds(sagas) }
    ghost function Contents(): Db reads this { Db(sagas, outbox) }

    constructor ()
      ensures Valid() && Contents() == Db(map[], [])
    {
      sagas, outbox := map[], [];
    }

    /** Subscription pending: (re)start the saga of the pair. */
    method OnPending(id: Option<SagaId>, pair: Pair) returns (err: bool)
      requires Valid()
      modifies this`sagas
      ensures Valid()
      ensures !err ==> id.Some? && Start(old(sagas), id.value, pair) == Some(sagas)
      ensures !err ==> pair in sagas && sagas[pair] == Row(id.value, Pending) && sagas - {pair} == old(sagas) - {pair}
      ensures err ==> sagas == old(sagas)
    {
      var stored: bool := *;
      if id.None? || !stored || exists p :: p in sagas && p != pair && sagas[p].id == id.value {
        return true;
      }
      sagas := sagas[pair := Row(id.value, Pending)];
      err := false;
    }

    /** UPDATE ... WHERE id = $1 AND state = ANY(sources). */
    method TransitionById(id: SagaId, to: Phase) returns (moved: bool, err: bool)
      requires Valid()
      modifies this`sagas
      ensures Valid()
      ensures err ==> sagas == old(sagas)
      ensures !err ==> sagas == ById(old(sagas), id, to)
      ensures sagas.Keys == old(sagas).Keys && forall p :: p in sagas ==> sagas[p].id == old(sagas)[p].id
      ensures !err ==> (moved <==> exists p :: p in old(sagas) && old(sagas)[p].id == id && Allowed(old(sagas)[p].phase, to))
    {
      var sources := SourceStates(to);
      var stored: bool := *;
      if !stored {
        return false, true;
      }
      var hits := set p | p in sagas && sagas[p].id == id && sagas[p].phase in sources;
      var t := map p | p in sagas :: if p in hits then sagas[p].(phase := to) else sagas[p];
      assert t == ById(sagas, id, to);
      UpdatesKeepIds(sagas, id, to);
      moved, err := hits != {}, false;
      assert forall p :: p in hits <==> p in sagas && sagas[p].id == id && Allowed(sagas[p].phase, to);
      sagas := t;
    }

    method TransitionByEmailRepo(pair: Pair, to: Phase) returns (moved: bool, err: bool)
      requires Valid()
      modifies this`sagas
      ensures Valid()
      ensures err ==> sagas == old(sagas)
      ensures !err ==> sagas == ByPair(old(sagas), pair, to)
      ensures !err ==> (moved <==> pair in old(sagas) && Allowed(old(sagas)[pair].phase, to))
    {
      var sources := SourceStates(to);
      var stored: bool := *;
      if !stored {
        return false, true;
      }
      moved, err := pair in sagas && sagas[pair].phase in sources, false;
      if moved {
        sagas := sagas[pair := sagas[pair].(phase := to)];
      }
    }

    method OnConfirmationSent(id: Option<SagaId>) returns (err: bool)
      requires Valid()
      modifies this`sagas
      ensures Valid()
      ensures err ==> sagas == old(sagas)
      ensures !err ==> id.Some? && sagas == ById(old(sagas), id.value, Sent)
      ensures !err ==> sagas.Keys == old(sagas).Keys && forall p :: p in sagas ==>
        sagas[p] == if old(sagas)[p] == Row(id.value, Pending) then Row(id.value, Sent) else old(sagas)[p]
    {
      if id.None? {
        return true;
      }
      var _, e := TransitionById(id.value, Sent);
      err := e;
    }

    method OnConfirmed(pair: Pair) returns (err: bool)
      requires Valid()
      modifies this`sagas
      ensures Valid()
      ensures sagas == if err then old(sagas) else ByPair(old(sagas), pair, Completed)
      ensures !err && pair in old(sagas) ==>
        && pair in sagas
        && sagas[pair] == if old(sagas)[pair].phase in {Pending, Sent} then Row(old(sagas)[pair].id, Completed) else old(sagas)[pair]
      ensures sagas - {pair} == old(sagas) - {pair}
    {
      var _, e := TransitionByEmailRepo(pair, Completed);
      err := e;
    }

    method OnExpired(pair: Pair) returns (err: bool)
      requires Valid()
      modifies this`sagas
      ensures Valid()
      ensures sagas == if err then old(sagas) else ByPair(old(sagas), pair, Expired)
      ensures !err && pair in old(sagas) ==>
        && pair in sagas
        && sagas[pair] == if old(sagas)[pair].phase in {Pending, Sent} then Row(old(sagas)[pair].id, Expired) else old(sagas)[pair]
      ensures sagas - {pair} == old(sagas) - {pair}
    {
      var _, e := TransitionByEmailRepo(pair, Expired);
      err := e;
    }

    method Get(id: SagaId) returns (found: Option<Snapshot>, phase: Phase, err: bool)
      requires Valid()
      ensures !err && found.Some? ==>
                found.value.id == id && found.value.pair in sagas && sagas[found.value.pair] == Row(id, phase)
      ensures !err && found.None? ==> forall p :: p in sagas ==> sagas[p].id != id
    {
      var read: bool := *;
      found, phase, err := None, Pending, !read;
      var hits := set p | p in sagas && sagas[p].id == id;
      if read && hits != {} {
        var p :| p in hits;
        found, phase := Some(Snapshot(id, p)), sagas[p].phase;
      } else if read {
        assert forall p :: p in sagas ==> p !in hits;
      }
    }

    /** One transaction: transition, then enqueue; a failure of either, or of the
        commit, restores both. */
    method CompensateViaOutbox(s: Snapshot) returns (err: bool)
      requires Valid()
      modifies this
      ensures Valid()
      ensures Contents() == if err then old(Contents()) else Compensate(old(Contents()), s)
      ensures !err ==> outbox == old(outbox) + [SagaCompensate(s.id, s.pair)]
      ensures !err ==> sagas.Keys == old(sagas).Keys && forall p :: p in sagas ==>
        sagas[p] == if old(sagas)[p].id == s.id && old(sagas)[p].phase in {Pending, Sent} then Row(s.id, Compensated) else old(sagas)[p]
    {
      var savedSagas, savedOutbox := sagas, outbox;
      var _, e := TransitionById(s.id, Compensated);
      var enqueued: bool, committed: bool := *, *;
      if e || !enqueued || !committed {
        sagas, outbox := savedSagas, savedOutbox;
        return true;
      }
      outbox := outbox + [SagaCompensate(s.id, s.pair)];
      err := false;
    }

    /** Confirmation dead, NATS transport, with nothing interleaved. */
    method OnConfirmationDead(id: Option<SagaId>) returns (err: bool)
      requires Valid()
      modifies this
      ensures Valid()
      ensures err ==> Contents() == old(Contents())
      ensures !err ==> id.Some? && Contents() == Dead(old(Contents()), id.value)
      ensures !err ==> forall p :: p in old(sagas) && old(sagas)[p].id == id.value ==>
        if old(sagas)[p].phase in {Pending, Sent}
        then outbox == old(outbox) + [SagaCompensate(id.value, p)] && p in sagas && sagas[p] == Row(id.value, Compensated)
        else Contents() == old(Contents())
      ensures !err && (forall p :: p in old(sagas) ==> old(sagas)[p].id != id.value) ==> Contents() == old(Contents())
    {
      if id.None? {
        return true;
      }
      var found, phase, e := Get(id.value);
      if e {
        return true;
      }
      if found.None? {
        DeadOfNone(Contents(), id.value);
        return false;
      }
      DeadOfRow(Contents(), found.value);
      TransitionTable(phase, phase);
      if phase in {Completed, Expired, Compensated} {
        return false;
      }
      assert Dead(Contents(), id.value) == Compensate(Contents(), found.value);
      err := CompensateViaOutbox(found.value);
    }
  }

  /** OnConfirmationDead as one atomic step: compensate the saga if its row can
      still be compensated, otherwise do nothing. */
  ghost function Dead(db: Db, id: SagaId): Db {
    if s: Snapshot :| s.id == id && Compensable(db.sagas, s) then Compensate(db, s) else db
  }

  lemma DeadOfNone(db: Db, id: SagaId)
    requires forall p :: p in db.sagas ==> db.sagas[p].id != id
    ensures Dead(db, id) == db
  {
  }

  lemma DeadOfRow(db: Db, s: Snapshot)
    requires UniqueIds(db.sagas) && s.pair in db.sagas && db.sagas[s.pair].id == s.id
    ensures Dead(db, s.id) == if Terminal(db.sagas[s.pair].phase) then db else Compensate(db, s)
  {
    assert forall q: Snapshot :: q.id == s.id && Compensable(db.sagas, q) ==> q == s;
    assert Compensable(db.sagas, s) <==> !Terminal(db.sagas[s.pair].phase);
  }

  // ------------------------------------------------ runs of the coordinator

  /** A handler that committed. One that failed left the database as it was and
      is no step. `OnDead` carries what an earlier `Get` returned, however stale. */
  datatype Action =
    | OnPending(id: SagaId, pair: Pair)
    | OnSent(id: SagaId)
    | OnConfirmed(pair: Pair)
    | OnExpired(pair: Pair)
    | OnDead(snapshot: Snapshot)

  function Next(db: Db, a: Action): Db {
    match a
    case OnPending(id, pair) =>
      (match Start(db.sagas, id, pair)
       case Some(t) => db.(sagas := t)
       case None => db)
    case OnSent(id) => db.(sagas := ById(db.sagas, id, Sent))
    case OnConfirmed(pair) => db.(sagas := ByPair(db.sagas, pair, Completed))
    case OnExpired(pair) => db.(sagas := ByPair(db.sagas, pair, Expired))
    case OnDead(s) => Compensate(db, s)
  }

  function Exec(db: Db, run: seq<Action>): Db {
    if run == [] then db else Next(Exec(db, Front(run)), Last(run))
  }

  lemma StepKeepsIds(db: Db, a: Action)
    requires UniqueIds(db.sagas)
    ensures UniqueIds(Next(db, a).sagas)
  {
  }

  /** One step that is no Start of the pair. */
  lemma StepAdvances(db: Db, a: Action, pair: Pair)
    requires a.OnPending? ==> a.pair != pair
    ensures var t := Next(db, a).sagas;
      && (pair in t <==> pair in db.sagas)
      && (pair in t ==>
            && t[pair].id == db.sagas[pair].id
            && (t[pair].phase == db.sagas[pair].phase || Allowed(db.sagas[pair].phase, t[pair].phase)))
  {
  }

  /** Between two Starts of a pair, under any events in any order and any number:
      the row keeps its id and its phase only moves along the transition table.
      At most one row owns an id, and none owns a pair twice (the table is a map). */
  lemma {:induction false} PhasesOnlyAdvance(db: Db, run: seq<Action>, pair: Pair)
    requires UniqueIds(db.sagas)
    requires forall a :: a in run && a.OnPending? ==> a.pair != pair
    ensures var t := Exec(db, run).sagas;
      && UniqueIds(t)
      && (pair in t <==> pair in db.sagas)
      && (pair in t ==>
            && t[pair].id == db.sagas[pair].id
            && (t[pair].phase == db.sagas[pair].phase || Allowed(db.sagas[pair].phase, t[pair].phase)))
  {
    if run != [] {
      PhasesOnlyAdvance(db, Front(run), pair);
      var u, a := Exec(db, Front(run)).sagas, Last(run);
      assert a in run;
      StepKeepsIds(Exec(db, Front(run)), a);
      StepAdvances(Exec(db, Front(run)), a, pair);
      if pair in u {
        AllowedComposes(db.sagas[pair].phase, u[pair].phase, Next(Exec(db, Front(run)), a).sagas[pair].phase);
      }
    }
  }

  /** Events correlated by a given saga id. */
  predicate Carries(a: Action, id: SagaId) {
    (a.OnSent? && a.id == id) || (a.OnDead? && a.snapshot.id == id)
  }

  function Without(run: seq<Action>, id: SagaId): seq<Action> {
    if run == [] then []
    else Without(Front(run), id) + if Carries(Last(run), id) then [] else [Last(run)]
  }

  /** A superseded attempt is inert: once a pair belongs to another id, and unless
      the old pending event is redelivered, erasing every confirmation-sent and
      confirmation-dead event of the old id from the run leaves the pair's row, and
      the owner of every id, exactly as they are. */
  lemma {:induction false} SupersededIsInert(db: Db, run: seq<Action>, pair: Pair, old_: SagaId)
    requires UniqueIds(db.sagas)
    requires pair in db.sagas && db.sagas[pair].id != old_
    requires OnPending(old_, pair) !in run
    ensures var t, u := Exec(db, run).sagas, Exec(db, Without(run, old_)).sagas;
      && UniqueIds(t) && t.Keys == u.Keys && (forall p :: p in t ==> t[p].id == u[p].id)
      && pair in t && t[pair].id != old_ && t[pair] == u[pair]
  {
    if run != [] {
      SupersededIsInert(db, Front(run), pair, old_);
      var d, a, rest := Exec(db, Front(run)), Last(run), Without(Front(run), old_);
      assert a in run;
      StepKeepsIds(d, a);
      NoTakeover(d, a, pair, old_);
      if Carries(a, old_) {
        assert Without(run, old_) == rest;
      } else {
        assert Front(rest + [a]) == rest && Last(rest + [a]) == a;
        SameOwners(d, Exec(db, rest), a);
      }
    }
  }

  /** And with atomic handlers it triggers nothing: as long as no row owns the old id
      and its pending event stays away, a dead event of the old id finds no saga. */
  lemma {:induction false} SupersededNeverCompensates(db: Db, run: seq<Action>, old_: SagaId)
    requires forall p :: p in db.sagas ==> db.sagas[p].id != old_
    requires forall a :: a in run && a.OnPending? ==> a.id != old_
    ensures Dead(Exec(db, run), old_) == Exec(db, run)
    ensures forall p :: p in Exec(db, run).sagas ==> Exec(db, run).sagas[p].id != old_
  {
    if run != [] {
      SupersededNeverCompensates(db, Front(run), old_);
      assert Last(run) in run;
      NobodyTakes(Exec(db, Front(run)), Last(run), old_);
    }
    DeadOfNone(Exec(db, run), old_);
  }

  lemma NobodyTakes(db: Db, a: Action, old_: SagaId)
    requires forall p :: p in db.sagas ==> db.sagas[p].id != old_
    requires a.OnPending? ==> a.id != old_
    ensures forall p :: p in Next(db, a).sagas ==> Next(db, a).sagas[p].id != old_
  {
  }

  /** A pair's id changes only by a Start of that pair; an event of another id
      changes no id and not this row. */
  lemma NoTakeover(d: Db, a: Action, pair: Pair, old_: SagaId)
    requires pair in d.sagas && d.sagas[pair].id != old_ && a != OnPending(old_, pair)
    ensures var t := Next(d, a).sagas;
      && pair in t && t[pair].id != old_
      && (Carries(a, old_) ==>
            t.Keys == d.sagas.Keys && t[pair] == d.sagas[pair] && forall p :: p in t ==> t[p].id == d.sagas[p].id)
  {
  }

  /** Handlers read ids and the row they touch; they cannot tell such tables apart. */
  lemma SameOwners(d: Db, e: Db, a: Action)
    requires d.sagas.Keys == e.sagas.Keys && forall p :: p in d.sagas ==> d.sagas[p].id == e.sagas[p].id
    ensures var t, u := Next(d, a).sagas, Next(e, a).sagas;
      && t.Keys == u.Keys
      && (forall p :: p in t ==> t[p].id == u[p].id)
      && (forall p :: p in d.sagas && d.sagas[p] == e.sagas[p] ==> t[p] == u[p])
  {
  }
}

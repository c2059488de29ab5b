/** The saga with the gRPC compensator: the state is written first, then the
    subscription service is called, and nothing remembers a lost call. */
module GrpcCompensation {
  import opened Types
  import Sub = Subscriptions
  import Saga

  /** The tables of the two services. */
  datatype Tables = Tables(sagas: Saga.Table, sub: Sub.Db)

  /** OnConfirmationDead with the NATS compensator, followed by the relay and the
      command's handling, when nothing fails: the two tables afterwards. */
  ghost function ViaNats(saga: Saga.Db, sub: Sub.Db, id: SagaId): Tables {
    var t := Saga.Dead(saga, id);
    Tables(t.sagas, if |t.outbox| > |saga.outbox| && Last(t.outbox).SagaCompensate?
                    then Sub.Compensate(sub, Last(t.outbox).pair) else sub)
  }

  /** The gRPC compensator, with what `Get` returned; `called` tells whether the remote
      call took effect. */
  function Compensated(t: Tables, s: Saga.Snapshot, called: bool): Tables {
    Tables(Saga.ById(t.sagas, s.id, Saga.Compensated), if called then Sub.Compensate(t.sub, s.pair) else t.sub)
  }

  /** OnConfirmationDead with it, as one step. */
  ghost function ViaGrpc(t: Tables, id: SagaId, called: bool): Tables {
    if s: Saga.Snapshot :| s.id == id && Saga.Compensable(t.sagas, s) then Compensated(t, s, called) else t
  }

  lemma ViaGrpcOf(t: Tables, s: Saga.Snapshot, called: bool)
    requires Saga.UniqueIds(t.sagas) && Saga.Compensable(t.sagas, s)
    ensures ViaGrpc(t, s.id, called) == Compensated(t, s, called)
  {
    assert forall q: Saga.Snapshot :: q.id == s.id && Saga.Compensable(t.sagas, q) ==> q == s;
  }

  /** When nothing fails both transports end in the same tables. */
  lemma TransportsAgree(saga: Saga.Db, sub: Sub.Db, id: SagaId)
    requires Saga.UniqueIds(saga.sagas)
    ensures ViaNats(saga, sub, id) == ViaGrpc(Tables(saga.sagas, sub), id, true)
  {
    if s: Saga.Snapshot :| s.id == id && Saga.Compensable(saga.sagas, s) {
      Saga.DeadOfRow(saga, s);
      ViaGrpcOf(Tables(saga.sagas, sub), s, true);
    }
  }

  // ---------------------------------------------------------------------- runs

  /** Everything that may happen at the two services. */
  datatype Step =
    | Event(a: Saga.Action)                      // any other event of any saga
    | Dead(id: SagaId, called: bool)             // a dead event, delivered for the first time or again
    | Late(s: Saga.Snapshot, called: bool)       // a handler that read the saga earlier
    | Use(use: Sub.Action)                       // a use case of the subscription service

  ghost function Next(t: Tables, x: Step): Tables {
    match x
    case Event(a) => t.(sagas := Saga.Next(Saga.Db(t.sagas, []), a).sagas)
    case Dead(id, called) => ViaGrpc(t, id, called)
    case Late(s, called) => Compensated(t, s, called)
    case Use(a) => t.(sub := Sub.Next(t.sub, a))
  }

  ghost function Exec(t: Tables, run: seq<Step>): Tables {
    if run == [] then t else Next(Exec(t, Front(run)), Last(run))
  }

  /** The keys of the two tables. */
  ghost predicate Keyed(t: Tables) { Saga.UniqueIds(t.sagas) && Sub.UniqueTokens(t.sub.subs) }

  ghost predicate Waits(t: Tables, pair: Pair) { Sub.HasPending(t.sub.subs, pair) }

  /** What ends a pending row other than a dead event: a late call for the pair, its
      own token, its confirmation, a cleanup with a cutoff later than its creation, a
      rollback. */
  ghost predicate EndsOtherwise(t: Tables, x: Step, pair: Pair) {
    match x
    case Late(s, called) => called && s.pair == pair
    case Use(a) => Sub.EndsPending(t.sub, a, pair)
    case _ => false
  }

  /** A dead event ends it exactly if its call works and its id owns the pair's saga,
      which is not terminal. */
  ghost predicate EndsByDead(t: Tables, x: Step, pair: Pair) {
    x.Dead? && x.called && Saga.Compensable(t.sagas, Saga.Snapshot(x.id, pair))
  }

  lemma KeysKept(t: Tables, x: Step)
    requires Keyed(t)
    ensures Keyed(Next(t, x))
  {
    match x
    case Event(a) => Saga.StepKeepsIds(Saga.Db(t.sagas, []), a);
    case Dead(id, called) => Saga.UpdatesKeepIds(t.sagas, id, Saga.Compensated);
    case Late(s, called) => Saga.UpdatesKeepIds(t.sagas, s.id, Saga.Compensated);
    case Use(a) => Sub.StepKeepsTokens(t.sub, a);
  }

  lemma {:induction false} KeysHold(t: Tables, run: seq<Step>)
    requires Keyed(t)
    ensures Keyed(Exec(t, run))
  {
    if run != [] {
      KeysHold(t, Front(run));
      KeysKept(Exec(t, Front(run)), Last(run));
    }
  }

  /** Over every step, a pending row stays exactly if the step ends it in neither way. */
  lemma WaitsOnIff(t: Tables, x: Step, pair: Pair)
    requires Keyed(t) && Waits(t, pair)
    ensures Waits(Next(t, x), pair) <==> !EndsOtherwise(t, x, pair) && !EndsByDead(t, x, pair)
  {
    match x
    case Dead(id, called) =>
      if s: Saga.Snapshot :| s.id == id && Saga.Compensable(t.sagas, s) {
        ViaGrpcOf(t, s, called);
        assert s == Saga.Snapshot(id, s.pair);
      }
    case Use(a) => Sub.PendingKeptIff(t.sub, a, pair);
    case _ =>
  }

  lemma ExecStep(t: Tables, run: seq<Step>, k: nat)
    requires k < |run|
    ensures Exec(t, run[..k + 1]) == Next(Exec(t, run[..k]), run[k])
  {
    assert Front(run[..k + 1]) == run[..k] && Last(run[..k + 1]) == run[k];
  }

  /** No step of the run ends the pending row. */
  ghost predicate Spared(t: Tables, run: seq<Step>, pair: Pair, n: nat)
    requires n <= |run|
  {
    forall k :: 0 <= k < n ==>
      !EndsOtherwise(Exec(t, run[..k]), run[k], pair) && !EndsByDead(Exec(t, run[..k]), run[k], pair)
  }

  lemma {:induction false} SparedWaits(t: Tables, run: seq<Step>, pair: Pair, n: nat)
    requires Keyed(t) && Waits(t, pair) && n <= |run| && Spared(t, run, pair, n)
    ensures Waits(Exec(t, run[..n]), pair)
  {
    if n > 0 {
      SparedWaits(t, run, pair, n - 1);
      KeysHold(t, run[..n - 1]);
      ExecStep(t, run, n - 1);
      WaitsOnIff(Exec(t, run[..n - 1]), run[n - 1], pair);
    }
  }

  /** Over every run, a pending row stays throughout exactly if no step ends it. */
  lemma WaitsThroughoutIff(t: Tables, run: seq<Step>, pair: Pair)
    requires Keyed(t) && Waits(t, pair)
    ensures (forall k :: 0 <= k <= |run| ==> Waits(Exec(t, run[..k]), pair)) <==> Spared(t, run, pair, |run|)
  {
    if forall k :: 0 <= k <= |run| ==> Waits(Exec(t, run[..k]), pair) {
      forall k | 0 <= k < |run|
        ensures !EndsOtherwise(Exec(t, run[..k]), run[k], pair) && !EndsByDead(Exec(t, run[..k]), run[k], pair)
      {
        assert Waits(Exec(t, run[..k]), pair) && Waits(Exec(t, run[..k + 1]), pair);
        KeysHold(t, run[..k]);
        ExecStep(t, run, k);
        WaitsOnIff(Exec(t, run[..k]), run[k], pair);
      }
    } else if Spared(t, run, pair, |run|) {
      forall k | 0 <= k <= |run| ensures Waits(Exec(t, run[..k]), pair) {
        SparedWaits(t, run, pair, k);
      }
    }
  }

  predicate Starts(x: Step, pair: Pair) { x.Event? && x.a.OnPending? && x.a.pair == pair }

  /** A terminal saga stays as it is until its pair is started again. */
  lemma {:induction false} TerminalStays(t: Tables, run: seq<Step>, pair: Pair)
    requires pair in t.sagas && Saga.Terminal(t.sagas[pair].phase)
    requires forall x :: x in run ==> !Starts(x, pair)
    ensures pair in Exec(t, run).sagas && Exec(t, run).sagas[pair] == t.sagas[pair]
  {
    if run != [] {
      TerminalStays(t, Front(run), pair);
      assert Last(run) in run;
      TerminalKept(Exec(t, Front(run)), Last(run), pair);
    }
  }

  lemma TerminalKept(t: Tables, x: Step, pair: Pair)
    requires pair in t.sagas && Saga.Terminal(t.sagas[pair].phase) && !Starts(x, pair)
    ensures pair in Next(t, x).sagas && Next(t, x).sagas[pair] == t.sagas[pair]
  {
    if x.Event? { Saga.StepAdvances(Saga.Db(t.sagas, []), x.a, pair); }
  }

  /** The gRPC rollback can be lost for good. Whatever follows the first dead event, at
      either service, as long as it does not start the pair again: the saga stays
      compensated, no redelivered dead event does anything for the pair, and its
      pending row stays exactly if the first call did not take effect and nothing else
      ends it, be it a late call, its own token, its confirmation or the cleanup. */
  lemma RollbackIffCalled(t: Tables, s: Saga.Snapshot, called: bool, run: seq<Step>)
    requires Keyed(t) && Saga.Compensable(t.sagas, s) && Waits(t, s.pair)
    requires forall x :: x in run ==> !Starts(x, s.pair)
    ensures var u := Next(t, Dead(s.id, called));
      && (forall k :: 0 <= k <= |run| ==>
            s.pair in Exec(u, run[..k]).sagas && Exec(u, run[..k]).sagas[s.pair] == Saga.Row(s.id, Saga.Compensated))
      && ((forall k :: 0 <= k <= |run| ==> Waits(Exec(u, run[..k]), s.pair)) <==>
            !called && forall k :: 0 <= k < |run| ==> !EndsOtherwise(Exec(u, run[..k]), run[k], s.pair))
  {
    var u := Next(t, Dead(s.id, called));
    ViaGrpcOf(t, s, called);
    Saga.TransitionTable(t.sagas[s.pair].phase, Saga.Compensated);
    Saga.TransitionTable(Saga.Compensated, Saga.Compensated);
    assert u.sagas[s.pair] == Saga.Row(s.id, Saga.Compensated);
    KeysKept(t, Dead(s.id, called));
    forall k | 0 <= k <= |run|
      ensures s.pair in Exec(u, run[..k]).sagas && Exec(u, run[..k]).sagas[s.pair] == Saga.Row(s.id, Saga.Compensated)
    {
      TerminalStays(u, run[..k], s.pair);
    }
    if called {
      assert run[..0] == [] && Exec(u, run[..0]) == u;
    } else {
      WaitsThroughoutIff(u, run, s.pair);
      assert forall k :: 0 <= k < |run| ==> !EndsByDead(Exec(u, run[..k]), run[k], s.pair);
    }
  }

  /** The side condition is needed: a pending event of the pair handled after the lost
      call, redelivered or new, makes a dead event of its id roll back after all. */
  lemma RollbackAfterRestart(t: Tables, s: Saga.Snapshot, id: SagaId)
    requires Keyed(t) && Saga.Compensable(t.sagas, s) && Waits(t, s.pair)
    requires forall q :: q in t.sagas && q != s.pair ==> t.sagas[q].id != id
    ensures var u := Next(t, Dead(s.id, false));
      !Waits(Next(Next(u, Event(Saga.OnPending(id, s.pair))), Dead(id, true)), s.pair)
  {
    var u := Next(t, Dead(s.id, false));
    ViaGrpcOf(t, s, false);
    KeysKept(t, Dead(s.id, false));
    var v := Next(u, Event(Saga.OnPending(id, s.pair)));
    assert v.sagas == u.sagas[s.pair := Saga.Row(id, Saga.Pending)];
    KeysKept(u, Event(Saga.OnPending(id, s.pair)));
    Saga.TransitionTable(Saga.Pending, Saga.Pending);
    ViaGrpcOf(v, Saga.Snapshot(id, s.pair), true);
  }

  // --------------------------------------------------------------- such a run

  const P := Pair("a@x.org", "o/n")
  const ROW := Sub.Row("t", false, 0)
  const NONE := Tables(map[], Sub.EMPTY)

  /** Somebody subscribes, the saga starts, the confirmation is dead, the call is lost. */
  const LOST := [Use(Sub.Pend(1, P, "u", Some(ROW))), Event(Saga.OnPending(1, P)), Dead(1, false)]

  lemma AfterSaga()
    ensures Exec(NONE, LOST[..2]) ==
      Tables(map[P := Saga.Row(1, Saga.Pending)], Sub.Db(map[P := ROW], {"t"}, [SubscriptionPending(1, P, "u")]))
  {
    assert Front(LOST[..2]) == LOST[..1] && Front(LOST[..1]) == [];
    assert Exec(NONE, LOST[..1]) == Tables(map[], Sub.Db(map[P := ROW], {"t"}, [SubscriptionPending(1, P, "u")]));
  }

  lemma AfterLost()
    ensures Exec(NONE, LOST) ==
      Tables(map[P := Saga.Row(1, Saga.Compensated)], Sub.Db(map[P := ROW], {"t"}, [SubscriptionPending(1, P, "u")]))
  {
    AfterSaga();
    var t := Exec(NONE, LOST[..2]);
    assert Front(LOST) == LOST[..2];
    Saga.TransitionTable(Saga.Pending, Saga.Compensated);
    ViaGrpcOf(t, Saga.Snapshot(1, P), false);
  }

  /** From then on working calls for the same dead event, however many, leave the row
      pending under a compensated saga; the cleanup ends it in the end. */
  lemma LostCallStrandsRow(n: nat)
    ensures var t := Exec(Exec(NONE, LOST), seq(n, _ => Dead(1, true)));
      && t.sagas == map[P := Saga.Row(1, Saga.Compensated)] && Waits(t, P)
      && !Waits(Next(t, Use(Sub.Sweep(1, [P]))), P)
  {
    AfterLost();
    var u := Exec(NONE, LOST);
    Saga.TransitionTable(Saga.Compensated, Saga.Compensated);
    AgainIsIdle(u, n);
    Swept(u);
  }

  lemma Swept(u: Tables)
    requires u.sub.subs == map[P := ROW]
    ensures !Waits(Next(u, Use(Sub.Sweep(1, [P]))), P)
  {
    assert Elems([P]) == Sub.ExpiredPairs(u.sub.subs, 1);
  }

  lemma {:induction false} AgainIsIdle(u: Tables, n: nat)
    requires forall s: Saga.Snapshot :: s.id == 1 ==> !Saga.Compensable(u.sagas, s)
    ensures Exec(u, seq(n, _ => Dead(1, true))) == u
  {
    if n > 0 {
      AgainIsIdle(u, n - 1);
      assert Front(seq(n, _ => Dead(1, true))) == seq(n - 1, _ => Dead(1, true));
    }
  }

  /** The gRPC compensator itself: the transition commits on its own, then the
      remote call may be lost, or take effect and still report an error. */
  method CompensateViaRpc(c: Saga.Coordinator, svc: Sub.Service, s: Saga.Snapshot) returns (err: bool)
    requires c.Valid() && svc.Valid()
    modifies c`sagas, svc`subs
    ensures c.Valid() && svc.Valid()
    ensures !err ==> c.sagas == Saga.ById(old(c.sagas), s.id, Saga.Compensated)
                     && svc.Contents() == Sub.Compensate(old(svc.Contents()), s.pair)
    ensures err ==>
      || (c.sagas == old(c.sagas) && svc.Contents() == old(svc.Contents()))
      || (c.sagas == Saga.ById(old(c.sagas), s.id, Saga.Compensated)
          && (svc.Contents() == old(svc.Contents()) || svc.Contents() == Sub.Compensate(old(svc.Contents()), s.pair)))
  {
    var _, e := c.TransitionById(s.id, Saga.Compensated);
    if e {
      return true;
    }
    var reached: bool := *;
    if !reached {
      return true;
    }
    var _, failed := svc.CompensatePair(s.pair);
    var answered: bool := *;
    err := failed || !answered;
  }
}

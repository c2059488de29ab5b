/** The subscribe transaction across three services: subscription, notifier
    (confirmation mail) and saga orchestrator, joined by outboxes, relays and a bus
    that delivers any published message any number of times in any order. */
module SubscribeSaga {
  import opened Types
  import Sub = Subscriptions
  import Saga
  import RelayProtocol
  import Confirmations
  import ConfirmationDelivery

  /** A row of failed_confirmations; the map key carries (email, repo_name). */
  datatype Failed = Failed(id: SagaId, url: Url)

  datatype World = World(
    sub: Sub.Db,                    // subscription service
    saga: Saga.Db,                  // orchestrator
    failed: map<Pair, Failed>,      // notifier
    held: set<Saga.Snapshot>,      // results of Get held by running dead-handlers
    subOut: set<Event>, noteOut: set<Event>, sagaOut: set<Event>,  // outbox tables
    bus: set<Event>,                // everything ever published
    born: map<SagaId, Event>)       // history: the pending event that minted each saga id

  datatype Box = SubBox | NoteBox | SagaBox

  datatype Action =
    | UseCase(sub: Sub.Action)                                       // anything but a rollback
    | SendConfirmation(e: Event, delivered: bool, reason: Reason)     // notifier handles a pending event
    | Resolve(pair: Pair, sent: bool, reason: Reason)                 // retrier: row sent or dead-lettered
    | Handle(e: Event)                                                // orchestrator, all but dead
    | DeadRead(e: Event, snapshot: Saga.Snapshot)                     // Get of OnConfirmationDead
    | DeadCommit(snapshot: Saga.Snapshot)                             // its transaction, any time later
    | Command(e: Event)                                               // subscription handles saga.compensate
    | Relay(box: Box, publish: set<Event>, drop: set<Event>)          // any relay progress

  function Init(): World {
    World(Sub.EMPTY, Saga.Db(map[], []), map[], {}, {}, {}, {}, {}, map[])
  }

  function Out(w: World, b: Box): set<Event> {
    match b case SubBox => w.subOut case NoteBox => w.noteOut case SagaBox => w.sagaOut
  }

  function SagaAction(e: Event): Option<Saga.Action> {
    match e
    case SubscriptionPending(id, pair, _) => Some(Saga.OnPending(id, pair))
    case ConfirmationSent(id, _) => Some(Saga.OnSent(id))
    case SubscriptionConfirmed(pair, _) => Some(Saga.OnConfirmed(pair))
    case SubscriptionExpired(pair) => Some(Saga.OnExpired(pair))
    case _ => None
  }

  predicate Enabled(w: World, a: Action) {
    match a
    case UseCase(s) => !s.Rollback? && (s.Pend? ==> s.id !in w.born)
    case SendConfirmation(e, _, _) => e in w.bus && e.SubscriptionPending?
    case Resolve(pair, _, _) => pair in w.failed
    case Handle(e) => e in w.bus && SagaAction(e).Some?
    case DeadRead(e, s) => e in w.bus && e.ConfirmationDead? && s.id == e.id && Saga.Compensable(w.saga.sagas, s)
    case DeadCommit(s) => s in w.held
    case Command(e) => e in w.bus && e.SagaCompensate?
    case Relay(b, publish, drop) => publish <= Out(w, b) && drop <= w.bus + publish
  }

  /** The events a use case committed. */
  ghost function NewEvents(d: Sub.Db, a: Sub.Action): set<Event> {
    var t := Sub.Next(d, a);
    if |d.emitted| <= |t.emitted| then Elems(t.emitted[|d.emitted|..]) else {}
  }

  ghost function Born(w: World, a: Sub.Action): map<SagaId, Event> {
    if a.Pend? then w.born[a.id := SubscriptionPending(a.id, a.pair, a.url)] else w.born
  }

  function Kept(w: World, e: Event, reason: Reason): World
    requires e.SubscriptionPending?
  {
    // ON CONFLICT (email, repo_name) DO NOTHING keeps the older saga id
    w.(failed := if e.pair in w.failed then w.failed else w.failed[e.pair := Failed(e.id, e.url)],
       noteOut := w.noteOut + {ConfirmationFailed(e.id, e.pair.email, reason)})
  }

  ghost function Next(w: World, a: Action): World {
    if !Enabled(w, a) then w else
    match a
    case UseCase(s) =>
      w.(sub := Sub.Next(w.sub, s), subOut := w.subOut + NewEvents(w.sub, s), born := Born(w, s))
    case SendConfirmation(e, delivered, reason) =>
      if delivered then w.(noteOut := w.noteOut + {ConfirmationSent(e.id, e.pair.email)}) else Kept(w, e, reason)
    case Resolve(pair, sent, reason) =>
      w.(failed := w.failed - {pair},
         noteOut := w.noteOut + {if sent then ConfirmationSent(w.failed[pair].id, pair.email)
                                 else ConfirmationDead(w.failed[pair].id, pair.email, reason)})
    case Handle(e) => w.(saga := Saga.Next(w.saga, SagaAction(e).value))
    case DeadRead(_, s) => w.(held := w.held + {s})
    case DeadCommit(s) =>
      w.(saga := Saga.Next(w.saga, Saga.OnDead(s)), sagaOut := w.sagaOut + {SagaCompensate(s.id, s.pair)})
    case Command(e) => w.(sub := Sub.Next(w.sub, Sub.Rollback(e.pair)))
    case Relay(b, publish, drop) =>
      var v := w.(bus := w.bus + publish);
      match b
      case SubBox => v.(subOut := w.subOut - drop)
      case NoteBox => v.(noteOut := w.noteOut - drop)
      case SagaBox => v.(sagaOut := w.sagaOut - drop)
  }

  ghost function Exec(w: World, run: seq<Action>): World {
    if run == [] then w else Next(Exec(w, Front(run)), Last(run))
  }

  // ---------------------------------------------------------------- invariant

  /** The saga id was minted for this pair, and its pending event was published. */
  ghost predicate Started(w: World, id: SagaId, pair: Pair) {
    && id in w.born && w.born[id].SubscriptionPending? && w.born[id].id == id
    && w.born[id].pair == pair && w.born[id] in w.bus
  }

  ghost predicate DeadOnBus(w: World, id: SagaId) {
    exists e :: e in w.bus && e.ConfirmationDead? && e.id == id
  }

  ghost predicate SentOnBus(w: World, id: SagaId) {
    exists e :: e in w.bus && e.ConfirmationSent? && e.id == id
  }

  /** Where an event of the protocol comes from. */
  ghost predicate Justified(w: World, e: Event) {
    match e
    case SubscriptionPending(id, _, _) => id in w.born && w.born[id] == e
    case ConfirmationSent(id, email) =>
      id in w.born && w.born[id].SubscriptionPending? && w.born[id].pair.email == email && w.born[id] in w.bus
    case ConfirmationDead(id, email, _) =>
      id in w.born && w.born[id].SubscriptionPending? && w.born[id].pair.email == email && w.born[id] in w.bus
    case SagaCompensate(id, pair) => Started(w, id, pair) && DeadOnBus(w, id)
    case _ => true
  }

  /** What a phase proves to have happened: by id for sent and dead, by pair for
      confirmed and expired. */
  ghost predicate Witnessed(w: World, pair: Pair, row: Saga.Row) {
    && Started(w, row.id, pair)
    && match row.phase {
         case Pending => true
         case Sent => SentOnBus(w, row.id)
         case Completed => exists e :: e in w.bus && e.SubscriptionConfirmed? && e.pair == pair
         case Expired => SubscriptionExpired(pair) in w.bus
         case Compensated => DeadOnBus(w, row.id) && SagaCompensate(row.id, pair) in w.sagaOut + w.bus
       }
  }

  ghost predicate EventsInv(w: World) {
    forall e :: e in w.subOut + w.noteOut + w.sagaOut + w.bus ==> Justified(w, e)
  }

  ghost predicate FailedInv(w: World) {
    forall p :: p in w.failed ==> Started(w, w.failed[p].id, p)
  }

  ghost predicate ReadsInv(w: World) {
    forall s :: s in w.held ==> Started(w, s.id, s.pair) && DeadOnBus(w, s.id)
  }

  ghost predicate RowsInv(w: World) {
    forall p :: p in w.saga.sagas ==> Witnessed(w, p, w.saga.sagas[p])
  }

  ghost predicate Inv(w: World) {
    EventsInv(w) && FailedInv(w) && ReadsInv(w) && RowsInv(w)
  }

  /** Everything the invariant refers to only grows. */
  ghost predicate Grows(w: World, v: World) {
    && (forall id :: id in w.born ==> id in v.born && v.born[id] == w.born[id])
    && w.bus <= v.bus
    && w.sagaOut + w.bus <= v.sagaOut + v.bus
  }

  /** A step that adds only justified events keeps the events justified. */
  lemma EventsKept(w: World, v: World, added: set<Event>)
    requires Inv(w) && Grows(w, v)
    requires v.subOut + v.noteOut + v.sagaOut + v.bus <= w.subOut + w.noteOut + w.sagaOut + w.bus + added
    requires forall e :: e in added ==> Justified(v, e)
    ensures EventsInv(v)
  {
  }

  lemma FailedKept(w: World, v: World)
    requires Inv(w) && Grows(w, v)
    requires forall p :: p in v.failed ==> Started(v, v.failed[p].id, p) || (p in w.failed && w.failed[p] == v.failed[p])
    ensures FailedInv(v)
  {
  }

  lemma ReadsKept(w: World, v: World)
    requires Inv(w) && Grows(w, v)
    requires forall s :: s in v.held ==> s in w.held || (Started(v, s.id, s.pair) && DeadOnBus(v, s.id))
    ensures ReadsInv(v)
  {
  }

  lemma RowsKept(w: World, v: World)
    requires Inv(w) && Grows(w, v)
    requires forall p :: p in v.saga.sagas ==>
      Witnessed(v, p, v.saga.sagas[p]) || (p in w.saga.sagas && w.saga.sagas[p] == v.saga.sagas[p])
    ensures RowsInv(v)
  {
  }

  /** A use case commits one pending event, minted under its own fresh id, or
      events that need no justification. */
  lemma UseCaseEvents(d: Sub.Db, a: Sub.Action, e: Event)
    requires e in NewEvents(d, a)
    ensures e.SubscriptionPending? ==> a.Pend? && e == SubscriptionPending(a.id, a.pair, a.url)
    ensures e.SubscriptionPending? || e.SubscriptionConfirmed? || e.SubscriptionRemoved? || e.SubscriptionExpired?
  {
  }

  lemma UseCaseKept(w: World, a: Sub.Action)
    requires Inv(w) && Enabled(w, UseCase(a))
    ensures Inv(Next(w, UseCase(a)))
  {
    var v := Next(w, UseCase(a));
    forall e | e in NewEvents(w.sub, a) ensures Justified(v, e) {
      UseCaseEvents(w.sub, a, e);
    }
    EventsKept(w, v, NewEvents(w.sub, a)); FailedKept(w, v); ReadsKept(w, v); RowsKept(w, v);
  }

  lemma NotifierKept(w: World, a: Action)
    requires Inv(w) && Enabled(w, a) && (a.SendConfirmation? || a.Resolve?)
    ensures Inv(Next(w, a))
  {
    var v := Next(w, a);
    EventsKept(w, v, v.noteOut - w.noteOut); FailedKept(w, v); ReadsKept(w, v); RowsKept(w, v);
  }

  lemma HandleKept(w: World, e: Event)
    requires Inv(w) && Enabled(w, Handle(e))
    ensures Inv(Next(w, Handle(e)))
  {
    var v := Next(w, Handle(e));
    EventsKept(w, v, {}); FailedKept(w, v); ReadsKept(w, v);
    forall p | p in v.saga.sagas
      ensures Witnessed(v, p, v.saga.sagas[p]) || (p in w.saga.sagas && w.saga.sagas[p] == v.saga.sagas[p])
    {
      assert Justified(w, e);
      if p in w.saga.sagas { assert Witnessed(w, p, w.saga.sagas[p]); }
    }
    RowsKept(w, v);
  }

  lemma DeadKept(w: World, s: Saga.Snapshot)
    requires Inv(w) && Enabled(w, DeadCommit(s))
    ensures Inv(Next(w, DeadCommit(s)))
  {
    var v := Next(w, DeadCommit(s));
    EventsKept(w, v, {SagaCompensate(s.id, s.pair)}); FailedKept(w, v); ReadsKept(w, v);
    forall p | p in v.saga.sagas
      ensures Witnessed(v, p, v.saga.sagas[p]) || (p in w.saga.sagas && w.saga.sagas[p] == v.saga.sagas[p])
    {
      if w.saga.sagas[p].id == s.id {
        assert Witnessed(w, p, w.saga.sagas[p]);
        assert p == s.pair;
      }
    }
    RowsKept(w, v);
  }

  lemma CommandKept(w: World, e: Event)
    requires Inv(w) && Enabled(w, Command(e))
    ensures Inv(Next(w, Command(e)))
  {
    var v := Next(w, Command(e));
    EventsKept(w, v, {}); FailedKept(w, v); ReadsKept(w, v); RowsKept(w, v);
  }

  lemma RelayKept(w: World, b: Box, publish: set<Event>, drop: set<Event>)
    requires Inv(w) && Enabled(w, Relay(b, publish, drop))
    ensures Inv(Next(w, Relay(b, publish, drop)))
  {
    var v := Next(w, Relay(b, publish, drop));
    EventsKept(w, v, {}); FailedKept(w, v); ReadsKept(w, v); RowsKept(w, v);
  }

  lemma ReadKept(w: World, a: Action)
    requires Inv(w) && Enabled(w, a) && a.DeadRead?
    ensures Inv(Next(w, a))
  {
  }

  lemma {:induction false} Invariant(run: seq<Action>)
    ensures Inv(Exec(Init(), run))
  {
    if run != [] {
      Invariant(Front(run));
      var w, a := Exec(Init(), Front(run)), Last(run);
      if Enabled(w, a) {
        match a
        case UseCase(s) => UseCaseKept(w, s);
        case SendConfirmation(_, _, _) => NotifierKept(w, a);
        case Resolve(_, _, _) => NotifierKept(w, a);
        case Handle(e) => HandleKept(w, e);
        case DeadCommit(s) => DeadKept(w, s);
        case DeadRead(_, _) => ReadKept(w, a);
        case Command(e) => CommandKept(w, e);
        case Relay(b, publish, drop) => RelayKept(w, b, publish, drop);
      }
    }
  }

  // ----------------------------------------------------------------- theorems

  /** The `Relay` action is exactly the contract that the many-relay protocol
      refines, whatever else is on the bus. */
  lemma RelayIsBusStep(w: World, b: Box, rest: set<Event>, bus: set<Event>, out': set<Event>, bus': set<Event>)
    requires w.bus == bus + rest && RelayProtocol.BusStep(Out(w, b), bus, out', bus')
    ensures var a := Relay(b, bus' - bus, Out(w, b) - out');
      Enabled(w, a) && Out(Next(w, a), b) == out' && Next(w, a).bus == bus' + rest
  {
    assert Out(w, b) - (Out(w, b) - out') == out';
  }

  /** failed_confirmations as this module sees it. */
  function Abstract(t: Confirmations.Table): map<Pair, Failed> {
    map p | p in t :: Failed(t[p].saga, t[p].url)
  }

  /** The notifier's side of the world is what its detailed model does: every step of
      the confirmation sender and retrier is a SendConfirmation or Resolve step of the
      world, or shows nothing. */
  lemma NotifierRefines(w: World, s: ConfirmationDelivery.State, a: ConfirmationDelivery.Action, max: int)
    requires w.failed == Abstract(s.db.failed) && ConfirmationDelivery.ListInv(s)
    requires a.Sending? ==> SubscriptionPending(a.saga, a.pair, a.url) in w.bus
    ensures var t := ConfirmationDelivery.Next(s, a, max);
      |s.db.outbox| <= |t.db.outbox| &&
      var v := w.(failed := Abstract(t.db.failed), noteOut := w.noteOut + Elems(t.db.outbox[|s.db.outbox|..]));
      v == w || exists x :: v == Next(w, x) && (x.SendConfirmation? || x.Resolve?)
  {
    var t := ConfirmationDelivery.Next(s, a, max);
    if a.Sending? {
      SendingRefines(w, s.db, a);
      assert t.db == Confirmations.Send(s.db, a.saga, a.pair, a.url, a.delivered, a.reason, s.clock);
    } else if ConfirmationDelivery.Enabled(s, a, max) && (a.Expire? || a.RetryOne?) {
      var p := s.phase.todo[0];
      assert p in s.phase.todo;
      ConfirmationDelivery.HandlingIsRowStep(s.db, max, p, Confirmations.EXPIRED, a.RetryOne? && a.delivered, a.stored);
      RowStepRefines(w, s.db, t.db, p);
    } else {
      assert t.db.outbox[|s.db.outbox|..] == [];
      assert w == w.(failed := Abstract(t.db.failed), noteOut := w.noteOut + Elems(t.db.outbox[|s.db.outbox|..]));
    }
  }

  lemma SendingRefines(w: World, d: Confirmations.Db, a: ConfirmationDelivery.Action)
    requires a.Sending? && w.failed == Abstract(d.failed) && SubscriptionPending(a.saga, a.pair, a.url) in w.bus
    ensures forall now: nat :: var t := Confirmations.Send(d, a.saga, a.pair, a.url, a.delivered, a.reason, now);
      Next(w, SendConfirmation(SubscriptionPending(a.saga, a.pair, a.url), a.delivered, a.reason)) ==
      w.(failed := Abstract(t.failed), noteOut := w.noteOut + Elems(t.outbox[|d.outbox|..]))
  {
    forall now: nat
      ensures var t := Confirmations.Send(d, a.saga, a.pair, a.url, a.delivered, a.reason, now);
        Next(w, SendConfirmation(SubscriptionPending(a.saga, a.pair, a.url), a.delivered, a.reason)) ==
        w.(failed := Abstract(t.failed), noteOut := w.noteOut + Elems(t.outbox[|d.outbox|..]))
    {
      var t := Confirmations.Send(d, a.saga, a.pair, a.url, a.delivered, a.reason, now);
      var e := if a.delivered then ConfirmationSent(a.saga, a.pair.email) else ConfirmationFailed(a.saga, a.pair.email, a.reason);
      assert t.outbox[|d.outbox|..] == [e];
      assert Abstract(t.failed) == if a.delivered || a.pair in d.failed then w.failed else w.failed[a.pair := Failed(a.saga, a.url)];
    }
  }

  lemma RowStepRefines(w: World, d: Confirmations.Db, t: Confirmations.Db, p: Pair)
    requires w.failed == Abstract(d.failed) && ConfirmationDelivery.RowStep(d, t, p)
    ensures |d.outbox| <= |t.outbox|
    ensures var v := w.(failed := Abstract(t.failed), noteOut := w.noteOut + Elems(t.outbox[|d.outbox|..]));
      v == w || exists x :: v == Next(w, x) && x.Resolve?
  {
    var v := w.(failed := Abstract(t.failed), noteOut := w.noteOut + Elems(t.outbox[|d.outbox|..]));
    if p in t.failed {
      assert t.outbox[|d.outbox|..] == [];
      assert v == w;
    } else {
      var e := Last(t.outbox);
      assert t.outbox[|d.outbox|..] == [e];
      assert Abstract(t.failed) == w.failed - {p};
      var x := Resolve(p, e.ConfirmationSent?, if e.ConfirmationDead? then e.reason else "");
      assert v == Next(w, x);
    }
  }

  /** Compensation is never lost, and no saga state is unfounded. After any run
      (any interleaving, redelivery, rollback or relay crash) every saga row was
      started by a published pending event of its id and pair, its phase has its
      witnessing event, and a compensated row has its command, with its id and pair,
      in the saga outbox or already published. */
  lemma CompensationIsNeverLost(run: seq<Action>, pair: Pair)
    ensures var w := Exec(Init(), run);
      pair in w.saga.sagas ==>
        var row := w.saga.sagas[pair];
        && Witnessed(w, pair, row)
        && (row.phase == Saga.Compensated ==> SagaCompensate(row.id, pair) in w.sagaOut || SagaCompensate(row.id, pair) in w.bus)
  {
    Invariant(run);
  }

  /** Saga rows are unique per id over every run, without relying on the primary key. */
  lemma {:induction false} SagaIdsAreUnique(run: seq<Action>)
    ensures Saga.UniqueIds(Exec(Init(), run).saga.sagas)
  {
    Invariant(run);
    var w := Exec(Init(), run);
    forall p, q | p in w.saga.sagas && q in w.saga.sagas && w.saga.sagas[p].id == w.saga.sagas[q].id ensures p == q {
      assert Witnessed(w, p, w.saga.sagas[p]) && Witnessed(w, q, w.saga.sagas[q]);
    }
  }

  /** No rollback without cause: a rollback command on the bus belongs to one
      attempt, whose pending event was published for the same pair and whose
      confirmation the notifier declared dead. */
  lemma CommandsAreJustified(run: seq<Action>, id: SagaId, pair: Pair)
    ensures var w := Exec(Init(), run);
      SagaCompensate(id, pair) in w.bus ==>
        && (exists url :: SubscriptionPending(id, pair, url) in w.bus)
        && (exists reason :: ConfirmationDead(id, pair.email, reason) in w.bus)
  {
    Invariant(run);
    var w := Exec(Init(), run);
    if SagaCompensate(id, pair) in w.bus {
      assert Justified(w, SagaCompensate(id, pair));
      assert SubscriptionPending(id, pair, w.born[id].url) in w.bus;
      var dead :| dead in w.bus && dead.ConfirmationDead? && dead.id == id;
      assert Justified(w, dead);
      assert dead == ConfirmationDead(id, pair.email, dead.reason);
    }
  }

  /** What a step, and a run, does to the subscription service. */
  ghost function SubStep(w: World, a: Action): seq<Sub.Action> {
    if !Enabled(w, a) then []
    else if a.UseCase? then [a.sub] else if a.Command? then [Sub.Rollback(a.e.pair)] else []
  }

  ghost function SubRun(w: World, run: seq<Action>): seq<Sub.Action> {
    if run == [] then [] else SubRun(w, Front(run)) + SubStep(Exec(w, Front(run)), Last(run))
  }

  lemma StepProjects(w: World, a: Action)
    ensures var s := SubStep(w, a);
      if s == [] then Next(w, a).sub == w.sub else |s| == 1 && Next(w, a).sub == Sub.Next(w.sub, s[0])
  {
  }

  lemma {:induction false} SubProjects(w: World, run: seq<Action>)
    ensures Exec(w, run).sub == Sub.Exec(w.sub, SubRun(w, run))
    ensures forall s :: s in SubRun(w, run) && !s.Rollback? ==> UseCase(s) in run
  {
    if run != [] {
      SubProjects(w, Front(run));
      var prefix, s := SubRun(w, Front(run)), SubStep(Exec(w, Front(run)), Last(run));
      StepProjects(Exec(w, Front(run)), Last(run));
      if s == [] {
        assert SubRun(w, run) == prefix;
      } else {
        assert Front(prefix + s) == prefix && Last(prefix + s) == s[0];
      }
      assert Last(run) in run && forall a :: a in Front(run) ==> a in run;
    }
  }

  /** The saga can never undo a confirmation: over every run of the whole system,
      with stale, duplicated or racing rollback commands, a confirmed subscription
      stays as it is until its own token is presented. */
  lemma {:induction false} ConfirmedSurvivesTheSaga(w: World, run: seq<Action>, pair: Pair)
    requires Sub.HasConfirmed(w.sub.subs, pair)
    requires UseCase(Sub.Leave(w.sub.subs[pair].token)) !in run
    ensures pair in Exec(w, run).sub.subs && Exec(w, run).sub.subs[pair] == w.sub.subs[pair]
  {
    SubProjects(w, run);
    Sub.ConfirmedIsSafe(w.sub, SubRun(w, run), pair);
  }

  /** And it does roll back: once a command is handled, the pair has no unconfirmed
      subscription until a new pending subscription for it is committed. */
  lemma {:induction false} CommandRollsBack(w: World, e: Event, run: seq<Action>)
    requires Enabled(w, Command(e))
    requires forall a :: a in run && a.UseCase? && a.sub.Pend? && a.sub.insert.Some? ==> a.sub.pair != e.pair
    ensures !Sub.HasPending(Exec(Next(w, Command(e)), run).sub.subs, e.pair)
  {
    var v := Next(w, Command(e));
    SubProjects(v, run);
    var subRun := SubRun(v, run);
    forall a | a in subRun && a.Pend? && a.insert.Some? ensures a.pair != e.pair {
      assert UseCase(a) in run;
    }
    assert !Sub.HasPending(v.sub.subs, e.pair);
    Sub.RolledBackUntilPending(v.sub, subRun, e.pair);
  }

  // ------------------------------------------------ when a saga loses its row

  /** The saga of the pair still waits for an outcome. */
  ghost predicate Live(w: World, p: Pair) {
    p in w.saga.sagas && !Saga.Terminal(w.saga.sagas[p].phase)
  }

  /** "A live saga has its subscription row." */
  ghost predicate Backed(w: World, p: Pair) { Live(w, p) ==> p in w.sub.subs }

  /** The steps that delete the pair's row: its own unsubscribe link, the cleanup, or a
      rollback command of whatever attempt, provided the row is unconfirmed. */
  ghost predicate TakesRow(w: World, a: Action, p: Pair) {
    p in w.sub.subs &&
      match a
      case UseCase(Leave(token)) => w.sub.subs[p].token == token
      case UseCase(Sweep(cutoff, order)) =>
        Sub.Sweeps(w.sub.subs, cutoff, order) && !w.sub.subs[p].confirmed && w.sub.subs[p].createdAt < cutoff
      case Command(e) => e.SagaCompensate? && e.pair == p && !w.sub.subs[p].confirmed
      case _ => false
  }

  /** A pending event of the pair reaches the orchestrator. */
  predicate Starts(a: Action, p: Pair) {
    a.Handle? && a.e.SubscriptionPending? && a.e.pair == p
  }

  lemma TakesRowIff(w: World, a: Action, p: Pair)
    requires Sub.UniqueTokens(w.sub.subs) && Enabled(w, a)
    ensures p in w.sub.subs && p !in Next(w, a).sub.subs <==> TakesRow(w, a, p)
  {
    if a.UseCase? && a.sub.Leave? && p in w.sub.subs && w.sub.subs[p].token == a.sub.token {
      Sub.UnsubscribeOf(w.sub, p);
    }
    if a.UseCase? && a.sub.Sweep? {
      Sub.SweepsIff(w.sub.subs, a.sub.cutoff, a.sub.order);
    }
  }

  /** In a reachable world a pending event always (re)starts its pair's saga. */
  lemma StartsAlive(w: World, e: Event)
    requires Inv(w) && Enabled(w, Handle(e)) && e.SubscriptionPending?
    ensures Live(Next(w, Handle(e)), e.pair) && Next(w, Handle(e)).saga.sagas[e.pair].id == e.id
  {
    assert Justified(w, e);
    forall q | q in w.saga.sagas && w.saga.sagas[q].id == e.id ensures q == e.pair {
      assert Witnessed(w, q, w.saga.sagas[q]);
    }
  }

  /** Nothing else revives a saga, and only the orchestrator changes one. */
  lemma OnlyStartsRevive(w: World, a: Action, p: Pair)
    requires Enabled(w, a) && !Starts(a, p)
    ensures Live(Next(w, a), p) ==> Live(w, p)
    ensures Next(w, a).sub != w.sub ==> Next(w, a).saga == w.saga
    ensures p in w.saga.sagas && !Live(w, p) ==> p in Next(w, a).saga.sagas && Next(w, a).saga.sagas[p] == w.saga.sagas[p]
  {
    match a
    case Handle(e) => Saga.StepAdvances(w.saga, SagaAction(e).value, p);
    case DeadCommit(s) => Saga.StepAdvances(w.saga, Saga.OnDead(s), p);
    case _ =>
  }

  /** "A live saga has its row" is not kept, and exactly these steps break it, in every
      reachable world: deleting the row of a live saga, whoever does it, and handling a
      pending event whose row is already gone. */
  lemma StrandsIff(run: seq<Action>, a: Action, p: Pair)
    requires Enabled(Exec(Init(), run), a) && Backed(Exec(Init(), run), p)
    ensures var w := Exec(Init(), run);
      !Backed(Next(w, a), p) <==> (Live(w, p) && TakesRow(w, a, p)) || (Starts(a, p) && p !in w.sub.subs)
  {
    var w := Exec(Init(), run);
    Invariant(run);
    SubProjects(Init(), run);
    Sub.TokensStayUnique(SubRun(Init(), run));
    TakesRowIff(w, a, p);
    if Starts(a, p) {
      StartsAlive(w, a.e);
    } else {
      OnlyStartsRevive(w, a, p);
      StepAlternatives(w, a, p);
    }
  }

  /** A step that takes no row leaves the pair's row, if any; one that takes it leaves
      the saga. */
  lemma StepAlternatives(w: World, a: Action, p: Pair)
    requires Sub.UniqueTokens(w.sub.subs) && Enabled(w, a) && !Starts(a, p)
    ensures TakesRow(w, a, p) ==> Next(w, a).saga == w.saga && p !in Next(w, a).sub.subs
    ensures p in w.sub.subs && !TakesRow(w, a, p) ==> p in Next(w, a).sub.subs
  {
    TakesRowIff(w, a, p);
  }

  /** In particular a rollback command takes the row from a live saga exactly when the
      pair has an unconfirmed row and its saga is not terminal, whichever attempt the
      command names; it removes a row exactly in the first case. */
  lemma CommandStrandsIff(run: seq<Action>, e: Event)
    requires Enabled(Exec(Init(), run), Command(e))
    ensures var w := Exec(Init(), run); var v := Next(w, Command(e));
      && (v.sub != w.sub <==> Sub.HasPending(w.sub.subs, e.pair))
      && (Live(v, e.pair) && e.pair in w.sub.subs && e.pair !in v.sub.subs
          <==> Sub.HasPending(w.sub.subs, e.pair) && Live(w, e.pair))
  {
    var w := Exec(Init(), run);
    assert Sub.HasPending(w.sub.subs, e.pair) ==> e.pair !in Next(w, Command(e)).sub.subs;
  }

  /** A command is harmless as long as its own attempt is the pair's last: if the row
      carried its id when the dead event was committed, and no pending event of the
      pair has been handled since, it finds a terminal saga, whatever else happened. */
  lemma {:induction false} OwnCommandIsHarmless(w: World, s: Saga.Snapshot, more: seq<Action>)
    requires Enabled(w, DeadCommit(s)) && s.pair in w.saga.sagas && w.saga.sagas[s.pair].id == s.id
    requires forall a :: a in more ==> !Starts(a, s.pair)
    ensures var v := Exec(Next(w, DeadCommit(s)), more);
      && s.pair in v.saga.sagas && v.saga.sagas[s.pair].id == s.id && !Live(v, s.pair)
      && Backed(Next(v, Command(SagaCompensate(s.id, s.pair))), s.pair)
  {
    var u := Next(w, DeadCommit(s));
    if more == [] {
      Saga.TransitionTable(w.saga.sagas[s.pair].phase, Saga.Compensated);
      Saga.TransitionTable(Saga.Compensated, Saga.Compensated);
    } else {
      OwnCommandIsHarmless(w, s, Front(more));
      var t, a := Exec(u, Front(more)), Last(more);
      assert a in more;
      if Enabled(t, a) { OnlyStartsRevive(t, a, s.pair); }
    }
  }

  /** The steps that end a live saga of the pair. */
  ghost predicate EndsSaga(w: World, a: Action, p: Pair) {
    match a
    case Handle(e) => (e.SubscriptionConfirmed? && e.pair == p) || (e.SubscriptionExpired? && e.pair == p)
    case DeadCommit(s) => p in w.saga.sagas && w.saga.sagas[p].id == s.id
    case _ => false
  }

  lemma LivePhase(p: Saga.Phase)
    requires !Saga.Terminal(p)
    ensures Saga.Allowed(p, Saga.Completed) && Saga.Allowed(p, Saga.Expired) && Saga.Allowed(p, Saga.Compensated)
    ensures Saga.Terminal(Saga.Completed) && Saga.Terminal(Saga.Expired) && Saga.Terminal(Saga.Compensated)
    ensures !Saga.Terminal(Saga.Pending) && !Saga.Terminal(Saga.Sent)
  {
  }

  lemma LiveKeptIff(w: World, a: Action, p: Pair)
    requires Enabled(w, a) && Live(w, p)
    ensures Live(Next(w, a), p) <==> !EndsSaga(w, a, p)
  {
    LivePhase(w.saga.sagas[p].phase);
  }

  /** The steps after which the pair has no unconfirmed row any more. */
  ghost predicate TakesPending(w: World, a: Action, p: Pair) {
    TakesRow(w, a, p) || a == UseCase(Sub.Click(p))
  }

  lemma PendingKeptIff(w: World, a: Action, p: Pair)
    requires Sub.UniqueTokens(w.sub.subs) && Enabled(w, a) && Sub.HasPending(w.sub.subs, p)
    ensures Sub.HasPending(Next(w, a).sub.subs, p) <==> !TakesPending(w, a, p)
  {
    TakesRowIff(w, a, p);
  }

  /** No step of the run ends the pair's saga or its pending row. */
  ghost predicate LetsWait(w: World, more: seq<Action>, p: Pair) {
    forall k :: 0 <= k < |more| ==>
      var v := Exec(w, more[..k]); Enabled(v, more[k]) ==> !EndsSaga(v, more[k], p) && !TakesPending(v, more[k], p)
  }

  lemma {:induction false} AttemptWaits(w: World, more: seq<Action>, p: Pair)
    requires Sub.UniqueTokens(w.sub.subs) && Live(w, p) && Sub.HasPending(w.sub.subs, p) && LetsWait(w, more, p)
    ensures var v := Exec(w, more); Sub.UniqueTokens(v.sub.subs) && Live(v, p) && Sub.HasPending(v.sub.subs, p)
  {
    if more != [] {
      var f := Front(more);
      forall k | 0 <= k < |f|
        ensures var v := Exec(w, f[..k]); Enabled(v, f[k]) ==> !EndsSaga(v, f[k], p) && !TakesPending(v, f[k], p)
      {
        assert f[..k] == more[..k] && f[k] == more[k];
      }
      AttemptWaits(w, f, p);
      var v, a := Exec(w, f), Last(more);
      assert more[..|more| - 1] == f && more[|more| - 1] == a;
      if Enabled(v, a) {
        LiveKeptIff(v, a, p);
        PendingKeptIff(v, a, p);
        StepProjects(v, a);
        if SubStep(v, a) != [] { Sub.StepKeepsTokens(v.sub, SubStep(v, a)[0]); }
      }
    }
  }

  /** And no longer: once a pending event of the pair is handled while it has an
      unconfirmed row, then as long as no step ends the new attempt or its row, a
      command for the pair, of whatever attempt, strands it. */
  lemma CommandAfterStartStrands(run: seq<Action>, pending: Event, more: seq<Action>, e: Event)
    requires pending.SubscriptionPending? && Enabled(Exec(Init(), run), Handle(pending))
    requires Sub.HasPending(Exec(Init(), run).sub.subs, pending.pair)
    requires LetsWait(Next(Exec(Init(), run), Handle(pending)), more, pending.pair)
    requires Enabled(Exec(Next(Exec(Init(), run), Handle(pending)), more), Command(e)) && e.pair == pending.pair
    ensures !Backed(Next(Exec(Next(Exec(Init(), run), Handle(pending)), more), Command(e)), e.pair)
  {
    var u := StartedAttempt(run, pending);
    AttemptWaits(u, more, pending.pair);
    WaitingIsStranded(Exec(u, more), e);
  }

  lemma StartedAttempt(run: seq<Action>, pending: Event) returns (u: World)
    requires pending.SubscriptionPending? && Enabled(Exec(Init(), run), Handle(pending))
    ensures u == Next(Exec(Init(), run), Handle(pending)) && u.sub == Exec(Init(), run).sub
    ensures Sub.UniqueTokens(u.sub.subs) && Live(u, pending.pair)
  {
    var w := Exec(Init(), run);
    Invariant(run);
    SubProjects(Init(), run);
    Sub.TokensStayUnique(SubRun(Init(), run));
    StartsAlive(w, pending);
    u := Next(w, Handle(pending));
  }

  lemma WaitingIsStranded(v: World, e: Event)
    requires Enabled(v, Command(e)) && Live(v, e.pair) && Sub.HasPending(v.sub.subs, e.pair)
    ensures !Backed(Next(v, Command(e)), e.pair)
  {
  }

  const P := Pair("a@x.org", "o/n")
  const FIRST := SubscriptionPending(1, P, "u1")
  const SECOND := SubscriptionPending(2, P, "u2")
  const DEAD := ConfirmationDead(1, "a@x.org", "max retries")
  const COMMAND := SagaCompensate(1, P)
  const ROW := Sub.Row("t", false, 0)

  /** Attempt 1 is recorded and its saga started. */
  const OPENING := [UseCase(Sub.Pend(1, P, "u1", Some(ROW))), Relay(SubBox, {FIRST}, {FIRST}), Handle(FIRST)]
  /** Its confirmation fails and is dead-lettered. */
  const FAILURE := [SendConfirmation(FIRST, false, "smtp"), Resolve(P, false, "max retries"), Relay(NoteBox, {DEAD}, {DEAD})]
  /** The orchestrator compensates; the command is published but not yet handled. */
  const VERDICT := [DeadRead(DEAD, Saga.Snapshot(1, P)), DeadCommit(Saga.Snapshot(1, P)), Relay(SagaBox, {COMMAND}, {COMMAND})]
  /** The user subscribes again: the pending row is reused and saga 2 starts. */
  const RETURN := [UseCase(Sub.Pend(2, P, "u2", None)), Relay(SubBox, {SECOND}, {SECOND}), Handle(SECOND)]

  lemma OneByOne<T>(run: seq<T>, x: T, y: T, z: T)
    ensures run + [x, y, z] == run + [x] + [y] + [z]
  {
  }

  lemma ExecTo(w: World, run: seq<Action>, a: Action, v: World)
    requires Next(Exec(w, run), a) == v
    ensures Exec(w, run + [a]) == v
  {
  }

  lemma ExecSnoc(w: World, run: seq<Action>, a: Action)
    ensures Exec(w, run + [a]) == Next(Exec(w, run), a)
  {
  }

  lemma AfterOpening()
    ensures Exec(Init(), OPENING) ==
      World(Sub.Db(map[P := ROW], {"t"}, [FIRST]), Saga.Db(map[P := Saga.Row(1, Saga.Pending)], []),
            map[], {}, {}, {}, {}, {FIRST}, map[1 := FIRST])
  {
    var w1 := Next(Init(), OPENING[0]);
    assert w1.sub.emitted[0..] == [FIRST];
    assert w1.subOut == {FIRST};
    var w2 := Next(w1, OPENING[1]);
    ExecTo(Init(), [], OPENING[0], w1);
    ExecTo(Init(), [] + [OPENING[0]], OPENING[1], w2);
    ExecTo(Init(), [] + [OPENING[0]] + [OPENING[1]], OPENING[2], Next(w2, OPENING[2]));
    OneByOne([], OPENING[0], OPENING[1], OPENING[2]);
    assert [] + OPENING == OPENING;
  }

  lemma AfterFailure()
    ensures Exec(Init(), OPENING + FAILURE) ==
      World(Sub.Db(map[P := ROW], {"t"}, [FIRST]), Saga.Db(map[P := Saga.Row(1, Saga.Pending)], []),
            map[], {}, {}, {ConfirmationFailed(1, "a@x.org", "smtp")}, {}, {FIRST, DEAD}, map[1 := FIRST])
  {
    AfterOpening();
    var w1 := Next(Exec(Init(), OPENING), FAILURE[0]);
    var w2 := Next(w1, FAILURE[1]);
    ExecTo(Init(), OPENING, FAILURE[0], w1);
    ExecTo(Init(), OPENING + [FAILURE[0]], FAILURE[1], w2);
    ExecTo(Init(), OPENING + [FAILURE[0]] + [FAILURE[1]], FAILURE[2], Next(w2, FAILURE[2]));
    OneByOne(OPENING, FAILURE[0], FAILURE[1], FAILURE[2]);
  }

  lemma AfterVerdict()
    ensures Exec(Init(), OPENING + FAILURE + VERDICT) ==
      World(Sub.Db(map[P := ROW], {"t"}, [FIRST]), Saga.Db(map[P := Saga.Row(1, Saga.Compensated)], [COMMAND]),
            map[], {Saga.Snapshot(1, P)}, {}, {ConfirmationFailed(1, "a@x.org", "smtp")}, {}, {FIRST, DEAD, COMMAND}, map[1 := FIRST])
  {
    AfterFailure();
    Saga.TransitionTable(Saga.Pending, Saga.Compensated);
    var w1 := Next(Exec(Init(), OPENING + FAILURE), VERDICT[0]);
    var w2 := Next(w1, VERDICT[1]);
    ExecTo(Init(), OPENING + FAILURE, VERDICT[0], w1);
    ExecTo(Init(), OPENING + FAILURE + [VERDICT[0]], VERDICT[1], w2);
    ExecTo(Init(), OPENING + FAILURE + [VERDICT[0]] + [VERDICT[1]], VERDICT[2], Next(w2, VERDICT[2]));
    OneByOne(OPENING + FAILURE, VERDICT[0], VERDICT[1], VERDICT[2]);
  }

  lemma AfterReturn()
    ensures var w := Exec(Init(), OPENING + FAILURE + VERDICT + RETURN);
      w.sub.subs == map[P := ROW] && w.saga.sagas == map[P := Saga.Row(2, Saga.Pending)] && COMMAND in w.bus
  {
    AfterVerdict();
    var w := Exec(Init(), OPENING + FAILURE + VERDICT);
    var v := Next(w, RETURN[0]);
    assert v.sub.emitted[1..] == [SECOND];
    assert SECOND in v.subOut;
    var v2 := Next(v, RETURN[1]);
    ExecTo(Init(), OPENING + FAILURE + VERDICT, RETURN[0], v);
    ExecTo(Init(), OPENING + FAILURE + VERDICT + [RETURN[0]], RETURN[1], v2);
    ExecTo(Init(), OPENING + FAILURE + VERDICT + [RETURN[0]] + [RETURN[1]], RETURN[2], Next(v2, RETURN[2]));
    OneByOne(OPENING + FAILURE + VERDICT, RETURN[0], RETURN[1], RETURN[2]);
  }

  /** Such a run: the command of attempt 1 deletes the row attempt 2 relies on, while
      saga 2 stays pending. */
  lemma StaleCommandHitsNewerAttempt()
    ensures var w := Exec(Init(), OPENING + FAILURE + VERDICT + RETURN + [Command(COMMAND)]);
      P !in w.sub.subs && w.saga.sagas == map[P := Saga.Row(2, Saga.Pending)]
  {
    AfterReturn();
    ExecSnoc(Init(), OPENING + FAILURE + VERDICT + RETURN, Command(COMMAND));
  }

  /** And one without any command: the token of a pending row is presented. */
  lemma LeavingStrandsSaga()
    ensures var w := Exec(Init(), OPENING + [UseCase(Sub.Leave("t"))]);
      P !in w.sub.subs && w.saga.sagas == map[P := Saga.Row(1, Saga.Pending)]
  {
    AfterOpening();
    var w := Exec(Init(), OPENING);
    Sub.UnsubscribeOf(w.sub, P);
    ExecSnoc(Init(), OPENING, UseCase(Sub.Leave("t")));
  }
}

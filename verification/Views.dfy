/** The notifier's replica of the confirmed subscriptions, fed by the subscription
    service's outbox. */
module Views {
  import opened Types
  import Outbox
  import Sub = Subscriptions

  /** subscriptions_read, as the projector writes it. */
  class ReadModel {
    var rows: View

    constructor ()
      ensures rows == map[]
    {
      rows := map[];
    }

    /** The pair's row carries the token now, whatever it did; no other row moves. */
    method Upsert(pair: Pair, token: Token) returns (err: bool)
      modifies this
      ensures err ==> rows == old(rows)
      ensures !err ==> At(rows, pair) == Some(token)
      ensures forall p :: p != pair ==> At(rows, p) == At(old(rows), p)
    {
      err := *;
      if !err { rows := rows[pair := token]; }
    }

    /** The pair has no row now, whether or not it had one; no other row moves. */
    method Delete(pair: Pair) returns (err: bool)
      modifies this
      ensures err ==> rows == old(rows)
      ensures !err ==> At(rows, pair) == None
      ensures forall p :: p != pair ==> At(rows, p) == At(old(rows), p)
    {
      err := *;
      if !err { rows := rows - {pair}; }
    }

    /** The projector: the view moves as the specification of an event says. */
    method Handle(e: Event) returns (err: bool)
      modifies this
      ensures rows == if err then old(rows) else Sub.Project(old(rows), e)
    {
      err := false;
      ghost var before := rows;
      match e
      case SubscriptionConfirmed(p, token) =>
        err := Upsert(p, token);
        SameView(rows, if err then before else Sub.Project(before, e));
      case SubscriptionRemoved(p) =>
        err := Delete(p);
        SameView(rows, if err then before else Sub.Project(before, e));
      case _ =>
    }
  }

  // ------------------------------------------------------ folding and replaying

  function At(v: View, p: Pair): Option<Token> {
    if p in v then Some(v[p]) else None
  }

  predicate Touches(e: Event, p: Pair) {
    (e.SubscriptionConfirmed? && e.pair == p) || (e.SubscriptionRemoved? && e.pair == p)
  }

  /** The last event that touches a pair, if any. */
  function LastTouch(es: seq<Event>, p: Pair): Option<Event> {
    if es == [] then None
    else if Touches(Last(es), p) then Some(Last(es)) else LastTouch(Front(es), p)
  }

  /** Last writer wins, pair by pair. */
  lemma {:induction false} FoldAt(v: View, es: seq<Event>, p: Pair)
    ensures At(Sub.Fold(v, es), p) ==
      match LastTouch(es, p)
      case None => At(v, p)
      case Some(e) => if e.SubscriptionConfirmed? then Some(e.token) else None
  {
    if es != [] { FoldAt(v, Front(es), p); }
  }

  lemma SameView(v: View, w: View)
    requires forall p :: At(v, p) == At(w, p)
    ensures v == w
  {
    assert forall p :: p in v <==> At(v, p).Some?;
    assert forall p :: p in w <==> At(w, p).Some?;
    forall p | p in v ensures p in w && v[p] == w[p] { assert At(v, p) == At(w, p); }
  }

  lemma {:induction false} FoldAppend(v: View, a: seq<Event>, b: seq<Event>)
    ensures Sub.Fold(v, a + b) == Sub.Fold(Sub.Fold(v, a), b)
  {
    if b == [] {
      assert a + b == a;
    } else {
      assert Front(a + b) == a + Front(b) && Last(a + b) == Last(b);
      FoldAppend(v, a, Front(b));
    }
  }

  /** Replaying a block right after itself changes nothing. */
  lemma ReplayIsIdle(v: View, es: seq<Event>)
    ensures Sub.Fold(Sub.Fold(v, es), es) == Sub.Fold(v, es)
  {
    forall p ensures At(Sub.Fold(Sub.Fold(v, es), es), p) == At(Sub.Fold(v, es), p) {
      FoldAt(Sub.Fold(v, es), es, p);
      FoldAt(v, es, p);
    }
    SameView(Sub.Fold(Sub.Fold(v, es), es), Sub.Fold(v, es));
  }

  // ---------------------------------------------------------------- the pipeline

  /** Subscription service, its single relay, the bus and the notifier's projector.
      Messages before `gone` have left the outbox table; `log` is what the broker
      accepted, repetitions included; the projector stands at `cursor`. */
  datatype Pipeline = Pipeline(db: Sub.Db, gone: nat, log: seq<Event>, cursor: nat, view: View)

  datatype Step =
    | Use(a: Sub.Action)
    | Flush(done: nat, reach: nat)    // one relay transaction or a whole flush
    | Deliver(acked: bool)            // the projector handles a message; without an ack it comes again

  const START := Pipeline(Sub.EMPTY, 0, [], 0, map[])

  ghost function Next(s: Pipeline, x: Step): Pipeline {
    match x
    case Use(a) => s.(db := Sub.Next(s.db, a))
    case Flush(done, reach) =>
      if done <= reach && s.gone + reach <= |s.db.emitted|
      then s.(log := s.log + s.db.emitted[s.gone..s.gone + reach], gone := s.gone + done)
      else s
    case Deliver(acked) =>
      if s.cursor < |s.log|
      then s.(view := Sub.Project(s.view, s.log[s.cursor]), cursor := s.cursor + if acked then 1 else 0)
      else s
  }

  ghost function Exec(s: Pipeline, run: seq<Step>): Pipeline {
    if run == [] then s else Next(Exec(s, Front(run)), Last(run))
  }

  function Bodies(rows: seq<Outbox.Message<Event>>): (es: seq<Event>)
    ensures |es| == |rows| && forall i :: 0 <= i < |es| ==> es[i] == rows[i].body
  {
    seq(|rows|, i requires 0 <= i < |rows| => rows[i].body)
  }

  /** Whatever the relay's flush may do is a `Flush` step: its contract is the only
      thing assumed about it. */
  lemma FlushIsAStep(s: Pipeline, before: seq<Outbox.Message<Event>>, logBefore: seq<Outbox.Message<Event>>,
                     after: seq<Outbox.Message<Event>>, logAfter: seq<Outbox.Message<Event>>,
                     err: Outbox.FlushError, done: nat, reach: nat)
    requires s.gone <= |s.db.emitted| && Bodies(before) == s.db.emitted[s.gone..] && Bodies(logBefore) == s.log
    requires Outbox.Flushed(before, logBefore, after, logAfter, err, done, reach)
    ensures var t := Next(s, Flush(done, reach));
      Bodies(after) == t.db.emitted[t.gone..] && Bodies(logAfter) == t.log
  {
    var t := Next(s, Flush(done, reach));
    assert reach <= |s.db.emitted| - s.gone by { assert |Bodies(before)| == |before|; }
    assert Bodies(before[..reach]) == s.db.emitted[s.gone..s.gone + reach];
    assert t.db.emitted[t.gone..] == s.db.emitted[s.gone..][done..];
    assert Bodies(before[done..]) == Bodies(before)[done..];
    assert Bodies(logBefore + before[..reach]) == Bodies(logBefore) + Bodies(before[..reach]);
  }

  ghost predicate Inv(s: Pipeline) {
    && Sub.Fold(map[], s.db.emitted) == Sub.ConfirmedRows(s.db.subs)
    && Completable(s.log, s.db.emitted, s.gone)
    && Projected(s.view, s.log, s.cursor)
  }

  /** Publishing the rest once would complete the log. */
  ghost predicate Completable(log: seq<Event>, all: seq<Event>, gone: nat) {
    gone <= |all| && Sub.Fold(map[], log + all[gone..]) == Sub.Fold(map[], all)
  }

  /** The projector is at its cursor, or one message ahead of its ack. */
  ghost predicate Projected(view: View, log: seq<Event>, cursor: nat) {
    && cursor <= |log|
    && (|| view == Sub.Fold(map[], log[..cursor])
        || (cursor < |log| && view == Sub.Fold(map[], log[..cursor + 1])))
  }

  lemma ProjectedStays(view: View, log: seq<Event>, cursor: nat, more: seq<Event>)
    requires Projected(view, log, cursor)
    ensures Projected(view, log + more, cursor)
  {
    assert (log + more)[..cursor] == log[..cursor];
    assert cursor < |log| ==> (log + more)[..cursor + 1] == log[..cursor + 1];
  }

  lemma EmittedGrows(db: Sub.Db, a: Sub.Action)
    ensures db.emitted <= Sub.Next(db, a).emitted
  {
  }

  lemma CommitMore(log: seq<Event>, all: seq<Event>, gone: nat, more: seq<Event>)
    requires Completable(log, all, gone)
    ensures Completable(log, all + more, gone)
  {
    assert log + (all + more)[gone..] == (log + all[gone..]) + more;
    FoldAppend(map[], log + all[gone..], more);
    FoldAppend(map[], all, more);
  }

  lemma UseKeeps(s: Pipeline, a: Sub.Action)
    requires Inv(s)
    ensures Inv(Next(s, Use(a)))
  {
    assert Next(s, Use(a)) == s.(db := Sub.Next(s.db, a));
    var all := Sub.Next(s.db, a).emitted;
    EmittedGrows(s.db, a);
    Sub.StepFolds(s.db, a);
    var more := all[|s.db.emitted|..];
    assert all == s.db.emitted + more;
    CommitMore(s.log, s.db.emitted, s.gone, more);
  }

  /** A flush publishes [gone, gone+reach) and forgets [gone, gone+done); the part
      in between is published again later, right after itself. */
  lemma Republish(log: seq<Event>, all: seq<Event>, gone: nat, done: nat, reach: nat)
    requires done <= reach && gone + reach <= |all| && Completable(log, all, gone)
    ensures Completable(log + all[gone..gone + reach], all, gone + done)
  {
    var head, again, rest := all[gone..gone + done], all[gone + done..gone + reach], all[gone + reach..];
    var base := log + head;
    assert log + all[gone..gone + reach] + all[gone + done..] == (base + again + again) + rest;
    assert log + all[gone..] == (base + again) + rest;
    FoldAppend(map[], base, again);
    FoldAppend(map[], base + again, again);
    ReplayIsIdle(Sub.Fold(map[], base), again);
    FoldAppend(map[], base + again + again, rest);
    FoldAppend(map[], base + again, rest);
  }

  lemma FlushKeeps(s: Pipeline, done: nat, reach: nat)
    requires Inv(s) && done <= reach && s.gone + reach <= |s.db.emitted|
    ensures Inv(Next(s, Flush(done, reach)))
  {
    var more := s.db.emitted[s.gone..s.gone + reach];
    assert Next(s, Flush(done, reach)) == s.(log := s.log + more, gone := s.gone + done);
    Republish(s.log, s.db.emitted, s.gone, done, reach);
    ProjectedStays(s.view, s.log, s.cursor, more);
  }

  lemma DeliverKeeps(s: Pipeline, acked: bool)
    requires Inv(s) && s.cursor < |s.log|
    ensures Inv(Next(s, Deliver(acked)))
  {
    var e := s.log[s.cursor];
    var before := s.log[..s.cursor];
    assert s.log[..s.cursor + 1] == before + [e];
    Sub.FoldSnoc(map[], before, e);
    assert Sub.Project(Sub.Project(Sub.Fold(map[], before), e), e) == Sub.Project(Sub.Fold(map[], before), e);
  }

  lemma {:induction false} PipelineInvariant(run: seq<Step>)
    ensures Inv(Exec(START, run))
  {
    if run == [] {
      assert Sub.ConfirmedRows(map[]) == map[];
    } else {
      PipelineInvariant(Front(run));
      var s, x := Exec(START, Front(run)), Last(run);
      match x
      case Use(a) => UseKeeps(s, a);
      case Flush(done, reach) =>
        if done <= reach && s.gone + reach <= |s.db.emitted| { FlushKeeps(s, done, reach); }
      case Deliver(acked) => if s.cursor < |s.log| { DeliverKeeps(s, acked); }
    }
  }

  /** Duplicate-tolerant convergence: whatever was repeated (batches after failed
      deletes or commits, deliveries without an ack) and however the steps were
      interleaved, once the outbox is drained and the log is processed the read
      model is the set of confirmed subscriptions with their tokens. */
  lemma ReadModelConverges(run: seq<Step>)
    ensures var s := Exec(START, run);
      s.gone == |s.db.emitted| && s.cursor == |s.log| ==> s.view == Sub.ConfirmedRows(s.db.subs)
  {
    PipelineInvariant(run);
    var s := Exec(START, run);
    if s.gone == |s.db.emitted| && s.cursor == |s.log| {
      assert s.log + s.db.emitted[s.gone..] == s.log && s.log[..s.cursor] == s.log;
    }
  }

  // ------------------------------------------------ two durables, two orders

  function Only(es: seq<Event>, confirmed: bool): seq<Event> {
    if es == [] then []
    else Only(Front(es), confirmed) +
         if (if confirmed then Last(es).SubscriptionConfirmed? else Last(es).SubscriptionRemoved?) then [Last(es)] else []
  }

  predicate EndsConfirmed(es: seq<Event>, p: Pair) {
    LastTouch(es, p).Some? && LastTouch(es, p).value.SubscriptionConfirmed?
  }

  /** A durable handles its events in order, each once or, without an ack, several
      times in a row. */
  predicate Stutters(handled: seq<Event>, log: seq<Event>)
    decreases |handled|
  {
    if handled == [] then log == []
    else log != [] && Last(handled) == Last(log) && (Stutters(Front(handled), log) || Stutters(Front(handled), Front(log)))
  }

  /** Confirmed and removed events are consumed by two durables, each in log order,
      with no order between them. */
  predicate Consumed(handled: seq<Event>, log: seq<Event>) {
    Stutters(Only(handled, true), Only(log, true)) && Stutters(Only(handled, false), Only(log, false))
  }

  /** The same without redelivery. */
  predicate ConsumedOnce(handled: seq<Event>, log: seq<Event>) {
    Only(handled, true) == Only(log, true) && Only(handled, false) == Only(log, false)
  }

  lemma {:induction false} StuttersSelf(es: seq<Event>)
    ensures Stutters(es, es)
  {
    if es != [] { StuttersSelf(Front(es)); }
  }

  lemma OnceIsConsumed(handled: seq<Event>, log: seq<Event>)
    requires ConsumedOnce(handled, log)
    ensures Consumed(handled, log)
  {
    StuttersSelf(Only(log, true));
    StuttersSelf(Only(log, false));
  }

  /** Repetitions do not change which event about a pair comes last. */
  lemma {:induction false} StutterKeepsLast(handled: seq<Event>, log: seq<Event>, p: Pair)
    requires Stutters(handled, log)
    ensures LastTouch(handled, p) == LastTouch(log, p)
    decreases |handled|
  {
    if handled != [] {
      if Stutters(Front(handled), log) {
        StutterKeepsLast(Front(handled), log, p);
      } else {
        StutterKeepsLast(Front(handled), Front(log), p);
      }
    }
  }

  /** The token a pair ends with depends on the confirmations alone. */
  lemma {:induction false} LastTokenOfOnly(es: seq<Event>, p: Pair)
    requires EndsConfirmed(es, p)
    ensures EndsConfirmed(Only(es, true), p) && LastTouch(Only(es, true), p) == LastTouch(es, p)
  {
    var o := Only(Front(es), true);
    if Last(es).SubscriptionConfirmed? {
      assert Front(o + [Last(es)]) == o && Last(o + [Last(es)]) == Last(es);
      assert Only(es, true) == o + [Last(es)];
    } else {
      assert Only(es, true) == o;
    }
    if !Touches(Last(es), p) { LastTokenOfOnly(Front(es), p); }
  }

  /** With the two durables, redeliveries included, the read model is right exactly
      when, for every pair, the event handled last is of the same kind as the one
      committed last. */
  lemma ConvergesIffOrdered(handled: seq<Event>, log: seq<Event>)
    requires Consumed(handled, log)
    ensures Sub.Fold(map[], handled) == Sub.Fold(map[], log) <==>
            forall p :: EndsConfirmed(handled, p) <==> EndsConfirmed(log, p)
  {
    var v, w := Sub.Fold(map[], handled), Sub.Fold(map[], log);
    forall p ensures At(v, p).Some? <==> EndsConfirmed(handled, p)
             ensures At(w, p).Some? <==> EndsConfirmed(log, p)
             ensures EndsConfirmed(handled, p) && EndsConfirmed(log, p) ==> At(v, p) == At(w, p)
    {
      FoldAt(map[], handled, p);
      FoldAt(map[], log, p);
      if EndsConfirmed(handled, p) && EndsConfirmed(log, p) {
        LastTokenOfOnly(handled, p);
        LastTokenOfOnly(log, p);
        StutterKeepsLast(Only(handled, true), Only(log, true), p);
      }
    }
    if forall p :: EndsConfirmed(handled, p) <==> EndsConfirmed(log, p) {
      forall p ensures At(v, p) == At(w, p) {
        assert EndsConfirmed(handled, p) <==> EndsConfirmed(log, p);
      }
      SameView(v, w);
    }
  }

  /** And it can be wrong: a removal overtaking its confirmation leaves a row for
      somebody who has unsubscribed. */
  lemma RemovalMayOvertake(p: Pair, token: Token)
    ensures var log := [SubscriptionConfirmed(p, token), SubscriptionRemoved(p)];
      var handled := [SubscriptionRemoved(p), SubscriptionConfirmed(p, token)];
      && ConsumedOnce(handled, log) && Consumed(handled, log)
      && Sub.Fold(map[], log) == map[] && Sub.Fold(map[], handled) == map[p := token]
  {
    var c, r := SubscriptionConfirmed(p, token), SubscriptionRemoved(p);
    Two(c, r);
    Two(r, c);
    OnceIsConsumed([r, c], [c, r]);
  }

  lemma Two(x: Event, y: Event)
    ensures Sub.Fold(map[], [x, y]) == Sub.Project(Sub.Project(map[], x), y)
    ensures forall confirmed :: Only([x, y], confirmed) == Only([x], confirmed) + Only([y], confirmed)
  {
    assert Front([x, y]) == [x] && Front([x]) == [] && Front([y]) == [];
    assert Sub.Fold(map[], [x]) == Sub.Project(map[], x);
  }
}

/** What the notifier announces of a confirmation mail is what became of it, over whole
    runs. */
module ConfirmationVerdicts {
  import opened Types
  import opened Confirmations
  import opened ConfirmationDelivery

  /** What is known from the steps themselves: when each row entered; how often it was
      sent again; which rows a delivered and saved resend took away; at which cutoff a
      row was dead-lettered as expired; and which outbox positions send-confirmation
      wrote after a delivery. */
  datatype Facts = Facts(since: map<nat, nat>, tries: map<nat, nat>, delivered: set<nat>, expired: map<nat, nat>, greeted: set<nat>)

  function Tries(f: Facts, id: nat): nat { if id in f.tries then f.tries[id] else 0 }

  function Learn(f: Facts, s: State, a: Action, max: int): Facts {
    if !Enabled(s, a, max) then f else
    match a
    case Sending(_, pair, _, delivered, _) =>
      if delivered then f.(greeted := f.greeted + {|s.db.outbox|})
      else if pair in s.db.failed then f else f.(since := f.since[s.db.nextId := s.clock])
    case Expire(stored) =>
      if stored then f.(expired := f.expired[s.listed[s.phase.todo[0]].id := s.phase.cutoff]) else f
    case RetryOne(delivered, stored) =>
      var id := s.listed[s.phase.todo[0]].id;
      f.(tries := f.tries[id := Tries(f, id) + 1],
         delivered := if delivered && stored then f.delivered + {id} else f.delivered)
    case _ => f
  }

  function Known(run: seq<Action>, max: int): Facts {
    if run == [] then Facts(map[], map[], {}, map[], {})
    else Learn(Known(Front(run), max), Exec(Front(run), max), Last(run), max)
  }

  /** Live rows: their age is known, their counter does not exceed their resends, and
      none of those was delivered and saved. */
  ghost predicate RowsInv(s: State, f: Facts) {
    && (forall p :: p in s.db.failed ==>
          var r := s.db.failed[p];
          r.id in f.since && f.since[r.id] == r.failedAt && r.retry <= Tries(f, r.id) && r.id !in f.delivered)
    && (forall id :: id in f.since ==> id < s.db.nextId)
    && (forall id :: id in f.delivered ==> id in s.left)
  }

  /** A dead row was too old or out of attempts. */
  ghost predicate Doomed(f: Facts, id: nat, max: int) {
    (id in f.expired && id in f.since && f.since[id] <= f.expired[id]) || Tries(f, id) >= max
  }

  ghost predicate LeftInv(s: State, f: Facts, max: int) {
    forall id :: id in s.left && s.left[id] < |s.db.outbox| ==>
      var e := s.db.outbox[s.left[id]];
      (e.ConfirmationSent? <==> id in f.delivered) && (e.ConfirmationDead? ==> Doomed(f, id, max))
  }

  ghost predicate GreetedInv(s: State, f: Facts) {
    && (forall i :: i in s.direct && i < |s.db.outbox| ==> (s.db.outbox[i].ConfirmationSent? <==> i in f.greeted))
    && (forall i :: i in f.greeted ==> i < |s.db.outbox|)
  }

  ghost predicate Truthful(s: State, f: Facts, max: int) {
    RowsInv(s, f) && LeftInv(s, f, max) && GreetedInv(s, f)
  }

  // ------------------------------------------------------------------- sending

  lemma SendingIsTruthful(s: State, f: Facts, a: Action, max: int)
    requires a.Sending? && LedgerInv(s) && Truthful(s, f, max)
    ensures Truthful(Next(s, a, max), Learn(f, s, a, max), max)
  {
    var t, g := Next(s, a, max), Learn(f, s, a, max);
    SendingRows(s, f, a, max);
    SendingLeft(s, f, t, g, max);
    SendingGreets(s, f, a, max);
  }

  lemma SendingRows(s: State, f: Facts, a: Action, max: int)
    requires a.Sending? && EntriesInv(s) && DeparturesInv(s) && RowsInv(s, f)
    ensures RowsInv(Next(s, a, max), Learn(f, s, a, max))
  {
    var t, g := Next(s, a, max), Learn(f, s, a, max);
    assert s.db.nextId !in s.entered && s.db.nextId !in s.left;
    if !a.delivered && a.pair !in s.db.failed {
      EnteringRows(s, f, t, g, a.pair);
    } else {
      assert t.db.failed == s.db.failed && t.left == s.left && g.since == f.since && g.tries == f.tries && g.delivered == f.delivered;
    }
  }

  lemma EnteringRows(s: State, f: Facts, t: State, g: Facts, pair: Pair)
    requires RowsInv(s, f) && s.db.nextId !in s.left && pair !in s.db.failed && pair in t.db.failed
    requires t.db.failed == s.db.failed[pair := t.db.failed[pair]] && t.db.nextId == s.db.nextId + 1 && t.left == s.left
    requires t.db.failed[pair].id == s.db.nextId && t.db.failed[pair].retry == 0
    requires g == f.(since := f.since[s.db.nextId := t.db.failed[pair].failedAt])
    ensures RowsInv(t, g)
  {
  }

  lemma SendingLeft(s: State, f: Facts, t: State, g: Facts, max: int)
    requires DeparturesInv(s) && LeftInv(s, f, max) && t.left == s.left && s.db.outbox <= t.db.outbox
    requires g.delivered == f.delivered && g.expired == f.expired && g.tries == f.tries
    requires forall id :: id in f.since ==> id in g.since && g.since[id] == f.since[id]
    ensures LeftInv(t, g, max)
  {
    forall id | id in t.left ensures s.left[id] < |s.db.outbox| && t.db.outbox[t.left[id]] == s.db.outbox[s.left[id]] {
    }
  }

  lemma SendingGreets(s: State, f: Facts, a: Action, max: int)
    requires a.Sending? && OwnEventsInv(s) && GreetedInv(s, f)
    ensures GreetedInv(Next(s, a, max), Learn(f, s, a, max))
  {
    var t, g := Next(s, a, max), Learn(f, s, a, max);
    assert t.db.outbox == s.db.outbox + [Last(t.db.outbox)];
    forall i | i in t.direct && i < |t.db.outbox| ensures t.db.outbox[i].ConfirmationSent? <==> i in g.greeted {
      if i < |s.db.outbox| { assert i in s.direct && t.db.outbox[i] == s.db.outbox[i]; }
    }
  }

  // ---------------------------------------------------------------- working rows

  /** Whether work on a row takes it away. */
  predicate Departs(row: Row, a: Action, max: int)
    requires a.Expire? || a.RetryOne?
  {
    a.stored && (a.Expire? || a.delivered || row.retry + 1 >= max)
  }

  /** The event it leaves with. */
  function Farewell(row: Row, p: Pair, a: Action, max: int): seq<Event>
    requires a.Expire? || a.RetryOne?
  {
    if !Departs(row, a, max) then []
    else if a.RetryOne? && a.delivered then [ConfirmationSent(row.saga, p.email)]
    else [ConfirmationDead(row.saga, p.email, if a.Expire? then EXPIRED else DEAD)]
  }

  /** What work on the row of a pair does, with the events spelled out. */
  ghost predicate Worked(s: State, t: State, p: Pair, a: Action, max: int) {
    && (a.Expire? || a.RetryOne?) && p in s.db.failed && t.db.nextId == s.db.nextId && t.direct == s.direct
    && var row := s.db.failed[p];
    && (p in t.db.failed <==> !Departs(row, a, max))
    && t.left == (if Departs(row, a, max) then s.left[row.id := |s.db.outbox|] else s.left)
    && t.db.outbox == s.db.outbox + Farewell(row, p, a, max)
    && (forall q :: q in t.db.failed && q != p ==> q in s.db.failed && t.db.failed[q] == s.db.failed[q])
    && (p in t.db.failed ==> t.db.failed[p] == row.(retry := row.retry + if a.RetryOne? && a.stored then 1 else 0))
  }

  lemma WorkOutcome(s: State, a: Action, max: int)
    requires ListInv(s) && Enabled(s, a, max) && (a.Expire? || a.RetryOne?)
    ensures Worked(s, Next(s, a, max), s.phase.todo[0], a, max)
  {
    assert s.phase.todo[0] in s.phase.todo;
  }

  /** What work teaches. */
  ghost predicate Taught(s: State, f: Facts, g: Facts, p: Pair, a: Action) {
    && !s.phase.Idle? && p in s.db.failed && (a.Expire? || a.RetryOne?) && g.since == f.since && g.greeted == f.greeted
    && g.expired == (if a.Expire? && a.stored then f.expired[s.db.failed[p].id := s.phase.cutoff] else f.expired)
    && g.tries == (if a.RetryOne? then f.tries[s.db.failed[p].id := Tries(f, s.db.failed[p].id) + 1] else f.tries)
    && g.delivered == (if a.RetryOne? && a.delivered && a.stored then f.delivered + {s.db.failed[p].id} else f.delivered)
  }

  lemma WorkTeaches(s: State, f: Facts, a: Action, max: int)
    requires ListInv(s) && Enabled(s, a, max) && (a.Expire? || a.RetryOne?)
    ensures Taught(s, f, Learn(f, s, a, max), s.phase.todo[0], a)
  {
    assert s.phase.todo[0] in s.phase.todo;
  }

  lemma WorkIsTruthful(s: State, f: Facts, a: Action, max: int)
    requires Enabled(s, a, max) && (a.Expire? || a.RetryOne?)
    requires LedgerInv(s) && ListInv(s) && ExpiryInv(s) && Truthful(s, f, max)
    ensures Truthful(Next(s, a, max), Learn(f, s, a, max), max)
  {
    var t, g, p := Next(s, a, max), Learn(f, s, a, max), s.phase.todo[0];
    WorkOutcome(s, a, max);
    WorkTeaches(s, f, a, max);
    ExpiredIsOld(s, a, max);
    WorkRows(s, f, t, g, p, a, max);
    WorkLeft(s, f, t, g, p, a, max);
    WorkGreets(s, f, t, g, p, a, max);
  }

  lemma ExpiredIsOld(s: State, a: Action, max: int)
    requires ListInv(s) && ExpiryInv(s) && Enabled(s, a, max) && (a.Expire? || a.RetryOne?)
    ensures a.Expire? ==> s.phase.todo[0] in s.db.failed && s.db.failed[s.phase.todo[0]].failedAt <= s.phase.cutoff
  {
    assert s.phase.todo[0] in s.phase.todo;
  }

  lemma WorkRows(s: State, f: Facts, t: State, g: Facts, p: Pair, a: Action, max: int)
    requires EntriesInv(s) && RowsInv(s, f) && Taught(s, f, g, p, a) && Worked(s, t, p, a, max)
    ensures RowsInv(t, g)
  {
    forall q | q in t.db.failed && q != p ensures s.db.failed[q].id != s.db.failed[p].id {
      assert s.entered[s.db.failed[q].id].0 == q;
    }
  }

  lemma WorkLeft(s: State, f: Facts, t: State, g: Facts, p: Pair, a: Action, max: int)
    requires EntriesInv(s) && DeparturesInv(s) && RowsInv(s, f) && LeftInv(s, f, max)
    requires Taught(s, f, g, p, a) && Worked(s, t, p, a, max)
    requires a.Expire? ==> s.db.failed[p].failedAt <= s.phase.cutoff
    ensures LeftInv(t, g, max)
  {
    var own := s.db.failed[p].id;
    assert own !in s.left;
    forall id | id in t.left && t.left[id] < |t.db.outbox|
      ensures var e := t.db.outbox[t.left[id]];
        (e.ConfirmationSent? <==> id in g.delivered) && (e.ConfirmationDead? ==> Doomed(g, id, max))
    {
      if id != own {
        assert id in s.left && t.left[id] == s.left[id] < |s.db.outbox|;
        assert Doomed(f, id, max) ==> Doomed(g, id, max);
      }
    }
  }

  lemma WorkGreets(s: State, f: Facts, t: State, g: Facts, p: Pair, a: Action, max: int)
    requires OwnEventsInv(s) && GreetedInv(s, f) && Taught(s, f, g, p, a) && Worked(s, t, p, a, max)
    ensures GreetedInv(t, g)
  {
  }

  // ------------------------------------------------------------------------ runs

  lemma StepIsTruthful(s: State, f: Facts, a: Action, max: int)
    requires LedgerInv(s) && ListInv(s) && ExpiryInv(s) && Truthful(s, f, max)
    ensures Truthful(Next(s, a, max), Learn(f, s, a, max), max)
  {
    if Enabled(s, a, max) {
      match a
      case Sending(_, _, _, _, _) => SendingIsTruthful(s, f, a, max);
      case Expire(_) => WorkIsTruthful(s, f, a, max);
      case RetryOne(_, _) => WorkIsTruthful(s, f, a, max);
      case _ =>
    }
  }

  lemma {:induction false} RunIsTruthful(run: seq<Action>, max: int)
    requires max >= 1
    ensures Truthful(Exec(run, max), Known(run, max), max)
  {
    if run != [] {
      RunIsTruthful(Front(run), max);
      LedgerInvariant(Front(run), max);
      PassInvariant(Front(run), max);
      StepIsTruthful(Exec(Front(run), max), Known(Front(run), max), Last(run), max);
    }
  }

  /** Over every run, whatever fails: a row leaves with a sent event exactly if a resend
      of it was delivered and saved; with a dead event only if it had expired at the
      cutoff of its pass or had been sent again at least MaxRetries times; and
      send-confirmation announces a mail as sent exactly if it was delivered. */
  lemma VerdictsAreTrue(run: seq<Action>, max: int, id: nat, i: nat)
    requires max >= 1
    ensures var s, f := Exec(run, max), Known(run, max);
      && (id in s.left ==>
            && s.left[id] < |s.db.outbox|
            && var e := s.db.outbox[s.left[id]];
               (e.ConfirmationSent? <==> id in f.delivered) && (e.ConfirmationDead? <==> id !in f.delivered)
               && (e.ConfirmationDead? ==>
                     (id in f.expired && id in f.since && f.since[id] <= f.expired[id]) || Tries(f, id) >= max))
      && (i in s.direct ==> i < |s.db.outbox| && (s.db.outbox[i].ConfirmationSent? <==> i in f.greeted))
  {
    RunIsTruthful(run, max);
    LedgerInvariant(run, max);
  }
}

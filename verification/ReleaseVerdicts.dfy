/** What the retrier and the notifier announce of a release mail is what became of it,
    over whole runs. */
module ReleaseVerdicts {
  import opened Types
  import opened Releases
  import opened ReleaseDelivery
  import Mailer

  /** A retry row that was worked on: its id, whom it is for, and its saga. */
  datatype Worked = Worked(id: nat, key: Key, saga: SagaId)

  /** What is known from the steps themselves: recipients whose mail the mailer reported
      as sent; for each row whose reported mail was also saved, the outbox position it
      was saved at; and for each outbox position written as dead, the row. */
  datatype Facts = Facts(taken: set<Key>, saved: map<nat, (nat, Worked)>, dead: map<nat, Worked>)

  function Reached(rel: Release, emails: seq<Email>, ok: seq<bool>): (ks: set<Key>)
    requires |ok| == |emails|
    ensures forall k :: k in ks <==> k.rel == rel && exists i :: 0 <= i < |ok| && ok[i] && emails[i] == k.email
  {
    set i | 0 <= i < |ok| && ok[i] :: Key(rel, emails[i])
  }

  function Learn(f: Facts, s: State, a: Action, max: int): Facts {
    if !Enabled(s, a, max) then f else
    match a
    case Finish(ok, _) =>
      f.(taken := f.taken + Reached(s.attempt.value.input.rel, s.attempt.value.emails, ok))
    case Retry(fails, sent, stored) =>
      var (k, row) := s.todo[0];
      var w, at, out := Worked(row.id, k, row.saga), |s.db.outbox|, Next(s, a, max).db.outbox;
      var taken := LookUp(s.view, k, fails) == Subscribed && sent;
      Facts(if taken then f.taken + {k} else f.taken,
            if taken && stored then f.saved[row.id := (at, w)] else f.saved,
            if at < |out| && out[at].ReleaseDead? then f.dead[at := w] else f.dead)
    case _ => f
  }

  function Known(run: seq<Action>, max: int): Facts {
    if run == [] then Facts({}, map[], map[])
    else Learn(Known(Front(run), max), Exec(Front(run), max), Last(run), max)
  }

  /** A sent event is about a mail that was reported as sent. */
  ghost predicate SentInv(s: State, f: Facts) {
    forall i :: 0 <= i < |s.db.outbox| && s.db.outbox[i].ReleaseSent? ==> Key(s.db.outbox[i].rel, s.db.outbox[i].email) in f.taken
  }

  /** A saved success left its row's sent event, and the row is gone. */
  ghost predicate SavedInv(s: State, f: Facts) {
    && (forall id :: id in f.saved ==>
          var (at, w) := f.saved[id];
          && id < s.db.nextId && w.id == id && at < |s.db.outbox|
          && s.db.outbox[at] == ReleaseSent(w.saga, w.key.rel, w.key.email))
    && (forall k :: k in s.db.failed ==> s.db.failed[k].id !in f.saved)
  }

  /** A dead event is that of a row that used up its attempts, none of them a saved
      success, and that is gone. */
  ghost predicate DeadInv(s: State, f: Facts, max: int) {
    && (forall i :: 0 <= i < |s.db.outbox| && s.db.outbox[i].ReleaseDead? ==> i in f.dead)
    && (forall i :: i in f.dead ==>
          var w := f.dead[i];
          && i < |s.db.outbox| && s.db.outbox[i] == ReleaseDead(w.saga, w.key.rel, w.key.email, DEAD)
          && w.id < s.db.nextId && Count(s.resends, w.id) >= max && w.id !in f.saved)
  }

  ghost predicate DeadGone(s: State, f: Facts) {
    forall k, i :: k in s.db.failed && i in f.dead ==> s.db.failed[k].id != f.dead[i].id
  }

  ghost predicate Truthful(s: State, f: Facts, max: int) {
    SentInv(s, f) && SavedInv(s, f) && DeadInv(s, f, max) && DeadGone(s, f)
  }

  // ------------------------------------------------------------------- a batch

  lemma BatchEvents(db: Db, input: Input, emails: seq<Email>, ok: seq<bool>, lost: seq<Email>) returns (more: seq<Event>)
    requires Distinct(emails) && |ok| == |emails| && multiset(lost) == multiset(Mailer.Miss(emails, ok))
    ensures Commit(db, input, emails, lost, Mailer.CountTrue(ok)).outbox == db.outbox + more && |more| == |emails| + 1
    ensures forall j :: 0 <= j < |emails| ==>
      more[j] == if ok[j] then ReleaseSent(input.saga, input.rel, emails[j]) else ReleaseFailed(input.saga, input.rel, emails[j], FAILED)
    ensures more[|emails|].ReleaseNotified?
  {
    RecordShape(db, input, emails, Elems(lost));
    LostAreMissed(emails, ok, lost);
    var outcomes, notice := Outcomes(input, emails, Elems(lost)), ReleaseNotified(input.saga, input.rel, Mailer.CountTrue(ok), lost);
    more := outcomes + [notice];
    assert db.outbox + outcomes + [notice] == db.outbox + more;
    assert forall j :: 0 <= j < |emails| ==> more[j] == Outcome(input, emails[j], Elems(lost));
  }

  lemma FinishIsTruthful(s: State, f: Facts, ok: seq<bool>, lost: seq<Email>, max: int)
    requires Inv(s) && Truthful(s, f, max) && Enabled(s, Finish(ok, lost), max)
    ensures Truthful(Next(s, Finish(ok, lost), max), Learn(f, s, Finish(ok, lost), max), max)
  {
    var more := FinishFacts(s, f, ok, lost, max);
    MoreIsTruthful(s, f, Next(s, Finish(ok, lost), max), Learn(f, s, Finish(ok, lost), max), more, max);
  }

  lemma FinishFacts(s: State, f: Facts, ok: seq<bool>, lost: seq<Email>, max: int) returns (more: seq<Event>)
    requires AttemptInv(s) && Enabled(s, Finish(ok, lost), max)
    ensures var t, g := Next(s, Finish(ok, lost), max), Learn(f, s, Finish(ok, lost), max);
      && t.db.outbox == s.db.outbox + more && t.resends == s.resends && t.db.nextId >= s.db.nextId
      && f.taken <= g.taken && g.saved == f.saved && g.dead == f.dead
      && (forall j :: 0 <= j < |more| && more[j].ReleaseSent? ==> Key(more[j].rel, more[j].email) in g.taken)
      && (forall j :: 0 <= j < |more| ==> !more[j].ReleaseDead?)
      && FreshOrOld(s, t)
  {
    more := CommitFacts(s.db, s.attempt.value.input, s.attempt.value.emails, ok, lost);
  }

  lemma CommitFacts(db: Db, input: Input, emails: seq<Email>, ok: seq<bool>, lost: seq<Email>) returns (more: seq<Event>)
    requires Distinct(emails) && |ok| == |emails| && multiset(lost) == multiset(Mailer.Miss(emails, ok))
    ensures var d := Commit(db, input, emails, lost, Mailer.CountTrue(ok));
      && d.outbox == db.outbox + more && d.nextId >= db.nextId
      && (forall k :: k in d.failed ==> (k in db.failed && d.failed[k].id == db.failed[k].id) || d.failed[k].id >= db.nextId)
    ensures forall j :: 0 <= j < |more| && more[j].ReleaseSent? ==>
      Key(more[j].rel, more[j].email) in Reached(input.rel, emails, ok)
    ensures forall j :: 0 <= j < |more| ==> !more[j].ReleaseDead?
  {
    more := BatchEvents(db, input, emails, ok, lost);
    CommitRows(db, input, emails, lost, Mailer.CountTrue(ok));
    forall j | 0 <= j < |more| && more[j].ReleaseSent? ensures Key(more[j].rel, more[j].email) in Reached(input.rel, emails, ok) {
      assert j < |emails| && ok[j] && more[j].rel == input.rel && more[j].email == emails[j];
    }
  }

  lemma CommitRows(db: Db, input: Input, emails: seq<Email>, lost: seq<Email>, sent: nat)
    ensures var d := Commit(db, input, emails, lost, sent);
      && d.nextId >= db.nextId
      && (forall k :: k in d.failed ==> (k in db.failed && d.failed[k].id == db.failed[k].id) || d.failed[k].id >= db.nextId)
  {
    RecordShape(db, input, emails, Elems(lost));
  }

  ghost predicate FreshOrOld(s: State, t: State) {
    forall k :: k in t.db.failed ==> (k in s.db.failed && t.db.failed[k].id == s.db.failed[k].id) || t.db.failed[k].id >= s.db.nextId
  }

  /** Events that announce no death, and fresh rows. */
  lemma MoreIsTruthful(s: State, f: Facts, t: State, g: Facts, more: seq<Event>, max: int)
    requires Truthful(s, f, max) && t.db.outbox == s.db.outbox + more && t.resends == s.resends && t.db.nextId >= s.db.nextId
    requires f.taken <= g.taken && g.saved == f.saved && g.dead == f.dead
    requires forall j :: 0 <= j < |more| && more[j].ReleaseSent? ==> Key(more[j].rel, more[j].email) in g.taken
    requires forall j :: 0 <= j < |more| ==> !more[j].ReleaseDead?
    requires FreshOrOld(s, t)
    ensures Truthful(t, g, max)
  {
    SentStays(s, f, t, g, more);
    SavedStays(s, f, t, g);
    DeadStays(s, f, t, g, more, max);
  }

  lemma SavedStays(s: State, f: Facts, t: State, g: Facts)
    requires SavedInv(s, f) && s.db.outbox <= t.db.outbox && g.saved == f.saved
    requires t.db.nextId >= s.db.nextId && FreshOrOld(s, t)
    ensures SavedInv(t, g)
  {
    forall id | id in g.saved ensures g.saved[id].0 < |t.db.outbox| && t.db.outbox[g.saved[id].0] == s.db.outbox[f.saved[id].0] {
      assert g.saved[id].0 < |s.db.outbox|;
    }
  }

  lemma SentStays(s: State, f: Facts, t: State, g: Facts, more: seq<Event>)
    requires SentInv(s, f) && t.db.outbox == s.db.outbox + more && f.taken <= g.taken
    requires forall j :: 0 <= j < |more| && more[j].ReleaseSent? ==> Key(more[j].rel, more[j].email) in g.taken
    ensures SentInv(t, g)
  {
    forall i | 0 <= i < |t.db.outbox| && t.db.outbox[i].ReleaseSent? ensures Key(t.db.outbox[i].rel, t.db.outbox[i].email) in g.taken {
      if i < |s.db.outbox| { assert s.db.outbox[i].ReleaseSent?; } else { assert t.db.outbox[i] == more[i - |s.db.outbox|]; }
    }
  }

  lemma DeadStays(s: State, f: Facts, t: State, g: Facts, more: seq<Event>, max: int)
    requires DeadInv(s, f, max) && t.db.outbox == s.db.outbox + more && g.saved == f.saved && g.dead == f.dead
    requires t.resends == s.resends && t.db.nextId >= s.db.nextId
    requires forall j :: 0 <= j < |more| ==> !more[j].ReleaseDead?
    ensures DeadInv(t, g, max)
  {
    assert forall i :: |s.db.outbox| <= i < |t.db.outbox| ==> t.db.outbox[i] == more[i - |s.db.outbox|];
  }

  // ------------------------------------------------------------------- a retry

  /** The retried row, and what may come of it. */
  lemma RetryIsTruthful(s: State, f: Facts, fails: bool, sent: bool, stored: bool, max: int)
    requires Inv(s) && AttemptsInv(s, max) && Truthful(s, f, max) && s.todo != []
    ensures Truthful(Next(s, Retry(fails, sent, stored), max), Learn(f, s, Retry(fails, sent, stored), max), max)
  {
    var t, g := Next(s, Retry(fails, sent, stored), max), Learn(f, s, Retry(fails, sent, stored), max);
    var (k, row) := s.todo[0];
    assert s.todo[0] in s.todo;
    var look := LookUp(s.view, k, fails);
    var w := Worked(row.id, k, row.saga);
    RetryOutcome(s.db, max, k, look, sent, stored);
    assert Metered(s, row.id, row.retry);
    ResendsGrow(s, t, row.id, look == Subscribed);
    if look == Subscribed && stored && sent {
      SuccessIsTruthful(s, f, t, g, w, max);
    } else if look == Subscribed && stored && row.retry + 1 >= max {
      DeathIsTruthful(s, f, t, g, w, max);
    } else {
      SilenceIsTruthful(s, f, t, g, max);
    }
  }

  lemma RetryOutcome(db: Db, max: int, k: Key, look: Lookup, sent: bool, stored: bool)
    requires k in db.failed
    ensures var d, row := RetryRow(db, max, k, db.failed[k], look, sent, stored), db.failed[k];
      && d.nextId == db.nextId
      && (forall l :: l in d.failed ==> l in db.failed && d.failed[l].id == db.failed[l].id)
      && d.outbox == db.outbox +
           (if look != Subscribed || !stored then []
            else if sent then [ReleaseSent(row.saga, k.rel, k.email)]
            else if row.retry + 1 >= max then [ReleaseDead(row.saga, k.rel, k.email, DEAD)] else [])
      && (look == Subscribed && stored && (sent || row.retry + 1 >= max) ==> k !in d.failed)
  {
  }

  lemma ResendsGrow(s: State, t: State, id: nat, b: bool)
    requires t.resends == CountIf(s.resends, id, b)
    ensures forall i: nat :: Count(t.resends, i) >= Count(s.resends, i)
    ensures b ==> Count(t.resends, id) == Count(s.resends, id) + 1
  {
  }

  /** The rest of the table, without the row that was worked on. */
  ghost predicate Without(s: State, t: State, w: Worked) {
    && w.key in s.db.failed && s.db.failed[w.key].id == w.id && t.db.nextId == s.db.nextId && UniqueIds(s.db)
    && (forall k :: k in t.db.failed ==> k in s.db.failed && k != w.key && t.db.failed[k].id == s.db.failed[k].id)
    && (forall id: nat :: Count(t.resends, id) >= Count(s.resends, id))
  }

  lemma SuccessIsTruthful(s: State, f: Facts, t: State, g: Facts, w: Worked, max: int)
    requires Truthful(s, f, max) && Without(s, t, w) && w.id < s.db.nextId
    requires t.db.outbox == s.db.outbox + [ReleaseSent(w.saga, w.key.rel, w.key.email)]
    requires g == Facts(f.taken + {w.key}, f.saved[w.id := (|s.db.outbox|, w)], f.dead)
    ensures Truthful(t, g, max)
  {
    SentStays(s, f, t, g, [ReleaseSent(w.saga, w.key.rel, w.key.email)]);
    SuccessIsSaved(s, f, t, g, w);
    SuccessIsNotDead(s, f, t, g, w, max);
  }

  lemma SuccessIsSaved(s: State, f: Facts, t: State, g: Facts, w: Worked)
    requires SavedInv(s, f) && Without(s, t, w) && w.id < s.db.nextId
    requires t.db.outbox == s.db.outbox + [ReleaseSent(w.saga, w.key.rel, w.key.email)]
    requires g.saved == f.saved[w.id := (|s.db.outbox|, w)]
    ensures SavedInv(t, g)
  {
    assert forall k :: k in t.db.failed ==> t.db.failed[k].id != w.id;
  }

  lemma SuccessIsNotDead(s: State, f: Facts, t: State, g: Facts, w: Worked, max: int)
    requires DeadInv(s, f, max) && DeadGone(s, f) && Without(s, t, w)
    requires t.db.outbox == s.db.outbox + [ReleaseSent(w.saga, w.key.rel, w.key.email)]
    requires g.saved == f.saved[w.id := (|s.db.outbox|, w)] && g.dead == f.dead
    ensures DeadInv(t, g, max) && DeadGone(t, g)
  {
    assert forall i :: i in f.dead ==> f.dead[i].id != w.id;
    forall i | i in g.dead ensures g.dead[i].id !in g.saved && Count(t.resends, g.dead[i].id) >= max {
      assert Count(s.resends, f.dead[i].id) >= max;
    }
  }

  lemma DeathIsTruthful(s: State, f: Facts, t: State, g: Facts, w: Worked, max: int)
    requires Truthful(s, f, max) && Without(s, t, w) && w.id < s.db.nextId && w.id !in f.saved
    requires t.db.outbox == s.db.outbox + [ReleaseDead(w.saga, w.key.rel, w.key.email, DEAD)]
    requires f.taken <= g.taken && g.saved == f.saved && g.dead == f.dead[|s.db.outbox| := w] && Count(t.resends, w.id) >= max
    ensures Truthful(t, g, max)
  {
    SentStays(s, f, t, g, [ReleaseDead(w.saga, w.key.rel, w.key.email, DEAD)]);
    SavedStays(s, f, t, g);
    DeathIsRecorded(s, f, t, g, w, max);
    DeathIsGone(s, f, t, g, w);
  }

  lemma DeathIsGone(s: State, f: Facts, t: State, g: Facts, w: Worked)
    requires DeadGone(s, f) && Without(s, t, w) && g.dead == f.dead[|s.db.outbox| := w]
    ensures DeadGone(t, g)
  {
    assert forall k :: k in t.db.failed ==> t.db.failed[k].id != w.id;
  }

  lemma DeathIsRecorded(s: State, f: Facts, t: State, g: Facts, w: Worked, max: int)
    requires DeadInv(s, f, max) && w.id < s.db.nextId && w.id !in f.saved && t.db.nextId == s.db.nextId
    requires t.db.outbox == s.db.outbox + [ReleaseDead(w.saga, w.key.rel, w.key.email, DEAD)]
    requires g.saved == f.saved && g.dead == f.dead[|s.db.outbox| := w] && Count(t.resends, w.id) >= max
    requires forall id: nat :: Count(t.resends, id) >= Count(s.resends, id)
    ensures DeadInv(t, g, max)
  {
    forall i | i in g.dead ensures Count(t.resends, g.dead[i].id) >= max {
      if i != |s.db.outbox| { assert Count(s.resends, f.dead[i].id) >= max; }
    }
  }

  lemma SilenceIsTruthful(s: State, f: Facts, t: State, g: Facts, max: int)
    requires Truthful(s, f, max) && t.db.outbox == s.db.outbox && t.db.nextId == s.db.nextId
    requires f.taken <= g.taken && g.saved == f.saved && g.dead == f.dead
    requires forall k :: k in t.db.failed ==> k in s.db.failed && t.db.failed[k].id == s.db.failed[k].id
    requires forall id: nat :: Count(t.resends, id) >= Count(s.resends, id)
    ensures Truthful(t, g, max)
  {
    forall i | i in g.dead ensures Count(t.resends, g.dead[i].id) >= max {
      assert Count(s.resends, f.dead[i].id) >= max;
    }
  }

  lemma {:induction false} RunIsTruthful(run: seq<Action>, max: int)
    requires max >= 1
    ensures Truthful(Exec(run, max), Known(run, max), max)
  {
    if run != [] {
      RunIsTruthful(Front(run), max);
      Invariant(Front(run), max);
      StepIsTruthful(Exec(Front(run), max), Known(Front(run), max), Last(run), max);
    }
  }

  lemma StepIsTruthful(s: State, f: Facts, a: Action, max: int)
    requires Inv(s) && AttemptsInv(s, max) && Truthful(s, f, max)
    ensures Truthful(Next(s, a, max), Learn(f, s, a, max), max)
  {
    if Enabled(s, a, max) {
      match a
      case Finish(ok, lost) => FinishIsTruthful(s, f, ok, lost, max);
      case Retry(fails, sent, stored) => RetryIsTruthful(s, f, fails, sent, stored, max);
      case _ => SilenceIsTruthful(s, f, Next(s, a, max), f, max);
    }
  }

  /** Over every run, whatever fails: a recipient is announced as sent only if the mailer
      reported a mail to them about that release as sent; and as dead only for a retry
      row that was resent at least MaxRetries times, none of which was reported as sent
      and saved. A resend that was reported and saved is announced as sent, by an event
      that carries the row's saga id. */
  lemma VerdictsAreTrue(run: seq<Action>, max: int, i: nat, id: nat)
    requires max >= 1 && i < |Exec(run, max).db.outbox|
    ensures var s, f := Exec(run, max), Known(run, max); var e := s.db.outbox[i];
      && (e.ReleaseSent? ==> Key(e.rel, e.email) in f.taken)
      && (e.ReleaseDead? ==>
            && i in f.dead && f.dead[i].key == Key(e.rel, e.email) && f.dead[i].saga == e.id
            && Count(s.resends, f.dead[i].id) >= max && f.dead[i].id !in f.saved)
      && (id in f.saved ==>
            var (at, w) := f.saved[id];
            w.id == id && at < |s.db.outbox| && s.db.outbox[at] == ReleaseSent(w.saga, w.key.rel, w.key.email))
  {
    RunIsTruthful(run, max);
  }
}

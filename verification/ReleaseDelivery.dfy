/** Release delivery over whole runs: detections delivered any number of times, one
    in flight at a time; the read model changing underneath; a single retrier
    working off its list row by row; store failures, restarts and pruning. */
module ReleaseDelivery {
  import opened Types
  import opened Releases
  import Mailer

  /** A batch between its dedupe check and its transaction. */
  datatype Attempt = Attempt(input: Input, emails: seq<Email>)

  datatype State = State(
    db: Db,
    view: View,
    attempt: Option<Attempt>,
    todo: seq<(Key, Failed)>,            // listed rows the retrier has not reached yet
    // history
    resolved: map<Release, set<Email>>,  // recipients of the committed batch of a release
    dropped: seq<Key>,                   // retry rows dropped because the recipient unsubscribed
    pruned: set<Release>,                // releases whose dedupe mark was pruned
    resends: map<nat, nat>,              // resend attempts per retry row
    unread: map<nat, nat>,               // failed lookups per retry row
    unsaved: map<nat, nat>,              // failed writes per retry row
    found: Option<set<nat>>,             // ids of the rows the pass under way has listed
    passes: nat)                         // passes worked off to the end

  datatype Action =
    | Views(view: View)                                   // the read model moves on
    | Detect(input: Input, emails: seq<Email>)            // a detection passes the dedupe check
    | Finish(ok: seq<bool>, lost: seq<Email>)             // its transaction commits
    | Abandon                                             // or does not
    | List(rows: seq<(Key, Failed)>)                      // the retrier lists its rows
    | Retry(lookupFails: bool, sent: bool, stored: bool)  // and works on the first
    | End                                                 // the pass is worked off
    | Restart                                             // or forgotten
    | Prune(rels: set<Release>)                           // old dedupe marks go

  const INIT := State(Db(map[], 0, {}, []), map[], None, [], map[], [], {}, map[], map[], map[], None, 0)

  function Keys(rows: seq<(Key, Failed)>): (ks: seq<Key>)
    ensures |ks| == |rows| && forall i :: 0 <= i < |rows| ==> ks[i] == rows[i].0
  {
    seq(|rows|, i requires 0 <= i < |rows| => rows[i].0)
  }

  predicate Enabled(s: State, a: Action, max: int) {
    match a
    case Detect(input, emails) =>
      && s.attempt.None? && input.rel !in s.db.processed
      && Distinct(emails) && Elems(emails) == Recipients(s.view, input.rel.repo)
    case Finish(ok, lost) =>
      && s.attempt.Some? && |ok| == |s.attempt.value.emails|
      && multiset(lost) == multiset(Mailer.Miss(s.attempt.value.emails, ok))
    case List(rows) =>
      && s.found.None? && Distinct(Keys(rows))
      && Elems(Keys(rows)) == (set k | k in s.db.failed && s.db.failed[k].retry < max)
      && forall r :: r in rows ==> r.0 in s.db.failed && s.db.failed[r.0] == r.1
    case Retry(_, _, _) => s.todo != []
    case End => s.found.Some? && s.todo == []
    case Prune(rels) => rels <= s.db.processed
    case _ => true
  }

  function Count(counts: map<nat, nat>, id: nat): nat { if id in counts then counts[id] else 0 }

  function CountIf(counts: map<nat, nat>, id: nat, b: bool): map<nat, nat> {
    if b then counts[id := Count(counts, id) + 1] else counts
  }

  function Ids(rows: seq<(Key, Failed)>): set<nat> { set r | r in rows :: r.1.id }

  function Next(s: State, a: Action, max: int): State {
    if !Enabled(s, a, max) then s else
    match a
    case Views(v) => s.(view := v)
    case Detect(input, emails) => s.(attempt := Some(Attempt(input, emails)))
    case Finish(ok, lost) =>
      var t := s.attempt.value;
      s.(db := Commit(s.db, t.input, t.emails, lost, Mailer.CountTrue(ok)), attempt := None,
         resolved := s.resolved[t.input.rel := Elems(t.emails)])
    case Abandon => s.(attempt := None)
    case List(rows) => s.(todo := rows, found := Some(Ids(rows)))
    case Retry(fails, sent, stored) =>
      var (k, row) := s.todo[0];
      var look := LookUp(s.view, k, fails);
      s.(db := RetryRow(s.db, max, k, row, look, sent, stored), todo := s.todo[1..],
         dropped := if look == Gone && stored then s.dropped + [k] else s.dropped,
         resends := CountIf(s.resends, row.id, look == Subscribed),
         unread := CountIf(s.unread, row.id, look == LookupError),
         unsaved := CountIf(s.unsaved, row.id, look != LookupError && !stored))
    case End => s.(found := None, passes := s.passes + 1)
    case Restart => s.(todo := [], found := None)
    case Prune(rels) => s.(db := s.db.(processed := s.db.processed - rels), pruned := s.pruned + rels)
  }

  function Exec(run: seq<Action>, max: int): State {
    if run == [] then INIT else Next(Exec(Front(run), max), Last(run), max)
  }

  // ------------------------------------------------------------- what is counted

  /** Events that settle a recipient for good. */
  function Settles(e: Event): Option<Key> {
    match e
    case ReleaseSent(_, rel, email) => Some(Key(rel, email))
    case ReleaseDead(_, rel, email, _) => Some(Key(rel, email))
    case _ => None
  }

  /** How many of the first n events settle a recipient, or sum up a release. */
  function SettledIn(es: seq<Event>, n: nat, k: Key): nat
    requires n <= |es|
  {
    if n == 0 then 0 else SettledIn(es, n - 1, k) + if Settles(es[n - 1]) == Some(k) then 1 else 0
  }

  function NoticesIn(es: seq<Event>, n: nat, rel: Release): nat
    requires n <= |es|
  {
    if n == 0 then 0
    else NoticesIn(es, n - 1, rel) + if es[n - 1].ReleaseNotified? && es[n - 1].rel == rel then 1 else 0
  }

  function Settled(es: seq<Event>, k: Key): nat { SettledIn(es, |es|, k) }

  function Notices(es: seq<Event>, rel: Release): nat { NoticesIn(es, |es|, rel) }

  function Drops(ks: seq<Key>, k: Key): nat { multiset(ks)[k] }

  function Live(s: State, k: Key): nat { if k in s.db.failed then 1 else 0 }

  /** Everything that has become of a recipient of a release. */
  function Accounted(s: State, k: Key): nat {
    Settled(s.db.outbox, k) + Drops(s.dropped, k) + Live(s, k)
  }

  predicate Due(s: State, k: Key) {
    k.rel in s.resolved && k.email in s.resolved[k.rel]
  }

  lemma {:induction false} PrefixCounts(es: seq<Event>, fs: seq<Event>, n: nat, k: Key, rel: Release)
    requires n <= |es| <= |fs| && forall i :: 0 <= i < n ==> es[i] == fs[i]
    ensures SettledIn(es, n, k) == SettledIn(fs, n, k) && NoticesIn(es, n, rel) == NoticesIn(fs, n, rel)
  {
    if n > 0 { PrefixCounts(es, fs, n - 1, k, rel); }
  }

  lemma SettledSnoc(es: seq<Event>, e: Event, k: Key, rel: Release)
    ensures Settled(es + [e], k) == Settled(es, k) + if Settles(e) == Some(k) then 1 else 0
    ensures Notices(es + [e], rel) == Notices(es, rel) + if e.ReleaseNotified? && e.rel == rel then 1 else 0
  {
    PrefixCounts(es, es + [e], |es|, k, rel);
  }

  /** A batch settles exactly its recipients that were not lost, once each. */
  lemma {:induction false} OutcomesSettle(es: seq<Event>, input: Input, emails: seq<Email>, lost: set<Email>, n: nat, k: Key, rel: Release)
    requires Distinct(emails) && n <= |emails|
    ensures var all := es + Outcomes(input, emails, lost);
      && SettledIn(all, |es| + n, k) ==
         Settled(es, k) + (if k.rel == input.rel && k.email in emails[..n] && k.email !in lost then 1 else 0)
      && NoticesIn(all, |es| + n, rel) == Notices(es, rel)
  {
    var all := es + Outcomes(input, emails, lost);
    if n == 0 {
      PrefixCounts(es, all, |es|, k, rel);
    } else {
      OutcomesSettle(es, input, emails, lost, n - 1, k, rel);
      assert all[|es| + n - 1] == Outcome(input, emails[n - 1], lost);
      assert emails[..n] == emails[..n - 1] + [emails[n - 1]];
      assert emails[n - 1] !in emails[..n - 1];
    }
  }

  // ---------------------------------------------------------------- invariant

  ghost predicate AttemptInv(s: State) {
    s.attempt.Some? ==> s.attempt.value.input.rel !in s.db.processed && Distinct(s.attempt.value.emails)
  }

  ghost predicate TodoInv(s: State) {
    && Distinct(Keys(s.todo)) && (s.found.None? ==> s.todo == [])
    && forall r :: r in s.todo ==> r.0 in s.db.failed && s.db.failed[r.0] == r.1
  }

  ghost predicate MarksInv(s: State) {
    && (forall rel :: rel !in s.pruned ==> (rel in s.db.processed <==> rel in s.resolved))
    && (forall rel :: rel !in s.pruned ==> Notices(s.db.outbox, rel) == if rel in s.resolved then 1 else 0)
  }

  ghost predicate Conserved(s: State) {
    forall k: Key :: k.rel !in s.pruned ==> Accounted(s, k) == if Due(s, k) then 1 else 0
  }

  ghost predicate UniqueIds(db: Db) {
    && (forall k :: k in db.failed ==> db.failed[k].id < db.nextId)
    && (forall k, l :: k in db.failed && l in db.failed && db.failed[k].id == db.failed[l].id ==> k == l)
  }

  /** A row's counter is its number of resends but for those whose outcome was not
      saved. */
  ghost predicate ResendsInv(s: State, max: int) {
    && (forall k :: k in s.db.failed ==> Metered(s, s.db.failed[k].id, s.db.failed[k].retry))
    && (forall id: nat :: Count(s.resends, id) <= max + Count(s.unsaved, id))
  }

  ghost predicate Metered(s: State, id: nat, retry: nat) {
    retry <= Count(s.resends, id) <= retry + Count(s.unsaved, id)
  }

  ghost predicate AttemptsInv(s: State, max: int) {
    && Bounded(s.db.failed, max) && UniqueIds(s.db) && ResendsInv(s, max)
    && (forall id :: id in s.resends ==> id < s.db.nextId)
  }

  ghost predicate Inv(s: State) {
    AttemptInv(s) && TodoInv(s) && MarksInv(s) && Conserved(s)
  }

  lemma FinishKeeps(s: State, ok: seq<bool>, lost: seq<Email>, max: int)
    requires Inv(s) && Enabled(s, Finish(ok, lost), max)
    ensures Inv(Next(s, Finish(ok, lost), max))
  {
    var t := Next(s, Finish(ok, lost), max);
    var Attempt(input, emails) := s.attempt.value;
    RecordShape(s.db, input, emails, Elems(lost));
    FinishCounts(s.db, input, emails, lost, Mailer.CountTrue(ok));
    FinishTodo(s, t);
    FinishConserves(s, t, input, emails, lost);
  }

  lemma FinishTodo(s: State, t: State)
    requires TodoInv(s) && t.todo == s.todo && t.found == s.found
    requires forall k :: k in s.db.failed ==> k in t.db.failed && t.db.failed[k] == s.db.failed[k]
    ensures TodoInv(t)
  {
  }

  lemma FinishCounts(db: Db, input: Input, emails: seq<Email>, lost: seq<Email>, sent: nat)
    requires Distinct(emails)
    ensures var out := Commit(db, input, emails, lost, sent).outbox;
      && (forall k: Key :: Settled(out, k) == Settled(db.outbox, k) +
            if k.rel == input.rel && k.email in emails && k.email !in Elems(lost) then 1 else 0)
      && (forall rel: Release :: Notices(out, rel) == Notices(db.outbox, rel) + if rel == input.rel then 1 else 0)
  {
    var out := Commit(db, input, emails, lost, sent).outbox;
    forall k: Key
      ensures Settled(out, k) == Settled(db.outbox, k) +
              if k.rel == input.rel && k.email in emails && k.email !in Elems(lost) then 1 else 0
    {
      FinishCount(db, input, emails, lost, sent, k, k.rel);
    }
    forall rel: Release
      ensures Notices(out, rel) == Notices(db.outbox, rel) + if rel == input.rel then 1 else 0
    {
      FinishCount(db, input, emails, lost, sent, Key(rel, ""), rel);
    }
  }

  lemma FinishCount(db: Db, input: Input, emails: seq<Email>, lost: seq<Email>, sent: nat, k: Key, rel: Release)
    requires Distinct(emails)
    ensures var out := Commit(db, input, emails, lost, sent).outbox;
      && Settled(out, k) == Settled(db.outbox, k) +
           (if k.rel == input.rel && k.email in emails && k.email !in Elems(lost) then 1 else 0)
      && Notices(out, rel) == Notices(db.outbox, rel) + (if rel == input.rel then 1 else 0)
  {
    RecordShape(db, input, emails, Elems(lost));
    OutcomesSettle(db.outbox, input, emails, Elems(lost), |emails|, k, rel);
    assert emails[..|emails|] == emails;
    SettledSnoc(Record(db, input, emails, Elems(lost)).outbox, ReleaseNotified(input.saga, input.rel, sent, lost), k, rel);
  }

  lemma FinishConserves(s: State, t: State, input: Input, emails: seq<Email>, lost: seq<Email>)
    requires AttemptInv(s) && MarksInv(s) && Conserved(s)
    requires s.attempt.Some? && s.attempt.value == Attempt(input, emails)
    requires t.resolved == s.resolved[input.rel := Elems(emails)] && t.pruned == s.pruned && t.dropped == s.dropped
    requires t.db.processed == s.db.processed + {input.rel}
    requires forall k: Key :: Settled(t.db.outbox, k) == Settled(s.db.outbox, k) +
              if k.rel == input.rel && k.email in emails && k.email !in Elems(lost) then 1 else 0
    requires forall rel :: Notices(t.db.outbox, rel) == Notices(s.db.outbox, rel) + if rel == input.rel then 1 else 0
    requires forall k :: k in t.db.failed <==> k in s.db.failed || (k.rel == input.rel && k.email in emails && k.email in Elems(lost))
    ensures MarksInv(t) && Conserved(t)
  {
  }

  lemma FinishAttempts(s: State, ok: seq<bool>, lost: seq<Email>, max: int)
    requires max >= 1 && AttemptsInv(s, max) && Enabled(s, Finish(ok, lost), max)
    ensures AttemptsInv(Next(s, Finish(ok, lost), max), max)
  {
    var t := Next(s, Finish(ok, lost), max);
    var Attempt(input, emails) := s.attempt.value;
    RecordShape(s.db, input, emails, Elems(lost));
    RecordIds(s.db, input, emails, Elems(lost));
    NewRowsKeepAttempts(s, t, max);
  }

  lemma NewRowsKeepAttempts(s: State, t: State, max: int)
    requires max >= 1 && AttemptsInv(s, max) && UniqueIds(t.db) && t.db.nextId >= s.db.nextId
    requires t.resends == s.resends && t.unsaved == s.unsaved
    requires forall k :: k in t.db.failed ==>
      || (k in s.db.failed && t.db.failed[k] == s.db.failed[k])
      || (t.db.failed[k].retry == 0 && t.db.failed[k].id >= s.db.nextId)
    ensures AttemptsInv(t, max)
  {
    forall k | k in t.db.failed ensures Metered(t, t.db.failed[k].id, t.db.failed[k].retry) {
      if k in s.db.failed { assert Metered(s, s.db.failed[k].id, s.db.failed[k].retry); }
    }
  }

  lemma {:induction false} RecordIds(db: Db, input: Input, emails: seq<Email>, lost: set<Email>)
    requires UniqueIds(db)
    ensures UniqueIds(Record(db, input, emails, lost))
  {
    if emails != [] {
      RecordIds(db, input, Front(emails), lost);
      AddIds(Record(db, input, Front(emails), lost), input, Last(emails));
    }
  }

  lemma AddIds(db: Db, input: Input, email: Email)
    requires UniqueIds(db)
    ensures UniqueIds(Add(db, input, email))
  {
  }

  lemma RetryKeeps(s: State, fails: bool, sent: bool, stored: bool, max: int)
    requires Inv(s) && s.todo != []
    ensures Inv(Next(s, Retry(fails, sent, stored), max))
    ensures AttemptsInv(s, max) ==> AttemptsInv(Next(s, Retry(fails, sent, stored), max), max)
  {
    var t := Next(s, Retry(fails, sent, stored), max);
    var (k, row) := s.todo[0];
    var look := LookUp(s.view, k, fails);
    assert s.todo[0] in s.todo;
    RetryTodo(s, t, k, row, look, sent, stored, max);
    RetryConserves(s, t, k, row, look, sent, stored, max);
    if AttemptsInv(s, max) { RetryAttempts(s, t, k, row, look, sent, stored, max); }
  }

  lemma RetryTodo(s: State, t: State, k: Key, row: Failed, look: Lookup, sent: bool, stored: bool, max: int)
    requires TodoInv(s) && s.todo != [] && s.todo[0] == (k, row)
    requires t.db == RetryRow(s.db, max, k, row, look, sent, stored) && t.todo == s.todo[1..] && t.found == s.found
    ensures TodoInv(t)
  {
    assert Keys(t.todo) == Keys(s.todo)[1..];
    forall r | r in t.todo ensures r.0 in t.db.failed && t.db.failed[r.0] == r.1 {
      var i :| 0 <= i < |t.todo| && t.todo[i] == r;
      assert Keys(s.todo)[i + 1] == r.0 && Keys(s.todo)[0] == k;
      assert r in s.todo;
    }
  }

  lemma RetryConserves(s: State, t: State, k: Key, row: Failed, look: Lookup, sent: bool, stored: bool, max: int)
    requires MarksInv(s) && Conserved(s) && k in s.db.failed && s.db.failed[k] == row
    requires t.db == RetryRow(s.db, max, k, row, look, sent, stored)
    requires t.dropped == if look == Gone && stored then s.dropped + [k] else s.dropped
    requires t.resolved == s.resolved && t.pruned == s.pruned
    ensures MarksInv(t) && Conserved(t)
  {
    forall rel: Release ensures Notices(t.db.outbox, rel) == Notices(s.db.outbox, rel) {
      SettledSnoc(s.db.outbox, ReleaseSent(row.saga, k.rel, k.email), k, rel);
      SettledSnoc(s.db.outbox, ReleaseDead(row.saga, k.rel, k.email, DEAD), k, rel);
    }
    forall l: Key | l.rel !in t.pruned ensures Accounted(t, l) == if Due(t, l) then 1 else 0 {
      SettledSnoc(s.db.outbox, ReleaseSent(row.saga, k.rel, k.email), l, l.rel);
      SettledSnoc(s.db.outbox, ReleaseDead(row.saga, k.rel, k.email, DEAD), l, l.rel);
      assert Accounted(s, l) == if Due(s, l) then 1 else 0;
    }
  }

  lemma RetryAttempts(s: State, t: State, k: Key, row: Failed, look: Lookup, sent: bool, stored: bool, max: int)
    requires AttemptsInv(s, max) && k in s.db.failed && s.db.failed[k] == row
    requires t.db == RetryRow(s.db, max, k, row, look, sent, stored)
    requires t.resends == CountIf(s.resends, row.id, look == Subscribed)
    requires t.unsaved == CountIf(s.unsaved, row.id, look != LookupError && !stored)
    ensures AttemptsInv(t, max)
  {
    RetryRowShape(s.db, max, k, Fate(look, sent, stored));
    RetriedRow(s.db, max, k, look, sent, stored);
    RowTouched(s, t, k, look, stored, max);
  }

  /** The table with one row of it retried. */
  ghost predicate Touched(db: Db, d: Db, k: Key, look: Lookup, stored: bool) {
    && k in db.failed && d.failed.Keys <= db.failed.Keys && d.nextId == db.nextId
    && (forall l :: l in db.failed && l != k ==> l in d.failed && d.failed[l] == db.failed[l])
    && (k in d.failed ==> d.failed[k].id == db.failed[k].id)
    && (k in d.failed ==> d.failed[k].retry == db.failed[k].retry + if look == LookupError || !stored then 0 else 1)
    && (k in d.failed && stored && look != LookupError ==> look == Subscribed)
  }

  lemma RetriedRow(db: Db, max: int, k: Key, look: Lookup, sent: bool, stored: bool)
    requires k in db.failed
    ensures Touched(db, RetryRow(db, max, k, db.failed[k], look, sent, stored), k, look, stored)
  {
  }

  lemma RowTouched(s: State, t: State, k: Key, look: Lookup, stored: bool, max: int)
    requires AttemptsInv(s, max) && Touched(s.db, t.db, k, look, stored) && Bounded(t.db.failed, max)
    requires t.resends == CountIf(s.resends, s.db.failed[k].id, look == Subscribed)
    requires t.unsaved == CountIf(s.unsaved, s.db.failed[k].id, look != LookupError && !stored)
    ensures AttemptsInv(t, max)
  {
    assert Metered(s, s.db.failed[k].id, s.db.failed[k].retry);
    forall l | l in t.db.failed ensures Metered(t, t.db.failed[l].id, t.db.failed[l].retry) {
      RowMetered(s, t, k, look, stored, max, l);
    }
    forall i: nat ensures Count(t.resends, i) <= max + Count(t.unsaved, i) {
      assert Count(s.resends, i) <= max + Count(s.unsaved, i);
    }
    IdsTouched(s.db, t.db, k, look, stored);
  }

  lemma RowMetered(s: State, t: State, k: Key, look: Lookup, stored: bool, max: int, l: Key)
    requires UniqueIds(s.db) && ResendsInv(s, max) && Touched(s.db, t.db, k, look, stored) && l in t.db.failed
    requires t.resends == CountIf(s.resends, s.db.failed[k].id, look == Subscribed)
    requires t.unsaved == CountIf(s.unsaved, s.db.failed[k].id, look != LookupError && !stored)
    ensures Metered(t, t.db.failed[l].id, t.db.failed[l].retry)
  {
    assert Metered(s, s.db.failed[l].id, s.db.failed[l].retry);
    assert l != k ==> s.db.failed[l].id != s.db.failed[k].id;
  }

  lemma IdsTouched(db: Db, d: Db, k: Key, look: Lookup, stored: bool)
    requires UniqueIds(db) && Touched(db, d, k, look, stored)
    ensures UniqueIds(d)
  {
    assert forall l :: l in d.failed ==> d.failed[l].id == db.failed[l].id;
  }

  lemma OthersKeep(s: State, a: Action, max: int)
    requires Inv(s) && Enabled(s, a, max) && !a.Finish? && !a.Retry?
    ensures Inv(Next(s, a, max))
    ensures AttemptsInv(s, max) ==> AttemptsInv(Next(s, a, max), max)
  {
  }

  lemma {:induction false} Invariant(run: seq<Action>, max: int)
    ensures Inv(Exec(run, max))
    ensures max >= 1 ==> AttemptsInv(Exec(run, max), max)
  {
    if run == [] {
      assert multiset(INIT.dropped) == multiset{};
    } else {
      Invariant(Front(run), max);
      var s, a := Exec(Front(run), max), Last(run);
      if Enabled(s, a, max) {
        match a
        case Finish(ok, lost) =>
          FinishKeeps(s, ok, lost, max);
          if max >= 1 { FinishAttempts(s, ok, lost, max); }
        case Retry(fails, sent, stored) => RetryKeeps(s, fails, sent, stored, max);
        case _ => OthersKeep(s, a, max);
      }
    }
  }

  // ----------------------------------------------------------------- theorems

  /** Conservation of recipients. After any run, for every release whose mark was
      not pruned: it is marked exactly if one summary event was committed for it
      (never more, however often it was detected); and each recipient of its batch
      is accounted for exactly once, as sent, dead, dropped or still to be retried,
      while nobody else is. */
  lemma EveryRecipientExactlyOnce(run: seq<Action>, max: int, rel: Release, email: Email)
    requires rel !in Exec(run, max).pruned
    ensures var s := Exec(run, max);
      && (rel in s.db.processed <==> rel in s.resolved)
      && Notices(s.db.outbox, rel) == (if rel in s.db.processed then 1 else 0)
      && Settled(s.db.outbox, Key(rel, email)) + Drops(s.dropped, Key(rel, email)) + Live(s, Key(rel, email))
         == if rel in s.resolved && email in s.resolved[rel] then 1 else 0
  {
    Invariant(run, max);
    var s := Exec(run, max);
    assert Accounted(s, Key(rel, email)) == if Due(s, Key(rel, email)) then 1 else 0;
  }

  /** Bounded retries: no row is ever out of the retrier's reach, and no row is resent
      more than MaxRetries times plus once for each failed write on that very row. */
  lemma RetriesAreBounded(run: seq<Action>, max: int)
    requires max >= 1
    ensures var s := Exec(run, max);
      && (forall k :: k in s.db.failed ==> s.db.failed[k].retry < max)
      && (forall id: nat :: Count(s.resends, id) <= max + Count(s.unsaved, id))
  {
    Invariant(run, max);
  }

  // ------------------------------------------------------------ draining the table

  /** One, while a pass is under way. */
  function UnderWay(s: State): nat { if s.found.Some? then 1 else 0 }

  /** One, while the pass under way has not found the row, or has dealt with it. */
  function Passed(s: State, k: Key, id: nat): nat {
    if s.found.Some? && (id in s.found.value ==> k !in Keys(s.todo)) then 1 else 0
  }

  predicate HasRow(s: State, k: Key, id: nat) { k in s.db.failed && s.db.failed[k].id == id }

  /** What has gone wrong with a row so far. */
  function Faults(s: State, id: nat): nat { Count(s.unread, id) + Count(s.unsaved, id) }

  /** From s to t, every completed pass that began after s cost a row that is still
      there one attempt, or one failed lookup or write. */
  predicate Paid(s: State, t: State, k: Key, id: nat) {
    HasRow(t, k, id) ==>
      && HasRow(s, k, id)
      && t.passes + Passed(t, k, id) + s.db.failed[k].retry + Faults(s, id)
         <= s.passes + UnderWay(s) + t.db.failed[k].retry + Faults(t, id)
  }

  lemma RetryPays(t: State, fails: bool, sent: bool, stored: bool, max: int, k: Key, id: nat)
    requires TodoInv(t) && UniqueIds(t.db) && t.todo != [] && HasRow(Next(t, Retry(fails, sent, stored), max), k, id)
    ensures var u := Next(t, Retry(fails, sent, stored), max);
      && HasRow(t, k, id)
      && u.passes + Passed(u, k, id) + t.db.failed[k].retry + Faults(t, id)
         <= t.passes + Passed(t, k, id) + u.db.failed[k].retry + Faults(u, id)
  {
    var u := Next(t, Retry(fails, sent, stored), max);
    var (l, row) := t.todo[0];
    assert t.todo[0] in t.todo;
    RetriedRow(t.db, max, l, LookUp(t.view, l, fails), sent, stored);
    assert Keys(t.todo) == [l] + Keys(u.todo);
    if k != l {
      assert t.db.failed[k].id != row.id;
      assert k in Keys(t.todo) <==> k in Keys(u.todo);
    }
  }

  lemma FinishPays(t: State, ok: seq<bool>, lost: seq<Email>, max: int, k: Key, id: nat)
    requires id < t.db.nextId && Enabled(t, Finish(ok, lost), max) && HasRow(Next(t, Finish(ok, lost), max), k, id)
    ensures HasRow(t, k, id) && Next(t, Finish(ok, lost), max).db.failed[k] == t.db.failed[k]
  {
    RecordShape(t.db, t.attempt.value.input, t.attempt.value.emails, Elems(lost));
  }

  lemma ListPays(t: State, rows: seq<(Key, Failed)>, max: int, k: Key, id: nat)
    requires Bounded(t.db.failed, max) && Enabled(t, List(rows), max) && HasRow(t, k, id)
    ensures Passed(Next(t, List(rows), max), k, id) == 0
  {
    assert k in Elems(Keys(rows));
    var i :| 0 <= i < |rows| && Keys(rows)[i] == k;
    assert rows[i] in rows;
  }

  lemma StepPays(s: State, t: State, a: Action, max: int, k: Key, id: nat)
    requires Inv(t) && AttemptsInv(t, max) && id < t.db.nextId && Paid(s, t, k, id)
    ensures id < Next(t, a, max).db.nextId && Paid(s, Next(t, a, max), k, id)
  {
    if Enabled(t, a, max) {
      if a.Finish? { RecordShape(t.db, t.attempt.value.input, t.attempt.value.emails, Elems(a.lost)); }
      if HasRow(Next(t, a, max), k, id) {
        match a
        case Retry(fails, sent, stored) => RetryPays(t, fails, sent, stored, max, k, id);
        case Finish(ok, lost) => FinishPays(t, ok, lost, max, k, id);
        case List(rows) => ListPays(t, rows, max, k, id);
        case _ =>
      }
    }
  }

  lemma {:induction false} EveryPassCosts(run: seq<Action>, more: seq<Action>, max: int, k: Key, id: nat)
    requires max >= 1 && id < Exec(run, max).db.nextId
    ensures id < Exec(run + more, max).db.nextId && Paid(Exec(run, max), Exec(run + more, max), k, id)
  {
    if more == [] {
      assert run + more == run;
    } else {
      EveryPassCosts(run, Front(more), max, k, id);
      assert Front(run + more) == run + Front(more) && Last(run + more) == Last(more);
      Invariant(run + Front(more), max);
      StepPays(Exec(run, max), Exec(run + Front(more), max), Last(more), max, k, id);
    }
  }

  /** The table drains. Whatever is added meanwhile and whatever fails elsewhere, a
      row that had entered by some moment is gone once MaxRetries passes begun after
      that moment have completed, plus one for each failed lookup or write on that
      very row. */
  lemma PassesDrain(run: seq<Action>, more: seq<Action>, max: int, k: Key, id: nat)
    requires max >= 1 && id < Exec(run, max).db.nextId
    ensures var s, t := Exec(run, max), Exec(run + more, max);
      t.passes >= s.passes + UnderWay(s) + max + (Faults(t, id) - Faults(s, id)) ==> !HasRow(t, k, id)
  {
    EveryPassCosts(run, more, max, k, id);
    Invariant(run + more, max);
  }

  // --------------------------------------------------- what is not guaranteed, exactly

  /** Every row is within the retrier's reach exactly if MaxRetries is positive (or
      there is none): otherwise it lists nothing at all. */
  lemma EveryRowIsListedIff(run: seq<Action>, rows: seq<(Key, Failed)>, max: int)
    requires Enabled(Exec(run, max), List(rows), max)
    ensures Elems(Keys(rows)) == Exec(run, max).db.failed.Keys <==> max >= 1 || Exec(run, max).db.failed == map[]
  {
    Invariant(run, max);
    var failed := Exec(run, max).db.failed;
    if max < 1 && Elems(Keys(rows)) == failed.Keys {
      assert forall k :: k in failed ==> k in Elems(Keys(rows));
    }
  }

  lemma {:induction false} NothingListed(run: seq<Action>, max: int)
    requires max < 1
    ensures Exec(run, max).todo == []
  {
    if run != [] {
      NothingListed(Front(run), max);
      IdleStep(Exec(Front(run), max), Last(run), max);
    }
  }

  lemma SomeKey(rows: seq<(Key, Failed)>)
    ensures rows != [] ==> Elems(Keys(rows)) != {}
  {
    if rows != [] { assert Keys(rows)[0] in Elems(Keys(rows)); }
  }

  lemma IdleStep(s: State, a: Action, max: int)
    requires max < 1 && s.todo == []
    ensures Next(s, a, max).todo == []
    ensures forall k :: k in s.db.failed ==> k in Next(s, a, max).db.failed && Next(s, a, max).db.failed[k] == s.db.failed[k]
  {
    if Enabled(s, a, max) {
      match a
      case List(rows) => SomeKey(rows);
      case Finish(ok, lost) => RecordShape(s.db, s.attempt.value.input, s.attempt.value.emails, Elems(lost));
      case _ =>
    }
  }

  /** Then a failed notification stays for ever: no run brings it any further. */
  lemma {:induction false} StrandedForEver(run: seq<Action>, more: seq<Action>, max: int, k: Key)
    requires max < 1 && k in Exec(run, max).db.failed
    ensures k in Exec(run + more, max).db.failed && Exec(run + more, max).db.failed[k] == Exec(run, max).db.failed[k]
  {
    if more == [] {
      assert run + more == run;
    } else {
      StrandedForEver(run, Front(more), max, k);
      assert Front(run + more) == run + Front(more) && Last(run + more) == Last(more);
      NothingListed(run + Front(more), max);
      IdleStep(Exec(run + Front(more), max), Last(more), max);
    }
  }

  /** A batch that reached nobody is marked like any other. Over every run, a
      detection is acted on exactly if no summary of the release was committed,
      whatever that summary counted and whatever the read model says by then, until
      the mark is pruned. */
  lemma DetectedAgainIff(run: seq<Action>, input: Input, max: int)
    requires Exec(run, max).attempt.None? && input.rel !in Exec(run, max).pruned
    ensures var s := Exec(run, max);
      (exists emails :: Next(s, Detect(input, emails), max) != s) <==> Notices(s.db.outbox, input.rel) == 0
  {
    Invariant(run, max);
    var s := Exec(run, max);
    if input.rel !in s.db.processed {
      var emails := SomeOrder(Recipients(s.view, input.rel.repo));
      assert Next(s, Detect(input, emails), max).attempt == Some(Attempt(input, emails));
    }
  }

  const REL := Release("o/n", "v2")
  const NOBODY := [Views(map[Pair("a@x.org", "o/n") := "t"]), Detect(Input(1, REL, "u"), ["a@x.org"]), Finish([false], ["a@x.org"])]

  /** The run behind both: one subscriber, whose mail fails. The summary counts nobody,
      the release is marked, no later detection changes anything; and with MaxRetries
      below one the failed notification is never sent either. */
  lemma NobodyReached(max: int, id: SagaId, url: Url, emails: seq<Email>, more: seq<Action>)
    ensures var s := Exec(NOBODY, max);
      && s.db.outbox == [ReleaseFailed(1, REL, "a@x.org", FAILED), ReleaseNotified(1, REL, 0, ["a@x.org"])]
      && Next(s, Detect(Input(id, REL, url), emails), max) == s
      && Key(REL, "a@x.org") in s.db.failed
      && (max < 1 ==> Key(REL, "a@x.org") in Exec(NOBODY + more, max).db.failed)
  {
    AfterNobody(max);
    if max < 1 { StrandedForEver(NOBODY, more, max, Key(REL, "a@x.org")); }
  }

  lemma AfterNobody(max: int)
    ensures Exec(NOBODY, max).db ==
      Db(map[Key(REL, "a@x.org") := Failed(0, 1, "u", 0)], 1, {REL},
         [ReleaseFailed(1, REL, "a@x.org", FAILED), ReleaseNotified(1, REL, 0, ["a@x.org"])])
  {
    var v := map[Pair("a@x.org", "o/n") := "t"];
    var s1 := INIT.(view := v);
    var s2 := s1.(attempt := Some(Attempt(Input(1, REL, "u"), ["a@x.org"])));
    assert Front(NOBODY) == [NOBODY[0], NOBODY[1]] && Front([NOBODY[0], NOBODY[1]]) == [NOBODY[0]] && Front([NOBODY[0]]) == [];
    assert Exec([NOBODY[0]], max) == s1;
    assert Recipients(v, "o/n") == {"a@x.org"} by { assert Pair("a@x.org", "o/n") in Subscribers(v, "o/n"); }
    assert Exec([NOBODY[0], NOBODY[1]], max) == s2;
    FinishNobody(s2, max);
  }

  lemma FinishNobody(s: State, max: int)
    requires s.attempt == Some(Attempt(Input(1, REL, "u"), ["a@x.org"])) && s.db == Db(map[], 0, {}, [])
    ensures Next(s, Finish([false], ["a@x.org"]), max).db ==
      Db(map[Key(REL, "a@x.org") := Failed(0, 1, "u", 0)], 1, {REL},
         [ReleaseFailed(1, REL, "a@x.org", FAILED), ReleaseNotified(1, REL, 0, ["a@x.org"])])
  {
    OneMiss("a@x.org");
    assert Front(["a@x.org"]) == [];
  }

  lemma OneMiss(e: Email)
    ensures Mailer.Miss([e], [false]) == [e] && Mailer.CountTrue([false]) == 0
  {
    assert Front([e]) == [] && Front([false]) == [];
  }

  lemma {:induction false} SomeOrder(es: set<Email>) returns (r: seq<Email>)
    ensures Distinct(r) && Elems(r) == es
  {
    if es == {} {
      r := [];
    } else {
      var e :| e in es;
      var rest := SomeOrder(es - {e});
      r := rest + [e];
      assert forall x :: x in r <==> x in rest || x == e;
    }
  }
}

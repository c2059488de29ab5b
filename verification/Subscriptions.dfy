/** The subscription service: the `subscriptions` table with its outbox, the five
    use cases that change them, and what holds over every run of those. */
module Subscriptions {
  import opened Types
  import GitHub

  /** A row of `subscriptions`; the map key carries (email, repository). */
  datatype Row = Row(token: Token, confirmed: bool, createdAt: nat)
  type Table = map<Pair, Row>

  /** The database, the committed outbox messages in commit order, and (as
      history) the unsubscribe tokens handed to rows. */
  datatype Db = Db(subs: Table, issued: set<Token>, emitted: seq<Event>)

  const EMPTY := Db(map[], {}, [])

  /** UNIQUE (unsubscribe_token). */
  predicate UniqueTokens(t: Table) {
    forall p, q :: p in t && q in t && t[p].token == t[q].token ==> p == q
  }

  predicate HasPending(t: Table, pair: Pair) { pair in t && !t[pair].confirmed }
  predicate HasConfirmed(t: Table, pair: Pair) { pair in t && t[pair].confirmed }

  // ------------------------------------------- transactions, when they commit

  predicate TokenTaken(t: Table, token: Token) { exists p :: p in t && t[p].token == token }

  /** emitPending: insert the row if the caller saw none, enqueue the event. The
      insert fails if the pair or the token is taken, and then nothing commits. */
  function EmitPending(db: Db, id: SagaId, pair: Pair, url: Url, insert: Option<Row>): Option<Db> {
    match insert
    case None => Some(db.(emitted := db.emitted + [SubscriptionPending(id, pair, url)]))
    case Some(row) =>
      if pair in db.subs || TokenTaken(db.subs, row.token) then None
      else Some(Db(db.subs[pair := row.(confirmed := false)], db.issued + {row.token},
                   db.emitted + [SubscriptionPending(id, pair, url)]))
  }

  function Confirm(db: Db, pair: Pair): Db {
    if HasPending(db.subs, pair)
    then db.(subs := db.subs[pair := db.subs[pair].(confirmed := true)],
             emitted := db.emitted + [SubscriptionConfirmed(pair, db.subs[pair].token)])
    else db
  }

  /** Deletes whatever row carries the token, confirmed or not. */
  ghost function Unsubscribe(db: Db, token: Token): Option<Db> {
    if p: Pair :| p in db.subs && db.subs[p].token == token
    then Some(db.(subs := db.subs - {p}, emitted := db.emitted + [SubscriptionRemoved(p)]))
    else None
  }

  function ExpiredPairs(t: Table, cutoff: nat): set<Pair> {
    set p | p in t && !t[p].confirmed && t[p].createdAt < cutoff
  }

  function ExpiredEvents(order: seq<Pair>): (es: seq<Event>)
    ensures |es| == |order| && forall i :: 0 <= i < |es| ==> es[i] == SubscriptionExpired(order[i])
  {
    seq(|order|, i requires 0 <= i < |order| => SubscriptionExpired(order[i]))
  }

  /** Cleanup, with the removed rows returned in the given order. */
  function Cleanup(db: Db, cutoff: nat, order: seq<Pair>): Db {
    if Distinct(order) && Elems(order) == ExpiredPairs(db.subs, cutoff)
    then db.(subs := db.subs - Elems(order), emitted := db.emitted + ExpiredEvents(order))
    else db
  }

  function Compensate(db: Db, pair: Pair): Db {
    if HasPending(db.subs, pair) then db.(subs := db.subs - {pair}) else db
  }

  // -------------------------------------------------------------- the service

  datatype SubscribeError = InvalidRepo | RepoNotFound | AlreadyExists | StoreError

  class Service {
    var subs: Table
    var issued: set<Token>
    var outbox: seq<Event>

    ghost predicate Valid() reads this { UniqueTokens(subs) }
    ghost function Contents(): Db reads this { Db(subs, issued, outbox) }

    constructor ()
      ensures Valid() && Contents() == EMPTY
    {
      subs, issued, outbox := map[], {}, [];
    }

    /** Reads only: Ok(true) means no row, Ok(false) a pending row. */
    method ResolveExisting(pair: Pair) returns (isNew: bool, err: Option<SubscribeError>)
      ensures err == Some(AlreadyExists) ==> HasConfirmed(subs, pair)
      ensures err == None ==> !HasConfirmed(subs, pair) && (isNew <==> pair !in subs)
      ensures err in {None, Some(AlreadyExists), Some(StoreError)}
    {
      var read: bool := *;
      if !read {
        return false, Some(StoreError);
      }
      if pair in subs && subs[pair].confirmed {
        return false, Some(AlreadyExists);
      }
      return pair !in subs, None;
    }

    method EmitPendingTx(id: SagaId, pair: Pair, url: Url, insert: Option<Row>) returns (err: Option<SubscribeError>)
      requires Valid()
      modifies this
      ensures Valid()
      ensures err == None ==> EmitPending(old(Contents()), id, pair, url, insert) == Some(Contents())
      ensures err != None ==> Contents() == old(Contents())
      ensures insert.Some? && pair in old(subs) ==> err != None
    {
      var savedSubs, savedIssued := subs, issued;
      if insert.Some? {
        if pair in subs {
          return Some(AlreadyExists);
        }
        if TokenTaken(subs, insert.value.token) {
          return Some(StoreError);
        }
        subs := subs[pair := insert.value.(confirmed := false)];
        issued := issued + {insert.value.token};
      }
      var enqueued: bool, committed: bool := *, *;
      if !enqueued || !committed {
        subs, issued := savedSubs, savedIssued;
        return Some(StoreError);
      }
      outbox := outbox + [SubscriptionPending(id, pair, url)];
      err := None;
    }

    /** The whole use case with nothing interleaved. */
    method Subscribe(id: SagaId, email: Email, repo: Repo, url: Url, token: Token, now: nat)
      returns (err: Option<SubscribeError>)
      requires Valid()
      modifies this
      ensures Valid()
      ensures GitHub.ParseRepo(repo).None? ==> err == Some(InvalidRepo)
      ensures err != None ==> Contents() == old(Contents())
      ensures err == None ==>
        // no confirmed subscription before; exactly one pending row and one event after
        && !HasConfirmed(old(subs), Pair(email, repo)) && HasPending(subs, Pair(email, repo))
        && subs - {Pair(email, repo)} == old(subs) - {Pair(email, repo)}
        && subs[Pair(email, repo)] == (if Pair(email, repo) in old(subs) then old(subs)[Pair(email, repo)] else Row(token, false, now))
        && outbox == old(outbox) + [SubscriptionPending(id, Pair(email, repo), url)]
    {
      if GitHub.ParseRepo(repo).None? {
        return Some(InvalidRepo);
      }
      var known: Option<bool> := *;
      if known != Some(true) {
        return Some(if known.None? then StoreError else RepoNotFound);
      }
      var pair := Pair(email, repo);
      var isNew, e := ResolveExisting(pair);
      if e.Some? {
        return e;
      }
      err := EmitPendingTx(id, pair, url, if isNew then Some(Row(token, false, now)) else None);
    }

    method ConfirmTx(pair: Pair) returns (err: bool)
      requires Valid()
      modifies this`subs, this`outbox
      ensures Valid()
      ensures Contents() == if err then old(Contents()) else Confirm(old(Contents()), pair)
      ensures !err && HasPending(old(subs), pair) ==>
        && pair in subs && subs[pair] == Row(old(subs)[pair].token, true, old(subs)[pair].createdAt)
        && subs - {pair} == old(subs) - {pair}
        && outbox == old(outbox) + [SubscriptionConfirmed(pair, old(subs)[pair].token)]
      ensures !HasPending(old(subs), pair) ==> subs == old(subs) && outbox == old(outbox)
    {
      var saved := subs;
      var updated: bool := *;
      if !updated {
        return true;
      }
      var hit := pair in subs && !subs[pair].confirmed;
      var event := [];
      if hit {
        var token := subs[pair].token;
        subs := subs[pair := subs[pair].(confirmed := true)];
        event := [SubscriptionConfirmed(pair, token)];
      }
      var enqueued: bool, committed: bool := *, *;
      if (hit && !enqueued) || !committed {
        subs := saved;
        return true;
      }
      outbox := outbox + event;
      err := false;
      assert !hit ==> outbox == old(outbox);
    }

    method UnsubscribeTx(token: Token) returns (err: bool)
      requires Valid()
      modifies this`subs, this`outbox
      ensures Valid()
      ensures err ==> Contents() == old(Contents())
      ensures !err ==> Unsubscribe(old(Contents()), token) == Some(Contents())
      ensures !err ==> exists p ::
        p in old(subs) && old(subs)[p].token == token && subs == old(subs) - {p} && outbox == old(outbox) + [SubscriptionRemoved(p)]
      ensures (forall p :: p in old(subs) ==> old(subs)[p].token != token) ==> err
    {
      var saved := subs;
      var hits := set p | p in subs && subs[p].token == token;
      var deleted: bool := *;
      if !deleted || hits == {} {
        return true;
      }
      var p :| p in hits;
      UnsubscribeOf(Contents(), p);
      subs := subs - {p};
      var enqueued: bool, committed: bool := *, *;
      if !enqueued || !committed {
        subs := saved;
        return true;
      }
      outbox := outbox + [SubscriptionRemoved(p)];
      err := false;
    }

    /** Deletes the stale pending rows and enqueues one event per removed row. */
    method CleanupTx(cutoff: nat) returns (err: bool, order: seq<Pair>)
      requires Valid()
      modifies this`subs, this`outbox
      ensures Valid()
      ensures Contents() == if err then old(Contents()) else Cleanup(old(Contents()), cutoff, order)
      ensures !err ==> Distinct(order) && Elems(order) == ExpiredPairs(old(subs), cutoff)
      ensures !err ==> forall p :: p in order <==> p in old(subs) && !old(subs)[p].confirmed && old(subs)[p].createdAt < cutoff
      ensures !err ==> forall p :: p in subs <==> p in old(subs) && (old(subs)[p].confirmed || old(subs)[p].createdAt >= cutoff)
      ensures !err ==> forall p :: p in subs ==> subs[p] == old(subs)[p]
      ensures !err ==> |outbox| == |old(outbox)| + |order| && outbox[..|old(outbox)|] == old(outbox)
      ensures !err ==> forall i :: 0 <= i < |order| ==> outbox[|old(outbox)| + i] == SubscriptionExpired(order[i])
    {
      var savedSubs, savedOutbox := subs, outbox;
      order := [];
      var deleted: bool := *;
      if !deleted {
        return true, order;
      }
      order := Enumerate(ExpiredPairs(subs, cutoff));
      assert forall p :: p in order <==> p in Elems(order);
      subs := subs - Elems(order);
      for i := 0 to |order|
        invariant outbox == savedOutbox + ExpiredEvents(order[..i])
        invariant subs == savedSubs - Elems(order)
      {
        var enqueued: bool := *;
        if !enqueued {
          subs, outbox := savedSubs, savedOutbox;
          return true, order;
        }
        outbox := outbox + [SubscriptionExpired(order[i])];
        assert ExpiredEvents(order[..i + 1]) == ExpiredEvents(order[..i]) + [SubscriptionExpired(order[i])];
      }
      assert order[..|order|] == order;
      var committed: bool := *;
      if !committed {
        subs, outbox := savedSubs, savedOutbox;
        return true, order;
      }
      err := false;
    }

    /** The rollback action; deleting nothing is no error. */
    method CompensatePair(pair: Pair) returns (deleted: bool, err: bool)
      requires Valid()
      modifies this`subs
      ensures Valid()
      ensures Contents() == if err then old(Contents()) else Compensate(old(Contents()), pair)
      ensures !err ==> (deleted <==> HasPending(old(subs), pair))
      ensures subs == if deleted then old(subs) - {pair} else old(subs)
      ensures outbox == old(outbox)
    {
      var stored: bool := *;
      if !stored {
        return false, true;
      }
      deleted, err := pair in subs && !subs[pair].confirmed, false;
      if deleted {
        subs := subs - {pair};
      }
    }
  }

  lemma UnsubscribeOf(db: Db, p: Pair)
    requires UniqueTokens(db.subs) && p in db.subs
    ensures Unsubscribe(db, db.subs[p].token) ==
            Some(db.(subs := db.subs - {p}, emitted := db.emitted + [SubscriptionRemoved(p)]))
  {
  }

  // ------------------------------------------------------------------- runs

  /** A use case that committed; one that failed or rolled back is no step.
      `Pend.insert` is whatever an earlier, possibly stale, read led to. */
  datatype Action =
    | Pend(id: SagaId, pair: Pair, url: Url, insert: Option<Row>)
    | Click(pair: Pair)                          // confirmation link
    | Leave(token: Token)                        // unsubscribe link
    | Sweep(cutoff: nat, order: seq<Pair>)       // cleanup
    | Rollback(pair: Pair)                       // saga.compensate, however stale

  function OrElse<T>(o: Option<T>, t: T): T { if o.Some? then o.value else t }

  ghost function Next(db: Db, a: Action): Db {
    match a
    case Pend(id, pair, url, insert) => OrElse(EmitPending(db, id, pair, url, insert), db)
    case Click(pair) => Confirm(db, pair)
    case Leave(token) => OrElse(Unsubscribe(db, token), db)
    case Sweep(cutoff, order) => Cleanup(db, cutoff, order)
    case Rollback(pair) => Compensate(db, pair)
  }

  ghost function Exec(db: Db, run: seq<Action>): Db {
    if run == [] then db else Next(Exec(db, Front(run)), Last(run))
  }

  // ------------------------------------------------ event log refines the state

  /** What a last-writer-wins projection does with an event. */
  function Project(v: View, e: Event): View {
    match e
    case SubscriptionConfirmed(p, token) => v[p := token]
    case SubscriptionRemoved(p) => v - {p}
    case _ => v
  }

  function Fold(v: View, es: seq<Event>): View {
    if es == [] then v else Project(Fold(v, Front(es)), Last(es))
  }

  function ConfirmedRows(t: Table): View {
    map p | p in t && t[p].confirmed :: t[p].token
  }

  lemma FoldSnoc(v: View, es: seq<Event>, e: Event)
    ensures Fold(v, es + [e]) == Project(Fold(v, es), e)
  {
  }

  /** Events that are neither confirmations nor removals project to nothing. */
  lemma {:induction false} FoldInert(v: View, es: seq<Event>, more: seq<Event>)
    requires forall e :: e in more ==> !e.SubscriptionConfirmed? && !e.SubscriptionRemoved?
    ensures Fold(v, es + more) == Fold(v, es)
  {
    if more == [] {
      assert es + more == es;
    } else {
      assert es + more == (es + Front(more)) + [Last(more)];
      assert Last(more) in more;
      FoldSnoc(v, es + Front(more), Last(more));
      FoldInert(v, es, Front(more));
    }
  }

  lemma StepFolds(db: Db, a: Action)
    requires Fold(map[], db.emitted) == ConfirmedRows(db.subs)
    ensures Fold(map[], Next(db, a).emitted) == ConfirmedRows(Next(db, a).subs)
  {
    match a
    case Pend(id, pair, url, insert) => PendFolds(db, id, pair, url, insert);
    case Click(pair) => ClickFolds(db, pair);
    case Leave(token) => LeaveFolds(db, token);
    case Sweep(cutoff, order) =>
      FoldInert(map[], db.emitted, ExpiredEvents(order));
      assert ConfirmedRows(Cleanup(db, cutoff, order).subs) == ConfirmedRows(db.subs);
    case Rollback(pair) =>
      assert ConfirmedRows(Compensate(db, pair).subs) == ConfirmedRows(db.subs);
  }

  lemma PendFolds(db: Db, id: SagaId, pair: Pair, url: Url, insert: Option<Row>)
    ensures EmitPending(db, id, pair, url, insert).Some? ==>
      var t := EmitPending(db, id, pair, url, insert).value;
      Fold(map[], t.emitted) == Fold(map[], db.emitted) && ConfirmedRows(t.subs) == ConfirmedRows(db.subs)
  {
    FoldSnoc(map[], db.emitted, SubscriptionPending(id, pair, url));
    if insert.Some? && pair !in db.subs {
      PendingStaysOut(db.subs, pair, insert.value);
    }
  }

  lemma PendingStaysOut(t: Table, pair: Pair, row: Row)
    requires pair !in t
    ensures ConfirmedRows(t[pair := row.(confirmed := false)]) == ConfirmedRows(t)
  {
  }

  lemma ClickFolds(db: Db, pair: Pair)
    requires Fold(map[], db.emitted) == ConfirmedRows(db.subs)
    ensures Fold(map[], Confirm(db, pair).emitted) == ConfirmedRows(Confirm(db, pair).subs)
  {
    if HasPending(db.subs, pair) {
      FoldSnoc(map[], db.emitted, SubscriptionConfirmed(pair, db.subs[pair].token));
      assert ConfirmedRows(Confirm(db, pair).subs) == ConfirmedRows(db.subs)[pair := db.subs[pair].token];
    }
  }

  lemma LeaveFolds(db: Db, token: Token)
    requires Fold(map[], db.emitted) == ConfirmedRows(db.subs)
    ensures Unsubscribe(db, token).Some? ==>
      var t := Unsubscribe(db, token).value; Fold(map[], t.emitted) == ConfirmedRows(t.subs)
  {
    if Unsubscribe(db, token).Some? {
      var t := Unsubscribe(db, token).value;
      var p :| p in db.subs && t.subs == db.subs - {p} && t.emitted == db.emitted + [SubscriptionRemoved(p)];
      FoldSnoc(map[], db.emitted, SubscriptionRemoved(p));
      assert ConfirmedRows(t.subs) == ConfirmedRows(db.subs) - {p};
    }
  }

  /** The event log determines the state: over every run, folding the committed
      events gives exactly the confirmed rows with their unsubscribe tokens. */
  lemma {:induction false} EventLogRefinesState(run: seq<Action>)
    ensures var db := Exec(EMPTY, run); Fold(map[], db.emitted) == ConfirmedRows(db.subs)
  {
    if run == [] {
      assert ConfirmedRows(map[]) == map[];
    } else {
      EventLogRefinesState(Front(run));
      StepFolds(Exec(EMPTY, Front(run)), Last(run));
    }
  }

  /** A confirmed subscription survives everything (compensation commands of any
      age, cleanup, resubscription, other people's unsubscribes) until its own
      token is presented. */
  lemma {:induction false} ConfirmedIsSafe(db: Db, run: seq<Action>, pair: Pair)
    requires HasConfirmed(db.subs, pair)
    requires Leave(db.subs[pair].token) !in run
    ensures HasConfirmed(Exec(db, run).subs, pair) && Exec(db, run).subs[pair] == db.subs[pair]
  {
    if run != [] {
      ConfirmedIsSafe(db, Front(run), pair);
      var d, a := Exec(db, Front(run)), Last(run);
      assert a in run;
      if a.Leave? && Unsubscribe(d, a.token).Some? {
        var p :| p in d.subs && d.subs[p].token == a.token && Next(d, a).subs == d.subs - {p};
        assert p != pair;
      }
    }
  }

  /** The unique key on the token is never violated. */
  lemma {:induction false} TokensStayUnique(run: seq<Action>)
    ensures UniqueTokens(Exec(EMPTY, run).subs)
  {
    if run != [] {
      TokensStayUnique(Front(run));
      StepKeepsTokens(Exec(EMPTY, Front(run)), Last(run));
    }
  }

  lemma StepKeepsTokens(db: Db, a: Action)
    requires UniqueTokens(db.subs)
    ensures UniqueTokens(Next(db, a).subs)
  {
  }

  // -------------------------------------------------------- how a pending row ends

  /** The order enumerates the stale pending rows: those created before the cutoff. */
  ghost predicate Sweeps(t: Table, cutoff: nat, order: seq<Pair>) {
    Distinct(order) && forall p :: p in order <==> p in t && !t[p].confirmed && t[p].createdAt < cutoff
  }

  /** The steps that end a pending row: its confirmation, its own token, a rollback of
      its pair, and a cleanup whose cutoff is later than its creation. */
  ghost predicate EndsPending(db: Db, a: Action, pair: Pair) {
    match a
    case Pend(_, _, _, _) => false
    case Click(p) => p == pair
    case Leave(token) => pair in db.subs && db.subs[pair].token == token
    case Sweep(cutoff, order) => pair in db.subs && Sweeps(db.subs, cutoff, order) && db.subs[pair].createdAt < cutoff
    case Rollback(p) => p == pair
  }

  lemma SweepsIff(t: Table, cutoff: nat, order: seq<Pair>)
    ensures Sweeps(t, cutoff, order) <==> Distinct(order) && Elems(order) == ExpiredPairs(t, cutoff)
  {
    assert forall p :: p in order <==> p in Elems(order);
    if Sweeps(t, cutoff, order) {
      assert forall p :: p in Elems(order) <==> p in ExpiredPairs(t, cutoff);
    } else if Elems(order) == ExpiredPairs(t, cutoff) {
      assert forall p :: p in Elems(order) <==> p in ExpiredPairs(t, cutoff);
    }
  }

  /** Over every step, a pending row stays as it is exactly if the step is none of those. */
  lemma PendingKeptIff(db: Db, a: Action, pair: Pair)
    requires UniqueTokens(db.subs) && HasPending(db.subs, pair)
    ensures HasPending(Next(db, a).subs, pair) <==> !EndsPending(db, a, pair)
    ensures !EndsPending(db, a, pair) ==> Next(db, a).subs[pair] == db.subs[pair]
  {
    match a
    case Leave(token) =>
      if p :| p in db.subs && db.subs[p].token == token { UnsubscribeOf(db, p); }
    case Sweep(cutoff, order) => SweepsIff(db.subs, cutoff, order);
    case _ =>
  }

  /** Age decides. Over every run in which nobody confirms, rolls back or unsubscribes
      the row and every cleanup has a cutoff no later than its creation, a pending row
      stays as it is; and a cleanup after that ends it exactly if its cutoff is later. */
  lemma {:induction false} AgeDecides(db: Db, run: seq<Action>, pair: Pair, cutoff: nat, order: seq<Pair>)
    requires UniqueTokens(db.subs) && HasPending(db.subs, pair)
    requires forall a :: a in run ==>
      a != Click(pair) && a != Rollback(pair) && a != Leave(db.subs[pair].token) && (a.Sweep? ==> a.cutoff <= db.subs[pair].createdAt)
    ensures var d := Exec(db, run);
      && UniqueTokens(d.subs) && HasPending(d.subs, pair) && d.subs[pair] == db.subs[pair]
      && (Sweeps(d.subs, cutoff, order) ==>
            (HasPending(Next(d, Sweep(cutoff, order)).subs, pair) <==> cutoff <= db.subs[pair].createdAt))
  {
    if run != [] {
      assert forall a :: a in Front(run) ==> a in run;
      AgeDecides(db, Front(run), pair, cutoff, order);
      var d, a := Exec(db, Front(run)), Last(run);
      assert a in run;
      StepKeepsTokens(d, a);
      PendingKeptIff(d, a, pair);
    }
    PendingKeptIff(Exec(db, run), Sweep(cutoff, order), pair);
  }

  /** A pending row comes into being only by inserting it together with its
      pending event: from any state without one, and in particular right after a
      compensation was handled, there is none until such an event is committed. */
  lemma {:induction false} RolledBackUntilPending(db: Db, run: seq<Action>, pair: Pair)
    requires !HasPending(db.subs, pair)
    requires forall a :: a in run && a.Pend? && a.insert.Some? ==> a.pair != pair
    ensures !HasPending(Exec(db, run).subs, pair)
  {
    if run != [] {
      RolledBackUntilPending(db, Front(run), pair);
      assert Last(run) in run;
    }
  }

  lemma CompensateRollsBack(db: Db, pair: Pair)
    ensures !HasPending(Compensate(db, pair).subs, pair)
    ensures HasConfirmed(db.subs, pair) ==> Compensate(db, pair) == db
    ensures Compensate(Compensate(db, pair), pair) == Compensate(db, pair)
    ensures Compensate(db, pair).subs - {pair} == db.subs - {pair}
  {
  }
}

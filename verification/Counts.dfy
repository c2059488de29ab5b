/** The scanner's subscriber counts against the confirmed subscriptions. */
module Counts {
  import opened Types
  import Sub = Subscriptions
  import WatchList
  import opened Views

  function Tally(es: seq<Event>): WatchList.Table {
    if es == [] then map[] else WatchList.Project(Tally(Front(es)), Last(es))
  }

  /** Counts and rows agree: absent exactly at zero, otherwise the exact number. */
  ghost predicate Agree(v: View, t: WatchList.Table, repo: Repo) {
    if Subscribers(v, repo) == {} then repo !in t
    else repo in t && t[repo].count == |Subscribers(v, repo)|
  }

  ghost predicate AllAgree(es: seq<Event>) {
    forall repo :: Agree(Sub.Fold(map[], es), Tally(es), repo)
  }

  /** An event the two replicas take differently: a confirmation of somebody who is
      subscribed, or a removal of somebody who is not from a repository that has
      subscribers. The read model ignores it, the counter does not. */
  predicate Upsets(v: View, e: Event) {
    || (e.SubscriptionConfirmed? && e.pair in v)
    || (e.SubscriptionRemoved? && e.pair !in v && Subscribers(v, e.pair.repo) != {})
  }

  /** Handled by both replicas, an event keeps them in agreement exactly if it is none
      of those. */
  lemma ProjectAgreesIff(v: View, t: WatchList.Table, e: Event)
    requires forall r :: Agree(v, t, r)
    ensures (forall r :: Agree(Sub.Project(v, e), WatchList.Project(t, e), r)) <==> !Upsets(v, e)
  {
    if Upsets(v, e) {
      Upset(v, t, e);
    } else {
      forall r ensures Agree(Sub.Project(v, e), WatchList.Project(t, e), r) {
        ProjectAgrees(v, t, e, r);
      }
    }
  }

  lemma Upset(v: View, t: WatchList.Table, e: Event)
    requires (forall r :: Agree(v, t, r)) && Upsets(v, e)
    ensures !Agree(Sub.Project(v, e), WatchList.Project(t, e), e.pair.repo)
  {
    var r := e.pair.repo;
    assert Agree(v, t, r);
    if e.SubscriptionConfirmed? {
      assert e.pair in Subscribers(v, r);
      assert Subscribers(Sub.Project(v, e), r) == Subscribers(v, r);
    } else {
      assert Sub.Project(v, e) == v;
    }
  }

  lemma ProjectAgrees(v: View, t: WatchList.Table, e: Event, repo: Repo)
    requires (forall r :: Agree(v, t, r)) && !Upsets(v, e)
    ensures Agree(Sub.Project(v, e), WatchList.Project(t, e), repo)
  {
    assert Agree(v, t, repo);
    if e.SubscriptionConfirmed? {
      Joining(v, e.pair, e.token, repo);
    } else if e.SubscriptionRemoved? && e.pair in v {
      Leaving(v, e.pair, repo);
    } else if e.SubscriptionRemoved? {
      assert Sub.Project(v, e) == v;
      assert Agree(v, t, e.pair.repo);
      assert WatchList.Project(t, e) == t;
    }
  }

  lemma Joining(v: View, p: Pair, token: Token, repo: Repo)
    requires p !in v
    ensures Subscribers(v[p := token], repo) != {} || p.repo != repo
    ensures |Subscribers(v[p := token], repo)| == |Subscribers(v, repo)| + if p.repo == repo then 1 else 0
    ensures p.repo != repo ==> Subscribers(v[p := token], repo) == Subscribers(v, repo)
  {
    var w := v[p := token];
    assert Subscribers(w, repo) == Subscribers(v, repo) + if p.repo == repo then {p} else {};
    if p.repo == repo { assert p in Subscribers(w, repo); }
  }

  lemma Leaving(v: View, p: Pair, repo: Repo)
    requires p in v
    ensures |Subscribers(v - {p}, repo)| == |Subscribers(v, repo)| - if p.repo == repo then 1 else 0
    ensures p.repo != repo ==> Subscribers(v - {p}, repo) == Subscribers(v, repo)
  {
    assert Subscribers(v - {p}, repo) == Subscribers(v, repo) - if p.repo == repo then {p} else {};
    if p.repo == repo { assert p in Subscribers(v, repo); }
  }

  /** No event of the log, handled where it stands, upsets the counts. */
  ghost predicate Smooth(es: seq<Event>) {
    forall k :: 0 <= k < |es| ==> !Upsets(Sub.Fold(map[], es[..k]), es[k])
  }

  lemma TallyStep(es: seq<Event>, k: nat)
    requires k < |es| && AllAgree(es[..k])
    ensures AllAgree(es[..k + 1]) <==> !Upsets(Sub.Fold(map[], es[..k]), es[k])
  {
    var v, t := Sub.Fold(map[], es[..k]), Tally(es[..k]);
    assert Front(es[..k + 1]) == es[..k] && Last(es[..k + 1]) == es[k];
    assert Sub.Fold(map[], es[..k + 1]) == Sub.Project(v, es[k]) && Tally(es[..k + 1]) == WatchList.Project(t, es[k]);
    ProjectAgreesIff(v, t, es[k]);
  }

  lemma {:induction false} SmoothAgrees(es: seq<Event>, n: nat)
    requires n <= |es| && forall k :: 0 <= k < n ==> !Upsets(Sub.Fold(map[], es[..k]), es[k])
    ensures AllAgree(es[..n])
  {
    if n == 0 {
      assert forall repo :: Subscribers(map[], repo) == {};
    } else {
      SmoothAgrees(es, n - 1);
      TallyStep(es, n - 1);
    }
  }

  /** For every log whatever, repetitions and reorderings included, the counts agree
      with the read model after every prefix exactly if no event upsets them. */
  lemma TallyAgreesIff(es: seq<Event>)
    ensures (forall k :: 0 <= k <= |es| ==> AllAgree(es[..k])) <==> Smooth(es)
  {
    if forall k :: 0 <= k <= |es| ==> AllAgree(es[..k]) {
      forall k | 0 <= k < |es| ensures !Upsets(Sub.Fold(map[], es[..k]), es[k]) {
        assert AllAgree(es[..k]) && AllAgree(es[..k + 1]);
        TallyStep(es, k);
      }
    } else if Smooth(es) {
      forall k | 0 <= k <= |es| ensures AllAgree(es[..k]) { SmoothAgrees(es, k); }
    }
  }

  /** So a redelivered event keeps the counts right exactly if it concerns no
      subscription, or is a removal that left the repository without subscribers. */
  lemma RedeliveryKeepsCountIff(es: seq<Event>)
    requires es != [] && AllAgree(es)
    ensures AllAgree(es + [Last(es)]) <==>
      match Last(es)
      case SubscriptionConfirmed(_, _) => false
      case SubscriptionRemoved(p) => Subscribers(Sub.Fold(map[], es), p.repo) == {}
      case _ => true
  {
    var e, all := Last(es), es + [Last(es)];
    assert Front(all) == es && Last(all) == e;
    var v := Sub.Fold(map[], es);
    assert v == Sub.Project(Sub.Fold(map[], Front(es)), e);
    assert Sub.Fold(map[], all) == Sub.Project(v, e) && Tally(all) == WatchList.Project(Tally(es), e);
    ProjectAgreesIff(v, Tally(es), e);
  }

  /** People present only unsubscribe tokens they were sent (the ones disclosed in a
      committed confirmation), and tokens are minted fresh. */
  ghost predicate Disclosed(db: Sub.Db, token: Token) {
    exists e :: e in db.emitted && e.SubscriptionConfirmed? && e.token == token
  }

  ghost predicate Disciplined(run: seq<Sub.Action>) {
    run == [] ||
      (var db, a := Sub.Exec(Sub.EMPTY, Front(run)), Last(run);
       && Disciplined(Front(run))
       && (a.Leave? ==> Disclosed(db, a.token))
       && (a.Pend? && a.insert.Some? ==> a.insert.value.token !in db.issued))
  }

  ghost predicate TokensInv(db: Sub.Db) {
    && Sub.UniqueTokens(db.subs)
    && (forall p :: p in db.subs ==> db.subs[p].token in db.issued)
    && (forall e :: e in db.emitted && e.SubscriptionConfirmed? ==> e.token in db.issued)
    && (forall p :: p in db.subs && !db.subs[p].confirmed ==> !Disclosed(db, db.subs[p].token))
  }

  lemma TokensKept(db: Sub.Db, a: Sub.Action)
    requires TokensInv(db)
    requires a.Pend? && a.insert.Some? ==> a.insert.value.token !in db.issued
    ensures TokensInv(Sub.Next(db, a))
  {
  }

  lemma SmoothSnoc(es: seq<Event>, e: Event)
    requires Smooth(es) && !Upsets(Sub.Fold(map[], es), e)
    ensures Smooth(es + [e])
  {
    var all := es + [e];
    forall k | 0 <= k < |all| ensures !Upsets(Sub.Fold(map[], all[..k]), all[k]) {
      assert all[..k] == es[..k];
      if k == |es| { assert es[..k] == es; }
    }
  }

  lemma {:induction false} SmoothInert(es: seq<Event>, more: seq<Event>)
    requires Smooth(es) && forall e :: e in more ==> !e.SubscriptionConfirmed? && !e.SubscriptionRemoved?
    ensures Smooth(es + more)
  {
    if more == [] {
      assert es + more == es;
    } else {
      SmoothInert(es, Front(more));
      assert es + more == (es + Front(more)) + [Last(more)];
      assert Last(more) in more;
      SmoothSnoc(es + Front(more), Last(more));
    }
  }

  lemma StepSmooth(db: Sub.Db, a: Sub.Action)
    requires TokensInv(db) && Smooth(db.emitted)
    requires Sub.Fold(map[], db.emitted) == Sub.ConfirmedRows(db.subs)
    requires a.Leave? ==> Disclosed(db, a.token)
    ensures Smooth(Sub.Next(db, a).emitted)
  {
    var t := Sub.Next(db, a);
    if a.Sweep? && t != db {
      SmoothInert(db.emitted, Sub.ExpiredEvents(a.order));
    } else if t.emitted != db.emitted {
      assert t.emitted == db.emitted + [Last(t.emitted)];
      SmoothSnoc(db.emitted, Last(t.emitted));
    }
  }

  lemma {:induction false} RunSmooth(run: seq<Sub.Action>)
    requires Disciplined(run)
    ensures TokensInv(Sub.Exec(Sub.EMPTY, run)) && Smooth(Sub.Exec(Sub.EMPTY, run).emitted)
  {
    if run != [] {
      RunSmooth(Front(run));
      Sub.EventLogRefinesState(Front(run));
      TokensKept(Sub.Exec(Sub.EMPTY, Front(run)), Last(run));
      StepSmooth(Sub.Exec(Sub.EMPTY, Front(run)), Last(run));
    }
  }

  /** Three stores, one number: over every disciplined run, after each prefix of the
      event log processed exactly once and in order by both replicas, the scanner's
      count of a repository is the number of its read-model rows (absent exactly at
      zero, never below one); and after the whole log both are the number of
      confirmed subscriptions. */
  lemma CountsAgree(run: seq<Sub.Action>, k: nat, repo: Repo)
    requires Disciplined(run) && k <= |Sub.Exec(Sub.EMPTY, run).emitted|
    ensures var db := Sub.Exec(Sub.EMPTY, run);
      && Agree(Sub.Fold(map[], db.emitted[..k]), Tally(db.emitted[..k]), repo)
      && Agree(Sub.ConfirmedRows(db.subs), Tally(db.emitted), repo)
  {
    var es := Sub.Exec(Sub.EMPTY, run).emitted;
    RunSmooth(run);
    Sub.EventLogRefinesState(run);
    SmoothAgrees(es, k);
    SmoothAgrees(es, |es|);
    assert es[..|es|] == es;
  }

  /** Confirmations of somebody who is already subscribed are never committed. */
  ghost predicate ConfirmationsNew(es: seq<Event>) {
    forall k :: 0 <= k < |es| && es[k].SubscriptionConfirmed? ==> es[k].pair !in Sub.Fold(map[], es[..k])
  }

  lemma ConfirmationsExtend(es: seq<Event>, more: seq<Event>)
    requires ConfirmationsNew(es)
    requires forall e :: e in more ==> !e.SubscriptionConfirmed? || (|more| == 1 && e.pair !in Sub.Fold(map[], es))
    ensures ConfirmationsNew(es + more)
  {
    var all := es + more;
    forall k | 0 <= k < |all| && all[k].SubscriptionConfirmed? ensures all[k].pair !in Sub.Fold(map[], all[..k]) {
      if k < |es| {
        assert all[..k] == es[..k];
      } else {
        assert all[k] in more;
        assert all[..k] == es;
      }
    }
  }

  lemma {:induction false} RunConfirmsNew(run: seq<Sub.Action>)
    ensures ConfirmationsNew(Sub.Exec(Sub.EMPTY, run).emitted)
  {
    if run != [] {
      RunConfirmsNew(Front(run));
      Sub.EventLogRefinesState(Front(run));
      var db, a := Sub.Exec(Sub.EMPTY, Front(run)), Last(run);
      EmittedGrows(db, a);
      var all := Sub.Next(db, a).emitted;
      var more := all[|db.emitted|..];
      assert all == db.emitted + more;
      EmittedBy(db, a, more);
      ConfirmationsExtend(db.emitted, more);
    }
  }

  lemma EmittedBy(db: Sub.Db, a: Sub.Action, more: seq<Event>)
    requires Sub.Next(db, a).emitted == db.emitted + more
    ensures forall e :: e in more && e.SubscriptionConfirmed? ==> |more| == 1 && e.pair in db.subs && !db.subs[e.pair].confirmed
  {
    var t := Sub.Next(db, a);
    assert more == t.emitted[|db.emitted|..];
    if a.Sweep? && t != db {
      assert t.emitted == db.emitted + Sub.ExpiredEvents(a.order);
    } else if t.emitted != db.emitted {
      assert t.emitted == db.emitted + [Last(t.emitted)];
    }
  }

  /** Without any discipline, over every run: the counts agree after every prefix of
      the log exactly if each removal of a pair that is not subscribed (its row was
      never confirmed, but its token was presented) meets a repository without
      subscribers. */
  lemma CountsAgreeIff(run: seq<Sub.Action>)
    ensures var es := Sub.Exec(Sub.EMPTY, run).emitted;
      (forall k :: 0 <= k <= |es| ==> AllAgree(es[..k])) <==>
      (forall k :: 0 <= k < |es| && es[k].SubscriptionRemoved? && es[k].pair !in Sub.Fold(map[], es[..k]) ==>
         Subscribers(Sub.Fold(map[], es[..k]), es[k].pair.repo) == {})
  {
    var es := Sub.Exec(Sub.EMPTY, run).emitted;
    TallyAgreesIff(es);
    RunConfirmsNew(run);
    assert Smooth(es) <==>
      forall k :: 0 <= k < |es| && es[k].SubscriptionRemoved? && es[k].pair !in Sub.Fold(map[], es[..k]) ==>
        Subscribers(Sub.Fold(map[], es[..k]), es[k].pair.repo) == {};
  }

  // --------------------------------------------- any order, any number of deliveries

  /** Events of a repository: confirmations, removals; removals handled while the
      repository has no row; removals of a pair that is not subscribed; confirmations of
      one that is. */
  function Joins(es: seq<Event>, repo: Repo): nat {
    if es == [] then 0
    else Joins(Front(es), repo) + if Last(es).SubscriptionConfirmed? && Last(es).pair.repo == repo then 1 else 0
  }

  function Parts(es: seq<Event>, repo: Repo): nat {
    if es == [] then 0
    else Parts(Front(es), repo) + if Last(es).SubscriptionRemoved? && Last(es).pair.repo == repo then 1 else 0
  }

  function Floors(es: seq<Event>, repo: Repo): nat {
    if es == [] then 0
    else Floors(Front(es), repo) +
         if Last(es).SubscriptionRemoved? && Last(es).pair.repo == repo && repo !in Tally(Front(es)) then 1 else 0
  }

  function IdleParts(es: seq<Event>, repo: Repo): nat {
    if es == [] then 0
    else IdleParts(Front(es), repo) +
         if Last(es).SubscriptionRemoved? && Last(es).pair.repo == repo && Last(es).pair !in Sub.Fold(map[], Front(es)) then 1 else 0
  }

  function IdleJoins(es: seq<Event>, repo: Repo): nat {
    if es == [] then 0
    else IdleJoins(Front(es), repo) +
         if Last(es).SubscriptionConfirmed? && Last(es).pair.repo == repo && Last(es).pair in Sub.Fold(map[], Front(es)) then 1 else 0
  }

  /** The count, for every sequence of handled events whatever. */
  lemma {:induction false} TallyCounts(es: seq<Event>, repo: Repo)
    ensures WatchList.CountOf(Tally(es), repo) + Parts(es, repo) == Joins(es, repo) + Floors(es, repo)
    ensures repo in Tally(es) ==> Tally(es)[repo].count > 0
  {
    if es != [] { TallyCounts(Front(es), repo); }
  }

  /** The number of subscribers, for every log whatever. */
  lemma {:induction false} FoldCounts(es: seq<Event>, repo: Repo)
    ensures |Subscribers(Sub.Fold(map[], es), repo)| + Parts(es, repo) + IdleJoins(es, repo) == Joins(es, repo) + IdleParts(es, repo)
  {
    if es == [] {
      assert Subscribers(map[], repo) == {};
    } else {
      FoldCounts(Front(es), repo);
      FoldCountsStep(Sub.Fold(map[], Front(es)), Last(es), repo);
    }
  }

  lemma FoldCountsStep(v: View, e: Event, repo: Repo)
    ensures |Subscribers(Sub.Project(v, e), repo)| == |Subscribers(v, repo)|
      + (if e.SubscriptionConfirmed? && e.pair.repo == repo && e.pair !in v then 1 else 0)
      - (if e.SubscriptionRemoved? && e.pair.repo == repo && e.pair in v then 1 else 0)
  {
    match e
    case SubscriptionConfirmed(p, token) =>
      if p in v {
        assert Subscribers(Sub.Project(v, e), repo) == Subscribers(v, repo);
      } else {
        Joining(v, p, token, repo);
      }
    case SubscriptionRemoved(p) =>
      if p in v { Leaving(v, p, repo); } else { assert Sub.Project(v, e) == v; }
    case _ =>
  }

  /** A committed log confirms nobody twice over. */
  lemma {:induction false} NoIdleJoins(es: seq<Event>, repo: Repo)
    requires ConfirmationsNew(es)
    ensures IdleJoins(es, repo) == 0
  {
    if es != [] {
      var f := Front(es);
      assert forall k :: 0 <= k < |f| ==> f[..k] == es[..k] && f[k] == es[k];
      NoIdleJoins(f, repo);
      assert es[..|es| - 1] == f;
    }
  }

  lemma {:induction false} OnlyCounts(es: seq<Event>, repo: Repo)
    ensures Joins(Only(es, true), repo) == Joins(es, repo) && Parts(Only(es, false), repo) == Parts(es, repo)
  {
    if es != [] {
      OnlyCounts(Front(es), repo);
      var e := Last(es);
      OnlyCountsSnoc(Only(Front(es), true), e, repo);
      OnlyCountsSnoc(Only(Front(es), false), e, repo);
      assert e.SubscriptionConfirmed? ==> Only(es, true) == Only(Front(es), true) + [e];
      assert !e.SubscriptionConfirmed? ==> Only(es, true) == Only(Front(es), true);
      assert e.SubscriptionRemoved? ==> Only(es, false) == Only(Front(es), false) + [e];
      assert !e.SubscriptionRemoved? ==> Only(es, false) == Only(Front(es), false);
    }
  }

  lemma OnlyCountsSnoc(es: seq<Event>, e: Event, repo: Repo)
    ensures Joins(es + [e], repo) == Joins(es, repo) + if e.SubscriptionConfirmed? && e.pair.repo == repo then 1 else 0
    ensures Parts(es + [e], repo) == Parts(es, repo) + if e.SubscriptionRemoved? && e.pair.repo == repo then 1 else 0
  {
    assert Front(es + [e]) == es;
  }

  /** The scanner's counts against the subscriptions, for every run of the subscription
      service and whatever the scanner has handled, in whatever order and however
      often. A count is right exactly if the confirmations handled beyond the committed
      ones and the removals swallowed by a missing row make up for the removals handled
      beyond the committed ones and the removals of never-confirmed rows. With each
      durable in order and without redelivery: exactly if as many removals were
      swallowed as there are removals of never-confirmed rows. */
  lemma CountsRightIff(run: seq<Sub.Action>, handled: seq<Event>, repo: Repo)
    ensures var db := Sub.Exec(Sub.EMPTY, run); var log := db.emitted;
      var right := Agree(Sub.ConfirmedRows(db.subs), Tally(handled), repo);
      && (right <==> Joins(handled, repo) + Floors(handled, repo) + Parts(log, repo)
                     == Joins(log, repo) + IdleParts(log, repo) + Parts(handled, repo))
      && (ConsumedOnce(handled, log) ==> (right <==> Floors(handled, repo) == IdleParts(log, repo)))
  {
    var db := Sub.Exec(Sub.EMPTY, run);
    var log := db.emitted;
    Sub.EventLogRefinesState(run);
    RunConfirmsNew(run);
    NoIdleJoins(log, repo);
    FoldCounts(log, repo);
    TallyCounts(handled, repo);
    OnlyCounts(handled, repo);
    OnlyCounts(log, repo);
  }

  lemma {:induction false} PrefixFloors(es: seq<Event>, repo: Repo)
    ensures Floors(es, repo) == 0 <==> forall k :: 0 <= k <= |es| ==> Parts(es[..k], repo) <= Joins(es[..k], repo)
  {
    if es != [] {
      var f := Front(es);
      PrefixFloors(f, repo);
      TallyCounts(f, repo);
      assert forall k :: 0 <= k <= |f| ==> es[..k] == f[..k];
      assert es[..|es|] == es && f[..|f|] == f;
      if Floors(es, repo) == 0 {
        forall k | 0 <= k <= |es| ensures Parts(es[..k], repo) <= Joins(es[..k], repo) {
          TallyCounts(es, repo);
          if k < |es| { assert es[..k] == f[..k]; }
        }
      } else if Floors(f, repo) == 0 {
        assert Parts(es[..|es|], repo) > Joins(es[..|es|], repo);
      } else {
        var k :| 0 <= k <= |f| && Parts(f[..k], repo) > Joins(f[..k], repo);
        assert es[..k] == f[..k];
      }
    }
  }

  lemma {:induction false} DisclosedRemovals(run: seq<Sub.Action>, repo: Repo)
    requires Disciplined(run)
    ensures IdleParts(Sub.Exec(Sub.EMPTY, run).emitted, repo) == 0
  {
    if run != [] {
      DisclosedRemovals(Front(run), repo);
      RunSmooth(Front(run));
      Sub.EventLogRefinesState(Front(run));
      StepDiscloses(Sub.Exec(Sub.EMPTY, Front(run)), Last(run), repo);
    }
  }

  lemma StepDiscloses(db: Sub.Db, a: Sub.Action, repo: Repo)
    requires TokensInv(db) && Sub.Fold(map[], db.emitted) == Sub.ConfirmedRows(db.subs)
    requires a.Leave? ==> Disclosed(db, a.token)
    ensures IdleParts(Sub.Next(db, a).emitted, repo) == IdleParts(db.emitted, repo)
  {
    var t := Sub.Next(db, a);
    if a.Leave? {
      LeaveDiscloses(db, a.token, repo);
    } else if a.Sweep? && t != db {
      InertIdles(db.emitted, Sub.ExpiredEvents(a.order), repo);
    } else if t.emitted != db.emitted {
      assert t.emitted == db.emitted + [Last(t.emitted)];
      InertIdles(db.emitted, [Last(t.emitted)], repo);
    }
  }

  /** A disclosed token belongs to a confirmed row. */
  lemma LeaveDiscloses(db: Sub.Db, token: Token, repo: Repo)
    requires TokensInv(db) && Sub.Fold(map[], db.emitted) == Sub.ConfirmedRows(db.subs) && Disclosed(db, token)
    ensures IdleParts(Sub.Next(db, Sub.Leave(token)).emitted, repo) == IdleParts(db.emitted, repo)
  {
    if p :| p in db.subs && db.subs[p].token == token {
      Sub.UnsubscribeOf(db, p);
      assert p in Sub.ConfirmedRows(db.subs);
      assert Front(db.emitted + [SubscriptionRemoved(p)]) == db.emitted;
    }
  }

  lemma {:induction false} InertIdles(es: seq<Event>, more: seq<Event>, repo: Repo)
    requires forall e :: e in more ==> !e.SubscriptionRemoved?
    ensures IdleParts(es + more, repo) == IdleParts(es, repo)
  {
    if more == [] {
      assert es + more == es;
    } else {
      InertIdles(es, Front(more), repo);
      assert Front(es + more) == es + Front(more) && Last(es + more) == Last(more);
      assert Last(more) in more;
    }
  }

  /** So with disclosed tokens only, two durables and no redelivery, a count ends right
      exactly if at no time more removals than confirmations of the repository had been
      handled. */
  lemma NeverAheadIff(run: seq<Sub.Action>, handled: seq<Event>, repo: Repo)
    requires Disciplined(run) && ConsumedOnce(handled, Sub.Exec(Sub.EMPTY, run).emitted)
    ensures Agree(Sub.ConfirmedRows(Sub.Exec(Sub.EMPTY, run).subs), Tally(handled), repo) <==>
      forall k :: 0 <= k <= |handled| ==> Parts(handled[..k], repo) <= Joins(handled[..k], repo)
  {
    CountsRightIff(run, handled, repo);
    DisclosedRemovals(run, repo);
    PrefixFloors(handled, repo);
  }

  /** It need not: a removal that overtakes its confirmation leaves a repository
      watched for nobody, although neither order upsets the counts by itself. */
  lemma OvertakenCount(p: Pair, token: Token)
    ensures var log := [SubscriptionConfirmed(p, token), SubscriptionRemoved(p)];
      var handled := [SubscriptionRemoved(p), SubscriptionConfirmed(p, token)];
      && ConsumedOnce(handled, log) && Sub.Fold(map[], log) == map[] && Tally(log) == map[]
      && Tally(handled) == map[p.repo := WatchList.Row(None, 1)]
  {
    var c, r := SubscriptionConfirmed(p, token), SubscriptionRemoved(p);
    RemovalMayOvertake(p, token);
    TallyTwo(c, r);
    TallyTwo(r, c);
    var none: WatchList.Table := map[];
    assert none - {p.repo} == none;
    assert WatchList.Decrement(none, p.repo) == none;
    var one: WatchList.Table := map[p.repo := WatchList.Row(None, 1)];
    assert WatchList.Increment(none, p.repo) == one;
    assert one - {p.repo} == none;
  }

  lemma TallySnoc(es: seq<Event>, e: Event)
    ensures Tally(es + [e]) == WatchList.Project(Tally(es), e)
  {
    assert Front(es + [e]) == es;
  }

  lemma TallyTwo(x: Event, y: Event)
    ensures Tally([x, y]) == WatchList.Project(WatchList.Project(map[], x), y)
  {
    TallySnoc([], x);
    assert [] + [x] == [x];
    TallySnoc([x], y);
    assert [x] + [y] == [x, y];
  }

  const STAYS := Pair("a@x.org", "o/n")
  const LEAVES := Pair("b@x.org", "o/n")

  /** Such a run: somebody unsubscribes before confirming, and the repository is no
      longer watched although it has a confirmed subscriber. */
  const EARLY_LEAVE := [
    Sub.Pend(1, STAYS, "u1", Some(Sub.Row("t1", false, 0))), Sub.Click(STAYS),
    Sub.Pend(2, LEAVES, "u2", Some(Sub.Row("t2", false, 0))), Sub.Leave("t2")]

  lemma EarlyLeaveUpsetsCount()
    ensures var db := Sub.Exec(Sub.EMPTY, EARLY_LEAVE);
      Sub.HasConfirmed(db.subs, STAYS) && "o/n" !in Tally(db.emitted)
  {
    var e1, e2, e3, e4 := SubscriptionPending(1, STAYS, "u1"), SubscriptionConfirmed(STAYS, "t1"),
                          SubscriptionPending(2, LEAVES, "u2"), SubscriptionRemoved(LEAVES);
    BeforeEarlyLeave();
    var d := Sub.Exec(Sub.EMPTY, EARLY_LEAVE[..3]);
    Sub.UnsubscribeOf(d, LEAVES);
    assert Front(EARLY_LEAVE) == EARLY_LEAVE[..3];
    assert Sub.Exec(Sub.EMPTY, EARLY_LEAVE) == Sub.Next(d, Sub.Leave("t2"));
    assert d.emitted + [e4] == [e1, e2, e3, e4];
    EarlyLeaveTally(e1, e2, e3, e4);
  }

  lemma BeforeEarlyLeave()
    ensures Sub.Exec(Sub.EMPTY, EARLY_LEAVE[..3]) ==
      Sub.Db(map[STAYS := Sub.Row("t1", true, 0), LEAVES := Sub.Row("t2", false, 0)], {"t1", "t2"},
             [SubscriptionPending(1, STAYS, "u1"), SubscriptionConfirmed(STAYS, "t1"), SubscriptionPending(2, LEAVES, "u2")])
  {
    var e1, e2 := SubscriptionPending(1, STAYS, "u1"), SubscriptionConfirmed(STAYS, "t1");
    assert Front(EARLY_LEAVE[..3]) == EARLY_LEAVE[..2] && Front(EARLY_LEAVE[..2]) == EARLY_LEAVE[..1] && Front(EARLY_LEAVE[..1]) == [];
    assert Sub.Exec(Sub.EMPTY, EARLY_LEAVE[..1]) == Sub.Db(map[STAYS := Sub.Row("t1", false, 0)], {"t1"}, [e1]);
    assert Sub.Exec(Sub.EMPTY, EARLY_LEAVE[..2]) == Sub.Db(map[STAYS := Sub.Row("t1", true, 0)], {"t1"}, [e1, e2]);
  }

  lemma EarlyLeaveTally(e1: Event, e2: Event, e3: Event, e4: Event)
    requires e1.SubscriptionPending? && e2 == SubscriptionConfirmed(STAYS, "t1") && e3.SubscriptionPending?
    requires e4 == SubscriptionRemoved(LEAVES)
    ensures Tally([e1, e2, e3, e4]) == map[]
  {
    TallyTwo(e1, e2);
    TallySnoc([e1, e2], e3);
    assert [e1, e2] + [e3] == [e1, e2, e3];
    TallySnoc([e1, e2, e3], e4);
    assert [e1, e2, e3] + [e4] == [e1, e2, e3, e4];
    var none: WatchList.Table := map[];
    var one: WatchList.Table := map["o/n" := WatchList.Row(None, 1)];
    assert WatchList.Increment(none, "o/n") == one;
    assert one - {"o/n"} == none;
  }
}

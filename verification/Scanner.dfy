/** The scanner: one scan pass (seed, unchanged or detected per repository), and the
    loop that `last_seen_tag` closes through the notifier. */
module Scanner {
  import opened Types
  import WatchList
  import Mailer
  import Releases
  import GitHub

  /** What GitHub reported for a watched repository. */
  datatype Observed = Observed(repo: Repo, tag: Tag, url: Url)

  /** A pass so far; the detections are the events that reached the bus. */
  datatype Pass = Pass(rows: WatchList.Table, detections: seq<Observed>, seeded: nat, detected: nat)

  /** Which per-repository writes and publishes succeed in this pass. */
  datatype Fate = Fate(seeds: set<Repo>, publishes: set<Repo>)

  datatype Outcome = Seeding | Unchanged | Detecting

  /** What a pass makes of an observation of a listed row. */
  function Judge(row: WatchList.Row, o: Observed): Outcome {
    if row.tag.None? then Seeding else if row.tag.value == o.tag then Unchanged else Detecting
  }

  predicate Judged(listed: WatchList.Table, o: Observed, outcome: Outcome) {
    o.repo in listed && Judge(listed[o.repo], o) == outcome
  }

  /** The tag write of an observation: only a row listed without a tag is seeded. */
  function Seed(rows: WatchList.Table, listed: WatchList.Table, fate: Fate, o: Observed): WatchList.Table {
    if Judged(listed, o, Seeding) && o.repo in fate.seeds then WatchList.AdvanceTag(rows, o.repo, o.tag) else rows
  }

  function Process(r: Pass, listed: WatchList.Table, fate: Fate, o: Observed): Pass {
    Pass(Seed(r.rows, listed, fate, o),
         if Judged(listed, o, Detecting) && o.repo in fate.publishes then r.detections + [o] else r.detections,
         r.seeded + (if Judged(listed, o, Seeding) then 1 else 0),
         r.detected + (if Judged(listed, o, Detecting) then 1 else 0))
  }

  function ProcessAll(r: Pass, listed: WatchList.Table, fate: Fate, os: seq<Observed>): Pass {
    if os == [] then r else Process(ProcessAll(r, listed, fate, Front(os)), listed, fate, Last(os))
  }

  predicate DistinctRepos(os: seq<Observed>) {
    forall i, j :: 0 <= i < j < |os| ==> os[i].repo != os[j].repo
  }

  // -------------------------------------------------------- order independence

  /** Same tags, same detections up to order, same counts. */
  ghost predicate Same(r: Pass, q: Pass) {
    r.rows == q.rows && multiset(r.detections) == multiset(q.detections) && r.seeded == q.seeded && r.detected == q.detected
  }

  lemma ProcessCongruent(r: Pass, q: Pass, listed: WatchList.Table, fate: Fate, o: Observed)
    requires Same(r, q)
    ensures Same(Process(r, listed, fate, o), Process(q, listed, fate, o))
  {
  }

  lemma ProcessCommutes(r: Pass, listed: WatchList.Table, fate: Fate, x: Observed, y: Observed)
    requires x.repo != y.repo
    ensures Same(Process(Process(r, listed, fate, x), listed, fate, y), Process(Process(r, listed, fate, y), listed, fate, x))
  {
  }

  lemma AllSnoc(r: Pass, listed: WatchList.Table, fate: Fate, os: seq<Observed>, o: Observed)
    ensures ProcessAll(r, listed, fate, os + [o]) == Process(ProcessAll(r, listed, fate, os), listed, fate, o)
  {
  }

  /** An observation can be moved to the end of the pass. */
  lemma {:induction false} MoveToEnd(r: Pass, listed: WatchList.Table, fate: Fate, a: seq<Observed>, x: Observed, b: seq<Observed>)
    requires forall o :: o in b ==> o.repo != x.repo
    ensures Same(ProcessAll(r, listed, fate, a + [x] + b), ProcessAll(r, listed, fate, a + b + [x]))
  {
    if b == [] {
      assert a + [x] + b == a + b + [x];
    } else {
      var c, y := Front(b), Last(b);
      assert y in b;
      MoveToEnd(r, listed, fate, a, x, c);
      assert a + [x] + b == (a + [x] + c) + [y] && a + b + [x] == (a + c) + [y] + [x];
      SwapLast(r, listed, fate, a + [x] + c, a + c, x, y);
    }
  }

  lemma SwapLast(r: Pass, listed: WatchList.Table, fate: Fate, u: seq<Observed>, v: seq<Observed>, x: Observed, y: Observed)
    requires x.repo != y.repo && Same(ProcessAll(r, listed, fate, u), ProcessAll(r, listed, fate, v + [x]))
    ensures Same(ProcessAll(r, listed, fate, u + [y]), ProcessAll(r, listed, fate, v + [y] + [x]))
  {
    var base := ProcessAll(r, listed, fate, v);
    AllSnoc(r, listed, fate, u, y);
    AllSnoc(r, listed, fate, v, x);
    AllSnoc(r, listed, fate, v, y);
    AllSnoc(r, listed, fate, v + [y], x);
    ProcessCongruent(ProcessAll(r, listed, fate, u), Process(base, listed, fate, x), listed, fate, y);
    ProcessCommutes(base, listed, fate, x, y);
  }

  /** A scan pass does not depend on the order in which the workers finish: for every
      permutation of the observations the final tags, the detections as a multiset
      and both counts are the same. */
  lemma {:induction false} PassIsOrderIndependent(r: Pass, listed: WatchList.Table, fate: Fate, os: seq<Observed>, ps: seq<Observed>)
    requires DistinctRepos(os) && multiset(os) == multiset(ps)
    ensures Same(ProcessAll(r, listed, fate, os), ProcessAll(r, listed, fate, ps))
    decreases |os|
  {
    assert |os| == |multiset(os)| == |multiset(ps)| == |ps|;
    if ps != [] {
      var x := Last(ps);
      assert x in multiset(ps);
      assert x in os;
      var i :| 0 <= i < |os| && os[i] == x;
      var a, b := os[..i], os[i + 1..];
      assert os == a + [x] + b;
      MoveToEnd(r, listed, fate, a, x, b);
      SamePermutation(os, ps, a, x, b);
      PassIsOrderIndependent(r, listed, fate, a + b, Front(ps));
      AllSnoc(r, listed, fate, a + b, x);
      ProcessCongruent(ProcessAll(r, listed, fate, a + b), ProcessAll(r, listed, fate, Front(ps)), listed, fate, x);
    }
  }

  lemma SamePermutation(os: seq<Observed>, ps: seq<Observed>, a: seq<Observed>, x: Observed, b: seq<Observed>)
    requires ps != [] && x == Last(ps) && os == a + [x] + b && DistinctRepos(os) && multiset(os) == multiset(ps)
    ensures DistinctRepos(a + b) && multiset(a + b) == multiset(Front(ps))
  {
    SameRest(ps, a, x, b);
    forall i, j | 0 <= i < j < |a + b| ensures (a + b)[i].repo != (a + b)[j].repo {
      var k, l := if i < |a| then i else i + 1, if j < |a| then j else j + 1;
      assert (a + b)[i] == os[k] && (a + b)[j] == os[l];
    }
  }

  lemma SameRest<T>(ps: seq<T>, a: seq<T>, x: T, b: seq<T>)
    requires ps != [] && x == Last(ps) && multiset(a + [x] + b) == multiset(ps)
    ensures multiset(a + b) == multiset(Front(ps))
  {
    assert ps == Front(ps) + [x];
    assert multiset(a + [x] + b) == multiset(a + b) + multiset{x};
    assert multiset(a + b) == multiset(ps) - multiset{x} && multiset(Front(ps)) == multiset(ps) - multiset{x};
  }

  class Watch {
    var rows: WatchList.Table
    var published: seq<Observed>  // releases.detected events on the bus, fresh saga ids aside

    constructor ()
      ensures rows == map[] && published == []
    {
      rows, published := map[], [];
    }

    /** The worker pool: at most one release per requested repository, in the order
        the workers finish. */
    method Scan(names: seq<Repo>) returns (observed: seq<Observed>)
      ensures DistinctRepos(observed) && forall o :: o in observed ==> o.repo in names && GitHub.ParseRepo(o.repo).Some?
    {
      observed := [];
      var rest := Elems(names);
      while rest != {}
        invariant rest <= Elems(names) && DistinctRepos(observed)
        invariant forall o :: o in observed ==> o.repo in names && o.repo !in rest && GitHub.ParseRepo(o.repo).Some?
      {
        var repo :| repo in rest;
        rest := rest - {repo};
        var fetched: Option<(Tag, Url)> := *;
        if GitHub.ParseRepo(repo).Some? && fetched.Some? {
          observed := observed + [Observed(repo, fetched.value.0, fetched.value.1)];
        }
      }
    }

    method ListWatched() returns (watched: seq<(Repo, WatchList.Row)>, err: bool)
      ensures forall i, j :: 0 <= i < j < |watched| ==> watched[i].0 != watched[j].0
      ensures forall w :: w in watched ==> w.0 in rows && rows[w.0] == w.1 && w.1.count > 0
      ensures !err ==> forall repo :: repo in rows && rows[repo].count > 0 ==> (repo, rows[repo]) in watched
    {
      watched, err := [], *;
      if err {
        return;
      }
      watched := Enumerate(set repo | repo in rows && rows[repo].count > 0 :: (repo, rows[repo]));
      assert forall w :: w in watched ==> w in Elems(watched);
      forall i, j | 0 <= i < j < |watched| ensures watched[i].0 != watched[j].0 {
        assert watched[i] in watched && watched[j] in watched && watched[i] != watched[j];
      }
    }

    /** Seed, skip or report one listed repository; the outcome does not depend on
        whether the write or the publish works. */
    method ProcessOne(row: WatchList.Row, o: Observed) returns (outcome: Outcome, ghost works: bool)
      modifies this
      ensures outcome == Judge(row, o)
      ensures rows == if outcome == Seeding && works then WatchList.AdvanceTag(old(rows), o.repo, o.tag) else old(rows)
      ensures published == if outcome == Detecting && works then old(published) + [o] else old(published)
    {
      var ok: bool := *;
      works := ok;
      if row.tag.None? {
        if ok { rows := WatchList.AdvanceTag(rows, o.repo, o.tag); }
        return Seeding, works;
      }
      if row.tag.value == o.tag {
        return Unchanged, works;
      }
      if ok { published := published + [o]; }
      return Detecting, works;
    }

    method Index(watched: seq<(Repo, WatchList.Row)>) returns (names: seq<Repo>, byName: WatchList.Table)
      ensures |names| == |watched| && forall j :: 0 <= j < |names| ==> names[j] == watched[j].0
      ensures forall repo :: repo in byName <==> repo in names
      ensures forall repo :: repo in byName ==> (repo, byName[repo]) in watched
    {
      names, byName := [], map[];
      for i := 0 to |watched|
        invariant |names| == i && forall repo :: repo in byName <==> repo in names
        invariant forall j :: 0 <= j < i ==> names[j] == watched[j].0
        invariant forall repo :: repo in byName ==> (repo, byName[repo]) in watched
      {
        names := names + [watched[i].0];
        byName := byName[watched[i].0 := watched[i].1];
      }
    }

    /** Processes the observations in order and counts the outcomes. */
    method ProcessObserved(byName: WatchList.Table, os: seq<Observed>)
      returns (seeded: nat, detected: nat, ghost fate: Fate)
      requires DistinctRepos(os)
      modifies this
      ensures var r := ProcessAll(Pass(old(rows), [], 0, 0), byName, fate, os);
        rows == r.rows && published == old(published) + r.detections && seeded == r.seeded && detected == r.detected
    {
      seeded, detected, fate := 0, 0, Fate({}, {});
      ghost var start := Pass(rows, [], 0, 0);
      ghost var result := start;
      for i := 0 to |os|
        invariant result == ProcessAll(start, byName, fate, os[..i])
        invariant rows == result.rows && published == old(published) + result.detections
        invariant seeded == result.seeded && detected == result.detected
      {
        var o := os[i];
        ghost var works := false;
        if o.repo in byName {
          var outcome, w := ProcessOne(byName[o.repo], o);
          works := w;
          match outcome
          case Seeding => seeded := seeded + 1;
          case Detecting => detected := detected + 1;
          case Unchanged =>
        }
        ghost var next := Fated(fate, o.repo, works);
        FateOfOthers(start, byName, fate, next, os[..i], o.repo);
        assert Front(os[..i + 1]) == os[..i];
        fate, result := next, Process(result, byName, next, o);
      }
      assert os[..|os|] == os;
    }

    /** One scan. Its effect is that of processing the observations in order against
        the rows as they were listed; a failed pass changes nothing. */
    method Run() returns (err: bool, ghost observed: seq<Observed>, ghost fate: Fate, ghost result: Pass)
      modifies this
      ensures err ==> rows == old(rows) && published == old(published)
      ensures !err ==>
        && DistinctRepos(observed)
        && result == ProcessAll(Pass(old(rows), [], 0, 0), WatchedRows(old(rows)), fate, observed)
        && rows == result.rows && published == old(published) + result.detections
    {
      observed, fate, result := [], Fate({}, {}), Pass(rows, [], 0, 0);
      var watched, e := ListWatched();
      if e {
        return true, observed, fate, result;
      }
      if |watched| == 0 {
        return false, observed, fate, result;
      }
      var names, byName := Index(watched);
      ByNameIsListed(rows, watched, names, byName);
      var os := Scan(names);
      ghost var before := rows;
      var seeded, detected, f := ProcessObserved(byName, os);
      observed, fate, result := os, f, ProcessAll(Pass(before, [], 0, 0), byName, f, os);
      err := false;
    }
  }

  /** The fate of a pass with one repository decided. */
  function Fated(f: Fate, repo: Repo, works: bool): Fate {
    if works then Fate(f.seeds + {repo}, f.publishes + {repo}) else Fate(f.seeds - {repo}, f.publishes - {repo})
  }

  function WatchedRows(t: WatchList.Table): WatchList.Table {
    map repo | repo in t && t[repo].count > 0 :: t[repo]
  }

  lemma ByNameIsListed(rows: WatchList.Table, watched: seq<(Repo, WatchList.Row)>, names: seq<Repo>, byName: WatchList.Table)
    requires forall w :: w in watched ==> w.0 in rows && rows[w.0] == w.1 && w.1.count > 0
    requires forall repo :: repo in rows && rows[repo].count > 0 ==> (repo, rows[repo]) in watched
    requires |names| == |watched| && forall j :: 0 <= j < |names| ==> names[j] == watched[j].0
    requires forall repo :: repo in byName <==> repo in names
    requires forall repo :: repo in byName ==> (repo, byName[repo]) in watched
    ensures byName == WatchedRows(rows)
  {
  }

  /** The fate of a repository matters only to its own observation. */
  lemma {:induction false} FateOfOthers(r: Pass, listed: WatchList.Table, f: Fate, g: Fate, os: seq<Observed>, repo: Repo)
    requires forall o :: o in os ==> o.repo != repo
    requires forall x :: x != repo ==> (x in f.seeds <==> x in g.seeds) && (x in f.publishes <==> x in g.publishes)
    ensures ProcessAll(r, listed, f, os) == ProcessAll(r, listed, g, os)
  {
    if os != [] {
      FateOfOthers(r, listed, f, g, Front(os), repo);
      assert Last(os) in os;
    }
  }

  // ------------------------------------------------------------- the tag loop

  /** Scanner and notifier around the bus. Histories: what GitHub was seen to
      report, which tags were seeded silently, which mails a server accepted. */
  datatype World = World(
    rows: WatchList.Table, listed: WatchList.Table,
    noteOut: set<Event>, bus: set<Event>,
    observed: set<Release>, seeded: set<Release>, mailed: set<(Release, Email)>)

  datatype Action =
    | Count(e: Event)                                              // watch-list projector
    | ListRows                                                     // a pass reads the table
    | Observe(rel: Release)                                        // GitHub answers
    | Scan(rel: Release, id: SagaId, url: Url, works: bool)        // the pass processes an answer
    | Notify(e: Event, emails: seq<Email>, ok: seq<bool>, lost: seq<Email>)  // notifier commits a batch
    | Relay(publish: set<Event>, drop: set<Event>)
    | Advance(e: Event)                                            // releases.notified arrives

  const INIT := World(map[], map[], {}, {}, {}, {}, {})

  predicate Enabled(w: World, a: Action) {
    match a
    case Count(e) => true
    case Scan(rel, _, _, _) => rel in w.observed && rel.repo in w.listed
    case Notify(e, emails, ok, lost) => e in w.bus && e.ReleaseDetected? && |emails| == |ok|
    case Relay(publish, drop) => publish <= w.noteOut && drop <= w.bus + publish
    case Advance(e) => e in w.bus && e.ReleaseNotified?
    case _ => true
  }

  function Batch(e: Event, emails: seq<Email>, ok: seq<bool>, lost: seq<Email>): set<Event>
    requires e.ReleaseDetected?
  {
    var input := Releases.Input(e.id, e.rel, e.url);
    Elems(Releases.Outcomes(input, emails, Elems(lost))) + {ReleaseNotified(e.id, e.rel, Mailer.CountTrue(ok), lost)}
  }

  /** These are the events the notify-release use case commits. */
  lemma BatchIsCommitted(db: Releases.Db, e: Event, emails: seq<Email>, ok: seq<bool>, lost: seq<Email>)
    requires e.ReleaseDetected?
    ensures var d := Releases.Commit(db, Releases.Input(e.id, e.rel, e.url), emails, lost, Mailer.CountTrue(ok));
      |db.outbox| <= |d.outbox| && Elems(d.outbox[|db.outbox|..]) == Batch(e, emails, ok, lost)
  {
    var input := Releases.Input(e.id, e.rel, e.url);
    Releases.RecordShape(db, input, emails, Elems(lost));
    var d := Releases.Commit(db, input, emails, lost, Mailer.CountTrue(ok));
    assert d.outbox[|db.outbox|..] ==
           Releases.Outcomes(input, emails, Elems(lost)) + [ReleaseNotified(e.id, e.rel, Mailer.CountTrue(ok), lost)];
  }

  function Next(w: World, a: Action): World {
    if !Enabled(w, a) then w else
    match a
    case Count(e) => w.(rows := WatchList.Project(w.rows, e))
    case ListRows => w.(listed := WatchedRows(w.rows))
    case Observe(rel) => w.(observed := w.observed + {rel})
    case Scan(rel, id, url, works) =>
      var row := w.listed[rel.repo];
      if !works || row.tag == Some(rel.tag) then w
      else if row.tag.None? then
        w.(rows := WatchList.AdvanceTag(w.rows, rel.repo, rel.tag), seeded := w.seeded + {rel})
      else w.(bus := w.bus + {ReleaseDetected(id, rel, url)})
    case Notify(e, emails, ok, lost) =>
      w.(noteOut := w.noteOut + Batch(e, emails, ok, lost),
         mailed := w.mailed + Elems(Mailed(e.rel, Mailer.Pick(emails, ok))))
    case Relay(publish, drop) => w.(bus := w.bus + publish, noteOut := w.noteOut - drop)
    case Advance(e) => if e.sentCount > 0 then w.(rows := WatchList.AdvanceTag(w.rows, e.rel.repo, e.rel.tag)) else w
  }

  /** And a `Scan` step is what the pass does with one observation. */
  lemma ScanIsProcess(w: World, rel: Release, id: SagaId, url: Url, works: bool)
    requires Enabled(w, Scan(rel, id, url, works))
    ensures var r := Process(Pass(w.rows, [], 0, 0), w.listed, Fated(Fate({}, {}), rel.repo, works), Observed(rel.repo, rel.tag, url));
      var v := Next(w, Scan(rel, id, url, works));
      v.rows == r.rows && v.bus == w.bus + set o | o in r.detections :: ReleaseDetected(id, Release(o.repo, o.tag), o.url)
  {
    var v := Next(w, Scan(rel, id, url, works));
    var o := Observed(rel.repo, rel.tag, url);
    assert Release(o.repo, o.tag) == rel;
    if works && Judged(w.listed, o, Detecting) {
      assert v.bus == w.bus + {ReleaseDetected(id, rel, url)};
      assert o in [o];
    }
  }

  function Mailed(rel: Release, emails: seq<Email>): (r: seq<(Release, Email)>)
    ensures |r| == |emails| && forall i :: 0 <= i < |r| ==> r[i] == (rel, emails[i])
  {
    seq(|emails|, i requires 0 <= i < |emails| => (rel, emails[i]))
  }

  function ExecFrom(w: World, run: seq<Action>): World {
    if run == [] then w else Next(ExecFrom(w, Front(run)), Last(run))
  }

  function Exec(run: seq<Action>): World { ExecFrom(INIT, run) }

  /** Where a stored tag comes from. */
  ghost predicate Seeded(w: World, rel: Release) { rel in w.seeded && rel in w.observed }

  ghost predicate Announced(w: World, rel: Release) {
    exists e :: e in w.bus && e.ReleaseNotified? && e.rel == rel && e.sentCount > 0
  }

  ghost predicate SomebodyMailed(w: World, rel: Release) {
    exists m :: m in w.mailed && m.0 == rel
  }

  ghost predicate TagInv(w: World) {
    && (forall rel :: rel in w.seeded ==> rel in w.observed)
    && (forall e :: e in w.bus && e.ReleaseDetected? ==> e.rel in w.observed)
    && (forall e :: e in w.noteOut + w.bus && e.ReleaseNotified? ==>
          e.rel in w.observed && (e.sentCount > 0 ==> SomebodyMailed(w, e.rel)))
    && (forall e :: e in w.noteOut ==> !e.ReleaseDetected?)
    && (forall repo :: repo in w.rows && w.rows[repo].tag.Some? ==>
          var rel := Release(repo, w.rows[repo].tag.value); Seeded(w, rel) || Announced(w, rel))
  }

  lemma RowsStayFounded(w: World, v: World)
    requires TagInv(w) && w.bus <= v.bus && w.seeded <= v.seeded && w.observed <= v.observed
    requires forall repo :: repo in v.rows && v.rows[repo].tag.Some? ==>
      || (repo in w.rows && w.rows[repo].tag == v.rows[repo].tag)
      || Seeded(v, Release(repo, v.rows[repo].tag.value)) || Announced(v, Release(repo, v.rows[repo].tag.value))
    ensures forall repo :: repo in v.rows && v.rows[repo].tag.Some? ==>
          var rel := Release(repo, v.rows[repo].tag.value); Seeded(v, rel) || Announced(v, rel)
  {
  }

  lemma NotifyKeeps(w: World, e: Event, emails: seq<Email>, ok: seq<bool>, lost: seq<Email>)
    requires TagInv(w) && Enabled(w, Notify(e, emails, ok, lost))
    ensures TagInv(Next(w, Notify(e, emails, ok, lost)))
  {
    var v := Next(w, Notify(e, emails, ok, lost));
    RowsStayFounded(w, v);
    forall x | x in v.noteOut + v.bus && x.ReleaseNotified? && x.sentCount > 0 ensures SomebodyMailed(v, x.rel) {
      if x in w.noteOut + w.bus {
        var m :| m in w.mailed && m.0 == x.rel;
        assert m in v.mailed;
      } else {
        Mailer.Lengths(emails, ok);
        var sent := Mailer.Pick(emails, ok);
        assert Mailed(e.rel, sent)[0] in v.mailed;
      }
    }
  }

  lemma RelayKeeps(w: World, publish: set<Event>, drop: set<Event>)
    requires TagInv(w) && Enabled(w, Relay(publish, drop))
    ensures TagInv(Next(w, Relay(publish, drop)))
  {
  }

  lemma ScannerKeeps(w: World, a: Action)
    requires TagInv(w) && Enabled(w, a) && !a.Notify? && !a.Relay?
    ensures TagInv(Next(w, a))
  {
  }

  lemma {:induction false} TagInvariant(run: seq<Action>)
    ensures TagInv(Exec(run))
  {
    if run != [] {
      TagInvariant(Front(run));
      var w, a := Exec(Front(run)), Last(run);
      if Enabled(w, a) {
        match a
        case Notify(e, emails, ok, lost) => NotifyKeeps(w, e, emails, ok, lost);
        case Relay(publish, drop) => RelayKeeps(w, publish, drop);
        case _ => ScannerKeeps(w, a);
      }
    }
  }

  /** Tag provenance: over every run, a stored last-seen tag is a release GitHub was
      seen to report, and either it was seeded while the listed row had none, or a
      committed summary for it counted at least one mail and a mail about exactly
      that release was accepted. */
  lemma TagsAreEarned(run: seq<Action>, repo: Repo)
    ensures var w := Exec(run);
      repo in w.rows && w.rows[repo].tag.Some? ==>
        var rel := Release(repo, w.rows[repo].tag.value);
        rel in w.observed && (rel in w.seeded || (Announced(w, rel) && SomebodyMailed(w, rel)))
  {
    TagInvariant(run);
    var w := Exec(run);
    if repo in w.rows && w.rows[repo].tag.Some? {
      var rel := Release(repo, w.rows[repo].tag.value);
      if Announced(w, rel) {
        var e :| e in w.bus && e.ReleaseNotified? && e.rel == rel && e.sentCount > 0;
        assert e in w.noteOut + w.bus;
      }
    }
  }

  // ------------------------------------------------------ when a stored tag is lost

  /** The steps that take a stored tag away, each by its own guard: the removal of the
      last subscriber, a seed from a listing read while the row had no tag, and a
      summary of another tag that reached somebody. */
  predicate LosesTag(w: World, a: Action, repo: Repo, tag: Tag) {
    Enabled(w, a) &&
      match a
      case Count(e) => e.SubscriptionRemoved? && e.pair.repo == repo && WatchList.CountOf(w.rows, repo) <= 1
      case Scan(rel, _, _, works) => works && rel.repo == repo && w.listed[repo].tag.None? && rel.tag != tag
      case Advance(e) => e.rel.repo == repo && e.sentCount > 0 && e.rel.tag != tag
      case _ => false
  }

  /** Over every action, a stored tag survives a step exactly if the step is none of
      those. */
  lemma TagKeptIff(w: World, a: Action, repo: Repo, tag: Tag)
    requires WatchList.TagOf(w.rows, repo) == Some(tag)
    ensures WatchList.TagOf(Next(w, a).rows, repo) == Some(tag) <==> !LosesTag(w, a, repo, tag)
  {
  }

  lemma ExecStep(w: World, run: seq<Action>, k: nat)
    requires k < |run|
    ensures ExecFrom(w, run[..k + 1]) == Next(ExecFrom(w, run[..k]), run[k])
  {
    assert Front(run[..k + 1]) == run[..k] && Last(run[..k + 1]) == run[k];
  }

  lemma {:induction false} TagHeldUpTo(w: World, run: seq<Action>, repo: Repo, tag: Tag, n: nat)
    requires WatchList.TagOf(w.rows, repo) == Some(tag) && n <= |run|
    requires forall k :: 0 <= k < n ==> !LosesTag(ExecFrom(w, run[..k]), run[k], repo, tag)
    ensures WatchList.TagOf(ExecFrom(w, run[..n]).rows, repo) == Some(tag)
  {
    if n > 0 {
      TagHeldUpTo(w, run, repo, tag, n - 1);
      ExecStep(w, run, n - 1);
      TagKeptIff(ExecFrom(w, run[..n - 1]), run[n - 1], repo, tag);
    }
  }

  /** Over every run, a stored tag stays throughout exactly if no step of the run takes
      it away. */
  lemma TagHeldIff(w: World, run: seq<Action>, repo: Repo, tag: Tag)
    requires WatchList.TagOf(w.rows, repo) == Some(tag)
    ensures (forall k :: 0 <= k <= |run| ==> WatchList.TagOf(ExecFrom(w, run[..k]).rows, repo) == Some(tag))
       <==> (forall k :: 0 <= k < |run| ==> !LosesTag(ExecFrom(w, run[..k]), run[k], repo, tag))
  {
    if forall k :: 0 <= k <= |run| ==> WatchList.TagOf(ExecFrom(w, run[..k]).rows, repo) == Some(tag) {
      forall k | 0 <= k < |run| ensures !LosesTag(ExecFrom(w, run[..k]), run[k], repo, tag) {
        ExecStep(w, run, k);
        assert WatchList.TagOf(ExecFrom(w, run[..k + 1]).rows, repo) == Some(tag);
        TagKeptIff(ExecFrom(w, run[..k]), run[k], repo, tag);
      }
    } else if forall k :: 0 <= k < |run| ==> !LosesTag(ExecFrom(w, run[..k]), run[k], repo, tag) {
      forall k | 0 <= k <= |run| ensures WatchList.TagOf(ExecFrom(w, run[..k]).rows, repo) == Some(tag) {
        TagHeldUpTo(w, run, repo, tag, k);
      }
    }
  }

  /** What a lost tag costs: the next scan reports the release again exactly if another
      tag is stored; with none it is seeded in silence. */
  lemma ReportedAgainIff(w: World, rel: Release, id: SagaId, url: Url)
    requires rel in w.observed && rel.repo in w.rows && w.rows[rel.repo].count > 0
    ensures var v := Next(Next(w, ListRows), Scan(rel, id, url, true));
      match w.rows[rel.repo].tag
      case Some(tag) => v.rows == w.rows && v.bus == if tag == rel.tag then w.bus else w.bus + {ReleaseDetected(id, rel, url)}
      case None => v.bus == w.bus && WatchList.TagOf(v.rows, rel.repo) == Some(rel.tag)
  {
  }

  // --------------------------------------------------------------- two such runs

  const REPO := "o/n"
  const READER := Pair("a@x.org", REPO)
  const V0 := Release(REPO, "v0")
  const V1 := Release(REPO, "v1")
  const V2 := Release(REPO, "v2")

  function Detected(rel: Release, id: SagaId): Event { ReleaseDetected(id, rel, "u") }
  function Notified(rel: Release, id: SagaId): Event { ReleaseNotified(id, rel, 1, []) }

  /** A subscriber arrives and the first scan seeds v0. */
  const SEEDING := [Count(SubscriptionConfirmed(READER, "t")), ListRows, Observe(V0), Scan(V0, 0, "u", true)]

  /** A release is found, mailed and announced ... */
  function Finding(rel: Release, id: SagaId): seq<Action> { [ListRows, Observe(rel), Scan(rel, id, "u", true)] }

  /** ... and its summary comes back. */
  function Telling(rel: Release, id: SagaId): seq<Action> {
    [Notify(Detected(rel, id), ["a@x.org"], [true], []), Relay({Notified(rel, id)}, {Notified(rel, id)}), Advance(Notified(rel, id))]
  }

  lemma {:induction false} ExecAppend(w: World, a: seq<Action>, b: seq<Action>)
    ensures ExecFrom(w, a + b) == ExecFrom(ExecFrom(w, a), b)
  {
    if b == [] {
      assert a + b == a;
    } else {
      assert Front(a + b) == a + Front(b) && Last(a + b) == Last(b);
      ExecAppend(w, a, Front(b));
    }
  }

  lemma Three(w: World, x: Action, y: Action, z: Action)
    ensures ExecFrom(w, [x, y, z]) == Next(Next(Next(w, x), y), z)
  {
    assert Front([x, y, z]) == [x, y] && Front([x, y]) == [x] && Front([x]) == [];
    assert ExecFrom(w, [x]) == Next(w, x);
    assert ExecFrom(w, [x, y]) == Next(Next(w, x), y);
  }

  lemma Found(w: World, rel: Release, id: SagaId)
    requires rel.repo in w.rows && w.rows[rel.repo].count > 0 && w.rows[rel.repo].tag.Some? && w.rows[rel.repo].tag.value != rel.tag
    ensures var v := ExecFrom(w, Finding(rel, id));
      v.rows == w.rows && w.bus <= v.bus && Detected(rel, id) in v.bus && w.observed <= v.observed
  {
    Three(w, ListRows, Observe(rel), Scan(rel, id, "u", true));
  }

  lemma Told(w: World, rel: Release, id: SagaId)
    requires Detected(rel, id) in w.bus
    ensures var v := ExecFrom(w, Telling(rel, id));
      && v.rows == WatchList.AdvanceTag(w.rows, rel.repo, rel.tag) && v.listed == w.listed
      && w.bus <= v.bus && Notified(rel, id) in v.bus && w.observed <= v.observed
  {
    var e, n := Detected(rel, id), Notified(rel, id);
    assert Mailer.CountTrue([true]) == 1 by { assert Front([true]) == []; }
    assert n in Batch(e, ["a@x.org"], [true], []);
    Three(w, Notify(e, ["a@x.org"], [true], []), Relay({n}, {n}), Advance(n));
  }

  lemma AfterSeeding()
    ensures Exec(SEEDING).rows == map[REPO := WatchList.Row(Some("v0"), 1)] && V0 in Exec(SEEDING).observed
  {
    var last := Scan(V0, 0, "u", true);
    assert Front(SEEDING) == [SEEDING[0], SEEDING[1], SEEDING[2]];
    Three(INIT, SEEDING[0], SEEDING[1], SEEDING[2]);
    var w := ExecFrom(INIT, Front(SEEDING));
    assert w.rows == map[REPO := WatchList.Row(None, 1)] && w.listed == w.rows;
    assert Exec(SEEDING) == Next(w, last);
  }

  /** The summary of v1, delivered again after v2 was announced, puts v1 back. */
  lemma RedeliveryRewindsTag()
    ensures var w := Exec(SEEDING + Finding(V1, 1) + Telling(V1, 1) + Finding(V2, 2) + Telling(V2, 2));
      WatchList.TagOf(w.rows, REPO) == Some("v2") && WatchList.TagOf(Next(w, Advance(Notified(V1, 1))).rows, REPO) == Some("v1")
  {
    AfterSeeding();
    var r1 := SEEDING + Finding(V1, 1);
    ExecAppend(INIT, SEEDING, Finding(V1, 1));
    Found(Exec(SEEDING), V1, 1);
    var r2 := r1 + Telling(V1, 1);
    ExecAppend(INIT, r1, Telling(V1, 1));
    Told(Exec(r1), V1, 1);
    var r3 := r2 + Finding(V2, 2);
    ExecAppend(INIT, r2, Finding(V2, 2));
    Found(Exec(r2), V2, 2);
    ExecAppend(INIT, r3, Telling(V2, 2));
    Told(Exec(r3), V2, 2);
  }

  /** The only subscriber leaves and returns while v1 is being announced. */
  const RETURNING := [Count(SubscriptionRemoved(READER)), Count(SubscriptionConfirmed(READER, "t2")), ListRows]

  /** No summary but v1's: a listing read while the row was untagged lets an old answer
      overwrite v1 with v0. */
  lemma StaleListingRewindsTag()
    ensures var w := Exec(SEEDING + Finding(V1, 1) + RETURNING + Telling(V1, 1));
      WatchList.TagOf(w.rows, REPO) == Some("v1") && WatchList.TagOf(Next(w, Scan(V0, 9, "u", true)).rows, REPO) == Some("v0")
  {
    AfterSeeding();
    var r1 := SEEDING + Finding(V1, 1);
    ExecAppend(INIT, SEEDING, Finding(V1, 1));
    Found(Exec(SEEDING), V1, 1);
    var r2 := r1 + RETURNING;
    ExecAppend(INIT, r1, RETURNING);
    Three(Exec(r1), RETURNING[0], RETURNING[1], RETURNING[2]);
    var w := Exec(r2);
    assert w.rows == map[REPO := WatchList.Row(None, 1)] && w.listed == w.rows;
    ExecAppend(INIT, r2, Telling(V1, 1));
    Told(w, V1, 1);
  }
}

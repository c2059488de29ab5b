/** The scanner's `watched_repos` table. */
module WatchList {
  import opened Types

  datatype Row = Row(tag: Option<Tag>, count: nat)
  type Table = map<Repo, Row>

  /** INSERT ... VALUES (repo, 1) ON CONFLICT DO UPDATE count = count + 1. */
  function Increment(t: Table, repo: Repo): Table {
    if repo in t then t[repo := t[repo].(count := t[repo].count + 1)] else t[repo := Row(None, 1)]
  }

  /** Decrement while the count exceeds one, otherwise delete the row. */
  function Decrement(t: Table, repo: Repo): Table {
    if repo in t && t[repo].count > 1 then t[repo := t[repo].(count := t[repo].count - 1)] else t - {repo}
  }

  function AdvanceTag(t: Table, repo: Repo, tag: Tag): Table {
    if repo in t then t[repo := t[repo].(tag := Some(tag))] else t
  }

  /** The projector of confirmed and removed subscriptions. */
  function Project(t: Table, e: Event): Table {
    match e
    case SubscriptionConfirmed(p, _) => Increment(t, p.repo)
    case SubscriptionRemoved(p) => Decrement(t, p.repo)
    case _ => t
  }

  /** Every stored row has a subscriber. */
  predicate Positive(t: Table) { forall repo :: repo in t ==> t[repo].count > 0 }

  function CountOf(t: Table, repo: Repo): nat { if repo in t then t[repo].count else 0 }
  function TagOf(t: Table, repo: Repo): Option<Tag> { if repo in t then t[repo].tag else None }

  /** A removal undoes a confirmation exactly, tag included ... */
  lemma RemovalUndoesConfirmation(t: Table, repo: Repo)
    requires Positive(t)
    ensures Decrement(Increment(t, repo), repo) == t
  {
    if repo !in t { assert Increment(t, repo) - {repo} == t; }
  }

  /** ... but not the other way round: the last subscriber takes the tag along, so the
      row is restored exactly if somebody else stayed or no tag had been seen. */
  lemma ReturnRestoresIff(t: Table, repo: Repo)
    requires Positive(t) && repo in t
    ensures Increment(Decrement(t, repo), repo) == t <==> t[repo].count > 1 || t[repo].tag.None?
  {
    var u := Increment(Decrement(t, repo), repo);
    assert u - {repo} == t - {repo};
    if t[repo].count == 1 {
      assert u[repo] == Row(None, 1);
      if t[repo].tag.None? { assert t[repo] == u[repo]; }
    }
  }

  class WatchedRepos {
    var rows: Table

    constructor ()
      ensures rows == map[]
    {
      rows := map[];
    }

    /** One subscriber more, and nothing else. */
    method IncrementSubscriber(repo: Repo) returns (err: bool)
      modifies this
      ensures err ==> rows == old(rows)
      ensures !err ==> repo in rows && CountOf(rows, repo) == CountOf(old(rows), repo) + 1
      ensures TagOf(rows, repo) == TagOf(old(rows), repo) && rows - {repo} == old(rows) - {repo}
      ensures Positive(old(rows)) ==> Positive(rows)
    {
      err := *;
      if !err {
        if repo in rows {
          rows := rows[repo := rows[repo].(count := rows[repo].count + 1)];
        } else {
          rows := rows[repo := Row(None, 1)];
        }
      }
    }

    /** One subscriber less; the row goes with the last one and is never left at zero. */
    method DecrementSubscriber(repo: Repo) returns (err: bool)
      modifies this
      ensures err ==> rows == old(rows)
      ensures !err ==> (repo in rows <==> CountOf(old(rows), repo) > 1)
      ensures !err && repo in rows ==>
        CountOf(rows, repo) == CountOf(old(rows), repo) - 1 && TagOf(rows, repo) == TagOf(old(rows), repo)
      ensures rows - {repo} == old(rows) - {repo}
      ensures Positive(old(rows)) ==> Positive(rows)
    {
      err := *;
      if !err {
        var decremented := repo in rows && rows[repo].count > 1;
        if decremented {
          rows := rows[repo := rows[repo].(count := rows[repo].count - 1)];
        } else {
          rows := rows - {repo};
        }
      }
    }

    /** Counts stay, no row is created; an existing one takes the tag. */
    method Advance(repo: Repo, tag: Tag) returns (err: bool)
      modifies this
      ensures err ==> rows == old(rows)
      ensures rows.Keys == old(rows).Keys && forall r :: r in rows ==> rows[r].count == old(rows)[r].count
      ensures !err && repo in rows ==> TagOf(rows, repo) == Some(tag)
      ensures rows - {repo} == old(rows) - {repo}
    {
      err := *;
      if !err && repo in rows {
        rows := rows[repo := rows[repo].(tag := Some(tag))];
      }
    }

    /** The projector: the table moves as the specification of an event says. */
    method Handle(e: Event) returns (err: bool)
      modifies this
      ensures rows == if err then old(rows) else Project(old(rows), e)
      ensures Positive(old(rows)) ==> Positive(rows)
    {
      err := false;
      ghost var before := rows;
      match e
      case SubscriptionConfirmed(p, _) =>
        err := IncrementSubscriber(p.repo);
        SameTable(rows, if err then before else Project(before, e), p.repo);
      case SubscriptionRemoved(p) =>
        err := DecrementSubscriber(p.repo);
        SameTable(rows, if err then before else Project(before, e), p.repo);
      case _ =>
    }

    /** advancetag.Execute: only a release that reached somebody moves the tag. */
    method OnNotified(repo: Repo, tag: Tag, sentCount: int) returns (err: bool)
      modifies this
      ensures rows == if err || sentCount <= 0 then old(rows) else AdvanceTag(old(rows), repo, tag)
      ensures sentCount <= 0 ==> !err
    {
      if sentCount <= 0 {
        return false;
      }
      ghost var before := rows;
      err := Advance(repo, tag);
      SameTable(rows, if err then before else AdvanceTag(before, repo, tag), repo);
    }
  }

  /** Tables that agree on a repository and away from it are the same. */
  lemma SameTable(t: Table, u: Table, repo: Repo)
    requires t - {repo} == u - {repo}
    requires (repo in t <==> repo in u) && CountOf(t, repo) == CountOf(u, repo) && TagOf(t, repo) == TagOf(u, repo)
    ensures t == u
  {
    forall r | r in t ensures r in u && t[r] == u[r] {
      if r != repo { assert r in t - {repo} && (t - {repo})[r] == t[r]; }
    }
    forall r | r in u ensures r in t {
      if r != repo { assert r in u - {repo}; }
    }
  }
}

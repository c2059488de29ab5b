/** Vocabulary shared by the four services: identifiers, the event catalogue and
    a few generic operations on sequences and maps. */
module Types {

  datatype Option<+T> = None | Some(value: T)

  type Email = string
  type Repo = string
  type Tag = string
  type Token = string
  type Url = string
  type Reason = string
  type SagaId = nat  // a UUID: only equality and freshness matter

  /** The natural key of a subscription and of a saga. */
  datatype Pair = Pair(email: Email, repo: Repo)

  /** Who is subscribed to what, with their unsubscribe tokens: the confirmed
      subscriptions, and the notifier's replica of them. */
  type View = map<Pair, Token>

  function Subscribers(v: View, repo: Repo): set<Pair> {
    set p | p in v && p.repo == repo
  }

  /** A release of a repository: the key of `processed_releases`. */
  datatype Release = Release(repo: Repo, tag: Tag)

  /** Every message that travels over the bus. The fresh saga ids minted by
      confirm, unsubscribe and cleanup are read by no consumer and are omitted. */
  datatype Event =
    | SubscriptionPending(id: SagaId, pair: Pair, url: Url)
    | SubscriptionConfirmed(pair: Pair, token: Token)
    | SubscriptionRemoved(pair: Pair)
    | SubscriptionExpired(pair: Pair)
    | ConfirmationSent(id: SagaId, email: Email)
    | ConfirmationFailed(id: SagaId, email: Email, reason: Reason)
    | ConfirmationDead(id: SagaId, email: Email, reason: Reason)
    | SagaCompensate(id: SagaId, pair: Pair)
    | ReleaseDetected(id: SagaId, rel: Release, url: Url)
    | ReleaseNotified(id: SagaId, rel: Release, sentCount: int, failedEmails: seq<Email>)
    | ReleaseSent(id: SagaId, rel: Release, email: Email)
    | ReleaseFailed(id: SagaId, rel: Release, email: Email, reason: Reason)
    | ReleaseDead(id: SagaId, rel: Release, email: Email, reason: Reason)

  /** The sequence without its last element, and that element. */
  function Front<T>(s: seq<T>): (r: seq<T>)
    requires s != []
  {
    s[..|s| - 1]
  }

  function Last<T>(s: seq<T>): T
    requires s != []
  {
    s[|s| - 1]
  }

  /** The elements of a sequence as a set. */
  function Elems<T(!new)>(s: seq<T>): (r: set<T>)
    ensures forall x :: x in r <==> x in s
  {
    set x | x in s
  }

  predicate Distinct<T(==)>(s: seq<T>) {
    forall i, j :: 0 <= i < j < |s| ==> s[i] != s[j]
  }

  /** The elements of a set in whatever order a query returns them. */
  method Enumerate<T(==,!new)>(all: set<T>) returns (order: seq<T>)
    ensures Distinct(order) && Elems(order) == all
  {
    order := [];
    var rest := all;
    while rest != {}
      invariant Distinct(order) && Elems(order) + rest == all && Elems(order) !! rest
    {
      var x :| x in rest;
      rest := rest - {x};
      order := order + [x];
    }
  }
}

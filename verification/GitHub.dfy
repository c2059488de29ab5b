/** The cache-aside GitHub client and the parsing of repository names. */
module GitHub {
  import opened Types

  // ----------------------------------------------------- repository names

  predicate NameChar(c: char) {
    'A' <= c <= 'Z' || 'a' <= c <= 'z' || '0' <= c <= '9' || c == '_' || c == '.' || c == '-'
  }

  /** One side of the pattern: one or more name characters. */
  predicate Name(s: string) {
    s != "" && forall c :: c in s ==> NameChar(c)
  }

  /** The whole-string pattern "name/name". */
  predicate Matches(s: string) {
    exists i | 0 <= i < |s| :: s[i] == '/' && Name(s[..i]) && Name(s[i + 1..])
  }

  function FirstSlash(s: string): nat {
    if s == "" || s[0] == '/' then 0 else 1 + FirstSlash(s[1..])
  }

  lemma {:induction false} FirstSlashAt(s: string, i: nat)
    requires i < |s| && s[i] == '/' && forall j :: 0 <= j < i ==> s[j] != '/'
    ensures FirstSlash(s) == i
  {
    if i > 0 { FirstSlashAt(s[1..], i - 1); }
  }

  lemma {:induction false} FirstSlashBound(s: string)
    ensures FirstSlash(s) <= |s|
  {
    if s != "" && s[0] != '/' { FirstSlashBound(s[1..]); }
  }

  /** A match, then a split at the first slash. */
  function ParseRepo(s: string): Option<(string, string)> {
    FirstSlashBound(s);
    var i := FirstSlash(s);
    if Matches(s) && i < |s| then Some((s[..i], s[i + 1..])) else None
  }

  lemma ParsesJoined(owner: string, name: string)
    requires Name(owner) && Name(name)
    ensures ParseRepo(owner + "/" + name) == Some((owner, name))
  {
    var s, i := owner + "/" + name, |owner|;
    assert s[i] == '/' && s[..i] == owner && s[i + 1..] == name;
    forall j | 0 <= j < i ensures s[j] != '/' { assert s[j] == owner[j]; assert s[j] in owner; }
    FirstSlashAt(s, i);
  }

  lemma ParsedIsJoined(s: string) returns (i: nat)
    requires Matches(s)
    ensures i < |s| && s == s[..i] + "/" + s[i + 1..] && Name(s[..i]) && Name(s[i + 1..])
  {
    i :| 0 <= i < |s| && s[i] == '/' && Name(s[..i]) && Name(s[i + 1..]);
  }

  /** The accepted strings are exactly owner/name, and the split is the only one:
      parsing and joining are inverse to each other. */
  lemma ParseRepoIsUnique(s: string, owner: string, name: string)
    ensures ParseRepo(s) == Some((owner, name)) <==> Name(owner) && Name(name) && s == owner + "/" + name
  {
    if Name(owner) && Name(name) && s == owner + "/" + name {
      ParsesJoined(owner, name);
    } else if Matches(s) {
      var i := ParsedIsJoined(s);
      ParsesJoined(s[..i], s[i + 1..]);
    }
  }

  // -------------------------------------------------------------- cache keys

  datatype Op = RepoExists | LatestRelease

  function Key(op: Op, owner: string, name: string): string {
    (match op case RepoExists => "github:repo_exists:" case LatestRelease => "github:latest_release:")
    + owner + "/" + name
  }

  /** Distinct operations or distinct parsed repositories never share a key. */
  lemma KeysNeverCollide(op: Op, o: string, n: string, op': Op, o': string, n': string)
    requires Name(o) && Name(n) && Name(o') && Name(n')
    requires Key(op, o, n) == Key(op', o', n')
    ensures op == op' && o == o' && n == n'
  {
    var k, k' := Key(op, o, n), Key(op', o', n');
    assert op == op' by {
      assert k[7] == if op == RepoExists then 'r' else 'l';
      assert k'[7] == if op' == RepoExists then 'r' else 'l';
    }
    var w := if op == RepoExists then |"github:repo_exists:"| else |"github:latest_release:"|;
    assert k[w..] == o + "/" + n && k'[w..] == o' + "/" + n';
    ParseRepoIsUnique(o + "/" + n, o, n);
    ParseRepoIsUnique(o + "/" + n, o', n');
  }

  // ------------------------------------------------------------------ client

  datatype Rel = Rel(tag: Tag, url: Url)

  /** A cached string: "1"/"0", "none", a marshalled release, or anything else. */
  datatype Text = Flag(exists_: bool) | NoRelease | Json(rel: Rel) | Garbage
  datatype Entry = Entry(text: Text, at: nat)

  /** What a caller is told: no such repository or release, it exists, or the release. */
  datatype Answer = Absent | Found | Latest(rel: Rel)

  /** One API round trip: a transport, authorisation or rate-limit error; a 404;
      a 200 with a body that may not decode; any other status. */
  datatype Http = Broken | NotFound | Ok(body: Option<Rel>) | OtherStatus

  /** A round trip for a question, and when it was made. */
  datatype Trip = Trip(op: Op, owner: string, name: string, http: Http, at: nat)

  /** What a response means: a repository exists on a 200 and a release is the decoded
      body of one; neither does on a 404; nothing else is an answer. */
  predicate Means(op: Op, h: Http, a: Answer) {
    match a
    case Found => op == RepoExists && h.Ok?
    case Absent => h == NotFound
    case Latest(r) => op == LatestRelease && h == Ok(Some(r))
  }

  datatype CacheRead = ReadFails | Evicted | Honest
  datatype Call = Call(op: Op, owner: string, name: string, now: nat, read: CacheRead, http: Http, stored: bool)
  datatype Reply = Answered(answer: Answer) | Error

  datatype Client = Client(enabled: bool, ttl: nat, cache: map<string, Entry>, trips: set<Trip>)

  /** A read of the store: an entry is visible until its time-to-live has passed;
      a time-to-live of zero means it never expires. */
  predicate Visible(c: Client, key: string, now: nat) {
    key in c.cache && c.cache[key].at <= now && (c.ttl == 0 || now < c.cache[key].at + c.ttl)
  }

  function Lookup(c: Client, q: Call): Option<Text> {
    var key := Key(q.op, q.owner, q.name);
    if c.enabled && q.read == Honest && Visible(c, key, q.now) then Some(c.cache[key].text) else None
  }

  /** What a cached text answers; None means fall through to the API. */
  function Decode(op: Op, t: Text): Option<Answer> {
    match op
    case RepoExists => Some(if t == Flag(true) then Found else Absent)
    case LatestRelease =>
      (match t
       case NoRelease => Some(Absent)
       case Json(r) => Some(Latest(r))
       case _ => None)
  }

  function Encode(a: Answer, op: Op): Text {
    match a
    case Found => Flag(true)
    case Absent => if op == RepoExists then Flag(false) else NoRelease
    case Latest(r) => Json(r)
  }

  /** The API's answer to an operation, if the round trip gives one. */
  function Ask(op: Op, h: Http): Option<Answer> {
    match h
    case NotFound => Some(Absent)
    case Ok(body) =>
      if op == RepoExists then Some(Found) else if body.Some? then Some(Latest(body.value)) else None
    case _ => None
  }

  function Cached(c: Client, q: Call): Option<Answer> {
    match Lookup(c, q)
    case Some(t) => Decode(q.op, t)
    case None => None
  }

  function Next(c: Client, q: Call): (Client, Reply) {
    match Cached(c, q)
    case Some(a) => (c, Answered(a))
    case None =>
      var d := c.(trips := c.trips + {Trip(q.op, q.owner, q.name, q.http, q.now)});
      match Ask(q.op, q.http)
      case None => (d, Error)
      case Some(a) =>
        var cache := if c.enabled && q.stored
                     then c.cache[Key(q.op, q.owner, q.name) := Entry(Encode(a, q.op), q.now)] else c.cache;
        (d.(cache := cache), Answered(a))
  }

  function Exec(c: Client, run: seq<Call>): Client {
    if run == [] then c else Next(Exec(c, Front(run)), Last(run)).0
  }

  /** Callers parse the repository name first. */
  predicate Parsed(q: Call) { Name(q.owner) && Name(q.name) }

  /** An entry stands for an answer that the response to exactly that question meant
      when the entry was written. */
  ghost predicate Stands(c: Client, op: Op, owner: string, name: string, e: Entry) {
    exists a, h :: Trip(op, owner, name, h, e.at) in c.trips && e.text == Encode(a, op) && Means(op, h, a)
  }

  ghost predicate CacheInv(c: Client) {
    forall op, owner, name {:trigger Key(op, owner, name)} ::
      Name(owner) && Name(name) && Key(op, owner, name) in c.cache ==> Stands(c, op, owner, name, c.cache[Key(op, owner, name)])
  }

  lemma AskMeans(op: Op, h: Http)
    ensures Ask(op, h).Some? ==> Means(op, h, Ask(op, h).value)
    ensures Ask(op, h).None? ==> forall a :: !Means(op, h, a)
  {
  }

  lemma CacheKept(c: Client, q: Call)
    requires CacheInv(c) && Parsed(q)
    ensures CacheInv(Next(c, q).0) && Next(c, q).0.ttl == c.ttl
  {
    var d := Next(c, q).0;
    AskMeans(q.op, q.http);
    forall op, owner, name | Name(owner) && Name(name) && Key(op, owner, name) in d.cache
      ensures Stands(d, op, owner, name, d.cache[Key(op, owner, name)])
    {
      var key := Key(op, owner, name);
      if key == Key(q.op, q.owner, q.name) {
        KeysNeverCollide(op, owner, name, q.op, q.owner, q.name);
      }
      if d.cache != c.cache && key == Key(q.op, q.owner, q.name) {
        assert Trip(op, owner, name, q.http, q.now) in d.trips;
      } else {
        assert Stands(c, op, owner, name, c.cache[key]);
        var a, h :| Trip(op, owner, name, h, c.cache[key].at) in c.trips && c.cache[key].text == Encode(a, op) && Means(op, h, a);
        assert Trip(op, owner, name, h, d.cache[key].at) in d.trips;
      }
    }
  }

  lemma {:induction false} CacheInvariant(c: Client, run: seq<Call>)
    requires c.cache == map[] && forall q :: q in run ==> Parsed(q)
    ensures CacheInv(Exec(c, run)) && Exec(c, run).ttl == c.ttl
  {
    if run == [] {
    } else {
      CacheInvariant(c, Front(run));
      assert Last(run) in run;
      CacheKept(Exec(c, Front(run)), Last(run));
      assert Exec(c, run) == Next(Exec(c, Front(run)), Last(run)).0;
    }
  }

  /** Bounded staleness: after any calls with any cache and API failures, "exists" is
      answered only from a 200, "absent" only from a 404 and a release only from a 200
      that decoded to it, each for the same question and less than the time-to-live ago;
      an error is returned only if this very round trip gave none of these, and leaves
      the cache untouched. */
  lemma AnswersAreFresh(c: Client, run: seq<Call>, q: Call)
    requires c.cache == map[] && c.ttl > 0 && Parsed(q) && forall p :: p in run ==> Parsed(p)
    ensures var s := Exec(c, run); var (t, reply) := Next(s, q);
      match reply
      case Answered(a) =>
        exists h, at: nat ::
          && Trip(q.op, q.owner, q.name, h, at) in t.trips && at <= q.now && q.now < at + c.ttl
          && (a.Found? ==> q.op == RepoExists && h.Ok?)
          && (a.Absent? ==> h == NotFound)
          && (a.Latest? ==> q.op == LatestRelease && h == Ok(Some(a.rel)))
      case Error =>
        && t.cache == s.cache && (q.http.Broken? || q.http.OtherStatus? || (q.op == LatestRelease && q.http == Ok(None)))
        && Trip(q.op, q.owner, q.name, q.http, q.now) in t.trips
  {
    CacheInvariant(c, run);
    var s := Exec(c, run);
    AskMeans(q.op, q.http);
    if Cached(s, q).Some? {
      var e := s.cache[Key(q.op, q.owner, q.name)];
      assert Stands(s, q.op, q.owner, q.name, e);
      var a, h :| Trip(q.op, q.owner, q.name, h, e.at) in s.trips && e.text == Encode(a, q.op) && Means(q.op, h, a);
      assert Next(s, q).1 == Answered(a);
      assert Trip(q.op, q.owner, q.name, h, e.at) in Next(s, q).0.trips;
    } else {
      assert Trip(q.op, q.owner, q.name, q.http, q.now) in Next(s, q).0.trips;
    }
  }

  /** The bound needs a positive time-to-live: with zero, an answer is served at
      any age although the API now says otherwise. */
  lemma ZeroTtlNeverExpires(age: nat)
    ensures var c := Client(true, 0, map[], {});
      var first := Call(RepoExists, "o", "n", 0, Honest, Ok(None), true);
      var later := Call(RepoExists, "o", "n", age, Honest, NotFound, true);
      Next(Next(c, first).0, later).1 == Answered(Found)
  {
  }

  /** The client object: its cache, and (as history) its round trips. */
  class CachingClient {
    var state: Client

    constructor (enabled: bool, ttl: nat)
      ensures state == Client(enabled, ttl, map[], {})
    {
      state := Client(enabled, ttl, map[], {});
    }

    /** The store's own read: it may fail, or have dropped the entry early. */
    method CacheGet(key: string, now: nat) returns (text: Option<Text>, read: CacheRead)
      ensures text.Some? ==> read == Honest && Visible(state, key, now) && text.value == state.cache[key].text
      ensures text.None? ==> read != Honest || !Visible(state, key, now)
    {
      read := *;
      text := None;
      if read == Honest && key in state.cache {
        var Entry(cached, at) := state.cache[key];
        if at <= now && (state.ttl == 0 || now < at + state.ttl) {
          text := Some(cached);
        }
      }
    }

    /** A hit is an entry that encodes the answer returned; everything else, an entry
        that does not decode included, falls through to the API. */
    method GetCachedRelease(key: string, now: nat) returns (found: Option<Answer>, read: CacheRead)
      ensures found.Some? ==>
        read == Honest && Visible(state, key, now) && !found.value.Found? && state.cache[key].text == Encode(found.value, LatestRelease)
      ensures found.None? && read == Honest && Visible(state, key, now) ==>
        forall a :: state.cache[key].text == Encode(a, LatestRelease) ==> a.Found?
    {
      var text, r := CacheGet(key, now);
      if text.None? {
        return None, r;
      }
      if text.value.NoRelease? {
        return Some(Absent), r;
      }
      if text.value.Json? {
        return Some(Latest(text.value.rel)), r;
      }
      return None, r;
    }

    /** cacheString: best effort, a failed write is only logged. A write that works is
        what every read sees from now on until its time-to-live has passed; no other
        entry, setting or history changes. */
    method CacheString(key: string, text: Text, now: nat) returns (stored: bool)
      modifies this
      ensures state.(cache := old(state).cache) == old(state)
      ensures forall k :: k != key ==> (k in state.cache <==> k in old(state).cache)
      ensures forall k :: k != key && k in state.cache ==> state.cache[k] == old(state).cache[k]
      ensures state.enabled && stored ==>
        && key in state.cache && state.cache[key] == Entry(text, now)
        && forall t: nat :: Visible(state, key, t) <==> now <= t && (state.ttl == 0 || t < now + state.ttl)
      ensures !(state.enabled && stored) ==> state == old(state)
    {
      stored := *;
      if state.enabled && stored {
        state := state.(cache := state.cache[key := Entry(text, now)]);
      }
    }

    /** Cached or asked: on a miss a 404 answers absent, a 200 that it exists, anything
        else is an error. */
    method RepoExistsCall(owner: string, name: string, now: nat) returns (reply: Reply, ghost q: Call)
      modifies this
      ensures q.op == RepoExists && q.owner == owner && q.name == name && q.now == now
      ensures (state, reply) == Next(old(state), q)
      ensures Cached(old(state), q).None? ==>
        match q.http
        case NotFound => reply == Answered(Absent)
        case Ok(_) => reply == Answered(Found)
        case _ => reply == Error
    {
      ghost var before := state.cache;
      var key := Key(RepoExists, owner, name);
      q := Call(RepoExists, owner, name, now, Evicted, Broken, false);
      if state.enabled {
        var text, read := CacheGet(key, now);
        q := q.(read := read);
        if text.Some? {
          return Answered(if text.value == Flag(true) then Found else Absent), q;
        }
      }
      var http := RoundTrip(RepoExists, owner, name, now);
      q := q.(http := http);
      if http.NotFound? {
        var stored := CacheString(key, Flag(false), now);
        assert state.cache == if state.enabled && stored then before[key := Entry(Flag(false), now)] else before;
        return Answered(Absent), q.(stored := stored);
      }
      if !http.Ok? {
        return Error, q;
      }
      var stored := CacheString(key, Flag(true), now);
      assert state.cache == if state.enabled && stored then before[key := Entry(Flag(true), now)] else before;
      return Answered(Found), q.(stored := stored);
    }

    /** The same for the latest release: on a miss a 404 answers absent, a 200 the
        release it decodes to, anything else is an error. */
    method GetLatestRelease(owner: string, name: string, now: nat) returns (reply: Reply, ghost q: Call)
      modifies this
      ensures q.op == LatestRelease && q.owner == owner && q.name == name && q.now == now
      ensures (state, reply) == Next(old(state), q)
      ensures Cached(old(state), q).None? ==>
        match q.http
        case NotFound => reply == Answered(Absent)
        case Ok(Some(r)) => reply == Answered(Latest(r))
        case _ => reply == Error
    {
      ghost var before := state.cache;
      var key := Key(LatestRelease, owner, name);
      q := Call(LatestRelease, owner, name, now, Evicted, Broken, false);
      if state.enabled {
        var found, read := GetCachedRelease(key, now);
        q := q.(read := read);
        if found.Some? {
          return Answered(found.value), q;
        }
        assert Encode(Absent, LatestRelease) == NoRelease;
        assert key in state.cache && state.cache[key].text.Json? ==>
          state.cache[key].text == Encode(Latest(state.cache[key].text.rel), LatestRelease);
      }
      var http := RoundTrip(LatestRelease, owner, name, now);
      q := q.(http := http);
      if http.NotFound? {
        var stored := CacheString(key, NoRelease, now);
        assert state.cache == if state.enabled && stored then before[key := Entry(NoRelease, now)] else before;
        return Answered(Absent), q.(stored := stored);
      }
      if !http.Ok? || http.body.None? {
        return Error, q;
      }
      var stored := CacheString(key, Json(http.body.value), now);
      assert state.cache == if state.enabled && stored then before[key := Entry(Json(http.body.value), now)] else before;
      return Answered(Latest(http.body.value)), q.(stored := stored);
    }

    /** One request to the API, whatever it answers. */
    method RoundTrip(op: Op, owner: string, name: string, now: nat) returns (http: Http)
      modifies this
      ensures state == old(state).(trips := old(state).trips + {Trip(op, owner, name, http, now)})
    {
      http := *;
      state := state.(trips := state.trips + {Trip(op, owner, name, http, now)});
    }
  }
}

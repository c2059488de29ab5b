/** The accounting of the mailer: one slot per message, one outcome per recipient. */
module Mailer {
  import opened Types

  datatype Notification = Notification(to: Email, rel: Release, url: Url, token: Token)
  datatype BatchResult = BatchResult(sent: nat, failed: seq<Email>)

  function CountTrue(ok: seq<bool>): nat {
    if ok == [] then 0 else CountTrue(Front(ok)) + if Last(ok) then 1 else 0
  }

  /** The items whose flag is set. */
  function Pick<T>(xs: seq<T>, ok: seq<bool>): seq<T>
    requires |xs| == |ok|
  {
    if xs == [] then []
    else if Last(ok) then Pick(Front(xs), Front(ok)) + [Last(xs)]
    else Pick(Front(xs), Front(ok))
  }

  /** The items whose flag is not set. */
  function Miss<T>(xs: seq<T>, ok: seq<bool>): seq<T>
    requires |xs| == |ok|
  {
    if xs == [] then []
    else if Last(ok) then Miss(Front(xs), Front(ok))
    else Miss(Front(xs), Front(ok)) + [Last(xs)]
  }

  function Tos(ns: seq<Notification>): (r: seq<Email>)
    ensures |r| == |ns| && forall i :: 0 <= i < |ns| ==> r[i] == ns[i].to
  {
    seq(|ns|, i requires 0 <= i < |ns| => ns[i].to)
  }

  /** A message succeeds if it was built and its slot in the batch has no error. */
  function Merge(built: seq<bool>, slots: seq<bool>): (r: seq<bool>)
    requires |slots| == CountTrue(built)
    ensures |r| == |built|
    decreases |built|
  {
    if built == [] then []
    else if Last(built) then Merge(Front(built), Front(slots)) + [Last(slots)]
    else Merge(Front(built), slots) + [false]
  }

  lemma {:induction false} Lengths<T>(xs: seq<T>, ok: seq<bool>)
    requires |xs| == |ok|
    ensures |Pick(xs, ok)| == CountTrue(ok) && |Miss(xs, ok)| + CountTrue(ok) == |xs|
  {
    if xs != [] { Lengths(Front(xs), Front(ok)); }
  }

  lemma PickSnoc<T>(xs: seq<T>, ok: seq<bool>, x: T, b: bool)
    requires |xs| == |ok|
    ensures Pick(xs + [x], ok + [b]) == if b then Pick(xs, ok) + [x] else Pick(xs, ok)
    ensures Miss(xs + [x], ok + [b]) == if b then Miss(xs, ok) else Miss(xs, ok) + [x]
    ensures CountTrue(ok + [b]) == CountTrue(ok) + if b then 1 else 0
  {
  }

  lemma MergeSnoc(built: seq<bool>, b: bool, slots: seq<bool>)
    requires |slots| == CountTrue(built + [b])
    ensures CountTrue(built + [b]) == CountTrue(built) + if b then 1 else 0
    ensures Merge(built + [b], slots) ==
            if b then Merge(built, Front(slots)) + [Last(slots)] else Merge(built, slots) + [false]
  {
  }

  /** Merging loses nobody: the successes are the error-free slots ... */
  lemma {:induction false} MergePicks<T>(xs: seq<T>, built: seq<bool>, slots: seq<bool>)
    requires |xs| == |built| && |slots| == CountTrue(built)
    ensures CountTrue(Merge(built, slots)) == CountTrue(slots)
    ensures |Pick(xs, built)| == |slots| && Pick(xs, Merge(built, slots)) == Pick(Pick(xs, built), slots)
    decreases |built|
  {
    if built == [] {
      return;
    }
    var ys, x, b, f := Front(xs), Last(xs), Front(built), Last(built);
    assert xs == ys + [x] && built == b + [f];
    MergeSnoc(b, f, slots);
    PickSnoc(ys, b, x, f);
    if f {
      var s, l := Front(slots), Last(slots);
      assert slots == s + [l];
      MergePicks(ys, b, s);
      PickSnoc(Pick(ys, b), s, x, l);
      PickSnoc(ys, Merge(b, s), x, l);
    } else {
      MergePicks(ys, b, slots);
      PickSnoc(ys, Merge(b, slots), x, false);
    }
  }

  /** ... and the failures are the unbuilt messages and the slots with errors. */
  lemma MergeMisses<T>(xs: seq<T>, built: seq<bool>, slots: seq<bool>)
    requires |xs| == |built| && |slots| == CountTrue(built)
    ensures |Pick(xs, built)| == |slots|
    ensures multiset(Miss(xs, Merge(built, slots))) == multiset(Miss(xs, built)) + multiset(Miss(Pick(xs, built), slots))
  {
    var m := Merge(built, slots);
    MergePicks(xs, built, slots);
    PartitionAll(xs, m);
    PartitionAll(xs, built);
    PartitionAll(Pick(xs, built), slots);
    Cancel(multiset(Miss(xs, m)), multiset(Miss(xs, built)) + multiset(Miss(Pick(xs, built), slots)), multiset(Pick(xs, m)));
  }

  lemma Cancel<T>(a: multiset<T>, b: multiset<T>, c: multiset<T>)
    requires a + c == b + c
    ensures a == b
  {
    assert a == (a + c) - c && b == (b + c) - c;
  }

  lemma PickNext<T>(xs: seq<T>, i: nat, ok: seq<bool>, b: bool)
    requires i < |xs| && |ok| == i
    ensures Pick(xs[..i + 1], ok + [b]) == if b then Pick(xs[..i], ok) + [xs[i]] else Pick(xs[..i], ok)
    ensures Miss(xs[..i + 1], ok + [b]) == if b then Miss(xs[..i], ok) else Miss(xs[..i], ok) + [xs[i]]
    ensures CountTrue(ok + [b]) == CountTrue(ok) + if b then 1 else 0
  {
    assert xs[..i + 1] == xs[..i] + [xs[i]];
    PickSnoc(xs[..i], ok, xs[i], b);
  }

  lemma Balance<T>(xs: seq<T>, ok: seq<bool>, failed: seq<T>)
    requires |xs| == |ok| && multiset(failed) == multiset(Miss(xs, ok))
    ensures CountTrue(ok) + |failed| == |xs|
  {
    Lengths(xs, ok);
    assert |multiset(failed)| == |multiset(Miss(xs, ok))|;
  }

  class Mailer {
    var accepted: seq<Notification>  // history: messages the SMTP server took without error
    ghost var reported: seq<Notification>  // history: messages a caller was told went out

    constructor ()
      ensures accepted == [] && reported == []
    {
      accepted, reported := [], [];
    }

    /** One error slot per message (`false` is an error); a failed dial fills them all. */
    method SendBatch(messages: seq<Notification>) returns (slots: array<bool>)
      modifies this`accepted
      ensures fresh(slots) && slots.Length == |messages|
      ensures accepted == old(accepted) + Pick(messages, slots[..])
    {
      slots := new bool[|messages|](_ => true);
      var dialed: bool := *;
      if dialed {
        SendEach(messages, slots);
      } else {
        for i := 0 to slots.Length
          invariant forall k :: 0 <= k < i ==> !slots[k]
          invariant accepted == old(accepted)
        {
          slots[i] := false;
        }
        PickNone(messages, slots[..]);
        assert accepted + [] == accepted;
      }
    }

    method SendEach(messages: seq<Notification>, slots: array<bool>)
      requires slots.Length == |messages| && forall k :: 0 <= k < slots.Length ==> slots[k]
      modifies this`accepted, slots
      ensures accepted == old(accepted) + Pick(messages, slots[..])
    {
      for i := 0 to slots.Length
        invariant forall k :: i <= k < slots.Length ==> slots[k]
        invariant accepted == old(accepted) + Pick(messages[..i], slots[..i])
      {
        var sent: bool := *;
        ghost var before := slots[..i];
        if sent {
          accepted := accepted + [messages[i]];
        } else {
          slots[i] := false;
        }
        PickNext(messages, i, before, sent);
        assert slots[..i + 1] == before + [sent];
      }
      assert messages[..slots.Length] == messages && slots[..slots.Length] == slots[..];
    }

    /** Renders and addresses each message; the ones that cannot be built have failed. */
    method BuildAll(ns: seq<Notification>)
      returns (messages: seq<Notification>, recipients: seq<Email>, failed: seq<Email>, ghost built: seq<bool>)
      ensures |built| == |ns| && messages == Pick(ns, built)
      ensures recipients == Pick(Tos(ns), built) && failed == Miss(Tos(ns), built)
    {
      messages, recipients, failed, built := [], [], [], [];
      for i := 0 to |ns|
        invariant |built| == i && messages == Pick(ns[..i], built)
        invariant recipients == Pick(Tos(ns)[..i], built)
        invariant failed == Miss(Tos(ns)[..i], built)
      {
        var buildable: bool := *;
        PickNext(ns, i, built, buildable);
        PickNext(Tos(ns), i, built, buildable);
        built := built + [buildable];
        if !buildable {
          failed := failed + [ns[i].to];
          continue;
        }
        messages, recipients := messages + [ns[i]], recipients + [ns[i].to];
      }
      assert ns[..|ns|] == ns && Tos(ns)[..|ns|] == Tos(ns);
    }

    /** Reads the batch's slots back into a count and a list of failures. */
    method Tabulate(slots: array<bool>, recipients: seq<Email>) returns (sent: nat, failed: seq<Email>)
      requires slots.Length == |recipients|
      ensures sent == CountTrue(slots[..]) && failed == Miss(recipients, slots[..])
    {
      sent, failed := 0, [];
      for i := 0 to slots.Length
        invariant sent == CountTrue(slots[..i]) && failed == Miss(recipients[..i], slots[..i])
      {
        PickNext(recipients, i, slots[..i], slots[i]);
        assert slots[..i + 1] == slots[..i] + [slots[i]];
        if slots[i] {
          sent := sent + 1;
        } else {
          failed := failed + [recipients[i]];
        }
      }
      assert slots[..slots.Length] == slots[..] && recipients[..slots.Length] == recipients;
    }

    /** For every pattern of build errors, cancellations and send errors there is one
        outcome per notification: `ok` tells which went out, `sent` counts them,
        `failed` names the others; everything counted as sent was accepted, and nothing
        was but these notifications. */
    method SendReleaseNotifications(ns: seq<Notification>) returns (r: BatchResult, ghost ok: seq<bool>)
      modifies this
      ensures |ok| == |ns| && r.sent == CountTrue(ok)
      ensures multiset(r.failed) == multiset(Miss(Tos(ns), ok))
      ensures r.sent + |r.failed| == |ns|
      ensures old(accepted) <= accepted
      ensures forall n :: n in Pick(ns, ok) ==> n in accepted[|old(accepted)|..]
      ensures forall n :: n in accepted[|old(accepted)|..] ==> n in ns
      ensures reported == old(reported) + Pick(ns, ok)
    {
      var messages, recipients, failed, built := BuildAll(ns);
      Lengths(ns, built);
      Lengths(Tos(ns), built);
      PickWithin(ns, built);
      if |messages| == 0 {
        assert reported + [] == reported;
        return BatchResult(0, failed), built;
      }
      var queued: bool := *;
      if !queued {
        ok := GiveUp(ns, built, failed, recipients);
        assert reported + [] == reported;
        return BatchResult(0, failed + recipients), ok;
      }
      var slots := SendBatch(messages);
      PickWithin(messages, slots[..]);
      assert accepted[|old(accepted)|..] == Pick(messages, slots[..]);
      var awaited: bool := *;
      if !awaited {
        ok := GiveUp(ns, built, failed, recipients);
        assert reported + [] == reported;
        return BatchResult(0, failed + recipients), ok;
      }
      var sent, lost := Tabulate(slots, recipients);
      ok := Merge(built, slots[..]);
      MergePicks(ns, built, slots[..]);
      MergeMisses(Tos(ns), built, slots[..]);
      assert accepted[|old(accepted)|..] == Pick(ns, ok);
      reported := reported + Pick(ns, ok);
      Balance(Tos(ns), ok, failed + lost);
      r := BatchResult(sent, failed + lost);
    }

    method DeliverConfirmation(n: Notification) returns (err: bool)
      modifies this
      ensures old(accepted) <= accepted <= old(accepted) + [n]
      ensures !err ==> accepted == old(accepted) + [n]
      ensures reported == if err then old(reported) else old(reported) + [n]
    {
      var buildable: bool, queued: bool := *, *;
      if !buildable || !queued {
        return true;
      }
      var slots := SendBatch([n]);
      var awaited: bool := *;
      err := !awaited || !slots[0];
      PickOne(n, slots[..]);
      if !err { reported := reported + [n]; }
    }
  }

  lemma {:induction false} PickWithin<T>(xs: seq<T>, ok: seq<bool>)
    requires |xs| == |ok|
    ensures forall x :: x in Pick(xs, ok) ==> x in xs
  {
    if xs != [] { PickWithin(Front(xs), Front(ok)); }
  }

  lemma PickOne<T>(x: T, ok: seq<bool>)
    requires |ok| == 1
    ensures Pick([x], ok) == if ok[0] then [x] else []
    ensures CountTrue(ok) == if ok[0] then 1 else 0
  {
    assert Front([x]) == [] && Front(ok) == [];
  }

  lemma {:induction false} PickNone<T>(xs: seq<T>, ok: seq<bool>)
    requires |xs| == |ok| && forall i :: 0 <= i < |ok| ==> !ok[i]
    ensures Pick(xs, ok) == [] && CountTrue(ok) == 0
  {
    if xs != [] { PickNone(Front(xs), Front(ok)); }
  }

  /** A batch that was not queued, or whose result was not awaited, counts every
      recipient as failed. */
  lemma GiveUp(ns: seq<Notification>, built: seq<bool>, failed: seq<Email>, recipients: seq<Email>) returns (ok: seq<bool>)
    requires |built| == |ns|
    requires failed == Miss(Tos(ns), built) && recipients == Pick(Tos(ns), built)
    ensures |ok| == |ns| && CountTrue(ok) == 0 && Pick(ns, ok) == []
    ensures multiset(failed + recipients) == multiset(Miss(Tos(ns), ok))
    ensures |failed + recipients| == |ns|
  {
    ok := seq(|ns|, _ => false);
    PickNone(ns, ok);
    Lengths(Tos(ns), built);
    PartitionAll(Tos(ns), built);
    MissAll(Tos(ns), ok);
  }

  lemma {:induction false} PartitionAll<T>(xs: seq<T>, ok: seq<bool>)
    requires |xs| == |ok|
    ensures multiset(Miss(xs, ok)) + multiset(Pick(xs, ok)) == multiset(xs)
  {
    if xs != [] {
      PartitionAll(Front(xs), Front(ok));
      PartitionStep(Miss(Front(xs), Front(ok)), Pick(Front(xs), Front(ok)), Front(xs), Last(xs), Last(ok));
      assert xs == Front(xs) + [Last(xs)];
    }
  }

  lemma PartitionStep<T>(m: seq<T>, p: seq<T>, ys: seq<T>, x: T, f: bool)
    requires multiset(m) + multiset(p) == multiset(ys)
    ensures multiset(if f then m else m + [x]) + multiset(if f then p + [x] else p) == multiset(ys + [x])
  {
  }

  lemma {:induction false} MissAll<T>(xs: seq<T>, ok: seq<bool>)
    requires |xs| == |ok| && forall i :: 0 <= i < |ok| ==> !ok[i]
    ensures Miss(xs, ok) == xs
  {
    if xs != [] {
      MissAll(Front(xs), Front(ok));
      assert xs == Front(xs) + [Last(xs)];
    }
  }
}

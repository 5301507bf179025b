/** The streaming loop of the aggregator: tasks awaited in completion order,
    each finished task's record serialized and followed by a newline. */
module Stream {
  import opened Outcomes
  import opened Planner
  import opened Dispatch

  /** How a task's coroutine ended: its probe replied with a body, or the
      request raised. */
  datatype Completion = Replied(body: string) | Raised(reason: string)

  /** The task indices `0, 1, ..., n - 1`. */
  function Indices(n: nat): seq<nat>
  {
    seq(n, i => i)
  }

  /** `order` lists the indices of `n` tasks in the order they completed:
      each index exactly once. */
  predicate IsCompletionOrder(order: seq<nat>, n: nat)
  {
    multiset(order) == multiset(Indices(n))
  }

  /** A completion order names every task once and nothing else. */
  lemma CompletionOrderCovers(order: seq<nat>, n: nat)
    requires IsCompletionOrder(order, n)
    ensures |order| == n
    ensures forall j :: 0 <= j < |order| ==> order[j] < n
    ensures forall i :: 0 <= i < n ==> i in order
  {
    calc {
      |order|;
      |multiset(order)|;
      |multiset(Indices(n))|;
      n;
    }
    forall j | 0 <= j < |order|
      ensures order[j] < n
    {
      assert order[j] in multiset(order);
      assert order[j] in multiset(Indices(n));
    }
    forall i | 0 <= i < n
      ensures i in order
    {
      assert Indices(n)[i] == i;
      assert i in multiset(Indices(n));
      assert i in multiset(order);
    }
  }

  /** The serialized record of task `i`, whose probe replied. */
  function ResultLine(tasks: seq<Task>, completions: seq<Completion>, encode: LatencyResponse -> string, i: nat): string
    requires |completions| == |tasks| && i < |tasks| && completions[i].Replied?
  {
    encode(Tag(tasks[i], completions[i].body))
  }

  /** Every task's probe replied. */
  predicate AllReplied(completions: seq<Completion>)
  {
    forall i :: 0 <= i < |completions| ==> completions[i].Replied?
  }

  /** The serialized records in task order, when every probe replied. */
  function ResultLines(tasks: seq<Task>, completions: seq<Completion>, encode: LatencyResponse -> string): seq<string>
    requires |completions| == |tasks| && AllReplied(completions)
  {
    seq(|tasks|, i requires 0 <= i < |tasks| => ResultLine(tasks, completions, encode, i))
  }

  /** The response body: every record followed by one newline. */
  function Frame(records: seq<string>): string
  {
    if records == [] then [] else records[0] + "\n" + Frame(records[1..])
  }

  /** Yielding one more record extends the body sent so far by that record
      and its newline, so `Frame` is the concatenation of the yields. */
  lemma {:induction false} FrameAppend(records: seq<string>, r: string)
    ensures Frame(records + [r]) == Frame(records) + r + "\n"
  {
    if records == [] {
      assert records + [r] == [r];
    } else {
      assert (records + [r])[0] == records[0];
      assert (records + [r])[1..] == records[1..] + [r];
      FrameAppend(records[1..], r);
    }
  }

  /** The position of the first newline of `s`, or `|s|` if there is none. */
  function NewlineIndex(s: string): (k: nat)
    ensures k <= |s|
    ensures forall i :: 0 <= i < k ==> s[i] != '\n'
    ensures k < |s| ==> s[k] == '\n'
  {
    if s == [] then 0
    else if s[0] == '\n' then 0
    else 1 + NewlineIndex(s[1..])
  }

  /** How a client reads a newline-delimited JSON stream: one record per
      line, a trailing fragment without newline counting as a last record. */
  function SplitLines(s: string): seq<string>
    decreases |s|
  {
    if s == [] then []
    else
      var k := NewlineIndex(s);
      if k == |s| then [s] else [s[..k]] + SplitLines(s[k + 1..])
  }

  predicate NoNewlines(records: seq<string>)
  {
    forall j :: 0 <= j < |records| ==> '\n' !in records[j]
  }

  /** A newline-free line followed by a newline splits off as one record. */
  lemma SplitFirstLine(r: string, rest: string)
    requires '\n' !in r
    ensures SplitLines(r + "\n" + rest) == [r] + SplitLines(rest)
  {
    var s := r + "\n" + rest;
    assert forall i :: 0 <= i < |r| ==> r[i] in r;
    assert forall i :: 0 <= i < |r| ==> s[i] == r[i];
    assert s[|r|] == '\n';
    assert NewlineIndex(s) == |r|;
    assert s[..|r|] == r;
    assert s[|r| + 1..] == rest;
  }

  /** A client splitting the body at newlines gets back exactly the records,
      provided no record contains a raw newline (JSON escapes it). */
  lemma {:induction false} FramingRoundTrip(records: seq<string>)
    requires NoNewlines(records)
    ensures SplitLines(Frame(records)) == records
  {
    if records != [] {
      SplitFirstLine(records[0], Frame(records[1..]));
      FramingRoundTrip(records[1..]);
      assert records == [records[0]] + records[1..];
    }
  }

  /** The image of a sequence of task indices under `f`. */
  function Apply<T>(f: nat -> T, s: seq<nat>): seq<T>
  {
    seq(|s|, j requires 0 <= j < |s| => f(s[j]))
  }

  /** Removing position `k` removes one occurrence of `t[k]`. */
  lemma RemoveAt<T>(t: seq<T>, k: nat)
    requires k < |t|
    ensures multiset(t[..k] + t[k + 1..]) == multiset(t) - multiset{t[k]}
  {
    assert t == t[..k] + [t[k]] + t[k + 1..];
    assert multiset(t) == multiset(t[..k]) + multiset{t[k]} + multiset(t[k + 1..]);
  }

  /** The images of `t` are those of `t` without position `k`, plus the
      image of `t[k]`. */
  lemma ApplyRemoveAt<T>(f: nat -> T, t: seq<nat>, k: nat)
    requires k < |t|
    ensures multiset(Apply(f, t)) == multiset(Apply(f, t[..k] + t[k + 1..])) + multiset{f(t[k])}
  {
    var a := Apply(f, t);
    assert Apply(f, t[..k] + t[k + 1..]) == a[..k] + a[k + 1..];
    RemoveAt(a, k);
  }

  lemma ApplyCons<T>(f: nat -> T, s: seq<nat>)
    requires s != []
    ensures multiset(Apply(f, s)) == multiset(Apply(f, s[1..])) + multiset{f(s[0])}
  {
    assert Apply(f, s) == [f(s[0])] + Apply(f, s[1..]);
  }

  /** Where the first element of `s` sits in a reordering `t` of it. */
  lemma PickFirst(s: seq<nat>, t: seq<nat>) returns (k: nat)
    requires s != [] && multiset(s) == multiset(t)
    ensures k < |t| && t[k] == s[0]
    ensures multiset(s[1..]) == multiset(t[..k] + t[k + 1..])
  {
    assert s[0] in multiset(s);
    assert s[0] in t;
    k :| 0 <= k < |t| && t[k] == s[0];
    assert s[..0] + s[1..] == s[1..];
    RemoveAt(s, 0);
    RemoveAt(t, k);
  }

  /** Reordering indices reorders their images: equal multisets of indices
      have equal multisets of images. */
  lemma {:induction false} ApplyPreservesMultiset<T>(f: nat -> T, s: seq<nat>, t: seq<nat>)
    requires multiset(s) == multiset(t)
    ensures multiset(Apply(f, s)) == multiset(Apply(f, t))
    decreases |s|
  {
    if s == [] {
      assert |t| == |multiset(t)| == 0;
    } else {
      var k := PickFirst(s, t);
      var t' := t[..k] + t[k + 1..];
      ApplyPreservesMultiset(f, s[1..], t');
      ApplyRemoveAt(f, t, k);
      ApplyCons(f, s);
    }
  }

  /** Records drained for every task of a completion order, each from a
      probe that replied, are a permutation of all tasks' records. */
  lemma DrainedAll(tasks: seq<Task>, completions: seq<Completion>, order: seq<nat>,
                   encode: LatencyResponse -> string, records: seq<string>)
    requires |completions| == |tasks| && IsCompletionOrder(order, |tasks|)
    requires |records| == |order|
    requires forall k :: 0 <= k < |order| ==>
               order[k] < |tasks| && completions[order[k]].Replied?
               && records[k] == ResultLine(tasks, completions, encode, order[k])
    ensures AllReplied(completions)
    ensures multiset(records) == multiset(ResultLines(tasks, completions, encode))
  {
    CompletionOrderCovers(order, |tasks|);
    forall i | 0 <= i < |completions|
      ensures completions[i].Replied?
    {
      assert i in order;
      var k :| 0 <= k < |order| && order[k] == i;
    }
    var line := (i: nat) => if i < |tasks| && completions[i].Replied? then ResultLine(tasks, completions, encode, i) else "";
    ApplyPreservesMultiset(line, order, Indices(|tasks|));
    assert records == Apply(line, order);
    assert ResultLines(tasks, completions, encode) == Apply(line, Indices(|tasks|));
  }

  /** Each record is that of the task completing at its position in
      `order`, and that task replied. */
  predicate InCompletionOrder(records: seq<string>, tasks: seq<Task>, completions: seq<Completion>,
                              encode: LatencyResponse -> string, order: seq<nat>)
    requires |completions| == |tasks|
  {
    forall j :: 0 <= j < |records| ==>
      j < |order| && order[j] < |tasks| && completions[order[j]].Replied?
      && records[j] == ResultLine(tasks, completions, encode, order[j])
  }

  /** The stream stopped at the task completing right after the last
      record, and that task raised `reason`. */
  predicate StoppedAtRaise(records: seq<string>, completions: seq<Completion>, order: seq<nat>, reason: string)
  {
    |records| < |order| && order[|records|] < |completions| && completions[order[|records|]] == Raised(reason)
  }

  /** Drains the tasks in completion order `order`, the way the handler's
      `as_completed` loop does: each replied task yields its serialized
      record (the body sent is `Frame(records)`); the first task that raised ends the stream with
      its exception and no record of its own. When every probe replies,
      `DrainedAll` shows the records are a permutation of the tasks' records. */
  method Drain(tasks: seq<Task>, completions: seq<Completion>, order: seq<nat>, encode: LatencyResponse -> string)
    returns (records: seq<string>, failure: Option<string>)
    requires |completions| == |tasks|
    requires IsCompletionOrder(order, |tasks|)
    ensures |records| <= |tasks|
    ensures InCompletionOrder(records, tasks, completions, encode, order)
    ensures failure.None? <==> AllReplied(completions)
    ensures failure.None? ==> |records| == |tasks|
    ensures failure.Some? ==> StoppedAtRaise(records, completions, order, failure.value)
  {
    CompletionOrderCovers(order, |tasks|);
    records, failure := [], None;
    var j := 0;
    while j < |order|
      invariant 0 <= j <= |order|
      invariant |records| == j
      invariant forall k :: 0 <= k < j ==>
                  completions[order[k]].Replied?
                  && records[k] == ResultLine(tasks, completions, encode, order[k])
    {
      var i := order[j];
      if completions[i].Raised? {
        failure := Some(completions[i].reason);
        return;
      }
      records := records + [ResultLine(tasks, completions, encode, i)];
      j := j + 1;
    }
    DrainedAll(tasks, completions, order, encode, records);
  }
}

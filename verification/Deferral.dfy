/** Reports that fall into a transport-quiet window wait in a short queue that drops its oldest entry when it
    overruns. This is the queue, and what the receiver sees of the reports that go through it. */
module Deferral {
  import opened Words

  /** enqueue_pending_*: the oldest entry makes room. */
  function Defer<T>(q: seq<T>, depth: nat, x: T): (r: seq<T>)
    requires 0 < depth
    ensures |r| == Min(|q| + 1, depth) && r[|r| - 1] == x
  {
    (if |q| < depth then q else q[|q| - depth + 1..]) + [x]
  }

  /** `sent` was handed to a transport that was not quiet, `pending` waits. */
  datatype Lane<T> = Lane(sent: seq<T>, pending: seq<T>)

  datatype LaneOp<T> =
    | Report(x: T, quiet: bool)   // a new report
    | Serve(quiet: bool)          // the retry work runs
    | Clean                       // the endpoint was deactivated

  function LaneStep<T>(depth: nat, l: Lane<T>, op: LaneOp<T>): (r: Lane<T>)
    requires 0 < depth
    ensures |l.pending| <= depth ==> |r.pending| <= depth
  {
    match op
    case Report(x, quiet) =>
      if quiet then Lane(l.sent, Defer(l.pending, depth, x)) else Lane(l.sent + l.pending + [x], [])
    case Serve(quiet) => if quiet then l else Lane(l.sent + l.pending, [])
    case Clean => Lane(l.sent, [])
  }

  function LaneRun<T>(depth: nat, ops: seq<LaneOp<T>>): (r: Lane<T>)
    requires 0 < depth
    ensures |r.pending| <= depth
  {
    if ops == [] then Lane([], []) else LaneStep(depth, LaneRun(depth, ops[..|ops| - 1]), ops[|ops| - 1])
  }

  /** What reaches the receiver once the queue has drained. */
  function Stream<T>(l: Lane<T>): seq<T> {
    l.sent + l.pending
  }

  /** Every report there was. */
  function History<T>(ops: seq<LaneOp<T>>): seq<T> {
    if ops == [] then []
    else
      var before := History(ops[..|ops| - 1]);
      if ops[|ops| - 1].Report? then before + [ops[|ops| - 1].x] else before
  }

  // ----- Exactly what is kept -----

  /** The reports since the lane was last served or cleaned: the open window. */
  function Open<T>(ops: seq<LaneOp<T>>): seq<T> {
    if ops == [] then []
    else
      var before := Open(ops[..|ops| - 1]);
      match ops[|ops| - 1]
      case Report(x, quiet) => if quiet then before + [x] else []
      case Serve(quiet) => if quiet then before else []
      case Clean => []
  }

  function Newest<T>(s: seq<T>, n: nat): seq<T> {
    if |s| <= n then s else s[|s| - n..]
  }

  /** The newest `depth` reports of every window that was served, in order, with the reports that were never
      deferred. */
  function Closed<T>(depth: nat, ops: seq<LaneOp<T>>): seq<T> {
    if ops == [] then []
    else
      var before := ops[..|ops| - 1];
      match ops[|ops| - 1]
      case Report(x, quiet) =>
        if quiet then Closed(depth, before) else Closed(depth, before) + Newest(Open(before), depth) + [x]
      case Serve(quiet) =>
        if quiet then Closed(depth, before) else Closed(depth, before) + Newest(Open(before), depth)
      case Clean => Closed(depth, before)
  }

  lemma DeferKeepsNewest<T>(window: seq<T>, depth: nat, x: T)
    requires 0 < depth
    ensures Defer(Newest(window, depth), depth, x) == Newest(window + [x], depth)
  {
  }

  /** The bounded queue keeps exactly the newest `depth` reports of each window, in order. */
  lemma {:induction false} QueueKeepsNewest<T>(depth: nat, ops: seq<LaneOp<T>>)
    requires 0 < depth
    ensures LaneRun(depth, ops) == Lane(Closed(depth, ops), Newest(Open(ops), depth))
  {
    if ops != [] {
      var before := ops[..|ops| - 1];
      QueueKeepsNewest(depth, before);
      if ops[|ops| - 1].Report? {
        DeferKeepsNewest(Open(before), depth, ops[|ops| - 1].x);
      }
    }
  }

  // ----- An in-order subsequence of the history -----

  predicate Subsequence<T(==)>(a: seq<T>, b: seq<T>)
    decreases |b|
  {
    a == [] ||
    (b != [] &&
     ((a[|a| - 1] == b[|b| - 1] && Subsequence(a[..|a| - 1], b[..|b| - 1])) || Subsequence(a, b[..|b| - 1])))
  }

  lemma SubsequenceGrows<T>(a: seq<T>, b: seq<T>, x: T)
    requires Subsequence(a, b)
    ensures Subsequence(a, b + [x]) && Subsequence(a + [x], b + [x])
  {
    assert (b + [x])[..|b|] == b && (a + [x])[..|a|] == a;
  }

  lemma {:induction false} SubsequenceWithout<T>(a: seq<T>, b: seq<T>, i: nat)
    requires Subsequence(a, b) && i < |a|
    ensures Subsequence(a[..i] + a[i + 1..], b)
    decreases |b|
  {
    var a', b' := a[..|a| - 1], b[..|b| - 1];
    var w := a[..i] + a[i + 1..];
    if a[|a| - 1] == b[|b| - 1] && Subsequence(a', b') {
      if i < |a| - 1 {
        SubsequenceWithout(a', b', i);
        assert w[|w| - 1] == a[|a| - 1] && w[..|w| - 1] == a'[..i] + a'[i + 1..];
      } else {
        assert w == a';
        assert Subsequence(w, b');
      }
    } else {
      SubsequenceWithout(a, b', i);
    }
  }

  lemma {:induction false} SubsequencePrefix<T>(a: seq<T>, b: seq<T>, n: nat)
    requires Subsequence(a, b) && n <= |a|
    ensures Subsequence(a[..n], b)
    decreases |a|
  {
    if n < |a| {
      SubsequenceWithout(a, b, |a| - 1);
      assert a[..|a| - 1] + a[|a|..] == a[..|a| - 1];
      SubsequencePrefix(a[..|a| - 1], b, n);
      assert a[..|a| - 1][..n] == a[..n];
    } else {
      assert a[..n] == a;
    }
  }

  lemma {:induction false} SubsequenceLength<T>(a: seq<T>, b: seq<T>)
    requires Subsequence(a, b)
    ensures |a| <= |b| && (|a| == |b| ==> a == b)
    decreases |b|
  {
    if a != [] {
      var a', b' := a[..|a| - 1], b[..|b| - 1];
      if a[|a| - 1] == b[|b| - 1] && Subsequence(a', b') {
        SubsequenceLength(a', b');
        assert a == a' + [a[|a| - 1]] && b == b' + [b[|b| - 1]];
      } else {
        SubsequenceLength(a, b');
      }
    }
  }

  lemma OldestDropped<T>(sent: seq<T>, q: seq<T>, x: T, h: seq<T>)
    requires q != [] && Subsequence(sent + q + [x], h)
    ensures Subsequence(sent + (q[1..] + [x]), h)
  {
    var a, n := sent + q + [x], |sent|;
    SubsequenceWithout(a, h, n);
    assert a[..n] + a[n + 1..] == sent + (q[1..] + [x]);
  }

  lemma DeferredStream<T>(depth: nat, l: Lane<T>, x: T, h: seq<T>)
    requires 0 < depth && |l.pending| <= depth && Subsequence(Stream(l), h)
    ensures Subsequence(l.sent + Defer(l.pending, depth, x), h + [x])
  {
    SubsequenceGrows(Stream(l), h, x);
    if |l.pending| == depth {
      OldestDropped(l.sent, l.pending, x, h + [x]);
    } else {
      assert Stream(l) + [x] == l.sent + (l.pending + [x]);
    }
  }

  /** What was handed over followed by what waits is an in-order subsequence of the reports. */
  lemma {:induction false} StreamFollowsHistory<T>(depth: nat, ops: seq<LaneOp<T>>)
    requires 0 < depth
    ensures Subsequence(Stream(LaneRun(depth, ops)), History(ops))
  {
    if ops != [] {
      var before, l, h := ops[..|ops| - 1], LaneRun(depth, ops[..|ops| - 1]), History(ops[..|ops| - 1]);
      StreamFollowsHistory(depth, before);
      match ops[|ops| - 1] {
        case Report(x, quiet) =>
          DeferredStream(depth, l, x, h);
          SubsequenceGrows(Stream(l), h, x);
          assert Stream(l) + [x] == l.sent + l.pending + [x] + [];
        case Serve(_) =>
          assert Stream(l) == l.sent + l.pending + [];
        case Clean =>
          SubsequencePrefix(Stream(l), h, |l.sent|);
          assert Stream(l)[..|l.sent|] == l.sent + [];
      }
    }
  }

  // ----- When nothing is lost -----

  /** Step `n` loses reports: it overruns the queue, or it cleans a queue that is not empty. */
  predicate Loses<T>(depth: nat, ops: seq<LaneOp<T>>, n: nat)
    requires n < |ops|
  {
    var waiting := |Open(ops[..n])|;
    (ops[n].Report? && ops[n].quiet && waiting >= depth) || (ops[n].Clean? && waiting > 0)
  }

  ghost predicate SomeStepLoses<T>(depth: nat, ops: seq<LaneOp<T>>) {
    exists n :: 0 <= n < |ops| && Loses(depth, ops, n)
  }

  function Lost<T>(depth: nat, ops: seq<LaneOp<T>>): nat {
    if ops == [] then 0
    else
      var before := ops[..|ops| - 1];
      var waiting := |Open(before)|;
      Lost(depth, before) +
      match ops[|ops| - 1]
      case Report(_, quiet) => if quiet && waiting >= depth then 1 else 0
      case Serve(_) => 0
      case Clean => Min(waiting, depth)
  }

  /** Every report is kept or counted as lost. */
  lemma {:induction false} LossAccounted<T>(depth: nat, ops: seq<LaneOp<T>>)
    requires 0 < depth
    ensures |Stream(LaneRun(depth, ops))| + Lost(depth, ops) == |History(ops)|
  {
    if ops != [] {
      LossAccounted(depth, ops[..|ops| - 1]);
      QueueKeepsNewest(depth, ops[..|ops| - 1]);
    }
  }

  lemma {:induction false} LossesFound<T>(depth: nat, ops: seq<LaneOp<T>>)
    requires 0 < depth
    ensures Lost(depth, ops) == 0 <==> !SomeStepLoses(depth, ops)
  {
    if ops != [] {
      var n := |ops| - 1;
      var before := ops[..n];
      LossesFound(depth, before);
      forall i | 0 <= i < n
        ensures Loses(depth, before, i) == Loses(depth, ops, i)
      {
        assert ops[..i] == before[..i];
      }
      assert Loses(depth, ops, n) <==> Lost(depth, ops) > Lost(depth, before);
    }
  }

  /** The receiver gets every report, in order, if and only if no window holds more than `depth` reports and no
      deactivation finds reports waiting. */
  lemma StreamIsHistory<T>(depth: nat, ops: seq<LaneOp<T>>)
    requires 0 < depth
    ensures Stream(LaneRun(depth, ops)) == History(ops) <==> !SomeStepLoses(depth, ops)
  {
    StreamFollowsHistory(depth, ops);
    SubsequenceLength(Stream(LaneRun(depth, ops)), History(ops));
    LossAccounted(depth, ops);
    LossesFound(depth, ops);
  }

  /** A deactivation swept the latest report away. */
  predicate SweptAway<T>(ops: seq<LaneOp<T>>) {
    ops != [] &&
    match ops[|ops| - 1]
    case Report(_, _) => false
    case Serve(_) => SweptAway(ops[..|ops| - 1])
    case Clean => Open(ops[..|ops| - 1]) != [] || SweptAway(ops[..|ops| - 1])
  }

  /** A report is the end of the stream; otherwise only a sweep of waiting reports changes it. */
  lemma StreamStep<T>(depth: nat, l: Lane<T>, op: LaneOp<T>)
    requires 0 < depth
    ensures var s := Stream(LaneStep(depth, l, op));
            && (op.Report? ==> s != [] && s[|s| - 1] == op.x)
            && (op.Serve? || (op.Clean? && l.pending == []) ==> s == Stream(l))
  {
  }

  /** Whatever was dropped, the stream ends on the latest report. */
  lemma {:induction false} StreamEndsOnLatest<T>(depth: nat, ops: seq<LaneOp<T>>)
    requires 0 < depth && History(ops) != [] && !SweptAway(ops)
    ensures var s, h := Stream(LaneRun(depth, ops)), History(ops); s != [] && s[|s| - 1] == h[|h| - 1]
  {
    var before, op := ops[..|ops| - 1], ops[|ops| - 1];
    StreamStep(depth, LaneRun(depth, before), op);
    if !op.Report? {
      StreamEndsOnLatest(depth, before);
      QueueKeepsNewest(depth, before);
    }
    hide LaneStep, Stream, Newest, Closed;
  }

  /** All of it about a stream `s` and its history `h`. */
  lemma LaneRefinesHistory<T>(depth: nat, ops: seq<LaneOp<T>>, s: seq<T>, h: seq<T>)
    requires 0 < depth && s == Stream(LaneRun(depth, ops)) && h == History(ops)
    ensures Subsequence(s, h)
    ensures s == h <==> !SomeStepLoses(depth, ops)
    ensures h != [] && !SweptAway(ops) ==> s != [] && s[|s| - 1] == h[|h| - 1]
  {
    StreamFollowsHistory(depth, ops);
    StreamIsHistory(depth, ops);
    if h != [] && !SweptAway(ops) {
      StreamEndsOnLatest(depth, ops);
    }
  }

  // ----- The queue as an array -----

  class DeferQueue<T(0)> {
    const slots: array<T>
    var count: nat
    ghost var contents: seq<T>

    ghost predicate Valid()
      reads this, slots
    {
      0 < slots.Length && count <= slots.Length && contents == slots[..count]
    }

    constructor (depth: nat)
      requires 0 < depth
      ensures Valid() && contents == [] && slots.Length == depth && fresh(slots)
    {
      slots := new T[depth];
      count, contents := 0, [];
    }

    /** The memmove of an overrun. */
    method DropOldest()
      requires Valid() && count == slots.Length
      modifies this`count, this`contents, slots
      ensures Valid() && contents == old(contents)[1..] && count == slots.Length - 1
    {
      var i := 1;
      while i < slots.Length
        invariant 1 <= i <= slots.Length
        invariant forall k :: 0 <= k < i - 1 ==> slots[k] == old(slots[k + 1])
        invariant forall k :: i <= k < slots.Length ==> slots[k] == old(slots[k])
        invariant count == slots.Length && contents == old(contents)
      {
        slots[i - 1] := slots[i];
        i := i + 1;
      }
      count := slots.Length - 1;
      contents := contents[1..];
      assert contents == slots[..count];
    }

    method Enqueue(x: T)
      requires Valid()
      modifies this`count, this`contents, slots
      ensures Valid() && contents == Defer(old(contents), slots.Length, x)
    {
      if count >= slots.Length {
        DropOldest();
      }
      slots[count] := x;
      count := count + 1;
      contents := contents + [x];
      assert slots[..count] == slots[..count - 1] + [x];
    }

    /** Hands every entry over in order; `out` is what was handed to the transport. */
    method Drain() returns (out: seq<T>)
      requires Valid()
      modifies this`count, this`contents
      ensures Valid() && out == old(contents) && contents == []
    {
      out := [];
      var i := 0;
      while i < count
        invariant 0 <= i <= count && out == contents[..i]
        invariant Valid() && contents == old(contents)
      {
        out := out + [slots[i]];
        i := i + 1;
      }
      count, contents := 0, [];
    }

    method Clear()
      requires Valid()
      modifies this`count, this`contents
      ensures Valid() && contents == []
    {
      count, contents := 0, [];
    }
  }
}

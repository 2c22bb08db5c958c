/** Counting and shape predicates over event traces, used to state what the
    on-device and direct flows promise their listener. */
module Traces {
  import opened Events

  datatype Kind = StatusKind | ProgressKind | FinalKind | ErrorKind | ClosedKind | RelayedKind

  function KindOf(e: Event): Kind {
    match e
    case Status(_) => StatusKind
    case Progress(_, _) => ProgressKind
    case Final(_, _) => FinalKind
    case Error(_) => ErrorKind
    case Closed => ClosedKind
    case Relayed(_) => RelayedKind
  }

  /** Number of events of kind `k` in `t`. */
  function Count(t: seq<Event>, k: Kind): nat
    decreases |t|
  {
    if |t| == 0 then 0 else (if KindOf(t[0]) == k then 1 else 0) + Count(t[1..], k)
  }

  lemma {:induction false} CountConcat(a: seq<Event>, b: seq<Event>, k: Kind)
    ensures Count(a + b, k) == Count(a, k) + Count(b, k)
    decreases |a|
  {
    if |a| == 0 {
      assert a + b == b;
    } else {
      assert (a + b)[1..] == a[1..] + b;
      CountConcat(a[1..], b, k);
    }
  }

  lemma CountSingle(e: Event, k: Kind)
    ensures Count([e], k) == if KindOf(e) == k then 1 else 0
  {
    assert [e][1..] == [];
  }

  lemma CountDropLast(t: seq<Event>, k: Kind)
    requires |t| > 0
    ensures Count(t, k) == Count(t[..|t| - 1], k) + (if KindOf(t[|t| - 1]) == k then 1 else 0)
  {
    CountConcat(t[..|t| - 1], [t[|t| - 1]], k);
    CountSingle(t[|t| - 1], k);
    assert t[..|t| - 1] + [t[|t| - 1]] == t;
  }

  /** A prefix never holds more events of a kind than the whole trace. */
  lemma {:induction false} CountPrefix(t: seq<Event>, n: nat, k: Kind)
    requires n <= |t|
    ensures Count(t[..n], k) <= Count(t, k)
  {
    CountConcat(t[..n], t[n..], k);
    assert t[..n] + t[n..] == t;
  }

  /** The percentages of the service's own progress events, in order. */
  function Percents(t: seq<Event>): seq<nat>
    decreases |t|
  {
    if |t| == 0 then []
    else (if t[0].Progress? then [t[0].percent] else []) + Percents(t[1..])
  }

  lemma {:induction false} PercentsConcat(a: seq<Event>, b: seq<Event>)
    ensures Percents(a + b) == Percents(a) + Percents(b)
    decreases |a|
  {
    if |a| == 0 {
      assert a + b == b;
    } else {
      var head := if a[0].Progress? then [a[0].percent] else [];
      assert (a + b)[0] == a[0];
      assert (a + b)[1..] == a[1..] + b;
      PercentsConcat(a[1..], b);
      assert Percents(a + b) == head + (Percents(a[1..]) + Percents(b));
      assert head + (Percents(a[1..]) + Percents(b)) == (head + Percents(a[1..])) + Percents(b);
    }
  }

  lemma PercentsSingle(e: Event)
    ensures Percents([e]) == if e.Progress? then [e.percent] else []
  {
    assert [e][1..] == [];
  }

  /** The three milestones of `updateProgress`, in the order the flows reach them. */
  const Milestones: seq<nat> := [10, 50, 100]

  predicate StrictlyIncreasing(xs: seq<nat>) {
    forall i, j :: 0 <= i < j < |xs| ==> xs[i] < xs[j]
  }

  predicate IsPrefix(xs: seq<nat>, ys: seq<nat>) {
    |xs| <= |ys| && xs == ys[..|xs|]
  }

  /** A trace of the listener's point of view after a successful run. */
  predicate SuccessShape(t: seq<Event>) {
    && |t| >= 3
    && t[|t| - 1] == Closed
    && t[|t| - 2] == ProgressOf(Completed)
    && t[|t| - 3].Final?
    && Count(t, ClosedKind) == 1
    && Count(t, FinalKind) == 1
    && Count(t, ErrorKind) == 0
    && Percents(t) == Milestones
  }

  /** A trace after a failed run: one error, then `closed`, no `final`, and
      progress stopped short of 100. */
  predicate FailureShape(t: seq<Event>) {
    && |t| >= 2
    && t[|t| - 1] == Closed
    && t[|t| - 2].Error?
    && Count(t, ClosedKind) == 1
    && Count(t, ErrorKind) == 1
    && Count(t, FinalKind) == 0
    && IsPrefix(Percents(t), Milestones) && |Percents(t)| < |Milestones|
  }

  /** The milestones only ever increase, so does any prefix of them. */
  lemma MilestonesIncrease(xs: seq<nat>)
    requires IsPrefix(xs, Milestones)
    ensures StrictlyIncreasing(xs)
  {
  }

  /** Every `final`, error and `closed` of a success trace lies in its last
      three events, and of a failure trace in its last two. */
  lemma TerminalsAtEnd(t: seq<Event>, m: nat)
    requires (SuccessShape(t) && m <= |t| - 3) || (FailureShape(t) && m <= |t| - 2)
    ensures Count(t[..m], ClosedKind) == 0 && Count(t[..m], ErrorKind) == 0 && Count(t[..m], FinalKind) == 0
  {
    var t1 := t[..|t| - 1];
    var t2 := t[..|t| - 2];
    forall k: Kind ensures Count(t, k) == Count(t1, k) + (if KindOf(t[|t| - 1]) == k then 1 else 0)
                       && Count(t1, k) == Count(t2, k) + (if KindOf(t[|t| - 2]) == k then 1 else 0) {
      CountDropLast(t, k);
      CountDropLast(t1, k);
      assert t1[..|t1| - 1] == t2;
    }
    var j := |t| - 2;
    if SuccessShape(t) {
      var t3 := t[..|t| - 3];
      forall k: Kind ensures Count(t2, k) == Count(t3, k) + (if KindOf(t[|t| - 3]) == k then 1 else 0) {
        CountDropLast(t2, k);
        assert t2[..|t2| - 1] == t3;
      }
      j := |t| - 3;
    }
    forall k: Kind ensures Count(t[..m], k) <= Count(t[..j], k) {
      CountPrefix(t[..j], m, k);
      assert t[..j][..m] == t[..m];
    }
  }

  /** The two shapes exclude each other. */
  lemma ShapesDisjoint(t: seq<Event>)
    ensures !(SuccessShape(t) && FailureShape(t))
  {
  }
}

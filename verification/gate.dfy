/** The `emit` gate of `transcribeAudio`: a `closed` flag that only the
    returned cancel handle sets, and that silences every later `emit`.
    Generic over the event type. */
module Gate {

  datatype State<E> = State(closed: bool, delivered: seq<E>)

  /** What happens at the gate: the service attempts to emit an event, or the
      caller invokes the cancel handle. */
  datatype Action<E> = Attempt(event: E) | Invoke

  function Initial<E>(): State<E> {
    State(false, [])
  }

  /** `emit(event)`: pass the event to `onEvent` unless the gate is closed. */
  function Emit<E>(s: State<E>, e: E): State<E> {
    if s.closed then s else State(s.closed, s.delivered + [e])
  }

  /** The cancel handle: `closed = true`. */
  function Cancel<E>(s: State<E>): State<E> {
    State(true, s.delivered)
  }

  function Step<E>(s: State<E>, a: Action<E>): State<E> {
    match a
    case Attempt(e) => Emit(s, e)
    case Invoke => Cancel(s)
  }

  function Run<E>(s: State<E>, acts: seq<Action<E>>): State<E>
    decreases |acts|
  {
    if |acts| == 0 then s else Run(Step(s, acts[0]), acts[1..])
  }

  /** One `Attempt` per event, in order. */
  function Attempts<E>(es: seq<E>): (r: seq<Action<E>>)
    ensures |r| == |es|
    ensures forall i :: 0 <= i < |es| ==> r[i] == Attempt(es[i])
  {
    seq(|es|, i requires 0 <= i < |es| => Attempt(es[i]))
  }

  /** Emitting never touches the flag, whatever the event (a `closed` event included). */
  lemma EmitKeepsFlag<E>(s: State<E>, e: E)
    ensures Emit(s, e).closed == s.closed
    ensures s.closed ==> Emit(s, e) == s
    ensures !s.closed ==> Emit(s, e).delivered == s.delivered + [e]
  {
  }

  /** Invoking the handle twice is the same as invoking it once. */
  lemma CancelIdempotent<E>(s: State<E>)
    ensures Cancel(Cancel(s)) == Cancel(s)
    ensures Cancel(s).delivered == s.delivered
  {
  }

  lemma {:induction false} RunConcat<E>(s: State<E>, a: seq<Action<E>>, b: seq<Action<E>>)
    ensures Run(s, a + b) == Run(Run(s, a), b)
    decreases |a|
  {
    if |a| == 0 {
      assert a + b == b;
    } else {
      assert (a + b)[0] == a[0];
      assert (a + b)[1..] == a[1..] + b;
      RunConcat(Step(s, a[0]), a[1..], b);
    }
  }

  /** The gate is closed after a run exactly when it was closed before or the
      handle was invoked during the run. */
  lemma {:induction false} OnlyInvokeCloses<E>(s: State<E>, acts: seq<Action<E>>)
    ensures Run(s, acts).closed <==> s.closed || Invoke in acts
    decreases |acts|
  {
    if |acts| > 0 {
      OnlyInvokeCloses(Step(s, acts[0]), acts[1..]);
      assert acts == [acts[0]] + acts[1..];
    }
  }

  /** Nothing is delivered once the gate is closed. */
  lemma {:induction false} NothingAfterCancel<E>(s: State<E>, acts: seq<Action<E>>)
    requires s.closed
    ensures Run(s, acts) == s
    decreases |acts|
  {
    if |acts| > 0 {
      NothingAfterCancel(Step(s, acts[0]), acts[1..]);
    }
  }

  /** While the gate is open every attempted event is delivered, in order. */
  lemma {:induction false} OpenDeliversAll<E>(s: State<E>, es: seq<E>)
    requires !s.closed
    ensures Run(s, Attempts(es)) == State(false, s.delivered + es)
    decreases |es|
  {
    if |es| == 0 {
      assert s.delivered + es == s.delivered;
    } else {
      assert Attempts(es)[1..] == Attempts(es[1..]);
      OpenDeliversAll(Emit(s, es[0]), es[1..]);
      assert s.delivered + [es[0]] + es[1..] == s.delivered + es;
    }
  }

  /** Invoking the handle after `k` attempts delivers exactly the first `k`
      events, whatever is attempted afterwards. */
  lemma CancelAfter<E>(es: seq<E>, rest: seq<E>, k: nat)
    requires k <= |es|
    ensures Run(Initial(), Attempts(es[..k]) + [Invoke] + Attempts(rest)).delivered == es[..k]
  {
    var before := Attempts(es[..k]);
    RunConcat(Initial(), before + [Invoke], Attempts(rest));
    RunConcat(Initial(), before, [Invoke]);
    OpenDeliversAll(Initial(), es[..k]);
    assert Initial<E>().delivered + es[..k] == es[..k];
    NothingAfterCancel(Run(Initial(), before + [Invoke]), Attempts(rest));
  }

  /** The `emit` calls of a run, dispatched one by one with the handle invoked
      after `cancelAfter` of them (after all of them when `cancelAfter` is at
      least `|es|`). */
  method Dispatch<E>(es: seq<E>, cancelAfter: nat) returns (delivered: seq<E>)
    ensures cancelAfter <= |es| ==> delivered == es[..cancelAfter]
    ensures cancelAfter > |es| ==> delivered == es
    ensures var n := if cancelAfter < |es| then cancelAfter else |es|;
            delivered == Run(Initial(), Attempts(es[..n]) + [Invoke] + Attempts(es[n..])).delivered
  {
    var closed := false;
    delivered := [];
    var i := 0;
    while i < |es|
      invariant 0 <= i <= |es|
      invariant closed <==> cancelAfter < i
      invariant delivered == es[..if closed then cancelAfter else i]
    {
      if i == cancelAfter {
        closed := true;
      }
      if !closed {
        delivered := delivered + [es[i]];
      }
      i := i + 1;
    }
    var n := if cancelAfter < |es| then cancelAfter else |es|;
    CancelAfter(es, es[n..], n);
  }
}

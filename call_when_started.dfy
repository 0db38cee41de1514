/**
 * The deferred-call queue of the GUI (gui/call_when_started.py): calls made
 * before the GUI's second frame are queued, and the first `execute` after it
 * runs them all, in order, once; later calls run at once.
 */
module StartupCalls {

  /**
   * A call to make, by identity. Whether it raises does not matter: both `append`
   * and `execute` report the exception and carry on.
   */
  datatype Call = Call(id: nat)

  /** The class-level state: whether startup is done, the queued calls, and every call run so far, in order. */
  datatype State = State(startupDone: bool, queue: seq<Call>, ran: seq<Call>)

  /** What happens to the queue: a call is appended, or `execute` runs at some frame count. */
  datatype Event = Append(call: Call) | Execute(frameCount: int)

  const INITIAL: State := State(false, [], [])

  /** One step of the state. */
  function Step(s: State, e: Event): (r: State)
    ensures e.Append? && !s.startupDone ==> r == s.(queue := s.queue + [e.call])
    ensures e.Append? && s.startupDone ==> r == s.(ran := s.ran + [e.call])
    ensures e.Execute? && (s.startupDone || e.frameCount <= 1) ==> r == s
    ensures e.Execute? && !s.startupDone && e.frameCount > 1 ==> r == State(true, [], s.ran + s.queue)
  {
    match e
    case Append(call) =>
      if !s.startupDone then s.(queue := s.queue + [call]) else s.(ran := s.ran + [call])
    case Execute(frameCount) =>
      if !s.startupDone && frameCount > 1 then State(true, [], s.ran + s.queue) else s
  }

  /** The state after a sequence of events. */
  function Run(s: State, events: seq<Event>): State
  {
    if events == [] then s else Step(Run(s, events[..|events| - 1]), events[|events| - 1])
  }

  /** The calls appended by a sequence of events, in order. */
  function Appended(events: seq<Event>): seq<Call>
  {
    if events == [] then []
    else
      var e := events[|events| - 1];
      Appended(events[..|events| - 1]) + (if e.Append? then [e.call] else [])
  }

  /** Every appended call has run or is queued, in append order, and nothing stays queued after startup. */
  predicate Accounted(s: State, appended: seq<Call>)
  {
    s.ran + s.queue == appended && (s.startupDone ==> s.queue == [])
  }

  lemma {:induction false} RunAccounted(events: seq<Event>)
    ensures Accounted(Run(INITIAL, events), Appended(events))
    decreases |events|
  {
    if events != [] {
      var init := events[..|events| - 1];
      RunAccounted(init);
      var s := Run(INITIAL, init);
      var e := events[|events| - 1];
      match e
      case Append(c) =>
        assert s.ran + (s.queue + [c]) == (s.ran + s.queue) + [c];
      case Execute(_) =>
    }
  }

  /** Once startup is done it stays done. */
  lemma {:induction false} StartupStaysDone(events: seq<Event>, k: nat)
    requires k <= |events| && Run(INITIAL, events[..k]).startupDone
    ensures Run(INITIAL, events).startupDone
    decreases |events| - k
  {
    if k < |events| {
      assert events[..k + 1][..k] == events[..k];
      StartupStaysDone(events, k + 1);
    } else {
      assert events[..k] == events;
    }
  }

  /**
   * After an `execute` past the first frame, every call appended so far has run
   * exactly once, in the order it was appended. A call that raises is still
   * counted as run and does not stop the ones after it, which is why `Call`
   * carries no outcome.
   */
  lemma AllCallsRunInOrder(events: seq<Event>, k: nat)
    requires k < |events| && events[k].Execute? && events[k].frameCount > 1
    ensures Run(INITIAL, events).ran == Appended(events)
    ensures Run(INITIAL, events).queue == []
  {
    assert events[..k + 1][..k] == events[..k];
    StartupStaysDone(events, k + 1);
    RunAccounted(events);
  }

  /** The queue class; its class-level attributes are the fields of one object. */
  class CallWhenStarted {
    var startupDone: bool
    var queue: seq<Call>
    /** The calls run so far, in order: the effects the program observes. */
    var ran: seq<Call>

    constructor ()
      ensures State(startupDone, queue, ran) == INITIAL
    {
      startupDone := false;
      queue := [];
      ran := [];
    }

    function Current(): State
      reads this
    {
      State(startupDone, queue, ran)
    }

    /** `append`: queued before startup, run at once (its exception reported) after. */
    method Append(call: Call)
      modifies this
      ensures Current() == Step(old(Current()), Event.Append(call))
    {
      if !startupDone {
        queue := queue + [call];
        return;
      }
      ran := ran + [call];
    }

    /** `execute`: past the first frame, startup is marked done and the queue is drained in order. */
    method Execute(frameCount: int)
      modifies this
      ensures Current() == Step(old(Current()), Event.Execute(frameCount))
    {
      if !startupDone {
        if frameCount > 1 {
          startupDone := true;
          var i := 0;
          while i < |queue|
            invariant 0 <= i <= |queue|
            invariant ran == old(ran) + queue[..i]
            invariant queue == old(queue) && startupDone
          {
            // a raising call is reported and the loop goes on
            ran := ran + [queue[i]];
            assert queue[..i + 1] == queue[..i] + [queue[i]];
            i := i + 1;
          }
          assert queue[..|queue|] == queue;
          queue := [];
        }
      }
    }
  }
}

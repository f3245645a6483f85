/**
 * Bounded traces of the whole app: route visits, producer cycles and
 * reader iterations, interleaved in any order.  The producer and the
 * readers run in parallel in the source; here each loop iteration is taken
 * as one atomic event.  The source's lock guards only the publish and the
 * read-and-encode, so this is a modelling assumption (see README, Left out).
 */
module Schedule {
  import opened Basics
  import opened Vision
  import opened Actions
  import opened Pipeline
  import opened Streaming

  datatype Event =
    | Visit(route: Route)   // a route handler runs
    | Capture(raw: Frame)   // the producer runs one cycle on this captured frame
    | Poll                  // the reader runs one iteration of `generate`

  /** The shared state and the parts the reader has yielded so far. */
  datatype Session = Session(state: AppState, sent: seq<seq<byte>>)

  function Step(tk: Toolkit, frameCount: int, s: Session, e: Event): Session {
    match e
    case Visit(r) => Session(ApplyRoute(s.state, r), s.sent)
    case Capture(raw) => Session(Cycle(tk, frameCount, s.state, raw), s.sent)
    case Poll => Session(s.state, s.sent + Sent(Iteration(tk, s.state.output)))
  }

  /** The session after a trace of events, starting from a given state and nothing sent. */
  function Run(tk: Toolkit, frameCount: int, st: AppState, events: seq<Event>): Session
    decreases |events|
  {
    if |events| == 0 then Session(st, [])
    else Step(tk, frameCount, Run(tk, frameCount, st, events[..|events| - 1]), events[|events| - 1])
  }

  /** A producer cycle appended to a trace acts on the state the trace reached. */
  lemma RunCapture(tk: Toolkit, frameCount: int, st: AppState, events: seq<Event>, raw: Frame)
    ensures Run(tk, frameCount, st, events + [Capture(raw)]).state == Cycle(tk, frameCount, Run(tk, frameCount, st, events).state, raw)
  {
    assert (events + [Capture(raw)])[..|events|] == events;
  }

  /** The number of producer cycles in a trace. */
  function Captures(events: seq<Event>): nat
    decreases |events|
  {
    if |events| == 0 then 0
    else Captures(events[..|events| - 1]) + (if events[|events| - 1].Capture? then 1 else 0)
  }

  /** The last route visited in a trace, found by scanning it from the end. */
  function LastRoute(events: seq<Event>): Option<Route>
    decreases |events|
  {
    if |events| == 0 then None
    else if events[|events| - 1].Visit? then Some(events[|events| - 1].route)
    else LastRoute(events[..|events| - 1])
  }

  /** The slot values the reader found, one per reader iteration, in order. */
  function Views(tk: Toolkit, frameCount: int, st: AppState, events: seq<Event>): seq<Option<Frame>>
    decreases |events|
  {
    if |events| == 0 then []
    else
      var front := events[..|events| - 1];
      Views(tk, frameCount, st, front) + (if events[|events| - 1].Poll? then [Run(tk, frameCount, st, front).state.output] else [])
  }

  /** How many of the counter values 0 .. t-1 are past the warm-up. */
  function Warmed(t: nat, frameCount: int): nat {
    if t == 0 then 0 else Warmed(t - 1, frameCount) + (if Warm(t - 1, frameCount) then 1 else 0)
  }

  /** No counter value up to frameCount is past the warm-up; beyond it, all are. */
  lemma {:induction false} WarmedClosedForm(t: nat, frameCount: int)
    ensures Warmed(t, frameCount) == if frameCount < 0 then t else if t <= frameCount + 1 then 0 else t - frameCount - 1
  {
    if t > 0 {
      WarmedClosedForm(t - 1, frameCount);
    }
  }

  /** After a trace, `cameraAction` is the code of the last route visited, or what it was if none was. */
  lemma {:induction false} RunAction(tk: Toolkit, frameCount: int, st: AppState, events: seq<Event>)
    ensures Run(tk, frameCount, st, events).state.action ==
      if LastRoute(events).Some? then Code(LastRoute(events).value) else st.action
    decreases |events|
  {
    if |events| > 0 {
      RunAction(tk, frameCount, st, events[..|events| - 1]);
    }
  }

  /** The action code stays within the six codes of the routes. */
  lemma RunActionInRange(tk: Toolkit, frameCount: int, st: AppState, events: seq<Event>)
    requires 0 <= st.action <= 5
    ensures 0 <= Run(tk, frameCount, st, events).state.action <= 5
  {
    RunAction(tk, frameCount, st, events);
  }

  /** Once a route has been visited, the earlier code has no influence on the current one. */
  lemma RunActionForgets(tk: Toolkit, frameCount: int, st: AppState, earlier: int, events: seq<Event>)
    requires LastRoute(events).Some?
    ensures Run(tk, frameCount, st, events).state.action == Run(tk, frameCount, st.(action := earlier), events).state.action
  {
    RunAction(tk, frameCount, st, events);
    RunAction(tk, frameCount, st.(action := earlier), events);
  }

  /** The frame counter rises by exactly one per producer cycle and is touched by nothing else. */
  lemma {:induction false} RunTotal(tk: Toolkit, frameCount: int, st: AppState, events: seq<Event>)
    ensures Run(tk, frameCount, st, events).state.total == st.total + Captures(events)
    decreases |events|
  {
    if |events| > 0 {
      RunTotal(tk, frameCount, st, events[..|events| - 1]);
    }
  }

  /** The slot is empty after a trace iff it was empty before and the producer never ran. */
  lemma {:induction false} RunSlotEmpty(tk: Toolkit, frameCount: int, st: AppState, events: seq<Event>)
    ensures Run(tk, frameCount, st, events).state.output.None? <==> st.output.None? && Captures(events) == 0
    decreases |events|
  {
    if |events| > 0 {
      RunSlotEmpty(tk, frameCount, st, events[..|events| - 1]);
    }
  }

  /** The slot holds the frame published by the most recent producer cycle. */
  lemma {:induction false} RunSlotLatest(tk: Toolkit, frameCount: int, st: AppState, before: seq<Event>, raw: Frame, after: seq<Event>)
    requires Captures(after) == 0
    ensures Run(tk, frameCount, st, before + [Capture(raw)] + after).state.output ==
      Cycle(tk, frameCount, Run(tk, frameCount, st, before).state, raw).output
    decreases |after|
  {
    var events := before + [Capture(raw)] + after;
    if |after| == 0 {
      assert events[..|events| - 1] == before;
    } else {
      assert events[..|events| - 1] == before + [Capture(raw)] + after[..|after| - 1];
      assert events[|events| - 1] == after[|after| - 1];
      RunSlotLatest(tk, frameCount, st, before, raw, after[..|after| - 1]);
    }
  }

  /** What one event adds to the call log: only a producer cycle calls anything. */
  lemma StepCalls(tk: Toolkit, frameCount: int, s: Session, e: Event)
    ensures Count(Step(tk, frameCount, s, e).state.calls, UpdateCall) ==
      Count(s.state.calls, UpdateCall) + (if e.Capture? then 1 else 0)
    ensures Count(Step(tk, frameCount, s, e).state.calls, DetectCall) ==
      Count(s.state.calls, DetectCall) + (if e.Capture? && Warm(s.state.total, frameCount) then 1 else 0)
    ensures Count(s.state.calls, RectangleCall) <= Count(Step(tk, frameCount, s, e).state.calls, RectangleCall) <=
      Count(s.state.calls, RectangleCall) + (if e.Capture? && Warm(s.state.total, frameCount) then 1 else 0)
  {
    if e.Capture? {
      var added := CycleCalls(tk, frameCount, s.state, e.raw);
      CycleCallOrder(tk, frameCount, s.state, e.raw);
      CountConcat(s.state.calls, added, UpdateCall);
      CountConcat(s.state.calls, added, DetectCall);
      CountConcat(s.state.calls, added, RectangleCall);
    }
  }

  /** The call counts after a non-empty trace, from those after all but its last event. */
  lemma LastStepCalls(tk: Toolkit, frameCount: int, st: AppState, events: seq<Event>)
    requires |events| > 0
    ensures var front := Run(tk, frameCount, st, events[..|events| - 1]).state;
      var last := Run(tk, frameCount, st, events).state;
      var cycle := events[|events| - 1].Capture?;
      && Count(last.calls, UpdateCall) == Count(front.calls, UpdateCall) + (if cycle then 1 else 0)
      && Count(last.calls, DetectCall) == Count(front.calls, DetectCall) + (if cycle && Warm(front.total, frameCount) then 1 else 0)
      && Count(front.calls, RectangleCall) <= Count(last.calls, RectangleCall)
      && Count(last.calls, RectangleCall) <= Count(front.calls, RectangleCall) + (if cycle && Warm(front.total, frameCount) then 1 else 0)
  {
    StepCalls(tk, frameCount, Run(tk, frameCount, st, events[..|events| - 1]), events[|events| - 1]);
  }

  /** Over a trace, `update` is called exactly once per producer cycle. */
  lemma {:induction false} RunUpdates(tk: Toolkit, frameCount: int, st: AppState, events: seq<Event>)
    ensures Count(Run(tk, frameCount, st, events).state.calls, UpdateCall) == Count(st.calls, UpdateCall) + Captures(events)
    decreases |events|
  {
    if |events| > 0 {
      RunUpdates(tk, frameCount, st, events[..|events| - 1]);
      LastStepCalls(tk, frameCount, st, events);
    }
  }

  /** Over a trace, `detect` is called once for each cycle whose counter is past the warm-up. */
  lemma {:induction false} RunDetections(tk: Toolkit, frameCount: int, st: AppState, events: seq<Event>)
    ensures Count(Run(tk, frameCount, st, events).state.calls, DetectCall) ==
      Count(st.calls, DetectCall) + Warmed(st.total + Captures(events), frameCount) - Warmed(st.total, frameCount)
    decreases |events|
  {
    if |events| > 0 {
      var front := events[..|events| - 1];
      RunDetections(tk, frameCount, st, front);
      RunTotal(tk, frameCount, st, front);
      LastStepCalls(tk, frameCount, st, events);
      CapturesLast(events);
      WarmedStep(st.total + Captures(front), frameCount);
    }
  }

  lemma CapturesLast(events: seq<Event>)
    requires |events| > 0
    ensures Captures(events) == Captures(events[..|events| - 1]) + (if events[|events| - 1].Capture? then 1 else 0)
  {
  }

  lemma WarmedStep(t: nat, frameCount: int)
    ensures Warmed(t + 1, frameCount) == Warmed(t, frameCount) + (if Warm(t, frameCount) then 1 else 0)
  {
  }

  /** Over a trace, the box is drawn at most as often as `detect` is called. */
  lemma {:induction false} RunBoxes(tk: Toolkit, frameCount: int, st: AppState, events: seq<Event>)
    ensures Count(Run(tk, frameCount, st, events).state.calls, RectangleCall) - Count(st.calls, RectangleCall) <=
      Count(Run(tk, frameCount, st, events).state.calls, DetectCall) - Count(st.calls, DetectCall)
    decreases |events|
  {
    if |events| > 0 {
      RunBoxes(tk, frameCount, st, events[..|events| - 1]);
      LastStepCalls(tk, frameCount, st, events);
    }
  }

  /** Whatever the frames, the first frameCount + 1 cycles neither ask the detector nor draw a box. */
  lemma WarmUpQuiet(tk: Toolkit, frameCount: int, events: seq<Event>)
    requires Captures(events) <= frameCount + 1
    ensures Count(Run(tk, frameCount, INIT, events).state.calls, DetectCall) == 0
    ensures Count(Run(tk, frameCount, INIT, events).state.calls, RectangleCall) == 0
  {
    RunDetections(tk, frameCount, INIT, events);
    RunBoxes(tk, frameCount, INIT, events);
    WarmedClosedForm(Captures(events), frameCount);
    WarmedClosedForm(0, frameCount);
  }

  /** The warm-up with the command line's default `frameCount`: 33 quiet cycles, not 32. */
  lemma DefaultWarmUpQuiet(tk: Toolkit, events: seq<Event>)
    requires Captures(events) <= DEFAULT_FRAME_COUNT + 1
    ensures Count(Run(tk, DEFAULT_FRAME_COUNT, INIT, events).state.calls, DetectCall) == 0
    ensures Count(Run(tk, DEFAULT_FRAME_COUNT, INIT, events).state.calls, RectangleCall) == 0
  {
    WarmUpQuiet(tk, DEFAULT_FRAME_COUNT, events);
  }

  /** What the reader sends over a trace is what `generate` yields on the slot values it found. */
  lemma {:induction false} RunSent(tk: Toolkit, frameCount: int, st: AppState, events: seq<Event>)
    ensures Run(tk, frameCount, st, events).sent == Emitted(tk, Views(tk, frameCount, st, events))
    decreases |events|
  {
    if |events| > 0 {
      var front := events[..|events| - 1];
      RunSent(tk, frameCount, st, front);
      var seen := Views(tk, frameCount, st, front);
      if events[|events| - 1].Poll? {
        var slot := Run(tk, frameCount, st, front).state.output;
        assert (seen + [slot])[..|seen + [slot]| - 1] == seen;
      } else {
        assert Views(tk, frameCount, st, events) == seen;
      }
    }
  }

  /** Before the first producer cycle the reader sends nothing. */
  lemma {:induction false} RunSilentBeforePublish(tk: Toolkit, frameCount: int, st: AppState, events: seq<Event>)
    requires st.output.None? && Captures(events) == 0
    ensures Run(tk, frameCount, st, events).sent == []
    decreases |events|
  {
    if |events| > 0 {
      var front := events[..|events| - 1];
      RunSilentBeforePublish(tk, frameCount, st, front);
      RunSlotEmpty(tk, frameCount, st, front);
    }
  }
}

/**
  The VR input hub: every frame it turns a press of the Fire1 button into
  an up event followed by a click or a double click, and a press of the
  Cancel button into a cancel event, each delivered only to an event that
  has subscribers.
 */
module Clicks {

  /** The five events the hub publishes. */
  datatype InputEvent = Click | Down | Up | DoubleClick | Cancel

  /** The inspector default for the longest gap between the presses of a double click, in seconds. */
  const DefaultDoubleClickTime: real := 0.3

  /** A press at `now` is a double click when less than `window` has passed since the last press. */
  predicate IsDoubleClick(now: real, lastUp: real, window: real) {
    now - lastUp < window
  }

  /** `[e]` when e has subscribers, `[]` when it has none (a null event is skipped). */
  function Invoke(subscribed: set<InputEvent>, e: InputEvent): (r: seq<InputEvent>)
    ensures r == [] || r == [e]
    ensures |r| == 1 <==> e in subscribed
  {
    if e in subscribed then [e] else []
  }

  /** One press of Fire1: Up, then exactly one of DoubleClick or Click. */
  function Press(subscribed: set<InputEvent>, now: real, lastUp: real, window: real): seq<InputEvent>
  {
    Invoke(subscribed, Up)
      + Invoke(subscribed, if IsDoubleClick(now, lastUp, window) then DoubleClick else Click)
  }

  /**
    The events one frame invokes, in order: those of a Fire1 press, then
    Cancel. `fire1Down` and `cancelDown` are the frame's button-down flags
    and `lastUp` the time recorded at the previous Fire1 press.
   */
  function Fired(subscribed: set<InputEvent>, fire1Down: bool, cancelDown: bool,
                 now: real, lastUp: real, window: real): (r: seq<InputEvent>)
    ensures Down !in r
    ensures Up in r <==> fire1Down && Up in subscribed
    ensures Click in r <==> fire1Down && !IsDoubleClick(now, lastUp, window) && Click in subscribed
    ensures DoubleClick in r <==> fire1Down && IsDoubleClick(now, lastUp, window) && DoubleClick in subscribed
    ensures Cancel in r <==> cancelDown && Cancel in subscribed
    ensures !(Click in r && DoubleClick in r)
    ensures forall i, j :: 0 <= i < j < |r| ==> r[i] != r[j]
    ensures forall i :: 0 < i < |r| ==> r[i] != Up
    ensures forall i :: 0 <= i < |r| - 1 ==> r[i] != Cancel
  {
    (if fire1Down then Press(subscribed, now, lastUp, window) else [])
      + (if cancelDown then Invoke(subscribed, Cancel) else [])
  }

  /** One frame of input: the two button-down flags and Time.time. */
  datatype Frame = Frame(fire1Down: bool, cancelDown: bool, now: real)

  /** The timer after a frame: the frame's time on a Fire1 press, the old timer otherwise. */
  function Timer(f: Frame, lastUp: real): real {
    if f.fire1Down then f.now else lastUp
  }

  /** The events a run of frames invokes, one CheckInput per frame, with the timer threaded through. */
  function Run(subscribed: set<InputEvent>, frames: seq<Frame>, lastUp: real, window: real): seq<InputEvent>
  {
    if frames == [] then []
    else
      var f := frames[0];
      Fired(subscribed, f.fire1Down, f.cancelDown, f.now, lastUp, window)
        + Run(subscribed, frames[1..], Timer(f, lastUp), window)
  }

  /** The number of frames in which Fire1 went down. */
  function PressCount(frames: seq<Frame>): nat {
    if frames == [] then 0
    else (if frames[0].fire1Down then 1 else 0) + PressCount(frames[1..])
  }

  /** The Click and DoubleClick events of a sequence of events, in order. */
  function ClicksOf(events: seq<InputEvent>): seq<InputEvent> {
    if events == [] then []
    else (if events[0] == Click || events[0] == DoubleClick then [events[0]] else []) + ClicksOf(events[1..])
  }

  lemma {:induction false} ClicksOfAppend(a: seq<InputEvent>, b: seq<InputEvent>)
    ensures ClicksOf(a + b) == ClicksOf(a) + ClicksOf(b)
  {
    if a == [] {
      assert a + b == b;
    } else {
      assert (a + b)[0] == a[0];
      assert (a + b)[1..] == a[1..] + b;
      ClicksOfAppend(a[1..], b);
    }
  }

  /** Every event has subscribers. */
  const AllEvents: set<InputEvent> := {Click, Down, Up, DoubleClick, Cancel}

  /**
    The click kinds (Click or DoubleClick) a run of frames produces when
    every event has subscribers: one per Fire1 press, each decided by the
    timer the presses before it left behind.
   */
  function ClickKinds(frames: seq<Frame>, lastUp: real, window: real): (r: seq<InputEvent>)
    ensures |r| == PressCount(frames)
    ensures forall i :: 0 <= i < |r| ==> r[i] == Click || r[i] == DoubleClick
  {
    if frames == [] then []
    else
      var f := frames[0];
      if f.fire1Down then
        [if IsDoubleClick(f.now, lastUp, window) then DoubleClick else Click]
          + ClickKinds(frames[1..], f.now, window)
      else ClickKinds(frames[1..], lastUp, window)
  }

  /**
    ClickKinds is what successive CheckInput calls report: with every event
    subscribed, the Click and DoubleClick events of the run are exactly
    ClickKinds of its frames.
   */
  lemma {:induction false} RunClicksAreClickKinds(frames: seq<Frame>, lastUp: real, window: real)
    ensures ClicksOf(Run(AllEvents, frames, lastUp, window)) == ClickKinds(frames, lastUp, window)
  {
    if frames != [] {
      var f := frames[0];
      var head := Fired(AllEvents, f.fire1Down, f.cancelDown, f.now, lastUp, window);
      ClicksOfAppend(head, Run(AllEvents, frames[1..], Timer(f, lastUp), window));
      FrameClicks(f, lastUp, window);
      RunClicksAreClickKinds(frames[1..], Timer(f, lastUp), window);
    }
  }

  /** The click kind one frame contributes, with every event subscribed. */
  lemma FrameClicks(f: Frame, lastUp: real, window: real)
    ensures ClicksOf(Fired(AllEvents, f.fire1Down, f.cancelDown, f.now, lastUp, window))
         == if f.fire1Down then [if IsDoubleClick(f.now, lastUp, window) then DoubleClick else Click] else []
  {
    var kind := if IsDoubleClick(f.now, lastUp, window) then DoubleClick else Click;
    var cancel: seq<InputEvent> := if f.cancelDown then [Cancel] else [];
    var head := Fired(AllEvents, f.fire1Down, f.cancelDown, f.now, lastUp, window);
    assert ClicksOf(cancel) == [];
    if f.fire1Down {
      assert head == [Up] + ([kind] + cancel);
      ClicksOfAppend([kind], cancel);
      assert ClicksOf([kind]) == [kind];
    } else {
      assert head == cancel;
    }
  }

  /**
    Presses on consecutive frames, each less than `window` after the one
    before: every press after the first is a double click, because each
    press restarts the timer whether it was a click or a double click.
   */
  lemma {:induction false} PressTrainIsDoubleClicks(frames: seq<Frame>, lastUp: real, window: real)
    requires forall i :: 0 <= i < |frames| ==> frames[i].fire1Down
    requires forall i :: 0 < i < |frames| ==> frames[i].now - frames[i - 1].now < window
    ensures |ClickKinds(frames, lastUp, window)| == |frames|
    ensures forall i :: 0 < i < |frames| ==> ClickKinds(frames, lastUp, window)[i] == DoubleClick
  {
    if frames != [] {
      var rest := frames[1..];
      PressTrainIsDoubleClicks(rest, frames[0].now, window);
      var tail := ClickKinds(rest, frames[0].now, window);
      assert ClickKinds(frames, lastUp, window)
          == [if IsDoubleClick(frames[0].now, lastUp, window) then DoubleClick else Click] + tail;
      if |rest| > 0 {
        assert rest[0].now - frames[0].now < window;
        assert tail == [DoubleClick] + ClickKinds(rest[1..], rest[0].now, window);
      }
    }
  }

  /**
    The timer starts at 0, so a first press earlier than the double-click
    time after start-up counts as a double click.
   */
  lemma FirstEarlyPressIsDoubleClick(subscribed: set<InputEvent>, now: real)
    requires 0.0 <= now < DefaultDoubleClickTime && DoubleClick in subscribed
    ensures DoubleClick in Fired(subscribed, true, false, now, 0.0, DefaultDoubleClickTime)
    ensures Click !in Fired(subscribed, true, false, now, 0.0, DefaultDoubleClickTime)
  {
  }

  class VRInput {
    /** The events that currently have at least one subscriber. */
    var subscribed: set<InputEvent>
    var doubleClickTime: real
    /** The time of the last Fire1 press (VRInput's comments call it the last release). */
    var lastMouseUpTime: real

    constructor (subscribers: set<InputEvent>)
      ensures subscribed == subscribers
      ensures doubleClickTime == DefaultDoubleClickTime && lastMouseUpTime == 0.0
    {
      subscribed := subscribers;
      doubleClickTime := DefaultDoubleClickTime;
      lastMouseUpTime := 0.0;
    }

    /**
      CheckInput, run once per frame from Update: fires the events of the
      frame in order and restarts the double-click timer on a Fire1 press.
     */
    method CheckInput(fire1Down: bool, cancelDown: bool, now: real) returns (invoked: seq<InputEvent>)
      modifies this`lastMouseUpTime
      ensures invoked == Fired(subscribed, fire1Down, cancelDown, now, old(lastMouseUpTime), doubleClickTime)
      ensures lastMouseUpTime == if fire1Down then now else old(lastMouseUpTime)
    {
      invoked := [];
      if fire1Down {
        if Up in subscribed {
          invoked := invoked + [Up];
        }
        if now - lastMouseUpTime < doubleClickTime {
          if DoubleClick in subscribed {
            invoked := invoked + [DoubleClick];
          }
        } else {
          if Click in subscribed {
            invoked := invoked + [Click];
          }
        }
        lastMouseUpTime := now;
      }
      if cancelDown {
        if Cancel in subscribed {
          invoked := invoked + [Cancel];
        }
      }
    }

    /** OnDestroy: drops the subscribers of every event except Cancel. */
    method OnDestroy()
      modifies this`subscribed
      ensures subscribed == old(subscribed) * {Cancel}
    {
      subscribed := subscribed - {Click, DoubleClick, Down, Up};
      forall e: InputEvent
        ensures e in subscribed <==> e in old(subscribed) && e == Cancel
      {
        if e != Cancel {
          assert e in {Click, DoubleClick, Down, Up};
        }
      }
    }
  }
}

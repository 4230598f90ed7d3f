/** The main loop of the clock as a state machine: once per new second it
    logs a sample when one is due, shows the clock or blanks the screen
    after the screensaver timeout, and reboots the board at 0:01; on every
    pass the button toggles the display and the motion sensor (PIR) turns
    it on. */
module ControlLoop {

  /** Seconds without activity before the screen blanks. */
  const ScreensaverSecs: int := 300
  /** The local time of the daily reset, 0:01 (never a logging minute). */
  const ResetHour: int := 0
  const ResetMin: int := 1

  /** The variables the loop keeps from pass to pass. */
  datatype LoopState = LoopState(displayOn: bool, displayWasOn: bool, lastActionSecs: int,
                                 pirWasActive: bool, lastSecs: int, lastMin: int,
                                 firstMinSinceReset: bool)

  /** What one pass reads: the clock (in UTC seconds and as local hour and
      minute), whether the log would take a sample now, whether the
      debounced button rose, and the PIR sensor's level. */
  datatype Inputs = Inputs(secs: int, localHour: int, localMin: int, timeToLog: bool,
                           buttonRose: bool, pir: bool)

  /** What one pass does besides updating its variables. */
  datatype Actions = Actions(logSample: bool, showClock: bool, blank: bool, reset: bool)

  const NoActions := Actions(false, false, false, false)

  /** The variables at start-up, `secs` being the clock then. */
  function Boot(secs: int): LoopState
  {
    LoopState(true, false, secs, false, 0, 0, true)
  }

  /** The once-a-second part of a pass. */
  function SecondPhase(st: LoopState, inp: Inputs): (LoopState, Actions)
  {
    if inp.secs == st.lastSecs then (st, NoActions)
    else
      var timedOut := st.displayOn && inp.secs > st.lastActionSecs + ScreensaverSecs;
      var show := st.displayOn && !timedOut;
      var blank := !st.displayOn && st.displayWasOn;
      var wasOn := if show then true else if blank then false else st.displayWasOn;
      var newMin := inp.localMin != st.lastMin;
      var reset := newMin && !st.firstMinSinceReset && inp.localHour == ResetHour && inp.localMin == ResetMin;
      (st.(displayOn := st.displayOn && !timedOut, displayWasOn := wasOn, lastSecs := inp.secs,
           lastMin := inp.localMin, firstMinSinceReset := st.firstMinSinceReset && !newMin),
       Actions(inp.timeToLog, show, blank, reset))
  }

  /** The button and PIR part of a pass. */
  function InputPhase(st: LoopState, inp: Inputs): LoopState
  {
    var st1 := if inp.buttonRose then st.(displayOn := !st.displayOn, lastActionSecs := inp.secs) else st;
    if inp.pir == st1.pirWasActive then st1
    else if inp.pir then st1.(pirWasActive := true, displayOn := true, lastActionSecs := inp.secs)
    else st1.(pirWasActive := false)
  }

  /** One pass of the loop. A reset reboots the board before the button
      and the sensor are looked at, and the program starts afresh. */
  function Step(st: LoopState, inp: Inputs): (LoopState, Actions)
  {
    var (st1, acts) := SecondPhase(st, inp);
    if acts.reset then (Boot(inp.secs), acts) else (InputPhase(st1, inp), acts)
  }

  /** Passes over a sequence of inputs, with the actions of each. */
  function RunFrom(st: LoopState, inputs: seq<Inputs>): (r: (LoopState, seq<Actions>))
    ensures |r.1| == |inputs|
    decreases |inputs|
  {
    if inputs == [] then (st, [])
    else
      var (st1, a) := Step(st, inputs[0]);
      var (st2, rest) := RunFrom(st1, inputs[1..]);
      (st2, [a] + rest)
  }

  /** One pass, then the rest. */
  lemma RunFromCons(st: LoopState, inputs: seq<Inputs>)
    requires inputs != []
    ensures RunFrom(st, inputs).0 == RunFrom(Step(st, inputs[0]).0, inputs[1..]).0
    ensures RunFrom(st, inputs).1 == [Step(st, inputs[0]).1] + RunFrom(Step(st, inputs[0]).0, inputs[1..]).1
  {
  }

  /** Within one second nothing but the button and the sensor acts. */
  lemma SameSecondOnlyInputs(st: LoopState, inp: Inputs)
    requires inp.secs == st.lastSecs
    ensures Step(st, inp) == (InputPhase(st, inp), NoActions)
  {
  }

  /** A button rise toggles the display and restarts the screensaver
      timer, unless the pass rebooted or the sensor rose as well. */
  lemma ButtonToggles(st: LoopState, inp: Inputs)
    requires inp.buttonRose && !Step(st, inp).1.reset && !(inp.pir && !st.pirWasActive)
    ensures Step(st, inp).0.displayOn == !SecondPhase(st, inp).0.displayOn
    ensures Step(st, inp).0.lastActionSecs == inp.secs
  {
  }

  /** A rising PIR level turns the display on and restarts the timer,
      whatever the button did. */
  lemma PirRiseTurnsOn(st: LoopState, inp: Inputs)
    requires inp.pir && !st.pirWasActive && !Step(st, inp).1.reset
    ensures Step(st, inp).0.displayOn && Step(st, inp).0.lastActionSecs == inp.secs
    ensures Step(st, inp).0.pirWasActive
  {
  }

  /** A falling PIR level only records the new level. */
  lemma PirFallChangesNothing(st: LoopState, inp: Inputs)
    requires !inp.pir && st.pirWasActive && !inp.buttonRose && !Step(st, inp).1.reset
    ensures var (st1, _) := SecondPhase(st, inp);
      Step(st, inp).0 == st1.(pirWasActive := false)
  {
  }

  /** At a new second with the display on, it shows the clock while the
      last action is at most `screensaver_secs` old; once it is older the
      display turns off without showing the clock, and stays off unless
      the button or the sensor acts. */
  lemma ScreensaverTimeout(st: LoopState, inp: Inputs)
    requires inp.secs != st.lastSecs && st.displayOn
    ensures Step(st, inp).1.showClock <==> inp.secs <= st.lastActionSecs + ScreensaverSecs
    ensures && inp.secs > st.lastActionSecs + ScreensaverSecs && !Step(st, inp).1.reset
            && !inp.buttonRose && !(inp.pir && !st.pirWasActive) ==>
              !Step(st, inp).0.displayOn
  {
  }

  /** A display that has turned off is blanked once, at the next new
      second, and not again while it stays off. */
  lemma BlankedOnce(st: LoopState, inp: Inputs)
    requires inp.secs != st.lastSecs && !st.displayOn
    ensures Step(st, inp).1.blank <==> st.displayWasOn
    ensures !Step(st, inp).1.reset ==> !Step(st, inp).0.displayWasOn
  {
  }

  /** The reset rule: a pass reboots exactly at a new second whose local
      minute differs from the last one seen, when that is not the first
      minute change since start-up, and the local time is 0:01. */
  lemma ResetRule(st: LoopState, inp: Inputs)
    ensures Step(st, inp).1.reset <==>
              && inp.secs != st.lastSecs && inp.localMin != st.lastMin && !st.firstMinSinceReset
              && inp.localHour == ResetHour && inp.localMin == ResetMin
  {
  }

  /** What keeps the board from rebooting again during the minute it
      rebooted in. */
  predicate NoResetPending(st: LoopState)
  {
    st.firstMinSinceReset || st.lastMin == ResetMin
  }

  /** No reboot loop: a board that starts (or restarts) during 0:01 does
      not reset again however many passes it makes during that minute. */
  lemma {:induction false} NoRebootLoop(st: LoopState, inputs: seq<Inputs>)
    requires NoResetPending(st)
    requires forall i :: 0 <= i < |inputs| ==> inputs[i].localHour == ResetHour && inputs[i].localMin == ResetMin
    ensures forall i :: 0 <= i < |inputs| ==> !RunFrom(st, inputs).1[i].reset
    decreases |inputs|
  {
    if inputs != [] {
      var (st1, a) := Step(st, inputs[0]);
      assert !a.reset;
      assert NoResetPending(st1);
      NoRebootLoop(st1, inputs[1..]);
      var rest := RunFrom(st1, inputs[1..]).1;
      assert RunFrom(st, inputs).1 == [a] + rest;
      forall i | 0 <= i < |inputs|
        ensures !RunFrom(st, inputs).1[i].reset
      {
        if i > 0 {
          assert RunFrom(st, inputs).1[i] == rest[i - 1];
        }
      }
    }
  }

  lemma BootHasNoResetPending(secs: int)
    ensures NoResetPending(Boot(secs))
  {
  }

  /** The loop's variables, updated in place by each pass. */
  class MainLoop {
    var displayOn: bool
    var displayWasOn: bool
    var lastActionSecs: int
    var pirWasActive: bool
    var lastSecs: int
    var lastMin: int
    var firstMinSinceReset: bool

    function State(): LoopState
      reads this
    {
      LoopState(displayOn, displayWasOn, lastActionSecs, pirWasActive, lastSecs, lastMin, firstMinSinceReset)
    }

    /** Start-up: the initial values of the loop's variables. */
    constructor (bootSecs: int)
      ensures State() == Boot(bootSecs)
    {
      displayOn, displayWasOn, lastActionSecs := true, false, bootSecs;
      pirWasActive, lastSecs, lastMin, firstMinSinceReset := false, 0, 0, true;
    }

    /** `microcontroller.reset()`: the program restarts at `secs`. */
    method Reboot(secs: int)
      modifies this
      ensures State() == Boot(secs)
    {
      displayOn, displayWasOn, lastActionSecs := true, false, secs;
      pirWasActive, lastSecs, lastMin, firstMinSinceReset := false, 0, 0, true;
    }

    /** The part of a pass that runs when the clock shows a new second:
        sample, show or blank the screen, and watch for 0:01. */
    method EverySecond(inp: Inputs) returns (acts: Actions)
      modifies this
      ensures (State(), acts) == SecondPhase(old(State()), inp)
    {
      acts := NoActions;
      var secs := inp.secs;
      if secs != lastSecs {
        lastSecs := secs;
        var show, blank, reset := false, false, false;
        if displayOn {
          if secs > lastActionSecs + ScreensaverSecs {
            displayOn := false;
          } else {
            show := true;
            displayWasOn := true;
          }
        } else {
          if displayWasOn {
            blank := true;
            displayWasOn := false;
          }
        }
        if inp.localMin != lastMin {
          lastMin := inp.localMin;
          if firstMinSinceReset {
            firstMinSinceReset := false;
          } else {
            reset := inp.localHour == ResetHour && inp.localMin == ResetMin;
          }
        }
        acts := Actions(inp.timeToLog, show, blank, reset);
      }
    }

    /** The part of a pass that reads the button and the PIR sensor. */
    method CheckInputs(inp: Inputs)
      modifies this
      ensures State() == InputPhase(old(State()), inp)
    {
      if inp.buttonRose {
        displayOn := !displayOn;
        lastActionSecs := inp.secs;
      }
      if inp.pir != pirWasActive {
        pirWasActive := inp.pir;
        if inp.pir {
          displayOn := true;
          lastActionSecs := inp.secs;
        }
      }
    }

    /** One pass of `while True`. */
    method Iterate(inp: Inputs) returns (acts: Actions)
      modifies this
      ensures (State(), acts) == Step(old(State()), inp)
    {
      acts := EverySecond(inp);
      if acts.reset {
        Reboot(inp.secs);
        return;
      }
      CheckInputs(inp);
    }

    /** Passes over a sequence of inputs, collecting their actions. */
    method Run(inputs: seq<Inputs>) returns (acts: seq<Actions>)
      modifies this
      ensures (State(), acts) == RunFrom(old(State()), inputs)
    {
      ghost var st0 := State();
      acts := [];
      assert inputs[0..] == inputs;
      for i := 0 to |inputs|
        invariant RunFrom(st0, inputs).0 == RunFrom(State(), inputs[i..]).0
        invariant RunFrom(st0, inputs).1 == acts + RunFrom(State(), inputs[i..]).1
      {
        ghost var before := State();
        var a := Iterate(inputs[i]);
        assert inputs[i..][0] == inputs[i] && inputs[i..][1..] == inputs[i + 1..];
        RunFromCons(before, inputs[i..]);
        acts := acts + [a];
      }
      assert inputs[|inputs|..] == [];
      assert RunFrom(State(), []) == (State(), []);
      assert RunFrom(st0, inputs).0 == State();
      assert RunFrom(st0, inputs).1 == acts;
      assert st0 == old(State());
    }
  }
}

/** The engine of the Moore machine in lab10/Lab10.c: the current-state and
    input globals, the two light registers it writes, and the main loop that
    emits a state's outputs, dwells, samples the sensors and transitions.
    A run is bounded by a finite sequence of sensor samples. */
module MooreEngine {
  import opened StateTable

  /** What one cycle emits: the road code, the pedestrian code and the
      dwell time handed to the millisecond delay. */
  datatype Emission = Emission(road: int, ped: int, dwell: int)

  predicate AllSamples(inputs: seq<int>)
  {
    forall k :: 0 <= k < |inputs| ==> IsSample(inputs[k])
  }

  /** The Moore output of a state: it depends on the state alone. */
  function Output(s: int): (e: Emission)
    requires IsState(s)
    ensures e.dwell == Dwell
    ensures RoadSafe(e.road) && PedSafe(e.road, e.ped)
  {
    TableSafe();
    DwellIsConstant(s);
    Emission(FSM[s].outLed, FSM[s].outPed, FSM[s].time)
  }

  /** The state reached from `s` after consuming `inputs`, one per cycle. */
  function StateAfter(s: int, inputs: seq<int>): (r: int)
    requires IsState(s) && AllSamples(inputs)
    ensures IsState(r)
    decreases |inputs|
  {
    if inputs == [] then s else StateAfter(Step(s, inputs[0]), inputs[1..])
  }

  /** The emissions of the cycles that consume `inputs`, starting in `s`. */
  function Trace(s: int, inputs: seq<int>): (t: seq<Emission>)
    requires IsState(s) && AllSamples(inputs)
    ensures |t| == |inputs|
    decreases |inputs|
  {
    if inputs == [] then [] else [Output(s)] + Trace(Step(s, inputs[0]), inputs[1..])
  }

  /** One more sample advances the final state by one Step. */
  lemma {:induction false} StateAfterSnoc(s: int, inputs: seq<int>, x: int)
    requires IsState(s) && AllSamples(inputs) && IsSample(x)
    ensures AllSamples(inputs + [x])
    ensures StateAfter(s, inputs + [x]) == Step(StateAfter(s, inputs), x)
    decreases |inputs|
  {
    assert AllSamples(inputs + [x]);
    if inputs != [] {
      assert (inputs + [x])[1..] == inputs[1..] + [x];
      StateAfterSnoc(Step(s, inputs[0]), inputs[1..], x);
    }
  }

  /** One more sample adds the output of the state reached so far. */
  lemma {:induction false} TraceSnoc(s: int, inputs: seq<int>, x: int)
    requires IsState(s) && AllSamples(inputs) && IsSample(x)
    ensures AllSamples(inputs + [x])
    ensures Trace(s, inputs + [x]) == Trace(s, inputs) + [Output(StateAfter(s, inputs))]
    decreases |inputs|
  {
    assert AllSamples(inputs + [x]);
    if inputs == [] {
    } else {
      assert (inputs + [x])[1..] == inputs[1..] + [x];
      TraceSnoc(Step(s, inputs[0]), inputs[1..], x);
    }
  }

  /** Moore property: the k-th emission is the output of the state reached
      after the first k samples; sample k itself does not affect it. */
  lemma {:induction false} TraceAt(s: int, inputs: seq<int>, k: int)
    requires IsState(s) && AllSamples(inputs) && 0 <= k < |inputs|
    ensures AllSamples(inputs[..k])
    ensures Trace(s, inputs)[k] == Output(StateAfter(s, inputs[..k]))
    decreases k
  {
    assert AllSamples(inputs[..k]);
    if k > 0 {
      assert inputs[1..][..k - 1] == inputs[..k][1..];
      TraceAt(Step(s, inputs[0]), inputs[1..], k - 1);
    }
  }

  /** Splitting the samples splits the run: later samples never change
      earlier emissions. */
  lemma {:induction false} TraceAppend(s: int, xs: seq<int>, ys: seq<int>)
    requires IsState(s) && AllSamples(xs) && AllSamples(ys)
    ensures AllSamples(xs + ys)
    ensures Trace(s, xs + ys) == Trace(s, xs) + Trace(StateAfter(s, xs), ys)
    ensures StateAfter(s, xs + ys) == StateAfter(StateAfter(s, xs), ys)
    decreases |xs|
  {
    assert AllSamples(xs + ys);
    if xs == [] {
      assert xs + ys == ys;
    } else {
      assert (xs + ys)[1..] == xs[1..] + ys;
      TraceAppend(Step(s, xs[0]), xs[1..], ys);
    }
  }

  /** Every emission of every run is safe: walk only with both roads red,
      never green both ways, red somewhere, dwell 600 ms. */
  lemma {:induction false} RunSafe(s: int, inputs: seq<int>)
    requires IsState(s) && AllSamples(inputs)
    ensures forall k :: 0 <= k < |inputs| ==>
      RoadSafe(Trace(s, inputs)[k].road) && PedSafe(Trace(s, inputs)[k].road, Trace(s, inputs)[k].ped) &&
      Trace(s, inputs)[k].dwell == Dwell
    decreases |inputs|
  {
    if inputs != [] {
      RunSafe(Step(s, inputs[0]), inputs[1..]);
      var t := Trace(s, inputs);
      assert t == [Output(s)] + Trace(Step(s, inputs[0]), inputs[1..]);
      forall k | 0 <= k < |inputs|
        ensures RoadSafe(t[k].road) && PedSafe(t[k].road, t[k].ped) && t[k].dwell == Dwell
      {
        if k > 0 { assert t[k] == Trace(Step(s, inputs[0]), inputs[1..])[k - 1]; }
      }
    }
  }

  /** From FlashPed1 any three samples lead to FlashPed4. */
  lemma FlashSequence(inputs: seq<int>)
    requires AllSamples(inputs) && |inputs| == 3
    ensures StateAfter(FlashPed1, inputs) == FlashPed4
  {
    FlashIgnoresInput(inputs[0]);
    FlashIgnoresInput(inputs[1]);
    FlashIgnoresInput(inputs[2]);
    assert StateAfter(FlashPed4, inputs[3..]) == FlashPed4;
    assert StateAfter(FlashPed3, inputs[2..]) == StateAfter(FlashPed4, inputs[2..][1..]);
    assert StateAfter(FlashPed2, inputs[1..]) == StateAfter(FlashPed3, inputs[1..][1..]);
    assert inputs[1..][1..] == inputs[2..] && inputs[2..][1..] == inputs[3..];
  }

  /** The flash blinks the pedestrian light don't-walk, dark, don't-walk,
      dark with both roads red, whatever the sensors read meanwhile. */
  lemma FlashTrace(inputs: seq<int>)
    requires AllSamples(inputs) && |inputs| == 4
    ensures Trace(FlashPed1, inputs) == [
      Emission(BothRed, DontWalk, Dwell), Emission(BothRed, Dark, Dwell),
      Emission(BothRed, DontWalk, Dwell), Emission(BothRed, Dark, Dwell)]
  {
    FlashIgnoresInput(inputs[0]);
    FlashIgnoresInput(inputs[1]);
    FlashIgnoresInput(inputs[2]);
    assert inputs[1..][1..] == inputs[2..] && inputs[2..][1..] == inputs[3..] && inputs[3..][1..] == [];
    assert Trace(FlashPed4, inputs[3..]) == [Output(FlashPed4)];
    assert Trace(FlashPed3, inputs[2..]) == [Output(FlashPed3)] + Trace(FlashPed4, inputs[3..]);
    assert Trace(FlashPed2, inputs[1..]) == [Output(FlashPed2)] + Trace(FlashPed3, inputs[2..]);
    assert Trace(FlashPed1, inputs) == [Output(FlashPed1)] + Trace(FlashPed2, inputs[1..]);
  }

  /** Once GoPed ends, the full four-state flash follows: any sample that
      leaves GoPed and any three samples after it reach FlashPed4. */
  lemma GoPedExitFlashes(inputs: seq<int>)
    requires AllSamples(inputs) && |inputs| == 4
    requires Step(GoPed, inputs[0]) != GoPed
    ensures StateAfter(GoPed, inputs) == FlashPed4
  {
    GoPedRule(inputs[0]);
    FlashSequence(inputs[1..]);
  }

  /** A sensor sequence of length n that repeats one sample. */
  function Repeat(x: int, n: nat): (r: seq<int>)
    ensures |r| == n && forall k :: 0 <= k < n ==> r[k] == x
  {
    if n == 0 then [] else [x] + Repeat(x, n - 1)
  }

  /** While a pedestrian waits and a north/south car stays present
      (sample 6), GoSouth never yields: the pedestrian request is not
      served. */
  lemma {:induction false} GoSouthHoldsOnPedAndNsCar(n: nat)
    ensures AllSamples(Repeat(6, n))
    ensures StateAfter(GoSouth, Repeat(6, n)) == GoSouth
  {
    if n > 0 {
      GoSouthRule(6);
      assert Repeat(6, n)[1..] == Repeat(6, n - 1);
      GoSouthHoldsOnPedAndNsCar(n - 1);
    }
  }

  /** A north/south car at GoWest brings WaitWest; an all-zero sample
      there then continues to GoSouth, and only the east/west car alone
      (sample 1) returns to GoWest. */
  lemma NsCarThenIdle()
    ensures StateAfter(GoWest, [2, 0]) == GoSouth
    ensures StateAfter(GoWest, [2, 1]) == GoWest
    ensures Trace(GoWest, [2, 0]) == [Emission(0x0c, DontWalk, Dwell), Emission(0x14, DontWalk, Dwell)]
  {
    GoWestRule(2);
    WaitWestRule(0);
    WaitWestRule(1);
    assert [2, 0][1..] == [0] && [2, 1][1..] == [1];
    assert StateAfter(WaitWest, [0]) == StateAfter(GoSouth, []);
    assert StateAfter(WaitWest, [1]) == StateAfter(GoWest, []);
  }

  /** Sample 1 (east/west car only) walks GoPed through the flash states,
      one state per cycle. */
  lemma {:induction false} FlashChain(s: int, j: nat)
    requires GoPed <= s && s + j <= FlashPed4
    ensures AllSamples(Repeat(1, j)) && StateAfter(s, Repeat(1, j)) == s + j
    decreases j
  {
    if j > 0 {
      GoPedRule(1);
      FlashIgnoresInput(1);
      assert Repeat(1, j)[1..] == Repeat(1, j - 1);
      FlashChain(s + 1, j - 1);
    }
  }

  /** Every state can be reached from the initial state GoWest. */
  lemma AllStatesReachable(s: int)
    requires IsState(s)
    ensures exists inputs :: AllSamples(inputs) && StateAfter(GoWest, inputs) == s
  {
    var w: seq<int>;
    if s == GoWest {
      w := [];
    } else if s == WaitWest {
      w := [2];
    } else if s == GoSouth {
      w := [2, 2];
    } else if s == WaitSouth {
      w := [2, 2, 1];
    } else if s == GoPed {
      w := [4, 4];
    } else {
      // The flash states follow GoPed in order, one per cycle.
      w := [4, 4] + Repeat(1, s - GoPed);
      FlashChain(GoPed, s - GoPed);
      assert StateAfter(GoWest, [4, 4]) == GoPed;
      TraceAppend(GoWest, [4, 4], Repeat(1, s - GoPed));
    }
    assert AllSamples(w) && StateAfter(GoWest, w) == s;
  }

  /** The controller's mutable state: the current state index `S`, the last
      sensor sample `Input`, and the last values written to the road and
      pedestrian light registers. */
  class Engine {
    var state: int
    var input: int
    var roadLed: int
    var pedLed: int

    ghost predicate Valid()
      reads this
    {
      IsState(state)
    }

    /** The engine starts in GoWest. */
    constructor ()
      ensures Valid() && state == GoWest
    {
      state := GoWest;
      input := 0;
      roadLed := 0;
      pedLed := 0;
    }

    /** Writes the current state's road and pedestrian codes. */
    method WriteOutputs()
      requires Valid()
      modifies this`roadLed, this`pedLed
      ensures Valid()
      ensures roadLed == FSM[state].outLed && pedLed == FSM[state].outPed
    {
      roadLed := FSM[state].outLed;
      pedLed := FSM[state].outPed;
    }

    /** Records the sensor sample and moves to the table's next state for it. */
    method Transition(sample: int)
      requires Valid() && IsSample(sample)
      modifies this`state, this`input
      ensures Valid()
      ensures input == sample && state == Step(old(state), sample)
    {
      input := sample;
      state := FSM[state].next[input];
    }
  }

  /** The main loop over a finite sequence of sensor samples: starting in
      GoWest, each cycle writes the outputs, dwells for the state's time
      (recorded in the emission), reads a sample and transitions. */
  method Run(inputs: seq<int>) returns (trace: seq<Emission>, final: int)
    requires AllSamples(inputs)
    ensures final == StateAfter(GoWest, inputs)
    ensures trace == Trace(GoWest, inputs)
  {
    var engine := new Engine();
    trace := [];
    var n := 0;
    while n < |inputs|
      invariant 0 <= n <= |inputs|
      invariant engine.Valid() && AllSamples(inputs[..n])
      invariant engine.state == StateAfter(GoWest, inputs[..n])
      invariant trace == Trace(GoWest, inputs[..n])
    {
      engine.WriteOutputs();
      trace := trace + [Emission(engine.roadLed, engine.pedLed, FSM[engine.state].time)];
      engine.Transition(inputs[n]);
      assert inputs[..n + 1] == inputs[..n] + [inputs[n]];
      StateAfterSnoc(GoWest, inputs[..n], inputs[n]);
      TraceSnoc(GoWest, inputs[..n], inputs[n]);
      n := n + 1;
    }
    assert inputs[..n] == inputs;
    final := engine.state;
  }
}

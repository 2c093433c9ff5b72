/** The constant state table of the table-driven Moore machine that runs the
    traffic and pedestrian lights (lab10/Lab10.c), and the facts every entry
    of it satisfies. */
module StateTable {

  /** One row of the table: the road-light code written to port B, the
      pedestrian-light code written to port F, the dwell time in
      milliseconds, and the next state for each of the 8 sensor samples. */
  datatype State = State(outLed: int, outPed: int, time: int, next: seq<int>)

  // State indices.
  const GoWest := 0
  const WaitWest := 1
  const GoSouth := 2
  const WaitSouth := 3
  const GoPed := 4
  const FlashPed1 := 5
  const FlashPed2 := 6
  const FlashPed3 := 7
  const FlashPed4 := 8

  const StateCount := 9
  const SampleCount := 8

  // Road-light bits on PB5..PB0.
  const EwRed := 0x20
  const EwYellow := 0x10
  const EwGreen := 0x08
  const NsRed := 0x04
  const NsYellow := 0x02
  const NsGreen := 0x01

  /** Both roads red: the only road code of the pedestrian states. */
  const BothRed := EwRed + NsRed

  // Pedestrian-light codes: "walk" on PF3, "don't walk" on PF1, or neither.
  const Walk := 0x08
  const DontWalk := 0x02
  const Dark := 0x00

  /** The dwell time of every state, in milliseconds. */
  const Dwell := 600

  /** The table, entry for entry as initialised in the source. */
  const FSM: seq<State> := [
    State(0x0c, 0x02, 600, [GoWest, GoWest, WaitWest, WaitWest, WaitWest, WaitWest, WaitWest, WaitWest]),
    State(0x14, 0x02, 600, [GoSouth, GoWest, GoSouth, GoSouth, GoPed, GoPed, GoSouth, GoSouth]),
    State(0x21, 0x02, 600, [GoSouth, WaitSouth, GoSouth, WaitSouth, WaitSouth, WaitSouth, GoSouth, WaitSouth]),
    State(0x22, 0x02, 600, [GoWest, GoWest, GoSouth, GoWest, GoPed, GoWest, GoPed, GoPed]),
    State(0x24, 0x08, 600, [GoPed, FlashPed1, FlashPed1, FlashPed1, GoPed, FlashPed1, FlashPed1, FlashPed1]),
    State(0x24, 0x02, 600, [FlashPed2, FlashPed2, FlashPed2, FlashPed2, FlashPed2, FlashPed2, FlashPed2, FlashPed2]),
    State(0x24, 0x00, 600, [FlashPed3, FlashPed3, FlashPed3, FlashPed3, FlashPed3, FlashPed3, FlashPed3, FlashPed3]),
    State(0x24, 0x02, 600, [FlashPed4, FlashPed4, FlashPed4, FlashPed4, FlashPed4, FlashPed4, FlashPed4, FlashPed4]),
    State(0x24, 0x00, 600, [GoWest, GoWest, GoSouth, GoWest, GoPed, GoWest, GoSouth, GoWest])
  ]

  predicate IsState(s: int) { 0 <= s < StateCount }

  /** A 3-bit sensor sample. */
  predicate IsSample(i: int) { 0 <= i < SampleCount }

  /** Whether the bit `mask` (a power of two) is set in `code`. */
  predicate HasBit(code: int, mask: int)
    requires mask > 0
  {
    (code / mask) % 2 == 1
  }

  // Sensor bits: PE2 pedestrian, PE1 north/south car, PE0 east/west car.
  predicate PedRequest(i: int) { HasBit(i, 4) }
  predicate NsCar(i: int) { HasBit(i, 2) }
  predicate EwCar(i: int) { HasBit(i, 1) }

  /** The table is well formed: 9 rows of 8 next-state entries each, and
      every entry names one of the 9 states. */
  predicate Closed(table: seq<State>)
  {
    |table| == StateCount &&
    forall s :: 0 <= s < |table| ==>
      |table[s].next| == SampleCount &&
      forall i :: 0 <= i < |table[s].next| ==> IsState(table[s].next[i])
  }

  lemma TableClosed()
    ensures Closed(FSM)
  {
    forall s | 0 <= s < |FSM|
      ensures |FSM[s].next| == SampleCount
      ensures forall i :: 0 <= i < |FSM[s].next| ==> IsState(FSM[s].next[i])
    {
      assert s in {0, 1, 2, 3, 4, 5, 6, 7, 8};
    }
  }

  /** The transition of one cycle: the next state for sample `i` in state `s`. */
  function Step(s: int, i: int): (r: int)
    requires IsState(s) && IsSample(i)
    ensures IsState(r)
  {
    TableClosed();
    FSM[s].next[i]
  }

  // ----- Per-entry facts about outputs and dwell -----

  /** The output codes of a state satisfy the walk-light safety rules:
      walk only when both roads are red, "don't walk" whenever a road is not
      red, and only the three pedestrian codes are used. */
  predicate PedSafe(road: int, ped: int)
  {
    (ped == Walk ==> road == BothRed) &&
    (road != BothRed ==> ped == DontWalk) &&
    (ped == Walk || ped == DontWalk || ped == Dark)
  }

  /** A road code fits the six light bits, never shows green both ways and
      shows red to at least one direction. */
  predicate RoadSafe(road: int)
  {
    0 <= road < 64 &&
    !(HasBit(road, EwGreen) && HasBit(road, NsGreen)) &&
    (HasBit(road, EwRed) || HasBit(road, NsRed))
  }

  lemma TableSafe()
    ensures forall s :: 0 <= s < |FSM| ==> RoadSafe(FSM[s].outLed) && PedSafe(FSM[s].outLed, FSM[s].outPed)
  {
    forall s | 0 <= s < |FSM|
      ensures RoadSafe(FSM[s].outLed) && PedSafe(FSM[s].outLed, FSM[s].outPed)
    {
      assert s in {0, 1, 2, 3, 4, 5, 6, 7, 8};
    }
  }

  /** The walk code appears in exactly one state, GoPed, whose road code is
      both-red. */
  lemma WalkOnlyInGoPed(s: int)
    requires IsState(s)
    ensures FSM[s].outPed == Walk <==> s == GoPed
    ensures FSM[GoPed].outLed == BothRed
  {
    assert s in {0, 1, 2, 3, 4, 5, 6, 7, 8};
  }

  /** Every state dwells exactly 600 ms. */
  lemma DwellIsConstant(s: int)
    requires IsState(s)
    ensures FSM[s].time == Dwell
  {
    assert s in {0, 1, 2, 3, 4, 5, 6, 7, 8};
  }

  // ----- Transition rules -----

  /** GoWest holds unless the north/south car or the pedestrian sensor is
      set, and then yields to WaitWest. */
  lemma GoWestRule(i: int)
    requires IsSample(i)
    ensures Step(GoWest, i) == (if NsCar(i) || PedRequest(i) then WaitWest else GoWest)
    ensures Step(GoWest, i) == GoWest <==> i == 0 || i == 1
  {
    assert i in {0, 1, 2, 3, 4, 5, 6, 7};
  }

  /** WaitWest goes to GoSouth on inputs 0, 2, 3, 6 and 7, to GoWest on the
      east/west car alone, and to GoPed on inputs 4 and 5. */
  lemma WaitWestRule(i: int)
    requires IsSample(i)
    ensures Step(WaitWest, i) == GoWest <==> i == 1
    ensures Step(WaitWest, i) == GoPed <==> i == 4 || i == 5
    ensures Step(WaitWest, i) == GoSouth <==> i in {0, 2, 3, 6, 7}
  {
    assert i in {0, 1, 2, 3, 4, 5, 6, 7};
  }

  /** GoSouth holds on inputs 0, 2 and 6 and yields to WaitSouth otherwise. */
  lemma GoSouthRule(i: int)
    requires IsSample(i)
    ensures Step(GoSouth, i) == (if i in {0, 2, 6} then GoSouth else WaitSouth)
    ensures Step(GoSouth, i) == WaitSouth <==> EwCar(i) || (PedRequest(i) && !NsCar(i))
  {
    assert i in {0, 1, 2, 3, 4, 5, 6, 7};
  }

  /** WaitSouth goes to GoSouth on the north/south car alone, to GoPed on
      inputs 4, 6 and 7, and to GoWest otherwise. */
  lemma WaitSouthRule(i: int)
    requires IsSample(i)
    ensures Step(WaitSouth, i) == (if i == 2 then GoSouth else if i in {4, 6, 7} then GoPed else GoWest)
  {
    assert i in {0, 1, 2, 3, 4, 5, 6, 7};
  }

  /** GoPed holds on inputs 0 and 4 and starts the flash otherwise. */
  lemma GoPedRule(i: int)
    requires IsSample(i)
    ensures Step(GoPed, i) == (if i == 0 || i == 4 then GoPed else FlashPed1)
    ensures Step(GoPed, i) == GoPed <==> !NsCar(i) && !EwCar(i)
  {
    assert i in {0, 1, 2, 3, 4, 5, 6, 7};
  }

  /** The first three flash states advance whatever the sample is. */
  lemma FlashIgnoresInput(i: int)
    requires IsSample(i)
    ensures Step(FlashPed1, i) == FlashPed2
    ensures Step(FlashPed2, i) == FlashPed3
    ensures Step(FlashPed3, i) == FlashPed4
  {
    assert i in {0, 1, 2, 3, 4, 5, 6, 7};
  }

  /** FlashPed4 goes to GoSouth on inputs 2 and 6, to GoPed on input 4, and
      to GoWest otherwise. */
  lemma FlashPed4Rule(i: int)
    requires IsSample(i)
    ensures Step(FlashPed4, i) == (if i == 2 || i == 6 then GoSouth else if i == 4 then GoPed else GoWest)
  {
    assert i in {0, 1, 2, 3, 4, 5, 6, 7};
  }
}

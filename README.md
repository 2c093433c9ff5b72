# Table-driven traffic and pedestrian light controller

This project models the Moore finite-state machine of the Lab 10 traffic
light controller (`lab10/Lab10.c`). The controller manages one
intersection with an east/west road, a north/south road and a pedestrian
crossing. It reads three sensors: pedestrian (PE2), north/south car (PE1)
and east/west car (PE0). It drives six road lights (PB5..PB0: east/west
red, yellow, green; north/south red, yellow, green) and a walk light (PF3)
and a don't-walk light (PF1).

The controller has two parts, and so does the model:

- `StateTable` (`state_table.dfy`) holds the constant table `FSM[9]`. Each
  entry has a road code, a pedestrian code, a 600 ms dwell time and 8
  next-state indices, one per 3-bit sensor sample. The entries are copied
  literally. `Step` is the one-cycle transition. Lemmas state, entry by
  entry, that the table is closed, what its output codes and dwell times
  are, and the transition rule of every state.
- `MooreEngine` (`engine.dfy`) holds the main loop. The class `Engine` has
  the globals `S` and `Input` and the two light registers as fields.
  `WriteOutputs` and `Transition` are the loop's two halves. `Run` is the
  `while` loop over a finite sequence of sensor samples. It starts in
  GoWest and records each cycle's emitted (road, pedestrian, dwell)
  triple. `Run` is proved against two functions: `StateAfter`, the fold of
  `Step` over the samples, and `Trace`, the emissions of those cycles.
  Lemmas about these functions cover the Moore property, the safety of
  every emission in every run, the forced flash sequence, reachability of
  every state, and one starvation case.

Some descriptions of this controller name transitions that disagree with
the table as initialised in the code. The model follows the code:

- WaitWest goes to GoSouth on the all-zero sample. It returns to GoWest
  only on sample 1 (east/west car alone). (`lab10/Lab10.c:49`)
- GoSouth stays on sample 6 (pedestrian plus north/south car), so a
  pedestrian request does not always yield. (`lab10/Lab10.c:50`)
- GoPed stays on sample 4 (pedestrian alone) as well as on 0, so not every
  nonzero sample starts the flash. (`lab10/Lab10.c:52`)
- FlashPed4 goes to GoSouth on sample 6, not to GoPed. (`lab10/Lab10.c:56`)

## Model

| member | source | states |
|---|---|---|
| `StateTable.TableClosed` | lab10/Lab10.c:47-57 | the table has 9 rows of 8 next-state entries each, and every entry is a state index in 0..8 |
| `StateTable.Step` | lab10/Lab10.c:146 | the table lookup `FSM[S].Next[Input]` is defined for every state and 3-bit sample, and always yields a state index in 0..8 |
| `StateTable.TableSafe` | lab10/Lab10.c:48-56 | every road code fits in 6 bits, never has both green bits (0x08 and 0x01), and has a red bit (0x20 or 0x04); walk (0x08) is shown only with road code 0x24; every road code other than 0x24 comes with don't-walk (0x02); every pedestrian code is 0x00, 0x02 or 0x08 |
| `StateTable.WalkOnlyInGoPed` | lab10/Lab10.c:48-56 | a state shows walk if and only if it is GoPed, and GoPed's road code is 0x24 (both red) |
| `StateTable.DwellIsConstant` | lab10/Lab10.c:48-56 | every state's dwell time is 600 |
| `StateTable.GoWestRule` | lab10/Lab10.c:48 | GoWest goes to WaitWest exactly when the north/south-car or pedestrian bit is set, and stays exactly on samples 0 and 1 |
| `StateTable.WaitWestRule` | lab10/Lab10.c:49 | WaitWest goes to GoWest exactly on sample 1, to GoPed exactly on samples 4 and 5, and to GoSouth exactly on samples 0, 2, 3, 6 and 7 |
| `StateTable.GoSouthRule` | lab10/Lab10.c:50 | GoSouth stays on samples 0, 2 and 6 and goes to WaitSouth otherwise, that is exactly when the east/west car is present or a pedestrian is present without a north/south car |
| `StateTable.WaitSouthRule` | lab10/Lab10.c:51 | WaitSouth goes to GoSouth on sample 2, to GoPed on samples 4, 6 and 7, and to GoWest on all other samples |
| `StateTable.GoPedRule` | lab10/Lab10.c:52 | GoPed stays on samples 0 and 4, that is exactly when neither car sensor is set, and goes to FlashPed1 otherwise |
| `StateTable.FlashIgnoresInput` | lab10/Lab10.c:53-55 | for every sample, FlashPed1 goes to FlashPed2, FlashPed2 to FlashPed3 and FlashPed3 to FlashPed4 |
| `StateTable.FlashPed4Rule` | lab10/Lab10.c:56 | FlashPed4 goes to GoSouth on samples 2 and 6, to GoPed on sample 4, and to GoWest on all other samples |
| `MooreEngine.Output` | lab10/Lab10.c:142-144 | a state's emission (its two light codes and its dwell) depends on the state alone; it is always safe by the road and walk-light rules and its dwell is 600 |
| `MooreEngine.StateAfter` | lab10/Lab10.c:141-147 | folding the transition over any finite sequence of valid samples always stays within the 9 states |
| `MooreEngine.Trace` | lab10/Lab10.c:141-147 | a run over n samples emits exactly n triples |
| `MooreEngine.StateAfterSnoc` | lab10/Lab10.c:145-146 | one more cycle moves the state reached so far by one table lookup on the new sample |
| `MooreEngine.TraceSnoc` | lab10/Lab10.c:142-144 | one more cycle appends the emission of the state reached so far |
| `MooreEngine.TraceAt` | lab10/Lab10.c:141-146 | Moore property: the k-th emission equals the outputs and dwell of the state reached after the first k samples, and so does not depend on sample k or later |
| `MooreEngine.TraceAppend` | lab10/Lab10.c:141-147 | a run over `xs + ys` is the run over `xs` followed by the run over `ys` from the state `xs` reached; later samples never change earlier emissions |
| `MooreEngine.RunSafe` | lab10/Lab10.c:142-144 | from any state and for any samples, every emission is safe: walk only with both roads red, never both directions green, some red shown, dwell 600 |
| `MooreEngine.FlashSequence` | lab10/Lab10.c:53-55 | from FlashPed1, any three samples lead to FlashPed4 |
| `MooreEngine.FlashTrace` | lab10/Lab10.c:53-56 | from FlashPed1, any four samples emit both-red with pedestrian codes don't-walk, dark, don't-walk, dark, each for 600 ms |
| `MooreEngine.GoPedExitFlashes` | lab10/Lab10.c:52-55 | a sample that makes GoPed leave, followed by any three samples, always ends in FlashPed4: the flash runs in full once started |
| `MooreEngine.GoSouthHoldsOnPedAndNsCar` | lab10/Lab10.c:50 | under a constant sample 6 (pedestrian plus north/south car), GoSouth holds for any number of cycles, so that pedestrian request is never served |
| `MooreEngine.NsCarThenIdle` | lab10/Lab10.c:48-49 | from GoWest, samples 2 then 0 reach GoSouth, samples 2 then 1 come back to GoWest, and samples 2, 0 emit the GoWest then WaitWest outputs |
| `MooreEngine.FlashChain` | lab10/Lab10.c:52-55 | sample 1 moves GoPed and the flash states one state forward per cycle |
| `MooreEngine.AllStatesReachable` | lab10/Lab10.c:48-56 | every one of the 9 states is reached from GoWest by some finite sequence of valid samples |
| `MooreEngine.Engine.constructor` | lab10/Lab10.c:140 | the engine starts in GoWest |
| `MooreEngine.Engine.WriteOutputs` | lab10/Lab10.c:142-143 | the road register receives the current state's road code and the pedestrian register its pedestrian code; the state is unchanged |
| `MooreEngine.Engine.Transition` | lab10/Lab10.c:145-146 | `Input` receives the sample and `S` becomes the table's next state for it; the light registers are unchanged |
| `MooreEngine.Run` | lab10/Lab10.c:140-147 | starting from GoWest, the final state is the fold of `Step` over the samples (`StateAfter`) and the recorded emissions are the run's `Trace`, so by `TraceAt` the k-th emission is the output of the state after k samples and by `RunSafe` every emission is safe |

## Left out

- Port initialisation (`PortE_Init`, `PortB_Init`, `PortF_Init`, `Init_Ports`, lab10/Lab10.c:96-131): register configuration with no logic.
- SysTick set-up and the busy-wait delays (`SysTick_Init`, `SysTick_Wait`, `SysTick_Wait1ms`, lab10/Lab10.c:76-94): hardware timing. The dwell appears only as the `dwell` value of each emission.
- `TExaS_Init`, `EnableInterrupts`, `DisableInterrupts` (lab10/Lab10.c:63-64, 134, 139): grader and interrupt calls whose bodies are not part of this model.
- The non-termination of `while(1)`: a run is bounded by a finite sequence of samples, one cycle per sample.
- The raw sensor read at lab10/Lab10.c:145 reads the whole port E data register without a mask. The model requires each sample to be in 0..7, which holds because only PE2..PE0 are enabled as digital pins (lab10/Lab10.c:101).
- The initial values of the light registers before the first cycle are not modelled (the constructor sets them to 0).

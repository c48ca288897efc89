# A verified model of the fault-injection wrapper

The wrapper injects faults into a design under test (DUT) through its scan chain. A campaign is a
list of trials, each a cycle and a set of flops. The host sorts it, packs it into 32-bit table
entries and writes it into registers; the hardware then runs the trials on its own: it counts to
the cycle, freezes everything that is not on the chain, rotates the chain once while inverting the
targets, lets the trial run on to its timeout, scrubs the chain, restores the memories, resets the
design and starts the next trial.

This project models that path from the host's Tcl to the flipped flops, and the pieces around it:
the freeze gate, the memories that undo themselves and their block-RAM form, the clock crossing of
the register bus, the UART observer, the board's byte stream and its decoder, the netlist tools that
move a gated design to an FPGA, and the multiplier/divider of the example core. Sequential blocks
are classes or per-register update functions whose `Tick` methods follow the source's clocked blocks;
what they compute is stated against independent specifications.

## The main results

* **The campaign is injected exactly** (`Boot.FromPowerOn`, `EndToEnd.CampaignInjectsExactly`). For
  every feasible campaign the host accepts and every run from power-on, with the register writes
  arriving at any spacing: pass number k belongs to trial k of the sorted schedule, starts when the
  counter holds that trial's cycle and inverts exactly that trial's cells; after the last trial no
  pass is made.
* **Feasible is exactly the condition** (`Feasibility.InjectedIff`, `Feasibility.EveryCompleteRunIff`).
  For every accepted campaign the hardware injects it in every run without an early abort if and only
  if every trial is feasible: the prefetch fits before its start pulse, the timeout leaves two cycles
  after it, and the indices past the chain are few enough (`Patterns.Harmless`). If one trial is not,
  every complete run goes wrong, and a complete run exists. `Leftover` says what such a trial leaves in
  the table and what every run makes of it: the rest of its pattern becomes the next trial
  (`Leftover.RestIsReplayed`).
* **A second campaign needs no reset** (`Again.SecondCampaign`): a host session on a loop whose campaign
  is over ends in the new campaign's invariant, for any spacing of its writes outside the cases named in
  `Again.Fine`.
* **Trials are isolated** (`Isolation.EveryTrialStartsAtStart`, `Whole.IsolatedOnAnyDesign`). For every
  design step function with any number of memories of both kinds, every table, feasible or not, every
  abort and every run: each trial starts from one fixed start state, whatever went before. If no release
  finds a pass under way, which cells to scrub (K >= 1) make sure of, each trial is the unwrapped run from
  that state, struck at most once, with the L shift edges left out (`Isolation.EveryTrialIsUnwrapped`); and
  outside the reset every edge is a full functional edge or a pure shift exactly then
  (`Isolation.EdgesWholeIff`). `Overrun.RigOverrunsIff` says in the trial's own numbers when it is not.
* **What ends a trial** (`TimeCtrl.StopsIff`, `Isolation.RefusedWriteEndsTrial`): exactly a rise of END, the
  timeout, or a memory whose log is full; the edge behind a refused write. The scrub that follows takes
  exactly the cells SCRUB_LEN says (`ScanCtrl.ScrubClears`), and test mode is up exactly while the chain
  shifts outside the reset (`Isolation.TestModeIff`).
* **Any table is served in order** (`Serve.ServesAnyTable`), malformed ones included, and the manual path
  flips one cell per start (`Static.ManualShot`).
* **Injection is transparent** (`Bench.InjectionIsTransparent`, `Whole.CampaignOnAnyDesign`): in a feasible
  campaign the strike comes five edges after the counter matched and inverts exactly that trial's flops.
* **Trials go on and campaigns finish** within a bound computed from the timeout, the chain, the scrub,
  RST_CYC and the slowest memory's restore, undo logs and fill rows alike (`Progress.TrialsGoOn` for every
  table and every run, `Progress.CampaignFinishes`).
* **The block-RAM memory agrees with the reference model** after every edge
  (`MemFpga.AgreesWithReference` for undo memories, `MemFpga.FillAlwaysAgrees` for the banks of fill
  memories), and the reference always can get back to the power-on content
  (`MemRestore.DoneMeansPowerOn`).
* **Clock gates become enables without changing any register** on positive paths
  (`ClockTree.EnableReplacesGate`); behind an inverting gate exactly when it never opens
  (`ClockTree.InvertingGateIff`), and with an inverter behind that exactly when it is never enabled
  (`ClockTree.InvertedBackIff`). The tracer's recursion finds exactly the nets that unroll to a clock
  (`ClockTrace.Tracer.ClockOf`), and such a net has its tree's level under every waveform the cells allow
  (`ClockTrace.TreeIsLevel`).
* **The board's host reads exactly what happened** if and only if no event on the block's ports comes
  before the one in front of it has left (`Order.HostReadsIff`); in its place behind the wrapper and the
  decoder every loss is flagged (`Line.BoardReadsIff`), and room in the FIFO at the trial starts is enough
  for the true order (`Order.RoomKeepsOrder`, `Order.SpacedIsRead`).
* **The bridge, the UART observer, the union-find, the M unit**: exactly-once delivery, the bytes that
  were sent, connectivity, and the ISA's results.

## Findings

Where the code and what it promises differ, the model follows the code.

* `fi_campaign` accepts a timeout of the last cycle plus one; the scrub is then armed one cycle before
  the start pulse arrives and the trial has no pass (`Feasibility.LateTrialIsLost`). With nothing to
  scrub (K = 0) a pass starts on the edge that raises the reset instead (`Exact.PassInsideTheReset`).
* That pass runs on inside the reset, and into the next trial if the window is no longer than the chain:
  the window ends on the first pacing event from the second on that finds the memories done
  (`Overrun.WindowIff`, `Overrun.OverrunIff`). The gate's flop has been cleared by the reset, so the first
  edge of that trial shifts the chain and clocks the rest of the design (`Overrun.PassOutlivesReset`,
  `Isolation.SplitEdge`). The host takes such trials (`Overrun.HostTakesIt`).
* `fi_campaign` accepts cycle 1 with more entries than can be prefetched by then; that trial has no pass
  (`Feasibility.EarlyTrialIsLost`).
* In both cases the lookahead has taken words out of the table. If it has not taken the whole pattern,
  the next trial flips the rest of it, at this trial's cycle plus the offset latched before; every later
  trial runs one place further back and later by that offset (`Leftover.NotReadyLeaves`,
  `Leftover.LateLeaves`, `Leftover.RestIsReplayed`).
* The host warns that an index past the chain "flips nothing"; such an index also costs one shift step.
  In front of real cells this is harmless iff they number no more than the first real step
  (`Patterns.FlipsTheSetIff`). A pattern of such indices only, longer than the chain, the lookahead and
  two, is not fetched to its end; the rest becomes a trial (`Patterns.FitsIff`, `Leftover.UnfitLeaves`).
* A write of CFG_FI_CYCLE that lands inside the reset window of a running loop does not enable the
  executor for the trial behind it: that trial has no pass, the words read meanwhile are lost, and what is
  left of the campaign is what a first trial without a pass leaves (`Again.StrobeInReset`,
  `Again.BlindReads`, `Again.BlindLeaves`).
* The board sends a trial's last byte behind the next trial's record, and the host counts it there, if the
  FIFO is full at the trial start or on the edge before it and the byte still waits
  (`FullFifo.FullFifoMisreads`); nothing is refused then, so no flag tells. With room on these two edges it
  cannot happen (`Order.RoomKeepsOrder`). The run given needs a decoder whose bytes come at least four
  edges faster than the transmitter's leave; with the example's parameters (OUT_DIV 108, a byte of the
  design every 4340 edges) bytes alone do not fill the FIFO.
* `fi_fpga_ce.py` replaces the output of an inverting clock gate by the gate's input clock and loses
  the polarity that `clocktrace.py` recorded; an inverter behind the gate makes the tracer report the
  net as not inverted, and the register is moved to the wrong edge just the same.
* `classify` calls a run that equals the golden one DUE when the golden output repeats its first line
  before the marker (`Classify.RepeatedFirstLineIsDue`).

## Reading order

`ScanCtrl`, `TableCtrl`, `TimeCtrl`, `Executor` (the RTL); `Serve` (one trial's share of any table),
`Static` (the manual path); `Pass` (what one pass should do), `Patterns` (what it does with the host's
patterns), `Trial` (one trial, stage by stage), `Campaign` (every run), `Host`, `EndToEnd`, `Boot`, `Again`
(the host in front), `Greedy`; `Exact`, `Leftover`, `Alive`, `Outcome`, `Feasibility` (exactly which
campaigns are injected); `Freeze`, `MemRestore`, `Memories`, `Bench`, `Isolation`, `Overrun`, `Progress`,
`Whole` (a design inside); then the separate parts `MemFpga`, `Cdc`, `UartObs`, `Slip`, `Board`, `Order`,
`Line`, `Fifo`, `FullFifo`, `Classify`, `ClockTree`, `ClockTrace`, `Nets`, `Divider`, `MulDiv`. `Arith` holds facts about products and remainders.

## Model

| member | source | states |
|---|---|---|
| `ScanCtrl.Control` | rtl/fi_scan_ctrl.v:227-308 | the branches for run, scrub, counter, Scan_En, Clk_Gate and testmode give the register equations |
| `ScanCtrl.FrontEnd` | rtl/fi_scan_ctrl.v:219-304 | the two-deep front end: slide on every consumed target, arm slot 0 and slot 1, clear at the end |
| `ScanCtrl.Strobes` | rtl/fi_scan_ctrl.v:209-304 | the end index, the done and scrub-done pulses and the sticky order flag |
| `ScanCtrl.Controller.Tick` | rtl/fi_scan_ctrl.v:183-317 | one clock cycle of the scan controller, falling edge included, is its step function |
| `ScanCtrl.ScrubTakes` | rtl/fi_scan_ctrl.v:136-141 | a scrub shifts L zeros in if SCRUB_LEN is negative, else the smaller of SCRUB_LEN and L, one per edge from the third on; it takes no table entry, and is done on its last shift, or at once if there is none |
| `ScanCtrl.ScrubClears` | rtl/fi_scan_ctrl.v:98-101 | behind it every cell is zero, or exactly the first SCRUB_LEN have been cleared and the others hold what came up the chain |
| `ScanCtrl.NoChain` | rtl/fi_scan_ctrl.v:168-174 | with Scan_Len 0 no start makes a pass and a scrub is done at once |
| `TableCtrl.Registers` | rtl/fi_table_ctrl.v:164-261 | pointer, fill, EOP, offset and sticky flags in source order give the queue specification |
| `TableCtrl.Controller.MoveLookahead` | rtl/fi_table_ctrl.v:202-229 | the shift register with valid bits acts as a queue: pop in front, push at the back, both in one cycle |
| `TableCtrl.Controller.Tick` | rtl/fi_table_ctrl.v:164-261 | one clock edge of the table controller is the queue step, whatever its inputs |
| `Serve.ServesAnyTable` | rtl/fi_table_ctrl.v:164-243 | any table, in every run of a trial: entries go out in order up to the first EOP entry or the last word in use; then that EOP's offset is latched, or offset 0 and the malformed flag if there was none |
| `Serve.BatchAndReset` | rtl/fi_table_ctrl.v:181-259 | a write of CFG_FI_CYCLE leaves the controller as at power-on; a reset drops what was fetched and keeps pointer, offset and sticky flags |
| `Serve.SpentIsSpent` | rtl/fi_table_ctrl.v:150-156 | a table retired by the end of a pass is not read again before the next batch, whatever length the host sets |
| `Serve.ReadyIff` | rtl/fi_table_ctrl.v:266-270 | ready exactly when an entry is in front and the lookahead is full or holds all that is left of the pattern |
| `Serve.Completes` | rtl/fi_table_ctrl.v:181-243 | with the front entry taken on every edge the pattern is complete after its words and two more edges |
| `TimeCtrl.Counting` | rtl/fi_time_ctrl.v:274-408 | counter, fired flag, start pulse and running FI_Cycle, a host write winning |
| `TimeCtrl.Sequence` | rtl/fi_time_ctrl.v:282-396 | the phases of the reset window |
| `TimeCtrl.Request` | rtl/fi_time_ctrl.v:304-392 | the restore request and the halt flag |
| `TimeCtrl.Levels` | rtl/fi_time_ctrl.v:282-392 | stopped, the design's reset and the testmode reset |
| `TimeCtrl.Controller.Tick` | rtl/fi_time_ctrl.v:250-408 | one clock edge of the time controller is its step function |
| `TimeCtrl.WindowInvStep` | rtl/fi_time_ctrl.v:250-408 | every step keeps: stopped iff a phase is active, reset high exactly in phases 2, 4, 5, 6, requests in their phases |
| `TimeCtrl.WindowInvAlways` | rtl/fi_time_ctrl.v:250-408 | the reset-window invariant in every run from power-on, host writes included |
| `TimeCtrl.CountsTheTrial` | rtl/fi_time_ctrl.v:274-281 | in every run the counter is the number of edges since the release, in 32 bits, and the edge registers show END as the last two edges found it |
| `TimeCtrl.StopsIff` | rtl/fi_time_ctrl.v:240-302 | in every run the trial stops exactly on a rise of END, at the timeout, or when a memory asks for it with a timeout set; the stop starts the scrub with test mode let through, or the wait in front of the reset with test mode cut, and notes whether a memory asked |
| `TimeCtrl.FlagStays` | rtl/fi_time_ctrl.v:283-287 | the flag that tells whether a memory ended the last trial stays until the next one ends |
| `TimeCtrl.SweepsTheTarget` | rtl/fi_time_ctrl.v:368-408 | the injection cycle is the host's last write plus the offsets of the releases since, in 32 bits |
| `TimeCtrl.PulseIff` | rtl/fi_time_ctrl.v:274-281 | the start pulse comes exactly on the edge of the trial whose number is that cycle, if it is not 0 and there was none yet |
| `TimeCtrl.WaitsItsCycles` | rtl/fi_time_ctrl.v:221-238 | with a scrub or without, every wait of the window takes exactly RST_CYC edges |
| `TimeCtrl.RestoresWithTheScrub` | rtl/fi_time_ctrl.v:319-334 | with a scrub the memories restore from its first shift on, and the reset goes up on its last |
| `TimeCtrl.RestoresInReset` | rtl/fi_time_ctrl.v:340-356 | without a scrub the reset waits for the memories and for nothing else |
| `TimeCtrl.HaltsIff` | rtl/fi_time_ctrl.v:340-392 | a campaign halts exactly when a finished restore is called bad where the window waits for it |
| `TimeCtrl.HaltsForGood` | rtl/fi_time_ctrl.v:357-362 | and stays halted, with the design in reset and no further start pulse |
| `TimeCtrl.AtMostOneStart` | rtl/fi_time_ctrl.v:274-281 | at most one start pulse between counter clears without a host write |
| `TimeCtrl.ReleaseIsClean` | rtl/fi_time_ctrl.v:368-392 | in every run, with SCRUB = 1 or 0, the reset only falls when the restore requested in its window has finished and was not reported bad |
| `Executor.Machine.Tick` | rtl/fi_executor_core.v:131-194 | the three controllers and the glue registers, each reading what the others held before the edge |
| `Executor.RetiredMakesNoPass` | rtl/fi_executor_core.v:140-151 | with the loop off, the table spent or the cycle not below the timeout the executor is disabled, and no pass is armed without a static index |
| `Executor.RestoreStartsWithTheScrub` | rtl/fi_time_ctrl.v:322-334 | the memories are told to restore by the edge of the scrub's first shift, not before, or at once if there is nothing to scrub |
| `Executor.EndStopsTheTrial` | rtl/fi_time_ctrl.v:187-199 | an END request ends the running trial within two edges, whatever the timeout |
| `Executor.BadRestoreHalts` | rtl/fi_time_ctrl.v:368-380 | where the window would end, a finished restore releases the design, or halts the campaign if some memory calls it bad |
| `Static.ManualShot` | rtl/fi_executor_core.v:165-184 | the manual path, loop and timeout off: one start makes one pass, four edges later, that inverts exactly cell CFG_FI_INDEX, or nothing for an index past the chain, whatever the start bit does behind it |
| `Static.ZeroIsOff` | rtl/fi_executor_core.v:165-167 | with CFG_FI_INDEX at 0 no start makes a pass |
| `Static.HeldStartIsOne` | rtl/fi_scan_ctrl.v:112-114 | a start bit that stays up makes one pass and none behind it |
| `Static.OnePulseIsInOrder` | rtl/fi_executor_core.v:169-176 | the pass of one pulse loads one target only and leaves the order flag as it was |
| `Static.TakesNoEntry` | rtl/fi_executor_core.v:165-166 | no pass of this path takes an entry out of the table's lookahead |
| `Pass.FlipsAreServed` | rtl/fi_scan_ctrl.v:154-165 | the cycle-wise pass equals the entry-wise greedy specification, in flips and in dropped cells |
| `Pass.AscendingFlipsAll` | host/tapename.tcl:116-134 | distinct indices in the host's order all flip and none is dropped, spacing 1 included |
| `Pass.NullsMayHideCells` | host/inject_and_run_dmi.tcl:159-161 | indices past the chain in front of real ones leave all of those flipped iff they number no more than the first real step |
| `Greedy.FlipsGreedily` | rtl/fi_scan_ctrl.v:154-177 | on any entry stream the hardware inverts the bit at step t iff the greedy specification serves t |
| `Greedy.FlagsTheDropped` | rtl/fi_scan_ctrl.v:216-250 | the pass takes exactly L shifts and raises the order flag iff a target on the chain was dropped |
| `Trial.ReadyIffPrefetched` | rtl/fi_table_ctrl.v:266-270 | the start pulse finds the table ready iff the prefetch condition holds |
| `Trial.WaitStep` | rtl/fi_time_ctrl.v:274-281 | from the release to the start pulse every register is known cycle by cycle |
| `Trial.ArmStep` | rtl/fi_scan_ctrl.v:168-174 | a ready table arms the pass with the pattern's first target |
| `Trial.ShiftStep` | rtl/fi_scan_ctrl.v:219-250 | every shift keeps front end, lookahead and table pointer in step with the queue of targets |
| `Trial.ShiftEnds` | rtl/fi_table_ctrl.v:231-243 | after the last shift the table stands behind the pattern, with its offset latched |
| `Trial.RestIsQuiet` | rtl/fi_executor_core.v:165-167 | between a pass and the next release no pass is armed and no entry is taken |
| `Trial.ReleaseStarts` | rtl/fi_time_ctrl.v:368-392 | the release starts the next trial on the next pattern at the advanced cycle |
| `Trial.ReleaseSpent` | rtl/fi_executor_core.v:137-151 | after the last pattern a release starts a trial without a pass |
| `Campaign.ShiftingChain` | rtl/fi_scan_ctrl.v:176-177 | every shift edge rotates the chain by one cell, inverting exactly the targets |
| `Campaign.EndChain` | rtl/fi_scan_ctrl.v:227-250 | after L shifts the chain is back in place with exactly the targets inverted |
| `Campaign.InvStep` | rtl/fi_executor_core.v:131-194 | every clock cycle leads from one stage of the campaign to the next |
| `Campaign.ReplaysThePlan` | rtl/fi_table_ctrl.v:164-261 | in every run, whatever design and memories do: one pass per trial, in order, at its cycle, on its targets, none after the last |
| `Campaign.QuietMemories` | rtl/fi_time_ctrl.v:243-246 | memories that never abort meet the condition of the replay theorem |
| `Host.SortDesc` | host/tapename.tcl:122 | the indices in strictly decreasing order, the same set |
| `Host.SortTrialsPermutes` | host/inject_and_run_dmi.tcl:166 | sorting the trials loses and invents none |
| `Host.SortTrialsStable` | host/inject_and_run_dmi.tcl:166 | trials at one cycle keep the user's order |
| `Host.Pattern` | host/tapename.tcl:121-134 | one write per index, only the last with EOP and offset |
| `Host.CheckTrial` | host/inject_and_run_dmi.tcl:147-162 | a trial is accepted iff cycle and indices are in range; the fault says why not |
| `Host.Validate` | host/inject_and_run_dmi.tcl:141-165 | all trials accepted iff each is, with the entries counted |
| `Host.CheckGaps` | host/inject_and_run_dmi.tcl:173-179 | accepted iff every gap fits the offset field |
| `Host.Prepare` | host/inject_and_run_dmi.tcl:121-192 | accepted iff everything checks, and then schedule and timeout are the specified ones; otherwise the fault is that of the first check that fails; nothing is written before |
| `Host.AcceptedIff` | host/inject_and_run_dmi.tcl:121-192 | in the user's terms: accepted iff every trial is at a cycle after 0 and flips something inside the index width, at most 256 distinct flops in all, the next later cycle always near enough for the offset field, and the timeout, if given, above all cycles |
| `Host.DefaultTimeout` | host/inject_and_run_dmi.tcl:184-192 | the user's timeout, or else the least one that is 0x80000 or more and leaves 0x40000 cycles behind every trial |
| `Host.Campaign` | host/inject_and_run_dmi.tcl:121-212 | the writes issued are exactly the program of the schedule, the switch to FI mode first, or none |
| `Host.LoadsFill` | rtl/fi_transporter.v:1199-1207 | auto-increment writes fill the table from word 0 and leave the rest |
| `Host.StaysOnTheWord` | rtl/fi_transporter.v:1199-1207 | without auto-increment the write port stays on its word, and the last write counts |
| `Host.ReadsBack` | rtl/fi_transporter.v:983-1207 | in FI mode every register reads back what was written, in its width, and no write touches another one or the table |
| `Host.ProgramLoads` | host/inject_and_run_dmi.tcl:15-76 | from any registers and either mode: after the program the wrapper is in FI mode, the registers hold the campaign and the table its words |
| `Host.EntryRoundTrip` | rtl/fi_table_ctrl.v:126-128 | the controller's slices give back every field inside its width |
| `Host.OrIsSum` | host/tapename.tcl:107-110 | on fields inside their widths the shifted OR is the sum |
| `EndToEnd.AcceptedIsWellFormed` | host/inject_and_run_dmi.tcl:141-192 | what the host accepts is a schedule the table can hold |
| `EndToEnd.PlanLoaded` | host/inject_and_run_dmi.tcl:197-208 | every trial's pattern is in the table at its place, with its EOP and offset |
| `Patterns.FlipsTheSetIff` | host/tapename.tcl:112-134 | a pattern's pass inverts exactly its set of cells, whatever the chain holds, iff its indices past the chain leave the first cell ahead |
| `Patterns.TargetsIff` | host/inject_and_run_dmi.tcl:159-161 | a descending pattern splits into those indices and ascending steps, and all its cells are hit iff the first ones number no more than the first real step |
| `Patterns.FitsIff` | rtl/fi_table_ctrl.v:231-243 | such a pattern is fetched to its end in its pass iff it has a cell or is no longer than chain, lookahead and two |
| `EndToEnd.CampaignInjectsExactly` | host/inject_and_run_dmi.tcl:121-212 | accepted campaign, armed hardware, any run: the passes made are exactly the schedule |
| `Boot.SleepsOn` | host/inject_and_run_dmi.tcl:32-68 | until CFG_TO_THR is written the executor stays dormant, whatever the spacing of the writes |
| `Boot.TransparentIgnores` | rtl/fi_transporter.v:564-572 | in transparent mode a write that does not switch the mode has no effect |
| `Boot.ArmedStep` | rtl/fi_transporter.v:1140-1152 | without a further write the machine steps as the armed setup does |
| `Boot.SessionIsArmed` | host/inject_and_run_dmi.tcl:42-76 | from power-on, the wrapper transparent, the host's session ends in FI mode and in the armed state, for every accepted campaign |
| `Boot.SessionExists` | host/inject_and_run_dmi.tcl:42-76 | every program can be written: one write per cycle is a session |
| `Boot.FromPowerOn` | host/inject_and_run_dmi.tcl:121-212 | from power-on, with any spacing of the writes: exactly the campaign is injected, harmless indices past the chain included |
| `Again.CampaignIsOver` | rtl/fi_table_ctrl.v:236-243 | behind the last trial of any plan the loop idles from the next edge on |
| `Again.OverStep` | rtl/fi_table_ctrl.v:236-243 | it idles while the host rewrites the table and the registers a session writes (no END, no static index, no start command) |
| `Again.StrobeRearms` | rtl/fi_table_ctrl.v:245-259 | CFG_FI_CYCLE written before the reset rises arms the next campaign from table word 0, whatever the old timeout is |
| `Again.RearmedHolds` | host/inject_and_run_dmi.tcl:28-41 | it stays armed until CFG_TO_THR or a release; a cycle not below the old timeout must not wait for the next reset |
| `Again.ReleasedEarly` | host/inject_and_run_dmi.tcl:28-41 | a release before CFG_TO_THR starts the first trial on its pattern |
| `Again.OldWaitStep` | rtl/fi_time_ctrl.v:274-281 | which counts on under the old timeout as under the new one |
| `Again.StrobeInReset` | rtl/fi_executor_core.v:137-151 | a strobe inside the reset window leaves the executor disabled, with the table at word 0 |
| `Again.BlindStep` | rtl/fi_executor_core.v:137-151 | no pass opens before the next reset has begun |
| `Again.BlindReads` | rtl/fi_table_ctrl.v:181-243 | while the table goes on being read, up to the first pattern's end |
| `Again.BlindLeaves` | rtl/fi_table_ctrl.v:181-243 | the next reset finds those words gone: what is left is what a first trial without a pass leaves |
| `Again.SecondSession` | host/inject_and_run_dmi.tcl:15-76 | a whole second session, any spacing: at its end the new campaign is armed, or its first trial waits, makes its pass or has made it |
| `Again.SecondCampaign` | host/inject_and_run_dmi.tcl:121-212 | from there the second campaign is injected exactly like the first |
| `Exact.PassIff` | rtl/fi_scan_ctrl.v:168-172 | a trial makes its pass outside the reset iff prefetch and timeout conditions hold, for any scrub length |
| `Exact.PassInsideTheReset` | rtl/fi_scan_ctrl.v:138-172 | with K = 0 and the timeout one cycle after it, the pass opens inside the reset |
| `Feasibility.InjectedIff` | host/inject_and_run_dmi.tcl:121-212 | every accepted campaign, from power-on: injected exactly in every run without early abort iff every trial is feasible |
| `Feasibility.EveryCompleteRunIff` | host/inject_and_run_dmi.tcl:121-212 | run by run: a run past the last trial goes wrong at some moment iff some trial is not feasible |
| `Feasibility.LateTrialIsLost` | host/inject_and_run_dmi.tcl:184-192 | every single trial whose timeout is the next cycle is accepted, yet from power-on not injected in every run |
| `Feasibility.EarlyTrialIsLost` | host/inject_and_run_dmi.tcl:147-162 | so is every single trial at cycle 1 with four or more indices |
| `Feasibility.LaterTrialIsInjected` | host/inject_and_run_dmi.tcl:184-192 | every single trial from cycle 2 on with the default timeout and indices on the chain is accepted and injected |
| `Outcome.AsPlannedIff` | rtl/fi_executor_core.v:131-194 | armed hardware replays the plan in every run iff every trial works |
| `Outcome.CompleteRunIff` | rtl/fi_executor_core.v:131-194 | a run past the last trial was as planned throughout iff every trial works: after the first that does not, table and trials never agree again |
| `Outcome.CompleteRunExists` | rtl/fi_time_ctrl.v:221-396 | from every armed state, feasible or not, some run gets past the last trial |
| `Leftover.NotReadyLeaves` | rtl/fi_table_ctrl.v:266-270 | a start pulse that finds too little leaves the words fetched out of the table and the old offset |
| `Leftover.LateLeaves` | rtl/fi_scan_ctrl.v:138-172 | a scrub, or with K = 0 a reset, that comes before the start pulse does so too |
| `Leftover.UnfitLeaves` | rtl/fi_table_ctrl.v:231-243 | so does a pass that ends before its pattern is fetched |
| `Leftover.LeavesOn` | rtl/fi_table_ctrl.v:181-243 | until the release nothing changes about it |
| `Leftover.LeavesNext` | rtl/fi_table_ctrl.v:181-243 | the release then starts the rest of the pattern as a trial, at the cycle plus the old offset, or the next pattern if all was fetched |
| `Leftover.RestIsReplayed` | rtl/fi_table_ctrl.v:181-243 | and every run behind it replays what is left: the rest of the pattern, then the later trials, later by the old offset |
| `Alive.LivesOn` | rtl/fi_time_ctrl.v:250-408 | every edge without a bad memory keeps phases, requests and passes consistent, whatever the table holds |
| `Alive.LeftStep` | rtl/fi_time_ctrl.v:221-396 | every cycle that does not release comes closer to the release, whatever the table holds |
| `Freeze.FullPulses` | syn/fi_clk_gate.v:59-67 | the latch gate emits full pulses or none, whatever the freeze term does in the high phase |
| `Freeze.InStepStep` | rtl/fi_wrapper_top.v:325-330 | scan controller outputs and freeze flop stay in step under all inputs |
| `Freeze.EveryEdgeIsOneOrTheOther` | syn/fi_clk_gate.v:48-67 | in every run, whenever the design is reset: an edge is functional or a pure shift unless a pass meets a gate the reset has just cleared, and the frozen part loses exactly the other shift edges |
| `MemRestore.UndoableStep` | rtl/fi_sram_restore.vh:74-120 | every edge keeps the log able to restore the power-on content |
| `MemRestore.DoneMeansPowerOn` | rtl/fi_sram_restore.vh:74-122 | in every run done implies power-on content, after dropped writes and interrupted restores too |
| `MemRestore.RestoreTakesLogLength` | rtl/fi_sram_restore.vh:99-109 | a held restore shortens the log by one per cycle |
| `MemRestore.DutWritesLanes` | rtl/fi_sram_restore.vh:75-89 | lane by lane: with room in the log a write changes the enabled lanes of its word to the data's, and nothing else; with the log full it changes nothing |
| `MemRestore.DutWriteLogs` | rtl/fi_sram_restore.vh:79-86 | the old word is logged exactly if an enabled lane differs and there is room; if there is none the memory asks for the end of the trial |
| `MemRestore.FillEdgeLanes` | rtl/fi_sram_restore.vh:87-118 | the same for a fill memory; a restore cycle fills its row of every bank and nothing else |
| `MemRestore.BadIffDisturbed` | rtl/fi_sram_restore.vh:91-93 | in every run an undo memory is bad exactly if the design wrote into a restore |
| `MemRestore.FillBadIffDisturbed` | rtl/fi_sram_restore.vh:91-93 | so is a fill memory |
| `MemRestore.NewWord` | rtl/fi_sram_restore.vh:76-78 | the loop over the byte lanes |
| `MemRestore.UndoMemory.DutEdge` | rtl/fi_sram_restore.vh:74-89 | a write is logged before it lands, on its enabled lanes alone, or dropped with the full flag |
| `MemRestore.UndoMemory.RestoreEdge` | rtl/fi_sram_restore.vh:93-109 | the newest entry is put back; a DUT write meanwhile is reported bad |
| `MemRestore.FillMemory.DutEdge` | rtl/fi_sram_restore.vh:87-98 | a write lands on its enabled lanes alone, and the fill starts over |
| `MemRestore.FillMemory.RestoreEdge` | rtl/fi_sram_restore.vh:93-120 | one row per cycle in every bank; a DUT write meanwhile is reported bad |
| `MemRestore.FillTakesItsRows` | rtl/fi_sram_restore.vh:110-120 | a held fill is done after exactly the bank's rows, not earlier, and then every word is the fill word |
| `MemFpga.RestoreAgrees` | fpga/rtl/fi_sram_fpga.v:105-170 | a restore edge of the block-RAM form is one of the reference |
| `MemFpga.DutAgrees` | fpga/rtl/fi_sram_fpga.v:91-170 | a DUT edge with its delayed log entry and room test is one of the reference |
| `MemFpga.AgreesWithReference` | fpga/rtl/fi_sram_fpga.v:80-185 | every write/restore sequence of an undo memory: same content, same log with the pending write, done together, abort one cycle late at most |
| `MemFpga.FillAgrees` | fpga/rtl/fi_sram_fpga.v:171-228 | an edge of the banked fill form is one of the reference: content, fill counter, done and bad |
| `MemFpga.FillAlwaysAgrees` | fpga/rtl/fi_sram_fpga.v:171-228 | in every run of writes and restores |
| `MemFpga.BankRead` | fpga/rtl/fi_sram_fpga.v:126-134 | the bank register picks the word of the flat content from the common row |
| `MemFpga.BlockRam.Tick` | fpga/rtl/fi_sram_fpga.v:144-170 | the registers and arrays updated in place are the step function; a DUT write changes its enabled lanes alone, if the reference has room |
| `MemFpga.ReadsTheStoredWord` | fpga/rtl/fi_sram_fpga.v:112-141 | one edge keeps the read data equal to the stored word |
| `MemFpga.PutLanes` | fpga/rtl/fi_sram_fpga.v:205-210 | a write through port A changes its enabled lanes alone |
| `MemFpga.ReadsTheLanes` | fpga/rtl/fi_sram_fpga.v:129-141 | under a DUT write to the word being read, the enabled lanes of the read data become the data's and the others stay |
| `MemFpga.AlwaysReadsTheStoredWord` | fpga/rtl/fi_sram_fpga.v:112-141 | from the first read on the read data is the stored word at the address read last, through writes, undo, fill and clears, when a read and a DUT write share no edge |
| `MemFpga.SharedEdgeReadsWrong` | fpga/rtl/fi_sram_fpga.v:127-130 | that condition is needed |
| `Bench.FunctionalEdge` | rtl/fi_wrapper_top.v:300-330 | an edge without shift and reset is one edge of the unwrapped design |
| `Bench.ShiftEdge` | syn/fi_clk_gate.v:48-67 | a shift edge moves the chain and nothing else |
| `Bench.ResetEdge` | syn/lib/checks.tcl:403-415 | the edge that raises the reset leaves the start state, the scrubbed cells being zero |
| `Bench.StartIs` | syn/lib/checks.tcl:403-415 | the start state cell by cell and memory by memory |
| `Memories.OkStep` | rtl/fi_sram_restore.vh:74-122 | an edge of either kind keeps the memory restorable |
| `Memories.AllRestored` | rtl/fi_wrapper_top.v:130-131 | when all memories are done, each holds its start content |
| `Memories.FlagsOfAll` | rtl/fi_wrapper_top.v:130-132 | the wrapper's three memory flags, by the memories' own registers |
| `Memories.SeenStepAll` | rtl/fi_sram_restore.vh:74-122 | outside a restore the design sees plain memories, and stopped clocks change none |
| `Memories.LeftAllStep` | rtl/fi_sram_restore.vh:99-120 | a held restore brings the slowest memory one cycle closer to done |
| `Bench.ReleaseEdge` | rtl/fi_time_ctrl.v:368-392 | every release starts from the one start state, all memories and logs included |
| `Bench.RigStep` | rtl/fi_wrapper_top.v:300-330 | every edge keeps the whole invariant of wrapper, design and memories |
| `Bench.InjectionIsTransparent` | rtl/fi_scan_ctrl.v:154-317 | every run of a feasible campaign, any number of undo and fill memories: transparent, isolated, exactly the plan, never halted |
| `Isolation.OrderlyStep` | rtl/fi_time_ctrl.v:250-408 | any table, any abort: pulses have drained and passes have ended before the reset does its part |
| `Isolation.SafeStep` | rtl/fi_wrapper_top.v:300-330 | every edge keeps design, gate and memories fit for the next start, for every K |
| `Isolation.FullLogEndsTrial` | rtl/fi_time_ctrl.v:240-302 | on any rig, a running trial is stopped by the edge that finds a log full, with the scrub requested and the flag set |
| `Isolation.RefusedWriteEndsTrial` | rtl/fi_sram_restore.vh:79-86 | a changing write that finds its log at its depth changes nothing, and the trial ends with the edge behind it |
| `Isolation.TestModeIff` | rtl/fi_executor_core.v:178 | the wrapper's test mode is up exactly while the chain shifts outside the reset, in passes and scrubs |
| `Isolation.EveryTrialStartsAtStart` | rtl/fi_time_ctrl.v:368-392 | every run, feasible or not: each trial starts from the start state, and nothing halts the loop |
| `Isolation.EveryTrialIsUnwrapped` | rtl/fi_scan_ctrl.v:154-317 | every run with K >= 1, or in which no release finds a pass under way: each trial is the unwrapped run, struck at most once, by its pass's hits |
| `Isolation.EdgesWholeIff` | syn/fi_clk_gate.v:48-67 | all edges outside the reset are functional or pure shifts iff no release finds a pass under way |
| `Isolation.SplitEdge` | syn/fi_clk_gate.v:48-67 | on any other edge the chain shifts while the rest of the design is clocked |
| `Overrun.WindowIff` | rtl/fi_time_ctrl.v:304-392 | with K = 0 and a late pulse the window ends on the first pacing event from the second on that finds the memories done |
| `Overrun.OverrunIff` | rtl/fi_scan_ctrl.v:138-308 | a release finds a pass under way iff K = 0, the timeout is the cycle plus one, the prefetch is ready and the window is no longer than the chain |
| `Overrun.RigOverrunsIff` | rtl/fi_wrapper_top.v:300-330 | the same on any design with any memories |
| `Overrun.PassOutlivesReset` | syn/fi_clk_gate.v:48-67 | a design without memories and two pacing periods of chain: the first edge of the next trial is split |
| `Overrun.HostTakesIt` | host/inject_and_run_dmi.tcl:184-192 | the host accepts such a trial |
| `Bench.InertIsPrepared` | syn/lib/checks.tcl:403-415 | the conditions on the design can be met |
| `Whole.CampaignOnAnyDesign` | host/inject_and_run_dmi.tcl:121-212 | from the user's list and power-on to each trial's course on an arbitrary design with any memories |
| `Whole.IsolatedOnAnyDesign` | host/inject_and_run_dmi.tcl:121-212 | every accepted campaign, feasible or not, from power-on: isolated, bounded and, with K >= 1, each trial the unwrapped run struck at most once |
| `Progress.RigCloser` | rtl/fi_time_ctrl.v:221-396 | every cycle of every run that does not release comes closer to the release |
| `Progress.TrialsGoOn` | rtl/fi_time_ctrl.v:221-396 | every table, every abort, every run: n trials within n + 1 times the bound |
| `Progress.CampaignFinishes` | rtl/fi_time_ctrl.v:221-396 | a feasible campaign: after a bounded number of cycles all trials have run and made their pass |
| `Cdc.Bridge.SrcTick` | rtl/fi_transporter.v:786-808 | the source half: accept, hold, toggle, wait for the acknowledge |
| `Cdc.Bridge.DstTick` | rtl/fi_transporter.v:810-831 | the destination half: present once, toggle back when taken |
| `Cdc.DeliversInOrder` | rtl/fi_transporter.v:776-831 | every interleaving and stall pattern: items delivered exactly once, unchanged, in order |
| `Cdc.HandshakeProgress` | rtl/fi_transporter.v:786-831 | every useful tick brings the handshake forward |
| `UartObs.Receiver.Tick` | rtl/fi_uart_obs.v:46-78 | the clocked block is the step function |
| `UartObs.FrozenEdgesVanish` | rtl/fi_uart_obs.v:46-54 | frozen edges are never seen, whatever the pin does |
| `UartObs.FrameHeard` | rtl/fi_uart_obs.v:53-74 | one frame is received whole, at two edges per bit too; with a low stop bit it adds a framing error and no byte |
| `UartObs.ReceivesWhatWasSent` | rtl/fi_uart_obs.v:46-78 | all lists of frames, gaps, bit periods >= 2 and frozen edges: exactly the bytes of the frames with a good stop bit, and one framing error for each other (two idle edges behind it) |
| `Slip.Stream.Byte` | fpga/host/board_campaign.py:94-116 | the decoder's method is its step function |
| `Slip.Stream.FeedBytes` | fpga/host/board_campaign.py:83-85 | feeding a list is feeding its bytes in turn |
| `Slip.FeedRecord` | fpga/host/board_campaign.py:94-113 | a record is read whole from any state of the decoder |
| `Slip.FeedPair` | fpga/host/board_campaign.py:98-103 | any escape pair, one the board never sends included |
| `Slip.FramesItem` | fpga/rtl/fi_board_uart.v:91-121 | a record begins with the start and the type byte and shows no other start byte; data take one byte, or two for the two special values |
| `Slip.FramesTheWire` | fpga/rtl/fi_board_uart.v:91-121 | the wire shows a start byte exactly once for every record |
| `Slip.DecodesTheWire` | fpga/host/board_campaign.py:94-116 | decoding undoes the encoding of every list of records and bytes |
| `Board.Buffer` | fpga/rtl/fi_board_uart.v:84-90 | a byte is kept if dbuf is free or being sent, otherwise refused |
| `Board.Boundary` | fpga/rtl/fi_board_uart.v:91-103 | record contents, trial and cycle counters, flags at a trial start |
| `Board.Sequence` | fpga/rtl/fi_board_uart.v:104-121 | one push per cycle: escape, record byte or data byte |
| `Board.WatchKeeps` | fpga/rtl/fi_board_uart.v:74-122 | pushed and pending bytes stay the encoding of the accepted items |
| `Board.StreamDecodes` | fpga/rtl/fi_board_uart.v:60-122 | every run, any FIFO state: the stream decodes to the accepted records and bytes |
| `Board.BytesAreConserved` | fpga/rtl/fi_board_uart.v:84-120 | every byte not refused is in the stream once and in order; a refusal is flagged until a record carries it |
| `Board.LossIsFlaggedIff` | fpga/rtl/fi_board_uart.v:86-100 | an edge keeps the lost flag true iff it does not refuse a byte while a record is taken up, which the wiring excludes |
| `Order.StreamIsTrueIff` | fpga/rtl/fi_board_uart.v:60-122 | the stream carries all that happened in its order iff nothing is refused and no trial start finds a byte waiting |
| `Order.CalmIff` | fpga/rtl/fi_board_uart.v:74-122 | that condition on the registers holds iff one on the ports does: an outbox that empties by one byte per edge with room |
| `Order.HostReadsIff` | fpga/rtl/fi_board_uart.v:50-122 | the host reads the true trial numbers, cycles, flags and bytes iff no event comes before the one in front of it has left |
| `Order.EveryLossIsFlagged` | fpga/rtl/fi_board_uart.v:84-103 | with the design in reset before every start: each record has its true number and cycles, and its flag tells exactly whether something was refused since the last one |
| `Order.RoomKeepsOrder` | fpga/rtl/fi_board_uart.v:72-121 | only a full FIFO holds a byte back behind the next record: with room at the starts and on the edges before, and nothing refused, the order is true |
| `Order.NeverFullIsTrue` | fpga/rtl/fi_board_uart.v:50-122 | FIFO never full, no record still going out at a start, no byte lost: decoded exactly |
| `Order.SpacedIsRead` | fpga/rtl/fi_board_uart.v:50-122 | on the ports alone: FIFO never full, bytes and starts 20 edges apart from their like: nothing refused, decoded exactly |
| `Line.PinsAreGapped` | examples/tinyriscv/fpga/fi_dut_core.vh:88-100 | whatever wrapper and decoder do: no byte on a trial start, neither a byte nor a start on the edge before |
| `Line.PinsAreHeaded` | examples/tinyriscv/fpga/fi_dut_core.vh:88-100 | and no byte before the first start |
| `Line.PortsArePins` | examples/tinyriscv/fpga/fi_dut_core.vh:92-99 | in every run: a start is a rise of the reset line; a byte is a rise of the decoder's done flag one edge before, the design running and its trial not stopped |
| `Line.BoardReadsIff` | fpga/rtl/fi_board_uart.v:44-122 | every run of block, wrapper and decoder from power-on: every loss flagged, records true, and the host reads what happened iff the ports allow it |
| `Line.BoardReads` | fpga/rtl/fi_board_uart.v:44-122 | in its place: room at the starts and nothing refused, or never full and events 20 edges apart, is enough for the host to read what happened |
| `FullFifo.FullFifoMisreads` | fpga/rtl/fi_board_uart.v:86-135 | for every FIFO of 16 bytes or more and every transmitter slower by four edges than the decoder's bytes (20 edges apart or more): a run from power-on that fills it, refuses nothing, and is read as something that did not happen |
| `Fifo.Queue.Push` | fpga/rtl/fi_board_uart.v:133-135 | a push overwrites no unread byte across wraps |
| `Fifo.Queue.Pop` | fpga/rtl/fi_board_uart.v:148-152 | bytes come out in the order pushed |
| `Fifo.Queue.UsedIsContents` | fpga/rtl/fi_board_uart.v:128-132 | the occupancy in pointer width is the number of unread bytes |
| `Fifo.Unit.Tick` | fpga/rtl/fi_board_uart.v:44-164 | decoder flops, sequencer, FIFO and the transmitter's pace: one edge is the step function, no byte overwritten, handed over in order |
| `Fifo.Unit.HandsOverTheStream` | fpga/rtl/fi_board_uart.v:124-152 | what left is a prefix of the encoding; drained, it decodes to everything accepted |
| `Classify.UptoMarker` | fpga/host/board_campaign.py:196-204 | the prefix through the n-th newline, and whether there is one |
| `Classify.ContainsIff` | fpga/host/board_campaign.py:217 | a crash text is found iff it stands at some place |
| `Classify.CountIsReached` | fpga/host/board_campaign.py:217 | the count is the number of places, left to right without overlap, ... |
| `Classify.CountIsMost` | fpga/host/board_campaign.py:217 | ... and there are never more |
| `Classify.Classification` | fpga/host/board_campaign.py:207-219 | the verdict by the specification, golden too short included |
| `Classify.TailsDoNotMatter` | fpga/host/board_campaign.py:207-219 | nothing after the marker changes the class |
| `Classify.MaskedIff` | fpga/host/board_campaign.py:207-219 | Masked iff not aborted, equal up to the marker, and no crash text stands anywhere in that prefix nor its first line at two places |
| `Classify.RepeatedFirstLineIsDue` | fpga/host/board_campaign.py:216-218 | a golden output that repeats its first line classifies itself as DUE |
| `ClockTree.PositiveIsTraced` | fpga/tools/clocktrace.py:103-166 | every positive path of buffers, ICGs and AND-type latch gates is traced, not inverted |
| `ClockTree.PulseIsEnable` | fpga/tools/clocktrace.py:154-161 | the gated net pulses iff the product of the enables held before the edge |
| `ClockTree.EnableReplacesGate` | fpga/tools/fi_fpga_ce.py:136-206 | the register with the enable equals the gated one after every half period, for all waveforms |
| `ClockTree.InvertingGateIff` | fpga/tools/fi_fpga_ce.py:153-173 | behind an inverting gate they agree iff the gate never opens |
| `ClockTree.InvertedBackIff` | fpga/tools/fi_fpga_ce.py:153-173 | behind an inverting gate and an inverter, which the tracer reports as not inverted, they agree iff the enable never holds |
| `ClockTrace.DenotesOne` | fpga/tools/clocktrace.py:103-132 | a net unrolls to at most one clock tree |
| `ClockTrace.TreeIsLevel` | fpga/tools/clocktrace.py:103-166 | for all levels the cells can have: a net that unrolls to a tree is at the tree's level, a gate's table applied to its own pins |
| `ClockTrace.EitherPin` | fpga/tools/clocktrace.py:134-139 | a gate with a clock on one pin and a latch on the other unrolls, either way round |
| `ClockTrace.GateVerdict` | fpga/tools/clocktrace.py:141-166 | the verdict on such a gate from its table in pin order: a clock iff same root, latch open while the clock pin is low, output held then and decided by the latch otherwise; polarity from the idle level, enable from the value that leaves it |
| `ClockTrace.OpenIsLoop` | fpga/tools/clocktrace.py:107-109 | a net met again while it is being traced has no tree, so the loop mark is the right answer |
| `ClockTrace.Tracer.ClockOf` | fpga/tools/clocktrace.py:103-132 | on every netlist, loops included, the memoised recursion ends and reports a clock iff the net unrolls to a tree that is one, with its root, polarity and gates |
| `ClockTrace.Tracer.GateOf` | fpga/tools/clocktrace.py:134-166 | the loop over both pin orders gives a two-input gate the answer of the tree it unrolls to, or none |
| `Nets.Flat.Name` | fpga/tools/vnet.py:203-211 | a new name is its own set, a known one stays |
| `Nets.Flat.Find` | fpga/tools/vnet.py:213-219 | path halving terminates, returns the representative and changes none |
| `Nets.Flat.Union` | fpga/tools/vnet.py:221-229 | the new link is added to what the forest connects |
| `Nets.SharedIffConnected` | fpga/tools/vnet.py:203-229 | same representative iff the links connect the names |
| `Nets.Flat.Represents` | fpga/tools/vnet.py:203-229 | same representative iff connected; a set with a constant is represented by a constant of known value |
| `Nets.Flat.Value` | fpga/tools/vnet.py:203-229 | a net connected to one constant only has that constant's value |
| `Divider.LoopStep` | examples/tinyriscv/rtl/core/divider.sv:146-153 | one step brings one bit down and keeps quotient, remainder and rest consistent |
| `Divider.NothingLost` | examples/tinyriscv/rtl/core/divider.sv:60-63 | the 31-bit truncation of the partial remainder loses nothing |
| `Divider.EndIsSpec` | examples/tinyriscv/rtl/core/divider.sv:168-185 | the signs put back at the end are those of the ISA |
| `Divider.Divides` | examples/tinyriscv/rtl/core/divider.sv:58-194 | all operands: ready after exactly 35 cycles (2 for a zero divisor) with the ISA's quotient or remainder |
| `Divider.Unit.Tick` | examples/tinyriscv/rtl/core/divider.sv:66-194 | the clocked block is the step function |
| `MulDiv.MulIsSpec` | examples/tinyriscv/rtl/core/exu_muldiv.sv:75-101 | the sign-magnitude product gives MUL, MULH, MULHSU and MULHU |
| `MulDiv.WritesSpec` | examples/tinyriscv/rtl/core/exu_muldiv.sv:104-105 | a result is offered after exactly its cycles and the OR of both units is the specified value |
| `MulDiv.WorkStep` | examples/tinyriscv/rtl/core/exu_muldiv.sv:45-73 | a stall sends a division back to its start, a write-back leaves the unit fresh |
| `MulDiv.TakesItsCycles` | examples/tinyriscv/rtl/core/exu_muldiv.sv:45-106 | undisturbed: 1, 35 or 2 cycles, not fewer |
| `MulDiv.WritesBackTheProgram` | examples/tinyriscv/rtl/core/exu_muldiv.sv:45-106 | every instruction stream and stall pattern: the specified values, one per instruction, in order |

## Left out

- SCRUB = 0, RTC_ALIGN_EN = 1, TM_LEAD and TM_TAIL_CYCLES other than 0 in the theorems about campaigns: not the shipped configuration (`TimeCtrl` keeps SCRUB and MEM_RESTORE as parameters).
- The latched chain length L_q of the scan controller: it is written and never read.
- Widths of the scan and table counters: the chain, the timeout and the table fit 32 bits by hypothesis, so only the time controller's counters wrap in the model.
- What the lookahead's head shows while it is empty is an input, as is everything the design and the memories do.
- Exact.PassIff: a pass that opens inside the reset (K = 0) does not count; it has its own lemma.
- Bench.InjectionIsTransparent: undo logs have room for the fault-free run up to each strike; with an early abort a trial ends before its pass. Fill memories have no such condition.
- Feasibility.InjectedIff: runs in which a full log ends a trial before its start pulse are left out, for the same reason.
- Bench.InjectionIsTransparent: blocks exempt from the freeze, and asynchronous effects inside a clock cycle; an address past the memory stands for word 0 (the real pins have no such address).
- The one-cycle register between the bus write and the table's storage: no word is read before the release that follows the last write.
- Host writes during a campaign's trials other than those of a second session; the start command and the static index in a running campaign (`Static` has them with the loop off).
- Static.ManualShot: a start edge while a pass is under way or about to end, which is not a use the host has for it, is covered only as far as that pass goes.
- The mode switch takes effect between two host writes; the TCK edges it takes are not counted.
- MemFpga.AgreesWithReference: an undo memory has one bank, as the source prescribes.
- The bits on the board's serial line: of the 8N1 transmitter only its pace is modelled, a byte every 10 * OUT_DIV + 1 edges.
- Line: what the decoder makes of the UART's pin is an input (its done flag and its data); the board's and the wrapper's power-on resets are one.
- Leftover.RestIsReplayed: with K = 0 a pass may still run when the reset ends (`Overrun.OverrunIff`); it speaks of releases that find none.
- Isolation.EveryTrialIsUnwrapped: with K = 0, runs in which a pass outlives the reset; of those only the start state, the bound and the split edge are stated.
- Overrun.OverrunIff: with K = 0, a memory's abort or an END request on one of the two cycles from the counter match on stops a trial like a late timeout does; the theorem speaks of stops by the timeout.
- Again.SecondSession: sessions that meet an excluded case of `Again.Fine`, a second trial released before CFG_TO_THR arrives among them (a strobe inside the reset window has its own lemmas).
- Nets: names are numbers with the two constants first; hierarchy walking and expression splitting, which only produce the links, are not modelled.
- ClockTree: two or more inverting gates in series, and several inverters behind one, have no theorem about the converted register.
- ClockTrace: cell roles and pin names are resolved beforehand; of a latch's levels before the first half period, low is assumed.
- Text parsing and output of the netlist tools, OpenOCD, serial and socket handling, JTAG and the bus register decode beyond the writes used here, the synthesis scripts.
- The rest of the example core, firmware, test benches, and analog effects.

# Paging simulator, readers and writers, bounded queue: a verified model

This project models three programs of the repository and proves what they keep, whatever is drawn at random,
whatever the pager asks for and however threads are scheduled.

1. **The demand-paging simulator and its pagers** (`CSCI3753/PA4`). A clocked machine steps its processes, ages
   their page counters and calls a pager. `Simulator.dfy` gives each operation as a function on a value `Sim`;
   `Machine.dfy` and `BranchEngines.dfy` are the same operations as the program performs them, in place and by
   loops, each proved equal to its function. `Invariants.dfy`, `Locality.dfy` and `Latency.dfy` prove what holds
   under *any* pager: a pager is any list of `pagein`/`pageout` calls for each tick. `Lru.dfy`, `Starved.dfy`,
   `Stamps.dfy`, `Basic.dfy`, `Predict.dfy`, `PredictRuns.dfy` and `Prefetch.dfy` prove what the three pagers do,
   `PagerLatency.dfy` how long a fault takes under each; `Pagers.dfy` has them in place. `Branching.dfy` proves that the
   branching engine's encoder and decoder undo each other, and `Control.dfy` that a job's control follows them
   visit by visit. `JobQueue.dfy` has the five programs and the shuffle, `Shuffling.dfy` what a pass of it
   can do, `JobLength.dfy` how long each program can go on, and `BasicEnds.dfy` that the whole simulation ends under
   the basic pager. Two runs of the simulator's own queue show what the other pagers can come to: `Walking.dfy`,
   `Marching.dfy`, `Famine.dfy` and `FullMemory.dfy` follow one under LRU, `Fetching.dfy` and `SeedRun.dfy` one under
   the predictor.
2. **The readers-writers program with three semaphores** (`CSCI3753/SynchronizationCode`). Any number of threads, one
   program counter each, three semaphores and a count; a step is one statement, and reading or writing the
   shared file goes one character at a time (`ReadersWriters.dfy`, `WriterWait.dfy`, `Meeting.dfy`,
   `Passing.dfy`, `TornReads.dfy`). The file itself is a ring log (`RingLog.dfy`).
3. **The bounded circular queue** and its use by one requester and many resolvers (`CSCI3753/PA3`):
   `Fifo.dfy`, `Resolver.dfy` and `Filling.dfy`.

`Params.dfy` holds the simulator's sizes, `Sums.dfy` sums over sequences and `Wrapping.dfy` steps round a ring.

## How the source is represented

- A pointer into the job queue is an index, and NULL is -1. The queue is an array of process values that the
  methods overwrite; `loads` is a ghost history of the jobs handed out.
- Random numbers are parameters (`Draws`, and a sequence of numbers for the shuffle), so every theorem holds for
  all of them. An IF needs flips that change often enough to fill its table (`Ready`); the source keeps drawing
  until they do. The flip that overflows the table is drawn and not replayed.
- An IF stores one element past `brings` on leaving its loop (simulator.c:199-207). The model has a spare cell
  there and never reads it.
- Looking a key up in an empty table reads the cell before the table (simulator.c:368 and 387). The model keeps
  the probe of the first cell, which has consequences, and leaves out the probe before it, which is undefined.
- The LRU pager's `lrupage` is uninitialised when its process has no resident page (pager-lru.c:57-63). The model
  lets it hold any page number. The exactness of the stamps holds regardless.
- The predictor starts its searches from a *count* used as a page number (pager-predict.c:58-59). When it is none, the
  source reads past a row of counts and past a process's page flags. The model lets it find anything there (`Beyond`),
  the same throughout one turn. Everything proved of the predictor holds regardless.
- The predictor counts a processor's first page from row -1 (pager-predict.c:61-64). The model has a separate row
  for it.
- The theorems about runs start from `Boot` on a `FreshQueue`, and `JobsAreFresh` shows that the simulator's own
  queue is one for any draws. Program sizes are below `MAXPC`, as those of all five programs are.

## Where the code does not do what it says

- A GOTO is said to keep going forever (simulator.c:190). It branches 0x7fffffff times, then falls through as many
  times, and so on (`Branching.GotoBranchesExactlyWhen`).
- A loop length below 1 still takes one decision: a lap has its drawn length if and only if that is at least 1
  (`Branching.LoopsRunWithinBounds`).
- An IF adds to the value its first cell already had, so it replays its flips only because every context is
  cleared first; over any other context the table is right exactly when that cell was 1
  (`Branching.IfNeedsClearedContext`).
- The bisection is a linear scan exactly when the table is not empty or the key is not in its first, unused cell
  (`Lookup.SearchIsScanExactly`). Program 3 has no branches and meets this at pc 0, so it performs its first step
  twice (`JobQueue.ProgramLookups`, `JobQueue.LinearProgramRepeatsItsFirstStep`).
- The predictor's seed is a page number exactly while fewer than `MAXPROCPAGES` moves to page 0 were counted, and
  that many laps of program 0's outer loop exceed it (`Predict.SeedInRangeExactly`, `PredictRuns.CountsOnRuns`). The
  simulator gets there, with its own programs, one draw of its queue and one processor (`SeedRun.SeedLeavesRange`). From
  any other seed the first prediction is a page if and only if some count exceeds the one read past the row. The second
  prediction differs from the first exactly when the seed is not itself a best (`Predict.PredictionsAreBest`).
- LRU assumes that a process it evicts for has a page in. Each refused turn costs the process one resident page
  (`Starved.RefusedTurnCostsAPage`), and the simulator gets to a refused turn with none left, with its own programs,
  one draw of its queue and all twenty processors: after 1145 ticks the page named is whatever the uninitialised
  variable held (`FullMemory.JunkOnARun`).
- The basic pager means to make room when a page-in fails. Its search stops at the first page other than the needed one
  that is not coming, and pages nothing out if that page is out already (`Pagers.TriedFirst`). No run of it gets there
  (`Basic.BasicNeverEvicts`).
- The readers-writers program calls itself starvation-free (ThreadReadersWritersSemaphores.c:1). Only the wait after
  semRead is bounded (`WriterWait.WriterWaitIsBounded`). A semaphore promises no order, and a thread at its wait for
  semRead can be passed by any number of writes if and only if another thread writes (`Passing.PassedExactly`).
- The queue accepts a NULL payload, and is then no queue any more, unless it has a single cell
  (`Fifo.NullPushBreaks`).
- A resolver may pop NULL, which the source then passes on as a hostname. With any queue size, some schedule does that
  if and only if there are two resolvers or more and there is a hostname at all (`Resolver.NullPopsExactly`).

## Model

| member | source | states |
|---|---|---|
| Branching.DecisionsDecodeRuns | CSCI3753/PA4/simulator.c:238-249 | Over any number of decisions the engine goes round the expansion of its run lengths, complemented every second lap when the number of runs is odd |
| Branching.LapIsSumOfRuns | CSCI3753/PA4/simulator.c:242-247 | A lap has as many decisions as its runs add up to, a run below 1 counting as 1 |
| Branching.EvenTableReturns | CSCI3753/PA4/simulator.c:238-249 | With an even number of runs the context is exactly restored after the sum of its runs |
| Branching.ExpandRle | CSCI3753/PA4/simulator.c:192-207 | Decoding the run lengths counted from some flips gives those flips back |
| Branching.RleExpand | CSCI3753/PA4/simulator.c:192-207 | Counting the run lengths of what runs decode to gives the runs back, when all are at least 1 |
| Branching.IfTableDecodes | CSCI3753/PA4/simulator.c:192-207 | The table of an IF on a cleared context stands for its flips up to the one that overflowed it |
| Branching.IfReplaysItsDraws | CSCI3753/PA4/simulator.c:181-249 | On a cleared context decision n of an IF is flip n, round and round over the flips its table stands for |
| Branching.IfNeedsClearedContext | CSCI3753/PA4/simulator.c:192-207 | Initialising an IF over another context gives the same table if and only if its first cell held 1 |
| Branching.LoopsRunWithinBounds | CSCI3753/PA4/simulator.c:208-231 | A FOR takes its branch as often as draw i says for lap i, which is the draw modulo max - min, plus min, then falls through once, for ever; an NFOR the opposite. A lap has its drawn length if and only if that is at least 1, and is between min and max-1 when 1 <= min < max |
| Branching.GotoBranchesExactlyWhen | CSCI3753/PA4/simulator.c:185-191 | Decision n of a GOTO branches if and only if n / 0x7fffffff is even |
| Branching.ClearedContextAlternates | CSCI3753/PA4/simulator.c:170-178 | A context that was only cleared branches every second time, beginning with a branch |
| BranchEngines.BranchEngine.Clear | CSCI3753/PA4/simulator.c:170-178 | Leaves the cleared context, in place, and the spare cell as it was |
| BranchEngines.BranchEngine.Init | CSCI3753/PA4/simulator.c:181-235 | For every branch type the loops leave the initialised context that the theorems above are about |
| BranchEngines.BranchEngine.InitGoto | CSCI3753/PA4/simulator.c:185-191 | A GOTO's table, written in place |
| BranchEngines.BranchEngine.InitIf | CSCI3753/PA4/simulator.c:192-207 | Counting flips one at a time leaves their run lengths, the first counted on from what the cell held |
| BranchEngines.BranchEngine.CountFlips | CSCI3753/PA4/simulator.c:194-207 | The counting loop stops with MAXBRINGS runs in the table and the overflowing one in the spare cell |
| BranchEngines.BranchEngine.InitLoop | CSCI3753/PA4/simulator.c:208-231 | A FOR or NFOR table alternates drawn lap lengths with single escapes |
| BranchEngines.BranchEngine.Decide | CSCI3753/PA4/simulator.c:238-249 | Deciding in place is one step of the decoder: the same branch and the same context afterwards |
| Lookup.BisectFinds | CSCI3753/PA4/simulator.c:357-372 | On an ascending table the bisection ends at the index a linear scan finds, or at -1 with it |
| Lookup.SearchIsScanExactly | CSCI3753/PA4/simulator.c:376-387 | On an ascending table bisection and scan agree if and only if the table is not empty or the key is not in its first cell |
| Lookup.SearchTable | CSCI3753/PA4/simulator.c:376-387 | The source's loop computes that bisection |
| StepByScan.StepRefinesScan | CSCI3753/PA4/simulator.c:324-397 | With sorted tables, and no false hit in an empty one, a step is the step that scans its tables: same branch, same context, same outcome |
| StepByScan.ControlInRange | CSCI3753/PA4/simulator.c:306-397 | Every step keeps 0 <= pc <= size and pc on a page of the process, moves pc only when it computes, and changes neither pages nor program |
| Control.ContextsReplay | CSCI3753/PA4/simulator.c:306-321 | However a job is paged, each branch's context is the loaded one advanced by that branch's own visits, and by nothing else |
| Control.VisitTakesDecision | CSCI3753/PA4/simulator.c:306-387 | Visit v to a branch goes to its target if and only if decision v of its context says so, to the next pc otherwise, and back to 0 if that is outside the program |
| Control.IfFollowsItsFlips | CSCI3753/PA4/simulator.c:192-320 | In a loaded job, visit v to an IF goes the way its drawn flip v fell, modulo the period of its table |
| Control.BranchesFollowTheirDraws | CSCI3753/PA4/simulator.c:181-320 | In a loaded job, visit v to a branch goes as its draws say: an IF as flip v fell, a FOR or NFOR by its drawn laps, a GOTO by whether v / 0x7fffffff is even, and the false hit of an empty table every second time |
| Control.StepsAreCounted | CSCI3753/PA4/simulator.c:337-353 | The counters of a job add up to its steps, and the blocked ones are those that found their page not in |
| Control.JobTakesSteps | CSCI3753/PA4/simulator.c:829-836 | Under any pager, a job that a processor keeps takes exactly one such step each tick, so the three results above hold of it in the machine |
| Invariants.FramesConserved | CSCI3753/PA4/simulator.c:401-434 | On every run under any pager, free frames plus cells at or above -PAGEWAIT over all jobs make PHYSICALPAGES, free frames lie in 0..PHYSICALPAGES and every cell in -PAGEWAIT-1..PAGEWAIT |
| Invariants.JobsLoadedOnceInOrder | CSCI3753/PA4/simulator.c:440-463 | On every run each job is handed out at most once, in queue order, and no two processors hold the same job |
| Invariants.EndOfRun | CSCI3753/PA4/simulator.c:650-656 | On every run alldone holds if and only if all jobs have been handed out, none is active and all frames are free |
| Invariants.DoInv | CSCI3753/PA4/simulator.c:401-434 | Any pagein or pageout call, whatever its arguments, keeps frames, cells and jobs consistent |
| Invariants.RetireInv | CSCI3753/PA4/simulator.c:624-646 | Unloading a finished job, releasing its frames and handing out the next job keeps them consistent |
| Invariants.AgeConserves | CSCI3753/PA4/simulator.c:691-711 | Ageing moves exactly as many frames from a process to the free ones as it counts |
| Invariants.RunInv | CSCI3753/PA4/simulator.c:829-836 | Any number of ticks under any pager keep the whole invariant |
| Invariants.BootInv | CSCI3753/PA4/simulator.c:583-604 | The machine starts in the invariant |
| Locality.TickedAt | CSCI3753/PA4/simulator.c:621-714 | A tick does to each processor's job exactly one step and one ageing, or replaces a finished job by a fresh one, whatever the other processors do |
| Locality.DoAllKeeps | CSCI3753/PA4/simulator.c:401-434 | No calls disturb a page that is coming or going, nor a resident one that none of them pages out, nor anything else of the process |
| Locality.DoAllResident | CSCI3753/PA4/simulator.c:401-434 | After any calls a page is in if and only if it was in and none of them pages it out |
| Locality.AnswersTell | CSCI3753/PA4/simulator.c:401-434 | A page-in succeeds if and only if the page is in or coming afterwards, a page-out if and only if it is going or out afterwards; they change something exactly for a page that is out while a frame is free, and for one that is in |
| Latency.FaultBlocks | CSCI3753/PA4/simulator.c:337-344 | Under any pager a needed page with c ticks to come blocks its process for each of those c ticks, with pc and branch contexts unchanged |
| Latency.FaultEnds | CSCI3753/PA4/simulator.c:694-700 | When those ticks are over the page is in if and only if the pager's last calls do not page it straight out |
| Latency.FaultLatency | CSCI3753/PA4/simulator.c:324-353 | A page-in just started costs exactly PAGEWAIT blocked steps; the process then computes if and only if the pager's last calls do not page that page straight out, and otherwise blocks once more |
| Latency.PageOutLatency | CSCI3753/PA4/simulator.c:701-709 | Under any pager a page-out just started frees its frame at the PAGEWAIT-th ageing and at no earlier one, if the process is not unloaded first |
| Lru.StampsAreLastReferences | CSCI3753/PA4/pager-lru.c:43-94 | On every run a resident page's stamp is the last tick at which its processor's pc was seen in it, is positive, and differs from those of the other resident pages |
| Lru.EvictsLeastRecentlyUsed | CSCI3753/PA4/pager-lru.c:52-84 | On every run LRU pages out only for a running processor whose needed page is not in; if that has a resident page, the victim is resident, is not the needed page and was referenced before every other resident page, and if it has none, the page named is what the uninitialised variable held |
| Lru.VictimIsOldest | CSCI3753/PA4/pager-lru.c:56-72 | With exact stamps the two searches end at the least recently referenced resident page |
| Starved.RefusedTurnCostsAPage | CSCI3753/PA4/pager-lru.c:54-84 | A refused turn takes the least recently referenced page, and only that one, from a process's resident pages; a process with none stays as it is |
| Starved.EvictsExactlyWhenRefused | CSCI3753/PA4/pager-lru.c:43-94 | On every run and for every processor: nothing is called while its page is in or it is idle; otherwise that page is asked for, and if and only if it is then neither in nor coming, one page-out follows, which costs the job its least recently referenced page and nothing else, or names the junk when no page is in |
| Starved.RefusedTick | CSCI3753/PA4/pager-lru.c:54-84 | In the invariant of LRU runs, a tick in which the first processor lacks its page and is refused leaves its job one resident page fewer; with none to lose, the page named is the junk |
| Marching.Marched | CSCI3753/PA4/pager-lru.c:43-94 | Twenty fresh jobs that go straight on take the memory page by page in step: at each tick until all frames are taken, every one of them has the same pages in, the same page coming and the same pc |
| Famine.WalkersStarve | CSCI3753/PA4/pager-lru.c:52-84 | Five ticks later the first of them has lost its five pages, one a tick, and LRU names the junk for it |
| FullMemory.JunkOnARun | CSCI3753/PA4/pager-lru.c:57-63 | One draw of the simulator's own queue is such twenty jobs: on its run the pager comes to be refused for a process with no page in and pages out what its uninitialised variable holds, whatever that is |
| Stamps.StampsExactly | CSCI3753/PA4/pager-lru.c:43-94 | On every run the stamp of every page of every processor is the last tick its pc was seen in that page, or 0 if the pager paged the page out after that |
| Lru.TurnInv | CSCI3753/PA4/pager-lru.c:43-94 | One tick of the machine and one call of the pager keep stamps exact, across evictions and job reloads |
| Lru.LruRunIsRun | CSCI3753/PA4/simulator.c:829-836 | A run under LRU is one of the runs of the theorems about any pager |
| Lru.LastSeenIsLast | CSCI3753/PA4/pager-lru.c:87-88 | The reference history used above: the processor was seen in the page at that tick and never after it |
| PagerLatency.LruFaultLatency | CSCI3753/PA4/pager-lru.c:52-54 | Under LRU a page-in just started blocks its process for exactly PAGEWAIT steps and the next step computes |
| PagerLatency.BasicFaultLatency | CSCI3753/PA4/pager-basic.c:38-40 | The same under the basic pager |
| PagerLatency.PredictFaultLatency | CSCI3753/PA4/pager-predict.c:85-95 | The same under the predictive pager |
| Basic.BasicNeverEvicts | CSCI3753/PA4/pager-basic.c:31-57 | On every run the basic pager makes at most one call, a page-in that is granted; only the first running processor holds frames, and at least PHYSICALPAGES - MAXPROCPAGES stay free |
| Basic.CallsSucceed | CSCI3753/PA4/pager-basic.c:33-55 | In its invariant the pager asks at most for the needed page of the first active processor, and gets it |
| Basic.PlentyFree | CSCI3753/PA4/pager-basic.c:34-40 | When only the first running processor holds frames, at least PHYSICALPAGES - MAXPROCPAGES are free |
| Predict.FreqCountsMoves | CSCI3753/PA4/pager-predict.c:61-67 | The table counts exactly the moves between different pages in the history |
| Predict.TransitionsBalance | CSCI3753/PA4/pager-predict.c:61-67 | After any history, counts into a page less counts out of it are 1 for the last page and 0 for every other |
| Predict.CountsAreExactAndBalance | CSCI3753/PA4/pager-predict.c:49-67 | Both, for every processor and any sequence of views shown to the pager |
| Predict.PredictionsAreBest | CSCI3753/PA4/pager-predict.c:57-83 | For any seed: the first prediction has the largest count, the second a count no smaller than any page but the first; each is the seed or the lowest page that is as good; they differ if and only if the seed is not a best, and the first is a page if and only if the seed is one or some count exceeds what is read past the row |
| Predict.SeedInRangeExactly | CSCI3753/PA4/pager-predict.c:57-59 | The seed is a page number if and only if fewer than MAXPROCPAGES moves to page 0 were counted; MAXPROCPAGES laps of program 0's outer loop make it none |
| Predict.Footprint | CSCI3753/PA4/pager-predict.c:85-105 | When the pager returns, a page of a running processor is in if and only if it was in and is needed or predicted |
| Prefetch.CallsArePlanned | CSCI3753/PA4/pager-predict.c:85-105 | For every processor, the calls are first the page-outs of exactly the resident pages that are neither needed nor predicted, then the page-ins of exactly the pages that are needed or predicted and not resident, the needed page first and then the likelier prediction |
| Prefetch.CallsOfPage | CSCI3753/PA4/pager-predict.c:85-105 | A page is asked for if and only if its processor runs, keeps it and has it not in; it is paged out if and only if the processor runs, has it in and does not keep it |
| Prefetch.CellsOnRuns | CSCI3753/PA4/pager-predict.c:85-105 | After every turn on every run: a resident page stays in if kept and is going if not, a moving page goes on, and a page that is out is coming if and only if it is kept, unless fewer frames were free than the pager can ask for and none is left |
| Predict.AtMostThreeResident | CSCI3753/PA4/pager-predict.c:85-105 | So each running processor has at most three resident pages |
| PredictRuns.CountsOnRuns | CSCI3753/PA4/pager-predict.c:49-67 | On every run, each processor's counts are its moves, they balance, and a search starts from a page number if and only if fewer than MAXPROCPAGES moves from that page to page 0 were seen |
| Fetching.WaitingTick | CSCI3753/PA4/pager-predict.c:85-105 | With one processor, each tick brings the page that the job needs closer, whatever the predictions are, and the job stays where it is until then |
| SeedRun.SeedLeavesRange | CSCI3753/PA4/pager-predict.c:57-59 | One draw of the simulator's own queue, on one processor, leads to a state in which the searches start from no page number, whatever lies beyond the rows |
| PredictRuns.ThreeResidentOnRuns | CSCI3753/PA4/pager-predict.c:85-105 | After every tick of every run a running processor has at most three pages in |
| PredictRuns.NeverEvictsNeeded | CSCI3753/PA4/pager-predict.c:85-90 | The pager never pages out the page that a program counter needs |
| PredictRuns.PredictRunIsRun | CSCI3753/PA4/simulator.c:829-836 | A run under the predictor is one of the runs of the theorems about any pager |
| JobQueue.ProgramLookups | CSCI3753/PA4/programs.c:18-54 | On the five programs every lookup is a scan, except program 3's branch lookup at pc 0 |
| JobQueue.LinearProgramRepeatsItsFirstStep | CSCI3753/PA4/programs.c:40-44 | A fresh job of program 3 stays at pc 0 for one computing step and then goes on |
| JobQueue.ShuffleKeeps | CSCI3753/PA4/simulator.c:448-452 | However it is drawn, any number of swaps permutes the queue |
| Shuffling.EveryPassReachesAll | CSCI3753/PA4/simulator.c:448-452 | Whatever the passes before did, each pass of the shuffle can bring the queue into any order: for every rearrangement some draws of that pass lead to it |
| Shuffling.LastPassReachesAll | CSCI3753/PA4/simulator.c:446-452 | Whatever is drawn in the first nine passes, the queue of the simulator can be any arrangement of its jobs, by the draws of the tenth |
| Shuffling.QueuedJobsFollowTheirDraws | CSCI3753/PA4/simulator.c:453-456 | Each job of the simulator's queue is of its shuffled kind, and its branches go as its own draws say |
| JobQueue.EachKindEightTimes | CSCI3753/PA4/simulator.c:446-452 | After the shuffle each kind of program is in the queue exactly 8 times |
| JobQueue.JobsAreFresh | CSCI3753/PA4/simulator.c:453-457 | The loaded queue meets the premise of every theorem about runs, for any draws |
| JobQueue.SimulationRunsEverything | CSCI3753/PA4/simulator.c:829-837 | For any draws and any pager, when the simulation ends every job was loaded and unloaded with its own program, each program had eight jobs and all memory is free |
| JobLength.StepGoes | CSCI3753/PA4/programs.c:18-54 | Under any pager, a computing step of a job of any of the five programs either ends the job or strictly lowers how many steps it is from its exit at most |
| BasicEnds.FirstLowers | CSCI3753/PA4/pager-basic.c:31-57 | Every tick the first running processor's job comes closer to its end, by a computing step or through a page fault, and no other job gets farther from its own |
| BasicEnds.SimulationEnds | CSCI3753/PA4/simulator.c:829-837 | Under the basic pager the simulation ends, for any number of processors, any shuffle and any draws, within a number of ticks that depends only on how many flips an IF was drawn at most; then every job was loaded and all memory is free |
| Machine.ShufflePass | CSCI3753/PA4/simulator.c:449-452 | One pass of swaps in the array is QUEUESIZE steps of the shuffle |
| Machine.ShuffleKinds | CSCI3753/PA4/simulator.c:446-452 | The array ends up holding the shuffled kinds |
| Machine.LoadJobs | CSCI3753/PA4/simulator.c:453-456 | Every place of the queue holds the freshly loaded job of its kind |
| Machine.ProcessLoad | CSCI3753/PA4/simulator.c:251-292 | Loading draws a context for each branch and leaves the other contexts cleared, no page in and pc 0 |
| Machine.FirstJobs | CSCI3753/PA4/simulator.c:586-590 | The first procs processors get the first procs jobs, the others none |
| Machine.Simulator.constructor | CSCI3753/PA4/simulator.c:583-604 | Builds the machine that all runs start from |
| Machine.Simulator.PageOut | CSCI3753/PA4/simulator.c:401-415 | Each guard in order, and the whole new state with the answer |
| Machine.Simulator.PageIn | CSCI3753/PA4/simulator.c:418-434 | Each guard in order, and the whole new state with the answer |
| Machine.Simulator.ProcessDoBranch | CSCI3753/PA4/simulator.c:306-321 | Replaces one process by its state after taking or passing the branch |
| Machine.Simulator.ProcessStep | CSCI3753/PA4/simulator.c:324-397 | Replaces one process by its state after a step, and tells whether it goes on |
| Machine.Simulator.ProcessUnload | CSCI3753/PA4/simulator.c:295-303 | The loop releases every held page and frees as many frames as the process held |
| Machine.Simulator.Refill | CSCI3753/PA4/simulator.c:638-645 | Takes the next job of the queue, or none when it is empty |
| Machine.Simulator.StepOne | CSCI3753/PA4/simulator.c:624-646 | One processor's part of allstep |
| Machine.Simulator.AllStep | CSCI3753/PA4/simulator.c:621-648 | The loop over processors performs the steps in order, later ones on the state that earlier ones left |
| Machine.Simulator.AgeOne | CSCI3753/PA4/simulator.c:689-712 | The loop over pages ages every counter once and frees a frame for each that passes -PAGEWAIT |
| Machine.Simulator.AllAge | CSCI3753/PA4/simulator.c:686-714 | The loop over processors ages each running one once |
| Machine.Simulator.AllDone | CSCI3753/PA4/simulator.c:650-656 | True if and only if no processor runs an active job |
| Machine.Simulator.CallYou | CSCI3753/PA4/simulator.c:716-736 | The entries shown to the pager: a page counts as allocated if and only if its counter is 0 |
| Machine.Simulator.EntryOf | CSCI3753/PA4/simulator.c:720-733 | One such entry, also for an idle processor |
| Machine.Simulator.TickOnce | CSCI3753/PA4/simulator.c:831-833 | One turn of the main loop around a pager making any calls |
| Machine.Simulator.Loop | CSCI3753/PA4/simulator.c:830-836 | The main loop is a run that stops at the first tick at which all is done, and not before |
| Pagers.LruPager.FindVictim | CSCI3753/PA4/pager-lru.c:56-72 | The two search loops compute the victim of the theorems above |
| Pagers.LruPager.Serve | CSCI3753/PA4/pager-lru.c:52-84 | The page a processor lacks is asked for; if it is refused, the victim is found, its stamp cleared and the page named paged out |
| Pagers.LruPager.Turn | CSCI3753/PA4/pager-lru.c:46-90 | One processor's turn, in the machine: the calls made depend on their answers, and the stamps change accordingly |
| Pagers.LruPager.PageIt | CSCI3753/PA4/pager-lru.c:43-94 | The whole call, in the machine and in the stamps |
| Pagers.LruTick | CSCI3753/PA4/simulator.c:831-833 | The running machine with the running pager takes exactly the step that the LRU theorems are about |
| Pagers.TryOuts | CSCI3753/PA4/pager-basic.c:42-51 | Page-outs are tried in page order, passing over the needed page, until one is accepted |
| Pagers.TriedIsOuts | CSCI3753/PA4/pager-basic.c:42-51 | The machine after those attempts is the machine after the calls that the theorems about the basic pager are about |
| Pagers.TriedFirst | CSCI3753/PA4/pager-basic.c:42-51 | The attempts stop at the first page other than the needed one that is in, going or out: it is paged out if it is in, and nothing is otherwise |
| Pagers.BasicTurn | CSCI3753/PA4/pager-basic.c:31-57 | In any machine: with nobody running the basic pager changes nothing; otherwise it serves the first running processor, by its page-in if that can be had, and if not by the page-out that the attempts come to |
| Pagers.BasicPageIt | CSCI3753/PA4/pager-basic.c:31-57 | The basic pager in the machine makes the calls that the theorems are about |
| Pagers.PredictPager.FindBest | CSCI3753/PA4/pager-predict.c:69-74 | The first search loop, from any seed |
| Pagers.PredictPager.FindSecond | CSCI3753/PA4/pager-predict.c:76-83 | The second search loop, from any seed |
| Pagers.PredictPager.Count | CSCI3753/PA4/pager-predict.c:61-67 | The move is counted in its row and the page remembered, in place, and no other processor's memory is touched |
| Pagers.PredictPager.Learn | CSCI3753/PA4/pager-predict.c:57-83 | Counts the move, remembers the page and predicts, touching no other processor's memory |
| Pagers.PredictPager.EvictOthers | CSCI3753/PA4/pager-predict.c:85-90 | Pages out every resident page that is neither needed nor predicted |
| Pagers.PredictPager.Act | CSCI3753/PA4/pager-predict.c:85-105 | The evictions, then the three page-ins, in order |
| Pagers.PredictPager.Turn | CSCI3753/PA4/pager-predict.c:52-106 | One processor's turn, in the machine and in its memory |
| Pagers.PredictPager.PageIt | CSCI3753/PA4/pager-predict.c:49-107 | The whole call, in the machine and in all memories |
| Pagers.PredictTick | CSCI3753/PA4/simulator.c:831-833 | The running machine with the running predictor takes exactly the step that the theorems about its runs are about |
| RingLog.HoldsRecent | CSCI3753/SynchronizationCode/Synchronization/ThreadReadersWritersSemaphores.c:208-219 | After any history the ring holds its last min(length, LEN_FILE - 1) characters, each at its position mod LEN_FILE |
| RingLog.MarkFollows | CSCI3753/SynchronizationCode/Synchronization/ThreadReadersWritersSemaphores.c:211-218 | After any history that is not empty the mark is at its length mod LEN_FILE |
| RingLog.TextIs | CSCI3753/SynchronizationCode/Synchronization/ThreadReadersWritersSemaphores.c:225-242 | What a read returns, whole: the history and the mark before the ring wraps; afterwards LEN_FILE characters, the mark and the recent ones |
| RingLog.PutAllExtends | CSCI3753/SynchronizationCode/Synchronization/ThreadReadersWritersSemaphores.c:201-220 | Writing a string extends the history by that string |
| RingLog.SharedFile.constructor | CSCI3753/SynchronizationCode/Synchronization/ThreadReadersWritersSemaphores.c:73-75 | The file starts with the empty history |
| RingLog.SharedFile.WriteFile | CSCI3753/SynchronizationCode/Synchronization/ThreadReadersWritersSemaphores.c:191-223 | The loop leaves the file of the longer history |
| RingLog.SharedFile.ReadFile | CSCI3753/SynchronizationCode/Synchronization/ThreadReadersWritersSemaphores.c:225-246 | The two loops return the text of the file's history |
| ReadersWriters.ReadersWritersExclude | CSCI3753/SynchronizationCode/Synchronization/ThreadReadersWritersSemaphores.c:121-179 | For any threads and any schedule, while one is in WriteFile no other is in WriteFile or ReadFile |
| ReadersWriters.ExecLocks | CSCI3753/SynchronizationCode/Synchronization/ThreadReadersWritersSemaphores.c:121-179 | Every schedule keeps the invariant that ties the three semaphores and the count to all program counters |
| ReadersWriters.FirstReaderNeverBlocks | CSCI3753/SynchronizationCode/Synchronization/ThreadReadersWritersSemaphores.c:157-160 | A reader at its wait for semWrite, holding the other two semaphores, finds it free |
| ReadersWriters.BlocksExactly | CSCI3753/SynchronizationCode/Synchronization/ThreadReadersWritersSemaphores.c:121-179 | On every schedule a thread's step changes nothing if and only if the thread is at one of the six waits and that wait's semaphore is 0; otherwise it moves its own program counter and no other thread |
| Meeting.ReadersMeet | CSCI3753/SynchronizationCode/Synchronization/ThreadReadersWritersSemaphores.c:152-175 | From the start of any threads, for any set of readers among them, some schedule has all of these in ReadFile at once, with the count at their number and nobody else moved |
| ReadersWriters.NeverDeadlocks | CSCI3753/SynchronizationCode/Synchronization/ThreadReadersWritersSemaphores.c:121-179 | On every schedule there is a thread whose step does something |
| WriterWait.WriterWaitIsBounded | CSCI3753/SynchronizationCode/Synchronization/ThreadReadersWritersSemaphores.c:125-133 | While a writer with semRead waits for semWrite no reader enters, and all other threads together can take at most as many steps as the readers inside still need |
| WriterWait.OthersDrain | CSCI3753/SynchronizationCode/Synchronization/ThreadReadersWritersSemaphores.c:164-175 | Each enabled step of another thread strictly decreases what the readers inside still need |
| WriterWait.WaitMakesProgress | CSCI3753/SynchronizationCode/Synchronization/ThreadReadersWritersSemaphores.c:125-133 | Until the writer can go on a reader inside can; when they have drained semWrite is free |
| WriterWait.NobodyEnters | CSCI3753/SynchronizationCode/Synchronization/ThreadReadersWritersSemaphores.c:154-162 | While the writer waits nobody else holds semRead |
| Passing.PassedExactly | CSCI3753/SynchronizationCode/Synchronization/ThreadReadersWritersSemaphores.c:125-154 | From the start of any threads, some schedule finishes any given number of writes before a given thread takes a step, and leaves it semRead to take, if and only if another thread writes |
| TornReads.NoTornReads | CSCI3753/SynchronizationCode/Synchronization/ThreadReadersWritersSemaphores.c:225-246 | For any threads and schedule, a reader leaving ReadFile has the text of exactly the writes completed so far |
| TornReads.FileIsRingLog | CSCI3753/SynchronizationCode/Synchronization/ThreadReadersWritersSemaphores.c:191-223 | For any threads and schedule, between writes the file is the ring log of all completed writes, in order |
| Fifo.TestsAgree | CSCI3753/PA3/PA3-files/queue.c:50-66 | The empty and full tests tell exactly whether the stored sequence is empty or as long as the ring |
| Fifo.PushAppends | CSCI3753/PA3/PA3-files/queue.c:82-93 | A push appends, and fails if and only if the queue is full |
| Fifo.PopTakesFirst | CSCI3753/PA3/PA3-files/queue.c:68-80 | A pop takes the first element, or returns NULL from an empty queue and changes nothing |
| Fifo.NullPushBreaks | CSCI3753/PA3/PA3-files/queue.c:82-93 | Pushing NULL is accepted, and leaves something that stores no sequence unless the ring has one cell |
| Fifo.RingRefinesFifo | CSCI3753/PA3/PA3-files/queue.c:50-93 | Over any operations the ring answers as a bounded first-in first-out sequence does |
| Fifo.Queue.constructor | CSCI3753/PA3/PA3-files/queue.c:19-48 | An empty queue of the given size, or of the default size when that is not positive |
| Fifo.Queue.QueueIsEmpty | CSCI3753/PA3/PA3-files/queue.c:50-57 | The empty test on the array |
| Fifo.Queue.QueueIsFull | CSCI3753/PA3/PA3-files/queue.c:59-66 | The full test on the array |
| Fifo.Queue.QueuePop | CSCI3753/PA3/PA3-files/queue.c:68-80 | Popping in place is the pop of the theorems above |
| Fifo.Queue.QueuePush | CSCI3753/PA3/PA3-files/queue.c:82-93 | Pushing in place is the push of the theorems above |
| Fifo.Queue.QueueCleanup | CSCI3753/PA3/PA3-files/queue.c:95-102 | Terminates with an empty queue and every cell NULL |
| Resolver.NothingIsLost | CSCI3753/PA3/PA3-files/multi-lookup.c:96-112 | With one requester and any number of resolvers the ignored push never fails, and hostnames popped in lock order followed by those stored are those pushed, a beginning of the input |
| Filling.MovesExactly | CSCI3753/PA3/PA3-files/multi-lookup.c:46-106 | On any schedule the requester waits if and only if it has a hostname and the queue is full, a resolver if and only if the queue is empty, and either for the lock if and only if it is taken; any other step moves its thread on |
| Filling.QueueFills | CSCI3753/PA3/PA3-files/multi-lookup.c:96-106 | For every k up to the queue's size and the input's length, some schedule leaves exactly the first k hostnames stored |
| Resolver.LoneResolverNeverPopsNull | CSCI3753/PA3/PA3-files/multi-lookup.c:50-57 | With a single resolver no pop finds the queue empty |
| Resolver.NullPopsExactly | CSCI3753/PA3/PA3-files/multi-lookup.c:47-57 | With any queue size, some schedule makes a pop find nothing if and only if there are at least two resolvers and at least one hostname |

## Left out

- Lookup.SearchTable: the probe of the cell before an empty table (simulator.c:368 and 387) is undefined in C and is not modelled.
- Predict.PredictionsAreBest: what the source finds past a row of counts is arbitrary in the model, though fixed throughout a turn; which memory it is in fact is not modelled.
- Lru.EvictsLeastRecentlyUsed: like `Starved.EvictsExactlyWhenRefused` and `Stamps.StampsExactly`, takes the uninitialised variable to hold a page number, as do all runs under LRU and `Pagers.LruPager.Turn`; with any other value the source writes outside the stamps, which is undefined. `Pagers.LruPager.FindVictim` takes any value.
- Machine.Simulator.Loop: takes a script of finite length, because arbitrary programs need not end. That the loop ends is proved for the five programs under the basic pager (`BasicEnds.SimulationEnds`); nothing is claimed of it under LRU or the predictor.
- Machine.Simulator.ProcessDoBranch: keeps the branch contexts as values inside the process and decides by the function that the in-place engine is proved equal to, so sharing of contexts between processes is not modelled.
- Fifo.Queue.constructor: does not model a failing malloc, nor is `free` modelled in the clean-up.
- Resolver.NothingIsLost: takes each unlocked full or empty test as one atomic step, and is about one requester; with several, unlocked tests do not prevent a full queue.
- The width of C integers is not modelled: ticks, counts and statistics grow without bound. The one constant at the edge of a width, 0x7fffffff, is.
- Randomness is replaced by arbitrary draws; no probability is claimed, and a branch's `prob` and the unused `extent` are not modelled.
- Logging, CSV output, allprint, allscore, the `blocked` flags and process numbers kept for reports, argument parsing and signals: output only.
- allblocked, the deadlock detector of the simulator: it only reports.
- A branch context's copy of the branch type, and the error message for an unknown type: nothing reads the copy, and every branch has one of the four types.
- justincase.c and api-test.c, a further pager and a printing program: nothing harder than the pagers modelled.
- The readers-writers versions with a monitor, with a single lock and with none: easy or false members.
- Shutdown of multi-lookup (`reader_count` and the wait for an empty queue at the end), DNS lookup, files and the threads themselves: input and output, and no claim of no loss holds there.
- Copies of the same files under Kelsey_Dowd_PA3 and Kelsey_Dowd_PA4: one of each is modelled.
- PA1, PA2 and PA5: a system call, a kernel module and a file system over libraries that are not part of this model.

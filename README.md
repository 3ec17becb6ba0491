# iplc-sim: a verified model of the cache and pipeline simulator

`iplc-sim.c` simulates a single-issue five-stage MIPS pipeline (FETCH, DECODE, ALU, MEM,
WRITEBACK) in front of one set-associative cache that serves instruction fetches and data
accesses alike. The simulator reads a trace line by line. For each line it:

- probes the cache with the instruction's address;
- stalls nine cycles on a fetch miss;
- counts a `beq`;
- inserts the instruction into FETCH by pushing the pipeline one cycle.

A push does the following, in order:

1. It retires WRITEBACK.
2. It resolves a branch waiting in DECODE against the configured prediction. A misprediction costs one cycle and squashes DECODE.
3. It probes the cache for a load or store in MEM. A miss costs nine cycles.
4. It counts the base cycle.
5. It shifts the stages.
6. It runs the register-forwarding checks.
7. It zeroes FETCH.

After the last line, the simulator drains the pipeline.

The project models this in five modules:

- `Bits` (bits.dfy) holds 32-bit addresses, shifts and the low-bit split of a number, and the wrap-around of an `unsigned` sum.
- `Cache` (cache.dfy) describes the cache as values:
  - the configuration and its size check;
  - the split of an address into set index and tag;
  - the way scan;
  - the hit path, which moves the way number to the back of the set's recency list;
  - the miss path, which compacts the tags, writes the first invalid way or else the last way, and can leave duplicate tags;
  - the probe, with the invariants it keeps.
- `Pipeline` (pipeline.dfy) describes the stages and counters as values:
  - one cycle (`Push`), the squash of a misprediction and the end-of-cycle shift;
  - the common part of the seven inserts;
  - the drain;
  - the run invariant. From it follow: CPI at least 1, every hit or miss belongs to a counted access, and every correct prediction belongs to a counted branch.
- `Driver` (driver.dfy) handles one decoded trace line: fetch probe, stall, branch count and insert. It then runs a whole trace followed by the drain.
- `Simulator` (sim.dfy) is the program itself, as a class:
  - the cache is two 2-D arrays, ways (valid bit and tag) and recency lists;
  - the pipeline is a 5-element array of slots;
  - the counters are fields;
  - there is one method per C procedure, with the C loops as `while` loops.

  Each method is proved to leave exactly the state that the value model computes from the state it found. So every lemma about `Cache`, `Pipeline` and `Driver` applies to the arrays.

Where a description of the program and its code disagree, the model follows the code:

- **A trace of one `nop` retires no instruction, not one.**
  - The fetch misses and stalls 9 cycles, and the insert adds the 10th.
  - The drain loop stops once every stage *kind* is NOP.
  - So the `nop`, sitting in FETCH with a nonzero address, never reaches the address-keyed retirement.
  - `Driver.SingleNopTrace` proves the result: 10 cycles, 0 instructions, 1 access, 1 miss.
- **`cache_access == cache_hit + cache_miss` does not hold.**
  - A load or store counts its access when it is inserted, but probes only when it reaches MEM.
  - A misprediction's squash moves an instruction past MEM without probing it.
  - `Driver.SquashedLoadNeverProbed` exhibits a run that ends with 4 accesses against 2 hits and 1 miss. The trace is a load, a `nop` and a `beq`, all in one block, under not-taken prediction; the drain's misprediction squashes the load past MEM.
  - What holds for every run, and is proved as part of `Pipeline.Inv`, is `hits + misses + (loads and stores not yet probed) <= access`.

Two details of the ordering inside the code are modelled as written:

- **The squash copies data addresses in two passes: all load copies, then all store copies.** A store leaving MEM while a load leaves ALU therefore reaches WRITEBACK with the load's data address (`Pipeline.SquashMoves`). The data address of WRITEBACK is never read again, so no counter is affected.
- **The simulator bumps `branch_count` just before the branch insert.** `Driver.Step` counts it just after. `Pipeline.InsertIgnoresBranches` proves the two orders give the same state, and `Simulator.Sim.Dispatch` follows the C order.

A worked run: **of two loads of one data address, the second one hits, wherever its fetch lies.**

- When the second fetch misses, the first load is probed during that fetch's stall, before the second load enters FETCH.
- Nothing probes the cache between the two data probes.
- `Driver.TwoLoadsOneAddress` proves it for every configuration and every data address outside both fetch blocks.

## Model

| member | source | states |
|---|---|---|
| Bits.AddWrap | iplc-sim.c:372 | `DECODE.addr + 4` on an `unsigned int` is the true sum or the sum less 2^32 |
| Cache.Configure | iplc-sim.c:158-174 | a geometry is accepted exactly when its computed size is at most `MAX_CACHE_SIZE`; an accepted one has at most 256 sets and at most 10 offset bits; a refused one reports a size over the ceiling |
| Cache.CacheSize | iplc-sim.c:162 | the size the check compares with the ceiling; it has no contract of its own, and `Cache.Configure` states what the check decides |
| Cache.ConfigBounds | iplc-sim.c:162-171 | every accepted geometry has 2 to 10 offset bits and at most 8 index bits, so the index and offset shifts stay below 32 |
| Cache.SplitAddress | iplc-sim.c:269-270 | the index names an existing set and the tag fits a C `int` |
| Cache.SplitRebuilds | iplc-sim.c:269-270 | tag, index and block offset of an address rebuild the address |
| Cache.SameSplitIffSameBlock | iplc-sim.c:269-270 | two addresses get the same index and tag exactly when they lie in the same block |
| Cache.FirstMatch | iplc-sim.c:276-284 | the way scan stops at a valid way holding the tag with none before it, or at the end when no way matches |
| Cache.FirstMatchIs | iplc-sim.c:276-284 | the scan's stopping point is the only position with that property |
| Cache.FirstInvalid | iplc-sim.c:208-212 | the search stops at an invalid way with only valid ways before it, or at the end |
| Cache.FirstInvalidIs | iplc-sim.c:208-212 | the search's stopping point is the only position with that property |
| Cache.Victim | iplc-sim.c:220-226 | the way a miss writes is a way of the set; `Cache.InstallSpec` states which |
| Cache.Install | iplc-sim.c:201-232 | its contract states only that the set keeps its size; `Cache.InstallSpec` states the miss path's effect |
| Cache.InstallSpec | iplc-sim.c:208-227 | the new tag is written valid at the victim; no valid bit is cleared; tags below the first invalid way move down one, leaving ways `i-2` and `i-1` equal; the rest is untouched; the tag is then found at the victim; valid ways stay a prefix |
| Cache.InstallReprobe | iplc-sim.c:220-226 | after a miss writes its tag at the victim, a scan for that tag stops at the victim |
| Cache.InstallPrefix | iplc-sim.c:220-226 | writing the first invalid way, or the last way, keeps the valid ways a prefix |
| Cache.IndexOf | iplc-sim.c:243-245 | the recency search stops at the entry holding the way number with none before it, or at the end |
| Cache.IndexOfIs | iplc-sim.c:243-245 | the search's stopping point is the only position with that property |
| Cache.MoveToBack | iplc-sim.c:239-254 | its contract states only that the list keeps its length; `Cache.MoveToBackSpec` and `Cache.MoveToBackPerm` state the hit path's effect |
| Cache.MoveToBackSpec | iplc-sim.c:243-252 | the way number ends up last; entries before its old place stay; entries after it move up one place |
| Cache.MoveToBackEntries | iplc-sim.c:243-252 | when the way number is in the list, the list keeps the same entries |
| Cache.MoveToBackPerm | iplc-sim.c:243-252 | a hit keeps the recency list a permutation of `0 .. assoc-1`, finds the way in it and makes it the most recent |
| Cache.PermMembers | iplc-sim.c:186 | a recency list that is a permutation holds exactly the way numbers |
| Cache.InitCache | iplc-sim.c:179-188 | after initialisation every way is invalid, recency lists are permutations, and both counters are 0 |
| Cache.Probe | iplc-sim.c:262-288 | a probe keeps the cache's shape; a hit adds one hit and no miss, a miss adds one miss and no hit |
| Cache.ProbePreservesValid | iplc-sim.c:262-288 | a probe keeps every set's valid ways a prefix and every recency list a permutation |
| Cache.ProbeHitIff | iplc-sim.c:276-287 | the probe reports a hit exactly when some way of the indexed set is valid and holds the tag |
| Cache.ProbeEffect | iplc-sim.c:276-287 | a hit updates only the indexed set's recency list, for the first matching way, and the hit counter; a miss updates only the indexed set's ways and the miss counter |
| Cache.ColdMiss | iplc-sim.c:183-186 | on the freshly initialised cache every probe misses |
| Cache.ProbeAgainHits | iplc-sim.c:276-287 | probing an address right after probing it hits |
| Cache.ProbeTouchesOneSet | iplc-sim.c:262-288 | a probe leaves every other set's ways and recency list unchanged |
| Cache.ProbeSameBlockHits | iplc-sim.c:269-287 | right after a probe of an address, a probe of any address in the same block hits |
| Cache.InitTagsSeen | iplc-sim.c:183-185 | initialisation leaves no valid way, so no (index, tag) pair is installed |
| Cache.InstallSeen | iplc-sim.c:208-227 | the miss path only moves tags already valid in the set, and adds its own tag |
| Cache.UnseenNoMatch | iplc-sim.c:276-284 | a set none of whose valid ways holds a tag has no way the scan would match for it |
| Cache.ProbeSeen | iplc-sim.c:262-288 | a probe of an (index, tag) pair no earlier probe installed misses, and afterwards every valid way holds an installed pair, although the miss path moves tags between ways |
| Cache.ProbeAllSeen | iplc-sim.c:262-288 | over any sequence of probes, every valid way holds the (index, tag) pair of some probe |
| Cache.HitNeedsEarlierInstall | iplc-sim.c:262-288 | from a cold cache, a probe hits only when an earlier probe had the same index and tag: no false hits |
| Pipeline.SquashMoves | iplc-sim.c:386-429 | the squash makes DECODE a NOP at 0 and moves DECODE, ALU and MEM one stage on with kind and address. When DECODE holds the branch, the only case in which the simulator squashes, the data addresses move too, with one exception: a store leaving MEM while a load leaves ALU |
| Pipeline.AdvanceMoves | iplc-sim.c:526-592 | the end-of-cycle shift zeroes FETCH and moves every other stage one on, with the data address for loads and stores |
| Pipeline.Squash | iplc-sim.c:386-426 | no contract of its own; `Pipeline.SquashMoves` states its effect |
| Pipeline.Advance | iplc-sim.c:526-592 | no contract of its own; `Pipeline.AdvanceMoves` states its effect |
| Pipeline.Retire | iplc-sim.c:361-366 | no contract of its own; `Pipeline.PushEffect` states the retirement count |
| Pipeline.Taken | iplc-sim.c:372-374 | no contract of its own; it compares FETCH's address with `Bits.AddWrap` of DECODE's |
| Pipeline.ResolveBranch | iplc-sim.c:368-494 | no contract of its own; `Pipeline.PushEffect` states its cycle and prediction counts and `Pipeline.SquashMoves` its squash |
| Pipeline.ProbeMem | iplc-sim.c:499-520 | no contract of its own; `Pipeline.PushEffect` states its probe and miss penalty |
| Pipeline.Push | iplc-sim.c:357-594 | its contract states only that the cache keeps its shape; `Pipeline.PushEffect` states the cycle's effect |
| Pipeline.InitState | iplc-sim.c:190-194 | initialisation leaves a well-formed cold cache, five zeroed stages and zero counters |
| Pipeline.PushEffect | iplc-sim.c:357-594 | one cycle costs 1, plus 1 on a misprediction, plus 9 when the load or store in MEM misses; it retires one instruction when WRITEBACK's address is nonzero, plus one more after a squash; it counts a correct prediction exactly when the branch resolves as predicted; it changes no access or branch counter |
| Pipeline.FallThroughPredicted | iplc-sim.c:370-438 | a `beq` followed by the next sequential address, under not-taken prediction, is counted correct and moves on without an extra cycle |
| Pipeline.InitInv | iplc-sim.c:149-195 | the run invariant holds right after initialisation |
| Pipeline.PushPreservesInv | iplc-sim.c:357-594 | one cycle keeps the run invariant |
| Pipeline.InsertPreservesInv | iplc-sim.c:600-672 | an insert keeps the run invariant once its branch is counted, and costs at least one cycle |
| Pipeline.Insert | iplc-sim.c:600-672 | its contract states only that the cache keeps its shape; `Pipeline.InsertPreservesInv` and the `Simulator.Sim.Process` methods state its effect |
| Pipeline.PushIgnoresBranches | iplc-sim.c:357-594 | a cycle neither reads nor writes the branch counter |
| Pipeline.InsertIgnoresBranches | iplc-sim.c:804-807 | counting a branch before its insert gives the same state as counting it after |
| Pipeline.PushN | iplc-sim.c:732-733 | its contract states only that the cache keeps its shape; the `PushN` lemmas below state its effect |
| Pipeline.PushNSnoc | iplc-sim.c:732-733 | `n + 1` stall cycles are `n` stall cycles followed by one more |
| Pipeline.PushNAdd | iplc-sim.c:732-733 | `m + n` stall cycles are `m` cycles followed by `n` more |
| Pipeline.PushNPreservesInv | iplc-sim.c:732-733 | `n` stall cycles keep the run invariant, cost at least `n` cycles and count no branch |
| Pipeline.PushGrowsNopRun | iplc-sim.c:592 | each cycle adds one NOP stage in front of the run of leading NOPs, until it covers all five stages |
| Pipeline.Drain | iplc-sim.c:296-302 | the drain ends with every stage kind NOP, and does nothing when that already holds |
| Pipeline.DrainBound | iplc-sim.c:296-302 | the drain runs at most five cycles, fewer by the NOPs already leading the pipeline |
| Pipeline.DrainPreservesInv | iplc-sim.c:296-302 | the drain keeps the run invariant |
| Driver.SlotOf | iplc-sim.c:600-672 | each insert puts its instruction's address into FETCH; only `lw` and `sw` are memory kinds, only `beq` is a branch, only `nop` is a NOP |
| Driver.Stall | iplc-sim.c:724-733 | its contract states only that the cache keeps its shape; `Driver.StallInv` states its effect |
| Driver.StallInv | iplc-sim.c:724-733 | the fetch stall keeps the run invariant and counts no branch; after a hit it changes nothing, after a miss it costs at least 9 cycles |
| Driver.CountedProbeInv | iplc-sim.c:720-721 | a fetch probe counted as one access keeps the run invariant |
| Driver.FetchStall | iplc-sim.c:720-733 | its contract states only that the cache keeps its shape; `Driver.FetchStallInv` states its effect |
| Driver.FetchStallInv | iplc-sim.c:720-733 | the fetch probe and its stall keep the run invariant, count no branch, and cost at least 9 cycles on a miss |
| Driver.Step | iplc-sim.c:720-827 | its contract states only that the cache keeps its shape; `Driver.StepPreservesInv` and `Driver.StepCycles` state its effect |
| Driver.StepPreservesInv | iplc-sim.c:720-827 | a trace line keeps the run invariant and counts one branch exactly when it is a `beq` |
| Driver.StepCycles | iplc-sim.c:720-827 | a trace line costs at least one cycle, and at least 10 when its fetch misses |
| Driver.Run | iplc-sim.c:867-871 | its contract states only that the cache keeps its shape; `Driver.RunPreservesInv` states its effect |
| Driver.Simulate | iplc-sim.c:865-873 | no contract of its own; `Driver.SimulateBounds` states what every run ends with |
| Driver.RunPreservesInv | iplc-sim.c:867-871 | a whole trace keeps the run invariant, costs at least one cycle per line and counts every `beq` |
| Driver.SimulateBounds | iplc-sim.c:865-873 | every run ends with CPI at least 1, no more correct predictions than `beq` lines, all `beq` lines counted, no more hits and misses than accesses, and at least one cycle per line |
| Driver.QuietPush | iplc-sim.c:357-594 | a cycle on stages that hold only NOPs at address 0, the empty pipeline among them, only counts the cycle, and the drain stops there at once |
| Driver.QuietPushN | iplc-sim.c:732-733 | `n` such cycles only count `n` cycles |
| Driver.FirstFetch | iplc-sim.c:720-733 | the first line of any trace misses and stalls exactly 9 cycles on the empty pipeline |
| Driver.SingleNopTrace | iplc-sim.c:296-302 | a one-`nop` trace ends after 10 cycles with 0 instructions retired, 1 access, 1 miss, and the `nop` left in FETCH |
| Driver.FirstLine | iplc-sim.c:720-733 | the first line of any run misses, stalls 9 empty cycles, takes one more for the insert, and leaves only itself in FETCH |
| Driver.HitStep | iplc-sim.c:720-827 | a line whose fetch hits, in a cycle with nothing to retire, squash or probe in MEM, costs one cycle and one access (two for a load or store) and moves every stage one on |
| Driver.SmallSquashSetting | iplc-sim.c:269 | with two one-way sets and four-word blocks, addresses 16, 20 and 24 lie in one block |
| Driver.SquashTraceRun | iplc-sim.c:720-827 | feeding a load, a `nop` and a `beq` in one block: one miss, two hits, four accesses, and the three instructions in FETCH, DECODE and ALU |
| Driver.DrainSkipsLoad | iplc-sim.c:386-429 | draining that pipeline under not-taken prediction mispredicts the `beq` and moves the load from MEM to WRITEBACK without a probe, so no cache counter changes |
| Driver.SquashedLoadNeverProbed | iplc-sim.c:296-302 | that run ends with more accesses (4) than hits plus misses (2 + 1) |
| Driver.DrainStep | iplc-sim.c:296-302 | while some stage kind is not NOP, the drain runs one more cycle |
| Driver.NoBranchPush | iplc-sim.c:357-594 | a cycle with no branch in DECODE retires by address, probes for the load or store in MEM with 9 more cycles on a miss, moves every stage one on, and counts no access, branch or prediction |
| Driver.LoadReachesMem | iplc-sim.c:526-592 | a load alone in FETCH reaches MEM in three cycles without a probe, leaving NOPs at address 0 that hold its data address |
| Driver.LoadLeavesMem | iplc-sim.c:357-594 | a load in MEM probes its data address, retires the cycle after, and leaves only NOPs at address 0, so the drain stops there |
| Driver.LoneLoad | iplc-sim.c:357-594 | a load alone in FETCH takes five cycles, plus 9 on a data miss, probes only its data address and retires; the drain runs exactly these cycles |
| Driver.TwoLoadsAdvance | iplc-sim.c:296-302 | the drain of two loads in FETCH and DECODE takes the earlier one to MEM in two cycles without a probe |
| Driver.TwoLoadsProbeTwice | iplc-sim.c:296-302 | it then probes their common data address twice with nothing in between, so the second probe hits, and retires both |
| Driver.TwoLoadsDrain | iplc-sim.c:296-302 | the drain of two loads of one data address in FETCH and DECODE probes it twice in a row, the second time a hit, and retires both |
| Driver.TwoLoadsProbes | iplc-sim.c:262-288 | with the data address outside both fetch blocks: the first fetch misses the cold cache, the second hits exactly when it shares the first's block, the first data probe misses and the second hits |
| Driver.RunTwo | iplc-sim.c:867-871 | a two-line trace is two trace lines |
| Driver.TwoLoadsSameBlockRun | iplc-sim.c:720-827 | when both fetches share a block, the second hits and the second load follows the first one stage behind; four accesses |
| Driver.StallBehindLoad | iplc-sim.c:724-733 | a fetch miss while a load waits alone in FETCH: the nine-cycle stall takes the load through MEM, probing its data address, and retires it |
| Driver.MissBehindLoad | iplc-sim.c:720-827 | the line's insert then puts the new instruction alone in FETCH after that probe |
| Driver.TwoLoadsApartRun | iplc-sim.c:720-827 | when the second fetch misses, the first load is probed during its stall and the second load enters FETCH alone; four accesses |
| Driver.TwoLoadsProbeOrder | iplc-sim.c:865-873 | either way, a run of two loads of one data address `d` probes the two fetch addresses, then `d`, then `d` again, and counts four accesses |
| Driver.TwoLoadsOneAddress | iplc-sim.c:865-873 | the second load's probe of `d` hits: the run ends with 4 accesses, one hit more and one miss fewer when the fetches share a block (2 and 2) than when they do not (1 and 3) |
| Simulator.Sim.constructor | iplc-sim.c:149-195 | the arrays start as a cold cache with recency lists `0 .. assoc-1` and zeroed stages, and every counter starts at 0 |
| Simulator.Sim.FindInRecency | iplc-sim.c:243-245 | the loop finds the first position of the way number in the set's recency list |
| Simulator.Sim.CloseGap | iplc-sim.c:248-250 | the loop moves the entries after that position up one place and leaves every other set alone |
| Simulator.Sim.UpdateOnHit | iplc-sim.c:239-254 | the set's recency list becomes `MoveToBack` of the old one; other sets and all counters but the hit counter are unchanged; one more hit |
| Simulator.Sim.FindInvalidWay | iplc-sim.c:208-212 | the loop finds the set's first invalid way |
| Simulator.Sim.PercolateTags | iplc-sim.c:215-218 | the loop moves the tags of ways `1 .. i-1` down one way and leaves the valid bits and every other set alone |
| Simulator.Sim.ReplaceOnMiss | iplc-sim.c:201-232 | the set's ways become `Install` of the old ones; other sets and all counters but the miss counter are unchanged; one more miss |
| Simulator.Sim.TrapAddress | iplc-sim.c:262-288 | the returned hit flag and the new arrays and counters are exactly the value probe's |
| Simulator.Sim.SquashStages | iplc-sim.c:386-426 | the stage array becomes `Squash` of the old stages |
| Simulator.Sim.Mispredict | iplc-sim.c:385-430 | a misprediction costs one cycle, squashes, and retires WRITEBACK when its new address is nonzero |
| Simulator.Sim.ResolveBranch | iplc-sim.c:368-494 | the branch step leaves exactly the value model's state |
| Simulator.Sim.ProbeMemStage | iplc-sim.c:499-520 | the MEM probe of a load or store leaves exactly the value model's state |
| Simulator.Sim.ShiftStages | iplc-sim.c:526-575 | each stage from WRITEBACK down to DECODE takes the one before it, the data address only for a load or store |
| Simulator.Sim.ForwardRegisters | iplc-sim.c:578-589 | the forwarding checks leave every stage as it was |
| Simulator.Sim.Push | iplc-sim.c:357-594 | one push leaves exactly the state of one value-model cycle |
| Simulator.Sim.ProcessRType | iplc-sim.c:600-611 | the R-type insert (also `lui`) is one cycle followed by the instruction and its registers in FETCH |
| Simulator.Sim.ProcessLw | iplc-sim.c:613-628 | the load insert is one cycle, the load and its data address in FETCH, and one more access |
| Simulator.Sim.ProcessSw | iplc-sim.c:630-641 | the store insert is one cycle, the store and its data address in FETCH, and one more access |
| Simulator.Sim.ProcessBranch | iplc-sim.c:643-650 | the branch insert is one cycle followed by the branch in FETCH |
| Simulator.Sim.ProcessJump | iplc-sim.c:652-657 | the jump insert is one cycle followed by the jump in FETCH |
| Simulator.Sim.ProcessSyscall | iplc-sim.c:659-665 | the syscall insert is one cycle followed by the syscall in FETCH |
| Simulator.Sim.ProcessNop | iplc-sim.c:667-672 | the nop insert is one cycle followed by a NOP at the line's address in FETCH |
| Simulator.Sim.StallOnMiss | iplc-sim.c:732-733 | the stall loop runs exactly `CACHE_MISS_DELAY - 1` cycles |
| Simulator.Sim.PushAgain | iplc-sim.c:732-733 | one more pass of the stall loop adds one cycle to the stall |
| Simulator.Sim.CountedTrap | iplc-sim.c:720-721 | the fetch probe plus its access count leave the value probe's state with one more access |
| Simulator.Sim.Fetch | iplc-sim.c:720-734 | probe, access count and stall leave exactly the value model's fetch state |
| Simulator.Sim.Dispatch | iplc-sim.c:804-827 | counting a `beq`, then the insert of the line's kind, leaves exactly the value model's insert of that kind |
| Simulator.Sim.Step | iplc-sim.c:720-827 | one trace line leaves exactly the value model's step |
| Simulator.Sim.Drain | iplc-sim.c:296-302 | the drain loop leaves exactly the value model's drain |
| Simulator.Sim.RunTrace | iplc-sim.c:867-873 | the trace loop followed by the drain leaves exactly the value model's run |
| Simulator.Simulate | iplc-sim.c:865-873 | a whole run leaves the value model's result: CPI at least 1, at least one cycle per line, no more correct predictions than branches, every `beq` counted, no more hits and misses than accesses |

## Left out

- None of the output is modelled: the `printf` statements, the miss-rate and CPI `double` divisions, `iplc_sim_dump_pipeline` and the debug flags. They are diagnostics only.
- `main`'s reading of the configuration and trace file with `scanf`, `fopen` and `fgets` is I/O. The configuration enters as a `Config` value and the trace as a sequence of decoded lines.
- The textual decoding in `iplc_sim_parse_instruction` and `iplc_sim_parse_reg` is a C library parse, so it is not modelled. This covers `sscanf`, `strncmp`, the malformed-line and unknown-mnemonic exits, and register-name lookup. The model takes an already-decoded `Driver.Instr`.
  - `lui` decodes to an `RType` with both source registers -1.
  - `jal`, `jr` and `j` all decode to a `Jump`.
- The second jump arm of the dispatch is dead code, because the first arm already matches the same mnemonics.
- Configure: takes the block-offset bit count as a parameter. It requires the block size to be a power of two with `4 * blocksize = 2^offsetBits`, `1 << index` to fit an `int`, and at least one way. The C accepts associativity 0, since its size is then 0, but the first miss then writes way `i-1` with `i == 0`, out of bounds; the model does not represent that undefined write. It does not model the `rint(log(...))` floating-point computation, which rounds for other block sizes, or the C `int` overflow of the size product. The refusal is a `Failure` result where the code calls `exit`.
- `malloc` and `bzero` are replaced by arrays allocated once in the constructor.
- The stage structs hold their payloads in a C union, and the model does not reproduce its byte-level aliasing. A slot keeps its kind, its address, one data address for both `lw` and `sw` (the two members sit at the same place in the union), and the R-type register fields. A data-address copy into a stage therefore does not change that stage's register fields in the model. Those fields feed only the forwarding checks, which change nothing either way.
- The mnemonic strings, the `lw`/`sw`/`beq` register fields and the `sw` insert's double write of `base_reg` are not modelled. No counter or later decision reads them.
- Counter widths are not modelled: the model's counters are unbounded naturals. The C counters are bounded. The `unsigned int` ones wrap after 2^32 events. The `long` ones are 64-bit on LP64 targets, and overflowing one is undefined behaviour. The stall loop also compares `int` copies of `pipeline_cycles`, which overflow near 2^31 cycles.
- The MEM probes pass the data address through an `int` local before the `unsigned` parameter. On a two's-complement machine that round trip is the identity, so the model passes the address unchanged.

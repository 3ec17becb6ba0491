/**
 * The part of the trace driver that belongs to the simulation: for one decoded instruction, the
 * instruction-fetch probe, the stall on a fetch miss, the branch count and the dispatch to an
 * insert; then a whole trace followed by the drain.
 */
module Driver {
  import opened Bits
  import opened Cache
  import opened Pipeline

  /**
   * A decoded trace line. `lui` decodes to an `RType` with both source registers -1; the
   * register fields of loads and stores feed nothing and are not kept.
   */
  datatype Instr =
    | RType(addr: Word, dest: int, reg1: int, reg2OrConstant: int)
    | Load(addr: Word, dataAddr: Word)
    | Store(addr: Word, dataAddr: Word)
    | Branch(addr: Word)
    | Jump(addr: Word)
    | Syscall(addr: Word)
    | Nop(addr: Word)

  /** The FETCH slot each insert fills, starting from a zeroed slot. */
  function SlotOf(ins: Instr): (slot: Slot)
    ensures slot.addr == ins.addr
    ensures slot.kind.IsMem() <==> ins.Load? || ins.Store?
    ensures slot.kind == BRANCH <==> ins.Branch?
    ensures slot.kind == NOP <==> ins.Nop?
  {
    match ins
    case RType(a, d, r1, r2) => EMPTY.(kind := RTYPE, addr := a, regs := Regs(r1, r2, d))
    case Load(a, da) => EMPTY.(kind := LW, addr := a, dataAddr := da)
    case Store(a, da) => EMPTY.(kind := SW, addr := a, dataAddr := da)
    case Branch(a) => EMPTY.(kind := BRANCH, addr := a)
    case Jump(a) => EMPTY.(kind := JUMP, addr := a)
    case Syscall(a) => EMPTY.(kind := SYSCALL, addr := a)
    case Nop(a) => EMPTY.(kind := NOP, addr := a)
  }

  /** The stall after an instruction-fetch probe: nine cycles with no new instruction on a miss. */
  function Stall(c: Config, s: SimState, hit: bool): (r: SimState)
    requires Shaped(c, s.cache)
    ensures Shaped(c, r.cache)
  {
    if hit then s else PushN(c, s, MISS_PENALTY)
  }

  /** The instruction-fetch probe of a trace line: one access, and the stall on a miss. */
  function FetchStall(c: Config, s: SimState, addr: Word): (r: SimState)
    requires Shaped(c, s.cache)
    ensures Shaped(c, r.cache)
  {
    var f := Probe(c, s.cache, addr);
    Stall(c, s.(cache := f.cache, access := s.access + 1), f.hit)
  }

  /**
   * The stall keeps the run invariant and counts no branch; after a hit it changes nothing, after
   * a miss it costs `MISS_PENALTY` cycles or more (the stalled stages may add their own).
   */
  lemma StallInv(c: Config, s: SimState, hit: bool)
    requires Inv(c, s)
    ensures Inv(c, Stall(c, s, hit))
    ensures Stall(c, s, hit).branches == s.branches
    ensures Stall(c, s, hit).cycles >= s.cycles + (if hit then 0 else MISS_PENALTY)
    ensures hit ==> Stall(c, s, hit) == s
  {
    if !hit {
      PushNPreservesInv(c, s, MISS_PENALTY);
    }
  }

  /** A probe counted as one access keeps the run invariant. */
  lemma CountedProbeInv(c: Config, s: SimState, addr: Word)
    requires Inv(c, s)
    ensures Inv(c, s.(cache := Probe(c, s.cache, addr).cache, access := s.access + 1))
  {
    ProbePreservesValid(c, s.cache, addr);
  }

  /** The fetch probe keeps the run invariant, counts no branch, and stalls on a miss. */
  lemma FetchStallInv(c: Config, s: SimState, addr: Word)
    requires Inv(c, s)
    ensures var r := FetchStall(c, s, addr);
      && Inv(c, r) && r.branches == s.branches
      && r.cycles >= s.cycles + (if Probe(c, s.cache, addr).hit then 0 else MISS_PENALTY)
  {
    var f := Probe(c, s.cache, addr);
    var t := s.(cache := f.cache, access := s.access + 1);
    CountedProbeInv(c, s, addr);
    StallInv(c, t, f.hit);
    assert FetchStall(c, s, addr) == Stall(c, t, f.hit);
  }

  /**
   * One trace line: probe the fetch address, stall on a miss, insert, and count a `beq`. The
   * simulator counts the branch just before the insert; `Pipeline.InsertIgnoresBranches` shows
   * the two orders give the same state.
   */
  function Step(c: Config, s: SimState, ins: Instr): (r: SimState)
    requires Shaped(c, s.cache)
    ensures Shaped(c, r.cache)
  {
    var t := Insert(c, FetchStall(c, s, ins.addr), SlotOf(ins));
    t.(branches := t.branches + Ind(ins.Branch?))
  }

  /** A trace line keeps the run invariant and counts one branch exactly when it is a `beq`. */
  lemma StepPreservesInv(c: Config, s: SimState, ins: Instr)
    requires Inv(c, s)
    ensures Inv(c, Step(c, s, ins))
    ensures Step(c, s, ins).branches == s.branches + Ind(ins.Branch?)
  {
    FetchStallInv(c, s, ins.addr);
    InsertPreservesInv(c, FetchStall(c, s, ins.addr), SlotOf(ins));
  }

  /** A trace line costs at least one cycle, and at least `CACHE_MISS_DELAY` when its fetch misses. */
  lemma StepCycles(c: Config, s: SimState, ins: Instr)
    requires Inv(c, s)
    ensures Step(c, s, ins).cycles >= s.cycles + 1 + (if Probe(c, s.cache, ins.addr).hit then 0 else MISS_PENALTY)
  {
    FetchStallInv(c, s, ins.addr);
    InsertPreservesInv(c, FetchStall(c, s, ins.addr), SlotOf(ins));
  }

  /** The trace, line by line. */
  function Run(c: Config, s: SimState, trace: seq<Instr>): (r: SimState)
    requires Shaped(c, s.cache)
    ensures Shaped(c, r.cache)
    decreases |trace|
  {
    if trace == [] then s else Run(c, Step(c, s, trace[0]), trace[1..])
  }

  /** A whole run: initialise, feed the trace, drain. */
  function Simulate(c: Config, trace: seq<Instr>): SimState
    requires ValidConfig(c)
  {
    Drain(c, Run(c, InitState(c), trace))
  }

  function CountBranches(trace: seq<Instr>): nat
  {
    if trace == [] then 0 else Ind(trace[0].Branch?) + CountBranches(trace[1..])
  }

  lemma {:induction false} RunPreservesInv(c: Config, s: SimState, trace: seq<Instr>)
    requires Inv(c, s)
    ensures Inv(c, Run(c, s, trace))
    ensures Run(c, s, trace).cycles >= s.cycles + |trace|
    ensures Run(c, s, trace).branches == s.branches + CountBranches(trace)
    decreases |trace|
  {
    if trace != [] {
      StepPreservesInv(c, s, trace[0]);
      StepCycles(c, s, trace[0]);
      RunPreservesInv(c, Step(c, s, trace[0]), trace[1..]);
    }
  }

  /**
   * What every run promises: CPI is at least 1 (no more instructions retire than cycles pass),
   * no more correct predictions than `beq` lines, no more hits and misses than counted accesses,
   * and the total branch count is the number of `beq` lines.
   */
  lemma SimulateBounds(c: Config, trace: seq<Instr>)
    requires ValidConfig(c)
    ensures var r := Simulate(c, trace);
      && r.instructions <= r.cycles
      && r.correct <= r.branches == CountBranches(trace)
      && r.cache.hits + r.cache.misses <= r.access
      && r.cycles >= |trace|
  {
    var s := Run(c, InitState(c), trace);
    InitInv(c);
    RunPreservesInv(c, InitState(c), trace);
    DrainPreservesInv(c, s);
    DrainBound(c, s);
    PushNPreservesInv(c, s, DrainSteps(c, s));
  }

  /** A NOP at address 0 that still holds the data address `x` of a load or store that passed through. */
  function Stale(x: Word): Slot
  {
    EMPTY.(dataAddr := x)
  }

  /**
   * The stages a load with data address `x` leaves once it has retired: FETCH zeroed and NOPs at
   * address 0 holding `x` behind it. `Quiet(0)` is the empty pipeline.
   */
  function Quiet(x: Word): Pipe
  {
    Pipe(EMPTY, Stale(x), Stale(x), Stale(x), Stale(x))
  }

  /** A cycle on such a pipeline only counts the cycle, and the drain stops at once. */
  lemma QuietPush(c: Config, s: SimState, x: Word)
    requires Shaped(c, s.cache) && s.pipe == Quiet(x)
    ensures Push(c, s) == s.(cycles := s.cycles + 1)
    ensures Drain(c, s) == s
  {
  }

  lemma {:induction false} QuietPushN(c: Config, s: SimState, x: Word, n: nat)
    requires Shaped(c, s.cache) && s.pipe == Quiet(x)
    ensures PushN(c, s, n) == s.(cycles := s.cycles + n)
    decreases n
  {
    if n > 0 {
      QuietPush(c, s, x);
      QuietPushN(c, Push(c, s), x, n - 1);
    }
  }

  /** The first line of any trace misses and stalls on the empty pipeline: `MISS_PENALTY` cycles. */
  lemma FirstFetch(c: Config, addr: Word)
    requires ValidConfig(c)
    ensures var r := FetchStall(c, InitState(c), addr);
      && r.pipe == EMPTY_PIPE && r.cycles == MISS_PENALTY && r.instructions == 0
      && r.access == 1 && r.cache.misses == 1 && r.cache.hits == 0
  {
    var s := InitState(c);
    ColdMiss(c, addr);
    var f := Probe(c, s.cache, addr);
    QuietPushN(c, s.(cache := f.cache, access := 1), 0, MISS_PENALTY);

  }

  /**
   * A trace of one `nop`: the fetch misses and stalls nine cycles, the insert adds the tenth, and
   * the drain stops at once because every stage holds a NOP, so the `nop` at FETCH never retires.
   */
  lemma SingleNopTrace(c: Config, addr: Word)
    requires ValidConfig(c)
    ensures var r := Simulate(c, [Nop(addr)]);
      && r.cycles == CACHE_MISS_DELAY && r.instructions == 0
      && r.access == 1 && r.cache.misses == 1 && r.cache.hits == 0
      && r.pipe.fetch == Slot(NOP, addr, 0, Regs(0, 0, 0))
  {
    var s := InitState(c);
    FirstFetch(c, addr);
    var s2 := FetchStall(c, s, addr);
    QuietPush(c, s2, 0);
    assert Run(c, s, [Nop(addr)]) == Step(c, s, Nop(addr));
  }

  /** A load, a `nop` and a `beq` at consecutive addresses, the `beq` last so that the drain finds it taken. */
  const SQUASH_TRACE: seq<Instr> := [Load(16, 0), Nop(20), Branch(24)]

  /** The three stages a run of `SQUASH_TRACE` leaves filled. */
  const SQUASH_PIPE: Pipe := Pipe(SlotOf(Branch(24)), SlotOf(Nop(20)), SlotOf(Load(16, 0)), EMPTY, EMPTY)

  /** A configuration with not-taken prediction whose blocks hold all three trace addresses together. */
  predicate SquashSetting(c: Config)
  {
    && ValidConfig(c) && !c.predictTaken
    && Shr(16, c.offsetBits) == Shr(20, c.offsetBits) && Shr(20, c.offsetBits) == Shr(24, c.offsetBits)
  }

  /** Two sets of one way and blocks of four words, with not-taken prediction, is such a configuration. */
  lemma SmallSquashSetting()
    ensures SquashSetting(Config(1, 4, 4, 1, false))
  {
    assert Pow2(1) == 2 && Pow2(4) == 16;
    assert Shr(16, 4) == 1 && Shr(20, 4) == 1 && Shr(24, 4) == 1;
  }

  /**
   * The first line of any run: a cold miss, nine empty cycles, one more for the insert, and the
   * instruction alone in FETCH.
   */
  lemma FirstLine(c: Config, ins: Instr)
    requires ValidConfig(c)
    ensures Step(c, InitState(c), ins)
         == InitState(c).(cache := Probe(c, InitCache(c), ins.addr).cache, pipe := EMPTY_PIPE.(fetch := SlotOf(ins)),
                          access := 1 + Ind(ins.Load? || ins.Store?), cycles := CACHE_MISS_DELAY,
                          branches := Ind(ins.Branch?))
  {
    var s0 := InitState(c);
    FirstFetch(c, ins.addr);
    QuietPushN(c, s0.(cache := Probe(c, s0.cache, ins.addr).cache, access := 1), 0, MISS_PENALTY);
    var f := FetchStall(c, s0, ins.addr);
    assert f == s0.(cache := Probe(c, s0.cache, ins.addr).cache, access := 1, cycles := MISS_PENALTY);
    QuietPush(c, f, 0);
  }

  /**
   * A line whose fetch hits, in a cycle with no misprediction, no load or store in MEM and
   * nothing to retire: one access (two for a load or store), one cycle, every stage one on and
   * the new instruction in FETCH.
   */
  lemma HitStep(c: Config, s: SimState, ins: Instr)
    requires Shaped(c, s.cache) && Probe(c, s.cache, ins.addr).hit
    requires !Mispredicted(c, s.pipe) && !s.pipe.mem.kind.IsMem() && s.pipe.writeback.addr == 0
    ensures Step(c, s, ins)
         == s.(cache := Probe(c, s.cache, ins.addr).cache, pipe := Advance(s.pipe).(fetch := SlotOf(ins)),
               access := s.access + 1 + Ind(ins.Load? || ins.Store?), cycles := s.cycles + 1,
               branches := s.branches + Ind(ins.Branch?), correct := s.correct + Ind(s.pipe.decode.kind == BRANCH))
  {
    var f := FetchStall(c, s, ins.addr);
    assert f == s.(cache := Probe(c, s.cache, ins.addr).cache, access := s.access + 1);
    PushEffect(c, f);
  }

  /**
   * Feeding `SQUASH_TRACE`: the first fetch misses and stalls on the empty pipeline, the other
   * two hit in the same block, and the three instructions fill FETCH, DECODE and ALU.
   */
  lemma SquashTraceRun(c: Config)
    requires SquashSetting(c)
    ensures var r := Run(c, InitState(c), SQUASH_TRACE);
      && r.pipe == SQUASH_PIPE
      && r.access == 4 && r.cache.hits == 2 && r.cache.misses == 1
  {
    var s0 := InitState(c);
    FirstLine(c, Load(16, 0));
    ColdMiss(c, 16);
    var s1 := Step(c, s0, Load(16, 0));
    ProbeSameBlockHits(c, s0.cache, 16, 20);
    HitStep(c, s1, Nop(20));
    var s2 := Step(c, s1, Nop(20));
    assert s2.pipe == Pipe(SlotOf(Nop(20)), SlotOf(Load(16, 0)), EMPTY, EMPTY, EMPTY);
    ProbeSameBlockHits(c, s1.cache, 20, 24);
    HitStep(c, s2, Branch(24));
    var s3 := Step(c, s2, Branch(24));
    assert s3.pipe == SQUASH_PIPE;
    assert SQUASH_TRACE[1..][1..][1..] == [];
    assert Run(c, s0, SQUASH_TRACE) == s3;
  }

  /**
   * Draining `SQUASH_PIPE` on not-taken prediction: the `beq` reaches DECODE with an empty FETCH,
   * so it resolves taken and squashes; the load in MEM moves to WRITEBACK unprobed, and no
   * other stage probes either. No counter of the cache changes.
   */
  lemma DrainSkipsLoad(c: Config, s: SimState)
    requires Shaped(c, s.cache) && !c.predictTaken && s.pipe == SQUASH_PIPE
    ensures Drain(c, s).cache == s.cache && Drain(c, s).access == s.access
  {
    var d1 := Push(c, s);
    PushEffect(c, s);
    assert Drain(c, s) == Drain(c, d1);
    var d2 := Push(c, d1);
    PushEffect(c, d1);
    assert Mispredicted(c, d1.pipe) && MidPipe(c, d1.pipe).mem.kind == NOP;
    assert Drain(c, d1) == Drain(c, d2);
    var d3 := Push(c, d2);
    PushEffect(c, d2);
    assert Drain(c, d2) == Drain(c, d3);
    var d4 := Push(c, d3);
    PushEffect(c, d3);
    assert Drain(c, d3) == Drain(c, d4);
    assert AllNop(d4.pipe);
  }

  /**
   * The access counter can end above hits plus misses: in this run four accesses are counted
   * (three fetches and the load) but only the three fetches probe the cache.
   */
  lemma SquashedLoadNeverProbed(c: Config)
    requires SquashSetting(c)
    ensures var r := Simulate(c, SQUASH_TRACE);
      && r.access == 4 && r.cache.hits == 2 && r.cache.misses == 1
      && r.cache.hits + r.cache.misses < r.access
  {
    SquashTraceRun(c);
    DrainSkipsLoad(c, Run(c, InitState(c), SQUASH_TRACE));
  }

  /**
   * A cycle with no branch in DECODE: nothing is squashed, WRITEBACK retires when its address is
   * nonzero, a load or store in MEM probes its data address, and every stage moves one on.
   */
  lemma NoBranchPush(c: Config, s: SimState)
    requires Shaped(c, s.cache) && s.pipe.decode.kind != BRANCH
    ensures var r, m := Push(c, s), s.pipe.mem;
      && r.pipe == Advance(s.pipe) && r.access == s.access && r.branches == s.branches && r.correct == s.correct
      && r.cache == (if m.kind.IsMem() then Probe(c, s.cache, m.dataAddr).cache else s.cache)
      && r.cycles == s.cycles + 1 + (if m.kind.IsMem() && !Probe(c, s.cache, m.dataAddr).hit then MISS_PENALTY else 0)
      && r.instructions == s.instructions + Ind(s.pipe.writeback.addr != 0)
  {
    PushEffect(c, s);
  }

  /** While some stage holds an instruction, the drain runs one more cycle. */
  lemma DrainStep(c: Config, s: SimState)
    requires Shaped(c, s.cache) && !AllNop(s.pipe)
    ensures Drain(c, s) == Drain(c, Push(c, s))
  {
  }

  /** The first three cycles of a load alone in FETCH with NOPs at address 0 behind it: it reaches MEM. */
  lemma LoadReachesMem(c: Config, s: SimState, a: Word, d: Word, x: Word)
    requires Shaped(c, s.cache) && s.pipe == Quiet(x).(fetch := SlotOf(Load(a, d)))
    ensures var t := s.(cycles := s.cycles + 3, pipe := Pipe(EMPTY, Stale(d), Stale(d), SlotOf(Load(a, d)), Stale(x)));
      PushN(c, s, 3) == t && Drain(c, s) == Drain(c, t)
  {
    var ld := SlotOf(Load(a, d));
    var p1 := Push(c, s);
    NoBranchPush(c, s);
    assert p1 == s.(cycles := s.cycles + 1, pipe := Pipe(EMPTY, ld, Stale(x), Stale(x), Stale(x)));
    var p2 := Push(c, p1);
    NoBranchPush(c, p1);
    assert p2 == s.(cycles := s.cycles + 2, pipe := Pipe(EMPTY, Stale(d), ld, Stale(x), Stale(x)));
    var p3 := Push(c, p2);
    NoBranchPush(c, p2);
    assert PushN(c, s, 3) == PushN(c, p1, 2) == PushN(c, p2, 1) == p3;
    DrainStep(c, s);
    DrainStep(c, p1);
    DrainStep(c, p2);
  }

  /**
   * A load of `d` in MEM with NOPs at address 0 before it: in two cycles it probes `d` and
   * retires, after the instruction in WRITEBACK; the drain stops there.
   */
  lemma LoadLeavesMem(c: Config, s: SimState, a: Word, d: Word, w: Slot)
    requires Shaped(c, s.cache) && w.regs == Regs(0, 0, 0)
    requires s.pipe == Pipe(EMPTY, Stale(d), Stale(d), SlotOf(Load(a, d)), w)
    ensures var r := Probe(c, s.cache, d);
      var t := s.(cache := r.cache, pipe := Quiet(d), cycles := s.cycles + 2 + (if r.hit then 0 else MISS_PENALTY),
                  instructions := s.instructions + Ind(w.addr != 0) + Ind(a != 0));
      PushN(c, s, 2) == t && Drain(c, s) == t
  {
    var ld := SlotOf(Load(a, d));
    var r := Probe(c, s.cache, d);
    var p1 := Push(c, s);
    NoBranchPush(c, s);
    assert p1 == s.(cache := r.cache, cycles := s.cycles + 1 + (if r.hit then 0 else MISS_PENALTY),
                    pipe := Pipe(EMPTY, Stale(d), Stale(d), Stale(d), ld), instructions := s.instructions + Ind(w.addr != 0));
    var p2 := Push(c, p1);
    NoBranchPush(c, p1);
    assert p2 == s.(cache := r.cache, pipe := Quiet(d), cycles := s.cycles + 2 + (if r.hit then 0 else MISS_PENALTY),
                    instructions := s.instructions + Ind(w.addr != 0) + Ind(a != 0));
    QuietPush(c, p2, d);
    assert PushN(c, s, 2) == PushN(c, p1, 1) == p2;
    DrainStep(c, s);
    DrainStep(c, p1);
  }

  /**
   * A load alone in FETCH with NOPs at address 0 behind it: five cycles take it through MEM,
   * where it probes its data address `d`, and retire it; the drain runs exactly those five.
   */
  lemma LoneLoad(c: Config, s: SimState, a: Word, d: Word, x: Word)
    requires Shaped(c, s.cache) && s.pipe == Quiet(x).(fetch := SlotOf(Load(a, d)))
    ensures var r := Probe(c, s.cache, d);
      var t := s.(cache := r.cache, pipe := Quiet(d), cycles := s.cycles + 5 + (if r.hit then 0 else MISS_PENALTY),
                  instructions := s.instructions + Ind(a != 0));
      PushN(c, s, 5) == t && Drain(c, s) == t
  {
    LoadReachesMem(c, s, a, d, x);
    LoadLeavesMem(c, PushN(c, s, 3), a, d, Stale(x));
    PushNAdd(c, s, 3, 2);
  }

  /** Two loads of `d` in FETCH and DECODE: two cycles take the earlier one to MEM and the later one to ALU. */
  lemma TwoLoadsAdvance(c: Config, s: SimState, a: Word, b: Word, d: Word)
    requires Shaped(c, s.cache) && s.pipe == Pipe(SlotOf(Load(b, d)), SlotOf(Load(a, d)), EMPTY, EMPTY, EMPTY)
    ensures Drain(c, s)
         == Drain(c, s.(cycles := s.cycles + 2, pipe := Pipe(EMPTY, Stale(d), SlotOf(Load(b, d)), SlotOf(Load(a, d)), EMPTY)))
  {
    var l1, l2 := SlotOf(Load(a, d)), SlotOf(Load(b, d));
    var p1 := Push(c, s);
    NoBranchPush(c, s);
    assert p1 == s.(cycles := s.cycles + 1, pipe := Pipe(EMPTY, l2, l1, EMPTY, EMPTY));
    NoBranchPush(c, p1);
    assert Push(c, p1) == s.(cycles := s.cycles + 2, pipe := Pipe(EMPTY, Stale(d), l2, l1, EMPTY));
    DrainStep(c, s);
    DrainStep(c, p1);
  }

  /**
   * Two loads of `d` in MEM and ALU: the drain probes `d` for the earlier one, then, one cycle
   * later with nothing probed in between, for the later one, which therefore hits; both retire.
   */
  lemma TwoLoadsProbeTwice(c: Config, s: SimState, a: Word, b: Word, d: Word)
    requires Shaped(c, s.cache) && s.pipe == Pipe(EMPTY, Stale(d), SlotOf(Load(b, d)), SlotOf(Load(a, d)), EMPTY)
    ensures var r1 := Probe(c, s.cache, d);
      var r2 := Probe(c, r1.cache, d);
      && r2.hit
      && Drain(c, s) == s.(cache := r2.cache, pipe := Quiet(d), cycles := s.cycles + 3 + (if r1.hit then 0 else MISS_PENALTY),
                           instructions := s.instructions + Ind(a != 0) + Ind(b != 0))
  {
    var r1 := Probe(c, s.cache, d);
    ProbeAgainHits(c, s.cache, d);
    var p1 := Push(c, s);
    NoBranchPush(c, s);
    assert p1 == s.(cache := r1.cache, cycles := s.cycles + 1 + (if r1.hit then 0 else MISS_PENALTY),
                    pipe := Pipe(EMPTY, Stale(d), Stale(d), SlotOf(Load(b, d)), SlotOf(Load(a, d))));
    DrainStep(c, s);
    LoadLeavesMem(c, p1, b, d, SlotOf(Load(a, d)));
  }

  /** Two loads of `d` in FETCH and DECODE: the drain probes `d` twice in a row, so the second probe hits. */
  lemma TwoLoadsDrain(c: Config, s: SimState, a: Word, b: Word, d: Word)
    requires Shaped(c, s.cache) && s.pipe == Pipe(SlotOf(Load(b, d)), SlotOf(Load(a, d)), EMPTY, EMPTY, EMPTY)
    ensures var r1 := Probe(c, s.cache, d);
      var r2 := Probe(c, r1.cache, d);
      && r2.hit
      && Drain(c, s) == s.(cache := r2.cache, pipe := Quiet(d), cycles := s.cycles + 5 + (if r1.hit then 0 else MISS_PENALTY),
                           instructions := s.instructions + Ind(a != 0) + Ind(b != 0))
  {
    TwoLoadsAdvance(c, s, a, b, d);
    TwoLoadsProbeTwice(c, s.(cycles := s.cycles + 2, pipe := Pipe(EMPTY, Stale(d), SlotOf(Load(b, d)), SlotOf(Load(a, d)), EMPTY)), a, b, d);
  }

  /**
   * The probes a run of two loads of `d` from `a1` and `a2` makes, with `d` in neither fetch
   * block: the first fetch misses the cold cache, the second hits exactly when it lies in the
   * first's block, the first probe of `d` misses, and the second hits.
   */
  lemma TwoLoadsProbes(c: Config, a1: Word, a2: Word, d: Word)
    requires ValidConfig(c)
    requires Shr(d, c.offsetBits) != Shr(a1, c.offsetBits) && Shr(d, c.offsetBits) != Shr(a2, c.offsetBits)
    ensures var c1 := Probe(c, InitCache(c), a1).cache;
      var r2 := Probe(c, c1, a2);
      var r3 := Probe(c, r2.cache, d);
      && (r2.hit <==> Shr(a1, c.offsetBits) == Shr(a2, c.offsetBits))
      && !r3.hit && Probe(c, r3.cache, d).hit
  {
    var c0 := InitCache(c);
    var c1 := Probe(c, c0, a1).cache;
    var c2 := Probe(c, c1, a2).cache;
    var s1, s2 := SplitAddress(c, a1), SplitAddress(c, a2);
    var seen1 := {} + {(s1.index, s1.tag)};
    InitTagsSeen(c);
    ProbeSeen(c, c0, a1, {});
    ProbeSeen(c, c1, a2, seen1);
    ProbeSeen(c, c2, d, seen1 + {(s2.index, s2.tag)});
    SameSplitIffSameBlock(c, a1, a2);
    SameSplitIffSameBlock(c, d, a1);
    SameSplitIffSameBlock(c, d, a2);
    if Shr(a1, c.offsetBits) == Shr(a2, c.offsetBits) {
      ProbeSameBlockHits(c, c0, a1, a2);
    }
    ProbeAgainHits(c, c2, d);
  }

  /** A two-line trace is two steps. */
  lemma RunTwo(c: Config, s: SimState, i1: Instr, i2: Instr)
    requires Shaped(c, s.cache)
    ensures Run(c, s, [i1, i2]) == Step(c, Step(c, s, i1), i2)
  {
    var s1 := Step(c, s, i1);
    assert [i1, i2][0] == i1 && [i1, i2][1..] == [i2];
    assert Run(c, s, [i1, i2]) == Run(c, s1, [i2]);
    assert [i2][0] == i2 && |[i2][1..]| == 0;
    assert Run(c, s1, [i2]) == Run(c, Step(c, s1, i2), []);
  }

  /**
   * Feeding two loads whose fetches share a block: the second fetch hits, so the second load
   * follows the first one stage behind.
   */
  lemma TwoLoadsSameBlockRun(c: Config, a1: Word, a2: Word, d: Word)
    requires ValidConfig(c) && Shr(a1, c.offsetBits) == Shr(a2, c.offsetBits)
    ensures var r := Run(c, InitState(c), [Load(a1, d), Load(a2, d)]);
      && r.pipe == Pipe(SlotOf(Load(a2, d)), SlotOf(Load(a1, d)), EMPTY, EMPTY, EMPTY)
      && r.cache == Probe(c, Probe(c, InitCache(c), a1).cache, a2).cache && r.access == 4
  {
    var s0 := InitState(c);
    FirstLine(c, Load(a1, d));
    var s1 := Step(c, s0, Load(a1, d));
    ProbeSameBlockHits(c, s0.cache, a1, a2);
    HitStep(c, s1, Load(a2, d));
    RunTwo(c, s0, Load(a1, d), Load(a2, d));
  }

  /**
   * A fetch miss while a load of `d` waits alone in FETCH: during the nine-cycle stall the load
   * runs through MEM, probing `d`, and retires.
   */
  lemma StallBehindLoad(c: Config, s: SimState, a: Word, d: Word, addr: Word)
    requires Shaped(c, s.cache) && s.pipe == Quiet(0).(fetch := SlotOf(Load(a, d)))
    requires !Probe(c, s.cache, addr).hit
    ensures var f := FetchStall(c, s, addr);
      && f.pipe == Quiet(d) && f.cache == Probe(c, Probe(c, s.cache, addr).cache, d).cache && f.access == s.access + 1
  {
    var t := s.(cache := Probe(c, s.cache, addr).cache, access := s.access + 1);
    assert FetchStall(c, s, addr) == PushN(c, t, MISS_PENALTY);
    PushNAdd(c, t, 5, 4);
    LoneLoad(c, t, a, d, 0);
    QuietPushN(c, PushN(c, t, 5), d, 4);
  }

  /** Then the line's insert adds a cycle on the empty stages and puts it in FETCH. */
  lemma MissBehindLoad(c: Config, s: SimState, a: Word, d: Word, ins: Instr)
    requires Shaped(c, s.cache) && s.pipe == Quiet(0).(fetch := SlotOf(Load(a, d)))
    requires !Probe(c, s.cache, ins.addr).hit
    ensures var r := Step(c, s, ins);
      && r.pipe == Quiet(d).(fetch := SlotOf(ins))
      && r.cache == Probe(c, Probe(c, s.cache, ins.addr).cache, d).cache
      && r.access == s.access + 1 + Ind(ins.Load? || ins.Store?)
  {
    StallBehindLoad(c, s, a, d, ins.addr);
    QuietPush(c, FetchStall(c, s, ins.addr), d);
  }

  /**
   * Feeding two loads whose second fetch misses: the first load is probed during the second
   * line's stall, and the second load then enters FETCH alone.
   */
  lemma TwoLoadsApartRun(c: Config, a1: Word, a2: Word, d: Word)
    requires ValidConfig(c) && !Probe(c, Probe(c, InitCache(c), a1).cache, a2).hit
    ensures var r := Run(c, InitState(c), [Load(a1, d), Load(a2, d)]);
      && r.pipe == Quiet(d).(fetch := SlotOf(Load(a2, d)))
      && r.cache == Probe(c, Probe(c, Probe(c, InitCache(c), a1).cache, a2).cache, d).cache && r.access == 4
  {
    var s0 := InitState(c);
    FirstLine(c, Load(a1, d));
    var s1 := Step(c, s0, Load(a1, d));
    assert s1.pipe == Quiet(0).(fetch := SlotOf(Load(a1, d)));
    MissBehindLoad(c, s1, a1, d, Load(a2, d));
    RunTwo(c, s0, Load(a1, d), Load(a2, d));
  }

  /**
   * A run of two loads of `d` from `a1` and `a2`, whether or not the second fetch stalls, probes
   * `a1`, `a2`, `d` and `d` in that order and counts four accesses.
   */
  lemma TwoLoadsProbeOrder(c: Config, a1: Word, a2: Word, d: Word)
    requires ValidConfig(c)
    requires Shr(d, c.offsetBits) != Shr(a1, c.offsetBits) && Shr(d, c.offsetBits) != Shr(a2, c.offsetBits)
    ensures var r := Simulate(c, [Load(a1, d), Load(a2, d)]);
      && r.cache == Probe(c, Probe(c, Probe(c, Probe(c, InitCache(c), a1).cache, a2).cache, d).cache, d).cache
      && r.access == 4
  {
    TwoLoadsProbes(c, a1, a2, d);
    var s := Run(c, InitState(c), [Load(a1, d), Load(a2, d)]);
    if Shr(a1, c.offsetBits) == Shr(a2, c.offsetBits) {
      TwoLoadsSameBlockRun(c, a1, a2, d);
      TwoLoadsDrain(c, s, a1, a2, d);
    } else {
      TwoLoadsApartRun(c, a1, a2, d);
      LoneLoad(c, s, a2, d, d);
    }
  }

  /**
   * Two loads of one data address `d`, fetched from `a1` and `a2`, with `d` in neither fetch
   * block. Of the four probes `TwoLoadsProbeOrder` lists, the second probe of `d` hits, although
   * the first may have happened during the second line's stall; the first fetch and the first
   * probe of `d` miss; and the fetch of `a2` hits exactly when it lies in `a1`'s block.
   */
  lemma TwoLoadsOneAddress(c: Config, a1: Word, a2: Word, d: Word)
    requires ValidConfig(c)
    requires Shr(d, c.offsetBits) != Shr(a1, c.offsetBits) && Shr(d, c.offsetBits) != Shr(a2, c.offsetBits)
    ensures var r, same := Simulate(c, [Load(a1, d), Load(a2, d)]), Shr(a1, c.offsetBits) == Shr(a2, c.offsetBits);
      r.access == 4 && r.cache.hits == 1 + Ind(same) && r.cache.misses == 3 - Ind(same)
  {
    var c1 := Probe(c, InitCache(c), a1).cache;
    var c2 := Probe(c, c1, a2).cache;
    var c3 := Probe(c, c2, d).cache;
    TwoLoadsProbeOrder(c, a1, a2, d);
    TwoLoadsProbes(c, a1, a2, d);
    ColdMiss(c, a1);
    assert c3.misses == c2.misses + 1 && Probe(c, c3, d).cache.hits == c3.hits + 1;
  }
}

/**
 * The five-stage pipeline of iplc-sim.c as values: the stage slots, the squash on a branch
 * misprediction, the end-of-cycle shift, one whole cycle (`Push`), the inserts, and the drain.
 * The simulator's counters live in `SimState` beside the cache.
 */
module Pipeline {
  import opened Bits
  import opened Cache

  /** Full penalty of a cache miss, in cycles. */
  const CACHE_MISS_DELAY: nat := 10

  /** Cycles a miss adds beyond the ordinary per-cycle increment, which charges the remaining one. */
  const MISS_PENALTY: nat := CACHE_MISS_DELAY - 1

  /** Stage numbers, as the simulator indexes its pipeline array. */
  const FETCH: nat := 0
  const DECODE: nat := 1
  const ALU: nat := 2
  const MEM: nat := 3
  const WRITEBACK: nat := 4
  const STAGES: nat := 5

  /** The instruction types, in the order of the source's enumeration (`NOP` is 0). */
  datatype Kind = NOP | RTYPE | LW | SW | BRANCH | JUMP | JAL | SYSCALL {
    /** The kinds that carry a data address and probe the cache in MEM. */
    predicate IsMem()
    {
      this == LW || this == SW
    }
  }

  /** The register fields of the R-type payload; the only fields the forwarding checks read. */
  datatype Regs = Regs(reg1: int, reg2OrConstant: int, destReg: int)

  /** One stage: the instruction's kind, its address, the data address of a load or store, and the R-type registers. */
  datatype Slot = Slot(kind: Kind, addr: Word, dataAddr: Word, regs: Regs)

  /** A zeroed slot: a NOP at address 0. */
  const EMPTY: Slot := Slot(NOP, 0, 0, Regs(0, 0, 0))

  /** The five stages. */
  datatype Pipe = Pipe(fetch: Slot, decode: Slot, alu: Slot, mem: Slot, writeback: Slot)

  const EMPTY_PIPE: Pipe := Pipe(EMPTY, EMPTY, EMPTY, EMPTY, EMPTY)

  /**
   * Copying a stage forward: the kind and the address always, the data address only for a load
   * or store; the registers of the destination stage stay where they are.
   */
  function ShiftInto(dst: Slot, src: Slot): Slot
  {
    Slot(src.kind, src.addr, if src.kind.IsMem() then src.dataAddr else dst.dataAddr, dst.regs)
  }

  /** `after` holds the instruction that was in `before`: kind, address and, for LW/SW, the data address. */
  predicate Moved(before: Slot, after: Slot)
  {
    after.kind == before.kind && after.addr == before.addr && (before.kind.IsMem() ==> after.dataAddr == before.dataAddr)
  }

  /** One data-address copy of the squash: when `dst` now holds kind `k`, it takes the data address of `src`. */
  function DataFrom(k: Kind, dst: Slot, src: Slot): Slot
  {
    if dst.kind == k then dst.(dataAddr := src.dataAddr) else dst
  }

  /** One pass of the squash's data-address copies for kind `k`: WRITEBACK from MEM, MEM from ALU, ALU from DECODE. */
  function CopyData(k: Kind, p: Pipe): Pipe
  {
    Pipe(p.fetch, p.decode, DataFrom(k, p.alu, p.decode), DataFrom(k, p.mem, p.alu), DataFrom(k, p.writeback, p.mem))
  }

  /**
   * The forced shift of a misprediction: WRITEBACK, MEM and ALU take the kind and address of the
   * next earlier stage and DECODE becomes a NOP at 0; then the data addresses are copied in two
   * passes, first for loads and then for stores, so a store copy reads a slot the load pass may
   * already have rewritten.
   */
  function Squash(p: Pipe): Pipe
  {
    var m := Pipe(p.fetch, p.decode.(kind := NOP, addr := 0), p.alu.(kind := p.decode.kind, addr := p.decode.addr),
                  p.mem.(kind := p.alu.kind, addr := p.alu.addr), p.writeback.(kind := p.mem.kind, addr := p.mem.addr));
    CopyData(SW, CopyData(LW, m))
  }

  /** The end of a cycle: every stage moves one stage on and FETCH is zeroed. */
  function Advance(p: Pipe): Pipe
  {
    Pipe(EMPTY, ShiftInto(p.decode, p.fetch), ShiftInto(p.alu, p.decode),
         ShiftInto(p.mem, p.alu), ShiftInto(p.writeback, p.mem))
  }

  /**
   * The squash leaves FETCH, puts a NOP at address 0 into DECODE and moves DECODE, ALU and MEM one
   * stage on, overwriting WRITEBACK. When DECODE holds the branch, the only case in which the
   * simulator squashes, MEM gets the data address of ALU's load or store, and the one exception to
   * a clean move is a store leaving MEM while a load leaves ALU: it reaches WRITEBACK with the
   * load's data address. No register field moves.
   */
  lemma SquashMoves(p: Pipe)
    ensures var q := Squash(p);
      && q.fetch == p.fetch && q.decode.kind == NOP && q.decode.addr == 0
      && Moved(p.decode, q.alu)
      && (p.decode.kind == BRANCH ==> Moved(p.alu, q.mem))
      && q.writeback.kind == p.mem.kind && q.writeback.addr == p.mem.addr
      && (p.mem.kind == LW ==> q.writeback.dataAddr == p.mem.dataAddr)
      && (p.mem.kind == SW ==> q.writeback.dataAddr == if p.alu.kind == LW then p.alu.dataAddr else p.mem.dataAddr)
      && q.alu.regs == p.alu.regs && q.mem.regs == p.mem.regs && q.writeback.regs == p.writeback.regs
  {
  }

  /**
   * The end-of-cycle shift zeroes FETCH and moves every other stage one on, data address included
   * for loads and stores; no register field moves.
   */
  lemma AdvanceMoves(p: Pipe)
    ensures var r := Advance(p);
      && r.fetch == EMPTY
      && Moved(p.fetch, r.decode) && Moved(p.decode, r.alu) && Moved(p.alu, r.mem) && Moved(p.mem, r.writeback)
      && r.decode.regs == p.decode.regs && r.alu.regs == p.alu.regs && r.mem.regs == p.mem.regs
      && r.writeback.regs == p.writeback.regs
  {
  }

  /** Everything the simulator updates: the cache and its counters, the pipeline, and the pipeline counters. */
  datatype SimState = SimState(
    cache: CacheState,
    pipe: Pipe,
    access: nat,
    cycles: nat,
    instructions: nat,
    branches: nat,
    correct: nat)

  /** The state initialisation leaves: a cold cache, five zeroed stages, all counters 0. */
  function InitState(c: Config): (s: SimState)
    requires ValidConfig(c)
    ensures CacheValid(c, s.cache) && s.pipe == EMPTY_PIPE
    ensures s.access == s.cycles == s.instructions == s.branches == s.correct == 0
  {
    SimState(InitCache(c), EMPTY_PIPE, 0, 0, 0, 0, 0)
  }

  /** The branch in DECODE is taken when FETCH does not hold the next sequential address (32-bit sum). */
  predicate Taken(p: Pipe)
  {
    p.fetch.addr != AddWrap(p.decode.addr, 4)
  }

  predicate Mispredicted(c: Config, p: Pipe)
  {
    p.decode.kind == BRANCH && Taken(p) != c.predictTaken
  }

  /** Step 1 of a cycle: WRITEBACK retires when its address is nonzero, whatever its kind. */
  function Retire(s: SimState): SimState
  {
    if s.pipe.writeback.addr != 0 then s.(instructions := s.instructions + 1) else s
  }

  /** Step 2: resolve a branch in DECODE; a misprediction costs a cycle and squashes. */
  function ResolveBranch(c: Config, s: SimState): SimState
  {
    if s.pipe.decode.kind != BRANCH then s
    else if Taken(s.pipe) == c.predictTaken then s.(correct := s.correct + 1)
    else
      var q := Squash(s.pipe);
      s.(pipe := q, cycles := s.cycles + 1,
         instructions := s.instructions + if q.writeback.addr != 0 then 1 else 0)
  }

  /** Steps 3 and 4: a load or store in MEM probes its data address; a miss adds the penalty. */
  function ProbeMem(c: Config, s: SimState): SimState
    requires Shaped(c, s.cache)
  {
    if s.pipe.mem.kind.IsMem() then
      var r := Probe(c, s.cache, s.pipe.mem.dataAddr);
      s.(cache := r.cache, cycles := s.cycles + if r.hit then 0 else MISS_PENALTY)
    else s
  }

  /** One cycle: retire, resolve the branch, probe MEM, count the cycle, shift and zero FETCH. */
  function Push(c: Config, s: SimState): (r: SimState)
    requires Shaped(c, s.cache)
    ensures Shaped(c, r.cache)
  {
    var m := ProbeMem(c, ResolveBranch(c, Retire(s)));
    m.(cycles := m.cycles + 1, pipe := Advance(m.pipe))
  }

  /** The stages as they stand when MEM is probed. */
  function MidPipe(c: Config, p: Pipe): Pipe
  {
    if Mispredicted(c, p) then Squash(p) else p
  }

  /** Whether the MEM probe of this cycle misses. */
  predicate MemMisses(c: Config, s: SimState)
    requires Shaped(c, s.cache)
  {
    var m := MidPipe(c, s.pipe).mem;
    m.kind.IsMem() && !Probe(c, s.cache, m.dataAddr).hit
  }

  function Ind(b: bool): nat
  {
    if b then 1 else 0
  }

  /**
   * What one cycle does to every counter: one base cycle, one more on a misprediction, the miss
   * penalty when the load or store in MEM misses; at most one retirement plus one more on a
   * misprediction; a correct prediction only when the branch resolves as predicted.
   */
  lemma PushEffect(c: Config, s: SimState)
    requires Shaped(c, s.cache)
    ensures var r, mid := Push(c, s), MidPipe(c, s.pipe);
      && r.pipe == Advance(mid)
      && r.cycles == s.cycles + 1 + Ind(Mispredicted(c, s.pipe)) + (if MemMisses(c, s) then MISS_PENALTY else 0)
      && r.instructions == s.instructions + Ind(s.pipe.writeback.addr != 0)
                           + Ind(Mispredicted(c, s.pipe) && mid.writeback.addr != 0)
      && r.correct == s.correct + Ind(s.pipe.decode.kind == BRANCH && !Mispredicted(c, s.pipe))
      && r.cache == (if mid.mem.kind.IsMem() then Probe(c, s.cache, mid.mem.dataAddr).cache else s.cache)
      && r.access == s.access && r.branches == s.branches
  {
  }

  /**
   * A `beq` in DECODE followed by the next sequential address in FETCH, under not-taken
   * prediction: the prediction is counted correct and the cycle costs no extra cycle for it.
   */
  lemma FallThroughPredicted(c: Config, s: SimState)
    requires Shaped(c, s.cache) && !c.predictTaken
    requires s.pipe.decode.kind == BRANCH && s.pipe.fetch.addr == AddWrap(s.pipe.decode.addr, 4)
    ensures var r := Push(c, s);
      && r.correct == s.correct + 1
      && r.cycles == s.cycles + 1 + (if MemMisses(c, s) then MISS_PENALTY else 0)
      && r.pipe.alu.kind == BRANCH && r.pipe.alu.addr == s.pipe.decode.addr
  {
    PushEffect(c, s);
  }

  /** Loads and stores counted as accesses whose MEM probe is still to come (FETCH up to MEM). */
  function PendingMem(p: Pipe): nat
  {
    Ind(p.fetch.kind.IsMem()) + Ind(p.decode.kind.IsMem()) + Ind(p.alu.kind.IsMem()) + Ind(p.mem.kind.IsMem())
  }

  /** Branches counted whose resolution in DECODE is still to come. */
  function PendingBranches(p: Pipe): nat
  {
    Ind(p.fetch.kind == BRANCH) + Ind(p.decode.kind == BRANCH)
  }

  /**
   * The invariant of a run: the cache is well formed; no more instructions retire than cycles
   * pass; every hit or miss belongs to an access, with the still-unprobed loads and stores on top;
   * every correct prediction belongs to a counted branch, with the unresolved branches on top.
   */
  ghost predicate Inv(c: Config, s: SimState)
  {
    && CacheValid(c, s.cache)
    && s.instructions <= s.cycles
    && s.cache.hits + s.cache.misses + PendingMem(s.pipe) <= s.access
    && s.correct + PendingBranches(s.pipe) <= s.branches
  }

  lemma InitInv(c: Config)
    requires ValidConfig(c)
    ensures Inv(c, InitState(c))
  {
  }

  /** One cycle keeps the invariant. */
  lemma PushPreservesInv(c: Config, s: SimState)
    requires Inv(c, s)
    ensures Inv(c, Push(c, s))
  {
    PushEffect(c, s);
    var mid := MidPipe(c, s.pipe);
    if mid.mem.kind.IsMem() {
      ProbePreservesValid(c, s.cache, mid.mem.dataAddr);
    }
  }

  /** The common part of the seven inserts: one cycle, then the new instruction in FETCH. */
  function Insert(c: Config, s: SimState, slot: Slot): (r: SimState)
    requires Shaped(c, s.cache)
    ensures Shaped(c, r.cache)
  {
    var t := Push(c, s);
    t.(pipe := t.pipe.(fetch := slot), access := t.access + Ind(slot.kind.IsMem()))
  }

  /**
   * An insert keeps the invariant once the branch it may carry is counted, and it takes at least
   * one cycle.
   */
  lemma InsertPreservesInv(c: Config, s: SimState, slot: Slot)
    requires Inv(c, s)
    ensures var t := Insert(c, s, slot);
      Inv(c, t.(branches := t.branches + Ind(slot.kind == BRANCH)))
    ensures Insert(c, s, slot).cycles >= s.cycles + 1 && Insert(c, s, slot).branches == s.branches
  {
    PushPreservesInv(c, s);
    PushEffect(c, s);
  }

  /** A cycle neither reads nor writes the branch counter. */
  lemma PushIgnoresBranches(c: Config, s: SimState, b: nat)
    requires Shaped(c, s.cache)
    ensures Push(c, s.(branches := b)) == Push(c, s).(branches := b)
  {
    var s' := s.(branches := b);
    assert Retire(s') == Retire(s).(branches := b);
    assert ResolveBranch(c, Retire(s')) == ResolveBranch(c, Retire(s)).(branches := b);
    assert ProbeMem(c, ResolveBranch(c, Retire(s'))) == ProbeMem(c, ResolveBranch(c, Retire(s))).(branches := b);
  }

  /**
   * Neither does an insert, so counting a branch just before its insert, as the simulator does,
   * is counting it just after.
   */
  lemma InsertIgnoresBranches(c: Config, s: SimState, slot: Slot, b: nat)
    requires Shaped(c, s.cache)
    ensures Insert(c, s.(branches := b), slot) == Insert(c, s, slot).(branches := b)
  {
    PushIgnoresBranches(c, s, b);
  }

  /** `n` cycles with no new instruction. */
  function PushN(c: Config, s: SimState, n: nat): (r: SimState)
    requires Shaped(c, s.cache)
    ensures Shaped(c, r.cache)
    decreases n
  {
    if n == 0 then s else PushN(c, Push(c, s), n - 1)
  }

  /** `n + 1` cycles are `n` cycles and one more. */
  lemma {:induction false} PushNSnoc(c: Config, s: SimState, n: nat)
    requires Shaped(c, s.cache)
    ensures PushN(c, s, n + 1) == Push(c, PushN(c, s, n))
    decreases n
  {
    if n > 0 {
      PushNSnoc(c, Push(c, s), n - 1);
    }
  }

  /** `m + n` cycles are `m` cycles and then `n` more. */
  lemma {:induction false} PushNAdd(c: Config, s: SimState, m: nat, n: nat)
    requires Shaped(c, s.cache)
    ensures PushN(c, s, m + n) == PushN(c, PushN(c, s, m), n)
    decreases m
  {
    if m > 0 {
      var p := Push(c, s);
      assert PushN(c, s, m + n) == PushN(c, p, (m - 1) + n);
      assert PushN(c, s, m) == PushN(c, p, m - 1);
      PushNAdd(c, p, m - 1, n);
    }
  }

  lemma {:induction false} PushNPreservesInv(c: Config, s: SimState, n: nat)
    requires Inv(c, s)
    ensures Inv(c, PushN(c, s, n))
    ensures PushN(c, s, n).cycles >= s.cycles + n
    ensures PushN(c, s, n).branches == s.branches
    decreases n
  {
    if n > 0 {
      PushPreservesInv(c, s);
      PushEffect(c, s);
      PushNPreservesInv(c, Push(c, s), n - 1);
    }
  }

  /** The number of leading stages, from FETCH on, that hold a NOP. */
  function NopRun(p: Pipe): (k: nat)
    ensures k <= STAGES
  {
    if p.fetch.kind != NOP then 0
    else if p.decode.kind != NOP then 1
    else if p.alu.kind != NOP then 2
    else if p.mem.kind != NOP then 3
    else if p.writeback.kind != NOP then 4
    else 5
  }

  predicate AllNop(p: Pipe)
  {
    p.fetch.kind == NOP && p.decode.kind == NOP && p.alu.kind == NOP && p.mem.kind == NOP && p.writeback.kind == NOP
  }

  /** A cycle adds a NOP in front: the run of leading NOPs grows by one until it covers the pipeline. */
  lemma PushGrowsNopRun(c: Config, s: SimState)
    requires Shaped(c, s.cache)
    ensures NopRun(Push(c, s).pipe) >= if NopRun(s.pipe) < STAGES then NopRun(s.pipe) + 1 else STAGES
    ensures AllNop(s.pipe) <==> NopRun(s.pipe) == STAGES
  {
    PushEffect(c, s);
  }

  /**
   * The drain: cycles until every stage holds a NOP. It stops on the kinds alone, so a NOP with a
   * nonzero address still in a stage is never retired.
   */
  function Drain(c: Config, s: SimState): (r: SimState)
    requires Shaped(c, s.cache)
    ensures Shaped(c, r.cache)
    ensures AllNop(r.pipe)
    ensures AllNop(s.pipe) ==> r == s
    decreases STAGES - NopRun(s.pipe)
  {
    if AllNop(s.pipe) then s
    else
      PushGrowsNopRun(c, s);
      Drain(c, Push(c, s))
  }

  /** The number of cycles the drain runs. */
  function DrainSteps(c: Config, s: SimState): nat
    requires Shaped(c, s.cache)
    decreases STAGES - NopRun(s.pipe)
  {
    if AllNop(s.pipe) then 0
    else
      PushGrowsNopRun(c, s);
      1 + DrainSteps(c, Push(c, s))
  }

  /** The drain is at most five cycles, and fewer by the NOPs already leading the pipeline. */
  lemma {:induction false} DrainBound(c: Config, s: SimState)
    requires Shaped(c, s.cache)
    ensures Drain(c, s) == PushN(c, s, DrainSteps(c, s))
    ensures DrainSteps(c, s) <= STAGES - NopRun(s.pipe)
    decreases STAGES - NopRun(s.pipe)
  {
    if !AllNop(s.pipe) {
      PushGrowsNopRun(c, s);
      DrainBound(c, Push(c, s));
    }
  }

  lemma DrainPreservesInv(c: Config, s: SimState)
    requires Inv(c, s)
    ensures Inv(c, Drain(c, s))
  {
    DrainBound(c, s);
    PushNPreservesInv(c, s, DrainSteps(c, s));
  }
}

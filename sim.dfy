/**
 * The simulator's mutable state and the procedures that update it in place: the cache arrays,
 * the five pipeline slots and the global counters, with one method per procedure of iplc-sim.c.
 * Each method is proved to leave the state that the value model of `Cache`, `Pipeline` and
 * `Driver` computes from the state it found.
 */
module Simulator {
  import opened Bits
  import opened Cache
  import opened Pipeline
  import opened Driver

  class Sim {
    /** The geometry and prediction mode this run was configured with. */
    const c: Config
    /** `ways[i, j]`: valid bit and tag of way `j` of set `i`. */
    const ways: array2<Way>
    /** `repl[i, j]`: entry `j` of the recency list of set `i`. */
    const repl: array2<int>
    /** The stages, indexed `FETCH` .. `WRITEBACK`. */
    const pipeline: array<Slot>

    var cacheAccess: nat
    var cacheHit: nat
    var cacheMiss: nat
    var cycles: nat
    var instructions: nat
    var branches: nat
    var correct: nat

    /** The arrays have the configured shape. */
    ghost predicate Valid()
    {
      && ValidConfig(c)
      && ways.Length0 == Pow2(c.indexBits) && repl.Length0 == Pow2(c.indexBits)
      && ways.Length1 == c.assoc && repl.Length1 == c.assoc
      && pipeline.Length == STAGES
    }

    ghost function Sets(): (s: seq<seq<Way>>)
      reads ways
      ensures |s| == ways.Length0
      ensures forall i :: 0 <= i < |s| ==> |s[i]| == ways.Length1
      ensures forall i, j :: 0 <= i < ways.Length0 && 0 <= j < ways.Length1 ==> s[i][j] == ways[i, j]
    {
      seq(ways.Length0, i requires 0 <= i < ways.Length0 reads ways =>
        seq(ways.Length1, j requires 0 <= j < ways.Length1 reads ways => ways[i, j]))
    }

    ghost function Repl(): (s: seq<seq<int>>)
      reads repl
      ensures |s| == repl.Length0
      ensures forall i :: 0 <= i < |s| ==> |s[i]| == repl.Length1
      ensures forall i, j :: 0 <= i < repl.Length0 && 0 <= j < repl.Length1 ==> s[i][j] == repl[i, j]
    {
      seq(repl.Length0, i requires 0 <= i < repl.Length0 reads repl =>
        seq(repl.Length1, j requires 0 <= j < repl.Length1 reads repl => repl[i, j]))
    }

    /** The cache as a value. */
    ghost function Cache(): (cs: CacheState)
      reads this, ways, repl
      requires Valid()
      ensures Shaped(c, cs)
    {
      CacheState(Sets(), Repl(), cacheHit, cacheMiss)
    }

    /** The pipeline as a value. */
    ghost function Stages(): Pipe
      reads pipeline
      requires pipeline.Length == STAGES
    {
      Pipe(pipeline[FETCH], pipeline[DECODE], pipeline[ALU], pipeline[MEM], pipeline[WRITEBACK])
    }

    /** The whole simulator state as a value. */
    ghost function State(): (s: SimState)
      reads this, ways, repl, pipeline
      requires Valid()
      ensures Shaped(c, s.cache)
    {
      SimState(Cache(), Stages(), cacheAccess, cycles, instructions, branches, correct)
    }

    /**
     * Initialisation for an accepted configuration: every way invalid with tag 0, every
     * recency list `0 .. assoc-1`, every stage zeroed, every counter 0.
     */
    constructor (cfg: Config)
      requires ValidConfig(cfg)
      ensures c == cfg && Valid() && State() == InitState(cfg)
      ensures fresh(ways) && fresh(repl) && fresh(pipeline)
    {
      var n := Pow2(cfg.indexBits);
      var w := new Way[n, cfg.assoc];
      var r := new int[n, cfg.assoc];
      var i := 0;
      while i < n
        modifies w, r
        invariant 0 <= i <= n
        invariant forall i', j' :: 0 <= i' < i && 0 <= j' < cfg.assoc ==> w[i', j'] == Way(false, 0) && r[i', j'] == j'
      {
        var j := 0;
        while j < cfg.assoc
          modifies w, r
          invariant 0 <= j <= cfg.assoc
          invariant forall i', j' :: 0 <= i' < i && 0 <= j' < cfg.assoc ==> w[i', j'] == Way(false, 0) && r[i', j'] == j'
          invariant forall j' :: 0 <= j' < j ==> w[i, j'] == Way(false, 0) && r[i, j'] == j'
        {
          w[i, j] := Way(false, 0);
          r[i, j] := j;
          j := j + 1;
        }
        i := i + 1;
      }
      var p := new Slot[STAGES];
      var k := 0;
      while k < STAGES
        modifies p
        invariant 0 <= k <= STAGES
        invariant forall k' :: 0 <= k' < k ==> p[k'] == EMPTY
      {
        p[k] := EMPTY;
        k := k + 1;
      }
      c, ways, repl, pipeline := cfg, w, r, p;
      cacheAccess, cacheHit, cacheMiss := 0, 0, 0;
      cycles, instructions, branches, correct := 0, 0, 0, 0;
      new;
      InitMatches();
    }

    lemma InitMatches()
      requires Valid()
      requires forall i, j :: 0 <= i < ways.Length0 && 0 <= j < c.assoc ==> ways[i, j] == Way(false, 0) && repl[i, j] == j
      ensures Sets() == InitCache(c).sets && Repl() == InitCache(c).repl
    {
      var init := InitCache(c);
      forall i | 0 <= i < ways.Length0
        ensures Sets()[i] == init.sets[i] && Repl()[i] == init.repl[i]
      {
      }
    }

    /** The recency lists are `expected` when every entry agrees. */
    lemma ReplIs(expected: seq<seq<int>>)
      requires |expected| == repl.Length0 && forall i :: 0 <= i < |expected| ==> |expected[i]| == repl.Length1
      requires forall i, j :: 0 <= i < repl.Length0 && 0 <= j < repl.Length1 ==> repl[i, j] == expected[i][j]
      ensures Repl() == expected
    {
      forall i | 0 <= i < |expected|
        ensures Repl()[i] == expected[i]
      {
      }
    }

    /** The ways are `expected` when every entry agrees. */
    lemma SetsIs(expected: seq<seq<Way>>)
      requires |expected| == ways.Length0 && forall i :: 0 <= i < |expected| ==> |expected[i]| == ways.Length1
      requires forall i, j :: 0 <= i < ways.Length0 && 0 <= j < ways.Length1 ==> ways[i, j] == expected[i][j]
      ensures Sets() == expected
    {
      forall i | 0 <= i < |expected|
        ensures Sets()[i] == expected[i]
      {
      }
    }

    /** The search of the hit path: the position of way number `w` in set `index`'s recency list. */
    method FindInRecency(index: nat, w: int) returns (j: nat)
      requires Valid() && index < repl.Length0
      ensures j == IndexOf(Repl()[index], w)
    {
      ghost var entries := Repl()[index];
      j := 0;
      while j < c.assoc && repl[index, j] != w
        invariant 0 <= j <= c.assoc
        invariant forall k :: 0 <= k < j ==> entries[k] != w
      {
        j := j + 1;
      }
      IndexOfIs(entries, w, j);
    }

    /** The percolation of the hit path: entries `j+1 .. assoc-1` of set `index`'s recency list move up one place. */
    method CloseGap(index: nat, j: nat)
      requires Valid() && index < repl.Length0
      modifies repl
      ensures forall k :: 0 <= k < repl.Length1 - 1 ==> repl[index, k] == old(repl[index, if k < j then k else k + 1])
      ensures repl[index, repl.Length1 - 1] == old(repl[index, repl.Length1 - 1])
      ensures forall r, k :: 0 <= r < repl.Length0 && r != index && 0 <= k < repl.Length1 ==> repl[r, k] == old(repl[r, k])
    {
      var n := c.assoc;
      var i := j + 1;
      while i < n
        invariant j + 1 <= i && (i <= n || i == j + 1)
        invariant forall k :: 0 <= k < n && (k < j || k >= i - 1) ==> repl[index, k] == old(repl[index, k])
        invariant forall k :: j <= k < i - 1 ==> repl[index, k] == old(repl[index, k + 1])
        invariant forall r, k :: 0 <= r < repl.Length0 && r != index && 0 <= k < n ==> repl[r, k] == old(repl[r, k])
      {
        repl[index, i - 1] := repl[index, i];
        i := i + 1;
      }
    }

    /**
     * The hit path: way number `w` leaves its place in set `index`'s recency list and goes to
     * the end; one more hit.
     */
    method UpdateOnHit(index: nat, w: int)
      requires Valid() && index < repl.Length0
      modifies this, repl
      ensures forall k :: 0 <= k < repl.Length1 ==> repl[index, k] == MoveToBack(old(Repl())[index], w)[k]
      ensures forall r, k :: 0 <= r < repl.Length0 && r != index && 0 <= k < repl.Length1 ==> repl[r, k] == old(repl[r, k])
      ensures cacheHit == old(cacheHit) + 1
      ensures cacheAccess == old(cacheAccess) && cacheMiss == old(cacheMiss) && cycles == old(cycles)
      ensures instructions == old(instructions) && branches == old(branches) && correct == old(correct)
    {
      ghost var entries := Repl()[index];
      var j := FindInRecency(index, w);
      CloseGap(index, j);
      repl[index, c.assoc - 1] := w;
      cacheHit := cacheHit + 1;
      MoveToBackSpec(entries, w);
    }

    /** The search of the miss path: the first invalid way of set `index`. */
    method FindInvalidWay(index: nat) returns (i: nat)
      requires Valid() && index < ways.Length0
      ensures i == FirstInvalid(Sets()[index])
    {
      ghost var row := Sets()[index];
      i := 0;
      while i < c.assoc && ways[index, i].valid
        invariant 0 <= i <= c.assoc
        invariant forall k :: 0 <= k < i ==> row[k].valid
      {
        i := i + 1;
      }
      FirstInvalidIs(row, i);
    }

    /** The percolation of the miss path: the tags of ways `1 .. i-1` of set `index` move down one way. */
    method PercolateTags(index: nat, i: nat)
      requires Valid() && index < ways.Length0 && i <= ways.Length1
      modifies ways
      ensures forall k :: 0 <= k < ways.Length1 ==>
                ways[index, k] == if k + 1 < i then old(ways[index, k]).(tag := old(ways[index, k + 1].tag)) else old(ways[index, k])
      ensures forall r, k :: 0 <= r < ways.Length0 && r != index && 0 <= k < ways.Length1 ==> ways[r, k] == old(ways[r, k])
    {
      var j := 1;
      while j < i
        invariant 1 <= j && (j <= i || j == 1)
        invariant forall k :: 0 <= k < j - 1 ==> ways[index, k] == old(ways[index, k]).(tag := old(ways[index, k + 1].tag))
        invariant forall k :: j - 1 <= k < ways.Length1 ==> ways[index, k] == old(ways[index, k])
        invariant forall r, k :: 0 <= r < ways.Length0 && r != index && 0 <= k < ways.Length1 ==> ways[r, k] == old(ways[r, k])
      {
        var currentTag := ways[index, j].tag;
        ways[index, j - 1] := ways[index, j - 1].(tag := currentTag);
        j := j + 1;
      }
    }

    /**
     * The miss path: find the first invalid way of set `index`, move the tags below it down one
     * way, write `tag` valid at the victim way; one more miss.
     */
    method ReplaceOnMiss(index: nat, tag: int)
      requires Valid() && index < ways.Length0
      modifies this, ways
      ensures forall k :: 0 <= k < ways.Length1 ==> ways[index, k] == Install(old(Sets())[index], tag)[k]
      ensures forall r, k :: 0 <= r < ways.Length0 && r != index && 0 <= k < ways.Length1 ==> ways[r, k] == old(ways[r, k])
      ensures cacheMiss == old(cacheMiss) + 1
      ensures cacheAccess == old(cacheAccess) && cacheHit == old(cacheHit) && cycles == old(cycles)
      ensures instructions == old(instructions) && branches == old(branches) && correct == old(correct)
    {
      var i := FindInvalidWay(index);
      PercolateTags(index, i);
      if i == c.assoc {
        ways[index, i - 1] := Way(true, tag);
      } else {
        ways[index, i] := Way(true, tag);
      }
      cacheMiss := cacheMiss + 1;
    }

    /**
     * The probe: split the address, scan the indexed set's ways for a valid matching tag, and
     * take the hit path at the first match or the miss path when there is none.
     */
    method TrapAddress(addr: Word) returns (hit: bool)
      requires Valid()
      modifies this, ways, repl
      ensures Valid()
      ensures var r := Probe(c, old(Cache()), addr);
        hit == r.hit && State() == old(State()).(cache := r.cache)
    {
      var sp := SplitAddress(c, addr);
      ghost var row := old(Sets())[sp.index];
      var i := 0;
      while i < c.assoc
        invariant 0 <= i <= c.assoc
        invariant forall j :: 0 <= j < i ==> !Matches(row[j], sp.tag)
      {
        if ways[sp.index, i].tag == sp.tag && ways[sp.index, i].valid {
          FirstMatchIs(row, sp.tag, i);
          UpdateOnHit(sp.index, i);
          ReplIs(old(Repl())[sp.index := MoveToBack(old(Repl())[sp.index], i)]);
          return true;
        }
        i := i + 1;
      }
      FirstMatchIs(row, sp.tag, i);
      ReplaceOnMiss(sp.index, sp.tag);
      SetsIs(old(Sets())[sp.index := Install(row, sp.tag)]);
      return false;
    }
  
    /**
     * The forced shift of a misprediction: kinds and addresses move WRITEBACK <- MEM <- ALU <-
     * DECODE, DECODE becomes a NOP at 0, then the load copies and the store copies of the data
     * addresses run in that order.
     */
    method SquashStages()
      requires pipeline.Length == STAGES
      modifies pipeline
      ensures Stages() == Squash(old(Stages()))
    {
      pipeline[WRITEBACK] := pipeline[WRITEBACK].(kind := pipeline[MEM].kind, addr := pipeline[MEM].addr);
      pipeline[MEM] := pipeline[MEM].(kind := pipeline[ALU].kind, addr := pipeline[ALU].addr);
      pipeline[ALU] := pipeline[ALU].(kind := pipeline[DECODE].kind, addr := pipeline[DECODE].addr);
      pipeline[DECODE] := pipeline[DECODE].(kind := NOP, addr := 0);
      if pipeline[WRITEBACK].kind == LW {
        pipeline[WRITEBACK] := pipeline[WRITEBACK].(dataAddr := pipeline[MEM].dataAddr);
      }
      if pipeline[MEM].kind == LW {
        pipeline[MEM] := pipeline[MEM].(dataAddr := pipeline[ALU].dataAddr);
      }
      if pipeline[ALU].kind == LW {
        pipeline[ALU] := pipeline[ALU].(dataAddr := pipeline[DECODE].dataAddr);
      }
      if pipeline[WRITEBACK].kind == SW {
        pipeline[WRITEBACK] := pipeline[WRITEBACK].(dataAddr := pipeline[MEM].dataAddr);
      }
      if pipeline[MEM].kind == SW {
        pipeline[MEM] := pipeline[MEM].(dataAddr := pipeline[ALU].dataAddr);
      }
      if pipeline[ALU].kind == SW {
        pipeline[ALU] := pipeline[ALU].(dataAddr := pipeline[DECODE].dataAddr);
      }
    }

    /** The penalty of a misprediction: one cycle, the squash, and the retirement of a nonzero WRITEBACK. */
    method Mispredict()
      requires Valid()
      modifies this, pipeline
      ensures var q := Squash(old(Stages()));
        State() == old(State()).(pipe := q, cycles := old(cycles) + 1, instructions := old(instructions) + Ind(q.writeback.addr != 0))
    {
      cycles := cycles + 1;
      SquashStages();
      if pipeline[WRITEBACK].addr != 0 {
        instructions := instructions + 1;
      }
    }

    /** Step 2 of a cycle: a branch in DECODE is resolved against the prediction mode. */
    method ResolveBranch()
      requires Valid()
      modifies this, pipeline
      ensures State() == Pipeline.ResolveBranch(c, old(State()))
    {
      if pipeline[DECODE].kind == BRANCH {
        var taken := pipeline[FETCH].addr != AddWrap(pipeline[DECODE].addr, 4);
        if taken {
          if c.predictTaken {
            correct := correct + 1;
          } else {
            Mispredict();
          }
        } else {
          if !c.predictTaken {
            correct := correct + 1;
          } else {
            Mispredict();
          }
        }
      }
    }

    /** Steps 3 and 4: a load or a store in MEM probes its data address; a miss costs the penalty. */
    method ProbeMemStage()
      requires Valid()
      modifies this, ways, repl
      ensures State() == ProbeMem(c, old(State()))
    {
      if pipeline[MEM].kind == LW {
        var hit := TrapAddress(pipeline[MEM].dataAddr);
        if !hit {
          cycles := cycles + MISS_PENALTY;
        }
      }
      if pipeline[MEM].kind == SW {
        var hit := TrapAddress(pipeline[MEM].dataAddr);
        if !hit {
          cycles := cycles + MISS_PENALTY;
        }
      }
    }

    /** Step 6: each stage from WRITEBACK down to DECODE takes the one before it, data address only for a load or store. */
    method ShiftStages()
      requires pipeline.Length == STAGES
      modifies pipeline
      ensures Stages() == Advance(old(Stages())).(fetch := old(pipeline[FETCH]))
    {
      pipeline[WRITEBACK] := pipeline[WRITEBACK].(kind := pipeline[MEM].kind, addr := pipeline[MEM].addr);
      if pipeline[WRITEBACK].kind == LW || pipeline[WRITEBACK].kind == SW {
        pipeline[WRITEBACK] := pipeline[WRITEBACK].(dataAddr := pipeline[MEM].dataAddr);
      }
      pipeline[MEM] := pipeline[MEM].(kind := pipeline[ALU].kind, addr := pipeline[ALU].addr);
      if pipeline[MEM].kind == LW || pipeline[MEM].kind == SW {
        pipeline[MEM] := pipeline[MEM].(dataAddr := pipeline[ALU].dataAddr);
      }
      pipeline[ALU] := pipeline[ALU].(kind := pipeline[DECODE].kind, addr := pipeline[DECODE].addr);
      if pipeline[ALU].kind == LW || pipeline[ALU].kind == SW {
        pipeline[ALU] := pipeline[ALU].(dataAddr := pipeline[DECODE].dataAddr);
      }
      pipeline[DECODE] := pipeline[DECODE].(kind := pipeline[FETCH].kind, addr := pipeline[FETCH].addr);
      if pipeline[DECODE].kind == LW || pipeline[DECODE].kind == SW {
        pipeline[DECODE] := pipeline[DECODE].(dataAddr := pipeline[FETCH].dataAddr);
      }
    }

    /**
     * The register-forwarding checks: each one, when two register fields are equal, copies one
     * onto the other, so none of them changes a stage.
     */
    method ForwardRegisters()
      requires pipeline.Length == STAGES
      modifies pipeline
      ensures Stages() == old(Stages())
    {
      if pipeline[DECODE].regs.reg1 == pipeline[ALU].regs.destReg {
        pipeline[ALU] := pipeline[ALU].(regs := pipeline[ALU].regs.(destReg := pipeline[DECODE].regs.reg1));
      }
      if pipeline[DECODE].regs.reg2OrConstant == pipeline[ALU].regs.destReg {
        pipeline[ALU] := pipeline[ALU].(regs := pipeline[ALU].regs.(destReg := pipeline[DECODE].regs.reg2OrConstant));
      }
      if pipeline[DECODE].regs.reg1 == pipeline[MEM].regs.destReg {
        pipeline[MEM] := pipeline[MEM].(regs := pipeline[MEM].regs.(destReg := pipeline[DECODE].regs.reg1));
      }
      if pipeline[DECODE].regs.reg2OrConstant == pipeline[MEM].regs.destReg {
        pipeline[MEM] := pipeline[MEM].(regs := pipeline[MEM].regs.(destReg := pipeline[DECODE].regs.reg2OrConstant));
      }
    }

    /** One cycle: retire, resolve, probe MEM, count the cycle, shift, forward, zero FETCH. */
    method Push()
      requires Valid()
      modifies this, ways, repl, pipeline
      ensures State() == Pipeline.Push(c, old(State()))
    {
      ghost var s0 := State();
      if pipeline[WRITEBACK].addr != 0 {
        instructions := instructions + 1;
      }
      ghost var s1 := State();
      assert s1 == Retire(s0);
      ResolveBranch();
      ghost var s2 := State();
      ProbeMemStage();
      ghost var s3 := State();
      cycles := cycles + 1;
      ShiftStages();
      ForwardRegisters();
      pipeline[FETCH] := EMPTY;
      assert State() == s3.(cycles := s3.cycles + 1, pipe := Advance(s3.pipe));
    }

    /** The R-type insert (also used for `lui`): a cycle, then the instruction and its registers in FETCH. */
    method ProcessRType(addr: Word, destReg: int, reg1: int, reg2OrConstant: int)
      requires Valid()
      modifies this, ways, repl, pipeline
      ensures State() == Insert(c, old(State()), SlotOf(RType(addr, destReg, reg1, reg2OrConstant)))
    {
      Push();
      pipeline[FETCH] := pipeline[FETCH].(kind := RTYPE, addr := addr);
      pipeline[FETCH] := pipeline[FETCH].(regs := Regs(reg1, reg2OrConstant, destReg));
    }

    /** The load insert: a cycle, the load and its data address in FETCH, one more cache access. */
    method ProcessLw(addr: Word, dataAddr: Word)
      requires Valid()
      modifies this, ways, repl, pipeline
      ensures State() == Insert(c, old(State()), SlotOf(Load(addr, dataAddr)))
    {
      Push();
      pipeline[FETCH] := pipeline[FETCH].(kind := LW, addr := addr);
      pipeline[FETCH] := pipeline[FETCH].(dataAddr := dataAddr);
      cacheAccess := cacheAccess + 1;
    }

    /** The store insert: a cycle, the store and its data address in FETCH, one more cache access. */
    method ProcessSw(addr: Word, dataAddr: Word)
      requires Valid()
      modifies this, ways, repl, pipeline
      ensures State() == Insert(c, old(State()), SlotOf(Store(addr, dataAddr)))
    {
      Push();
      pipeline[FETCH] := pipeline[FETCH].(kind := SW, addr := addr);
      pipeline[FETCH] := pipeline[FETCH].(dataAddr := dataAddr);
      cacheAccess := cacheAccess + 1;
    }

    /** The branch insert. */
    method ProcessBranch(addr: Word)
      requires Valid()
      modifies this, ways, repl, pipeline
      ensures State() == Insert(c, old(State()), SlotOf(Branch(addr)))
    {
      Push();
      pipeline[FETCH] := pipeline[FETCH].(kind := BRANCH, addr := addr);
    }

    /** The jump insert, for `j`, `jal` and `jr` alike. */
    method ProcessJump(addr: Word)
      requires Valid()
      modifies this, ways, repl, pipeline
      ensures State() == Insert(c, old(State()), SlotOf(Jump(addr)))
    {
      Push();
      pipeline[FETCH] := pipeline[FETCH].(kind := JUMP, addr := addr);
    }

    /** The syscall insert. */
    method ProcessSyscall(addr: Word)
      requires Valid()
      modifies this, ways, repl, pipeline
      ensures State() == Insert(c, old(State()), SlotOf(Syscall(addr)))
    {
      Push();
      pipeline[FETCH] := pipeline[FETCH].(kind := SYSCALL, addr := addr);
    }

    /** The nop insert: a NOP, but at the trace line's nonzero address. */
    method ProcessNop(addr: Word)
      requires Valid()
      modifies this, ways, repl, pipeline
      ensures State() == Insert(c, old(State()), SlotOf(Nop(addr)))
    {
      Push();
      pipeline[FETCH] := pipeline[FETCH].(kind := NOP, addr := addr);
    }

    /** The stall after a fetch miss: cycles with no new instruction, `CACHE_MISS_DELAY - 1` of them. */
    method StallOnMiss()
      requires Valid()
      modifies this, ways, repl, pipeline
      ensures State() == PushN(c, old(State()), MISS_PENALTY)
    {
      ghost var s0 := State();
      var i, j := cycles, cycles;
      while i < j + CACHE_MISS_DELAY - 1
        invariant j <= i <= j + MISS_PENALTY
        invariant State() == PushN(c, s0, i - j)
      {
        PushAgain(s0, i - j);
        i := i + 1;
      }
    }

    /** One more stalled cycle: `n` cycles become `n + 1`. */
    method PushAgain(ghost s0: SimState, ghost n: nat)
      requires Valid() && Shaped(c, s0.cache) && State() == PushN(c, s0, n)
      modifies this, ways, repl, pipeline
      ensures State() == PushN(c, s0, n + 1)
    {
      PushNSnoc(c, s0, n);
      Push();
    }

    /** The fetch of a trace line: probe its address, count the access, stall on a miss. */
    method Fetch(addr: Word)
      requires Valid()
      modifies this, ways, repl, pipeline
      ensures State() == FetchStall(c, old(State()), addr)
    {
      ghost var s0 := State();
      ghost var f := Probe(c, s0.cache, addr);
      var hit := CountedTrap(addr);
      ghost var s1 := State();
      assert FetchStall(c, s0, addr) == Stall(c, s1, hit);
      if !hit {
        StallOnMiss();
      }
    }

    /** The probe of a fetch address, counted as one access. */
    method CountedTrap(addr: Word) returns (hit: bool)
      requires Valid()
      modifies this, ways, repl
      ensures Valid() && hit == Probe(c, old(State()).cache, addr).hit
      ensures State() == old(State()).(cache := Probe(c, old(State()).cache, addr).cache, access := old(State()).access + 1)
    {
      hit := TrapAddress(addr);
      cacheAccess := cacheAccess + 1;
    }

    /** The dispatch of a trace line: count a `beq`, then the insert of its kind. */
    method Dispatch(ins: Instr)
      requires Valid()
      modifies this, ways, repl, pipeline
      ensures State() == Insert(c, old(State()).(branches := old(branches) + Ind(ins.Branch?)), SlotOf(ins))
    {
      if ins.Branch? {
        branches := branches + 1;
      }
      match ins
      case RType(a, d, r1, r2) => ProcessRType(a, d, r1, r2);
      case Load(a, da) => ProcessLw(a, da);
      case Store(a, da) => ProcessSw(a, da);
      case Branch(a) => ProcessBranch(a);
      case Jump(a) => ProcessJump(a);
      case Syscall(a) => ProcessSyscall(a);
      case Nop(a) => ProcessNop(a);
    }

    /** One decoded trace line: the fetch, then the dispatch. */
    method Step(ins: Instr)
      requires Valid()
      modifies this, ways, repl, pipeline
      ensures State() == Driver.Step(c, old(State()), ins)
    {
      Fetch(ins.addr);
      ghost var t := State();
      Dispatch(ins);
      InsertIgnoresBranches(c, t, SlotOf(ins), t.branches + Ind(ins.Branch?));
      PushEffect(c, t);
    }

    /** The drain of `iplc_sim_finalize`: cycles until every stage holds a NOP. */
    method Drain()
      requires Valid()
      modifies this, ways, repl, pipeline
      ensures State() == Pipeline.Drain(c, old(State()))
    {
      while pipeline[FETCH].kind != NOP || pipeline[DECODE].kind != NOP || pipeline[ALU].kind != NOP
            || pipeline[MEM].kind != NOP || pipeline[WRITEBACK].kind != NOP
        invariant Pipeline.Drain(c, State()) == Pipeline.Drain(c, old(State()))
        decreases STAGES - NopRun(Stages())
      {
        PushGrowsNopRun(c, State());
        Push();
      }
    }

    /** A run: every line of the trace in order, then the drain. */
    method RunTrace(trace: seq<Instr>)
      requires Valid()
      modifies this, ways, repl, pipeline
      ensures State() == Pipeline.Drain(c, Run(c, old(State()), trace))
    {
      var k := 0;
      while k < |trace|
        invariant 0 <= k <= |trace|
        invariant Run(c, State(), trace[k..]) == Run(c, old(State()), trace)
      {
        assert trace[k..][1..] == trace[k + 1..];
        Step(trace[k]);
        k := k + 1;
      }
      Drain();
    }
  }

  /**
   * What the program does with its configuration and trace: initialise, run every line, drain.
   * The counters it reports obey the run bounds: CPI at least 1, no more correct predictions
   * than `beq` lines, which are all counted, no more hits and misses than accesses.
   */
  method Simulate(cfg: Config, trace: seq<Instr>) returns (sim: Sim)
    requires ValidConfig(cfg)
    ensures sim.Valid() && sim.State() == Driver.Simulate(cfg, trace)
    ensures sim.instructions <= sim.cycles && sim.cycles >= |trace|
    ensures sim.correct <= sim.branches == CountBranches(trace)
    ensures sim.cacheHit + sim.cacheMiss <= sim.cacheAccess
  {
    sim := new Sim(cfg);
    ghost var r := Driver.Simulate(cfg, trace);
    sim.RunTrace(trace);
    assert sim.State() == r;
    SimulateBounds(cfg, trace);
    assert sim.instructions == r.instructions && sim.cycles == r.cycles && sim.correct == r.correct;
    assert sim.branches == r.branches && sim.cacheAccess == r.access;
    assert sim.cacheHit == r.cache.hits && sim.cacheMiss == r.cache.misses;
  }
}

/**
 * The set-associative cache of iplc-sim.c as values: the configuration and its size check,
 * the split of an address into index and tag, and the probe with its two bookkeeping paths
 * (the recency list on a hit, tag compaction on a miss).
 */
module Cache {
  import opened Bits

  /** Ceiling on the modelled cache size, in bits. */
  const MAX_CACHE_SIZE: int := 10240

  datatype Result<T, E> = Success(value: T) | Failure(error: E)

  /** The run's configuration: cache geometry and the branch-prediction mode. */
  datatype Config = Config(indexBits: nat, blockSize: nat, offsetBits: nat, assoc: nat, predictTaken: bool)

  datatype ConfigError = CacheTooBig(size: int)

  /** The size the simulator checks: for every way, 32 bits per word of the block, the tag bits and a valid bit. */
  function CacheSize(indexBits: nat, blockSize: nat, offsetBits: nat, assoc: nat): int
  {
    assoc * Pow2(indexBits) * (32 * blockSize + 33 - indexBits - offsetBits)
  }

  /**
   * What a caller supplies: `1 << index` fits an `int`, the block size is a power of two whose
   * byte count is `2^offsetBits`, and the cache has at least one way.
   */
  predicate GeometryOk(indexBits: nat, blockSize: nat, offsetBits: nat, assoc: nat)
  {
    indexBits <= 30 && blockSize >= 1 && 4 * blockSize == Pow2(offsetBits) && assoc >= 1
  }

  predicate ValidConfig(c: Config)
  {
    && GeometryOk(c.indexBits, c.blockSize, c.offsetBits, c.assoc)
    && CacheSize(c.indexBits, c.blockSize, c.offsetBits, c.assoc) <= MAX_CACHE_SIZE
  }

  /** The configuration step of initialisation: a geometry over the ceiling is refused before anything is allocated. */
  function Configure(indexBits: nat, blockSize: nat, offsetBits: nat, assoc: nat, predictTaken: bool)
    : (r: Result<Config, ConfigError>)
    requires GeometryOk(indexBits, blockSize, offsetBits, assoc)
    ensures r.Success? <==> CacheSize(indexBits, blockSize, offsetBits, assoc) <= MAX_CACHE_SIZE
    ensures r.Success? ==> ValidConfig(r.value) && r.value.assoc == assoc && r.value.predictTaken == predictTaken
    ensures r.Success? ==> indexBits <= 8 && offsetBits <= 10
    ensures r.Failure? ==> r.error.size > MAX_CACHE_SIZE
  {
    var size := CacheSize(indexBits, blockSize, offsetBits, assoc);
    if size > MAX_CACHE_SIZE then
      Failure(CacheTooBig(size))
    else
      var c := Config(indexBits, blockSize, offsetBits, assoc, predictTaken);
      ConfigBounds(c);
      Success(c)
  }

  lemma MulLe(a: int, b: int, k: int)
    requires 0 <= a <= b && k >= 0
    ensures a * k <= b * k
  {
    assert b * k - a * k == (b - a) * k;
  }

  /** The offset bits of a block of `b` words: at least 2, and at most `b + 1`. */
  lemma OffsetBitsBounds(b: nat, o: nat)
    requires b >= 1 && 4 * b == Pow2(o)
    ensures 2 <= o <= b + 1
  {
    if o < 2 {
      assert false;
    }
    Pow2Add(2, o - 2);
    assert Pow2(2) == 4;
    Pow2Exceeds(o - 2);
  }

  lemma ProductBounds(a: int, p: int, s: int)
    requires a >= 1 && p >= 1 && s >= 33 && a * p * s <= MAX_CACHE_SIZE
    ensures p <= 310 && s <= MAX_CACHE_SIZE
  {
    assert a * p * s == a * (p * s);
    MulLe(1, a, p * s);
    MulLe(33, s, p);
    MulLe(1, p, s);
  }

  /** Every accepted geometry is small: at most 256 sets and blocks of at most 1024 bytes. */
  lemma ConfigBounds(c: Config)
    requires ValidConfig(c)
    ensures 2 <= c.offsetBits <= 10 && c.indexBits <= 8
    ensures c.offsetBits + c.indexBits < 32
  {
    var i, b, o, a := c.indexBits, c.blockSize, c.offsetBits, c.assoc;
    OffsetBitsBounds(b, o);
    var p := Pow2(i);
    var s := 32 * b + 33 - i - o;
    assert CacheSize(i, b, o, a) == a * p * s;
    ProductBounds(a, p, s);
    if i >= 9 {
      Pow2Monotone(9, i);
      assert false;
    }
    if o >= 11 {
      Pow2Monotone(11, o);
      assert false;
    }
  }

  /** An address's set index and tag. */
  datatype AddressSplit = AddressSplit(index: nat, tag: int)

  /**
   * `index = (address >> offsetBits) % (1 << indexBits)` and `tag = address >> (offsetBits + indexBits)`:
   * the index names a set and the tag fits an `int`.
   */
  function SplitAddress(c: Config, addr: Word): (s: AddressSplit)
    requires ValidConfig(c)
    ensures s.index < Pow2(c.indexBits)
    ensures 0 <= s.tag < INT_LIMIT
  {
    var s := AddressSplit(Low(Shr(addr, c.offsetBits), c.indexBits), Shr(addr, c.offsetBits + c.indexBits));
    SplitFacts(c, addr);
    s
  }

  /** Tag, index and block offset rebuild the address. */
  lemma SplitRebuilds(c: Config, addr: Word)
    requires ValidConfig(c)
    ensures var s := SplitAddress(c, addr);
      addr == (s.tag * Pow2(c.indexBits) + s.index) * Pow2(c.offsetBits) + Low(addr, c.offsetBits)
  {
    SplitFacts(c, addr);
    ShrSplit(addr, c.offsetBits);
  }

  lemma SplitFacts(c: Config, addr: Word)
    requires ValidConfig(c)
    ensures Shr(addr, c.offsetBits)
            == Shr(addr, c.offsetBits + c.indexBits) * Pow2(c.indexBits) + Low(Shr(addr, c.offsetBits), c.indexBits)
    ensures Low(Shr(addr, c.offsetBits), c.indexBits) < Pow2(c.indexBits)
    ensures Shr(addr, c.offsetBits + c.indexBits) < INT_LIMIT
  {
    ConfigBounds(c);
    ShrShr(addr, c.offsetBits, c.indexBits);
    ShrSplit(Shr(addr, c.offsetBits), c.indexBits);
    ShrHalves(addr, c.offsetBits + c.indexBits);
  }

  /** Two addresses get the same index and tag exactly when they lie in the same block. */
  lemma SameSplitIffSameBlock(c: Config, a: Word, b: Word)
    requires ValidConfig(c)
    ensures SplitAddress(c, a) == SplitAddress(c, b) <==> Shr(a, c.offsetBits) == Shr(b, c.offsetBits)
  {
    var o, i := c.offsetBits, c.indexBits;
    ShrShr(a, o, i);
    ShrShr(b, o, i);
    if SplitAddress(c, a) == SplitAddress(c, b) {
      ShrLowDetermine(Shr(a, o), Shr(b, o), i);
    }
  }

  /** One way of a set: the valid bit and the tag. */
  datatype Way = Way(valid: bool, tag: int)

  predicate Matches(w: Way, tag: int)
  {
    w.valid && w.tag == tag
  }

  /** The way scan of the probe: the first valid way holding `tag`, or `|ways|` when there is none. */
  function FirstMatch(ways: seq<Way>, tag: int): (k: nat)
    ensures k <= |ways|
    ensures k < |ways| ==> Matches(ways[k], tag)
    ensures forall j :: 0 <= j < k ==> !Matches(ways[j], tag)
  {
    if ways == [] then 0
    else if Matches(ways[0], tag) then 0
    else 1 + FirstMatch(ways[1..], tag)
  }

  /** `FirstMatch` is the only position with a match there and none before it. */
  lemma {:induction false} FirstMatchIs(ways: seq<Way>, tag: int, k: nat)
    requires k <= |ways| && (k < |ways| ==> Matches(ways[k], tag))
    requires forall j :: 0 <= j < k ==> !Matches(ways[j], tag)
    ensures FirstMatch(ways, tag) == k
  {
    if ways != [] && k > 0 {
      FirstMatchIs(ways[1..], tag, k - 1);
    }
  }

  /** The first way whose valid bit is clear, or `|ways|` when all are valid. */
  function FirstInvalid(ways: seq<Way>): (k: nat)
    ensures k <= |ways|
    ensures k < |ways| ==> !ways[k].valid
    ensures forall j :: 0 <= j < k ==> ways[j].valid
  {
    if ways == [] then 0
    else if !ways[0].valid then 0
    else 1 + FirstInvalid(ways[1..])
  }

  /** `FirstInvalid` is the only position that is invalid, or the end, with only valid ways before it. */
  lemma {:induction false} FirstInvalidIs(ways: seq<Way>, k: nat)
    requires k <= |ways| && (k < |ways| ==> !ways[k].valid)
    requires forall j :: 0 <= j < k ==> ways[j].valid
    ensures FirstInvalid(ways) == k
  {
    if ways != [] && k > 0 {
      FirstInvalidIs(ways[1..], k - 1);
    }
  }

  /** The valid ways of a set are ways `0 .. k-1` for some `k`. */
  ghost predicate ValidPrefix(ways: seq<Way>)
  {
    forall j, k :: 0 <= j < k < |ways| && ways[k].valid ==> ways[j].valid
  }

  /** The way a miss writes: the first invalid way, or the last way when every way is valid. */
  function Victim(ways: seq<Way>): (p: nat)
    requires |ways| >= 1
    ensures p < |ways|
  {
    var i := FirstInvalid(ways);
    if i == |ways| then i - 1 else i
  }

  /**
   * The miss path on one set. With `i` the first invalid way, the tags of ways `1 .. i-1` move
   * down one way (the tag of way 0 is lost, and ways `i-2` and `i-1` end up equal), then the new
   * tag is written, valid, at the victim way.
   */
  function Install(ways: seq<Way>, tag: int): (r: seq<Way>)
    requires |ways| >= 1
    ensures |r| == |ways|
  {
    var i := FirstInvalid(ways);
    var p := Victim(ways);
    seq(|ways|, j requires 0 <= j < |ways| =>
                  if j == p then Way(true, tag)
                  else if j + 1 < i then Way(ways[j].valid, ways[j + 1].tag)
                  else ways[j])
  }

  /**
   * What the miss path leaves: the new tag, valid, at the victim way; every other valid bit as it
   * was; below the first invalid way the tags shifted down by one, so that ways `i-2` and `i-1`
   * hold the same tag; the rest untouched. A probe of the same tag now hits at the victim, and
   * valid ways still form a prefix.
   */
  lemma InstallSpec(ways: seq<Way>, tag: int)
    requires |ways| >= 1
    ensures var r, i, p := Install(ways, tag), FirstInvalid(ways), Victim(ways);
      && r[p] == Way(true, tag)
      && (forall j :: 0 <= j < |ways| && j != p ==> r[j].valid == ways[j].valid)
      && (forall j :: 0 <= j < |ways| && ways[j].valid ==> r[j].valid)
      && (forall j :: 0 <= j < i - 1 && j != p ==> r[j].tag == ways[j + 1].tag)
      && (forall j :: 0 <= j < |ways| && i - 1 <= j && j != p ==> r[j] == ways[j])
      && (2 <= i < |ways| ==> r[i - 2].tag == r[i - 1].tag)
      && (FirstMatch(ways, tag) == |ways| ==> FirstMatch(r, tag) == p)
      && (ValidPrefix(ways) ==> ValidPrefix(r))
  {
    var r := Install(ways, tag);
    InstallReprobe(ways, tag, r);
    InstallPrefix(ways, r);
  }

  lemma InstallReprobe(ways: seq<Way>, tag: int, r: seq<Way>)
    requires |ways| >= 1 && |r| == |ways|
    requires r[Victim(ways)] == Way(true, tag)
    requires forall j :: 0 <= j < |ways| && j != Victim(ways) ==>
               r[j] == if j + 1 < FirstInvalid(ways) then Way(ways[j].valid, ways[j + 1].tag) else ways[j]
    ensures FirstMatch(ways, tag) == |ways| ==> FirstMatch(r, tag) == Victim(ways)
  {
    var p := Victim(ways);
    if FirstMatch(ways, tag) == |ways| {
      forall j | 0 <= j < p
        ensures !Matches(r[j], tag)
      {
        if j + 1 < FirstInvalid(ways) {
          assert ways[j + 1].valid;
          assert !Matches(ways[j + 1], tag);
        } else {
          assert !Matches(ways[j], tag);
        }
      }
    }
  }

  lemma InstallPrefix(ways: seq<Way>, r: seq<Way>)
    requires |ways| >= 1 && |r| == |ways|
    requires r[Victim(ways)].valid
    requires forall j :: 0 <= j < |ways| && j != Victim(ways) ==> r[j].valid == ways[j].valid
    ensures ValidPrefix(ways) ==> ValidPrefix(r)
  {
    var i, p := FirstInvalid(ways), Victim(ways);
    if ValidPrefix(ways) {
      forall j, k | 0 <= j < k < |r| && r[k].valid
        ensures r[j].valid
      {
        if j != p {
          if k == p {
            assert j < i;
          } else {
            assert ways[k].valid;
          }
        }
      }
    }
  }

  /** The first position of `x` in `s`, or `|s|` when it does not occur. */
  function IndexOf(s: seq<int>, x: int): (j: nat)
    ensures j <= |s|
    ensures j < |s| ==> s[j] == x
    ensures forall k :: 0 <= k < j ==> s[k] != x
  {
    if s == [] then 0
    else if s[0] == x then 0
    else 1 + IndexOf(s[1..], x)
  }

  /** `IndexOf` is the only position holding `x`, or the end, with no `x` before it. */
  lemma {:induction false} IndexOfIs(s: seq<int>, x: int, j: nat)
    requires j <= |s| && (j < |s| ==> s[j] == x)
    requires forall k :: 0 <= k < j ==> s[k] != x
    ensures IndexOf(s, x) == j
  {
    if s != [] && j > 0 {
      IndexOfIs(s[1..], x, j - 1);
    }
  }

  /**
   * The hit path on one recency list: way number `w` is taken out and appended at the end,
   * the other entries keep their order. When `w` is missing, the last entry is overwritten.
   */
  function MoveToBack(repl: seq<int>, w: int): (r: seq<int>)
    requires |repl| >= 1
    ensures |r| == |repl|
  {
    var j := IndexOf(repl, w);
    if j < |repl| then repl[..j] + repl[j + 1..] + [w] else repl[..|repl| - 1] + [w]
  }

  /** `w` ends up last; the entries before its old position stay, those after it move up one. */
  lemma MoveToBackSpec(repl: seq<int>, w: int)
    requires |repl| >= 1
    ensures var r := MoveToBack(repl, w);
      && r[|r| - 1] == w
      && (forall k :: 0 <= k < |r| - 1 ==> r[k] == if k < IndexOf(repl, w) then repl[k] else repl[k + 1])
  {
    var j := IndexOf(repl, w);
    var r := MoveToBack(repl, w);
    if j < |repl| {
      var a, b := repl[..j], repl[j + 1..];
      assert r == a + b + [w];
      forall k | 0 <= k < |r| - 1
        ensures r[k] == if k < j then repl[k] else repl[k + 1]
      {
        if k < j {
          assert r[k] == a[k];
        } else {
          assert r[k] == b[k - j];
        }
      }
    } else {
      assert r == repl[..|repl| - 1] + [w];
    }
  }

  /** When `w` is in the list, moving it to the back keeps the same entries. */
  lemma MoveToBackEntries(repl: seq<int>, w: int)
    requires w in repl
    ensures multiset(MoveToBack(repl, w)) == multiset(repl)
  {
    var j := IndexOf(repl, w);
    var a, b := repl[..j], repl[j + 1..];
    assert repl == a + [w] + b;
    assert MoveToBack(repl, w) == a + b + [w];
  }

  /** `[0, 1, ..., n-1]`, the recency list initialisation leaves. */
  function Iota(n: nat): seq<int>
  {
    seq(n, k => k)
  }

  /** `s` is an ordering of the way numbers `0 .. n-1`. */
  ghost predicate IsPerm(s: seq<int>, n: nat)
  {
    multiset(s) == multiset(Iota(n))
  }

  /** A permutation holds exactly the way numbers. */
  lemma PermMembers(s: seq<int>, n: nat, w: int)
    requires IsPerm(s, n)
    ensures |s| == n
    ensures w in s <==> 0 <= w < n
  {
    assert |s| == |multiset(s)| == |multiset(Iota(n))| == n;
    assert w in s <==> w in multiset(s);
    assert w in Iota(n) <==> w in multiset(Iota(n));
    if 0 <= w < n {
      assert Iota(n)[w] == w;
    }
  }

  /** The hit path keeps the recency list a permutation of the ways and makes `w` the most recent. */
  lemma MoveToBackPerm(repl: seq<int>, n: nat, w: int)
    requires IsPerm(repl, n) && 0 <= w < n
    ensures |repl| == n
    ensures IsPerm(MoveToBack(repl, w), n)
    ensures MoveToBack(repl, w)[n - 1] == w
    ensures IndexOf(repl, w) < n
  {
    PermMembers(repl, n, w);
    MoveToBackSpec(repl, w);
    MoveToBackEntries(repl, w);
  }

  /** The cache contents: the ways and the recency list of every set, and the hit and miss counters. */
  datatype CacheState = CacheState(sets: seq<seq<Way>>, repl: seq<seq<int>>, hits: nat, misses: nat)

  /** The shape of the cache: one set and one recency list per index, `assoc` entries in each. */
  predicate Shaped(c: Config, cs: CacheState)
  {
    && ValidConfig(c)
    && |cs.sets| == Pow2(c.indexBits) && |cs.repl| == Pow2(c.indexBits)
    && (forall i :: 0 <= i < |cs.sets| ==> |cs.sets[i]| == c.assoc)
    && (forall i :: 0 <= i < |cs.repl| ==> |cs.repl[i]| == c.assoc)
  }

  /**
   * What the cache keeps true beyond its shape: the valid ways of every set form a prefix, and
   * every recency list is a permutation of `0 .. assoc-1`.
   */
  ghost predicate CacheValid(c: Config, cs: CacheState)
  {
    && Shaped(c, cs)
    && (forall i :: 0 <= i < |cs.sets| ==> ValidPrefix(cs.sets[i]))
    && (forall i :: 0 <= i < |cs.repl| ==> IsPerm(cs.repl[i], c.assoc))
  }

  /** The cache as initialisation leaves it: every way invalid with tag 0, every recency list `0 .. assoc-1`. */
  function InitCache(c: Config): (cs: CacheState)
    requires ValidConfig(c)
    ensures CacheValid(c, cs)
    ensures forall i, j :: 0 <= i < |cs.sets| && 0 <= j < c.assoc ==> !cs.sets[i][j].valid
    ensures cs.hits == 0 && cs.misses == 0
  {
    CacheState(seq(Pow2(c.indexBits), _ => seq(c.assoc, _ => Way(false, 0))),
               seq(Pow2(c.indexBits), _ => Iota(c.assoc)), 0, 0)
  }

  datatype ProbeResult = ProbeResult(hit: bool, cache: CacheState)

  /** The probe of one address: it keeps the cache's shape and counts one hit on a hit, one miss on a miss. */
  function Probe(c: Config, cs: CacheState, addr: Word): (r: ProbeResult)
    requires Shaped(c, cs)
    ensures Shaped(c, r.cache)
    ensures r.hit ==> r.cache.hits == cs.hits + 1 && r.cache.misses == cs.misses
    ensures !r.hit ==> r.cache.hits == cs.hits && r.cache.misses == cs.misses + 1
  {
    var sp := SplitAddress(c, addr);
    var ways := cs.sets[sp.index];
    var k := FirstMatch(ways, sp.tag);
    if k < |ways| then
      ProbeResult(true, cs.(repl := cs.repl[sp.index := MoveToBack(cs.repl[sp.index], k)], hits := cs.hits + 1))
    else
      ProbeResult(false, cs.(sets := cs.sets[sp.index := Install(ways, sp.tag)], misses := cs.misses + 1))
  }

  /** A probe keeps every set's valid ways a prefix and every recency list a permutation. */
  lemma ProbePreservesValid(c: Config, cs: CacheState, addr: Word)
    requires CacheValid(c, cs)
    ensures CacheValid(c, Probe(c, cs, addr).cache)
  {
    var sp := SplitAddress(c, addr);
    var k := FirstMatch(cs.sets[sp.index], sp.tag);
    if k < c.assoc {
      MoveToBackPerm(cs.repl[sp.index], c.assoc, k);
    } else {
      InstallSpec(cs.sets[sp.index], sp.tag);
    }
  }

  /** A probe hits exactly when some way of the indexed set is valid and holds the tag. */
  lemma ProbeHitIff(c: Config, cs: CacheState, addr: Word)
    requires Shaped(c, cs)
    ensures var sp := SplitAddress(c, addr);
      Probe(c, cs, addr).hit <==> exists j :: 0 <= j < c.assoc && Matches(cs.sets[sp.index][j], sp.tag)
  {
  }

  /**
   * What a probe changes: a hit makes the first matching way the most recent entry of the indexed
   * set's recency list and counts a hit; a miss installs the tag in that set and counts a miss.
   * Nothing else changes.
   */
  lemma ProbeEffect(c: Config, cs: CacheState, addr: Word)
    requires Shaped(c, cs)
    ensures var r, sp := Probe(c, cs, addr), SplitAddress(c, addr);
      var k := FirstMatch(cs.sets[sp.index], sp.tag);
      && (r.hit ==> r.cache == cs.(repl := cs.repl[sp.index := MoveToBack(cs.repl[sp.index], k)], hits := cs.hits + 1))
      && (!r.hit ==> r.cache == cs.(sets := cs.sets[sp.index := Install(cs.sets[sp.index], sp.tag)], misses := cs.misses + 1))
  {
  }

  /** On a cold cache every probe misses. */
  lemma ColdMiss(c: Config, addr: Word)
    requires ValidConfig(c)
    ensures var r := Probe(c, InitCache(c), addr);
      !r.hit && r.cache.hits == 0 && r.cache.misses == 1
  {
    var sp := SplitAddress(c, addr);
    ProbeHitIff(c, InitCache(c), addr);
    ProbeEffect(c, InitCache(c), addr);
    assert forall j :: 0 <= j < c.assoc ==> !Matches(InitCache(c).sets[sp.index][j], sp.tag);
  }

  /** Right after a probe of an address, probing it again hits. */
  lemma ProbeAgainHits(c: Config, cs: CacheState, addr: Word)
    requires Shaped(c, cs)
    ensures Probe(c, Probe(c, cs, addr).cache, addr).hit
  {
    var sp := SplitAddress(c, addr);
    var ways := cs.sets[sp.index];
    var r := Probe(c, cs, addr);
    ProbeEffect(c, cs, addr);
    if !r.hit {
      InstallSpec(ways, sp.tag);
    }
    var ways' := r.cache.sets[sp.index];
    var k := FirstMatch(ways', sp.tag);
    assert Matches(ways'[k], sp.tag);
  }

  /** Right after a probe of an address, probing any address of the same block hits. */
  lemma ProbeSameBlockHits(c: Config, cs: CacheState, a: Word, b: Word)
    requires Shaped(c, cs) && Shr(a, c.offsetBits) == Shr(b, c.offsetBits)
    ensures Probe(c, Probe(c, cs, a).cache, b).hit
  {
    SameSplitIffSameBlock(c, a, b);
    ProbeAgainHits(c, cs, a);
    var cs' := Probe(c, cs, a).cache;
    assert Probe(c, cs', b) == Probe(c, cs', a);
  }

  /** A probe touches only the set its address indexes. */
  lemma ProbeTouchesOneSet(c: Config, cs: CacheState, addr: Word, i: nat)
    requires Shaped(c, cs) && i < |cs.sets| && i != SplitAddress(c, addr).index
    ensures Probe(c, cs, addr).cache.sets[i] == cs.sets[i]
    ensures Probe(c, cs, addr).cache.repl[i] == cs.repl[i]
  {
    ProbeEffect(c, cs, addr);
  }

  /** Every valid way of set `i` holds a tag recorded with index `i` in `seen`. */
  ghost predicate RowSeen(ways: seq<Way>, i: nat, seen: set<(nat, int)>)
  {
    forall j :: 0 <= j < |ways| && ways[j].valid ==> (i, ways[j].tag) in seen
  }

  /**
   * Every valid way holds a tag of its set that is recorded in `seen`: the (index, tag) pairs
   * the probes so far have installed.
   */
  ghost predicate TagsSeen(cs: CacheState, seen: set<(nat, int)>)
  {
    forall i :: 0 <= i < |cs.sets| ==> RowSeen(cs.sets[i], i, seen)
  }

  /** Initialisation installs nothing. */
  lemma InitTagsSeen(c: Config)
    requires ValidConfig(c)
    ensures TagsSeen(InitCache(c), {})
  {
  }

  /** The miss path moves only tags already in the set, and adds its own. */
  lemma InstallSeen(ways: seq<Way>, tag: int, i: nat, seen: set<(nat, int)>)
    requires |ways| >= 1 && RowSeen(ways, i, seen)
    ensures RowSeen(Install(ways, tag), i, seen + {(i, tag)})
  {
    var w := Install(ways, tag);
    var k, p := FirstInvalid(ways), Victim(ways);
    forall j | 0 <= j < |w| && w[j].valid
      ensures (i, w[j].tag) in seen + {(i, tag)}
    {
      if j != p && j + 1 < k {
        assert ways[j + 1].valid;
        assert w[j].tag == ways[j + 1].tag;
      }
    }
  }

  /** A set holding no recorded pair of `tag` has no valid way matching it. */
  lemma UnseenNoMatch(ways: seq<Way>, i: nat, tag: int, seen: set<(nat, int)>)
    requires RowSeen(ways, i, seen) && (i, tag) !in seen
    ensures forall j :: 0 <= j < |ways| ==> !Matches(ways[j], tag)
  {
  }

  /**
   * No false hits: a probe of an (index, tag) pair that no earlier probe installed misses, and
   * afterwards every valid way holds a pair installed by the earlier probes or by this one. This
   * holds although the miss path moves tags between ways.
   */
  lemma ProbeSeen(c: Config, cs: CacheState, addr: Word, seen: set<(nat, int)>)
    requires Shaped(c, cs) && TagsSeen(cs, seen)
    ensures var sp := SplitAddress(c, addr);
      && ((sp.index, sp.tag) !in seen ==> !Probe(c, cs, addr).hit)
      && TagsSeen(Probe(c, cs, addr).cache, seen + {(sp.index, sp.tag)})
  {
    var sp := SplitAddress(c, addr);
    var r := Probe(c, cs, addr);
    var seen' := seen + {(sp.index, sp.tag)};
    ProbeHitIff(c, cs, addr);
    ProbeEffect(c, cs, addr);
    if (sp.index, sp.tag) !in seen {
      UnseenNoMatch(cs.sets[sp.index], sp.index, sp.tag, seen);
    }
    if !r.hit {
      InstallSeen(cs.sets[sp.index], sp.tag, sp.index, seen);
    }
    forall i | 0 <= i < |r.cache.sets|
      ensures RowSeen(r.cache.sets[i], i, seen')
    {
      assert RowSeen(cs.sets[i], i, seen);
    }
  }

  /** Probes of `addrs`, in order. */
  function ProbeAll(c: Config, cs: CacheState, addrs: seq<Word>): (r: CacheState)
    requires Shaped(c, cs)
    ensures Shaped(c, r)
    decreases |addrs|
  {
    if addrs == [] then cs else ProbeAll(c, Probe(c, cs, addrs[0]).cache, addrs[1..])
  }

  /** The (index, tag) pairs of `addrs`. */
  function Pairs(c: Config, addrs: seq<Word>): set<(nat, int)>
    requires ValidConfig(c)
    decreases |addrs|
  {
    if addrs == [] then {} else
      var sp := SplitAddress(c, addrs[0]);
      {(sp.index, sp.tag)} + Pairs(c, addrs[1..])
  }

  lemma {:induction false} ProbeAllSeen(c: Config, cs: CacheState, addrs: seq<Word>, seen: set<(nat, int)>)
    requires Shaped(c, cs) && TagsSeen(cs, seen)
    ensures TagsSeen(ProbeAll(c, cs, addrs), seen + Pairs(c, addrs))
    decreases |addrs|
  {
    if addrs != [] {
      var sp := SplitAddress(c, addrs[0]);
      ProbeSeen(c, cs, addrs[0], seen);
      ProbeAllSeen(c, Probe(c, cs, addrs[0]).cache, addrs[1..], seen + {(sp.index, sp.tag)});
      assert seen + {(sp.index, sp.tag)} + Pairs(c, addrs[1..]) == seen + Pairs(c, addrs);
    }
  }

  /**
   * From a cold cache, a probe hits only when some earlier probe had the same index and tag: a
   * hit is always preceded by the install of its block.
   */
  lemma HitNeedsEarlierInstall(c: Config, addrs: seq<Word>, addr: Word)
    requires ValidConfig(c)
    ensures var sp := SplitAddress(c, addr);
      Probe(c, ProbeAll(c, InitCache(c), addrs), addr).hit ==> (sp.index, sp.tag) in Pairs(c, addrs)
  {
    InitTagsSeen(c);
    ProbeAllSeen(c, InitCache(c), addrs, {});
    assert {} + Pairs(c, addrs) == Pairs(c, addrs);
    ProbeSeen(c, ProbeAll(c, InitCache(c), addrs), addr, Pairs(c, addrs));
  }
}

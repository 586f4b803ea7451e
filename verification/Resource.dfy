/** The two-pool resource tracker: RAM and CPU come from a sync-only reserve and
    a pool shared by async and sync calls.  uint64 arithmetic wraps explicitly. */
module Resource {
  import opened Words

  const MEM_1MB: nat := 1024 * 1024

  /** The size in bytes that the tracker works with: megabytes times 2^20, wrapped. */
  function Bytes(mb: u64): u64 { mb * MEM_1MB % TWO64 }

  /** One quantity for each of the four pools. */
  datatype Shares = Shares(ramAsync: u64, ramSync: u64, cpuAsync: u64, cpuSync: u64)

  const NO_SHARES: Shares := Shares(0, 0, 0, 0)

  datatype Pools = Pools(total: Shares, used: Shares, ramHigh: u64, cpuHigh: u64)

  /** What `initializeMemory` and `initializeCPU` set up: a fifth, rounded down, is the sync reserve. */
  function SyncReserve(avail: u64): u64 { (avail * 2 % TWO64) / 10 }
  function AsyncPool(avail: u64): u64 { Sub64(avail, SyncReserve(avail)) }

  /** Memory is fixed where the system is not Linux. */
  function Initial(linux: bool, ram: u64, cpu: u64): Pools {
    var sync := if linux then SyncReserve(ram) else 512 * MEM_1MB;
    var shared := if linux then AsyncPool(ram) else 1536 * MEM_1MB;
    var mark := if linux then (shared * 8 % TWO64) / 10 else 1024 * MEM_1MB;
    Pools(Shares(shared, sync, AsyncPool(cpu), SyncReserve(cpu)), NO_SHARES, mark, (AsyncPool(cpu) * 8 % TWO64) / 10)
  }

  // ------------------------------------------------------------ the lock regions

  /** `isResourceAvailableLocked`. */
  predicate Available(p: Pools, mem: u64, cpu: u64, isAsync: bool) {
    var asyncMem := Sub64(p.total.ramAsync, p.used.ramAsync);
    var syncMem := Sub64(p.total.ramSync, p.used.ramSync);
    var asyncCpu := Sub64(p.total.cpuAsync, p.used.cpuAsync);
    var syncCpu := Sub64(p.total.cpuSync, p.used.cpuSync);
    if isAsync then asyncMem >= mem && asyncCpu >= cpu
    else Add64(asyncMem, syncMem) >= mem && Add64(asyncCpu, syncCpu) >= cpu
  }

  /** `IsResourcePossible`, on the size in bytes. */
  predicate Possible(p: Pools, mem: u64, cpu: u64, isAsync: bool) {
    if isAsync then mem <= p.total.ramAsync && cpu <= p.total.cpuAsync
    else mem <= Add64(p.total.ramSync, p.total.ramAsync) && cpu <= Add64(p.total.cpuSync, p.total.cpuAsync)
  }

  function Min(a: u64, b: u64): u64 { if a <= b then a else b }

  /** How `allocResourcesLocked` splits a request over the pools. */
  function Split(p: Pools, mem: u64, cpu: u64, isAsync: bool): Shares {
    if isAsync then Shares(mem, 0, cpu, 0)
    else
      var syncMem := Min(Sub64(p.total.ramSync, p.used.ramSync), mem);
      var syncCpu := Min(Sub64(p.total.cpuSync, p.used.cpuSync), cpu);
      Shares(Sub64(mem, syncMem), syncMem, Sub64(cpu, syncCpu), syncCpu)
  }

  function Plus(a: Shares, b: Shares): Shares {
    Shares(Add64(a.ramAsync, b.ramAsync), Add64(a.ramSync, b.ramSync),
           Add64(a.cpuAsync, b.cpuAsync), Add64(a.cpuSync, b.cpuSync))
  }

  function Minus(a: Shares, b: Shares): Shares {
    Shares(Sub64(a.ramAsync, b.ramAsync), Sub64(a.ramSync, b.ramSync),
           Sub64(a.cpuAsync, b.cpuAsync), Sub64(a.cpuSync, b.cpuSync))
  }

  function Take(p: Pools, sh: Shares): Pools { p.(used := Plus(p.used, sh)) }
  function Give(p: Pools, sh: Shares): Pools { p.(used := Minus(p.used, sh)) }

  /** The async pool is below both high-water marks: `WaitAsyncResource` may signal. */
  predicate BelowHighWater(p: Pools) {
    p.used.ramAsync < p.ramHigh && p.used.cpuAsync < p.cpuHigh
  }

  predicate Within(a: Shares, b: Shares) {
    a.ramAsync <= b.ramAsync && a.ramSync <= b.ramSync && a.cpuAsync <= b.cpuAsync && a.cpuSync <= b.cpuSync
  }

  /** Usage within the totals, and totals that can be added without wrapping. */
  predicate Sound(p: Pools) {
    && Within(p.used, p.total)
    && p.total.ramAsync + p.total.ramSync < TWO64
    && p.total.cpuAsync + p.total.cpuSync < TWO64
  }

  // ------------------------------------------------------------- their properties

  /** The reserve and the shared pool always partition what the machine offers. */
  lemma SplitOfMachine(avail: u64)
    ensures SyncReserve(avail) + AsyncPool(avail) == avail
  {
    if avail < 0x8000_0000_0000_0000 {
      assert avail * 2 % TWO64 == avail * 2;
    } else {
      assert avail * 2 % TWO64 == avail * 2 - TWO64;
    }
  }

  lemma InitialIsSound(linux: bool, ram: u64, cpu: u64)
    ensures var p := Initial(linux, ram, cpu);
      && Sound(p) && p.total.ramSync + p.total.ramAsync == (if linux then ram else 2048 * MEM_1MB)
      && p.total.cpuSync + p.total.cpuAsync == cpu
  {
    SplitOfMachine(ram);
    SplitOfMachine(cpu);
  }

  /** The sync reserve is a fifth of the machine exactly below 2^63, where doubling does not wrap; the
      high-water mark is four fifths of the shared pool exactly if that is below 2^61. */
  lemma ShareOfReserve(ram: u64, cpu: u64)
    ensures var p := Initial(true, ram, cpu);
      && (5 * p.total.ramSync <= ram < 5 * p.total.ramSync + 5 <==> ram < 0x8000_0000_0000_0000)
      && (5 * p.total.cpuSync <= cpu < 5 * p.total.cpuSync + 5 <==> cpu < 0x8000_0000_0000_0000)
      && (5 * p.ramHigh <= 4 * p.total.ramAsync < 5 * p.ramHigh + 5 <==> p.total.ramAsync < 0x2000_0000_0000_0000)
      && (5 * p.cpuHigh <= 4 * p.total.cpuAsync < 5 * p.cpuHigh + 5 <==> p.total.cpuAsync < 0x2000_0000_0000_0000)
  {
    FifthOf(ram);
    FifthOf(cpu);
    MarkOf(AsyncPool(ram));
    MarkOf(AsyncPool(cpu));
    hide SyncReserve, AsyncPool;
  }

  lemma FifthOf(a: u64)
    ensures 5 * SyncReserve(a) <= a < 5 * SyncReserve(a) + 5 <==> a < 0x8000_0000_0000_0000
  {
    if a < 0x8000_0000_0000_0000 {
      assert a * 2 % TWO64 == a * 2;
    } else {
      assert a * 2 % TWO64 == a * 2 - TWO64;
    }
  }

  lemma MarkOf(p: u64)
    ensures var mark := (p * 8 % TWO64) / 10;
      5 * mark <= 4 * p < 5 * mark + 5 <==> p < 0x2000_0000_0000_0000
  {
    if p < 0x2000_0000_0000_0000 {
      assert p * 8 % TWO64 == p * 8;
    } else {
      assert p * 8 % TWO64 <= p * 8 - TWO64;
    }
  }

  /** The conversion to bytes is faithful exactly below 2^44 megabytes. */
  lemma BytesFaithful(mb: u64)
    ensures Bytes(mb) == mb * MEM_1MB <==> mb < 0x1000_0000_0000
  {
    if mb >= 0x1000_0000_0000 {
      assert mb * MEM_1MB >= TWO64;
    }
  }

  /** In a sound state nothing wraps: availability is plain arithmetic. */
  lemma AvailableMeans(p: Pools, mem: u64, cpu: u64, isAsync: bool)
    requires Sound(p)
    ensures isAsync ==>
              (Available(p, mem, cpu, isAsync) <==>
                && p.used.ramAsync + mem <= p.total.ramAsync
                && p.used.cpuAsync + cpu <= p.total.cpuAsync)
    ensures !isAsync ==>
              (Available(p, mem, cpu, isAsync) <==>
                && p.used.ramAsync + p.used.ramSync + mem <= p.total.ramAsync + p.total.ramSync
                && p.used.cpuAsync + p.used.cpuSync + cpu <= p.total.cpuAsync + p.total.cpuSync)
  {
  }

  /** An available request is split into shares that add up to it, fit in what is
      left of each pool, and leave the reserve alone when the request is async; a sync request
      draws on the shared pool only once the reserve is used up. */
  lemma SplitFits(p: Pools, mem: u64, cpu: u64, isAsync: bool)
    requires Sound(p) && Available(p, mem, cpu, isAsync)
    ensures var sh := Split(p, mem, cpu, isAsync);
            && sh.ramAsync + sh.ramSync == mem && sh.cpuAsync + sh.cpuSync == cpu
            && (isAsync ==> sh.ramSync == 0 && sh.cpuSync == 0)
            && (!isAsync && sh.ramAsync > 0 ==> p.used.ramSync + sh.ramSync == p.total.ramSync)
            && (!isAsync && sh.cpuAsync > 0 ==> p.used.cpuSync + sh.cpuSync == p.total.cpuSync)
            && p.used.ramAsync + sh.ramAsync <= p.total.ramAsync && p.used.ramSync + sh.ramSync <= p.total.ramSync
            && p.used.cpuAsync + sh.cpuAsync <= p.total.cpuAsync && p.used.cpuSync + sh.cpuSync <= p.total.cpuSync
  {
    AvailableMeans(p, mem, cpu, isAsync);
  }

  /** Taking shares never makes a request available that was not. */
  lemma TakeIsMonotone(p: Pools, sh: Shares, mem: u64, cpu: u64, isAsync: bool)
    requires Sound(p) && Sound(Take(p, sh)) && Within(p.used, Take(p, sh).used)
    ensures Available(Take(p, sh), mem, cpu, isAsync) ==> Available(p, mem, cpu, isAsync)
    ensures BelowHighWater(Take(p, sh)) ==> BelowHighWater(p)
  {
    AvailableMeans(p, mem, cpu, isAsync);
    AvailableMeans(Take(p, sh), mem, cpu, isAsync);
  }

  /** With nothing in use, what is possible is available. */
  lemma IdleServesThePossible(p: Pools, mem: u64, cpu: u64, isAsync: bool)
    requires Sound(p) && p.used == NO_SHARES
    ensures Available(p, mem, cpu, isAsync) <==> Possible(p, mem, cpu, isAsync)
  {
    AvailableMeans(p, mem, cpu, isAsync);
  }

  // ------------------------------------------------------------------- the object

  /** `resourceTracker`: each method is the body of one lock region. */
  class ResourceTracker {
    var ramSyncTotal: u64
    var ramSyncUsed: u64
    var ramAsyncTotal: u64
    var ramAsyncUsed: u64
    var ramAsyncHWMark: u64
    var cpuSyncTotal: u64
    var cpuSyncUsed: u64
    var cpuAsyncTotal: u64
    var cpuAsyncUsed: u64
    var cpuAsyncHWMark: u64
    var tokenWaiterCount: u64

    function Value(): Pools
      reads this
    {
      Pools(Shares(ramAsyncTotal, ramSyncTotal, cpuAsyncTotal, cpuSyncTotal),
            Shares(ramAsyncUsed, ramSyncUsed, cpuAsyncUsed, cpuSyncUsed), ramAsyncHWMark, cpuAsyncHWMark)
    }

    constructor (linux: bool, availMemory: u64, availCPU: u64)
      ensures Value() == Initial(linux, availMemory, availCPU) && Sound(Value())
      ensures tokenWaiterCount == 0
    {
      if linux {
        ramSyncTotal := SyncReserve(availMemory);
        ramAsyncTotal := AsyncPool(availMemory);
        ramAsyncHWMark := (AsyncPool(availMemory) * 8 % TWO64) / 10;
      } else {
        ramSyncTotal := 512 * MEM_1MB;
        ramAsyncTotal := (1024 + 512) * MEM_1MB;
        ramAsyncHWMark := 1024 * MEM_1MB;
      }
      cpuSyncTotal := SyncReserve(availCPU);
      cpuAsyncTotal := AsyncPool(availCPU);
      cpuAsyncHWMark := (AsyncPool(availCPU) * 8 % TWO64) / 10;
      ramSyncUsed, ramAsyncUsed, cpuSyncUsed, cpuAsyncUsed := 0, 0, 0, 0;
      tokenWaiterCount := 0;
      new;
      InitialIsSound(linux, availMemory, availCPU);
    }

    /** `allocResourcesLocked`: the shares live on in the token's closure. */
    method AllocResourcesLocked(memory: u64, cpuQuota: u64, isAsync: bool) returns (token: Shares)
      requires Sound(Value()) && Available(Value(), memory, cpuQuota, isAsync)
      modifies this`ramAsyncUsed, this`ramSyncUsed, this`cpuAsyncUsed, this`cpuSyncUsed
      ensures token == Split(old(Value()), memory, cpuQuota, isAsync)
      ensures Value() == Take(old(Value()), token) && Sound(Value())
    {
      var asyncMem: u64, syncMem: u64, asyncCPU: u64, syncCPU: u64 := 0, 0, 0, 0;
      if isAsync {
        asyncMem := memory;
        asyncCPU := cpuQuota;
      } else {
        syncMem := Min(Sub64(ramSyncTotal, ramSyncUsed), memory);
        syncCPU := Min(Sub64(cpuSyncTotal, cpuSyncUsed), cpuQuota);
        asyncMem := Sub64(memory, syncMem);
        asyncCPU := Sub64(cpuQuota, syncCPU);
      }
      SplitFits(Value(), memory, cpuQuota, isAsync);
      ramAsyncUsed := Add64(ramAsyncUsed, asyncMem);
      ramSyncUsed := Add64(ramSyncUsed, syncMem);
      cpuAsyncUsed := Add64(cpuAsyncUsed, asyncCPU);
      cpuSyncUsed := Add64(cpuSyncUsed, syncCPU);
      token := Shares(asyncMem, syncMem, asyncCPU, syncCPU);
    }

    /** The lock region of a token's `decrement`. */
    method Decrement(token: Shares)
      requires Sound(Value()) && Within(token, Value().used)
      modifies this`ramAsyncUsed, this`ramSyncUsed, this`cpuAsyncUsed, this`cpuSyncUsed
      ensures Value() == Give(old(Value()), token) && Sound(Value())
      ensures Plus(Value().used, token) == old(Value()).used
    {
      ramAsyncUsed := Sub64(ramAsyncUsed, token.ramAsync);
      ramSyncUsed := Sub64(ramSyncUsed, token.ramSync);
      cpuAsyncUsed := Sub64(cpuAsyncUsed, token.cpuAsync);
      cpuSyncUsed := Sub64(cpuSyncUsed, token.cpuSync);
    }

    /** `getResourceTokenNB`: a token's shares, or CapacityFull. */
    method GetResourceTokenNB(memoryMB: u64, cpuQuota: u64, isAsync: bool) returns (full: bool, token: Shares)
      requires Sound(Value())
      modifies this`ramAsyncUsed, this`ramSyncUsed, this`cpuAsyncUsed, this`cpuSyncUsed
      ensures full <==> !Available(old(Value()), Bytes(memoryMB), cpuQuota, isAsync)
      ensures full ==> Value() == old(Value()) && token == NO_SHARES
      ensures !full ==> token == Split(old(Value()), Bytes(memoryMB), cpuQuota, isAsync)
      ensures !full ==> Value() == Take(old(Value()), token) && Sound(Value())
    {
      AvailableMeans(Value(), Bytes(memoryMB), cpuQuota, isAsync);
      if !Possible(Value(), Bytes(memoryMB), cpuQuota, isAsync) {
        return true, NO_SHARES;
      }
      if !Available(Value(), Bytes(memoryMB), cpuQuota, isAsync) {
        return true, NO_SHARES;
      }
      token := AllocResourcesLocked(Bytes(memoryMB), cpuQuota, isAsync);
      full := false;
    }
  }
}

/**
 * The root partition's view of the Pip hypervisor. The hypervisor calls the
 * launcher makes (`Pip_InitPaging`, `Pip_AllocPage`, `Pip_CreatePartition`,
 * `Pip_MapPageWrapper`, `Pip_Yield`) are foreign; their answers come from an
 * oracle fixed ahead of time, and every step the root takes is logged.
 */
module PipApi {
  import opened Launcher

  /** `pip_fpinfo`: the boot information block handed over by Pip. */
  datatype BootInfo = BootInfo(magic: u32, membegin: u32, memend: u32, revision: string)

  /**
   * What the hypervisor answers: the k-th `Pip_AllocPage` returns `page(k)`,
   * the k-th `Pip_MapPageWrapper` succeeds iff `mapOk(k)`. `fpinfoMagic` is
   * the value of `FPINFO_MAGIC`; `yieldReturns` says whether `Pip_Yield`
   * ever comes back to its call site.
   */
  datatype Env = Env(
    fpinfoMagic: u32,
    pagingOk: bool,
    page: nat -> u32,
    createOk: bool,
    mapOk: nat -> bool,
    yieldReturns: bool)

  /** The allocator hands out whole pages. */
  ghost predicate PagesAligned(env: Env) {
    forall k: nat :: env.page(k) % PAGE_SIZE == 0
  }

  /** One observable step of the root partition. */
  datatype Step =
    | Store(addr: u32, value: u32)          // a 32-bit store to root memory
    | CheckMagic(magic: u32)                // the boot information test
    | InitPaging(membegin: u32, memend: u32)
    | AllocPage(page: u32)                  // the page the allocator returned
    | CreatePartition(pd: u32, pdt: u32, sh1: u32, sh2: u32, sh3: u32)
    | MapPage(phys: u32, pd: u32, vaddr: u32)
    | Yield(target: u32, vint: u32, saveIndex: u32, flagsOnYield: u32, flagsOnWake: u32)

  /**
   * `Running` while main goes on, `Halted` once `PANIC()` is reached,
   * `Transferred` once `Pip_Yield` has handed the processor to the child.
   * `Completed` is the outcome of a block of steps that all went through
   * without handing over: the run continues with whatever follows the block.
   */
  datatype Status = Running | Halted | Transferred | Completed

  datatype Run = Run(trace: seq<Step>, status: Status)

  /**
   * Whether step `s` goes through, `maps` map calls having been made before
   * it: the root's own magic test, or the hypervisor's answer to a call.
   * Stores and allocations are never refused: allocation results go unchecked.
   */
  function Granted(env: Env, s: Step, maps: nat): (ok: bool)
    ensures s.Store? || s.AllocPage? ==> ok
  {
    match s
    case Store(_, _) => true
    case CheckMagic(m) => m == env.fpinfoMagic
    case InitPaging(_, _) => env.pagingOk
    case AllocPage(_) => true
    case CreatePartition(_, _, _, _, _) => env.createOk
    case MapPage(_, _, _) => env.mapOk(maps)
    case Yield(_, _, _, _, _) => !env.yieldReturns
  }

  function MapInc(s: Step): nat {
    if s.MapPage? then 1 else 0
  }

  /** Number of map calls in `t`. */
  function MapCount(t: seq<Step>): nat {
    if t == [] then 0 else MapInc(t[0]) + MapCount(t[1..])
  }

  /** Number of allocations in `t`. */
  function AllocCount(t: seq<Step>): nat {
    if t == [] then 0 else (if t[0].AllocPage? then 1 else 0) + AllocCount(t[1..])
  }

  /** The map calls of `t`, in order. */
  function MapsOf(t: seq<Step>): seq<Step> {
    if t == [] then [] else (if t[0].MapPage? then [t[0]] else []) + MapsOf(t[1..])
  }

  function Prepend(t: seq<Step>, r: Run): Run {
    Run(t + r.trace, r.status)
  }

  /**
   * Carrying out `plan` in order: every refused step ends in `PANIC()`, so
   * the run stops at the first refusal and no later step is attempted; a
   * granted yield hands the processor to the child, and the root runs no
   * further step either.
   */
  function Exec(env: Env, plan: seq<Step>, maps: nat): (r: Run)
    ensures r.status != Running && |r.trace| <= |plan|
    decreases |plan|
  {
    if plan == [] then Run([], Completed)
    else if !Granted(env, plan[0], maps) then Run([plan[0]], Halted)
    else if plan[0].Yield? then Run([plan[0]], Transferred)
    else Prepend([plan[0]], Exec(env, plan[1..], maps + MapInc(plan[0])))
  }

  /**
   * A run never goes past its plan: it is a prefix of the plan, the whole
   * plan when every step went through, and it ends with a yield when it
   * ends with the transfer.
   */
  lemma {:induction false} ExecShape(env: Env, plan: seq<Step>, maps: nat)
    ensures var r := Exec(env, plan, maps);
      && r.trace <= plan
      && (r.status == Completed ==> r.trace == plan)
      && (r.status == Transferred ==> r.trace != [] && r.trace[|r.trace| - 1].Yield?)
      && (plan != [] ==> r.trace != [])
    decreases |plan|
  {
    if plan != [] && Granted(env, plan[0], maps) && !plan[0].Yield? {
      var rest := Exec(env, plan[1..], maps + MapInc(plan[0]));
      ExecShape(env, plan[1..], maps + MapInc(plan[0]));
      assert plan == [plan[0]] + plan[1..];
      if rest.status == Transferred {
        assert ([plan[0]] + rest.trace)[|rest.trace|] == rest.trace[|rest.trace| - 1];
      }
    }
  }

  /** One granted step other than the yield, then the rest of the plan. */
  lemma ExecGranted(env: Env, plan: seq<Step>, maps: nat)
    requires plan != [] && Granted(env, plan[0], maps) && !plan[0].Yield?
    ensures Exec(env, plan, maps) == Prepend([plan[0]], Exec(env, plan[1..], maps + MapInc(plan[0])))
  {
  }

  lemma PrependTwice(t: seq<Step>, u: seq<Step>, r: Run)
    ensures Prepend(t, Prepend(u, r)) == Prepend(t + u, r)
  {
    assert t + (u + r.trace) == (t + u) + r.trace;
  }

  /**
   * Index of the first refused map call among `count` calls numbered from
   * `from`, or `count` when all are granted.
   */
  function FirstRefused(mapOk: nat -> bool, from: nat, count: nat): (k: nat)
    ensures k <= count
    ensures forall j :: from <= j < from + k ==> mapOk(j)
    ensures k < count ==> !mapOk(from + k)
    decreases count
  {
    if count == 0 || !mapOk(from) then 0
    else 1 + FirstRefused(mapOk, from + 1, count - 1)
  }

  /** Steps that never fail (stores and allocations) run through and map nothing. */
  lemma {:induction false} ExecInfallible(env: Env, p: seq<Step>, maps: nat)
    requires forall j :: 0 <= j < |p| ==> p[j].Store? || p[j].AllocPage?
    ensures Exec(env, p, maps) == Run(p, Completed)
    ensures MapCount(p) == 0 && MapsOf(p) == []
    decreases |p|
  {
    if p != [] {
      ExecInfallible(env, p[1..], maps);
    }
  }

  /** Steps that never fail, then one that may: the run stops at it exactly when it is refused. */
  lemma ExecThenOne(env: Env, p: seq<Step>, s: Step, maps: nat)
    requires forall j :: 0 <= j < |p| ==> p[j].Store? || p[j].AllocPage?
    requires !s.Yield?
    ensures Exec(env, p + [s], maps) == Run(p + [s], if Granted(env, s, maps) then Completed else Halted)
    ensures MapCount(p + [s]) == MapInc(s)
  {
    ExecInfallible(env, p, maps);
    ExecAppend(env, p, [s], maps);
    CountsAppend(p, [s]);
    CountsSingle(s);
    assert [s][1..] == [];
  }

  /** What the counts of `p` are when its steps are all, or none, of one kind. */
  lemma {:induction false} CountsOfKind(p: seq<Step>)
    ensures (forall j :: 0 <= j < |p| ==> !p[j].MapPage?) ==> MapCount(p) == 0 && MapsOf(p) == []
    ensures (forall j :: 0 <= j < |p| ==> !p[j].AllocPage?) ==> AllocCount(p) == 0
    ensures (forall j :: 0 <= j < |p| ==> p[j].AllocPage?) ==> AllocCount(p) == |p|
    decreases |p|
  {
    if p != [] {
      CountsOfKind(p[1..]);
      assert forall j :: 0 <= j < |p[1..]| ==> p[1..][j] == p[j + 1];
    }
  }

  /** The counts of a single step. */
  lemma CountsSingle(s: Step)
    ensures MapCount([s]) == MapInc(s)
    ensures AllocCount([s]) == if s.AllocPage? then 1 else 0
    ensures MapsOf([s]) == if s.MapPage? then [s] else []
  {
    assert [s][1..] == [];
  }

  /** A block of map calls counts as map calls only, each one listed. */
  lemma {:induction false} MapsCounted(p: seq<Step>)
    requires forall j :: 0 <= j < |p| ==> p[j].MapPage?
    ensures MapCount(p) == |p| && AllocCount(p) == 0 && MapsOf(p) == p
    decreases |p|
  {
    if p != [] {
      MapsCounted(p[1..]);
      assert p == [p[0]] + p[1..];
    }
  }

  /**
   * A block of map calls runs up to and including the first one the kernel
   * refuses, or to its end.
   */
  lemma {:induction false} ExecMaps(env: Env, p: seq<Step>, maps: nat)
    requires forall j :: 0 <= j < |p| ==> p[j].MapPage?
    ensures var k := FirstRefused(env.mapOk, maps, |p|);
      Exec(env, p, maps) == if k < |p| then Run(p[..k + 1], Halted) else Run(p, Completed)
    decreases |p|
  {
    if p != [] && env.mapOk(maps) {
      var rest := p[1..];
      ExecMaps(env, rest, maps + 1);
      ExecGranted(env, p, maps);
      assert Exec(env, p, maps) == Prepend([p[0]], Exec(env, rest, maps + 1));
      var k := FirstRefused(env.mapOk, maps + 1, |rest|);
      assert FirstRefused(env.mapOk, maps, |p|) == k + 1;
      if k < |rest| {
        assert [p[0]] + rest[..k + 1] == p[..k + 2];
      } else {
        assert [p[0]] + rest == p;
      }
    }
  }

  /** Running `p + q` runs `p`, then, if `p` got through, `q`. */
  lemma ExecAppend(env: Env, p: seq<Step>, q: seq<Step>, maps: nat)
    ensures Exec(env, p, maps).status != Completed ==> Exec(env, p + q, maps) == Exec(env, p, maps)
    ensures Exec(env, p, maps).status == Completed ==>
      Exec(env, p + q, maps) == Prepend(p, Exec(env, q, maps + MapCount(p)))
  {
    if Exec(env, p, maps).status != Completed {
      ExecAppendHalted(env, p, q, maps);
    } else {
      ExecAppendThrough(env, p, q, maps);
    }
  }

  /**
   * A run of `p` that halts, or hands over to the child, is the run of
   * `p + q`: nothing of `q` is attempted.
   */
  lemma {:induction false} ExecAppendHalted(env: Env, p: seq<Step>, q: seq<Step>, maps: nat)
    requires Exec(env, p, maps).status != Completed
    ensures Exec(env, p + q, maps) == Exec(env, p, maps)
    decreases |p|
  {
    assert (p + q)[0] == p[0];
    if Granted(env, p[0], maps) && !p[0].Yield? {
      assert (p + q)[1..] == p[1..] + q;
      ExecAppendHalted(env, p[1..], q, maps + MapInc(p[0]));
    }
  }

  /** Splitting the first step off `p + x`. */
  lemma ConsAppend(p: seq<Step>, x: seq<Step>)
    requires p != []
    ensures (p + x)[0] == p[0] && (p + x)[1..] == p[1..] + x
    ensures [p[0]] + (p[1..] + x) == p + x
  {
    assert [p[0]] + p[1..] == p;
  }

  /** The plan but its last step, and that step, when two steps end it. */
  lemma LastTwo(p: seq<Step>, a: Step, b: Step)
    ensures (p + [a, b])[..|p| + 1] == p + [a] && |p + [a, b]| == |p| + 2
    ensures (p + [a])[|p|] == a
  {
    assert (p + [a, b])[..|p| + 1] == p + [a];
  }

  /** The steps `p` followed by the first `k + 1` steps of `code`: their last one is `code[k]`. */
  lemma LastOfPrefix(p: seq<Step>, code: seq<Step>, k: nat)
    requires k < |code|
    ensures |p + code[..k + 1]| == |p| + k + 1 && (p + code[..k + 1])[|p| + k] == code[k]
  {
  }

  /** A run of `p` that gets through is followed by the run of `q`. */
  lemma {:induction false} ExecAppendThrough(env: Env, p: seq<Step>, q: seq<Step>, maps: nat)
    requires Exec(env, p, maps).status == Completed
    ensures Exec(env, p + q, maps) == Prepend(p, Exec(env, q, maps + MapCount(p)))
    decreases |p|
  {
    if p == [] {
      assert p + q == q;
    } else {
      ConsAppend(p, q);
      ExecAppendThrough(env, p[1..], q, maps + MapInc(p[0]));
      ConsAppend(p, Exec(env, q, maps + MapCount(p)).trace);
    }
  }

  /** Counting distributes over concatenation. */
  lemma {:induction false} CountsAppend(p: seq<Step>, q: seq<Step>)
    ensures MapCount(p + q) == MapCount(p) + MapCount(q)
    ensures AllocCount(p + q) == AllocCount(p) + AllocCount(q)
    ensures MapsOf(p + q) == MapsOf(p) + MapsOf(q)
    decreases |p|
  {
    if p == [] {
      assert p + q == q;
    } else {
      assert (p + q)[0] == p[0] && (p + q)[1..] == p[1..] + q;
      CountsAppend(p[1..], q);
      var head := if p[0].MapPage? then [p[0]] else [];
      assert MapsOf(p + q) == head + (MapsOf(p[1..]) + MapsOf(q));
      assert MapsOf(p) == head + MapsOf(p[1..]);
    }
  }

  /** The effect of one step on root memory. */
  function Apply(mem: map<u32, u32>, s: Step): map<u32, u32> {
    if s.Store? then mem[s.addr := s.value] else mem
  }

  /** Root memory after the steps `t`, starting from `mem`. */
  function Replay(mem: map<u32, u32>, t: seq<Step>): (m: map<u32, u32>)
    ensures forall a :: a in mem ==> a in m
    decreases |t|
  {
    if t == [] then mem else Apply(Replay(mem, t[..|t| - 1]), t[|t| - 1])
  }

  lemma ReplaySnoc(mem: map<u32, u32>, t: seq<Step>, s: Step)
    ensures Replay(mem, t + [s]) == Apply(Replay(mem, t), s)
  {
    assert (t + [s])[..|t|] == t;
  }

  /** Replaying `p + q` is replaying `q` over the memory `p` leaves. */
  lemma {:induction false} ReplayAppend(mem: map<u32, u32>, p: seq<Step>, q: seq<Step>)
    ensures Replay(mem, p + q) == Replay(Replay(mem, p), q)
    decreases |q|
  {
    if q == [] {
      assert p + q == p;
    } else {
      assert (p + q)[..|p + q| - 1] == p + q[..|q| - 1];
      ReplayAppend(mem, p, q[..|q| - 1]);
    }
  }

  /** No step of `t` writes to memory. */
  predicate NoStores(t: seq<Step>) {
    forall j :: 0 <= j < |t| ==> !t[j].Store?
  }

  /** Steps that store nothing leave memory as the steps before them left it. */
  lemma {:induction false} ReplayPast(mem: map<u32, u32>, p: seq<Step>, q: seq<Step>)
    requires NoStores(q)
    ensures Replay(mem, p + q) == Replay(mem, p)
    decreases |q|
  {
    if q == [] {
      assert p + q == p;
    } else {
      var front := q[..|q| - 1];
      assert (p + q)[..|p + q| - 1] == p + front;
      assert (p + q)[|p + q| - 1] == q[|q| - 1];
      ReplayPast(mem, p, front);
    }
  }

  /** A word that no step of `t` stores to keeps its content. */
  lemma {:induction false} ReplayKeeps(mem: map<u32, u32>, t: seq<Step>, a: u32)
    requires forall j :: 0 <= j < |t| && t[j].Store? ==> t[j].addr != a
    ensures a in Replay(mem, t) <==> a in mem
    ensures a in mem ==> Replay(mem, t)[a] == mem[a]
    decreases |t|
  {
    if t != [] {
      ReplayKeeps(mem, t[..|t| - 1], a);
    }
  }

  /** The words of a context at `base` are all present in `mem`. */
  ghost predicate CtxPresent(mem: map<u32, u32>, base: u32) {
    base + SIZEOF_USER_CTX <= WORD_RANGE &&
    forall i :: 0 <= i < CTX_WORDS ==> base + WORD_SIZE * i in mem
  }

  /** The context stored in `mem` at `base`, read through the record layout. */
  ghost function ReadCtx(mem: map<u32, u32>, base: u32): (c: UserCtx)
    requires CtxPresent(mem, base)
    ensures forall f :: Get(c, f) == mem[base + FieldOffset(f)]
  {
    assert base + 4 * 0 in mem && base + 4 * 1 in mem && base + 4 * 2 in mem && base + 4 * 3 in mem;
    assert base + 4 * 4 in mem && base + 4 * 5 in mem && base + 4 * 6 in mem && base + 4 * 7 in mem;
    assert base + 4 * 8 in mem && base + 4 * 9 in mem && base + 4 * 10 in mem && base + 4 * 11 in mem;
    assert base + 4 * 12 in mem && base + 4 * 13 in mem && base + 4 * 14 in mem && base + 4 * 15 in mem;
    UserCtx(mem[base], mem[base + 4], mem[base + 8],
      PushadRegs(mem[base + 12], mem[base + 16], mem[base + 20], mem[base + 24],
                 mem[base + 28], mem[base + 32], mem[base + 36], mem[base + 40]),
      mem[base + 44], [mem[base + 48], mem[base + 52], mem[base + 56], mem[base + 60]])
  }

  /**
   * The machine as the root partition sees it: its memory, the log of its
   * steps, the number of allocation and map calls made so far, and whether
   * it still runs. Every foreign call is logged and answered by `env`.
   */
  class Machine {
    const env: Env
    var trace: seq<Step>
    var mem: map<u32, u32>
    var allocs: nat
    var maps: nat
    var status: Status

    /** The machine at the entry of the root partition. */
    constructor (env: Env, mem: map<u32, u32>)
      ensures this.env == env && this.mem == mem
      ensures trace == [] && allocs == 0 && maps == 0 && status == Running
    {
      this.env := env;
      this.mem := mem;
      trace := [];
      allocs := 0;
      maps := 0;
      status := Running;
    }

    /** A 32-bit store to root memory. */
    method Write(addr: u32, value: u32)
      requires addr % WORD_SIZE == 0
      requires status == Running
      modifies this
      ensures mem == old(mem)[addr := value]
      ensures trace == old(trace) + [Store(addr, value)]
      ensures allocs == old(allocs) && maps == old(maps) && status == old(status)
    {
      mem := mem[addr := value];
      trace := trace + [Store(addr, value)];
    }

    /** The boot information test of `printBootInfo`, logged as a step. */
    method CheckBootMagic(magic: u32) returns (ok: bool)
      requires status == Running
      modifies this
      ensures ok == (magic == env.fpinfoMagic)
      ensures trace == old(trace) + [CheckMagic(magic)]
      ensures mem == old(mem) && allocs == old(allocs) && maps == old(maps)
      ensures status == old(status)
    {
      ok := magic == env.fpinfoMagic;
      trace := trace + [CheckMagic(magic)];
    }

    /** `Pip_InitPaging(membegin, memend)`. */
    method InitPagingCall(membegin: u32, memend: u32) returns (ok: bool)
      requires status == Running
      modifies this
      ensures ok == env.pagingOk
      ensures trace == old(trace) + [InitPaging(membegin, memend)]
      ensures mem == old(mem) && allocs == old(allocs) && maps == old(maps)
      ensures status == old(status)
    {
      ok := env.pagingOk;
      trace := trace + [InitPaging(membegin, memend)];
    }

    /** `Pip_AllocPage()`: its result is never checked by the caller. */
    method AllocPageCall() returns (page: u32)
      requires status == Running
      modifies this
      ensures page == env.page(old(allocs))
      ensures trace == old(trace) + [AllocPage(page)]
      ensures allocs == old(allocs) + 1
      ensures mem == old(mem) && maps == old(maps) && status == old(status)
    {
      page := env.page(allocs);
      allocs := allocs + 1;
      trace := trace + [AllocPage(page)];
    }

    /** `Pip_CreatePartition(pd, pdt, sh1, sh2, sh3)`. */
    method CreatePartitionCall(pd: u32, pdt: u32, sh1: u32, sh2: u32, sh3: u32) returns (ok: bool)
      requires status == Running
      modifies this
      ensures ok == env.createOk
      ensures trace == old(trace) + [CreatePartition(pd, pdt, sh1, sh2, sh3)]
      ensures mem == old(mem) && allocs == old(allocs) && maps == old(maps)
      ensures status == old(status)
    {
      ok := env.createOk;
      trace := trace + [CreatePartition(pd, pdt, sh1, sh2, sh3)];
    }

    /** `Pip_MapPageWrapper(phys, pd, vaddr)`. */
    method MapPageCall(phys: u32, pd: u32, vaddr: u32) returns (ok: bool)
      requires status == Running
      modifies this
      ensures ok == env.mapOk(old(maps))
      ensures trace == old(trace) + [MapPage(phys, pd, vaddr)]
      ensures maps == old(maps) + 1
      ensures mem == old(mem) && allocs == old(allocs) && status == old(status)
    {
      ok := env.mapOk(maps);
      maps := maps + 1;
      trace := trace + [MapPage(phys, pd, vaddr)];
    }

    /**
     * `Pip_Yield(target, vint, saveIndex, flagsOnYield, flagsOnWake)`: either
     * the child now runs, or the call comes back to the root's call site.
     */
    method YieldCall(target: u32, vint: u32, saveIndex: u32, flagsOnYield: u32, flagsOnWake: u32)
      requires status == Running
      modifies this
      ensures status == if env.yieldReturns then Running else Transferred
      ensures trace == old(trace) + [Yield(target, vint, saveIndex, flagsOnYield, flagsOnWake)]
      ensures mem == old(mem) && allocs == old(allocs) && maps == old(maps)
    {
      trace := trace + [Yield(target, vint, saveIndex, flagsOnYield, flagsOnWake)];
      if !env.yieldReturns {
        status := Transferred;
      }
    }

    /** `PANIC()`: the root partition stops for good. */
    method Panic()
      modifies this
      ensures status == Halted
      ensures trace == old(trace) && mem == old(mem)
      ensures allocs == old(allocs) && maps == old(maps)
    {
      status := Halted;
    }
  }
}

/**
 * Following a plan call by call. A machine at some point of a run is
 * `Pending` on `rest` when the run of the whole plan is the steps taken so
 * far followed by the run of `rest`; each foreign call of the plan keeps that
 * account for the remainder, or, when it is refused, leaves the run complete.
 */
module PlanSteps {
  import opened Launcher
  import opened PipApi

  /** What is still to come: the steps taken so far followed by the run of `rest`. */
  ghost predicate Pending(m: Machine, plan: seq<Step>, rest: seq<Step>, mem0: map<u32, u32>)
    reads m
  {
    && Exec(m.env, plan, 0) == Prepend(m.trace, Exec(m.env, rest, m.maps))
    && m.mem == Replay(mem0, m.trace)
    && m.status == Running
  }

  /** The last call was refused: the run of the plan stops at it. */
  ghost predicate Refused(m: Machine, plan: seq<Step>, mem0: map<u32, u32>)
    reads m
  {
    && Exec(m.env, plan, 0) == Run(m.trace, Halted)
    && m.mem == Replay(mem0, m.trace)
    && m.status == Running
  }

  /** The run is over and it is the plan carried out up to its first refusal. */
  ghost predicate Finished(m: Machine, plan: seq<Step>, mem0: map<u32, u32>)
    reads m
  {
    Run(m.trace, m.status) == Exec(m.env, plan, 0) && m.mem == Replay(mem0, m.trace)
  }

  /** Taking the next step of `rest` keeps the account of what is still to come. */
  lemma Advance(env: Env, mem0: map<u32, u32>, t: seq<Step>, rest: seq<Step>, maps: nat)
    requires rest != []
    ensures Replay(mem0, t + [rest[0]]) == Apply(Replay(mem0, t), rest[0])
    ensures Granted(env, rest[0], maps) && !rest[0].Yield? ==>
      Prepend(t, Exec(env, rest, maps))
        == Prepend(t + [rest[0]], Exec(env, rest[1..], maps + MapInc(rest[0])))
    ensures Granted(env, rest[0], maps) && rest[0].Yield? ==>
      Prepend(t, Exec(env, rest, maps)) == Run(t + [rest[0]], Transferred)
    ensures !Granted(env, rest[0], maps) ==>
      Prepend(t, Exec(env, rest, maps)) == Run(t + [rest[0]], Halted)
  {
    ReplaySnoc(mem0, t, rest[0]);
    if Granted(env, rest[0], maps) && !rest[0].Yield? {
      ExecGranted(env, rest, maps);
      PrependTwice(t, [rest[0]], Exec(env, rest[1..], maps + MapInc(rest[0])));
    }
  }

  /** The remainder from position `k` on is its first step followed by the remainder from `k + 1`. */
  lemma SplitNext(s: seq<Step>, k: nat, tail: seq<Step>)
    requires k < |s|
    ensures s[k..] + tail == [s[k]] + (s[k + 1..] + tail)
  {
    assert s[k..] == [s[k]] + s[k + 1..];
  }

  /** A store the plan expects next. */
  method WriteStep(m: Machine, addr: u32, value: u32,
                   ghost plan: seq<Step>, ghost tail: seq<Step>, ghost mem0: map<u32, u32>)
    requires addr % WORD_SIZE == 0
    requires Pending(m, plan, [Store(addr, value)] + tail, mem0)
    modifies m
    ensures Pending(m, plan, tail, mem0)
    ensures m.mem == old(m.mem)[addr := value]
    ensures m.allocs == old(m.allocs) && m.maps == old(m.maps)
  {
    ghost var t := m.trace;
    m.Write(addr, value);
    Advance(m.env, mem0, t, [Store(addr, value)] + tail, m.maps);
    assert ([Store(addr, value)] + tail)[1..] == tail;
  }

  /** A page allocation the plan expects next: the allocator's next answer. */
  method AllocStep(m: Machine, ghost plan: seq<Step>, ghost tail: seq<Step>, ghost mem0: map<u32, u32>)
    returns (page: u32)
    requires Pending(m, plan, [AllocPage(m.env.page(m.allocs))] + tail, mem0)
    modifies m
    ensures page == m.env.page(old(m.allocs))
    ensures Pending(m, plan, tail, mem0)
    ensures m.allocs == old(m.allocs) + 1 && m.maps == old(m.maps)
  {
    ghost var t, rest := m.trace, [AllocPage(m.env.page(m.allocs))] + tail;
    page := m.AllocPageCall();
    Advance(m.env, mem0, t, rest, m.maps);
    assert rest[1..] == tail;
  }

  /** A page mapping the plan expects next; a refusal completes the run. */
  method MapStep(m: Machine, phys: u32, pd: u32, vaddr: u32,
                 ghost plan: seq<Step>, ghost tail: seq<Step>, ghost mem0: map<u32, u32>)
    returns (ok: bool)
    requires Pending(m, plan, [MapPage(phys, pd, vaddr)] + tail, mem0)
    modifies m
    ensures ok == m.env.mapOk(old(m.maps))
    ensures ok ==> Pending(m, plan, tail, mem0)
    ensures !ok ==> Refused(m, plan, mem0)
    ensures m.allocs == old(m.allocs) && m.maps == old(m.maps) + 1
  {
    ghost var t, km, rest := m.trace, m.maps, [MapPage(phys, pd, vaddr)] + tail;
    ok := m.MapPageCall(phys, pd, vaddr);
    Advance(m.env, mem0, t, rest, km);
    assert rest[1..] == tail;
  }

  /** `Pip_InitPaging` where the plan expects it; a refusal completes the run. */
  method InitPagingStep(m: Machine, membegin: u32, memend: u32,
                        ghost plan: seq<Step>, ghost tail: seq<Step>, ghost mem0: map<u32, u32>)
    returns (ok: bool)
    requires Pending(m, plan, [InitPaging(membegin, memend)] + tail, mem0)
    modifies m
    ensures ok == m.env.pagingOk
    ensures ok ==> Pending(m, plan, tail, mem0)
    ensures !ok ==> Refused(m, plan, mem0)
    ensures m.allocs == old(m.allocs) && m.maps == old(m.maps)
  {
    ghost var t, km, rest := m.trace, m.maps, [InitPaging(membegin, memend)] + tail;
    ok := m.InitPagingCall(membegin, memend);
    Advance(m.env, mem0, t, rest, km);
    assert rest[1..] == tail;
  }

  /** `Pip_CreatePartition` where the plan expects it; a refusal completes the run. */
  method CreateStep(m: Machine, pd: u32, pdt: u32, sh1: u32, sh2: u32, sh3: u32,
                    ghost plan: seq<Step>, ghost tail: seq<Step>, ghost mem0: map<u32, u32>)
    returns (ok: bool)
    requires Pending(m, plan, [CreatePartition(pd, pdt, sh1, sh2, sh3)] + tail, mem0)
    modifies m
    ensures ok == m.env.createOk
    ensures ok ==> Pending(m, plan, tail, mem0)
    ensures !ok ==> Refused(m, plan, mem0)
    ensures m.allocs == old(m.allocs) && m.maps == old(m.maps)
  {
    ghost var t, km, rest := m.trace, m.maps, [CreatePartition(pd, pdt, sh1, sh2, sh3)] + tail;
    ok := m.CreatePartitionCall(pd, pdt, sh1, sh2, sh3);
    Advance(m.env, mem0, t, rest, km);
    assert rest[1..] == tail;
  }

  /** `PANIC()` after a refusal: the run is complete. */
  method PanicStep(m: Machine, ghost plan: seq<Step>, ghost mem0: map<u32, u32>)
    requires Refused(m, plan, mem0)
    modifies m
    ensures Finished(m, plan, mem0) && m.status == Halted
    ensures m.allocs == old(m.allocs) && m.maps == old(m.maps)
  {
    m.Panic();
  }

  /**
   * The yield that ends the plan, then `PANIC()` if it ever comes back: the
   * run is complete either way.
   */
  method YieldStep(m: Machine, target: u32, vint: u32, saveIndex: u32, flagsOnYield: u32, flagsOnWake: u32,
                   ghost plan: seq<Step>, ghost mem0: map<u32, u32>)
    requires Pending(m, plan, [Yield(target, vint, saveIndex, flagsOnYield, flagsOnWake)], mem0)
    modifies m
    ensures Finished(m, plan, mem0)
    ensures m.status == if m.env.yieldReturns then Halted else Transferred
  {
    ghost var t, km := m.trace, m.maps;
    ghost var rest := [Yield(target, vint, saveIndex, flagsOnYield, flagsOnWake)];
    m.YieldCall(target, vint, saveIndex, flagsOnYield, flagsOnWake);
    Advance(m.env, mem0, t, rest, km);
    if m.status == Transferred {
      return;
    }
    m.Panic();
  }
}

/**
 * The entry point of the root partition: save the root's own context in its
 * VIDT, check the boot information, create the child partition, map the
 * child's code, stack and VIDT, build the child's first context and yield to
 * it. Every failure ends in `PANIC()`.
 */
module RootPartition {
  import opened Launcher
  import opened PipApi
  import opened PlanSteps

  /** Where the child image is loaded and where the child starts. */
  const CHILD_LOAD_ADDR: u32 := 0x700000

  /** The flags register value the child starts with. */
  const CHILD_EFLAGS: u32 := 0x2

  /** The VIDT slots through which the root saves its own context. */
  const ROOT_SAVE_SLOT: u32 := 48
  const ROOT_SAVE_SLOT_ALT: u32 := 49

  /** The VIDT slot at which a partition is resumed by default. */
  const RESUME_SLOT: u32 := 0

  /** The root's setup context, just below its initial stack top. */
  const SETUP_CONTEXT: u32 := INITIAL_STACK_TOP - SIZEOF_USER_CTX

  /** The child's first context, at the top of the stack-top page. */
  const CHILD_CONTEXT: u32 := INITIAL_STACK_TOP + PAGE_SIZE - SIZEOF_USER_CTX

  /** Longest child image for which the mapping loop's offset cannot wrap. */
  const MAX_IMAGE_LENGTH: nat := WORD_RANGE - PAGE_SIZE

  /**
   * The root's setup context ends at its stack top, and the two VIDT slots
   * that receive it lie inside the VIDT page.
   */
  lemma SetupContextLayout()
    ensures SETUP_CONTEXT == 0xffffdfc0 && SETUP_CONTEXT + SIZEOF_USER_CTX == INITIAL_STACK_TOP
    ensures VidtSlot(ROOT_SAVE_SLOT) == 0xfffff0c0 && VidtSlot(ROOT_SAVE_SLOT_ALT) == 0xfffff0c4
  {
  }

  /**
   * The child's context fills the last 64 bytes of the stack-top page, right
   * below the VIDT; the load address is page aligned.
   */
  lemma ChildContextLayout()
    ensures CHILD_CONTEXT == 0xffffefc0 && INITIAL_STACK_TOP < CHILD_CONTEXT
    ensures CHILD_CONTEXT + SIZEOF_USER_CTX == VIDT_ADDR
    ensures CHILD_LOAD_ADDR % PAGE_SIZE == 0
  {
  }

  /** Number of code pages the mapping loop visits: the image length rounded up. */
  function PageCount(length: nat): nat {
    (length + PAGE_SIZE - 1) / PAGE_SIZE
  }

  /** The loop test `offset < length` at `offset == k * PAGE_SIZE` holds for exactly the first `PageCount(length)` values of `k`. */
  lemma LoopBound(length: nat, k: nat)
    ensures k * PAGE_SIZE < length <==> k < PageCount(length)
  {
    var n := PageCount(length);
    assert n * PAGE_SIZE <= length + PAGE_SIZE - 1 < (n + 1) * PAGE_SIZE;
    if k < n {
      assert k * PAGE_SIZE <= (n - 1) * PAGE_SIZE;
    } else {
      assert k * PAGE_SIZE >= n * PAGE_SIZE;
    }
  }

  /** Below the longest image, stepping the loop offset by a page does not wrap. */
  lemma NextOffset(length: nat, k: nat)
    requires k * PAGE_SIZE < length <= MAX_IMAGE_LENGTH
    ensures Add32(k * PAGE_SIZE, PAGE_SIZE) == (k + 1) * PAGE_SIZE
  {
  }

  /**
   * The map call for the code page at `offset` into the image, `start +
   * offset` to `0x700000 + offset` in 32-bit arithmetic: a page-aligned
   * offset gives a page-aligned child address, and a page-aligned source
   * page too when the image starts on a page.
   */
  function CodeMap(start: u32, pd: u32, offset: u32): (s: Step)
    ensures s.MapPage? && s.pd == pd
    ensures offset % PAGE_SIZE == 0 ==> s.vaddr % PAGE_SIZE == 0
    ensures offset % PAGE_SIZE == 0 && start % PAGE_SIZE == 0 ==> s.phys % PAGE_SIZE == 0
  {
    MapPage(Add32(start, offset), pd, Add32(CHILD_LOAD_ADDR, offset))
  }

  /** The map calls of the code loop, one per page offset below `length`. */
  function CodeMaps(start: u32, length: u32, pd: u32): (cm: seq<Step>)
    ensures |cm| == PageCount(length)
    ensures forall j :: 0 <= j < |cm| ==> cm[j].MapPage?
  {
    seq(PageCount(length), k requires 0 <= k < PageCount(length) =>
      LoopBound(length, k); CodeMap(start, pd, k * PAGE_SIZE))
  }

  /** `vidtPage[0]->f = value` once `vidtPage[0]` holds `CHILD_CONTEXT`. */
  function CtxStore(f: CtxField, value: u32): Step {
    Store(CHILD_CONTEXT + FieldOffset(f), value)
  }

  /**
   * The child's first context, field by field: seven word stores inside the
   * record, `valid` cleared by the first and set by the last, and no store
   * in between touching `valid`.
   */
  function ContextWrites(): (w: seq<Step>)
    ensures |w| == 7 && forall j :: 0 <= j < |w| ==> w[j].Store? && w[j].addr % WORD_SIZE == 0
    ensures forall j :: 0 <= j < |w| ==>
      CHILD_CONTEXT <= w[j].addr && w[j].addr + WORD_SIZE <= CHILD_CONTEXT + SIZEOF_USER_CTX
    ensures w[0] == Store(CHILD_CONTEXT + FieldOffset(Valid), 0)
    ensures w[6] == Store(CHILD_CONTEXT + FieldOffset(Valid), 1)
    ensures forall j :: 0 < j < 6 ==> w[j].addr != CHILD_CONTEXT + FieldOffset(Valid)
  {
    [ CtxStore(Valid, 0),
      CtxStore(Eip, CHILD_LOAD_ADDR),
      CtxStore(Pipflags, 0),
      CtxStore(Eflags, CHILD_EFLAGS),
      CtxStore(Esp, CHILD_CONTEXT),
      CtxStore(Ebx, BOOTINFO_ADDR),
      CtxStore(Valid, 1) ]
  }

  function SaveRootContext(): seq<Step> {
    [Store(VidtSlot(ROOT_SAVE_SLOT), SETUP_CONTEXT), Store(VidtSlot(ROOT_SAVE_SLOT_ALT), SETUP_CONTEXT)]
  }

  function Validation(info: BootInfo): seq<Step> {
    [CheckMagic(info.magic), InitPaging(info.membegin, info.memend)]
  }

  function PartitionPages(env: Env): seq<Step> {
    [AllocPage(env.page(0)), AllocPage(env.page(1)), AllocPage(env.page(2)),
     AllocPage(env.page(3)), AllocPage(env.page(4))]
  }

  function Creation(env: Env): Step {
    CreatePartition(env.page(0), env.page(1), env.page(2), env.page(3), env.page(4))
  }

  function StackSetup(env: Env): seq<Step> {
    [AllocPage(env.page(5)), MapPage(env.page(5), env.page(0), INITIAL_STACK_TOP)]
  }

  function VidtSetup(env: Env): seq<Step> {
    [AllocPage(env.page(6)), Store(env.page(6), CHILD_CONTEXT)] + ContextWrites()
  }

  function VidtMap(env: Env): Step {
    MapPage(env.page(6), env.page(0), VIDT_ADDR)
  }

  function ChildYield(env: Env): Step {
    Yield(env.page(0), RESUME_SLOT, ROOT_SAVE_SLOT_ALT, 0, 0)
  }

  /** The last two calls: the VIDT map and the yield to the child. */
  function HandOffSteps(env: Env): seq<Step> {
    [VidtMap(env), ChildYield(env)]
  }

  /** The steps main issues once the stack page is mapped. */
  function AfterStack(env: Env): seq<Step> {
    VidtSetup(env) + HandOffSteps(env)
  }

  /** The steps main issues once the image is mapped. */
  function AfterImage(env: Env): seq<Step> {
    StackSetup(env) + AfterStack(env)
  }

  /** The code loop's map calls for the image between `start` and `end`. */
  function ChildImage(env: Env, start: u32, end: u32): seq<Step> {
    CodeMaps(start, Sub32(end, start), env.page(0))
  }

  /** The steps main issues once the child partition exists. */
  function AfterCreation(env: Env, start: u32, end: u32): seq<Step> {
    ChildImage(env, start, end) + AfterImage(env)
  }

  /** The steps main issues once the boot information has been accepted. */
  function AfterValidation(env: Env, start: u32, end: u32): seq<Step> {
    (PartitionPages(env) + [Creation(env)]) + AfterCreation(env, start, end)
  }

  /** Everything main does, in order, when nothing is refused. */
  function Plan(env: Env, info: BootInfo, start: u32, end: u32): seq<Step> {
    SaveRootContext() + (Validation(info) + AfterValidation(env, start, end))
  }

  /** Everything up to and including `Pip_CreatePartition`. */
  function Created(env: Env, info: BootInfo): seq<Step> {
    SaveRootContext() + Validation(info) + PartitionPages(env) + [Creation(env)]
  }

  /**
   * The plan has 23 steps and one map call per code page. It begins with the
   * two VIDT stores, the magic test and the paging call, and it ends with the
   * yield, the only yield in it.
   */
  lemma PlanOrder(env: Env, info: BootInfo, start: u32, end: u32)
    ensures var p := Plan(env, info, start, end);
      && |p| == 23 + PageCount(Sub32(end, start))
      && p[0] == Store(VidtSlot(ROOT_SAVE_SLOT), SETUP_CONTEXT)
      && p[1] == Store(VidtSlot(ROOT_SAVE_SLOT_ALT), SETUP_CONTEXT)
      && p[2] == CheckMagic(info.magic) && p[3] == InitPaging(info.membegin, info.memend)
      && p[|p| - 1] == Yield(env.page(0), RESUME_SLOT, ROOT_SAVE_SLOT_ALT, 0, 0)
      && forall j :: 0 <= j < |p| - 1 ==> !p[j].Yield?
  {
    var p := Plan(env, info, start, end);
    var code := ChildImage(env, start, end);
    var head := SaveRootContext() + Validation(info) + (PartitionPages(env) + [Creation(env)]);
    var tail := StackSetup(env) + VidtSetup(env) + [VidtMap(env)];
    PlanSplit(env, info, start, end, head, tail);
    var body := head + code + tail;
    assert p[0] == head[0] && p[1] == head[1] && p[2] == head[2] && p[3] == head[3];
    assert forall j :: 0 <= j < |tail| ==> !tail[j].Yield?;
    NoYieldJoin(head, code, tail);
    assert forall j :: 0 <= j < |p| - 1 ==> p[j] == body[j];
  }

  /** The plan cut at the code loop and before the yield. */
  lemma PlanSplit(env: Env, info: BootInfo, start: u32, end: u32, head: seq<Step>, tail: seq<Step>)
    requires head == SaveRootContext() + Validation(info) + (PartitionPages(env) + [Creation(env)])
    requires tail == StackSetup(env) + VidtSetup(env) + [VidtMap(env)]
    ensures Plan(env, info, start, end) == head + ChildImage(env, start, end) + tail + [ChildYield(env)]
  {
    var code := ChildImage(env, start, end);
    assert AfterImage(env) == tail + [ChildYield(env)];
    assert AfterValidation(env, start, end) == (PartitionPages(env) + [Creation(env)]) + (code + tail + [ChildYield(env)]);
  }

  /** Three blocks without a yield make a block without a yield. */
  lemma NoYieldJoin(a: seq<Step>, b: seq<Step>, c: seq<Step>)
    requires forall j :: 0 <= j < |a| ==> !a[j].Yield?
    requires forall j :: 0 <= j < |b| ==> b[j].MapPage?
    requires forall j :: 0 <= j < |c| ==> !c[j].Yield?
    ensures forall j :: 0 <= j < |a + b + c| ==> !(a + b + c)[j].Yield?
  {
  }

  /** The allocations and the creation call, one step at a time. */
  lemma CreationUnrolled(env: Env, tail: seq<Step>)
    ensures PartitionPages(env) + [Creation(env)] + tail
      == [AllocPage(env.page(0))] + ([AllocPage(env.page(1))] + ([AllocPage(env.page(2))] +
         ([AllocPage(env.page(3))] + ([AllocPage(env.page(4))] + ([Creation(env)] + tail)))))
  {
  }

  /** The VIDT page, its entry 0 and the context stores, one step at a time. */
  lemma VidtSetupUnrolled(env: Env, tail: seq<Step>)
    ensures VidtSetup(env) + tail
      == [AllocPage(env.page(6))] + ([Store(env.page(6), CHILD_CONTEXT)] +
         ([CtxStore(Valid, 0)] + ([CtxStore(Eip, CHILD_LOAD_ADDR)] + ([CtxStore(Pipflags, 0)] +
         ([CtxStore(Eflags, CHILD_EFLAGS)] + ([CtxStore(Esp, CHILD_CONTEXT)] +
         ([CtxStore(Ebx, BOOTINFO_ADDR)] + ([CtxStore(Valid, 1)] + tail))))))))
  {
  }

  /** An address strictly inside the stack-top page is not a page boundary. */
  lemma InsideStackPage(a: int)
    requires INITIAL_STACK_TOP < a < INITIAL_STACK_TOP + PAGE_SIZE
    ensures a % PAGE_SIZE != 0
  {
  }

  /** `printBootInfo`: a wrong magic number ends in `PANIC()`. */
  method PrintBootInfo(m: Machine, info: BootInfo)
    requires m.status == Running
    modifies m
    ensures m.trace == old(m.trace) + [CheckMagic(info.magic)]
    ensures m.status == if info.magic == m.env.fpinfoMagic then Running else Halted
    ensures m.mem == old(m.mem) && m.allocs == old(m.allocs) && m.maps == old(m.maps)
  {
    var ok := m.CheckBootMagic(info.magic);
    if !ok {
      m.Panic();
    }
  }

  /** `vidtPage[0]->f = value`: the context pointer is read again from the VIDT page. */
  method StoreCtxField(m: Machine, vidtPage: u32, f: CtxField, value: u32)
    requires m.status == Running
    requires vidtPage in m.mem && m.mem[vidtPage] % WORD_SIZE == 0
    modifies m
    ensures m.trace == old(m.trace) + [Store(Add32(old(m.mem[vidtPage]), FieldOffset(f)), value)]
    ensures m.mem == old(m.mem)[Add32(old(m.mem[vidtPage]), FieldOffset(f)) := value]
    ensures m.allocs == old(m.allocs) && m.maps == old(m.maps) && m.status == old(m.status)
  {
    var ctx := m.mem[vidtPage];
    m.Write(Add32(ctx, FieldOffset(f)), value);
  }

  /** `vidtPage[0]->f = value` at the point of the plan where that store is expected. */
  method CtxFieldStep(m: Machine, vidtPage: u32, f: CtxField, value: u32,
                      ghost plan: seq<Step>, ghost tail: seq<Step>, ghost mem0: map<u32, u32>)
    requires vidtPage % PAGE_SIZE == 0 && vidtPage in m.mem && m.mem[vidtPage] == CHILD_CONTEXT
    requires Pending(m, plan, [CtxStore(f, value)] + tail, mem0)
    modifies m
    ensures Pending(m, plan, tail, mem0)
    ensures vidtPage in m.mem && m.mem[vidtPage] == CHILD_CONTEXT
    ensures m.allocs == old(m.allocs) && m.maps == old(m.maps)
  {
    ghost var t, rest := m.trace, [CtxStore(f, value)] + tail;
    ghost var addr := CHILD_CONTEXT + FieldOffset(f);
    assert Add32(CHILD_CONTEXT, FieldOffset(f)) == addr;
    InsideStackPage(addr);
    StoreCtxField(m, vidtPage, f, value);
    assert m.trace == t + [rest[0]];
    Advance(m.env, mem0, t, rest, m.maps);
    assert rest[1..] == tail;
  }

  /** Lines 112-117 of main: the setup context goes to VIDT slots 48 and 49. */
  method SaveSetupContext(m: Machine, ghost plan: seq<Step>, ghost tail: seq<Step>, ghost mem0: map<u32, u32>)
    requires Pending(m, plan, SaveRootContext() + tail, mem0)
    modifies m
    ensures Pending(m, plan, tail, mem0)
    ensures m.allocs == old(m.allocs) && m.maps == old(m.maps)
  {
    var setupContext: u32 := SETUP_CONTEXT;
    ghost var r1 := [Store(VidtSlot(ROOT_SAVE_SLOT_ALT), setupContext)] + tail;
    assert SaveRootContext() + tail == [Store(VidtSlot(ROOT_SAVE_SLOT), setupContext)] + r1;
    WriteStep(m, VidtSlot(ROOT_SAVE_SLOT), setupContext, plan, r1, mem0);
    WriteStep(m, VidtSlot(ROOT_SAVE_SLOT_ALT), setupContext, plan, tail, mem0);
  }

  /** Lines 124-134 of main: the boot information test and `Pip_InitPaging`. */
  method CheckAndInitPaging(m: Machine, info: BootInfo, ghost plan: seq<Step>, ghost tail: seq<Step>,
                            ghost mem0: map<u32, u32>)
    requires Pending(m, plan, Validation(info) + tail, mem0)
    modifies m
    ensures m.status == Halted ==> Finished(m, plan, mem0)
    ensures m.status != Halted ==> Pending(m, plan, tail, mem0)
    ensures m.allocs == old(m.allocs) && m.maps == old(m.maps)
  {
    ghost var rest := Validation(info) + tail;
    ghost var t, km := m.trace, m.maps;
    PrintBootInfo(m, info);
    Advance(m.env, mem0, t, rest, km);
    if m.status == Halted {
      return;
    }
    assert rest[1..] == [InitPaging(info.membegin, info.memend)] + tail;
    var pagingOk := InitPagingStep(m, info.membegin, info.memend, plan, tail, mem0);
    if !pagingOk {
      PanicStep(m, plan, mem0);
      return;
    }
  }

  /** Lines 136-147 of main: five fresh pages and `Pip_CreatePartition`. */
  method CreateChild(m: Machine, ghost plan: seq<Step>, ghost tail: seq<Step>, ghost mem0: map<u32, u32>)
    returns (pd: u32)
    requires m.allocs == 0
    requires Pending(m, plan, PartitionPages(m.env) + [Creation(m.env)] + tail, mem0)
    modifies m
    ensures m.status == Halted ==> Finished(m, plan, mem0)
    ensures m.status != Halted ==> Pending(m, plan, tail, mem0)
    ensures pd == m.env.page(0) && m.allocs == 5 && m.maps == old(m.maps)
  {
    ghost var env := m.env;
    ghost var r5 := [Creation(env)] + tail;
    ghost var r4 := [AllocPage(env.page(4))] + r5;
    ghost var r3 := [AllocPage(env.page(3))] + r4;
    ghost var r2 := [AllocPage(env.page(2))] + r3;
    ghost var r1 := [AllocPage(env.page(1))] + r2;
    CreationUnrolled(env, tail);
    pd := AllocStep(m, plan, r1, mem0);
    var rtospd := AllocStep(m, plan, r2, mem0);
    var rtossh1 := AllocStep(m, plan, r3, mem0);
    var rtossh2 := AllocStep(m, plan, r4, mem0);
    var rtossh3 := AllocStep(m, plan, r5, mem0);
    var created := CreateStep(m, pd, rtospd, rtossh1, rtossh2, rtossh3, plan, tail, mem0);
    if !created {
      PanicStep(m, plan, mem0);
      return;
    }
  }

  /** Lines 149-159 of main: one map call per page offset below the image length. */
  method MapChildImage(m: Machine, pd: u32, start: u32, end: u32,
                       ghost plan: seq<Step>, ghost tail: seq<Step>, ghost mem0: map<u32, u32>)
    requires Sub32(end, start) <= MAX_IMAGE_LENGTH
    requires Pending(m, plan, CodeMaps(start, Sub32(end, start), pd) + tail, mem0)
    requires m.maps == 0
    modifies m
    ensures m.status == Halted ==> Finished(m, plan, mem0)
    ensures m.status != Halted ==> Pending(m, plan, tail, mem0)
    ensures m.status != Halted ==> m.maps == PageCount(Sub32(end, start))
    ensures m.allocs == old(m.allocs)
  {
    var length := Sub32(end, start);
    ghost var code := CodeMaps(start, length, pd);
    var offset: u32 := 0;
    ghost var k: nat := 0;
    while offset < length
      invariant offset == k * PAGE_SIZE
      invariant k <= |code|
      invariant Pending(m, plan, code[k..] + tail, mem0)
      invariant m.allocs == old(m.allocs) && m.maps == k
      decreases length - offset
    {
      LoopBound(length, k);
      SplitNext(code, k, tail);
      assert code[k] == CodeMap(start, pd, offset);
      var mapped := MapStep(m, Add32(start, offset), pd, Add32(CHILD_LOAD_ADDR, offset),
                            plan, code[k + 1..] + tail, mem0);
      if !mapped {
        PanicStep(m, plan, mem0);
        return;
      }
      NextOffset(length, k);
      k := k + 1;
      offset := Add32(offset, PAGE_SIZE);
    }
    LoopBound(length, k);
    assert code[k..] + tail == tail;
  }

  /** Lines 161-169 of main: the stack page, mapped at the stack top. */
  method MapChildStack(m: Machine, pd: u32, ghost plan: seq<Step>, ghost tail: seq<Step>,
                       ghost mem0: map<u32, u32>)
    requires m.allocs == 5 && pd == m.env.page(0)
    requires Pending(m, plan, StackSetup(m.env) + tail, mem0)
    modifies m
    ensures m.status == Halted ==> Finished(m, plan, mem0)
    ensures m.status != Halted ==> Pending(m, plan, tail, mem0)
    ensures m.allocs == 6 && m.maps == old(m.maps) + 1
  {
    ghost var env := m.env;
    ghost var r1 := [MapPage(env.page(5), pd, INITIAL_STACK_TOP)] + tail;
    assert StackSetup(env) + tail == [AllocPage(env.page(5))] + r1;
    var stackPage := AllocStep(m, plan, r1, mem0);
    var stackMapped := MapStep(m, stackPage, pd, INITIAL_STACK_TOP, plan, tail, mem0);
    if !stackMapped {
      PanicStep(m, plan, mem0);
      return;
    }
  }

  /**
   * Lines 171-182 of main: the VIDT page, its entry 0 pointing at the
   * child's context, and that context's fields.
   */
  method BuildChildVidt(m: Machine, ghost plan: seq<Step>, ghost tail: seq<Step>, ghost mem0: map<u32, u32>)
    returns (vidtPage: u32)
    requires m.allocs == 6 && PagesAligned(m.env)
    requires Pending(m, plan, VidtSetup(m.env) + tail, mem0)
    modifies m
    ensures Pending(m, plan, tail, mem0)
    ensures vidtPage == m.env.page(6) && m.allocs == 7 && m.maps == old(m.maps)
  {
    ghost var env := m.env;
    var stack: u32 := CHILD_CONTEXT;
    ghost var r8 := [CtxStore(Valid, 1)] + tail;
    ghost var r7 := [CtxStore(Ebx, BOOTINFO_ADDR)] + r8;
    ghost var r6 := [CtxStore(Esp, stack)] + r7;
    ghost var r5 := [CtxStore(Eflags, CHILD_EFLAGS)] + r6;
    ghost var r4 := [CtxStore(Pipflags, 0)] + r5;
    ghost var r3 := [CtxStore(Eip, CHILD_LOAD_ADDR)] + r4;
    ghost var r2 := [CtxStore(Valid, 0)] + r3;
    ghost var r1 := [Store(env.page(6), stack)] + r2;
    VidtSetupUnrolled(env, tail);
    vidtPage := AllocStep(m, plan, r1, mem0);
    WriteStep(m, vidtPage, stack, plan, r2, mem0);
    CtxFieldStep(m, vidtPage, Valid, 0, plan, r3, mem0);
    CtxFieldStep(m, vidtPage, Eip, CHILD_LOAD_ADDR, plan, r4, mem0);
    CtxFieldStep(m, vidtPage, Pipflags, 0, plan, r5, mem0);
    CtxFieldStep(m, vidtPage, Eflags, CHILD_EFLAGS, plan, r6, mem0);
    CtxFieldStep(m, vidtPage, Esp, stack, plan, r7, mem0);
    CtxFieldStep(m, vidtPage, Ebx, BOOTINFO_ADDR, plan, r8, mem0);
    CtxFieldStep(m, vidtPage, Valid, 1, plan, tail, mem0);
  }

  /**
   * Lines 184-195 of main: map the VIDT page into the child, yield to it,
   * and `PANIC()` if the yield ever comes back.
   */
  method HandOff(m: Machine, vidtPage: u32, pd: u32, ghost plan: seq<Step>, ghost mem0: map<u32, u32>)
    requires Pending(m, plan, [MapPage(vidtPage, pd, VIDT_ADDR), Yield(pd, RESUME_SLOT, ROOT_SAVE_SLOT_ALT, 0, 0)], mem0)
    modifies m
    ensures Finished(m, plan, mem0)
  {
    ghost var lastStep := [Yield(pd, RESUME_SLOT, ROOT_SAVE_SLOT_ALT, 0, 0)];
    assert [MapPage(vidtPage, pd, VIDT_ADDR), Yield(pd, RESUME_SLOT, ROOT_SAVE_SLOT_ALT, 0, 0)]
      == [MapPage(vidtPage, pd, VIDT_ADDR)] + lastStep;
    var vidtMapped := MapStep(m, vidtPage, pd, VIDT_ADDR, plan, lastStep, mem0);
    if !vidtMapped {
      PanicStep(m, plan, mem0);
      return;
    }
    YieldStep(m, pd, RESUME_SLOT, ROOT_SAVE_SLOT_ALT, 0, 0, plan, mem0);
  }

  /**
   * `main`: `start` and `end` are the linker symbols bounding the child
   * image. The run is exactly the plan carried out up to its first refusal,
   * and root memory holds what its stores wrote.
   */
  method RootMain(m: Machine, info: BootInfo, start: u32, end: u32)
    requires m.trace == [] && m.status == Running && m.allocs == 0 && m.maps == 0
    requires PagesAligned(m.env)
    requires Sub32(end, start) <= MAX_IMAGE_LENGTH
    modifies m
    ensures Run(m.trace, m.status) == Exec(m.env, Plan(m.env, info, start, end), 0)
    ensures m.mem == Replay(old(m.mem), m.trace)
  {
    ghost var env := m.env;
    ghost var mem0 := m.mem;
    ghost var plan := Plan(env, info, start, end);
    ghost var handoff := HandOffSteps(env);
    ghost var afterStack := AfterStack(env);
    ghost var afterCode := AfterImage(env);
    ghost var afterCreate := AfterCreation(env, start, end);
    ghost var afterCheck := AfterValidation(env, start, end);
    ghost var afterSave := Validation(info) + afterCheck;
    assert Prepend([], Exec(env, plan, 0)) == Exec(env, plan, 0);

    SaveSetupContext(m, plan, afterSave, mem0);
    CheckAndInitPaging(m, info, plan, afterCheck, mem0);
    if m.status == Halted {
      return;
    }
    var pd := CreateChild(m, plan, afterCreate, mem0);
    if m.status == Halted {
      return;
    }
    MapChildImage(m, pd, start, end, plan, afterCode, mem0);
    if m.status == Halted {
      return;
    }
    MapChildStack(m, pd, plan, afterStack, mem0);
    if m.status == Halted {
      return;
    }
    var vidtPage := BuildChildVidt(m, plan, handoff, mem0);
    HandOff(m, vidtPage, pd, plan, mem0);
  }
}

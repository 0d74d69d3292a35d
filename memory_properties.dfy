/**
 * What main leaves in root memory: the two VIDT slots through which the root
 * saves its own context, the child's VIDT entry 0, and the child's first
 * context, whose `valid` flag is cleared before and set after its fields.
 */
module MemoryProperties {
  import opened Launcher
  import opened PipApi
  import opened RootPartition
  import opened BootProperties

  /** The child's first context as main writes it over whatever `c` held. */
  function ChildContext(c: UserCtx): (d: UserCtx)
    ensures d.valid == 1 && d.eip == CHILD_LOAD_ADDR && d.pipflags == 0 && d.eflags == CHILD_EFLAGS
    ensures d.regs.esp == CHILD_CONTEXT && d.regs.ebx == BOOTINFO_ADDR
    ensures forall f :: f !in {Valid, Eip, Pipflags, Eflags, Esp, Ebx} ==> Get(d, f) == Get(c, f)
  {
    c.(eip := CHILD_LOAD_ADDR, pipflags := 0, eflags := CHILD_EFLAGS,
       regs := c.regs.(esp := CHILD_CONTEXT, ebx := BOOTINFO_ADDR), valid := 1)
  }

  /** Memory once slots 48 and 49 of the root's VIDT point at the setup context. */
  function SavedMemory(mem0: map<u32, u32>): map<u32, u32> {
    mem0[VidtSlot(ROOT_SAVE_SLOT) := SETUP_CONTEXT][VidtSlot(ROOT_SAVE_SLOT_ALT) := SETUP_CONTEXT]
  }

  /** `mem` with the child's context fields written in main's order, word by word. */
  function ContextImage(mem: map<u32, u32>): map<u32, u32> {
    mem[CHILD_CONTEXT + 44 := 0][CHILD_CONTEXT := CHILD_LOAD_ADDR][CHILD_CONTEXT + 4 := 0]
       [CHILD_CONTEXT + 8 := CHILD_EFLAGS][CHILD_CONTEXT + 24 := CHILD_CONTEXT]
       [CHILD_CONTEXT + 28 := BOOTINFO_ADDR][CHILD_CONTEXT + 44 := 1]
  }

  /** Memory once the child's VIDT page and its first context are written as well. */
  function BootMemory(env: Env, mem0: map<u32, u32>): map<u32, u32> {
    ContextImage(SavedMemory(mem0)[env.page(6) := CHILD_CONTEXT])
  }

  /** Whether main gets past the stack map to the child's VIDT. */
  predicate ReachesVidt(env: Env, info: BootInfo, start: u32, end: u32) {
    && info.magic == env.fpinfoMagic && env.pagingOk && env.createOk
    && forall j :: 0 <= j <= |ChildImage(env, start, end)| ==> env.mapOk(j)
  }

  /** Root memory at the end of main. */
  function FinalMemory(env: Env, info: BootInfo, start: u32, end: u32, mem0: map<u32, u32>): map<u32, u32> {
    if ReachesVidt(env, info, start, end) then BootMemory(env, mem0) else SavedMemory(mem0)
  }

  /** Replaying the seven context stores writes the words of `ContextImage`, the last `valid` store winning. */
  lemma ContextWritesMemory(mem: map<u32, u32>)
    ensures Replay(mem, ContextWrites()) == ContextImage(mem)
  {
    var s0, s1, s2 := CtxStore(Valid, 0), CtxStore(Eip, CHILD_LOAD_ADDR), CtxStore(Pipflags, 0);
    var s3, s4 := CtxStore(Eflags, CHILD_EFLAGS), CtxStore(Esp, CHILD_CONTEXT);
    var s5, s6 := CtxStore(Ebx, BOOTINFO_ADDR), CtxStore(Valid, 1);
    var t1, t2, t3 := [s0], [s0, s1], [s0, s1, s2];
    var t4, t5, t6 := t3 + [s3], t3 + [s3, s4], t3 + [s3, s4, s5];
    var p0: seq<Step> := [];
    assert p0 + [s0] == t1;
    ReplaySnoc(mem, p0, s0);
    var m1 := Replay(mem, t1);
    assert t1 + [s1] == t2;
    ReplaySnoc(mem, t1, s1);
    var m2 := Replay(mem, t2);
    assert m2 == m1[CHILD_CONTEXT := CHILD_LOAD_ADDR];
    assert t2 + [s2] == t3;
    ReplaySnoc(mem, t2, s2);
    var m3 := Replay(mem, t3);
    assert m3 == m2[CHILD_CONTEXT + 4 := 0];
    assert t3 + [s3] == t4;
    ReplaySnoc(mem, t3, s3);
    var m4 := Replay(mem, t4);
    assert m4 == m3[CHILD_CONTEXT + 8 := CHILD_EFLAGS];
    assert t4 + [s4] == t5;
    ReplaySnoc(mem, t4, s4);
    var m5 := Replay(mem, t5);
    assert m5 == m4[CHILD_CONTEXT + 24 := CHILD_CONTEXT];
    assert t5 + [s5] == t6;
    ReplaySnoc(mem, t5, s5);
    assert t6 + [s6] == ContextWrites();
    ReplaySnoc(mem, t6, s6);
  }

  /**
   * While the child's context is being written its `valid` flag reads 0:
   * after the first store and every store but the last; the last sets it.
   */
  lemma {:induction false} ValidClearedUntilLast(mem: map<u32, u32>, i: nat)
    requires 1 <= i <= |ContextWrites()|
    ensures CHILD_CONTEXT + FieldOffset(Valid) in Replay(mem, ContextWrites()[..i])
    ensures Replay(mem, ContextWrites()[..i])[CHILD_CONTEXT + FieldOffset(Valid)]
      == if i == |ContextWrites()| then 1 else 0
  {
    var w := ContextWrites();
    if i == 1 {
      var p0: seq<Step> := [];
      assert p0 + [w[0]] == w[..1];
      ReplaySnoc(mem, p0, w[0]);
    } else {
      ValidClearedUntilLast(mem, i - 1);
      assert w[..i - 1] + [w[i - 1]] == w[..i];
      assert w[i - 1].Store?;
      assert w[i - 1].addr == CHILD_CONTEXT + FieldOffset(Valid) <==> i == |w|;
      ReplaySnoc(mem, w[..i - 1], w[i - 1]);
    }
  }

  /** The first two VIDT stores, replayed. */
  lemma SaveMemory(mem0: map<u32, u32>)
    ensures Replay(mem0, SaveRootContext()) == SavedMemory(mem0)
  {
    var s := SaveRootContext();
    var p0: seq<Step> := [];
    assert p0 + [s[0]] == [s[0]];
    assert [s[0]] + [s[1]] == s;
    ReplaySnoc(mem0, p0, s[0]);
    ReplaySnoc(mem0, [s[0]], s[1]);
  }

  /** Up to the creation call only the two VIDT slots are written. */
  lemma CreatedMemory(env: Env, info: BootInfo, mem0: map<u32, u32>)
    ensures Replay(mem0, Created(env, info)) == SavedMemory(mem0)
  {
    var q := Validation(info) + PartitionPages(env) + [Creation(env)];
    assert Created(env, info) == SaveRootContext() + q;
    assert NoStores(q);
    ReplayPast(mem0, SaveRootContext(), q);
    SaveMemory(mem0);
  }

  /** The VIDT page's allocation and stores, replayed. */
  lemma VidtSetupMemory(env: Env, mem: map<u32, u32>)
    ensures Replay(mem, VidtSetup(env)) == Replay(mem[env.page(6) := CHILD_CONTEXT], ContextWrites())
  {
    var a, s := AllocPage(env.page(6)), Store(env.page(6), CHILD_CONTEXT);
    var p0: seq<Step> := [];
    assert p0 + [a] == [a];
    assert [a] + [s] == [a, s];
    assert VidtSetup(env) == [a, s] + ContextWrites();
    ReplaySnoc(mem, p0, a);
    ReplaySnoc(mem, [a], s);
    ReplayAppend(mem, [a, s], ContextWrites());
  }

  /** A run that halts before the VIDT page leaves the saved slots only. */
  lemma MemoryBefore(env: Env, info: BootInfo, mem0: map<u32, u32>, q: seq<Step>)
    requires NoStores(q)
    ensures Replay(mem0, Created(env, info) + q) == SavedMemory(mem0)
  {
    ReplayPast(mem0, Created(env, info), q);
    CreatedMemory(env, info, mem0);
  }

  /** A run that gets past the VIDT stores leaves the child's context in place. */
  lemma MemoryAfter(env: Env, info: BootInfo, start: u32, end: u32, mem0: map<u32, u32>, q: seq<Step>)
    requires NoStores(q)
    ensures Replay(mem0, Created(env, info) + ChildImage(env, start, end) + StackSetup(env) + VidtSetup(env) + q)
      == BootMemory(env, mem0)
  {
    var before := ChildImage(env, start, end) + StackSetup(env);
    var p := Created(env, info) + ChildImage(env, start, end) + StackSetup(env);
    assert p == Created(env, info) + before;
    assert NoStores(before);
    MemoryBefore(env, info, mem0, before);
    ReplayPast(mem0, p + VidtSetup(env), q);
    ReplayAppend(mem0, p, VidtSetup(env));
    VidtSetupMemory(env, SavedMemory(mem0));
    ContextWritesMemory(SavedMemory(mem0)[env.page(6) := CHILD_CONTEXT]);
  }

  /** The outcome halts before the VIDT page: only the saved slots are written. */
  lemma HaltedEarlyMemory(env: Env, info: BootInfo, start: u32, end: u32, mem0: map<u32, u32>)
    requires !ReachesVidt(env, info, start, end)
    ensures Replay(mem0, Expected(env, info, start, end).trace) == SavedMemory(mem0)
  {
    var code := ChildImage(env, start, end);
    var n := |code|;
    var k := FirstRefused(env.mapOk, 0, n);
    if info.magic != env.fpinfoMagic {
      ReplayPast(mem0, SaveRootContext(), [CheckMagic(info.magic)]);
      SaveMemory(mem0);
    } else if !env.pagingOk {
      ReplayPast(mem0, SaveRootContext(), Validation(info));
      SaveMemory(mem0);
    } else if !env.createOk {
      CreatedMemory(env, info, mem0);
    } else if k < n {
      MemoryBefore(env, info, mem0, code[..k + 1]);
    } else {
      assert !env.mapOk(n);
      assert Created(env, info) + code + StackSetup(env) == Created(env, info) + (code + StackSetup(env));
      MemoryBefore(env, info, mem0, code + StackSetup(env));
    }
  }

  /** The outcome gets past the stack map: the child's VIDT and context are written. */
  lemma ReachedVidtMemory(env: Env, info: BootInfo, start: u32, end: u32, mem0: map<u32, u32>)
    requires ReachesVidt(env, info, start, end)
    ensures Replay(mem0, Expected(env, info, start, end).trace) == BootMemory(env, mem0)
  {
    var n := |ChildImage(env, start, end)|;
    assert FirstRefused(env.mapOk, 0, n) == n;
    if !env.mapOk(n + 1) {
      MemoryAfter(env, info, start, end, mem0, [VidtMap(env)]);
    } else {
      PlanAtVidt(env, info, start, end);
      MemoryAfter(env, info, start, end, mem0, [VidtMap(env), ChildYield(env)]);
    }
  }

  /**
   * Whatever the hypervisor answers, main's stores leave `FinalMemory`: the
   * saved VIDT slots, plus the child's VIDT entry and context once main gets
   * past the stack map.
   */
  lemma MainMemory(env: Env, info: BootInfo, start: u32, end: u32, mem0: map<u32, u32>)
    ensures Replay(mem0, Exec(env, Plan(env, info, start, end), 0).trace) == FinalMemory(env, info, start, end, mem0)
  {
    MainRunsToFirstRefusal(env, info, start, end);
    if ReachesVidt(env, info, start, end) {
      ReachedVidtMemory(env, info, start, end, mem0);
    } else {
      HaltedEarlyMemory(env, info, start, end, mem0);
    }
  }

  /**
   * However main ends, slots 48 and 49 of the root's VIDT still point at
   * the setup context: no later store of main reaches them.
   */
  lemma RootVidtSaved(env: Env, info: BootInfo, start: u32, end: u32, mem0: map<u32, u32>)
    requires PagesAligned(env)
    ensures var mem := FinalMemory(env, info, start, end, mem0);
      && VidtSlot(ROOT_SAVE_SLOT) in mem && mem[VidtSlot(ROOT_SAVE_SLOT)] == SETUP_CONTEXT
      && VidtSlot(ROOT_SAVE_SLOT_ALT) in mem && mem[VidtSlot(ROOT_SAVE_SLOT_ALT)] == SETUP_CONTEXT
  {
    if ReachesVidt(env, info, start, end) {
      assert env.page(6) % PAGE_SIZE == 0;
      assert VidtSlot(ROOT_SAVE_SLOT) % PAGE_SIZE != 0 && VidtSlot(ROOT_SAVE_SLOT_ALT) % PAGE_SIZE != 0;
    }
  }

  /** A store outside a context leaves that context as it was. */
  lemma StoreOutsideCtx(mem: map<u32, u32>, base: u32, a: u32, v: u32)
    requires CtxPresent(mem, base)
    requires a < base || base + SIZEOF_USER_CTX <= a
    ensures CtxPresent(mem[a := v], base) && ReadCtx(mem[a := v], base) == ReadCtx(mem, base)
  {
    FieldsDetermine(ReadCtx(mem[a := v], base), ReadCtx(mem, base));
  }

  /** The seven context stores turn any context at `CHILD_CONTEXT` into the child's first context. */
  lemma ContextWritesResult(mem: map<u32, u32>)
    requires CtxPresent(mem, CHILD_CONTEXT)
    ensures CtxPresent(ContextImage(mem), CHILD_CONTEXT)
    ensures ReadCtx(ContextImage(mem), CHILD_CONTEXT) == ChildContext(ReadCtx(mem, CHILD_CONTEXT))
  {
    FieldsDetermine(ReadCtx(ContextImage(mem), CHILD_CONTEXT), ChildContext(ReadCtx(mem, CHILD_CONTEXT)));
  }

  /** After the context stores, entry 0 of the child's VIDT page still points at the context. */
  lemma ChildVidtEntry(env: Env, mem0: map<u32, u32>)
    requires PagesAligned(env)
    ensures env.page(6) in BootMemory(env, mem0) && BootMemory(env, mem0)[env.page(6)] == CHILD_CONTEXT
  {
    assert env.page(6) % PAGE_SIZE == 0;
    InsideStackPage(CHILD_CONTEXT);
    InsideStackPage(CHILD_CONTEXT + 4);
    InsideStackPage(CHILD_CONTEXT + 8);
    InsideStackPage(CHILD_CONTEXT + 24);
    InsideStackPage(CHILD_CONTEXT + 28);
    InsideStackPage(CHILD_CONTEXT + 44);
  }

  /** The stores before the context's leave it alone; the context stores write the child's context. */
  lemma BootContext(env: Env, mem0: map<u32, u32>)
    requires PagesAligned(env) && CtxPresent(mem0, CHILD_CONTEXT)
    ensures CtxPresent(BootMemory(env, mem0), CHILD_CONTEXT)
    ensures ReadCtx(BootMemory(env, mem0), CHILD_CONTEXT) == ChildContext(ReadCtx(mem0, CHILD_CONTEXT))
  {
    var m1 := mem0[VidtSlot(ROOT_SAVE_SLOT) := SETUP_CONTEXT];
    var m2 := m1[VidtSlot(ROOT_SAVE_SLOT_ALT) := SETUP_CONTEXT];
    StoreOutsideCtx(mem0, CHILD_CONTEXT, VidtSlot(ROOT_SAVE_SLOT), SETUP_CONTEXT);
    StoreOutsideCtx(m1, CHILD_CONTEXT, VidtSlot(ROOT_SAVE_SLOT_ALT), SETUP_CONTEXT);
    assert env.page(6) % PAGE_SIZE == 0;
    StoreOutsideCtx(m2, CHILD_CONTEXT, env.page(6), CHILD_CONTEXT);
    ContextWritesResult(m2[env.page(6) := CHILD_CONTEXT]);
  }

  /**
   * Once main gets past the stack map, entry 0 of the child's VIDT page
   * points at the child's context, and that context holds the fields main
   * writes, every other word as it was before main.
   */
  lemma ChildContextInitialised(env: Env, info: BootInfo, start: u32, end: u32, mem0: map<u32, u32>)
    requires PagesAligned(env) && ReachesVidt(env, info, start, end)
    ensures var mem := FinalMemory(env, info, start, end, mem0);
      && env.page(6) in mem && mem[env.page(6)] == CHILD_CONTEXT
      && (CtxPresent(mem0, CHILD_CONTEXT) ==>
            CtxPresent(mem, CHILD_CONTEXT)
            && ReadCtx(mem, CHILD_CONTEXT) == ChildContext(ReadCtx(mem0, CHILD_CONTEXT)))
  {
    ChildVidtEntry(env, mem0);
    if CtxPresent(mem0, CHILD_CONTEXT) {
      BootContext(env, mem0);
    }
  }

  /**
   * Once main gets past the stack map, the six fields it writes hold their
   * values in root memory, whatever root memory held before main.
   */
  lemma ChildFieldsWritten(env: Env, info: BootInfo, start: u32, end: u32, mem0: map<u32, u32>)
    requires ReachesVidt(env, info, start, end)
    ensures var mem := FinalMemory(env, info, start, end, mem0);
      && CHILD_CONTEXT + FieldOffset(Valid) in mem && mem[CHILD_CONTEXT + FieldOffset(Valid)] == 1
      && CHILD_CONTEXT + FieldOffset(Eip) in mem && mem[CHILD_CONTEXT + FieldOffset(Eip)] == CHILD_LOAD_ADDR
      && CHILD_CONTEXT + FieldOffset(Pipflags) in mem && mem[CHILD_CONTEXT + FieldOffset(Pipflags)] == 0
      && CHILD_CONTEXT + FieldOffset(Eflags) in mem && mem[CHILD_CONTEXT + FieldOffset(Eflags)] == CHILD_EFLAGS
      && CHILD_CONTEXT + FieldOffset(Esp) in mem && mem[CHILD_CONTEXT + FieldOffset(Esp)] == CHILD_CONTEXT
      && CHILD_CONTEXT + FieldOffset(Ebx) in mem && mem[CHILD_CONTEXT + FieldOffset(Ebx)] == BOOTINFO_ADDR
  {
  }
}

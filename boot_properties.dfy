/**
 * What main's run is, whatever the hypervisor answers: the steps in main's
 * order up to the first refusal, and what root memory holds afterwards.
 */
module BootProperties {
  import opened Launcher
  import opened PipApi
  import opened RootPartition

  /** The two VIDT stores always go through. */
  lemma RunsThroughSave(env: Env, rest: seq<Step>)
    ensures Exec(env, SaveRootContext() + rest, 0) == Prepend(SaveRootContext(), Exec(env, rest, 0))
  {
    var s := SaveRootContext();
    ExecInfallible(env, s, 0);
    assert Exec(env, s, 0).status == Completed && MapCount(s) == 0;
    ExecAppend(env, s, rest, 0);
  }

  /** The magic test, then `Pip_InitPaging`. */
  lemma RunsThroughValidation(env: Env, info: BootInfo, rest: seq<Step>)
    ensures Exec(env, Validation(info) + rest, 0) ==
      if info.magic != env.fpinfoMagic then Run([CheckMagic(info.magic)], Halted)
      else if !env.pagingOk then Run(Validation(info), Halted)
      else Prepend(Validation(info), Exec(env, rest, 0))
  {
    var v := Validation(info);
    assert v[1..] == [InitPaging(info.membegin, info.memend)];
    CountsOfKind(v);
    ExecAppend(env, v, rest, 0);
  }

  /** Five allocations, then `Pip_CreatePartition`. */
  lemma RunsThroughCreation(env: Env, rest: seq<Step>)
    ensures Exec(env, (PartitionPages(env) + [Creation(env)]) + rest, 0) ==
      if !env.createOk then Run(PartitionPages(env) + [Creation(env)], Halted)
      else Prepend(PartitionPages(env) + [Creation(env)], Exec(env, rest, 0))
  {
    var pc := PartitionPages(env) + [Creation(env)];
    ExecThenOne(env, PartitionPages(env), Creation(env), 0);
    assert Exec(env, pc, 0).status == (if env.createOk then Completed else Halted);
    ExecAppend(env, pc, rest, 0);
  }

  /** The code loop's `n` map calls, up to the first refused one. */
  lemma RunsThroughCode(env: Env, code: seq<Step>, rest: seq<Step>, n: nat)
    requires n == |code|
    requires forall j :: 0 <= j < |code| ==> code[j].MapPage?
    ensures var k := FirstRefused(env.mapOk, 0, n);
      Exec(env, code + rest, 0) ==
        if k < n then Run(code[..k + 1], Halted)
        else Prepend(code, Exec(env, rest, n))
  {
    if FirstRefused(env.mapOk, 0, n) < n {
      CodeBlockHalts(env, code, rest, n);
    } else {
      CodeBlockThrough(env, code, rest, n);
    }
  }

  /** A refused map call of the block stops the run there. */
  lemma CodeBlockHalts(env: Env, code: seq<Step>, rest: seq<Step>, n: nat)
    requires n == |code|
    requires forall j :: 0 <= j < |code| ==> code[j].MapPage?
    requires FirstRefused(env.mapOk, 0, n) < n
    ensures Exec(env, code + rest, 0) == Run(code[..FirstRefused(env.mapOk, 0, n) + 1], Halted)
  {
    ExecMaps(env, code, 0);
    ExecAppendHalted(env, code, rest, 0);
  }

  /** A block whose map calls are all granted is followed by the rest of the run. */
  lemma CodeBlockThrough(env: Env, code: seq<Step>, rest: seq<Step>, n: nat)
    requires n == |code|
    requires forall j :: 0 <= j < |code| ==> code[j].MapPage?
    requires FirstRefused(env.mapOk, 0, n) == n
    ensures Exec(env, code + rest, 0) == Prepend(code, Exec(env, rest, n))
  {
    ExecMaps(env, code, 0);
    MapsCounted(code);
    ExecAppendThrough(env, code, rest, 0);
  }

  /** The stack page: its allocation always goes through, its map call may not. */
  lemma RunsThroughStack(env: Env, rest: seq<Step>, maps: nat)
    ensures Exec(env, StackSetup(env) + rest, maps) ==
      if !env.mapOk(maps) then Run(StackSetup(env), Halted)
      else Prepend(StackSetup(env), Exec(env, rest, maps + 1))
  {
    var st := StackSetup(env);
    ExecThenOne(env, [AllocPage(env.page(5))], st[1], maps);
    assert st == [AllocPage(env.page(5))] + [st[1]];
    assert Exec(env, st, maps).status == (if env.mapOk(maps) then Completed else Halted);
    ExecAppend(env, st, rest, maps);
  }

  /** The VIDT page and the child's context, the VIDT map call, then the yield. */
  lemma RunsThroughHandOff(env: Env, maps: nat)
    ensures Exec(env, VidtSetup(env) + [VidtMap(env), ChildYield(env)], maps) ==
      if !env.mapOk(maps) then Run(VidtSetup(env) + [VidtMap(env)], Halted)
      else Run(VidtSetup(env) + [VidtMap(env), ChildYield(env)],
               if env.yieldReturns then Halted else Transferred)
  {
    var vs, h := VidtSetup(env), [VidtMap(env), ChildYield(env)];
    var vm := vs + [VidtMap(env)];
    ExecThenOne(env, vs, VidtMap(env), maps);
    assert Exec(env, vm, maps).status == (if env.mapOk(maps) then Completed else Halted);
    ExecAppend(env, vm, [ChildYield(env)], maps);
    assert vm + [ChildYield(env)] == vs + h;
    assert [ChildYield(env)][1..] == [];
  }

  /** A wrong magic number: only the two VIDT stores and the test itself take place. */
  lemma RunBadMagic(env: Env, info: BootInfo, start: u32, end: u32)
    requires info.magic != env.fpinfoMagic
    ensures Exec(env, Plan(env, info, start, end), 0) == Run(SaveRootContext() + [CheckMagic(info.magic)], Halted)
  {
    RunsThroughSave(env, Validation(info) + AfterValidation(env, start, end));
    RunsThroughValidation(env, info, AfterValidation(env, start, end));
  }

  /** `Pip_InitPaging` refused: nothing is allocated. */
  lemma RunPagingRefused(env: Env, info: BootInfo, start: u32, end: u32)
    requires info.magic == env.fpinfoMagic && !env.pagingOk
    ensures Exec(env, Plan(env, info, start, end), 0) == Run(SaveRootContext() + Validation(info), Halted)
  {
    RunsThroughSave(env, Validation(info) + AfterValidation(env, start, end));
    RunsThroughValidation(env, info, AfterValidation(env, start, end));
  }

  /** Past validation, the run is the validated prefix followed by the rest of the plan. */
  lemma RunValidated(env: Env, info: BootInfo, start: u32, end: u32)
    requires info.magic == env.fpinfoMagic && env.pagingOk
    ensures Exec(env, Plan(env, info, start, end), 0)
      == Prepend(SaveRootContext() + Validation(info), Exec(env, AfterValidation(env, start, end), 0))
  {
    var rest := AfterValidation(env, start, end);
    RunsThroughSave(env, Validation(info) + rest);
    RunsThroughValidation(env, info, rest);
    assert SaveRootContext() + (Validation(info) + rest) == Plan(env, info, start, end);
  }

  /** `Pip_CreatePartition` refused after the five allocations. */
  lemma RunCreateRefused(env: Env, info: BootInfo, start: u32, end: u32)
    requires info.magic == env.fpinfoMagic && env.pagingOk && !env.createOk
    ensures Exec(env, Plan(env, info, start, end), 0) == Run(Created(env, info), Halted)
  {
    RunValidated(env, info, start, end);
    RunsThroughCreation(env, AfterCreation(env, start, end));
    assert Created(env, info) == SaveRootContext() + Validation(info) + (PartitionPages(env) + [Creation(env)]);
  }

  /** Past creation, the run is the created prefix followed by the rest of the plan. */
  lemma RunCreated(env: Env, info: BootInfo, start: u32, end: u32)
    requires info.magic == env.fpinfoMagic && env.pagingOk && env.createOk
    ensures Exec(env, Plan(env, info, start, end), 0)
      == Prepend(Created(env, info), Exec(env, AfterCreation(env, start, end), 0))
  {
    RunValidated(env, info, start, end);
    RunsThroughCreation(env, AfterCreation(env, start, end));
    assert Created(env, info) == SaveRootContext() + Validation(info) + (PartitionPages(env) + [Creation(env)]);
  }

  /** Code page `k` refused: the run stops right after that map call. */
  lemma RunCodeRefused(env: Env, info: BootInfo, start: u32, end: u32)
    requires info.magic == env.fpinfoMagic && env.pagingOk && env.createOk
    ensures var code := ChildImage(env, start, end);
      var k := FirstRefused(env.mapOk, 0, |code|);
      k < |code| ==> Exec(env, Plan(env, info, start, end), 0) == Run(Created(env, info) + code[..k + 1], Halted)
  {
    var code := ChildImage(env, start, end);
    var n := |code|;
    RunCreated(env, info, start, end);
    RunsThroughCode(env, code, AfterImage(env), n);
  }

  /** Past the code loop, the run is the prefix so far followed by the remaining steps. */
  lemma RunImaged(env: Env, info: BootInfo, start: u32, end: u32, n: nat)
    requires info.magic == env.fpinfoMagic && env.pagingOk && env.createOk
    requires n == |ChildImage(env, start, end)| && FirstRefused(env.mapOk, 0, n) == n
    ensures Exec(env, Plan(env, info, start, end), 0)
      == Prepend(Created(env, info) + ChildImage(env, start, end), Exec(env, AfterImage(env), n))
  {
    RunCreated(env, info, start, end);
    RunsThroughCode(env, ChildImage(env, start, end), AfterImage(env), n);
  }

  /** The stack map refused: the VIDT page is never allocated. */
  lemma RunStackRefused(env: Env, info: BootInfo, start: u32, end: u32, n: nat)
    requires info.magic == env.fpinfoMagic && env.pagingOk && env.createOk
    requires n == |ChildImage(env, start, end)| && FirstRefused(env.mapOk, 0, n) == n
    requires !env.mapOk(n)
    ensures Exec(env, Plan(env, info, start, end), 0)
      == Run(Created(env, info) + ChildImage(env, start, end) + StackSetup(env), Halted)
  {
    RunImaged(env, info, start, end, n);
    RunsThroughStack(env, VidtSetup(env) + [VidtMap(env), ChildYield(env)], n);
  }

  /** Past the stack map, the run is the prefix so far followed by the VIDT steps and the yield. */
  lemma RunStacked(env: Env, info: BootInfo, start: u32, end: u32, n: nat)
    requires info.magic == env.fpinfoMagic && env.pagingOk && env.createOk
    requires n == |ChildImage(env, start, end)| && FirstRefused(env.mapOk, 0, n) == n
    requires env.mapOk(n)
    ensures Exec(env, Plan(env, info, start, end), 0)
      == Prepend(Created(env, info) + ChildImage(env, start, end) + StackSetup(env),
                 Exec(env, VidtSetup(env) + [VidtMap(env), ChildYield(env)], n + 1))
  {
    RunImaged(env, info, start, end, n);
    RunsThroughStack(env, VidtSetup(env) + [VidtMap(env), ChildYield(env)], n);
  }

  /**
   * The VIDT map refused: the child's context has been written, and the
   * yield never takes place.
   */
  lemma RunVidtRefused(env: Env, info: BootInfo, start: u32, end: u32, n: nat)
    requires info.magic == env.fpinfoMagic && env.pagingOk && env.createOk
    requires n == |ChildImage(env, start, end)| && FirstRefused(env.mapOk, 0, n) == n
    requires env.mapOk(n) && !env.mapOk(n + 1)
    ensures Exec(env, Plan(env, info, start, end), 0)
      == Run(Created(env, info) + ChildImage(env, start, end) + StackSetup(env) + VidtSetup(env)
               + [VidtMap(env)], Halted)
  {
    RunStacked(env, info, start, end, n);
    RunsThroughHandOff(env, n + 1);
  }

  /** Nothing refused: the whole plan is carried out and ends in the yield. */
  lemma RunComplete(env: Env, info: BootInfo, start: u32, end: u32, n: nat)
    requires info.magic == env.fpinfoMagic && env.pagingOk && env.createOk
    requires n == |ChildImage(env, start, end)| && FirstRefused(env.mapOk, 0, n) == n
    requires env.mapOk(n) && env.mapOk(n + 1)
    ensures Exec(env, Plan(env, info, start, end), 0)
      == Run(Plan(env, info, start, end), if env.yieldReturns then Halted else Transferred)
  {
    RunStacked(env, info, start, end, n);
    RunsThroughHandOff(env, n + 1);
    ExecShape(env, Plan(env, info, start, end), 0);
  }

  /**
   * The outcome of main, case by case: the first refusal in the fixed order
   * (magic, paging, creation, each code page by ascending offset, stack map,
   * VIDT map, yield) decides where the run stops.
   */
  function Expected(env: Env, info: BootInfo, start: u32, end: u32): (r: Run)
    ensures r.status == Halted || r.status == Transferred
    ensures r.status == Transferred ==> r.trace == Plan(env, info, start, end) && !env.yieldReturns
  {
    var code := ChildImage(env, start, end);
    var n := |code|;
    var k := FirstRefused(env.mapOk, 0, n);
    if info.magic != env.fpinfoMagic then
      Run(SaveRootContext() + [CheckMagic(info.magic)], Halted)
    else if !env.pagingOk then
      Run(SaveRootContext() + Validation(info), Halted)
    else if !env.createOk then
      Run(Created(env, info), Halted)
    else if k < n then
      Run(Created(env, info) + code[..k + 1], Halted)
    else if !env.mapOk(n) then
      Run(Created(env, info) + code + StackSetup(env), Halted)
    else if !env.mapOk(n + 1) then
      Run(Created(env, info) + code + StackSetup(env) + VidtSetup(env) + [VidtMap(env)], Halted)
    else
      Run(Plan(env, info, start, end), if env.yieldReturns then Halted else Transferred)
  }

  /**
   * main's run, whatever the hypervisor answers, is the outcome listed in
   * `Expected`: the steps in main's order up to the first refused one.
   */
  lemma MainRunsToFirstRefusal(env: Env, info: BootInfo, start: u32, end: u32)
    ensures Exec(env, Plan(env, info, start, end), 0) == Expected(env, info, start, end)
  {
    var n := |ChildImage(env, start, end)|;
    var k := FirstRefused(env.mapOk, 0, n);
    if info.magic != env.fpinfoMagic {
      RunBadMagic(env, info, start, end);
    } else if !env.pagingOk {
      RunPagingRefused(env, info, start, end);
    } else if !env.createOk {
      RunCreateRefused(env, info, start, end);
    } else if k < n {
      RunCodeRefused(env, info, start, end);
    } else if !env.mapOk(n) {
      RunStackRefused(env, info, start, end, n);
    } else if !env.mapOk(n + 1) {
      RunVidtRefused(env, info, start, end, n);
    } else {
      RunComplete(env, info, start, end, n);
    }
  }

  /**
   * A wrong magic number halts main before `Pip_InitPaging` and before any
   * allocation or map call: only the two VIDT stores precede the test.
   */
  lemma BadMagicHaltsBeforeAllocation(env: Env, info: BootInfo, start: u32, end: u32)
    requires info.magic != env.fpinfoMagic
    ensures var r := Exec(env, Plan(env, info, start, end), 0);
      && r.status == Halted
      && |r.trace| == 3
      && r.trace[..2] == SaveRootContext()
      && r.trace[2] == CheckMagic(info.magic)
      && AllocCount(r.trace) == 0 && MapCount(r.trace) == 0
      && forall j :: 0 <= j < |r.trace| ==> !r.trace[j].InitPaging?
  {
    RunBadMagic(env, info, start, end);
    CountsOfKind(SaveRootContext() + [CheckMagic(info.magic)]);
  }

  /** Allocation and map calls happen only once the boot information has been accepted. */
  lemma ValidationBeforeAllocation(env: Env, info: BootInfo, start: u32, end: u32)
    ensures var r := Exec(env, Plan(env, info, start, end), 0);
      AllocCount(r.trace) + MapCount(r.trace) > 0 ==>
        info.magic == env.fpinfoMagic && env.pagingOk
        && |r.trace| >= 4 && r.trace[..4] == SaveRootContext() + Validation(info)
  {
    var r := Exec(env, Plan(env, info, start, end), 0);
    if info.magic != env.fpinfoMagic {
      BadMagicHaltsBeforeAllocation(env, info, start, end);
    } else if !env.pagingOk {
      RunPagingRefused(env, info, start, end);
      CountsOfKind(SaveRootContext() + Validation(info));
    } else {
      RunValidated(env, info, start, end);
    }
  }

  /**
   * Exactly five pages are allocated before `Pip_CreatePartition`, which
   * receives them in order; a refused creation halts with no map call made.
   */
  lemma CreationRefusedHaltsUnmapped(env: Env, info: BootInfo, start: u32, end: u32)
    requires info.magic == env.fpinfoMagic && env.pagingOk && !env.createOk
    ensures var r := Exec(env, Plan(env, info, start, end), 0);
      && r.status == Halted
      && AllocCount(r.trace) == 5 && MapCount(r.trace) == 0
      && r.trace[|r.trace| - 1]
           == CreatePartition(env.page(0), env.page(1), env.page(2), env.page(3), env.page(4))
  {
    RunCreateRefused(env, info, start, end);
    CreatedCounts(env, info);
  }

  /** The prefix up to the creation call holds five allocations and no map call. */
  lemma CreatedCounts(env: Env, info: BootInfo)
    ensures AllocCount(Created(env, info)) == 5 && MapCount(Created(env, info)) == 0
    ensures MapsOf(Created(env, info)) == []
  {
    var sv := SaveRootContext() + Validation(info);
    var pp := PartitionPages(env);
    CountsOfKind(sv);
    CountsOfKind(pp);
    CountsOfKind([Creation(env)]);
    CountsAppend(sv, pp);
    CountsAppend(sv + pp, [Creation(env)]);
  }

  /**
   * Code page `k` refused: the map calls made are those of pages `0..k`, in
   * ascending offset, the last one refused; no later page, stack or VIDT
   * step is attempted.
   */
  lemma CodeRefusalStopsLoop(env: Env, info: BootInfo, start: u32, end: u32)
    requires info.magic == env.fpinfoMagic && env.pagingOk && env.createOk
    ensures var code := ChildImage(env, start, end);
      var k := FirstRefused(env.mapOk, 0, |code|);
      var r := Exec(env, Plan(env, info, start, end), 0);
      k < |code| ==>
        && r.status == Halted
        && MapsOf(r.trace) == code[..k + 1]
        && AllocCount(r.trace) == 5
        && r.trace[|r.trace| - 1] == code[k]
        && !env.mapOk(k)
  {
    var code := ChildImage(env, start, end);
    var k := FirstRefused(env.mapOk, 0, |code|);
    if k < |code| {
      var r := Exec(env, Plan(env, info, start, end), 0);
      RunCodeRefused(env, info, start, end);
      assert r == Run(Created(env, info) + code[..k + 1], Halted);
      CodeRefusedCounts(env, info, code, k, r);
    }
  }

  /** The run that stops at code page `k`: its map calls, allocations and last step. */
  lemma CodeRefusedCounts(env: Env, info: BootInfo, code: seq<Step>, k: nat, r: Run)
    requires k < |code| && forall j :: 0 <= j < |code| ==> code[j].MapPage?
    requires r == Run(Created(env, info) + code[..k + 1], Halted)
    ensures r.status == Halted
    ensures MapsOf(r.trace) == code[..k + 1] && AllocCount(r.trace) == 5
    ensures r.trace[|r.trace| - 1] == code[k]
  {
    CodePrefixCounts(env, info, code, k);
    LastOfPrefix(Created(env, info), code, k);
  }

  /** The counts of the steps up to and including code page `k`. */
  lemma CodePrefixCounts(env: Env, info: BootInfo, code: seq<Step>, k: nat)
    requires k < |code| && forall j :: 0 <= j < |code| ==> code[j].MapPage?
    ensures MapsOf(Created(env, info) + code[..k + 1]) == code[..k + 1]
    ensures AllocCount(Created(env, info) + code[..k + 1]) == 5
  {
    var done := code[..k + 1];
    assert forall j :: 0 <= j < |done| ==> done[j] == code[j];
    MapsCounted(done);
    CreatedCounts(env, info);
    CountsAppend(Created(env, info), done);
  }

  /** The stack page's allocation and map call. */
  lemma StackSetupCounts(env: Env)
    ensures AllocCount(StackSetup(env)) == 1
    ensures MapsOf(StackSetup(env)) == [MapPage(env.page(5), env.page(0), INITIAL_STACK_TOP)]
  {
    var a5, m5 := AllocPage(env.page(5)), MapPage(env.page(5), env.page(0), INITIAL_STACK_TOP);
    assert StackSetup(env) == [a5] + [m5];
    CountsSingle(a5);
    CountsSingle(m5);
    CountsAppend([a5], [m5]);
  }

  /** The VIDT page's allocation and the stores that follow it. */
  lemma VidtSetupCounts(env: Env)
    ensures AllocCount(VidtSetup(env)) == 1 && MapsOf(VidtSetup(env)) == []
  {
    var a6, rest := AllocPage(env.page(6)), [Store(env.page(6), CHILD_CONTEXT)] + ContextWrites();
    assert VidtSetup(env) == [a6] + rest;
    CountsSingle(a6);
    CountsOfKind(rest);
    CountsAppend([a6], rest);
  }

  /** The VIDT map call and the yield. */
  lemma HandOffCounts(env: Env)
    ensures AllocCount([VidtMap(env), ChildYield(env)]) == 0
    ensures MapsOf([VidtMap(env), ChildYield(env)]) == [VidtMap(env)]
  {
    assert [VidtMap(env), ChildYield(env)] == [VidtMap(env)] + [ChildYield(env)];
    CountsSingle(VidtMap(env));
    CountsSingle(ChildYield(env));
    CountsAppend([VidtMap(env)], [ChildYield(env)]);
  }

  /** The counts of the steps from the stack page on. */
  lemma AfterImageCounts(env: Env)
    ensures AllocCount(AfterImage(env)) == 2
    ensures MapsOf(AfterImage(env)) == [MapPage(env.page(5), env.page(0), INITIAL_STACK_TOP), VidtMap(env)]
  {
    var h := [VidtMap(env), ChildYield(env)];
    StackSetupCounts(env);
    VidtSetupCounts(env);
    HandOffCounts(env);
    CountsAppend(VidtSetup(env), h);
    CountsAppend(StackSetup(env), VidtSetup(env) + h);
  }

  /** The plan, cut after the VIDT stores. */
  lemma PlanAtVidt(env: Env, info: BootInfo, start: u32, end: u32)
    ensures Plan(env, info, start, end)
      == Created(env, info) + ChildImage(env, start, end) + StackSetup(env) + VidtSetup(env)
         + [VidtMap(env), ChildYield(env)]
  {
    PlanShape(env, info, start, end);
  }

  /** The plan is the prefix up to creation, the image, then the rest. */
  lemma PlanShape(env: Env, info: BootInfo, start: u32, end: u32)
    ensures Plan(env, info, start, end)
      == Created(env, info) + (ChildImage(env, start, end) + AfterImage(env))
  {
  }

  /**
   * A run with nothing refused makes seven allocations and exactly the map
   * calls of the code loop, then the stack page at `INITIAL_STACK_TOP` and
   * the VIDT page at `VIDT_ADDR`, all into `pd`; its last step is
   * `Pip_Yield(pd, 0, 49, 0, 0)`.
   */
  lemma CompleteRun(env: Env, info: BootInfo, start: u32, end: u32)
    requires info.magic == env.fpinfoMagic && env.pagingOk && env.createOk
    requires var n := |ChildImage(env, start, end)|;
      FirstRefused(env.mapOk, 0, n) == n && env.mapOk(n) && env.mapOk(n + 1)
    ensures var r := Exec(env, Plan(env, info, start, end), 0);
      var pd := env.page(0);
      && r.trace == Plan(env, info, start, end)
      && AllocCount(r.trace) == 7
      && MapsOf(r.trace) == ChildImage(env, start, end)
           + [MapPage(env.page(5), pd, INITIAL_STACK_TOP), MapPage(env.page(6), pd, VIDT_ADDR)]
      && r.trace[|r.trace| - 1] == Yield(pd, 0, 49, 0, 0)
      && (r.status == Transferred <==> !env.yieldReturns)
  {
    var code := ChildImage(env, start, end);
    RunComplete(env, info, start, end, |code|);
    PlanShape(env, info, start, end);
    CreatedCounts(env, info);
    MapsCounted(code);
    AfterImageCounts(env);
    CountsAppend(code, AfterImage(env));
    CountsAppend(Created(env, info), code + AfterImage(env));
  }

  /**
   * main hands the processor to the child exactly when the magic number is
   * right, paging, creation and every map call are granted, and the yield
   * does not come back.
   */
  lemma TransferIff(env: Env, info: BootInfo, start: u32, end: u32)
    ensures var n := |ChildImage(env, start, end)|;
      Exec(env, Plan(env, info, start, end), 0).status == Transferred <==>
        && info.magic == env.fpinfoMagic && env.pagingOk && env.createOk
        && (forall j :: 0 <= j < n + 2 ==> env.mapOk(j))
        && !env.yieldReturns
  {
    var n := |ChildImage(env, start, end)|;
    var k := FirstRefused(env.mapOk, 0, n);
    MainRunsToFirstRefusal(env, info, start, end);
    if (forall j :: 0 <= j < n + 2 ==> env.mapOk(j)) {
      assert k == n;
    }
  }

  /**
   * The stack page's map call refused: six pages allocated, every code page
   * and then the stack page mapped, the VIDT page never allocated.
   */
  lemma StackRefusalHalts(env: Env, info: BootInfo, start: u32, end: u32)
    requires info.magic == env.fpinfoMagic && env.pagingOk && env.createOk
    requires var n := |ChildImage(env, start, end)|;
      FirstRefused(env.mapOk, 0, n) == n && !env.mapOk(n)
    ensures var r := Exec(env, Plan(env, info, start, end), 0);
      var stackMap := MapPage(env.page(5), env.page(0), INITIAL_STACK_TOP);
      && r.status == Halted
      && AllocCount(r.trace) == 6
      && MapsOf(r.trace) == ChildImage(env, start, end) + [stackMap]
      && r.trace[|r.trace| - 1] == stackMap
  {
    var code := ChildImage(env, start, end);
    RunStackRefused(env, info, start, end, |code|);
    UpToStackCounts(env, info, code);
  }

  /**
   * The VIDT page's map call refused: the whole plan but the yield is carried
   * out, so all seven pages are allocated and the child's context written,
   * and the VIDT map is the last step.
   */
  lemma VidtRefusalHalts(env: Env, info: BootInfo, start: u32, end: u32)
    requires info.magic == env.fpinfoMagic && env.pagingOk && env.createOk
    requires var n := |ChildImage(env, start, end)|;
      FirstRefused(env.mapOk, 0, n) == n && env.mapOk(n) && !env.mapOk(n + 1)
    ensures var r := Exec(env, Plan(env, info, start, end), 0);
      var plan := Plan(env, info, start, end);
      var stackMap := MapPage(env.page(5), env.page(0), INITIAL_STACK_TOP);
      && r.status == Halted
      && |plan| >= 1 && r.trace == plan[..|plan| - 1]
      && AllocCount(r.trace) == 7
      && MapsOf(r.trace) == ChildImage(env, start, end) + [stackMap, VidtMap(env)]
      && r.trace[|r.trace| - 1] == VidtMap(env)
  {
    var upToVidt := Created(env, info) + ChildImage(env, start, end) + StackSetup(env) + VidtSetup(env);
    RunVidtRefused(env, info, start, end, |ChildImage(env, start, end)|);
    UpToVidtCounts(env, info, ChildImage(env, start, end));
    PlanAtVidt(env, info, start, end);
    LastTwo(upToVidt, VidtMap(env), ChildYield(env));
  }

  /** The counts of the steps up to and including the VIDT map call, for any block of code maps. */
  lemma UpToVidtCounts(env: Env, info: BootInfo, code: seq<Step>)
    requires forall j :: 0 <= j < |code| ==> code[j].MapPage?
    ensures var t := Created(env, info) + code + StackSetup(env) + VidtSetup(env) + [VidtMap(env)];
      && AllocCount(t) == 7
      && MapsOf(t) == code + [MapPage(env.page(5), env.page(0), INITIAL_STACK_TOP), VidtMap(env)]
  {
    var stackMap := MapPage(env.page(5), env.page(0), INITIAL_STACK_TOP);
    var withStack := Created(env, info) + code + StackSetup(env);
    UpToStackCounts(env, info, code);
    VidtSetupCounts(env);
    CountsAppend(withStack, VidtSetup(env));
    assert MapsOf(withStack + VidtSetup(env)) == code + [stackMap];
    CountsSingle(VidtMap(env));
    CountsAppend(withStack + VidtSetup(env), [VidtMap(env)]);
    assert code + [stackMap] + [VidtMap(env)] == code + [stackMap, VidtMap(env)];
  }

  /** The counts of the steps up to and including the stack map call. */
  lemma UpToStackCounts(env: Env, info: BootInfo, code: seq<Step>)
    requires forall j :: 0 <= j < |code| ==> code[j].MapPage?
    ensures var t := Created(env, info) + code + StackSetup(env);
      && AllocCount(t) == 6
      && MapsOf(t) == code + [MapPage(env.page(5), env.page(0), INITIAL_STACK_TOP)]
  {
    CreatedCounts(env, info);
    MapsCounted(code);
    CountsAppend(Created(env, info), code);
    StackSetupCounts(env);
    CountsAppend(Created(env, info) + code, StackSetup(env));
  }

  /**
   * The code loop makes `PageCount(length)` map calls: the image length
   * divided by the page size, rounded up, so a partial last page is mapped whole.
   */
  lemma CodePagesCeiling(length: nat)
    ensures length <= PageCount(length) * PAGE_SIZE < length + PAGE_SIZE
  {
    var n := PageCount(length);
    assert n * PAGE_SIZE <= length + PAGE_SIZE - 1 < (n + 1) * PAGE_SIZE;
  }

  /**
   * An image no longer than the gap between the load address and the stack
   * top is mapped page by page, in ascending order, at page-aligned child
   * addresses from `CHILD_LOAD_ADDR` on, each page below `INITIAL_STACK_TOP`:
   * the code pages never meet the child's stack or VIDT page, nor each other.
   */
  lemma ImageBelowStack(start: u32, length: u32, pd: u32)
    requires length <= INITIAL_STACK_TOP - CHILD_LOAD_ADDR
    ensures var cm := CodeMaps(start, length, pd);
      && (forall k :: 0 <= k < |cm| ==>
            && cm[k].pd == pd
            && cm[k].phys == (start + k * PAGE_SIZE) % WORD_RANGE
            && cm[k].vaddr == CHILD_LOAD_ADDR + k * PAGE_SIZE
            && cm[k].vaddr % PAGE_SIZE == 0
            && cm[k].vaddr + PAGE_SIZE <= INITIAL_STACK_TOP)
      && (forall j, k :: 0 <= j < k < |cm| ==> cm[j].vaddr + PAGE_SIZE <= cm[k].vaddr)
  {
    var cm := CodeMaps(start, length, pd);
    forall k | 0 <= k < |cm|
      ensures cm[k].vaddr == CHILD_LOAD_ADDR + k * PAGE_SIZE
      ensures cm[k].vaddr % PAGE_SIZE == 0 && cm[k].vaddr + PAGE_SIZE <= INITIAL_STACK_TOP
    {
      LoopBound(length, k);
      assert k < 0xff8fe;
      assert k * PAGE_SIZE <= (0xff8fe - 1) * PAGE_SIZE;
      assert CHILD_LOAD_ADDR + k * PAGE_SIZE == (0x700 + k) * PAGE_SIZE;
    }
  }
}

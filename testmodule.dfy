/**
 * The records of l_test.h (lTestResult_e, lTestCase, lTestModule) and the two
 * case routines of l_test.c that update them: __ltest_case_begin and
 * __ltest_case_end.
 */
module TestModule {
  import opened CTypes
  import opened Assertions
  import opened Console

  /** lTestResult_e. The enum values are Undefined = -1, Fail = 0, Pass = 1. */
  datatype TestResult = Undefined | Fail | Pass

  /** lTestCase: the slot describing the case currently running in a module. */
  datatype TestCase = TestCase(
    name: string,        // set by L_TEST_CASE before the case begins
    nsteps: nat,         // reset at begin, never incremented
    ngood: nat,          // reset at begin, never incremented
    startt: uint32,      // clock reading taken at begin
    result: TestResult,
    doexec: int)         // the one-shot counter of the L_TEST_CASE loop

  /**
   * The case slot of a statically initialised module: every field is zero,
   * and the zero of lTestResult_e is Fail. The name pointer is NULL, shown
   * here as the empty string.
   */
  const ZeroCase: TestCase := TestCase("", 0, 0, 0, Fail, 0)

  /**
   * One L_TEST_CASE block of a task: its name, the assertions of its body in
   * source order, and the two clock readings it observes (at begin, and at
   * the call of __ltest_case_end that finalizes it).
   */
  datatype CaseSpec = CaseSpec(name: string, body: seq<Assertion>, startMs: uint32, endMs: uint32)

  /** Every assertion of every case has defined arguments. */
  predicate TaskDefined(task: seq<CaseSpec>) {
    forall i :: 0 <= i < |task| ==> AllDefined(task[i].body)
  }

  /** A module's task: its case blocks, in source order. */
  type Task = task: seq<CaseSpec> | TaskDefined(task)

  /** Everything of a module except its link to the next module. */
  datatype ModuleView = ModuleView(
    name: string, desc: Option<string>, task: Option<Task>,
    tcase: TestCase, ncases: nat, ngood: nat, telapsed: uint32)

  /** lTestModule. */
  class Module {
    const name: string
    const desc: Option<string>
    const task: Option<Task>   // NULL when the module has no task
    var tcase: TestCase
    var ncases: nat
    var ngood: nat
    var next: Module?
    var telapsed: uint32

    /**
     * ngood never exceeds ncases; the one-shot counter is at most 1; and a case
     * that is still open as a pass (counter not yet run below zero, result Pass)
     * has been counted in ncases but not yet in ngood.
     */
    ghost predicate Valid()
      reads this
    {
      && ngood <= ncases
      && tcase.doexec <= 1
      && (tcase.doexec >= 0 && tcase.result == Pass ==> ngood < ncases)
    }

    function View(): ModuleView
      reads this
    {
      ModuleView(name, desc, task, tcase, ncases, ngood, telapsed)
    }

    /** The static initialiser that L_TEST_MODULE emits. */
    constructor (name: string, desc: Option<string>, task: Option<Task>)
      ensures Valid()
      ensures this.name == name && this.desc == desc && this.task == task
      ensures tcase == ZeroCase && ncases == 0 && ngood == 0 && next == null && telapsed == 0
    {
      this.name := name;
      this.desc := desc;
      this.task := task;
      tcase := ZeroCase;
      ncases := 0;
      ngood := 0;
      next := null;
      telapsed := 0;
    }

    /**
     * __ltest_case_begin: announces the case, clears it, stamps its start
     * time, arms the one-shot counter and counts the case in the module.
     */
    method CaseBegin(out: Output, now: uint32)
      requires Valid()
      modifies this`tcase, this`ncases, out`events
      ensures Valid()
      ensures tcase == old(tcase).(nsteps := 0, ngood := 0, result := Pass, startt := now, doexec := 1)
      ensures ncases == old(ncases) + 1
      ensures out.events == old(out.events) + [CaseStart(tcase.name)]
    {
      out.Print(CaseStart(tcase.name));
      tcase := tcase.(nsteps := 0, ngood := 0, result := Pass, startt := now, doexec := 1);
      ncases := ncases + 1;
    }

    /**
     * __ltest_case_end: post-decrements the one-shot counter. While it was
     * non-zero the case keeps running (result 1, nothing else changes); when
     * it was zero the case is finalized: the elapsed time is added, a passed
     * case is counted in ngood, and PASSED or FAILED is printed (result 0).
     * `now` is the clock reading; it is only taken on the finalizing path.
     */
    method CaseEnd(out: Output, now: uint32) returns (r: int)
      requires Valid()
      modifies this`tcase, this`ngood, this`telapsed, out`events
      ensures Valid()
      ensures tcase == old(tcase).(doexec := old(tcase.doexec) - 1)
      ensures r == (if old(tcase.doexec) != 0 then 1 else 0)
      ensures old(tcase.doexec) != 0 ==>
                ngood == old(ngood) && telapsed == old(telapsed) && out.events == old(out.events)
      ensures old(tcase.doexec) == 0 ==>
                && telapsed == Wrap32(old(telapsed) + Elapsed(tcase.startt, now))
                && ngood == old(ngood) + (if tcase.result == Pass then 1 else 0)
                && out.events == old(out.events) + [Finalization(tcase.result == Pass, Elapsed(tcase.startt, now))]
    {
      var doexec := tcase.doexec;
      tcase := tcase.(doexec := doexec - 1);
      if doexec != 0 {
        return 1;
      }
      var elapsed := Elapsed(tcase.startt, now);
      telapsed := Wrap32(telapsed + elapsed);
      if tcase.result == Pass {
        ngood := ngood + 1;
        out.Print(CasePassed(elapsed));
      } else {
        out.Print(CaseFailed(elapsed));
      }
      return 0;
    }
  }

  /** The line printed when a case is finalized. */
  function Finalization(passed: bool, ms: uint32): (e: Event)
    ensures IsFinalization(e) && e.ms == ms && (e.CasePassed? <==> passed)
  {
    if passed then CasePassed(ms) else CaseFailed(ms)
  }
}

/**
 * The L_TEST_CASE block and the assertion macros' control flow (l_test.h).
 *
 * A case expands to
 *     tcase.name = cname;
 *     for (__ltest_case_begin(m); __ltest_case_end(m);) { body }
 * and every assertion in the body, on failure, sets the result to Fail, calls
 * __ltest_case_end itself, prints its diagnostic, and then leaves the loop
 * with `break` because the result is Fail. `RunCase` performs exactly that
 * sequence of calls; `CaseLog` is the declarative account of what it prints.
 */
module Cases {
  import opened CTypes
  import opened Assertions
  import opened Console
  import opened TestModule

  /** The index of the first failing assertion, or |body| when every one holds. */
  function FirstFailure(body: seq<Assertion>): (k: nat)
    requires AllDefined(body)
    ensures k <= |body|
    ensures forall i :: 0 <= i < k ==> Holds(body[i])
    ensures k < |body| ==> !Holds(body[k])
    decreases |body|
  {
    if body == [] || !Holds(body[0]) then 0
    else 1 + FirstFailure(body[1..])
  }

  /** A case passes when none of its assertions fails. */
  predicate Passes(body: seq<Assertion>)
    requires AllDefined(body)
  {
    FirstFailure(body) == |body|
  }

  /**
   * How many assertions of the body are evaluated: all of them when the case
   * passes, otherwise those up to and including the first failing one.
   */
  function Evaluated(body: seq<Assertion>): (n: nat)
    requires AllDefined(body)
    ensures n <= |body|
    ensures Passes(body) <==> n == |body| && forall i :: 0 <= i < n ==> Holds(body[i])
    ensures !Passes(body) ==> 0 < n && !Holds(body[n - 1]) && forall i :: 0 <= i < n - 1 ==> Holds(body[i])
  {
    if Passes(body) then |body| else FirstFailure(body) + 1
  }

  /** The time a case takes, as measured in uint32 milliseconds. */
  function CaseElapsed(c: CaseSpec): uint32 {
    Elapsed(c.startMs, c.endMs)
  }

  /**
   * What a case prints: its name; then PASSED, or FAILED followed by
   * the diagnostic of the first failing assertion.
   */
  function CaseLog(c: CaseSpec): seq<Event>
    requires AllDefined(c.body)
  {
    var k := FirstFailure(c.body);
    [CaseStart(c.name)] +
      if k == |c.body| then [CasePassed(CaseElapsed(c))]
      else [CaseFailed(CaseElapsed(c)), FailMsg(k, Diagnose(c.body[k]))]
  }

  /** The module's case slot once a case has run to its end. */
  function Finished(before: TestCase, c: CaseSpec): TestCase
    requires AllDefined(c.body)
  {
    before.(name := c.name, nsteps := 0, ngood := 0, startt := c.startMs,
            result := if Passes(c.body) then Pass else Fail, doexec := -1)
  }

  /**
   * One L_TEST_CASE block. `evaluated` is the number of assertions of the body
   * that were evaluated, and `bodyRuns` the number of times the loop body ran.
   */
  method RunCase(mod: Module, out: Output, c: CaseSpec) returns (evaluated: nat, ghost bodyRuns: nat)
    requires mod.Valid() && AllDefined(c.body)
    modifies mod`tcase, mod`ncases, mod`ngood, mod`telapsed, out`events
    ensures mod.Valid()
    ensures bodyRuns == 1
    ensures evaluated == Evaluated(c.body)
    ensures mod.ncases == old(mod.ncases) + 1
    ensures mod.ngood == old(mod.ngood) + (if Passes(c.body) then 1 else 0)
    ensures mod.telapsed == Wrap32(old(mod.telapsed) + CaseElapsed(c))
    ensures mod.tcase == Finished(old(mod.tcase), c)
    ensures out.events == old(out.events) + CaseLog(c)
  {
    mod.tcase := mod.tcase.(name := c.name);
    mod.CaseBegin(out, c.startMs);
    ghost var running := mod.tcase.(doexec := 0);
    ghost var started := out.events;
    evaluated, bodyRuns := 0, 0;
    var cond := mod.CaseEnd(out, c.endMs);
    label caseLoop:
    while cond != 0
      invariant cond == 0 || cond == 1
      invariant mod.Valid() && mod.ncases == old(mod.ncases) + 1
      invariant cond == 1 ==>
                  && bodyRuns == 0 && evaluated == 0
                  && mod.tcase == running && running.result == Pass
                  && mod.ngood == old(mod.ngood) && mod.telapsed == old(mod.telapsed)
                  && out.events == started
      invariant cond == 0 ==>
                  && bodyRuns == 1 && Passes(c.body) && evaluated == |c.body|
                  && mod.tcase == running.(doexec := -1)
                  && mod.ngood == old(mod.ngood) + 1
                  && mod.telapsed == Wrap32(old(mod.telapsed) + CaseElapsed(c))
                  && out.events == started + [CasePassed(CaseElapsed(c))]
      decreases cond
    {
      bodyRuns := bodyRuns + 1;
      var i := 0;
      while i < |c.body|
        invariant 0 <= i <= |c.body| && evaluated == i && bodyRuns == 1
        invariant forall j :: 0 <= j < i ==> Holds(c.body[j])
        invariant mod.Valid() && mod.ncases == old(mod.ncases) + 1
        invariant mod.tcase == running
        invariant mod.ngood == old(mod.ngood) && mod.telapsed == old(mod.telapsed)
        invariant out.events == started
      {
        evaluated := evaluated + 1;
        var failed := Check(mod, out, c.body[i], i, c.endMs);
        if failed {
          break caseLoop;
        }
        i := i + 1;
      }
      cond := mod.CaseEnd(out, c.endMs);
    }
  }

  /**
   * The base assertion __L_TEST_BASE_ASSERT_ARGS inside a running case: when
   * `!val`, set the result to Fail, finalize the case with an explicit
   * __ltest_case_end, then print the diagnostic. `failed` is the test
   * `result == Fail` after which the macro breaks out of the case loop.
   */
  method Check(mod: Module, out: Output, a: Assertion, step: nat, now: uint32) returns (failed: bool)
    requires mod.Valid() && Defined(a)
    requires mod.tcase.doexec == 0 && mod.tcase.result == Pass
    modifies mod`tcase, mod`ngood, mod`telapsed, out`events
    ensures mod.Valid()
    ensures failed == !Holds(a)
    ensures !failed ==> mod.View() == old(mod.View()) && out.events == old(out.events)
    ensures failed ==>
              && mod.tcase == old(mod.tcase).(result := Fail, doexec := -1)
              && mod.ngood == old(mod.ngood)
              && mod.telapsed == Wrap32(old(mod.telapsed) + Elapsed(mod.tcase.startt, now))
              && out.events == old(out.events) + [CaseFailed(Elapsed(mod.tcase.startt, now)), FailMsg(step, Diagnose(a))]
  {
    if !Holds(a) {
      mod.tcase := mod.tcase.(result := Fail);
      var _ := mod.CaseEnd(out, now);
      out.Print(FailMsg(step, Diagnose(a)));
    }
    failed := mod.tcase.result == Fail;
  }

  // ---------------------------------------------------------------------
  // A task: the case blocks of a module, in source order
  // ---------------------------------------------------------------------

  /** How many cases of a task pass. */
  function NumPassed(task: seq<CaseSpec>): (n: nat)
    requires TaskDefined(task)
    ensures n <= |task|
  {
    if task == [] then 0
    else NumPassed(Init(task)) + (if Passes(Last(task).body) then 1 else 0)
  }

  /** The module's elapsed-time accumulator after the cases of a task, starting from `t`. */
  function Accumulated(t: uint32, task: seq<CaseSpec>): uint32
    requires TaskDefined(task)
  {
    if task == [] then t
    else Wrap32(Accumulated(t, Init(task)) + CaseElapsed(Last(task)))
  }

  /** The module's case slot after the cases of a task, starting from `tc`. */
  function TaskCase(tc: TestCase, task: seq<CaseSpec>): TestCase
    requires TaskDefined(task)
  {
    if task == [] then tc else Finished(TaskCase(tc, Init(task)), Last(task))
  }

  /** What the cases of a task print, one case after the other. */
  function TaskLog(task: seq<CaseSpec>): seq<Event>
    requires TaskDefined(task)
  {
    if task == [] then [] else TaskLog(Init(task)) + CaseLog(Last(task))
  }

  function Init(task: seq<CaseSpec>): (r: seq<CaseSpec>)
    requires task != []
    ensures TaskDefined(task) ==> TaskDefined(r)
  {
    task[..|task| - 1]
  }

  function Last(task: seq<CaseSpec>): (c: CaseSpec)
    requires task != []
    ensures TaskDefined(task) ==> AllDefined(c.body)
  {
    task[|task| - 1]
  }

  /** The case blocks of a task, run one after the other on the module. */
  method RunTask(mod: Module, out: Output, task: seq<CaseSpec>)
    requires mod.Valid() && TaskDefined(task)
    modifies mod`tcase, mod`ncases, mod`ngood, mod`telapsed, out`events
    ensures mod.Valid()
    ensures mod.ncases == old(mod.ncases) + |task|
    ensures mod.ngood == old(mod.ngood) + NumPassed(task)
    ensures mod.telapsed == Accumulated(old(mod.telapsed), task)
    ensures mod.tcase == TaskCase(old(mod.tcase), task)
    ensures out.events == old(out.events) + TaskLog(task)
  {
    var i := 0;
    while i < |task|
      invariant 0 <= i <= |task|
      invariant mod.Valid()
      invariant mod.ncases == old(mod.ncases) + i
      invariant mod.ngood == old(mod.ngood) + NumPassed(task[..i])
      invariant mod.telapsed == Accumulated(old(mod.telapsed), task[..i])
      invariant mod.tcase == TaskCase(old(mod.tcase), task[..i])
      invariant out.events == old(out.events) + TaskLog(task[..i])
    {
      PrefixStep(task, i, old(mod.telapsed), old(mod.tcase));
      var _, _ := RunCase(mod, out, task[i]);
      AppendAssoc(old(out.events), TaskLog(task[..i]), CaseLog(task[i]));
      i := i + 1;
    }
    assert task[..i] == task;
  }

  /** Extending a prefix of a task by one case extends its count, time and log by that case. */
  lemma PrefixStep(task: seq<CaseSpec>, i: nat, t: uint32, tc: TestCase)
    requires TaskDefined(task) && i < |task|
    ensures TaskDefined(task[..i]) && TaskDefined(task[..i + 1]) && AllDefined(task[i].body)
    ensures NumPassed(task[..i + 1]) == NumPassed(task[..i]) + (if Passes(task[i].body) then 1 else 0)
    ensures Accumulated(t, task[..i + 1]) == Wrap32(Accumulated(t, task[..i]) + CaseElapsed(task[i]))
    ensures TaskCase(tc, task[..i + 1]) == Finished(TaskCase(tc, task[..i]), task[i])
    ensures TaskLog(task[..i + 1]) == TaskLog(task[..i]) + CaseLog(task[i])
  {
    var p := task[..i + 1];
    assert Init(p) == task[..i] && Last(p) == task[i];
  }

  // ---------------------------------------------------------------------
  // Properties of the lifecycle
  // ---------------------------------------------------------------------

  /** A case prints exactly one PASSED or FAILED line, on either path. */
  lemma CaseFinalizedOnce(c: CaseSpec)
    requires AllDefined(c.body)
    ensures Finalizations(CaseLog(c)) == 1
  {
    var log := CaseLog(c);
    var rest := log[1..];
    assert !IsFinalization(log[0]) && Finalizations(log) == Finalizations(rest);
    assert IsFinalization(rest[0]) && Finalizations(rest) == 1 + Finalizations(rest[1..]);
    if |rest| == 2 {
      assert !IsFinalization(rest[1]) && rest[1..][1..] == [];
    }
  }

  /**
   * On the failure path the FAILED line comes right before the diagnostic,
   * and the diagnostic is the last thing the case prints.
   */
  lemma FailureReportFollowsFinalization(c: CaseSpec, i: nat)
    requires AllDefined(c.body)
    requires i < |CaseLog(c)| && CaseLog(c)[i].FailMsg?
    ensures !Passes(c.body)
    ensures i == |CaseLog(c)| - 1 && 0 < i && CaseLog(c)[i - 1] == CaseFailed(CaseElapsed(c))
    ensures CaseLog(c)[i] == FailMsg(FirstFailure(c.body), Diagnose(c.body[FirstFailure(c.body)]))
  {
  }

  /** Once an assertion fails, none of the assertions after it is evaluated. */
  lemma ShortCircuit(body: seq<Assertion>, k: nat)
    requires AllDefined(body) && k < |body| && !Holds(body[k])
    ensures !Passes(body) && Evaluated(body) <= k + 1
  {
  }

  /** The cases of a task print exactly one PASSED or FAILED line each. */
  lemma {:induction false} TaskFinalizations(task: seq<CaseSpec>)
    requires TaskDefined(task)
    ensures Finalizations(TaskLog(task)) == |task|
    decreases |task|
  {
    if task != [] {
      TaskFinalizations(Init(task));
      CaseFinalizedOnce(Last(task));
      FinalizationsAppend(TaskLog(Init(task)), CaseLog(Last(task)));
    }
  }

  /** When every assertion of every case holds, every case is counted as passed. */
  lemma {:induction false} AllPassingTask(task: seq<CaseSpec>)
    requires TaskDefined(task)
    requires forall i, j :: 0 <= i < |task| && 0 <= j < |task[i].body| ==> Holds(task[i].body[j])
    ensures NumPassed(task) == |task|
    decreases |task|
  {
    if task != [] {
      AllPassingTask(Init(task));
      var c := Last(task);
      assert forall j :: 0 <= j < |c.body| ==> Holds(c.body[j]);
      assert Passes(c.body);
    }
  }
}

# ltest in Dafny

A model of ltest, a small C unit-test harness for embedded targets, together with proofs about it.

Test modules are declared with `L_TEST_MODULE`. A startup constructor links each one into the process-wide list headed by `entrymodule`. `l_test_main` then walks the list and runs every module that has a task: it prints a header, runs the module's `L_TEST_CASE` blocks, and prints a `Passed ngood/ncases` summary.

A case block is a `for` loop around the body:
- Its condition is `__ltest_case_end`, which post-decrements a one-shot counter.
- An assertion that fails sets the result to Fail, finalizes the case itself with an explicit `__ltest_case_end`, prints its diagnostic and `break`s out of the loop.

The model is split into these modules:

- `CTypes` (ctypes.dfy): the C scalar widths, `uint32_t` wrap-around, and C truth values.
- `Assertions` (assertions.dfy): `memcmp`, `strcmp` and `strlen` on byte sequences; the assertion macros as a datatype; the condition each macro hands to the base assertion; and its diagnostic.
- `Console` (console.dfy): `__L_PRINTF` as an append-only log of events, one per message. A message may span several printed lines, as the failure report does; blank lines are not modelled.
- `TestModule` (testmodule.dfy): `lTestResult_e`, `lTestCase` and `lTestModule`. It includes `__ltest_case_begin` and `__ltest_case_end` as methods of the module class.
- `Cases` (cases.dfy): the expansion of `L_TEST_CASE` and of `__L_TEST_BASE_ASSERT_ARGS`.
  - `RunCase` executes the very calls of the macro expansion with a loop, an inner loop over the body's assertions, and a labelled `break`.
  - It is proved against the declarative `CaseLog` and `Finished`.
  - `RunTask` runs a module's case blocks in order.
- `Registry` (registry.dfy): `entrymodule` and the `next` chain.
  - A ghost sequence lists the chain, and `__ltest_module_pushback` walks to the tail.
  - `Declare` stands for one `L_TEST_MODULE` / `DISABLED_L_TEST_MODULE` declaration and its constructor.
- `Runner` (runner.dfy): `_exec_module` and `l_test_main`, proved against the functions `Executed`, `ModuleLog`, `Visited` and `RunLog`.
- `Example` (example.dfy): examples/test.c, made up of `add`, the in-place `to_uppercase_wrong` on a byte array, and the `simple_test` module with its three cases.

Time comes from outside the program. Each case carries the two clock readings it takes: one at begin, and one in the call of `__ltest_case_end` that finalizes it. `L_UNIT_TESTS` is a boolean parameter.

Where the code departs from what its own declarations suggest, the model follows the code:
- `tcase.nsteps` and `tcase.ngood` are documented as the number of assertions used and passed in the case (l_test.h:131-132). They are reset at the start of a case but never incremented.
- A module's `desc` is the stringized macro argument, so it keeps its surrounding quotes.
- A module's zero-initialised case slot has result `Fail` (enum value 0) and counter 0. It never takes `lTestResult_Undefined` (l_test.h:121).

## Model

| member | source | states |
|---|---|---|
| CTypes.Elapsed | l_test.c:119 | `now - startt` in `uint32_t`: the plain difference when the clock has not wrapped, `2^32 - startt + now` when it has |
| Assertions.Memcmp | l_test.h:108-110 | memcmp's result is -1, 0 or 1 |
| Assertions.MemcmpSign | l_test.h:108-110 | a non-zero memcmp has a first differing byte pair within `size`, all bytes before it agree, and the result is negative exactly when the byte of the first buffer is the smaller |
| Assertions.MemcmpZeroIff | l_test.h:108-110 | memcmp over `size` bytes is 0 exactly when the first `size` bytes of the two buffers agree |
| Assertions.MemcmpAntisymmetric | l_test.h:108-110 | swapping memcmp's operands negates its result |
| Assertions.CStrLen | l_test.h:112-116 | strlen is the index of the first NUL: a NUL stands there and none before it |
| Assertions.Strcmp | l_test.h:112-116 | strcmp's result is -1, 0 or 1 |
| Assertions.StrcmpZeroIff | l_test.h:112-116 | strcmp is 0 exactly when the two strings agree up to and including the NUL |
| Assertions.HoldsIff | l_test.h:92-116 | each assertion macro passes exactly when its intended condition holds: `val != 0`, `val == 0` for ASSERTN, `val == ref`, equal first `size` bytes, equal strings |
| Console.Output.Print | l_test.h:28 | printing appends exactly one message to the output and changes nothing else |
| TestModule.Module.constructor | l_test.h:47-52 | the static module has its name, description and task set, and every other field zero, including a NULL `next` |
| TestModule.Module.CaseBegin | l_test.c:97-111 | prints the case name, sets nsteps = 0, ngood = 0, result = Pass, startt = now, doexec = 1, counts one more case, and keeps ngood <= ncases |
| TestModule.Module.CaseEnd | l_test.c:113-134 | post-decrements doexec. If it was non-zero: returns 1 and changes no counter, time or output. If it was zero: adds the elapsed time to telapsed with wrap-around, counts a pass in ngood only when result is Pass, prints PASSED or FAILED with the elapsed time, and returns 0. ngood <= ncases is kept |
| TestModule.Finalization | l_test.c:122-131 | the finalization line is PASSED exactly for a passed case, and carries the elapsed time |
| Cases.FirstFailure | l_test.h:83-90 | the index of the first failing assertion: every earlier one holds, and the one there fails |
| Cases.Evaluated | l_test.h:83-90 | a case evaluates all its assertions exactly when it passes; otherwise the count ends at the first failing one |
| Cases.RunCase | l_test.h:68-90 | the L_TEST_CASE loop runs its body exactly once and evaluates exactly the assertions up to the first failure. It counts one case, counts a pass only for a passing case, adds the case's elapsed time, leaves the slot finalized (doexec -1, result Pass or Fail), and prints exactly CaseLog |
| Cases.Check | l_test.h:79-90 | a holding assertion changes nothing. A failing one sets result to Fail, finalizes the case (FAILED with the elapsed time) before printing its diagnostic, and reports the `result == Fail` test that triggers the break |
| Cases.RunTask | l_test.c:28 | the task runs its cases in order; ncases grows by the number of cases, ngood by the passing ones, and the output is the cases' logs one after the other |
| Cases.CaseFinalizedOnce | l_test.h:84-86 | every case prints exactly one PASSED or FAILED line, on the pass path and on the fail path |
| Cases.FailureReportFollowsFinalization | l_test.h:84-86 | a diagnostic is printed only for a failing case; it is the last line of the case, right after FAILED, and names the first failing assertion |
| Cases.ShortCircuit | l_test.h:89-90 | once assertion k fails, the case fails and no assertion after k is evaluated |
| Cases.TaskFinalizations | l_test.h:68-70 | a task prints exactly one finalization line per case |
| Cases.AllPassingTask | l_test.c:122-124 | when every assertion of every case holds, every case is counted as passed |
| Registry.Registry.constructor | l_test.c:19 | `entrymodule` starts NULL and the list is empty |
| Registry.Registry.PushBack | l_test.c:84-95 | NULL is ignored. Otherwise the module becomes the head of an empty list or is linked after the tail, so the list is the old list plus the module. No module's counters or case slot change; only the old tail's `next` is set. The chain stays acyclic and NULL-terminated |
| Registry.Declare | l_test.h:43-65 | a declaration registers a fresh zero-initialised module exactly when it is L_TEST_MODULE with L_UNIT_TESTS defined; DISABLED_L_TEST_MODULE or an undefined L_UNIT_TESTS leaves the list unchanged |
| Runner.ModuleLogShape | l_test.c:24-33 | a module's output starts with its header and, when it has one, its description, and ends with the summary giving ngood and ncases cast to uint32_t and the telapsed total |
| Runner.AllPassingModule | l_test.c:22-34 | a module whose task passes every assertion ends with ngood == ncases |
| Runner.ExecModule | l_test.c:22-34 | _exec_module resets telapsed before running the task. Afterwards ncases and ngood have grown by the task's cases and passes, telapsed is the sum of the cases' times, and the output is header, description, the cases' lines and the summary |
| Runner.Visit | l_test.c:74 | a module with a task is executed; one without a task is left untouched and prints nothing |
| Runner.Step | l_test.c:73-76 | one visit changes only the visited module: the modules before it stay visited, those after it untouched, and its log is appended |
| Runner.Walk | l_test.c:68-76 | the walk from `entrymodule` along `next` visits every registered module once, in registration order, and prints their logs in that order |
| Runner.Run | l_test.c:67-80 | with L_UNIT_TESTS: the start banner, every module visited in order, and the end banner |
| Runner.TestMain | l_test.c:66-82 | returns 0 always. With L_UNIT_TESTS it runs the registered modules between the banners; without it, nothing is printed or changed |
| Example.Add | examples/test.c:19-21 | add returns a + b when the sum fits in an int, so add(a, b) > a for positive b |
| Example.Shifted | examples/test.c:30 | `(char)(c - 32)` is the byte that becomes `c` again when 32 is added modulo 256 |
| Example.ToUppercaseWrong | examples/test.c:27-33 | before the NUL, every byte that is not a space becomes `c - 32` and spaces stay; the NUL and everything after it are untouched |
| Example.UppercaseWrongKeepsLength | examples/test.c:28-32 | to_uppercase_wrong keeps the buffer's size and the string's length, and leaves a C string |
| Example.FirstStringUppercased | examples/test.c:54-57 | "this works" becomes "THIS WORKS" |
| Example.SecondStringMangled | examples/test.c:55-58 | "This Does Not" becomes "4HIS $OES .OT" |
| Example.StringManipulation | examples/test.c:54-58 | the two char arrays, rewritten in place, hold "THIS WORKS" and "4HIS $OES .OT" |
| Example.IntegerCasePasses | examples/test.c:39-44 | case "Simple integer math" passes both assertions and prints CASE and PASSED only |
| Example.FloatCaseOutcome | examples/test.c:46-51 | case "Simple float math" passes exactly when both float verdicts hold, and otherwise fails at the first false one |
| Example.FirstStringAssertionHolds | examples/test.c:60 | strcmp finds "THIS WORKS" equal to the literal |
| Example.SecondStringAssertionFails | examples/test.c:61 | strcmp finds "4HIS $OES .OT" different from "THIS DOES NOT", and the diagnostic shows the expected and then the obtained text |
| Example.StringCaseFails | examples/test.c:53-62 | case "Some string manipulation" fails at its second assertion and prints CASE, FAILED and the string mismatch |
| Example.SimpleTest | examples/test.c:37-63 | simple_test's task consists of its three cases |
| Example.SimpleTestOutcome | examples/test.c:37-63 | running simple_test counts 3 cases and 1 pass, or 2 when both float verdicts hold; the last case run is the failed string case |
| Example.SimpleTestRunLog | examples/test.c:37 | with simple_test the only registered module, the output is the start banner, its header and description, …, its summary with those counts, and the end banner |
| Example.SimpleTestTask | examples/test.c:53-62 | the task the program builds, string case included, counts 3 cases and 1 or 2 passes |
| Example.SimpleTestProgram | examples/test.c:37 | the example program registers simple_test and runs it: status 0, the banners around its header and description, and "Passed 1/3" (or 2/3) as the line before the end banner |

## Left out

- Floating point: L_TEST_ASSERTEQ_FLT's relative-error test and `multf` are not modelled. The float verdict, and the value of `multf(a, b) < a`, are boolean inputs (`EqFlt`, `FloatCase`).
- Output text: format strings, colour escapes, and the file and line of the `[ERROR]` report are not modelled. Each message is one event carrying the values it shows.
- Assertions.Diagnose: `IntMismatch` carries the reference value, where the macro prints the source text of `ref`. `FltMismatch` carries none of the numbers the macro prints.
- The clock: `__L_MILLIS` is external; its readings are inputs carried by each case.
- Registry.Registry.PushBack: requires that the module is not registered yet and has no successor, as every declaration guarantees (l_test.h:51, l_test.h:55). The model does not cover pushing a module twice. In C, pushing the tail again sets its `next` to itself (l_test.c:93), and pushing an earlier module closes a longer cycle. After either, the tail search (l_test.c:92) and the walk of l_test_main (l_test.c:73) never end.
- Startup registration: the ordering of `__attribute__((constructor))` functions is the loader's. Registration is modelled as explicit `Declare` calls in program order.
- Case slot name: the NULL name pointer of a zero-initialised case slot is shown as the empty string.
- Counter widths: `size_t` overflow of `ncases` and `ngood` is not modelled; they are unbounded naturals. The `(uint32_t)` casts in the summary are modelled.
- Case bodies: a case body is the list of its assertions, with argument values already evaluated. A body's other statements are modelled only for the string case of examples/test.c (`StringManipulation`).
- Nested loops: an assertion nested in a loop or `switch` inside a case body would `break` only that inner statement; this is not modelled.
- Module tasks: a task is the list of its case blocks, so statements of a task outside any case are not modelled.
- self_test in l_test.c is declared with DISABLED_L_TEST_MODULE, so it is never registered or run; its cases are not modelled.
- examples/filter.c, examples/flash.c and pid.c are not part of this model: they depend on libraries and hardware that are not shown.

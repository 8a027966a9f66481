/**
 * The example suite examples/test.c: the functions under test (`add` and the
 * deliberately wrong `to_uppercase_wrong`) and the `simple_test` module, whose
 * cases give concrete outcomes of the harness.
 */
module Example {
  import opened CTypes
  import opened Assertions
  import opened Console
  import opened TestModule
  import opened Cases
  import opened Registry
  import opened Runner

  /** `add`: the sum, for arguments whose sum fits in a C int. */
  function Add(a: int32, b: int32): (r: int32)
    requires -0x8000_0000 <= a + b < 0x8000_0000
    ensures r == a + b
    ensures b > 0 ==> r > a
  {
    a + b
  }

  /** The ASCII space, which to_uppercase_wrong leaves alone. */
  const SPACE: byte := 32

  /** The byte to_uppercase_wrong writes in place of `c`: `(char)(c - 32)`, as a byte. */
  function Shifted(c: byte): (d: byte)
    ensures (d + 32) % 256 == c
  {
    (c - 32) % 256
  }

  /**
   * What to_uppercase_wrong leaves in a buffer holding the C string `s`:
   * before the terminator, spaces stay and every other byte is shifted down
   * by 32; the terminator and whatever follows it are not touched.
   */
  function UppercaseWrong(s: seq<byte>): (r: seq<byte>)
    requires IsCString(s)
  {
    seq(|s|, i requires 0 <= i < |s| => if i < CStrLen(s) && s[i] != SPACE then Shifted(s[i]) else s[i])
  }

  /**
   * to_uppercase_wrong on a char buffer: walks the string up to its NUL,
   * rewriting every byte that is not a space.
   */
  method ToUppercaseWrong(str: array<byte>)
    requires IsCString(str[..])
    modifies str
    ensures str[..] == UppercaseWrong(old(str[..]))
  {
    ghost var s := str[..];
    ghost var r := UppercaseWrong(s);
    var i := 0;
    while str[i] != NUL
      invariant 0 <= i <= CStrLen(s)
      invariant forall j :: 0 <= j < i ==> str[j] == r[j]
      invariant forall j :: i <= j < str.Length ==> str[j] == s[j]
      decreases CStrLen(s) - i
    {
      if str[i] != SPACE {
        str[i] := Shifted(str[i]);
      }
      i := i + 1;
    }
    assert str[..] == r;
  }

  /**
   * The bytes to_uppercase_wrong changes never become a NUL (only a space
   * would, and spaces are skipped), so the string keeps its length and its
   * terminator, and the result is still a C string.
   */
  lemma UppercaseWrongKeepsLength(s: seq<byte>)
    requires IsCString(s)
    ensures |UppercaseWrong(s)| == |s|
    ensures IsCString(UppercaseWrong(s)) && CStrLen(UppercaseWrong(s)) == CStrLen(s)
  {
    var r := UppercaseWrong(s);
    var n := CStrLen(s);
    assert r[n] == NUL;
    assert forall i :: 0 <= i < n ==> r[i] != NUL;
  }

  // ---------------------------------------------------------------------
  // The simple_test module. C string literals are written out as their
  // bytes, terminator included.
  // ---------------------------------------------------------------------

  /** `str1` of the string case, "this works", comes out as "THIS WORKS". */
  lemma FirstStringUppercased(str1: seq<byte>)
    requires str1 == [116, 104, 105, 115, 32, 119, 111, 114, 107, 115, 0]
    ensures IsCString(str1) && UppercaseWrong(str1) == [84, 72, 73, 83, 32, 87, 79, 82, 75, 83, 0]
  {
    CStrLenAt(str1, 10);
    var r := UppercaseWrong(str1);
    assert forall i :: 0 <= i < |r| ==> r[i] == [84, 72, 73, 83, 32, 87, 79, 82, 75, 83, 0][i];
  }

  /**
   * `str2` of the string case: capitals are shifted too ('T' - 32 is '4'), so
   * "This Does Not" comes out as "4HIS $OES .OT".
   */
  lemma SecondStringMangled(str2: seq<byte>)
    requires str2 == [84, 104, 105, 115, 32, 68, 111, 101, 115, 32, 78, 111, 116, 0]
    ensures IsCString(str2) && UppercaseWrong(str2) == [52, 72, 73, 83, 32, 36, 79, 69, 83, 32, 46, 79, 84, 0]
  {
    CStrLenAt(str2, 13);
    var r := UppercaseWrong(str2);
    assert forall i :: 0 <= i < |r| ==> r[i] == [52, 72, 73, 83, 32, 36, 79, 69, 83, 32, 46, 79, 84, 0][i];
  }

  /**
   * The statements of the string case before its assertions: two char arrays
   * initialised from literals, each passed to to_uppercase_wrong. The results
   * are the strings the assertions then compare.
   */
  method StringManipulation() returns (str1: seq<byte>, str2: seq<byte>)
    ensures str1 == [84, 72, 73, 83, 32, 87, 79, 82, 75, 83, 0]
    ensures str2 == [52, 72, 73, 83, 32, 36, 79, 69, 83, 32, 46, 79, 84, 0]
  {
    var a := new byte[11] [116, 104, 105, 115, 32, 119, 111, 114, 107, 115, 0];
    var b := new byte[14] [84, 104, 105, 115, 32, 68, 111, 101, 115, 32, 78, 111, 116, 0];
    assert a[..] == [116, 104, 105, 115, 32, 119, 111, 114, 107, 115, 0];
    assert b[..] == [84, 104, 105, 115, 32, 68, 111, 101, 115, 32, 78, 111, 116, 0];
    FirstStringUppercased(a[..]);
    SecondStringMangled(b[..]);
    ToUppercaseWrong(a);
    ToUppercaseWrong(b);
    str1, str2 := a[..], b[..];
  }

  /** L_TEST_CASE("Simple integer math"): `int a = 3, b = 2;` and its two assertions. */
  function IntegerCase(startMs: uint32, endMs: uint32): CaseSpec {
    CaseSpec("Simple integer math", [IsTrue(FromBool(Add(3, 2) > 3)), EqInt(Add(3, 2), 5)], startMs, endMs)
  }

  /**
   * L_TEST_CASE("Simple float math"). Floating point is not modelled: `below`
   * is the value of `multf(a, b) < a` and `close` the verdict of the
   * relative-error test of L_TEST_ASSERTEQ_FLT.
   */
  function FloatCase(below: bool, close: bool, startMs: uint32, endMs: uint32): CaseSpec {
    CaseSpec("Simple float math", [IsTrue(FromBool(below)), EqFlt(close)], startMs, endMs)
  }

  /** L_TEST_CASE("Some string manipulation"), given the assertions its statements have prepared. */
  function StringCase(body: seq<Assertion>, startMs: uint32, endMs: uint32): CaseSpec {
    CaseSpec("Some string manipulation", body, startMs, endMs)
  }

  /** The integer case passes both assertions: add(3, 2) > 3 and add(3, 2) == 5. */
  lemma IntegerCasePasses(startMs: uint32, endMs: uint32)
    ensures AllDefined(IntegerCase(startMs, endMs).body) && Passes(IntegerCase(startMs, endMs).body)
    ensures CaseLog(IntegerCase(startMs, endMs)) == [CaseStart("Simple integer math"), CasePassed(Elapsed(startMs, endMs))]
  {
    var body := IntegerCase(startMs, endMs).body;
    assert Holds(body[0]) && Holds(body[1]);
    assert FirstFailure(body[2..]) == 0;
  }

  /** The float case passes exactly when both float verdicts are true. */
  lemma FloatCaseOutcome(below: bool, close: bool, startMs: uint32, endMs: uint32)
    ensures AllDefined(FloatCase(below, close, startMs, endMs).body)
    ensures Passes(FloatCase(below, close, startMs, endMs).body) <==> below && close
    ensures FirstFailure(FloatCase(below, close, startMs, endMs).body) == if !below then 0 else if !close then 1 else 2
  {
    var body := FloatCase(below, close, startMs, endMs).body;
    assert Holds(body[0]) == below && Holds(body[1]) == close;
    if below && close {
      assert FirstFailure(body[1..][1..]) == 0;
    }
  }

  /** strcmp finds "THIS WORKS" equal to itself. */
  lemma FirstStringAssertionHolds(str1: seq<byte>, ref1: seq<byte>)
    requires str1 == [84, 72, 73, 83, 32, 87, 79, 82, 75, 83, 0]
    requires ref1 == [84, 72, 73, 83, 32, 87, 79, 82, 75, 83, 0]
    ensures Defined(EqStr(str1, ref1)) && Holds(EqStr(str1, ref1))
  {
    CStrLenAt(str1, 10);
    StrcmpZeroIff(str1, ref1);
  }

  /**
   * strcmp finds "4HIS $OES .OT" different from "THIS DOES NOT", and the
   * diagnostic shows the reference and then the string that was got.
   */
  lemma SecondStringAssertionFails(str2: seq<byte>, ref2: seq<byte>)
    requires str2 == [52, 72, 73, 83, 32, 36, 79, 69, 83, 32, 46, 79, 84, 0]
    requires ref2 == [84, 72, 73, 83, 32, 68, 79, 69, 83, 32, 78, 79, 84, 0]
    ensures Defined(EqStr(str2, ref2)) && !Holds(EqStr(str2, ref2))
    ensures Diagnose(EqStr(str2, ref2)) == StringMismatch(ref2[..13], str2[..13])
  {
    CStrLenAt(str2, 13);
    CStrLenAt(ref2, 13);
  }

  /**
   * The string case: its first assertion holds and its second fails, so the
   * case is reported as FAILED, followed by the mismatch between
   * "THIS DOES NOT" (expected) and "4HIS $OES .OT" (got).
   */
  lemma StringCaseFails(str1: seq<byte>, ref1: seq<byte>, str2: seq<byte>, ref2: seq<byte>, startMs: uint32, endMs: uint32)
    requires str1 == [84, 72, 73, 83, 32, 87, 79, 82, 75, 83, 0]
    requires ref1 == [84, 72, 73, 83, 32, 87, 79, 82, 75, 83, 0]
    requires str2 == [52, 72, 73, 83, 32, 36, 79, 69, 83, 32, 46, 79, 84, 0]
    requires ref2 == [84, 72, 73, 83, 32, 68, 79, 69, 83, 32, 78, 79, 84, 0]
    ensures AllDefined([EqStr(str1, ref1), EqStr(str2, ref2)])
    ensures FirstFailure([EqStr(str1, ref1), EqStr(str2, ref2)]) == 1
    ensures CaseLog(StringCase([EqStr(str1, ref1), EqStr(str2, ref2)], startMs, endMs)) ==
              [CaseStart("Some string manipulation"), CaseFailed(Elapsed(startMs, endMs)),
               FailMsg(1, StringMismatch(ref2[..13], str2[..13]))]
  {
    FirstStringAssertionHolds(str1, ref1);
    SecondStringAssertionFails(str2, ref2);
    var body := [EqStr(str1, ref1), EqStr(str2, ref2)];
    assert FirstFailure(body[1..]) == 0;
  }

  /**
   * The task of simple_test: its three cases in source order. `strings` holds
   * the two string assertions of the last case, and `clock` the six clock
   * readings the cases take (start and finalization of each).
   */
  function SimpleTest(below: bool, close: bool, strings: seq<Assertion>, clock: seq<uint32>): (task: Task)
    requires AllDefined(strings) && |clock| == 6
    ensures |task| == 3
  {
    var t := [IntegerCase(clock[0], clock[1]), FloatCase(below, close, clock[2], clock[3]),
              StringCase(strings, clock[4], clock[5])];
    assert AllDefined(t[0].body) && AllDefined(t[1].body);
    t
  }

  /** The description as L_TEST_MODULE stores it: the macro argument stringized, quotes included. */
  const SIMPLE_TEST_DESC: string := "\"Test routines for some basic functions.\""

  /** simple_test as L_TEST_MODULE declares it. */
  function SimpleTestModule(task: Task): ModuleView {
    ModuleView("simple_test", Some(SIMPLE_TEST_DESC), Some(task), ZeroCase, 0, 0, 0)
  }

  /**
   * Running simple_test: three cases, of which the integer case passes, the
   * string case fails, and the float case passes exactly when both float
   * verdicts hold; the summary line reports those counts.
   */
  lemma SimpleTestOutcome(below: bool, close: bool, str1: seq<byte>, ref1: seq<byte>, str2: seq<byte>, ref2: seq<byte>,
                          clock: seq<uint32>)
    requires str1 == [84, 72, 73, 83, 32, 87, 79, 82, 75, 83, 0]
    requires ref1 == [84, 72, 73, 83, 32, 87, 79, 82, 75, 83, 0]
    requires str2 == [52, 72, 73, 83, 32, 36, 79, 69, 83, 32, 46, 79, 84, 0]
    requires ref2 == [84, 72, 73, 83, 32, 68, 79, 69, 83, 32, 78, 79, 84, 0]
    requires |clock| == 6
    ensures AllDefined([EqStr(str1, ref1), EqStr(str2, ref2)])
    ensures var w := Executed(SimpleTestModule(SimpleTest(below, close, [EqStr(str1, ref1), EqStr(str2, ref2)], clock)));
            && w.ncases == 3
            && w.ngood == (if below && close then 2 else 1)
            && w.tcase.name == "Some string manipulation" && w.tcase.result == Fail
  {
    StringCaseFails(str1, ref1, str2, ref2, clock[4], clock[5]);
    var task := SimpleTest(below, close, [EqStr(str1, ref1), EqStr(str2, ref2)], clock);
    IntegerCasePasses(clock[0], clock[1]);
    FloatCaseOutcome(below, close, clock[2], clock[3]);
    var p0, p1 := task[..1], task[..2];
    assert Init(p0) == [] && Last(p0) == task[0];
    assert Init(p1) == p0 && Last(p1) == task[1];
    assert Init(task) == p1 && Last(task) == task[2];
    assert Passes(task[0].body) && !Passes(task[2].body);
    assert NumPassed(p0) == 1;
    assert NumPassed(p1) == 1 + (if below && close then 1 else 0);
    assert TaskCase(ZeroCase, task) == Finished(TaskCase(ZeroCase, p1), task[2]);
  }

  /**
   * The output of a run whose only registered module is simple_test: the start
   * banner, the header and description, and the summary with the module's
   * counts just before the end banner.
   */
  lemma SimpleTestRunLog(task: Task, log: seq<Event>, events: seq<Event>, ngood: nat)
    requires Executed(SimpleTestModule(task)).ncases == 3 && Executed(SimpleTestModule(task)).ngood == ngood <= 3
    requires log == ModuleLog(SimpleTestModule(task)) && events == [RunStart] + log + [RunEnd]
    ensures |events| >= 3 && events[0] == RunStart && events[|events| - 1] == RunEnd
    ensures events[1] == ModuleHeader("simple_test") && events[2] == ModuleDesc(SIMPLE_TEST_DESC)
    ensures var summary := events[|events| - 2];
            summary.ModuleSummary? && summary.name == "simple_test" && summary.ncases == 3 && summary.ngood == ngood
  {
    ModuleLogShape(SimpleTestModule(task));
    assert Wrap32(3) == 3 && Wrap32(ngood) == ngood;
    assert events[1] == log[0] && events[2] == log[1] && events[|events| - 2] == log[|log| - 1];
  }

  /**
   * The task of simple_test as the program builds it: the string case
   * compares what string_manipulation produced against the two literals.
   */
  method SimpleTestTask(below: bool, close: bool, clock: seq<uint32>) returns (task: Task)
    requires |clock| == 6
    ensures Executed(SimpleTestModule(task)).ncases == 3
    ensures Executed(SimpleTestModule(task)).ngood == (if below && close then 2 else 1)
  {
    var str1, str2 := StringManipulation();
    var ref1: seq<byte> := [84, 72, 73, 83, 32, 87, 79, 82, 75, 83, 0];
    var ref2: seq<byte> := [84, 72, 73, 83, 32, 68, 79, 69, 83, 32, 78, 79, 84, 0];
    SimpleTestOutcome(below, close, str1, ref1, str2, ref2, clock);
    task := SimpleTest(below, close, [EqStr(str1, ref1), EqStr(str2, ref2)], clock);
  }

  /**
   * The example built with L_UNIT_TESTS defined: the constructor registers
   * simple_test, and l_test_main runs it between the two banners. The line
   * before the end banner is simple_test's summary, "Passed 1/3" or, when
   * both float verdicts hold, "Passed 2/3"; l_test_main returns 0.
   */
  method SimpleTestProgram(below: bool, close: bool, clock: seq<uint32>) returns (status: int, events: seq<Event>)
    requires |clock| == 6
    ensures status == 0
    ensures |events| >= 3 && events[0] == RunStart && events[|events| - 1] == RunEnd
    ensures events[1] == ModuleHeader("simple_test") && events[2] == ModuleDesc(SIMPLE_TEST_DESC)
    ensures var summary := events[|events| - 2];
            summary.ModuleSummary? && summary.name == "simple_test" && summary.ncases == 3
            && summary.ngood == (if below && close then 2 else 1)
  {
    var reg := new Registry();
    var task := SimpleTestTask(below, close, clock);
    var mod := Declare(reg, "simple_test", SIMPLE_TEST_DESC, task, false, true);
    var out := new Output();
    ghost var views := Views(reg.list);
    ghost var log := RunLog(views);
    assert views == [SimpleTestModule(task)];
    RunLogSingle(SimpleTestModule(task));
    status := TestMain(reg, out, true);
    assert [] + [RunStart] == [RunStart];
    events := out.events;
    SimpleTestRunLog(task, log, events, if below && close then 2 else 1);
  }
}

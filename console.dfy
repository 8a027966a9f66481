/**
 * The text sink `__L_PRINTF`. Each printed line the harness produces becomes
 * one event; format strings and colour escapes are not modelled.
 */
module Console {
  import opened CTypes
  import opened Assertions

  datatype Event =
    | RunStart                                   // the "L_TEST START" banner
    | RunEnd                                     // the "L_TEST END" banner
    | ModuleHeader(name: string)                 // "MODULE: <name>"
    | ModuleDesc(desc: string)                   // the description line
    | ModuleSummary(name: string, ngood: uint32, ncases: uint32, ms: uint32)
    | CaseStart(name: string)                    // "CASE: <name>"
    | CasePassed(ms: uint32)                     // "PASSED! (<ms> ms)"
    | CaseFailed(ms: uint32)                     // "FAILED! (<ms> ms)"
    | FailMsg(step: nat, diag: Diag)             // "[ERROR] In <file>:<line>" and the diagnostic

  /** The PASSED or FAILED line of a case finalization. */
  predicate IsFinalization(e: Event) {
    e.CasePassed? || e.CaseFailed?
  }

  /** The number of finalization lines in a log. */
  function Finalizations(log: seq<Event>): (n: nat)
    ensures n <= |log|
  {
    if log == [] then 0
    else (if IsFinalization(log[0]) then 1 else 0) + Finalizations(log[1..])
  }

  /** Counting finalizations distributes over concatenated logs. */
  lemma {:induction false} FinalizationsAppend(a: seq<Event>, b: seq<Event>)
    ensures Finalizations(a + b) == Finalizations(a) + Finalizations(b)
  {
    if a != [] {
      assert (a + b)[0] == a[0] && (a + b)[1..] == a[1..] + b;
      FinalizationsAppend(a[1..], b);
    } else {
      assert a + b == b;
    }
  }

  /** Appending logs is associative; a hint for long chains of printed lines. */
  lemma AppendAssoc(a: seq<Event>, b: seq<Event>, c: seq<Event>)
    ensures (a + b) + c == a + (b + c)
  {
  }

  /** The output device; printing appends to what it has shown so far. */
  class Output {
    var events: seq<Event>

    constructor ()
      ensures events == []
    {
      events := [];
    }

    method Print(e: Event)
      modifies this`events
      ensures events == old(events) + [e]
    {
      events := events + [e];
    }
  }
}

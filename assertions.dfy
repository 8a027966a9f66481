/**
 * The assertion conditions of l_test.h. Each assertion macro hands one C
 * scalar `val` to the base assertion, which fails when `!val`; the
 * conditions are pure expressions over integers, byte buffers (memcmp) and
 * NUL-terminated strings (strcmp).
 */
module Assertions {
  import opened CTypes

  // ---------------------------------------------------------------------
  // The C library comparisons (ISO C11, sections 7.24.4.1 and 7.24.4.2)
  // ---------------------------------------------------------------------

  /**
   * memcmp: compares the first `n` bytes of `a` and `b` as unsigned chars;
   * the sign of the result is that of the first differing pair. The standard
   * fixes only the sign, so the model returns -1, 0 or 1. Reading past the
   * end of either buffer is undefined, hence the precondition.
   */
  function Memcmp(a: seq<byte>, b: seq<byte>, n: nat): (r: int)
    requires n <= |a| && n <= |b|
    ensures -1 <= r <= 1
    decreases n
  {
    if n == 0 then 0
    else if a[0] != b[0] then (if a[0] < b[0] then -1 else 1)
    else Memcmp(a[1..], b[1..], n - 1)
  }

  /** memcmp reports equality exactly when the first `n` bytes agree. */
  lemma {:induction false} MemcmpZeroIff(a: seq<byte>, b: seq<byte>, n: nat)
    requires n <= |a| && n <= |b|
    ensures Memcmp(a, b, n) == 0 <==> a[..n] == b[..n]
    decreases n
  {
    if n > 0 {
      MemcmpZeroIff(a[1..], b[1..], n - 1);
      assert a[..n] == [a[0]] + a[1..][..n - 1];
      assert b[..n] == [b[0]] + b[1..][..n - 1];
    }
  }

  /**
   * A non-zero memcmp comes from a first differing byte pair: the bytes before
   * index `i` agree, those at `i` differ, and the result is negative exactly
   * when the byte of `a` is the smaller.
   */
  lemma {:induction false} MemcmpSign(a: seq<byte>, b: seq<byte>, n: nat)
    requires n <= |a| && n <= |b|
    ensures Memcmp(a, b, n) != 0 ==>
              exists i :: 0 <= i < n && a[..i] == b[..i] && a[i] != b[i] && (Memcmp(a, b, n) < 0 <==> a[i] < b[i])
    decreases n
  {
    if n > 0 {
      if a[0] != b[0] {
        assert a[..0] == b[..0];
      } else if Memcmp(a, b, n) != 0 {
        MemcmpSign(a[1..], b[1..], n - 1);
        var i :| 0 <= i < n - 1 && a[1..][..i] == b[1..][..i] && a[1..][i] != b[1..][i]
                 && (Memcmp(a[1..], b[1..], n - 1) < 0 <==> a[1..][i] < b[1..][i]);
        assert a[..i + 1] == [a[0]] + a[1..][..i];
        assert b[..i + 1] == [b[0]] + b[1..][..i];
      }
    }
  }

  /** memcmp is antisymmetric: swapping the operands negates the result. */
  lemma {:induction false} MemcmpAntisymmetric(a: seq<byte>, b: seq<byte>, n: nat)
    requires n <= |a| && n <= |b|
    ensures Memcmp(a, b, n) == -Memcmp(b, a, n)
    decreases n
  {
    if n > 0 && a[0] == b[0] {
      MemcmpAntisymmetric(a[1..], b[1..], n - 1);
    }
  }

  /** A C string: a byte array that holds a terminating NUL somewhere. */
  predicate IsCString(s: seq<byte>) {
    NUL in s
  }

  /** strlen: the index of the first NUL. */
  function CStrLen(s: seq<byte>): (len: nat)
    requires IsCString(s)
    ensures len < |s| && s[len] == NUL
    ensures forall i :: 0 <= i < len ==> s[i] != NUL
    decreases |s|
  {
    if s[0] == NUL then 0
    else
      assert NUL in s[1..] by { var j :| 0 <= j < |s| && s[j] == NUL; assert s[1..][j - 1] == NUL; }
      1 + CStrLen(s[1..])
  }

  /** strlen is `n` exactly when the first NUL stands at index `n`. */
  lemma CStrLenAt(s: seq<byte>, n: nat)
    requires n < |s| && s[n] == NUL && forall i :: 0 <= i < n ==> s[i] != NUL
    ensures IsCString(s) && CStrLen(s) == n
  {
  }

  /** The text of a C string together with its terminator, as strcmp sees it. */
  function Terminated(s: seq<byte>): (t: seq<byte>)
    requires IsCString(s)
    ensures |t| == CStrLen(s) + 1 && t[|t| - 1] == NUL
  {
    s[..CStrLen(s) + 1]
  }

  /**
   * strcmp: compares two C strings byte by byte, as unsigned chars, up to
   * and including the first NUL of either.
   */
  function Strcmp(a: seq<byte>, b: seq<byte>): (r: int)
    requires IsCString(a) && IsCString(b)
    ensures -1 <= r <= 1
    decreases |a|
  {
    if a[0] != b[0] then (if a[0] < b[0] then -1 else 1)
    else if a[0] == NUL then 0
    else
      assert IsCString(a[1..]) && IsCString(b[1..]) by {
        assert CStrLen(a) > 0 && a[1..][CStrLen(a) - 1] == NUL;
        assert CStrLen(b) > 0 && b[1..][CStrLen(b) - 1] == NUL;
      }
      Strcmp(a[1..], b[1..])
  }

  /** strcmp reports equality exactly when the two strings agree up to and including the NUL. */
  lemma {:induction false} StrcmpZeroIff(a: seq<byte>, b: seq<byte>)
    requires IsCString(a) && IsCString(b)
    ensures Strcmp(a, b) == 0 <==> Terminated(a) == Terminated(b)
    decreases |a|
  {
    if a[0] != b[0] {
      assert Terminated(a)[0] != Terminated(b)[0];
    } else if a[0] != NUL {
      assert CStrLen(a) > 0 && a[1..][CStrLen(a) - 1] == NUL;
      assert CStrLen(b) > 0 && b[1..][CStrLen(b) - 1] == NUL;
      CStrLenTail(a);
      CStrLenTail(b);
      StrcmpZeroIff(a[1..], b[1..]);
      assert Terminated(a) == [a[0]] + Terminated(a[1..]);
      assert Terminated(b) == [b[0]] + Terminated(b[1..]);
      assert Terminated(a) == Terminated(b) ==> Terminated(a)[1..] == Terminated(b)[1..];
    }
  }

  /** Dropping a leading non-NUL byte shortens the string by one. */
  lemma CStrLenTail(s: seq<byte>)
    requires IsCString(s) && s[0] != NUL
    ensures IsCString(s[1..]) && CStrLen(s[1..]) == CStrLen(s) - 1
  {
    assert s[1..][CStrLen(s) - 1] == NUL;
  }

  // ---------------------------------------------------------------------
  // The assertion macros
  // ---------------------------------------------------------------------

  /** One use of an assertion macro, with the values of its arguments. */
  datatype Assertion =
    | IsTrue(val: int)                                    // L_TEST_ASSERT(val)
    | IsFalse(val: int)                                   // L_TEST_ASSERTN(val)
    | EqInt(num: int32, refNum: int32)                    // L_TEST_ASSERTEQ_INT(val, ref)
    | EqFlt(verdict: bool)                                // L_TEST_ASSERTEQ_FLT: the float test is an input
    | EqBuf(buf: seq<byte>, refBuf: seq<byte>, size: nat) // L_TEST_ASSERTEQ_BUF(val, ref, size)
    | EqStr(str: seq<byte>, refStr: seq<byte>)            // L_TEST_ASSERTEQ_STR(val, ref)

  /** The arguments are ones C gives a meaning to: buffers long enough, strings terminated. */
  predicate Defined(a: Assertion) {
    match a
    case EqBuf(v, r, n) => n <= |v| && n <= |r|
    case EqStr(v, r) => IsCString(v) && IsCString(r)
    case _ => true
  }

  /** Every assertion of a case body has defined arguments. */
  predicate AllDefined(body: seq<Assertion>) {
    forall i :: 0 <= i < |body| ==> Defined(body[i])
  }

  /** The scalar each macro passes as `val` to the base assertion. */
  function Condition(a: Assertion): int
    requires Defined(a)
  {
    match a
    case IsTrue(v) => v
    case IsFalse(v) => Not(v)
    case EqInt(v, r) => FromBool(v == r)
    case EqFlt(b) => FromBool(b)
    case EqBuf(v, r, n) => Not(Memcmp(v, r, n))
    case EqStr(v, r) => Not(Strcmp(v, r))
  }

  /** The base assertion takes its failure branch on `!val`. */
  predicate Holds(a: Assertion)
    requires Defined(a)
  {
    Truthy(Condition(a))
  }

  /** What each macro is meant to check, stated without the C library. */
  predicate Intended(a: Assertion)
    requires Defined(a)
  {
    match a
    case IsTrue(v) => v != 0
    case IsFalse(v) => v == 0
    case EqInt(v, r) => v == r
    case EqFlt(b) => b
    case EqBuf(v, r, n) => v[..n] == r[..n]
    case EqStr(v, r) => Terminated(v) == Terminated(r)
  }

  /** Every assertion macro passes exactly when its intended condition holds. */
  lemma HoldsIff(a: Assertion)
    requires Defined(a)
    ensures Holds(a) <==> Intended(a)
  {
    match a
    case EqBuf(v, r, n) => MemcmpZeroIff(v, r, n);
    case EqStr(v, r) => StrcmpZeroIff(v, r);
    case _ =>
  }

  /** The diagnostic text a failing macro prints after the location. */
  datatype Diag =
    | AssertionFailed                                     // "Assertion failed."
    | IntMismatch(expectedInt: int32, gotInt: int32)      // "Expected <ref>; got <val>."
    | FltMismatch                                         // "Expected <ref>; got <val> (>.1% error)"
    | BufferMismatch                                      // "Buffer mismatch."
    | StringMismatch(expected: seq<byte>, got: seq<byte>) // "String mismatch." with both texts

  function Diagnose(a: Assertion): Diag
    requires Defined(a)
  {
    match a
    case IsTrue(_) => AssertionFailed
    case IsFalse(_) => AssertionFailed
    case EqInt(v, r) => IntMismatch(r, v)
    case EqFlt(_) => FltMismatch
    case EqBuf(_, _, _) => BufferMismatch
    case EqStr(v, r) => StringMismatch(r[..CStrLen(r)], v[..CStrLen(v)])
  }
}

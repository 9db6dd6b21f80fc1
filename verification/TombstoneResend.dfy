/** How long a published tombstone waits for its acknowledgement before it is published again. */
module TombstoneResend {
  import opened Orders

  const MAX_DOUBLINGS: nat := 30

  function Power(n: nat): nat {
    if n == 0 then 1 else 2 * Power(n - 1)
  }

  function Min(a: real, b: real): real {
    if a <= b then a else b
  }

  /** The wait booked after the n-th resend; the wait after the first publication is not capped. */
  function Wait(after: real, cap: real, n: nat): real {
    if n == 0 then after
    else Min(Doubled(after, n), cap)
  }

  /** How often the wait is doubled after the n-th resend. */
  function Doublings(n: nat): nat {
    if n <= MAX_DOUBLINGS then n else MAX_DOUBLINGS
  }

  /** The uncapped wait. */
  function Doubled(after: real, n: nat): real {
    after * Power(Doublings(n)) as real
  }

  lemma DoublesUpTo(after: real, n: nat)
    requires after >= 0.0
    ensures after * Power(n) as real <= after * Power(n + 1) as real
  {
    var p := Power(n) as real;
    assert Power(n + 1) as real == 2.0 * p;
    assert after * (2.0 * p) == after * p + after * p;
    assert after * p >= 0.0;
  }

  lemma {:induction false} Doubles(after: real, m: nat, n: nat)
    requires after >= 0.0 && m <= n
    ensures after * Power(m) as real <= after * Power(n) as real
  {
    if m < n {
      Doubles(after, m, n - 1);
      DoublesUpTo(after, n - 1);
    }
  }

  ghost predicate NeverShrinks(after: real, cap: real) {
    forall n: nat :: Wait(after, cap, n) <= Wait(after, cap, n + 1)
  }

  ghost predicate NeverAbove(after: real, cap: real) {
    forall n: nat :: Wait(after, cap, n) <= cap
  }

  lemma NextWait(after: real, cap: real, n: nat)
    requires 0.0 <= after <= cap
    ensures Wait(after, cap, n) <= Wait(after, cap, n + 1) && Wait(after, cap, n) <= cap
  {
    if n == 0 {
      assert Power(1) == 2;
      assert Doubled(after, 1) == after * 2.0 == after + after;
    } else if n < MAX_DOUBLINGS {
      Doubles(after, n, n + 1);
    }
  }

  /** The waits never shrink, and never exceed the cap, exactly when the first wait is within it. */
  lemma WaitsGrowExactlyWhen(after: real, cap: real)
    requires after >= 0.0
    ensures NeverShrinks(after, cap) <==> after <= cap
    ensures NeverAbove(after, cap) <==> after <= cap
  {
    if after <= cap {
      forall n: nat
        ensures Wait(after, cap, n) <= Wait(after, cap, n + 1) && Wait(after, cap, n) <= cap
      {
        NextWait(after, cap, n);
      }
    } else {
      assert Wait(after, cap, 0) == after && Wait(after, cap, 0 + 1) <= cap;
    }
  }

  lemma DoublingDoubles(after: real, n: nat)
    requires n < MAX_DOUBLINGS
    ensures Doubled(after, n + 1) == 2.0 * Doubled(after, n)
  {
    var p := Power(n) as real;
    assert Power(n + 1) as real == 2.0 * p;
    assert after * (2.0 * p) == 2.0 * (after * p);
  }

  /** The wait doubles until it reaches the cap or the thirtieth resend. */
  lemma WaitsDouble(after: real, cap: real, n: nat)
    requires n < MAX_DOUBLINGS && 0.0 < cap && 2.0 * Wait(after, cap, n) <= cap
    ensures Wait(after, cap, n + 1) == 2.0 * Wait(after, cap, n)
  {
    DoublingDoubles(after, n);
    if n == 0 { assert Doubled(after, 0) == after * 1.0; }
  }

  /** The delivery columns of a tombstone row. */
  class TombstoneRow {
    var published: bool
    var acknowledged: bool
    var resendCount: nat
    var nextResend: Option<real>
    ghost var after: real
    ghost var cap: real

    /** While it waits for its acknowledgement, the row's next resend is due one booked wait after the
        publication or resend of that number, or after a failed attempt. */
    ghost predicate Booked(at: real)
      reads this
    {
      nextResend == Some(at + Wait(after, cap, resendCount))
    }

    constructor (after: real, cap: real)
      ensures !published && !acknowledged && resendCount == 0 && nextResend == None
      ensures this.after == after && this.cap == cap
    {
      published, acknowledged, resendCount, nextResend := false, false, 0, None;
      this.after, this.cap := after, cap;
    }

    method MarkPublished(now: real, wait: real) returns (marked: bool)
      requires wait == after && resendCount == 0
      modifies this`published, this`nextResend
      ensures marked == !old(published) && published
      ensures marked ==> Booked(now)
      ensures !marked ==> nextResend == old(nextResend)
    {
      marked := !published;
      if marked { published, nextResend := true, Some(now + wait); }
    }

    /** A resend that is not acknowledged yet books the next, longer wait; an acknowledgement that
        came first is left alone. */
    method MarkResent(now: real, first: real, longest: real)
      requires first == after && longest == cap
      modifies this`resendCount, this`nextResend
      ensures acknowledged ==> resendCount == old(resendCount) && nextResend == old(nextResend)
      ensures !acknowledged ==> resendCount == old(resendCount) + 1 && Booked(now)
    {
      if !acknowledged {
        nextResend := Some(now + Min(Doubled(first, resendCount + 1), longest));
        resendCount := resendCount + 1;
      }
    }

    /** The acknowledgement is recorded once, and an unpublished row counts as published. */
    method Acknowledge() returns (matched: bool)
      modifies this`acknowledged, this`published
      ensures matched == !old(acknowledged) && acknowledged
      ensures published == (old(published) || matched)
    {
      matched := !acknowledged;
      if matched { acknowledged, published := true, true; }
    }
  }
}

/**
 * Bucketing of priced records into numbered slots, the aggregation shared by
 * the monthly income chart and the weekday expense chart: each record either
 * names a slot (`Some(k)`) or is skipped (`None`), and its price is added to
 * the slot it names.
 */
module Buckets {
  import opened Wrappers

  /** Every slot a record can name is below `n`. */
  ghost predicate Bounded<R(!new)>(slot: R -> Option<nat>, n: nat)
  {
    forall r :: slot(r).Some? ==> slot(r).value < n
  }

  /** `n` zero slots (`new Array(n).fill(0)`). */
  function Zeros(n: nat): (z: seq<int>)
    ensures |z| == n && forall k :: 0 <= k < n ==> z[k] == 0
  {
    seq(n, _ => 0)
  }

  /** Adding one record's price to the slot it names. */
  function Deposit<R(!new)>(slots: seq<int>, rec: R, slot: R -> Option<nat>, price: R -> int): (r: seq<int>)
    requires Bounded(slot, |slots|)
    ensures |r| == |slots|
  {
    match slot(rec)
    case None => slots
    case Some(k) => slots[k := slots[k] + price(rec)]
  }

  /** The `n` slots after depositing every record, first to last. */
  function Bucketed<R(!new)>(records: seq<R>, slot: R -> Option<nat>, price: R -> int, n: nat): (r: seq<int>)
    requires Bounded(slot, n)
    ensures |r| == n
  {
    if |records| == 0 then Zeros(n)
    else Deposit(Bucketed(records[..|records| - 1], slot, price, n), records[|records| - 1], slot, price)
  }

  /** Reference definition: the total price of the records that name slot `k`. */
  function Total<R(!new)>(records: seq<R>, slot: R -> Option<nat>, price: R -> int, k: nat): int
  {
    if |records| == 0 then 0
    else
      var rec := records[|records| - 1];
      Total(records[..|records| - 1], slot, price, k) + (if slot(rec) == Some(k) then price(rec) else 0)
  }

  /** The total price of the records that name any slot. */
  function Counted<R(!new)>(records: seq<R>, slot: R -> Option<nat>, price: R -> int): int
  {
    if |records| == 0 then 0
    else
      var rec := records[|records| - 1];
      Counted(records[..|records| - 1], slot, price) + (if slot(rec).Some? then price(rec) else 0)
  }

  function Sum(s: seq<int>): int
  {
    if |s| == 0 then 0 else Sum(s[..|s| - 1]) + s[|s| - 1]
  }

  /** Each slot holds exactly the total of the records naming it. */
  lemma {:induction false} SlotIsTotal<R(!new)>(records: seq<R>, slot: R -> Option<nat>, price: R -> int, n: nat, k: nat)
    requires Bounded(slot, n) && k < n
    ensures Bucketed(records, slot, price, n)[k] == Total(records, slot, price, k)
  {
    if |records| > 0 {
      SlotIsTotal(records[..|records| - 1], slot, price, n, k);
    }
  }

  lemma {:induction false} SumUpdate(s: seq<int>, k: nat, p: int)
    requires k < |s|
    ensures Sum(s[k := s[k] + p]) == Sum(s) + p
  {
    var t := s[k := s[k] + p];
    if k < |s| - 1 {
      assert t[..|t| - 1] == s[..|s| - 1][k := s[k] + p];
      SumUpdate(s[..|s| - 1], k, p);
    } else {
      assert t[..|t| - 1] == s[..|s| - 1];
    }
  }

  lemma {:induction false} ZerosSum(n: nat)
    ensures Sum(Zeros(n)) == 0
  {
    if n > 0 {
      assert Zeros(n)[..n - 1] == Zeros(n - 1);
      ZerosSum(n - 1);
    }
  }

  /** Nothing is lost or invented: the slots add up to the total of the records that name one. */
  lemma {:induction false} SlotsAddUp<R(!new)>(records: seq<R>, slot: R -> Option<nat>, price: R -> int, n: nat)
    requires Bounded(slot, n)
    ensures Sum(Bucketed(records, slot, price, n)) == Counted(records, slot, price)
  {
    if |records| == 0 {
      ZerosSum(n);
    } else {
      var init := records[..|records| - 1];
      var rec := records[|records| - 1];
      SlotsAddUp(init, slot, price, n);
      match slot(rec)
      case None =>
      case Some(k) => SumUpdate(Bucketed(init, slot, price, n), k, price(rec));
    }
  }

  lemma {:induction false} TotalConcat<R(!new)>(a: seq<R>, b: seq<R>, slot: R -> Option<nat>, price: R -> int, k: nat)
    ensures Total(a + b, slot, price, k) == Total(a, slot, price, k) + Total(b, slot, price, k)
    decreases |b|
  {
    if |b| == 0 {
      assert a + b == a;
    } else {
      assert (a + b)[..|a + b| - 1] == a + b[..|b| - 1];
      TotalConcat(a, b[..|b| - 1], slot, price, k);
    }
  }

  /** A skipped record adds nothing to any slot's total, wherever it stands. */
  lemma SkippedTotal<R(!new)>(before: seq<R>, rec: R, after: seq<R>, slot: R -> Option<nat>, price: R -> int, k: nat)
    requires slot(rec).None?
    ensures Total(before + [rec] + after, slot, price, k) == Total(before + after, slot, price, k)
  {
    TotalConcat(before + [rec], after, slot, price, k);
    TotalConcat(before, [rec], slot, price, k);
    TotalConcat(before, after, slot, price, k);
    assert [rec][..0] == [];
  }

  /** Hence a skipped record leaves every slot as if it were absent. */
  lemma SkippedRecord<R(!new)>(before: seq<R>, rec: R, after: seq<R>, slot: R -> Option<nat>, price: R -> int, n: nat)
    requires Bounded(slot, n) && slot(rec).None?
    ensures Bucketed(before + [rec] + after, slot, price, n) == Bucketed(before + after, slot, price, n)
  {
    forall k | 0 <= k < n
      ensures Bucketed(before + [rec] + after, slot, price, n)[k] == Bucketed(before + after, slot, price, n)[k]
    {
      SlotIsTotal(before + [rec] + after, slot, price, n, k);
      SlotIsTotal(before + after, slot, price, n, k);
      SkippedTotal(before, rec, after, slot, price, k);
    }
  }

  /** Appending a record that names slot `k` adds its price to slot `k` and changes no other slot. */
  lemma AppendNamed<R(!new)>(records: seq<R>, rec: R, slot: R -> Option<nat>, price: R -> int, n: nat, k: nat)
    requires Bounded(slot, n) && slot(rec) == Some(k)
    ensures k < n
    ensures Bucketed(records + [rec], slot, price, n)
         == Bucketed(records, slot, price, n)[k := Bucketed(records, slot, price, n)[k] + price(rec)]
  {
    assert (records + [rec])[..|records|] == records;
  }

  /**
   * The `forEach` over the records: an array of `n` zero slots, each record's
   * price added in place to the slot its callback names.
   */
  method FillSlots<R(!new)>(records: seq<R>, slot: R -> Option<nat>, price: R -> int, n: nat)
    returns (slots: seq<int>)
    requires Bounded(slot, n)
    ensures slots == Bucketed(records, slot, price, n)
  {
    var a := new int[n](_ => 0);
    assert a[..] == Zeros(n);
    var i := 0;
    while i < |records|
      invariant 0 <= i <= |records|
      invariant a[..] == Bucketed(records[..i], slot, price, n)
    {
      assert records[..i + 1][..i] == records[..i];
      var s := slot(records[i]);
      if s.Some? {
        a[s.value] := a[s.value] + price(records[i]);
      }
      i := i + 1;
    }
    assert records[..i] == records;
    slots := a[..];
  }
  // ---------------------------------------------------------------------------
  // A callback that may throw

  /** What a callback without `try` does with one record: skip it, add it to slot `k`, or throw. */
  datatype Step = Skip | Into(k: nat) | Throw

  ghost predicate StepBounded<R(!new)>(step: R -> Step, n: nat)
  {
    forall r :: step(r).Into? ==> step(r).k < n
  }

  /** The slots after the loop, or `None` when some record's callback throws and aborts it. */
  function BucketedOrThrow<R(!new)>(records: seq<R>, step: R -> Step, price: R -> int, n: nat): (r: Option<seq<int>>)
    requires StepBounded(step, n)
    ensures r.Some? ==> |r.value| == n
  {
    if |records| == 0 then Some(Zeros(n))
    else
      var rec := records[|records| - 1];
      match BucketedOrThrow(records[..|records| - 1], step, price, n)
      case None => None
      case Some(slots) =>
        match step(rec)
        case Throw => None
        case Skip => Some(slots)
        case Into(k) => Some(slots[k := slots[k] + price(rec)])
  }

  /** The loop is aborted exactly when the callback throws for some record. */
  lemma {:induction false} ThrowIff<R(!new)>(records: seq<R>, step: R -> Step, price: R -> int, n: nat)
    requires StepBounded(step, n)
    ensures BucketedOrThrow(records, step, price, n).None? <==> exists i :: 0 <= i < |records| && step(records[i]).Throw?
  {
    if |records| > 0 {
      var init := records[..|records| - 1];
      ThrowIff(init, step, price, n);
      if exists i :: 0 <= i < |init| && step(init[i]).Throw? {
        var i :| 0 <= i < |init| && step(init[i]).Throw?;
        assert records[i] == init[i];
      }
      if exists i :: 0 <= i < |records| && step(records[i]).Throw? {
        var i :| 0 <= i < |records| && step(records[i]).Throw?;
        if i < |init| {
          assert init[i] == records[i];
        }
      }
    }
  }

  /** The step and the slot agree on a record when neither throws and they place it alike. */
  predicate Agrees(s: Step, o: Option<nat>)
  {
    (s.Skip? && o.None?) || (s.Into? && o == Some(s.k))
  }

  /** When no callback throws, the loop ends with the slots of the catching version. */
  lemma {:induction false} NoThrowAgrees<R(!new)>(records: seq<R>, step: R -> Step, slot: R -> Option<nat>,
                                                  price: R -> int, n: nat)
    requires StepBounded(step, n) && Bounded(slot, n)
    requires forall i :: 0 <= i < |records| ==> Agrees(step(records[i]), slot(records[i]))
    ensures BucketedOrThrow(records, step, price, n) == Some(Bucketed(records, slot, price, n))
  {
    if |records| > 0 {
      var init := records[..|records| - 1];
      forall i | 0 <= i < |init| ensures Agrees(step(init[i]), slot(init[i])) {
        assert init[i] == records[i];
      }
      NoThrowAgrees(init, step, slot, price, n);
      assert Agrees(step(records[|records| - 1]), slot(records[|records| - 1]));
    }
  }

  /** The `forEach` with a callback that may throw: the first throw aborts the loop. */
  method FillSlotsOrThrow<R(!new)>(records: seq<R>, step: R -> Step, price: R -> int, n: nat)
    returns (slots: Option<seq<int>>)
    requires StepBounded(step, n)
    ensures slots == BucketedOrThrow(records, step, price, n)
  {
    var a := new int[n](_ => 0);
    assert a[..] == Zeros(n);
    var i := 0;
    while i < |records|
      invariant 0 <= i <= |records|
      invariant BucketedOrThrow(records[..i], step, price, n) == Some(a[..])
    {
      assert records[..i + 1][..i] == records[..i];
      var s := step(records[i]);
      if s.Throw? {
        ThrownStays(records, i + 1, step, price, n);
        return None;
      }
      if s.Into? {
        a[s.k] := a[s.k] + price(records[i]);
      }
      i := i + 1;
    }
    assert records[..i] == records;
    slots := Some(a[..]);
  }

  /** Once the loop has been aborted, it stays aborted. */
  lemma {:induction false} ThrownStays<R(!new)>(records: seq<R>, i: nat, step: R -> Step, price: R -> int, n: nat)
    requires StepBounded(step, n) && i <= |records|
    requires BucketedOrThrow(records[..i], step, price, n).None?
    ensures BucketedOrThrow(records, step, price, n).None?
    decreases |records| - i
  {
    if i < |records| {
      assert records[..i + 1][..i] == records[..i];
      ThrownStays(records, i + 1, step, price, n);
    } else {
      assert records[..i] == records;
    }
  }
}

/**
 The persisted state of a project as the metric store keeps it: set_state and
 get_state in shadowfiend/processor/service/fetcher.py.

 A metric is the set of timestamps it has measures at.  Reading it aggregates
 the measures into buckets of one period and lists the bucket starts in order.
 */
module StateStore {
  import opened Wrappers

  function Bucket(ts: nat, period: nat): nat
    requires period > 0
  {
    ts - ts % period
  }

  function Buckets(measures: set<nat>, period: nat): set<nat>
    requires period > 0
  {
    set ts | ts in measures :: Bucket(ts, period)
  }

  predicate IsMax(m: nat, s: set<nat>) {
    m in s && forall x :: x in s ==> x <= m
  }

  predicate IsMin(m: nat, s: set<nat>) {
    m in s && forall x :: x in s ==> m <= x
  }

  lemma {:induction false} MaxExists(s: set<nat>)
    requires s != {}
    ensures exists m :: IsMax(m, s)
    decreases |s|
  {
    var x :| x in s;
    if s == {x} {
      assert IsMax(x, s);
    } else {
      MaxExists(s - {x});
      var m :| IsMax(m, s - {x});
      var top := if x > m then x else m;
      assert forall y :: y in s ==> y == x || y in s - {x};
      assert IsMax(top, s);
    }
  }

  lemma {:induction false} MinExists(s: set<nat>)
    requires s != {}
    ensures exists m :: IsMin(m, s)
    decreases |s|
  {
    var x :| x in s;
    if s == {x} {
      assert IsMin(x, s);
    } else {
      MinExists(s - {x});
      var m :| IsMin(m, s - {x});
      var bottom := if x < m then x else m;
      assert forall y :: y in s ==> y == x || y in s - {x};
      assert IsMin(bottom, s);
    }
  }

  function Max(s: set<nat>): (m: nat)
    requires s != {}
    ensures IsMax(m, s)
  {
    MaxExists(s);
    var m :| IsMax(m, s);
    m
  }

  function Min(s: set<nat>): (m: nat)
    requires s != {}
    ensures IsMin(m, s)
  {
    MinExists(s);
    var m :| IsMin(m, s);
    m
  }

  /** get_state(..., 'top'): the last bucket, if there is any measure. */
  function Top(measures: set<nat>, period: nat): Option<nat>
    requires period > 0
  {
    if Buckets(measures, period) == {} then None else Some(Max(Buckets(measures, period)))
  }

  /** get_state(..., 'bottom'): the first bucket, if there is any measure. */
  function Bottom(measures: set<nat>, period: nat): Option<nat>
    requires period > 0
  {
    if Buckets(measures, period) == {} then None else Some(Min(Buckets(measures, period)))
  }

  predicate Aligned(ts: nat, period: nat)
    requires period > 0
  {
    ts % period == 0
  }

  lemma BucketAligned(ts: nat, period: nat)
    requires period > 0
    ensures Aligned(Bucket(ts, period), period)
  {
    var q := ts / period;
    assert Bucket(ts, period) == q * period;
    MultipleAligned(q, period);
  }

  lemma MultiplesApart(n: int, period: int)
    requires period > 0
    ensures n >= 1 ==> n * period >= period
    ensures n <= -1 ==> n * period <= -period
  {
  }

  lemma MultipleAligned(q: nat, period: nat)
    requires period > 0
    ensures (q * period) % period == 0
  {
    var r := (q * period) % period;
    var d := (q * period) / period;
    assert q * period == d * period + r;
    assert (q - d) * period == r;
    MultiplesApart(q - d, period);
  }

  /** Between two neighbouring multiples of the period there is no third. */
  lemma AlignedGap(a: nat, b: nat, period: nat)
    requires period > 0 && Aligned(a, period) && Aligned(b, period)
    ensures Aligned(a + period, period)
    ensures a < b ==> a + period <= b
  {
    var i, j := a / period, b / period;
    assert a == i * period && b == j * period;
    assert a + period == (i + 1) * period;
    MultipleAligned(i + 1, period);
    assert b - a == (j - i) * period;
    MultiplesApart(j - i, period);
  }

  /** The full hour is a multiple of any period that divides the hour. */
  lemma HourAligned(now: nat, period: nat)
    requires period > 0 && 3600 % period == 0
    ensures Aligned(now - now % 3600, period)
  {
    var h, k := now / 3600, 3600 / period;
    assert now - now % 3600 == h * 3600;
    assert h * 3600 == h * (k * period) == (h * k) * period;
    MultipleAligned(h * k, period);
  }

  /**
   A metric written once a period: its measures are exactly the multiples of
   the period from its first to its last one.
   */
  ghost predicate Ladder(measures: set<nat>, period: nat)
    requires period > 0
  {
    measures != {} ==>
      && Aligned(Min(measures), period) && Min(measures) > 0
      && forall ts :: ts in measures <==> Min(measures) <= ts <= Max(measures) && Aligned(ts, period)
  }

  lemma LadderBuckets(measures: set<nat>, period: nat)
    requires period > 0 && Ladder(measures, period)
    ensures Buckets(measures, period) == measures
    ensures Top(measures, period) == if measures == {} then None else Some(Max(measures))
  {
  }

  /** Reading the top gives back what the last write wrote. */
  lemma WriteThenRead(measures: set<nat>, begin: nat, period: nat)
    requires period > 0 && Ladder(measures, period)
    requires begin > 0 && Aligned(begin, period)
    requires measures != {} ==> begin == Max(measures) + period
    ensures Ladder(measures + {begin}, period)
    ensures Top(measures + {begin}, period) == Some(begin)
    ensures Max(measures + {begin}) == begin
    ensures Min(measures + {begin}) == if measures == {} then begin else Min(measures)
  {
    var after := measures + {begin};
    assert Max(after) == begin;
    if measures == {} {
      assert Min(after) == begin;
    } else {
      assert Min(after) == Min(measures);
      forall ts | Min(after) <= ts <= Max(after) && Aligned(ts, period)
        ensures ts in after
      {
        if ts > Max(measures) {
          AlignedGap(Max(measures), ts, period);
        }
      }
    }
    LadderBuckets(after, period);
  }
}

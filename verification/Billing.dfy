/** Which period a processor bills next: _check_state in shadowfiend/processor/service/service.py. */
module Billing {
  import opened Wrappers
  import opened StateStore

  /** The options of the processor; the clock and the stores are read, not configured. */
  datatype Config = Config(period: nat, historicalExpenses: bool, allowOweAction: bool)

  predicate Valid(c: Config) {
    c.period > 0
  }

  /** A first run starts on a multiple of the period whatever the clock says. */
  predicate StartsAligned(c: Config)
    requires Valid(c)
  {
    c.historicalExpenses || 3600 % c.period == 0
  }

  datatype Start =
    | ResumeAfter(ts: nat)   // bill the period after this one, once cloudkitty has closed it
    | StartAt(hour: nat)     // first run: bill the current hour at once
    | NoRecord               // None plus a number: the check raises

  /** The first half of the check. A timestamp of zero counts as no timestamp. */
  function ReadState(c: Config, state: set<nat>, meter: set<nat>, now: nat): Start
    requires Valid(c)
  {
    var persisted := Top(state, c.period);
    if persisted.Some? && persisted.value != 0 then ResumeAfter(persisted.value)
    else if c.historicalExpenses then
      var first := Bottom(meter, c.period);
      if first.Some? then ResumeAfter(first.value) else NoRecord
    else StartAt(now - now % 3600)
  }

  /** The second half: the next period if it ends before cloudkitty's last record, else zero. */
  function NextBegin(c: Config, ts: nat, meter: set<nat>): nat
    requires Valid(c)
  {
    var top := Top(meter, c.period);
    if top.Some? && ts + c.period < top.value then ts + c.period else 0
  }

  /** The whole check, for a processor that nobody runs beside. */
  function CheckState(c: Config, state: set<nat>, meter: set<nat>, now: nat): Option<nat>
    requires Valid(c)
  {
    match ReadState(c, state, meter, now)
    case ResumeAfter(ts) => Some(NextBegin(c, ts, meter))
    case StartAt(hour) => Some(hour)
    case NoRecord => None
  }

  lemma ReadStateAligned(c: Config, state: set<nat>, meter: set<nat>, now: nat)
    requires Valid(c) && StartsAligned(c) && Ladder(state, c.period)
    ensures var r := ReadState(c, state, meter, now);
      && (r.ResumeAfter? ==> Aligned(r.ts, c.period) && (state != {} ==> r.ts == Max(state)))
      && (r.StartAt? ==> Aligned(r.hour, c.period) && state == {})
      && (r.NoRecord? ==> state == {})
  {
    LadderBuckets(state, c.period);
    if state == {} {
      if !c.historicalExpenses {
        HourAligned(now, c.period);
      } else if Bottom(meter, c.period).Some? {
        var ts :| ts in meter && Bottom(meter, c.period).value == Bucket(ts, c.period);
        BucketAligned(ts, c.period);
      }
    }
  }

  // ---------- What the check answers, in terms of the measures ----------

  /** b is the start of the bucket of the last measure. */
  ghost predicate LastBucket(b: nat, measures: set<nat>, period: nat)
    requires period > 0
  {
    b % period == 0 && (exists ts :: ts in measures && b <= ts) && forall ts :: ts in measures ==> ts < b + period
  }

  /** b is the start of the bucket of the first measure. */
  ghost predicate FirstBucket(b: nat, measures: set<nat>, period: nat)
    requires period > 0
  {
    b % period == 0 && (exists ts :: ts in measures && ts < b + period) && forall ts :: ts in measures ==> b <= ts
  }

  /** The bucket of a measure is the multiple of the period it is in. */
  lemma BucketOf(ts: nat, period: nat)
    requires period > 0
    ensures Aligned(Bucket(ts, period), period) && Bucket(ts, period) <= ts < Bucket(ts, period) + period
  {
    BucketAligned(ts, period);
  }

  lemma TopIsLast(measures: set<nat>, period: nat)
    requires period > 0
    ensures Top(measures, period).None? <==> measures == {}
    ensures Top(measures, period).Some? ==> LastBucket(Top(measures, period).value, measures, period)
  {
    if ts :| ts in measures {
      assert Bucket(ts, period) in Buckets(measures, period);
      var m := Top(measures, period).value;
      var last :| last in measures && Bucket(last, period) == m;
      BucketOf(last, period);
      forall x | x in measures
        ensures x < m + period
      {
        BucketOf(x, period);
        assert Bucket(x, period) in Buckets(measures, period);
      }
    }
  }

  lemma BottomIsFirst(measures: set<nat>, period: nat)
    requires period > 0
    ensures Bottom(measures, period).None? <==> measures == {}
    ensures Bottom(measures, period).Some? ==> FirstBucket(Bottom(measures, period).value, measures, period)
  {
    if ts :| ts in measures {
      assert Bucket(ts, period) in Buckets(measures, period);
      var m := Bottom(measures, period).value;
      var first :| first in measures && Bucket(first, period) == m;
      BucketOf(first, period);
      forall x | x in measures
        ensures m <= x
      {
        BucketOf(x, period);
        assert Bucket(x, period) in Buckets(measures, period);
      }
    }
  }

  lemma LastBucketUnique(a: nat, b: nat, measures: set<nat>, period: nat)
    requires period > 0 && LastBucket(a, measures, period) && LastBucket(b, measures, period)
    ensures a == b
  {
    if a < b {
      AlignedGap(a, b, period);
    } else if b < a {
      AlignedGap(b, a, period);
    }
  }

  lemma FirstBucketUnique(a: nat, b: nat, measures: set<nat>, period: nat)
    requires period > 0 && FirstBucket(a, measures, period) && FirstBucket(b, measures, period)
    ensures a == b
  {
    if a < b {
      AlignedGap(a, b, period);
    } else if b < a {
      AlignedGap(b, a, period);
    }
  }

  /** Without historical expenses a first run starts at the full hour the clock is in. */
  lemma FirstRunIsThisHour(c: Config, meter: set<nat>, now: nat)
    requires Valid(c) && !c.historicalExpenses
    ensures CheckState(c, {}, meter, now).Some?
    ensures var h := CheckState(c, {}, meter, now).value; h % 3600 == 0 && h <= now < h + 3600
  {
    TopIsLast({}, c.period);
  }

  /** The period after `from` is due exactly if it ends before cloudkitty's last bucket begins. */
  lemma NextIsDue(c: Config, from: nat, meter: set<nat>, last: nat)
    requires Valid(c) && LastBucket(last, meter, c.period)
    ensures NextBegin(c, from, meter) == if from + c.period < last then from + c.period else 0
  {
    TopIsLast(meter, c.period);
    LastBucketUnique(last, Top(meter, c.period).value, meter, c.period);
  }

  /** With historical expenses it starts one period after the bucket of cloudkitty's first record, if that is due. */
  lemma FirstRunIsAfterFirstRecord(c: Config, meter: set<nat>, now: nat, first: nat, last: nat)
    requires Valid(c) && c.historicalExpenses
    requires FirstBucket(first, meter, c.period) && LastBucket(last, meter, c.period)
    ensures CheckState(c, {}, meter, now) == Some(if first + c.period < last then first + c.period else 0)
  {
    TopIsLast({}, c.period);
    BottomIsFirst(meter, c.period);
    FirstBucketUnique(first, Bottom(meter, c.period).value, meter, c.period);
    NextIsDue(c, first, meter, last);
  }

  /** Without a record of cloudkitty's there is nothing to start from, and the check raises. */
  lemma NoRecordRaises(c: Config, now: nat)
    requires Valid(c) && c.historicalExpenses
    ensures CheckState(c, {}, {}, now) == None
  {
    TopIsLast({}, c.period);
    BottomIsFirst({}, c.period);
  }

  /** A later run bills the period after the last one persisted, if that is due. */
  lemma LaterRunIsNext(c: Config, state: set<nat>, meter: set<nat>, now: nat, from: nat, last: nat)
    requires Valid(c) && from > 0 && LastBucket(from, state, c.period) && LastBucket(last, meter, c.period)
    ensures CheckState(c, state, meter, now) == Some(if from + c.period < last then from + c.period else 0)
  {
    TopIsLast(state, c.period);
    LastBucketUnique(from, Top(state, c.period).value, state, c.period);
    NextIsDue(c, from, meter, last);
  }
}

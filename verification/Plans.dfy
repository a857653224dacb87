/**
 The periods one processor has to bill, project by project, and what they
 cost: _check_state in shadowfiend/processor/service/service.py made again and
 again.
 */
module Plans {
  import opened Wrappers
  import opened Collections
  import opened Money
  import opened Sums
  import opened Tables
  import opened StateStore
  import opened Billing

  /** What does not change while the loop runs: cloudkitty's records and costs, keystone's payers, the clock. */
  datatype World = World(
    config: Config,
    meters: map<ProjectId, set<nat>>,
    payers: map<ProjectId, UserId>,
    clock: ProjectId -> nat,
    tariff: (ProjectId, nat) -> real,
    now: int)

  function Hour(w: World, p: ProjectId): nat {
    w.clock(p) - w.clock(p) % 3600
  }

  /** A first run in the very first period of the epoch would find its state reading zero again. */
  ghost predicate Sane(w: World) {
    Valid(w.config) && forall p :: Hour(w, p) == 0 || Hour(w, p) >= w.config.period
  }

  // ---------- The periods a project still has to pay ----------

  /** All ts + k * period, k >= 1, strictly below top. */
  function Begins(ts: nat, top: nat, period: nat): seq<nat>
    requires period > 0
    decreases top - ts
  {
    if ts + period < top then [ts + period] + Begins(ts + period, top, period) else []
  }

  /** Where the periods that were billed lead to. */
  function Reached(ts: nat, begins: seq<nat>): nat {
    if begins == [] then ts else begins[|begins| - 1]
  }

  /** Begins steps by the period and stops only at the last step below top. */
  lemma {:induction false} BeginsExact(ts: nat, top: nat, period: nat)
    requires period > 0
    ensures var bs := Begins(ts, top, period);
      && (forall i :: 0 <= i < |bs| ==> bs[i] < top && bs[i] == (if i == 0 then ts else bs[i - 1]) + period)
      && top <= Reached(ts, bs) + period
    decreases top - ts
  {
    if ts + period >= top {
    } else {
      BeginsExact(ts + period, top, period);
    }
  }

  /** Each begin in closed form. */
  lemma {:induction false} BeginsClosedForm(ts: nat, top: nat, period: nat, i: nat)
    requires period > 0 && i < |Begins(ts, top, period)|
    ensures Begins(ts, top, period)[i] == ts + (i + 1) * period
  {
    BeginsExact(ts, top, period);
    if i == 0 {
    } else {
      BeginsClosedForm(ts, top, period, i - 1);
      assert (i + 1) * period == i * period + period;
    }
  }

  function Upto(w: World, p: ProjectId, ts: nat): seq<nat>
    requires Valid(w.config)
  {
    var top := Top(At(w.meters, p), w.config.period);
    if top.Some? then Begins(ts, top.value, w.config.period) else []
  }

  /** The begins of the periods that will be billed, in order. */
  function Plan(w: World, states: map<ProjectId, set<nat>>, p: ProjectId): seq<nat>
    requires Valid(w.config)
  {
    match ReadState(w.config, At(states, p), At(w.meters, p), w.clock(p))
    case ResumeAfter(ts) => Upto(w, p, ts)
    case StartAt(hour) => if hour == 0 then [] else [hour] + Upto(w, p, Bucket(hour, w.config.period))
    case NoRecord => []
  }

  function Check(w: World, states: map<ProjectId, set<nat>>, p: ProjectId): Option<nat>
    requires Valid(w.config)
  {
    CheckState(w.config, At(states, p), At(w.meters, p), w.clock(p))
  }

  function Recorded(states: map<ProjectId, set<nat>>, p: ProjectId, begin: nat): map<ProjectId, set<nat>> {
    states[p := At(states, p) + {begin}]
  }

  /** A write above everything written so far is what the next read finds. */
  lemma TopAfterWrite(measures: set<nat>, begin: nat, period: nat)
    requires period > 0
    requires var top := Top(measures, period); top.Some? ==> top.value <= Bucket(begin, period)
    ensures Top(measures + {begin}, period) == Some(Bucket(begin, period))
  {
    var after := Buckets(measures + {begin}, period);
    assert after == Buckets(measures, period) + {Bucket(begin, period)};
    assert IsMax(Bucket(begin, period), after);
  }

  /** The check hands out the plan one period at a time, and zero when it is used up. */
  lemma PlanStep(w: World, states: map<ProjectId, set<nat>>, p: ProjectId)
    requires Sane(w)
    ensures var begin := Check(w, states, p);
      && (begin == Some(0) ==> Plan(w, states, p) == [])
      && (begin.Some? && begin.value > 0 ==>
            Plan(w, states, p) == [begin.value] + Plan(w, Recorded(states, p, begin.value), p))
  {
    var period, M, begin := w.config.period, At(states, p), Check(w, states, p);
    if begin.Some? && begin.value > 0 {
      var b := begin.value;
      match ReadState(w.config, M, At(w.meters, p), w.clock(p))
      case ResumeAfter(ts) =>
        ResumeAligned(w, states, p);
        AlignedGap(ts, ts, period);
        TopAfterWrite(M, b, period);
      case StartAt(hour) =>
        assert Bucket(hour, period) > 0 by {
          assert hour == Hour(w, p);
        }
        TopAfterWrite(M, hour, period);
    }
  }

  lemma TopIsAligned(measures: set<nat>, period: nat)
    requires period > 0
    ensures var top := Top(measures, period); top.Some? ==> Aligned(top.value, period)
  {
    var top := Top(measures, period);
    if top.Some? {
      var ts :| ts in measures && Bucket(ts, period) == top.value;
      BucketAligned(ts, period);
    }
  }

  lemma ResumeAligned(w: World, states: map<ProjectId, set<nat>>, p: ProjectId)
    requires Valid(w.config)
    ensures var r := ReadState(w.config, At(states, p), At(w.meters, p), w.clock(p));
      r.ResumeAfter? ==> Aligned(r.ts, w.config.period)
  {
    TopIsAligned(At(states, p), w.config.period);
    var bottom := Bottom(At(w.meters, p), w.config.period);
    if bottom.Some? {
      var ts :| ts in At(w.meters, p) && Bucket(ts, w.config.period) == bottom.value;
      BucketAligned(ts, w.config.period);
    }
  }

  // ---------- What is still to be paid ----------

  /** The rounded cost of the given periods of p. */
  function CostOf(w: World, p: ProjectId, begins: seq<nat>): int {
    if begins == [] then 0 else Quantize(w.tariff(p, begins[0])) + CostOf(w, p, begins[1..])
  }

  function PlansOf(w: World, states: map<ProjectId, set<nat>>, S: set<ProjectId>): map<ProjectId, seq<nat>>
    requires Valid(w.config)
  {
    map p | p in S :: Plan(w, states, p)
  }

  function DueView(w: World, plans: map<ProjectId, seq<nat>>, u: UserId): map<ProjectId, int> {
    map p | p in plans && p in w.payers && w.payers[p] == u :: CostOf(w, p, plans[p])
  }

  /** What user u will be debited for the remaining periods of the projects it pays. */
  ghost function Outstanding(w: World, plans: map<ProjectId, seq<nat>>, u: UserId): int {
    SumMap(DueView(w, plans, u))
  }

  /** Periods still to be billed. */
  ghost function Steps(plans: map<ProjectId, seq<nat>>): nat {
    var lengths := map p | p in plans :: |plans[p]|;
    SumMapNonNegative(lengths);
    SumMap(lengths)
  }

  lemma StepsBill(plans: map<ProjectId, seq<nat>>, p: ProjectId)
    requires p in plans && plans[p] != []
    ensures Steps(plans) == Steps(plans[p := plans[p][1..]]) + 1
  {
    var lengths := map r | r in plans :: |plans[r]|;
    var plans' := plans[p := plans[p][1..]];
    assert (map r | r in plans' :: |plans'[r]|) == lengths[p := |plans[p]| - 1];
    SumMapUpdate(lengths, p, |plans[p]| - 1);
  }

  /** Billing the next period of p pays its cost off, and only its payer's dues change. */
  lemma DuesBill(w: World, plans: map<ProjectId, seq<nat>>, p: ProjectId, u: UserId)
    requires p in plans && plans[p] != [] && p in w.payers
    ensures Outstanding(w, plans, u) == Outstanding(w, plans[p := plans[p][1..]], u)
      + if w.payers[p] == u then Quantize(w.tariff(p, plans[p][0])) else 0
  {
    var plans' := plans[p := plans[p][1..]];
    var rest := CostOf(w, p, plans[p][1..]);
    if w.payers[p] == u {
      assert DueView(w, plans', u) == DueView(w, plans, u)[p := rest];
      SumMapUpdate(DueView(w, plans, u), p, rest);
    } else {
      assert DueView(w, plans', u) == DueView(w, plans, u);
    }
  }

  lemma OtherPlansStay(w: World, states: map<ProjectId, set<nat>>, p: ProjectId, begin: nat, r: ProjectId)
    requires Valid(w.config) && r != p
    ensures Plan(w, Recorded(states, p, begin), r) == Plan(w, states, r)
  {
  }

  lemma TailOf(xs: seq<nat>, x: nat, rest: seq<nat>)
    requires xs == [x] + rest
    ensures xs != [] && xs[0] == x && xs[1..] == rest
  {
  }

  /** The check names the first period of the plan of p, and recording it takes that period off. */
  lemma CheckBills(w: World, states: map<ProjectId, set<nat>>, S: set<ProjectId>, p: ProjectId, begin: nat)
    requires Sane(w) && p in S && begin > 0 && Check(w, states, p) == Some(begin)
    ensures var plans := PlansOf(w, states, S);
      plans[p] != [] && plans[p][0] == begin && PlansOf(w, Recorded(states, p, begin), S) == plans[p := plans[p][1..]]
  {
    PlanStep(w, states, p);
    TailOf(Plan(w, states, p), begin, Plan(w, Recorded(states, p, begin), p));
    forall r | r in S && r != p
      ensures Plan(w, Recorded(states, p, begin), r) == Plan(w, states, r)
    {
      OtherPlansStay(w, states, p, begin, r);
    }
  }

  // ---------- Where a plan begins ----------

  /**
   The first of the begins billed for a project, if there is one: with nothing
   persisted the full hour of the clock, or with historical expenses the period
   after cloudkitty's first record; else the period after the last one persisted.
   */
  ghost predicate BeginsRight(w: World, before: map<ProjectId, set<nat>>, p: ProjectId, begins: seq<nat>)
    requires Valid(w.config)
  {
    var state, meter, period, now := At(before, p), At(w.meters, p), w.config.period, w.clock(p);
    && (state == {} && !w.config.historicalExpenses ==>
          if now < 3600 then begins == []
          else begins != [] && begins[0] % 3600 == 0 && begins[0] <= now < begins[0] + 3600)
    && (state == {} && w.config.historicalExpenses && begins != [] ==>
          begins[0] >= period && FirstBucket(begins[0] - period, meter, period))
    && (forall from :: from > 0 && LastBucket(from, state, period) && begins != [] ==> begins[0] == from + period)
  }

  lemma PlanHead(w: World, states: map<ProjectId, set<nat>>, p: ProjectId)
    requires Sane(w)
    ensures var begin, plan := Check(w, states, p), Plan(w, states, p);
      if begin.None? || begin.value == 0 then plan == [] else plan != [] && plan[0] == begin.value
  {
    PlanStep(w, states, p);
  }

  lemma FirstRunPlan(w: World, before: map<ProjectId, set<nat>>, p: ProjectId)
    requires Sane(w) && At(before, p) == {}
    ensures BeginsRight(w, before, p, Plan(w, before, p))
  {
    PlanHead(w, before, p);
    TopIsLast({}, w.config.period);
    if w.config.historicalExpenses {
      BottomIsFirst(At(w.meters, p), w.config.period);
    } else {
      FirstRunIsThisHour(w.config, At(w.meters, p), w.clock(p));
    }
  }

  lemma LaterRunPlan(w: World, before: map<ProjectId, set<nat>>, p: ProjectId, from: nat)
    requires Sane(w) && from > 0 && LastBucket(from, At(before, p), w.config.period) && Plan(w, before, p) != []
    ensures Plan(w, before, p)[0] == from + w.config.period
  {
    PlanHead(w, before, p);
    TopIsLast(At(before, p), w.config.period);
    LastBucketUnique(from, Top(At(before, p), w.config.period).value, At(before, p), w.config.period);
  }

  lemma PlanBeginsRight(w: World, before: map<ProjectId, set<nat>>, p: ProjectId)
    requires Sane(w)
    ensures BeginsRight(w, before, p, Plan(w, before, p))
  {
    if At(before, p) == {} {
      FirstRunPlan(w, before, p);
    }
    forall from | from > 0 && LastBucket(from, At(before, p), w.config.period) && Plan(w, before, p) != []
      ensures Plan(w, before, p)[0] == from + w.config.period
    {
      LaterRunPlan(w, before, p, from);
    }
  }

  // ---------- Where a plan ends ----------

  /** The first begin can be recorded before the others. */
  lemma SplitBegins(measures: set<nat>, s: nat, top: nat, period: nat)
    requires period > 0 && s + period < top
    ensures var begins, rest := Begins(s, top, period), Begins(s + period, top, period);
      && measures + SetOf(begins) == measures + {s + period} + SetOf(rest)
      && Reached(s, begins) == Reached(s + period, rest)
  {
  }

  /** No measure is in a bucket above s. */
  predicate UpTo(measures: set<nat>, s: nat, period: nat)
    requires period > 0
  {
    var top := Top(measures, period);
    top.Some? ==> top.value <= s
  }

  lemma {:induction false} TopAfterBegins(measures: set<nat>, s: nat, top: nat, period: nat)
    requires period > 0 && UpTo(measures, s, period) && Aligned(s, period)
    ensures var begins := Begins(s, top, period);
      Top(measures + SetOf(begins), period)
        == if begins == [] then Top(measures, period) else Some(Reached(s, begins))
    decreases top - s
  {
    if s + period < top {
      AlignedGap(s, s, period);
      TopAfterWrite(measures, s + period, period);
      TopAfterBegins(measures + {s + period}, s + period, top, period);
      SplitBegins(measures, s, top, period);
    } else {
      assert measures + SetOf(Begins(s, top, period)) == measures;
    }
  }

  lemma ReachedClosedForm(ts: nat, top: nat, period: nat)
    requires period > 0
    ensures Reached(ts, Begins(ts, top, period)) == ts + |Begins(ts, top, period)| * period
  {
    var begins := Begins(ts, top, period);
    if begins != [] {
      BeginsClosedForm(ts, top, period, |begins| - 1);
    }
  }

  /** Recording the begins after ts leads to the last ts + k * period strictly below cloudkitty's top. */
  lemma BeginsEnd(measures: set<nat>, ts: nat, top: nat, period: nat)
    requires period > 0 && UpTo(measures, ts, period) && Aligned(ts, period)
    ensures var begins := Begins(ts, top, period); var k := |begins|;
      && Top(measures + SetOf(begins), period) == (if k == 0 then Top(measures, period) else Some(ts + k * period))
      && (k > 0 ==> ts + k * period < top)
      && top <= ts + k * period + period
  {
    TopAfterBegins(measures, ts, top, period);
    BeginsExact(ts, top, period);
    ReachedClosedForm(ts, top, period);
  }

  /**
   A project that resumes after ts, be it the persisted state or cloudkitty's
   first record, ends at the last ts + k * period strictly below cloudkitty's
   top, or where it stood.  The period at ts itself is not in the plan.
   */
  lemma ResumedEnds(w: World, before: map<ProjectId, set<nat>>, after: map<ProjectId, set<nat>>, p: ProjectId,
                    ts: nat, top: nat)
    requires Valid(w.config)
    requires ReadState(w.config, At(before, p), At(w.meters, p), w.clock(p)) == ResumeAfter(ts)
    requires Top(At(w.meters, p), w.config.period) == Some(top)
    requires At(after, p) == At(before, p) + SetOf(Plan(w, before, p))
    ensures var k, period := |Plan(w, before, p)|, w.config.period;
      && Top(At(after, p), period) == (if k == 0 then Top(At(before, p), period) else Some(ts + k * period))
      && (k > 0 ==> ts + k * period < top)
      && top <= ts + k * period + period
      && ts !in Plan(w, before, p)
  {
    var period := w.config.period;
    ResumeAligned(w, before, p);
    BeginsEnd(At(before, p), ts, top, period);
    if ts in Plan(w, before, p) {
      var i :| 0 <= i < |Plan(w, before, p)| && Plan(w, before, p)[i] == ts;
      BeginsClosedForm(ts, top, period, i);
      MultiplesApart(i + 1, period);
      assert false;
    }
  }

  /** A first run without historical expenses bills the full hour, and from its bucket on like the others. */
  lemma HourEnds(w: World, before: map<ProjectId, set<nat>>, after: map<ProjectId, set<nat>>, p: ProjectId,
                 hour: nat, top: nat)
    requires Sane(w) && hour > 0
    requires ReadState(w.config, At(before, p), At(w.meters, p), w.clock(p)) == StartAt(hour)
    requires Top(At(w.meters, p), w.config.period) == Some(top)
    requires At(after, p) == At(before, p) + SetOf(Plan(w, before, p))
    ensures var k, period := |Plan(w, before, p)|, w.config.period;
      && k > 0 && Plan(w, before, p)[0] == hour
      && Top(At(after, p), period) == Some(Bucket(hour, period) + (k - 1) * period)
      && (k > 1 ==> Bucket(hour, period) + (k - 1) * period < top)
      && top <= Bucket(hour, period) + k * period
  {
    var period := w.config.period;
    var first := Bucket(hour, period);
    var rest := Upto(w, p, first);
    assert Plan(w, before, p) == [hour] + rest;
    TopAfterWrite(At(before, p), hour, period);
    BucketAligned(hour, period);
    BeginsEnd(At(before, p) + {hour}, first, top, period);
    assert At(after, p) == At(before, p) + {hour} + SetOf(rest);
    assert (|rest| + 1) * period == |rest| * period + period;
  }
}

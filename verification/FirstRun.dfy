/**
 The first run of a project bills the current full hour.  That keeps to the
 schedule exactly when the period divides the hour.
 */
module FirstRun {
  import opened Wrappers
  import opened Collections
  import opened Tables
  import opened StateStore
  import opened Billing
  import opened Protocol
  import opened ProtocolLaws
  import opened Rounds

  const USER: UserId := "user"
  const PROJECT: ProjectId := "project"

  /** The one user can be debited for the one project. */
  predicate Ready(s: State) {
    && PcOf(s, 0) == Idle && PROJECT !in s.locks
    && USER in s.db.accounts && PROJECT in s.db.projects && (USER, PROJECT) in s.db.relations
  }

  /** A round at no cost. */
  function At0(clock: nat): Reads {
    Reads(clock, 0.0, USER, 0, 0)
  }

  /** A whole pass over the project by an undisturbed processor. */
  lemma Round(c: Config, init: State, es: seq<Event>, s: State, now: nat, begin: nat)
    returns (es': seq<Event>, s': State)
    requires Valid(c) && Execute(c, init, es) == Some(s)
    requires Ready(s) && begin > 0 && Answers(c, s, PROJECT, now, begin)
    ensures Execute(c, init, es') == Some(s') && Onward(es, es') && Ready(s')
    ensures At(s'.states, PROJECT) == At(s.states, PROJECT) + {begin} && s'.meters == s.meters
    ensures s'.log == s.log + [Debit(PROJECT, begin, 0.0, USER, 0)] && s'.stops == s.stops
  {
    es', s' := RoundCompletes(c, init, es, s, 0, PROJECT, begin, At0(now));
  }

  lemma SingletonTop(ts: nat, period: nat)
    requires period > 0
    ensures Top({ts}, period) == Some(Bucket(ts, period))
  {
    assert Buckets({ts}, period) == {Bucket(ts, period)};
  }

  /** Some full hour is off the grid of a period that does not divide the hour. */
  lemma HourOffGrid(period: nat)
    requires period > 0 && 3600 % period != 0
    ensures (3600 * (period + 1)) % period != 0
  {
    var hour := 3600 * (period + 1);
    if hour % period == 0 {
      var k := hour / period;
      assert 3600 == (k - 3600) * period;
      MultiplesApart(k - 3600, period);
      MultipleAligned(k - 3600, period);
      assert false;
    }
  }

  /** One project of one user, with cloudkitty's records at the given times. */
  function FirstState(records: set<nat>): State {
    State(
      Tables(map[USER := Account(0, 0, 0, false, None, None)], map[PROJECT := Project(USER, 0, 0)],
             map[(USER, PROJECT) := Relation(0, 0)], []),
      map[], map[PROJECT := records], map[], map[], [], [], multiset{}, [])
  }

  lemma TwoEntries(d1: Debit, d2: Debit)
    requires d1.project == PROJECT && d2.project == PROJECT
    ensures EntriesOf([d1, d2], PROJECT) == [d1, d2]
  {
    assert [d1, d2] == [] + [d1] + [d2];
    EntriesSnoc([], d1, PROJECT);
    EntriesSnoc([d1], d2, PROJECT);
  }

  /** With nothing persisted the check starts at the full hour. */
  lemma StartsAtHour(c: Config, s: State, hour: nat)
    requires Valid(c) && !c.historicalExpenses && At(s.states, PROJECT) == {} && hour % 3600 == 0
    ensures Answers(c, s, PROJECT, hour, hour)
  {
  }

  /** With only the hour persisted it goes on from the bucket of the hour. */
  lemma StartsAfterBucket(c: Config, s: State, hour: nat, far: nat)
    requires Valid(c) && At(s.states, PROJECT) == {hour} && At(s.meters, PROJECT) == {far}
    requires Bucket(hour, c.period) > 0 && Bucket(hour, c.period) + c.period < Bucket(far, c.period)
    ensures Answers(c, s, PROJECT, hour, Bucket(hour, c.period) + c.period)
  {
    SingletonTop(hour, c.period);
    SingletonTop(far, c.period);
  }

  lemma TwoRounds(c: Config, hour: nat, far: nat) returns (es: seq<Event>, s: State)
    requires Valid(c) && !c.historicalExpenses && hour > 0 && hour % 3600 == 0
    requires Bucket(hour, c.period) > 0 && Bucket(hour, c.period) + c.period < Bucket(far, c.period)
    ensures Execute(c, FirstState({far}), es) == Some(s) && Clean(es)
    ensures s.log ==
      [Debit(PROJECT, hour, 0.0, USER, 0), Debit(PROJECT, Bucket(hour, c.period) + c.period, 0.0, USER, 0)]
  {
    var init, next := FirstState({far}), Bucket(hour, c.period) + c.period;
    StartsAtHour(c, init, hour);
    es, s := Round(c, init, [], init, hour, hour);
    assert At(s.states, PROJECT) == {hour} && At(s.meters, PROJECT) == {far};
    StartsAfterBucket(c, s, hour, far);
    es, s := Round(c, init, es, s, hour, next);
  }

  /** A first hour that is not a multiple of the period is followed by a begin less than a period later. */
  lemma Derails(c: Config) returns (init: State, es: seq<Event>, s: State)
    requires Valid(c) && !StartsAligned(c)
    ensures Reaches(c, init, es, s) && Clean(es)
    ensures !Consecutive(EntriesOf(s.log, PROJECT), c.period)
  {
    var hour := 3600 * (c.period + 1);
    HourOffGrid(c.period);
    var far := hour + 3 * c.period;
    init := FirstState({far});
    es, s := TwoRounds(c, hour, far);
    TwoEntries(s.log[0], s.log[1]);
  }

  /**
   The schedule holds in all failure-free runs if and only if the period
   divides the hour or billing starts from cloudkitty's first record.
   */
  lemma ScheduleIff(c: Config)
    requires Valid(c)
    ensures StartsAligned(c) <==>
      forall init, es, s, p :: Reaches(c, init, es, s) && Clean(es) ==> Consecutive(EntriesOf(s.log, p), c.period)
  {
    if StartsAligned(c) {
      forall init, es, s, p | Reaches(c, init, es, s) && Clean(es)
        ensures Consecutive(EntriesOf(s.log, p), c.period)
      {
        BilledInOrder(c, init, es, s, p);
      }
    } else {
      var init, es, s := Derails(c);
      assert !Consecutive(EntriesOf(s.log, PROJECT), c.period);
    }
  }

  // ---------- Debited again ----------

  /** Dying after the debit. */
  lemma Die(c: Config, init: State, es: seq<Event>, s: State, begin: nat) returns (es': seq<Event>, s': State)
    requires Valid(c) && Execute(c, init, es) == Some(s) && PcOf(s, 0) == Debited(PROJECT, begin)
    requires PROJECT in s.locks && s.locks[PROJECT] == 0
    ensures Execute(c, init, es') == Some(s') && PcOf(s', 0) == Idle && PROJECT !in s'.locks
    ensures s'.db == s.db && s'.states == s.states && s'.meters == s.meters && s'.log == s.log
    ensures s'.stops == s.stops + multiset{(PROJECT, begin)}
  {
    Extend(c, init, es, s, Crash(0));
    es', s' := es + [Crash(0)], Fire(c, s, Crash(0)).value;
  }

  /** A run that dies between its debit and its state write leaves the debit, and the check as it was. */
  lemma Stop(c: Config, init: State, es: seq<Event>, s: State, now: nat, begin: nat)
    returns (es': seq<Event>, s': State)
    requires Valid(c) && Execute(c, init, es) == Some(s)
    requires Ready(s) && begin > 0 && Answers(c, s, PROJECT, now, begin)
    ensures Execute(c, init, es') == Some(s') && Ready(s') && Answers(c, s', PROJECT, now, begin)
    ensures s'.log == s.log + [Debit(PROJECT, begin, 0.0, USER, 0)]
    ensures s'.stops == s.stops + multiset{(PROJECT, begin)}
  {
    var es1, s1 := GetDebited(c, init, es, s, 0, PROJECT, begin, At0(now));
    es', s' := Die(c, init, es1, s1, begin);
  }

  lemma {:induction false} Stops(c: Config, init: State, now: nat, begin: nat, n: nat)
    returns (es: seq<Event>, s: State)
    requires Valid(c) && Ready(init) && begin > 0 && Answers(c, init, PROJECT, now, begin)
    requires init.log == [] && init.stops == multiset{}
    ensures Execute(c, init, es) == Some(s) && Ready(s) && Answers(c, s, PROJECT, now, begin)
    ensures Count(s.log, PROJECT, begin) == n == s.stops[(PROJECT, begin)]
  {
    if n == 0 {
      es, s := [], init;
    } else {
      es, s := Stops(c, init, now, begin, n - 1);
      CountSnoc(s.log, Debit(PROJECT, begin, 0.0, USER, 0), PROJECT, begin);
      es, s := Stop(c, init, es, s, now, begin);
    }
  }

  lemma TwoBuckets(first: nat, last: nat, period: nat)
    requires period > 0
    ensures Buckets({first, last}, period) == {Bucket(first, period), Bucket(last, period)}
  {
  }

  lemma Extremes(a: nat, b: nat)
    requires a < b
    ensures Min({a, b}) == a && Max({a, b}) == b
  {
    assert IsMin(a, {a, b}) && IsMax(b, {a, b});
  }

  lemma TwoRecords(first: nat, last: nat, period: nat)
    requires period > 0 && Bucket(first, period) == first < last == Bucket(last, period)
    ensures Bottom({first, last}, period) == Some(first)
    ensures Top({first, last}, period) == Some(last)
  {
    TwoBuckets(first, last, period);
    Extremes(first, last);
  }

  lemma StartsAfterBottom(c: Config, s: State)
    requires Valid(c) && c.historicalExpenses
    requires At(s.states, PROJECT) == {} && At(s.meters, PROJECT) == {c.period, 3 * c.period}
    ensures Answers(c, s, PROJECT, 3600, 2 * c.period)
  {
    MultipleAligned(1, c.period);
    MultipleAligned(3, c.period);
    TwoRecords(c.period, 3 * c.period, c.period);
  }

  /** Where the first run of a project starts. */
  lemma FirstBegin(c: Config) returns (records: set<nat>, begin: nat)
    requires Valid(c)
    ensures begin > 0 && Answers(c, FirstState(records), PROJECT, 3600, begin)
  {
    if c.historicalExpenses {
      records, begin := {c.period, 3 * c.period}, 2 * c.period;
      StartsAfterBottom(c, FirstState(records));
    } else {
      records, begin := {}, 3600;
      StartsAtHour(c, FirstState(records), 3600);
    }
  }

  /**
   However often, a period can be debited again: whatever the options, for
   every n some run of the protocol debits a period n + 1 times, n of its runs
   having stopped between debit and state write.
   */
  lemma DebitedAgain(c: Config, n: nat) returns (init: State, es: seq<Event>, s: State, begin: nat)
    requires Valid(c)
    ensures Reaches(c, init, es, s)
    ensures Count(s.log, PROJECT, begin) == n + 1 && s.stops[(PROJECT, begin)] == n
    ensures begin in At(s.states, PROJECT)
  {
    var records;
    records, begin := FirstBegin(c);
    init := FirstState(records);
    es, s := Stops(c, init, 3600, begin, n);
    CountSnoc(s.log, Debit(PROJECT, begin, 0.0, USER, 0), PROJECT, begin);
    es, s := Round(c, init, es, s, 3600, begin);
  }
}

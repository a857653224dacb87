/**
 Many processors billing the same projects: primary_period and Worker.run in
 shadowfiend/processor/service/service.py, one event a call to a store, the
 ledger or the lock service.  Any event of any processor may come next, and a
 processor may raise or die between any two of its own.
 */
module Protocol {
  import opened Wrappers
  import opened Collections
  import opened Tables
  import opened LedgerLaws
  import opened Grace
  import opened StateStore
  import opened Billing

  type Processor = nat

  /** Where a processor is in its loop body. */
  datatype Pc =
    | Idle
    | Locked(project: ProjectId)
    | Resumed(project: ProjectId, ts: nat)
    | Begun(project: ProjectId, begin: nat)
    | Priced(project: ProjectId, begin: nat, cost: real)
    | Addressed(project: ProjectId, begin: nat, cost: real, payer: UserId)
    | Cleared(project: ProjectId, begin: nat, cost: real, payer: UserId)
    | Debited(project: ProjectId, begin: nat)
    | Finished(project: ProjectId)

  datatype Debit = Debit(project: ProjectId, begin: nat, cost: real, payer: UserId, now: int)

  /** owed_action was called for the payer's account as read after `calls` ledger calls. */
  datatype Drop = Drop(project: ProjectId, payer: UserId, account: Account, now: int, calls: nat)

  /**
   The stores, the locks and the processors; then what only a witness sees:
   all ledger calls, all debited periods in order, the runs that stopped
   between debit and state write, and the drops.
   */
  datatype State = State(
    db: Tables,
    states: map<ProjectId, set<nat>>,
    meters: map<ProjectId, set<nat>>,
    locks: map<ProjectId, Processor>,
    pcs: map<Processor, Pc>,
    ops: seq<Op>,
    log: seq<Debit>,
    stops: multiset<(ProjectId, nat)>,
    drops: seq<Drop>)

  datatype Event =
    | Acquire(q: Processor, project: ProjectId)
    | ReadTimestamp(q: Processor, clock: nat)
    | ReadTop(q: Processor)
    | ReadCost(q: Processor, metered: real)
    | ReadOwner(q: Processor, owner: UserId)
    | ReadAccount(q: Processor, at: int)
    | Settle(q: Processor, at: int)
    | SetState(q: Processor)
    | Release(q: Processor)
    | Raise(q: Processor)
    | Crash(q: Processor)
    | Meter(project: ProjectId, measure: nat)
    | Client(op: Op)

  function PcOf(s: State, q: Processor): Pc {
    if q in s.pcs then s.pcs[q] else Idle
  }

  function Goto(s: State, q: Processor, pc: Pc): State {
    s.(pcs := s.pcs[q := pc])
  }

  /** A stopped run leaves an orphan debit behind if it had debited and not yet written the state. */
  function Stopped(s: State, q: Processor): State {
    var pc := PcOf(s, q);
    var s' := Goto(s, q, Idle);
    if pc.Debited? then s'.(stops := s.stops + multiset{(pc.project, pc.begin)}) else s'
  }

  /**
   The state after an event, if the event can happen.  A processor that raises
   keeps the lock of its project; one that dies loses all its locks.  A read
   that finds nothing to go on with (no first record, no account) can only be
   followed by Raise or Crash.
   */
  function Fire(c: Config, s: State, e: Event): Option<State>
    requires Valid(c)
  {
    match e
    case Acquire(q, p) =>
      if PcOf(s, q).Idle? && p !in s.locks then Some(Goto(s, q, Locked(p)).(locks := s.locks[p := q])) else None
    case ReadTimestamp(q, now) => (
      match PcOf(s, q)
      case Locked(p) => (
        match ReadState(c, At(s.states, p), At(s.meters, p), now)
        case ResumeAfter(ts) => Some(Goto(s, q, Resumed(p, ts)))
        case StartAt(hour) => Some(Goto(s, q, if hour == 0 then Finished(p) else Begun(p, hour)))
        case NoRecord => None)
      case _ => None)
    case ReadTop(q) => (
      match PcOf(s, q)
      case Resumed(p, ts) =>
        var begin := NextBegin(c, ts, At(s.meters, p));
        Some(Goto(s, q, if begin == 0 then Finished(p) else Begun(p, begin)))
      case _ => None)
    case ReadCost(q, cost) => (
      match PcOf(s, q)
      case Begun(p, begin) => if cost >= 0.0 then Some(Goto(s, q, Priced(p, begin, cost))) else None
      case _ => None)
    case ReadOwner(q, payer) => (
      match PcOf(s, q)
      case Priced(p, begin, cost) => Some(Goto(s, q, Addressed(p, begin, cost, payer)))
      case _ => None)
    case ReadAccount(q, now) => (
      match PcOf(s, q)
      case Addressed(p, begin, cost, u) =>
        if u !in s.db.accounts then None else
        var s' := Goto(s, q, Cleared(p, begin, cost, u));
        var a := s.db.accounts[u];
        Some(if DropsResources(a, now, c.allowOweAction)
             then s'.(drops := s.drops + [Drop(p, u, a, now, |s.ops|)]) else s')
      case _ => None)
    case Settle(q, now) => (
      match PcOf(s, q)
      case Cleared(p, begin, cost, u) =>
        var op := UpdateAccount(u, p, cost, now);
        if !Succeeds(s.db, op) then None else
        Some(Goto(s, q, Debited(p, begin)).(db := Step(s.db, op), ops := s.ops + [op],
                                            log := s.log + [Debit(p, begin, cost, u, now)]))
      case _ => None)
    case SetState(q) => (
      match PcOf(s, q)
      case Debited(p, begin) =>
        Some(Goto(s, q, Finished(p)).(states := s.states[p := At(s.states, p) + {begin}]))
      case _ => None)
    case Release(q) => (
      match PcOf(s, q)
      case Finished(p) => Some(Goto(s, q, Idle).(locks := s.locks - {p}))
      case _ => None)
    case Raise(q) => Some(Stopped(s, q))
    case Crash(q) =>
      Some(Stopped(s, q).(locks := map p | p in s.locks && s.locks[p] != q :: s.locks[p]))
    case Meter(p, ts) => Some(s.(meters := s.meters[p := At(s.meters, p) + {ts}]))
    case Client(op) =>
      if op.UpdateAccount? || !NonNegativeCost(op) then None else
      Some(s.(db := Step(s.db, op), ops := s.ops + [op]))
  }

  /** Nothing billed yet, no lock held, nobody owed; cloudkitty may already have records. */
  predicate Init(s: State) {
    && s.states == map[] && s.locks == map[] && s.pcs == map[] && NobodyOwed(s.db)
    && s.ops == [] && s.log == [] && s.stops == multiset{} && s.drops == []
  }

  function Execute(c: Config, s: State, es: seq<Event>): Option<State>
    requires Valid(c)
  {
    if es == [] then Some(s) else
      match Execute(c, s, es[..|es| - 1])
      case None => None
      case Some(mid) => Fire(c, mid, es[|es| - 1])
  }

  ghost predicate Reaches(c: Config, init: State, es: seq<Event>, s: State)
    requires Valid(c)
  {
    Init(init) && Execute(c, init, es) == Some(s)
  }

  // ---------- One project ----------

  /** How far the holder of the project's lock has got with it. */
  function Phase(s: State, p: ProjectId): Pc {
    if p in s.locks && PcOf(s, s.locks[p]) != Idle && PcOf(s, s.locks[p]).project == p
    then PcOf(s, s.locks[p]) else Idle
  }

  predicate HasBegin(pc: Pc) {
    pc.Begun? || pc.Priced? || pc.Addressed? || pc.Cleared? || pc.Debited?
  }

  /** How often period b of project p was debited. */
  function Count(log: seq<Debit>, p: ProjectId, b: nat): nat {
    if log == [] then 0 else
      var last := log[|log| - 1];
      Count(log[..|log| - 1], p, b) + if last.project == p && last.begin == b then 1 else 0
  }

  ghost predicate Mutex(s: State, p: ProjectId) {
    forall q: Processor :: PcOf(s, q) != Idle && PcOf(s, q).project == p ==> p in s.locks && s.locks[p] == q
  }

  ghost predicate OnSchedule(c: Config, s: State, p: ProjectId)
    requires Valid(c)
  {
    var M, ph := At(s.states, p), Phase(s, p);
    && Ladder(M, c.period)
    && (ph.Resumed? ==> Aligned(ph.ts, c.period) && (M != {} ==> ph.ts == Max(M)))
    && (HasBegin(ph) ==> ph.begin > 0 && Aligned(ph.begin, c.period) && (M != {} ==> ph.begin == Max(M) + c.period))
  }

  /** Each debit is accounted for: its state was written, its run stopped, or it is in flight. */
  ghost predicate Accounted(s: State, p: ProjectId) {
    forall b: nat :: Count(s.log, p, b) ==
      (if b in At(s.states, p) then 1 else 0) + s.stops[(p, b)] + if Phase(s, p) == Debited(p, b) then 1 else 0
  }

  ghost predicate Safe(c: Config, s: State, p: ProjectId)
    requires Valid(c)
  {
    Mutex(s, p) && OnSchedule(c, s, p) && Accounted(s, p)
  }

  lemma CountSnoc(log: seq<Debit>, d: Debit, p: ProjectId, b: nat)
    ensures Count(log + [d], p, b) == Count(log, p, b) + if d.project == p && d.begin == b then 1 else 0
  {
  }

  predicate OfProcessor(e: Event) {
    !e.Meter? && !e.Client?
  }

  /** How an event of processor q moves it and the locks. */
  predicate Moves(s: State, s': State, q: Processor, next: Pc) {
    var pc := PcOf(s, q);
    && s'.pcs == s.pcs[q := next]
    && (|| (pc != Idle && next != Idle && next.project == pc.project && s'.locks == s.locks)
        || (pc == Idle && next.Locked? && next.project !in s.locks && s'.locks == s.locks[next.project := q])
        || (next == Idle && s'.locks == s.locks)
        || (next == Idle && pc.Finished? && s'.locks == s.locks - {pc.project})
        || (next == Idle && s'.locks == map p | p in s.locks && s.locks[p] != q :: s.locks[p]))
  }

  lemma ReadMoves(c: Config, s: State, e: Event)
    requires Valid(c) && Fire(c, s, e).Some?
    requires e.ReadTimestamp? || e.ReadTop? || e.ReadCost? || e.ReadOwner? || e.ReadAccount?
    ensures var s' := Fire(c, s, e).value; Moves(s, s', e.q, PcOf(s', e.q))
  {
  }

  lemma WriteMoves(c: Config, s: State, e: Event)
    requires Valid(c) && Fire(c, s, e).Some?
    requires e.Acquire? || e.Settle? || e.SetState? || e.Release? || e.Raise? || e.Crash?
    ensures var s' := Fire(c, s, e).value; Moves(s, s', e.q, PcOf(s', e.q))
  {
  }

  lemma FireMoves(c: Config, s: State, e: Event)
    requires Valid(c) && Fire(c, s, e).Some?
    ensures var s' := Fire(c, s, e).value;
      if OfProcessor(e) then Moves(s, s', e.q, PcOf(s', e.q)) else s'.pcs == s.pcs && s'.locks == s.locks
  {
    if e.Acquire? || e.Settle? || e.SetState? || e.Release? || e.Raise? || e.Crash? {
      WriteMoves(c, s, e);
    } else if OfProcessor(e) {
      ReadMoves(c, s, e);
    }
  }

  /** Only the holder of the lock of p moves the phase of p. */
  lemma MoveOne(s: State, s': State, q: Processor, next: Pc, p: ProjectId)
    requires Mutex(s, p) && Moves(s, s', q, next)
    ensures Mutex(s', p)
    ensures Phase(s', p) ==
      if (if PcOf(s, q) == Idle then next != Idle && next.project == p else PcOf(s, q).project == p)
      then next else Phase(s, p)
  {
    forall r: Processor
      ensures PcOf(s', r) == if r == q then next else PcOf(s, r)
    {
    }
  }

  lemma PhaseStep(c: Config, s: State, e: Event, p: ProjectId)
    requires Valid(c) && Fire(c, s, e).Some?
    requires Mutex(s, p)
    ensures var s' := Fire(c, s, e).value;
      && Mutex(s', p)
      && (Acts(s, e, p) ==> Phase(s', p) == PcOf(s', e.q) && (e.Acquire? || Phase(s, p) == PcOf(s, e.q)))
      && (!Acts(s, e, p) ==> Phase(s', p) == Phase(s, p))
  {
    FireMoves(c, s, e);
    var s' := Fire(c, s, e).value;
    if OfProcessor(e) {
      MoveOne(s, s', e.q, PcOf(s', e.q), p);
    } else {
      forall r: Processor
        ensures PcOf(s', r) == PcOf(s, r)
      {
      }
    }
  }

  /** The event is one of a processor working on project p. */
  predicate Acts(s: State, e: Event, p: ProjectId) {
    && OfProcessor(e)
    && (if PcOf(s, e.q) == Idle then e.Acquire? && e.project == p else PcOf(s, e.q).project == p)
  }

  predicate Plain(e: Event) {
    !e.Settle? && !e.SetState? && !e.Raise? && !e.Crash?
  }

  /** Only settlements, state writes and stops touch debits, measures, stops and the debited phase. */
  lemma KeepsDebits(c: Config, s: State, e: Event)
    requires Valid(c) && Fire(c, s, e).Some? && Plain(e)
    ensures var s' := Fire(c, s, e).value;
      && s'.log == s.log && s'.states == s.states && s'.stops == s.stops
      && (OfProcessor(e) ==> !PcOf(s, e.q).Debited? && !PcOf(s', e.q).Debited?)
  {
  }

  lemma SettleUnaffected(c: Config, s: State, e: Event, p: ProjectId)
    requires Valid(c) && Fire(c, s, e).Some? && e.Settle? && !Acts(s, e, p)
    ensures var s' := Fire(c, s, e).value;
      && s'.states == s.states && s'.stops == s.stops
      && forall b: nat :: Count(s'.log, p, b) == Count(s.log, p, b)
  {
  }

  lemma StopUnaffected(c: Config, s: State, e: Event, p: ProjectId)
    requires Valid(c) && Fire(c, s, e).Some? && (e.SetState? || e.Raise? || e.Crash?) && !Acts(s, e, p)
    ensures var s' := Fire(c, s, e).value;
      && s'.log == s.log && At(s'.states, p) == At(s.states, p)
      && forall b: nat :: s'.stops[(p, b)] == s.stops[(p, b)]
  {
  }

  /** What concerns p stays as it was in an event of anyone else. */
  lemma Unaffected(c: Config, s: State, e: Event, p: ProjectId)
    requires Valid(c) && Fire(c, s, e).Some? && !Acts(s, e, p)
    ensures var s' := Fire(c, s, e).value;
      && At(s'.states, p) == At(s.states, p)
      && forall b: nat :: Count(s'.log, p, b) == Count(s.log, p, b) && s'.stops[(p, b)] == s.stops[(p, b)]
  {
    if Plain(e) {
      KeepsDebits(c, s, e);
    } else if e.Settle? {
      SettleUnaffected(c, s, e, p);
    } else {
      StopUnaffected(c, s, e, p);
    }
  }

  /** The check finds the period after the persisted state, or a first one on the grid. */
  lemma CheckOnSchedule(c: Config, s: State, e: Event, p: ProjectId)
    requires Valid(c) && StartsAligned(c) && Fire(c, s, e).Some? && (e.ReadTimestamp? || e.ReadTop?) && Acts(s, e, p)
    requires Mutex(s, p) && OnSchedule(c, s, p)
    ensures OnSchedule(c, Fire(c, s, e).value, p)
  {
    PhaseStep(c, s, e, p);
    if e.ReadTimestamp? {
      ReadStateAligned(c, At(s.states, p), At(s.meters, p), e.clock);
    } else {
      AlignedGap(Phase(s, p).ts, Phase(s, p).ts, c.period);
    }
  }

  lemma SetStateOnSchedule(c: Config, s: State, e: Event, p: ProjectId)
    requires Valid(c) && Fire(c, s, e).Some? && e.SetState? && Acts(s, e, p)
    requires Mutex(s, p) && OnSchedule(c, s, p)
    ensures OnSchedule(c, Fire(c, s, e).value, p)
  {
    PhaseStep(c, s, e, p);
    WriteThenRead(At(s.states, p), Phase(s, p).begin, c.period);
  }

  lemma OtherOnSchedule(c: Config, s: State, e: Event, p: ProjectId)
    requires Valid(c) && Fire(c, s, e).Some? && !e.ReadTimestamp? && !e.ReadTop? && !e.SetState? && Acts(s, e, p)
    requires Mutex(s, p) && OnSchedule(c, s, p)
    ensures OnSchedule(c, Fire(c, s, e).value, p)
  {
    PhaseStep(c, s, e, p);
  }

  lemma OnScheduleStep(c: Config, s: State, e: Event, p: ProjectId)
    requires Valid(c) && StartsAligned(c) && Fire(c, s, e).Some?
    requires Mutex(s, p) && OnSchedule(c, s, p)
    ensures OnSchedule(c, Fire(c, s, e).value, p)
  {
    if !Acts(s, e, p) {
      PhaseStep(c, s, e, p);
      Unaffected(c, s, e, p);
    } else if e.ReadTimestamp? || e.ReadTop? {
      CheckOnSchedule(c, s, e, p);
    } else if e.SetState? {
      SetStateOnSchedule(c, s, e, p);
    } else {
      OtherOnSchedule(c, s, e, p);
    }
  }

  /** A debit puts its period in flight. */
  lemma SettleAccounted(c: Config, s: State, e: Event, p: ProjectId)
    requires Valid(c) && Fire(c, s, e).Some? && e.Settle? && Acts(s, e, p)
    requires Mutex(s, p) && Accounted(s, p)
    ensures Accounted(Fire(c, s, e).value, p)
  {
    PhaseStep(c, s, e, p);
    var d := Fire(c, s, e).value.log[|s.log|];
    forall b: nat
      ensures Count(s.log + [d], p, b) == Count(s.log, p, b) + if d.begin == b then 1 else 0
    {
      CountSnoc(s.log, d, p, b);
    }
  }

  /** A state write turns the period in flight into a recorded one, which it was not before. */
  lemma SetStateAccounted(c: Config, s: State, e: Event, p: ProjectId)
    requires Valid(c) && Fire(c, s, e).Some? && e.SetState? && Acts(s, e, p)
    requires Safe(c, s, p)
    ensures Accounted(Fire(c, s, e).value, p)
  {
    PhaseStep(c, s, e, p);
    assert Phase(s, p).begin !in At(s.states, p);
  }

  /** A run that stops after its debit leaves its period behind as a stop. */
  lemma StopAccounted(c: Config, s: State, e: Event, p: ProjectId)
    requires Valid(c) && Fire(c, s, e).Some? && (e.Raise? || e.Crash?) && Acts(s, e, p)
    requires Mutex(s, p) && Accounted(s, p)
    ensures Accounted(Fire(c, s, e).value, p)
  {
    PhaseStep(c, s, e, p);
  }

  lemma PlainAccounted(c: Config, s: State, e: Event, p: ProjectId)
    requires Valid(c) && Fire(c, s, e).Some? && Plain(e) && Acts(s, e, p)
    requires Mutex(s, p) && Accounted(s, p)
    ensures Accounted(Fire(c, s, e).value, p)
  {
    PhaseStep(c, s, e, p);
    KeepsDebits(c, s, e);
  }

  lemma AccountedStep(c: Config, s: State, e: Event, p: ProjectId)
    requires Valid(c) && Fire(c, s, e).Some?
    requires Safe(c, s, p)
    ensures Accounted(Fire(c, s, e).value, p)
  {
    if !Acts(s, e, p) {
      PhaseStep(c, s, e, p);
      Unaffected(c, s, e, p);
    } else if e.Settle? {
      SettleAccounted(c, s, e, p);
    } else if e.SetState? {
      SetStateAccounted(c, s, e, p);
    } else if Plain(e) {
      PlainAccounted(c, s, e, p);
    } else {
      StopAccounted(c, s, e, p);
    }
  }

  lemma {:induction false} AlwaysSafe(c: Config, init: State, es: seq<Event>, s: State, p: ProjectId)
    requires Valid(c) && StartsAligned(c) && Reaches(c, init, es, s)
    ensures Safe(c, s, p)
  {
    if es == [] {
    } else {
      var mid := Execute(c, init, es[..|es| - 1]).value;
      AlwaysSafe(c, init, es[..|es| - 1], mid, p);
      PhaseStep(c, mid, es[|es| - 1], p);
      OnScheduleStep(c, mid, es[|es| - 1], p);
      AccountedStep(c, mid, es[|es| - 1], p);
    }
  }
}

/**
 Where debits come from: the clock or the record a first run started from, and
 what the processor read before it settled.
 */
module Traces {
  import opened Wrappers
  import opened Collections
  import opened Tables
  import opened StateStore
  import opened Billing
  import opened Protocol
  import opened ProtocolLaws

  /** The state the k-th event met. */
  predicate Met(c: Config, init: State, es: seq<Event>, k: nat, s: State)
    requires Valid(c) && k < |es|
  {
    Protocol.Execute(c, init, es[..k]) == Some(s)
  }

  lemma MetLater(c: Config, init: State, es: seq<Event>, e: Event, k: nat, s: State)
    requires Valid(c) && k < |es| && Met(c, init, es, k, s)
    ensures Met(c, init, es + [e], k, s) && (es + [e])[k] == es[k]
  {
    assert (es + [e])[..k] == es[..k];
  }

  // ---------- First runs ----------

  /** A check of p with nothing persisted read the clock in hour h. */
  ghost predicate SawHour(c: Config, init: State, es: seq<Event>, p: ProjectId, h: nat)
    requires Valid(c)
  {
    exists k: nat, s: State :: k < |es| && Met(c, init, es, k, s) && IsHourCheck(s, es[k], p, h)
  }

  predicate IsHourCheck(s: State, e: Event, p: ProjectId, h: nat) {
    && e.ReadTimestamp? && PcOf(s, e.q) == Locked(p) && At(s.states, p) == {}
    && h % 3600 == 0 && h <= e.clock < h + 3600
  }

  /** A check of p with nothing persisted found cloudkitty's first record in the bucket of ts. */
  ghost predicate SawFirst(c: Config, init: State, es: seq<Event>, p: ProjectId, ts: nat)
    requires Valid(c)
  {
    exists k: nat, s: State :: k < |es| && Met(c, init, es, k, s) && IsFirstCheck(c, s, es[k], p, ts)
  }

  ghost predicate IsFirstCheck(c: Config, s: State, e: Event, p: ProjectId, ts: nat)
    requires Valid(c)
  {
    && e.ReadTimestamp? && PcOf(s, e.q) == Locked(p) && At(s.states, p) == {}
    && FirstBucket(ts, At(s.meters, p), c.period)
  }

  /** What a first run may bill: the hour it read, or the period after the first record it found. */
  ghost predicate FirstBegin(c: Config, init: State, es: seq<Event>, p: ProjectId, begin: nat)
    requires Valid(c)
  {
    if c.historicalExpenses then begin >= c.period && SawFirst(c, init, es, p, begin - c.period)
    else SawHour(c, init, es, p, begin)
  }

  lemma SawLater(c: Config, init: State, es: seq<Event>, e: Event, p: ProjectId, x: nat)
    requires Valid(c)
    ensures SawHour(c, init, es, p, x) ==> SawHour(c, init, es + [e], p, x)
    ensures SawFirst(c, init, es, p, x) ==> SawFirst(c, init, es + [e], p, x)
  {
    if SawHour(c, init, es, p, x) {
      var k: nat, s: State :| k < |es| && Met(c, init, es, k, s) && IsHourCheck(s, es[k], p, x);
      MetLater(c, init, es, e, k, s);
    }
    if SawFirst(c, init, es, p, x) {
      var k: nat, s: State :| k < |es| && Met(c, init, es, k, s) && IsFirstCheck(c, s, es[k], p, x);
      MetLater(c, init, es, e, k, s);
    }
  }

  lemma FirstBeginLater(c: Config, init: State, es: seq<Event>, e: Event, p: ProjectId, begin: nat)
    requires Valid(c) && FirstBegin(c, init, es, p, begin)
    ensures FirstBegin(c, init, es + [e], p, begin)
  {
    if c.historicalExpenses {
      SawLater(c, init, es, e, p, begin - c.period);
    } else {
      SawLater(c, init, es, e, p, begin);
    }
  }

  /** With nothing persisted for its project, a processor is where a first run leads. */
  ghost predicate FirstPlace(c: Config, init: State, es: seq<Event>, s: State, q: Processor)
    requires Valid(c)
  {
    var pc := PcOf(s, q);
    && (pc.Resumed? && At(s.states, pc.project) == {} ==>
          c.historicalExpenses && SawFirst(c, init, es, pc.project, pc.ts))
    && (HasBegin(pc) && At(s.states, pc.project) == {} ==> FirstBegin(c, init, es, pc.project, pc.begin))
  }

  /** A project with something persisted, or about to be, has been debited; its first debit is that of a first run. */
  ghost predicate FirstEntry(c: Config, init: State, es: seq<Event>, s: State, p: ProjectId)
    requires Valid(c)
  {
    var E := EntriesOf(s.log, p);
    && (At(s.states, p) != {} ==> E != [])
    && (forall q: Processor :: PcOf(s, q).Debited? && PcOf(s, q).project == p ==> E != [])
    && (E != [] ==> FirstBegin(c, init, es, p, E[0].begin))
  }

  /** The check with nothing persisted. */
  lemma LookFirst(c: Config, s: State, e: Event)
    requires Valid(c) && e.ReadTimestamp? && Fire(c, s, e).Some?
    requires PcOf(s, e.q).Locked? && At(s.states, PcOf(s, e.q).project) == {}
    ensures var p, pc' := PcOf(s, e.q).project, PcOf(Fire(c, s, e).value, e.q);
      && (pc'.Resumed? ==> c.historicalExpenses && pc'.project == p && IsFirstCheck(c, s, e, p, pc'.ts))
      && (HasBegin(pc') ==> !c.historicalExpenses && pc'.project == p && IsHourCheck(s, e, p, pc'.begin))
  {
    var p := PcOf(s, e.q).project;
    TopIsLast({}, c.period);
    BottomIsFirst(At(s.meters, p), c.period);
  }

  lemma StatesGrow(c: Config, s: State, e: Event, p: ProjectId)
    requires Valid(c) && Fire(c, s, e).Some?
    ensures At(s.states, p) <= At(Fire(c, s, e).value.states, p)
  {
  }

  lemma OthersStay(c: Config, s: State, e: Event, q: Processor)
    requires Valid(c) && Fire(c, s, e).Some? && !(OfProcessor(e) && e.q == q)
    ensures PcOf(Fire(c, s, e).value, q) == PcOf(s, q)
  {
    FireMoves(c, s, e);
  }

  lemma LooksFromLocked(c: Config, s: State, e: Event)
    requires Valid(c) && Fire(c, s, e).Some? && e.ReadTimestamp?
    ensures PcOf(s, e.q).Locked? && Fire(c, s, e).value.states == s.states
    ensures var pc' := PcOf(Fire(c, s, e).value, e.q);
      pc'.Finished? || pc'.project == PcOf(s, e.q).project
  {
  }

  lemma TopFromResumed(c: Config, s: State, e: Event)
    requires Valid(c) && Fire(c, s, e).Some? && e.ReadTop?
    ensures PcOf(s, e.q).Resumed? && Fire(c, s, e).value.states == s.states
    ensures var pc, pc' := PcOf(s, e.q), PcOf(Fire(c, s, e).value, e.q);
      pc'.Finished? || pc' == Begun(pc.project, pc.ts + c.period)
  {
  }

  lemma NothingResumes(c: Config, s: State, e: Event)
    requires Valid(c) && Fire(c, s, e).Some? && OfProcessor(e) && !e.ReadTimestamp?
    ensures !PcOf(Fire(c, s, e).value, e.q).Resumed?
  {
  }

  lemma PlaceOfOther(c: Config, init: State, es: seq<Event>, s: State, e: Event, q: Processor)
    requires Valid(c) && Fire(c, s, e).Some? && !(OfProcessor(e) && e.q == q) && FirstPlace(c, init, es, s, q)
    ensures FirstPlace(c, init, es + [e], Fire(c, s, e).value, q)
  {
    var pc := PcOf(s, q);
    OthersStay(c, s, e, q);
    if pc.Resumed? {
      StatesGrow(c, s, e, pc.project);
      SawLater(c, init, es, e, pc.project, pc.ts);
    } else if HasBegin(pc) {
      KeepsFirst(c, init, es, s, e, q);
    }
  }

  lemma PlaceOfWork(c: Config, init: State, es: seq<Event>, s: State, e: Event)
    requires Valid(c) && Fire(c, s, e).Some? && OfProcessor(e) && !e.ReadTimestamp? && !e.ReadTop?
    requires FirstPlace(c, init, es, s, e.q)
    ensures FirstPlace(c, init, es + [e], Fire(c, s, e).value, e.q)
  {
    NothingResumes(c, s, e);
    if HasBegin(PcOf(Fire(c, s, e).value, e.q)) {
      WorkGoesOn(c, s, e);
      KeepsFirst(c, init, es, s, e, e.q);
    }
  }

  lemma PlaceStep(c: Config, init: State, es: seq<Event>, s: State, e: Event, q: Processor)
    requires Valid(c) && Protocol.Execute(c, init, es) == Some(s) && Fire(c, s, e).Some?
    requires FirstPlace(c, init, es, s, q)
    ensures FirstPlace(c, init, es + [e], Fire(c, s, e).value, q)
  {
    if !(OfProcessor(e) && e.q == q) {
      PlaceOfOther(c, init, es, s, e, q);
    } else if e.ReadTimestamp? {
      LookStep(c, init, es, s, e);
    } else if e.ReadTop? {
      TopFromResumed(c, s, e);
      SawLater(c, init, es, e, PcOf(s, q).project, PcOf(s, q).ts);
    } else {
      PlaceOfWork(c, init, es, s, e);
    }
  }

  lemma KeepsFirst(c: Config, init: State, es: seq<Event>, s: State, e: Event, q: Processor)
    requires Valid(c) && Fire(c, s, e).Some? && FirstPlace(c, init, es, s, q) && HasBegin(PcOf(s, q))
    ensures var p, begin := PcOf(s, q).project, PcOf(s, q).begin;
      At(Fire(c, s, e).value.states, p) == {} ==> FirstBegin(c, init, es + [e], p, begin)
  {
    var p, begin := PcOf(s, q).project, PcOf(s, q).begin;
    StatesGrow(c, s, e, p);
    if At(s.states, p) == {} {
      FirstBeginLater(c, init, es, e, p, begin);
    }
  }

  lemma LookStep(c: Config, init: State, es: seq<Event>, s: State, e: Event)
    requires Valid(c) && Protocol.Execute(c, init, es) == Some(s) && Fire(c, s, e).Some? && e.ReadTimestamp?
    ensures FirstPlace(c, init, es + [e], Fire(c, s, e).value, e.q)
  {
    LooksFromLocked(c, s, e);
    var p, pc' := PcOf(s, e.q).project, PcOf(Fire(c, s, e).value, e.q);
    if At(s.states, p) == {} {
      LookFirst(c, s, e);
      assert (es + [e])[..|es|] == es && (es + [e])[|es|] == e;
      assert Met(c, init, es + [e], |es|, s);
    }
  }

  lemma OnlySettleLogs(c: Config, s: State, e: Event)
    requires Valid(c) && Fire(c, s, e).Some? && !e.Settle?
    ensures Fire(c, s, e).value.log == s.log
    ensures OfProcessor(e) ==> !PcOf(Fire(c, s, e).value, e.q).Debited?
  {
  }

  lemma OnlySetStateRecords(c: Config, s: State, e: Event, p: ProjectId)
    requires Valid(c) && Fire(c, s, e).Some?
    requires At(Fire(c, s, e).value.states, p) != At(s.states, p)
    ensures e.SetState? && PcOf(s, e.q).Debited? && PcOf(s, e.q).project == p
  {
  }

  /** An event that settles nothing keeps the first debit of every project. */
  lemma EntryStays(c: Config, init: State, es: seq<Event>, s: State, e: Event, p: ProjectId)
    requires Valid(c) && Fire(c, s, e).Some? && !e.Settle? && FirstEntry(c, init, es, s, p)
    ensures FirstEntry(c, init, es + [e], Fire(c, s, e).value, p)
  {
    var s', E := Fire(c, s, e).value, EntriesOf(s.log, p);
    OnlySettleLogs(c, s, e);
    if At(s'.states, p) != At(s.states, p) {
      OnlySetStateRecords(c, s, e, p);
    }
    forall q: Processor | PcOf(s', q).Debited? && PcOf(s', q).project == p
      ensures E != []
    {
      OthersStay(c, s, e, q);
    }
    if E != [] {
      FirstBeginLater(c, init, es, e, p, E[0].begin);
    }
  }

  lemma SettleLogs(c: Config, s: State, e: Event)
    requires Valid(c) && Fire(c, s, e).Some? && e.Settle?
    ensures var pc, s' := PcOf(s, e.q), Fire(c, s, e).value;
      && pc.Cleared? && s'.states == s.states && PcOf(s', e.q) == Debited(pc.project, pc.begin)
      && s'.log == s.log + [Debit(pc.project, pc.begin, pc.cost, pc.payer, e.at)]
  {
  }

  lemma EntryAdded(c: Config, init: State, es: seq<Event>, s: State, e: Event, p: ProjectId)
    requires Valid(c) && Fire(c, s, e).Some? && e.Settle?
    requires FirstEntry(c, init, es, s, p) && FirstPlace(c, init, es, s, e.q)
    ensures FirstEntry(c, init, es + [e], Fire(c, s, e).value, p)
  {
    var pc, s', E := PcOf(s, e.q), Fire(c, s, e).value, EntriesOf(s.log, p);
    SettleLogs(c, s, e);
    EntriesSnoc(s.log, Debit(pc.project, pc.begin, pc.cost, pc.payer, e.at), p);
    forall q: Processor | PcOf(s', q).Debited? && PcOf(s', q).project == p
      ensures EntriesOf(s'.log, p) != []
    {
      if q != e.q {
        OthersStay(c, s, e, q);
      }
    }
    if E != [] {
      FirstBeginLater(c, init, es, e, p, E[0].begin);
    } else if pc.project == p {
      FirstBeginLater(c, init, es, e, p, pc.begin);
    }
  }

  ghost predicate Traced(c: Config, init: State, es: seq<Event>, s: State, p: ProjectId)
    requires Valid(c)
  {
    FirstEntry(c, init, es, s, p) && forall q: Processor :: FirstPlace(c, init, es, s, q)
  }

  lemma TracedStep(c: Config, init: State, es: seq<Event>, s: State, e: Event, p: ProjectId)
    requires Valid(c) && Protocol.Execute(c, init, es) == Some(s) && Fire(c, s, e).Some? && Traced(c, init, es, s, p)
    ensures Traced(c, init, es + [e], Fire(c, s, e).value, p)
  {
    if e.Settle? {
      EntryAdded(c, init, es, s, e, p);
    } else {
      EntryStays(c, init, es, s, e, p);
    }
    forall q: Processor
      ensures FirstPlace(c, init, es + [e], Fire(c, s, e).value, q)
    {
      PlaceStep(c, init, es, s, e, q);
    }
  }

  lemma TracedNext(c: Config, init: State, es: seq<Event>, s: State, p: ProjectId)
    requires Valid(c) && es != [] && Protocol.Execute(c, init, es) == Some(s)
    requires Traced(c, init, es[..|es| - 1], Protocol.Execute(c, init, es[..|es| - 1]).value, p)
    ensures Traced(c, init, es, s, p)
  {
    var front, e := es[..|es| - 1], es[|es| - 1];
    assert es == front + [e];
    TracedStep(c, init, front, Protocol.Execute(c, init, front).value, e, p);
  }

  lemma TracedAtStart(c: Config, init: State, p: ProjectId)
    requires Valid(c) && Protocol.Init(init)
    ensures Traced(c, init, [], init, p)
  {
    assert EntriesOf(init.log, p) == [];
    assert forall q: Processor :: PcOf(init, q) == Idle;
  }

  lemma {:induction false} AlwaysTraced(c: Config, init: State, es: seq<Event>, s: State, p: ProjectId)
    requires Valid(c) && Protocol.Reaches(c, init, es, s)
    ensures Traced(c, init, es, s, p)
  {
    if es == [] {
      TracedAtStart(c, init, p);
    } else {
      var front := es[..|es| - 1];
      AlwaysTraced(c, init, front, Protocol.Execute(c, init, front).value, p);
      TracedNext(c, init, es, s, p);
    }
  }

  /**
   The first debit of a project, whatever the failures: without historical
   expenses it is the full hour the clock was in when a check found nothing
   persisted, with them the period after cloudkitty's first record at that time.
   */
  lemma FirstDebit(c: Config, init: State, es: seq<Event>, s: State, p: ProjectId)
    requires Valid(c) && Protocol.Reaches(c, init, es, s) && EntriesOf(s.log, p) != []
    ensures FirstBegin(c, init, es, p, EntriesOf(s.log, p)[0].begin)
  {
    AlwaysTraced(c, init, es, s, p);
  }

  // ---------- What was read is what is debited ----------

  /** Processor q met event e at place pc. */
  ghost predicate Did(c: Config, init: State, es: seq<Event>, q: Processor, pc: Pc, e: Event)
    requires Valid(c)
  {
    exists k: nat, s: State :: k < |es| && Met(c, init, es, k, s) && es[k] == e && PcOf(s, q) == pc
  }

  lemma DidLater(c: Config, init: State, es: seq<Event>, e': Event, q: Processor, pc: Pc, e: Event)
    requires Valid(c) && Did(c, init, es, q, pc, e)
    ensures Did(c, init, es + [e'], q, pc, e)
  {
    var k: nat, s: State :| k < |es| && Met(c, init, es, k, s) && es[k] == e && PcOf(s, q) == pc;
    MetLater(c, init, es, e', k, s);
    assert (es + [e'])[k] == e;
  }

  lemma DidNow(c: Config, init: State, es: seq<Event>, s: State, q: Processor, e: Event)
    requires Valid(c) && Protocol.Execute(c, init, es) == Some(s)
    ensures Did(c, init, es + [e], q, PcOf(s, q), e)
  {
    assert (es + [e])[..|es|] == es && (es + [e])[|es|] == e;
    assert Met(c, init, es + [e], |es|, s);
  }

  /** The cost a processor carries is the one metered for its period, the payer the one listed. */
  ghost predicate Carries(c: Config, init: State, es: seq<Event>, q: Processor, pc: Pc)
    requires Valid(c)
  {
    match pc
    case Priced(p, b, cost) => Did(c, init, es, q, Begun(p, b), ReadCost(q, cost))
    case Addressed(p, b, cost, u) => CarriesBoth(c, init, es, q, p, b, cost, u)
    case Cleared(p, b, cost, u) => CarriesBoth(c, init, es, q, p, b, cost, u)
    case _ => true
  }

  ghost predicate CarriesBoth(c: Config, init: State, es: seq<Event>, q: Processor, p: ProjectId, b: nat, cost: real,
                              u: UserId)
    requires Valid(c)
  {
    Did(c, init, es, q, Begun(p, b), ReadCost(q, cost)) && Did(c, init, es, q, Priced(p, b, cost), ReadOwner(q, u))
  }

  /** A debit of what its processor had read, at the time it settled. */
  ghost predicate AsRead(c: Config, init: State, es: seq<Event>, d: Debit)
    requires Valid(c)
  {
    exists q: Processor ::
      && CarriesBoth(c, init, es, q, d.project, d.begin, d.cost, d.payer)
      && Did(c, init, es, q, Cleared(d.project, d.begin, d.cost, d.payer), Settle(q, d.now))
  }

  lemma CarriesLater(c: Config, init: State, es: seq<Event>, e: Event, q: Processor, pc: Pc)
    requires Valid(c) && Carries(c, init, es, q, pc)
    ensures Carries(c, init, es + [e], q, pc)
  {
    match pc
    case Priced(p, b, cost) => DidLater(c, init, es, e, q, Begun(p, b), ReadCost(q, cost));
    case Addressed(p, b, cost, u) =>
      DidLater(c, init, es, e, q, Begun(p, b), ReadCost(q, cost));
      DidLater(c, init, es, e, q, Priced(p, b, cost), ReadOwner(q, u));
    case Cleared(p, b, cost, u) =>
      DidLater(c, init, es, e, q, Begun(p, b), ReadCost(q, cost));
      DidLater(c, init, es, e, q, Priced(p, b, cost), ReadOwner(q, u));
    case _ =>
  }

  /** How an event gives a processor something to carry. */
  lemma TakesUp(c: Config, s: State, e: Event)
    requires Valid(c) && Fire(c, s, e).Some? && OfProcessor(e)
    ensures var pc, pc' := PcOf(s, e.q), PcOf(Fire(c, s, e).value, e.q);
      match pc'
      case Priced(p, b, cost) => pc == Begun(p, b) && e == ReadCost(e.q, cost)
      case Addressed(p, b, cost, u) => pc == Priced(p, b, cost) && e == ReadOwner(e.q, u)
      case Cleared(p, b, cost, u) => pc == Addressed(p, b, cost, u)
      case _ => true
  {
  }

  lemma CarriesStep(c: Config, init: State, es: seq<Event>, s: State, e: Event, q: Processor)
    requires Valid(c) && Protocol.Execute(c, init, es) == Some(s) && Fire(c, s, e).Some?
    requires Carries(c, init, es, q, PcOf(s, q))
    ensures Carries(c, init, es + [e], q, PcOf(Fire(c, s, e).value, q))
  {
    CarriesLater(c, init, es, e, q, PcOf(s, q));
    if OfProcessor(e) && e.q == q {
      TakesUp(c, s, e);
      DidNow(c, init, es, s, q, e);
    } else {
      OthersStay(c, s, e, q);
    }
  }

  lemma AsReadLater(c: Config, init: State, es: seq<Event>, e: Event, d: Debit)
    requires Valid(c) && AsRead(c, init, es, d)
    ensures AsRead(c, init, es + [e], d)
  {
    var q: Processor :|
      && CarriesBoth(c, init, es, q, d.project, d.begin, d.cost, d.payer)
      && Did(c, init, es, q, Cleared(d.project, d.begin, d.cost, d.payer), Settle(q, d.now));
    CarriesLater(c, init, es, e, q, Cleared(d.project, d.begin, d.cost, d.payer));
    DidLater(c, init, es, e, q, Cleared(d.project, d.begin, d.cost, d.payer), Settle(q, d.now));
  }

  ghost predicate AllAsRead(c: Config, init: State, es: seq<Event>, s: State)
    requires Valid(c)
  {
    && (forall q: Processor :: Carries(c, init, es, q, PcOf(s, q)))
    && (forall i :: 0 <= i < |s.log| ==> AsRead(c, init, es, s.log[i]))
  }

  lemma NewDebitAsRead(c: Config, init: State, es: seq<Event>, s: State, e: Event)
    requires Valid(c) && Protocol.Execute(c, init, es) == Some(s) && Fire(c, s, e).Some? && e.Settle?
    requires Carries(c, init, es, e.q, PcOf(s, e.q))
    ensures |Fire(c, s, e).value.log| == |s.log| + 1
    ensures AsRead(c, init, es + [e], Fire(c, s, e).value.log[|s.log|])
  {
    SettleLogs(c, s, e);
    CarriesLater(c, init, es, e, e.q, PcOf(s, e.q));
    DidNow(c, init, es, s, e.q, e);
  }

  lemma AsReadStep(c: Config, init: State, es: seq<Event>, s: State, e: Event)
    requires Valid(c) && Protocol.Execute(c, init, es) == Some(s) && Fire(c, s, e).Some? && AllAsRead(c, init, es, s)
    ensures AllAsRead(c, init, es + [e], Fire(c, s, e).value)
  {
    var s' := Fire(c, s, e).value;
    forall q: Processor
      ensures Carries(c, init, es + [e], q, PcOf(s', q))
    {
      CarriesStep(c, init, es, s, e, q);
    }
    forall i | 0 <= i < |s'.log|
      ensures AsRead(c, init, es + [e], s'.log[i])
    {
      if e.Settle? {
        SettleLogs(c, s, e);
        NewDebitAsRead(c, init, es, s, e);
      } else {
        OnlySettleLogs(c, s, e);
      }
      if i < |s.log| {
        AsReadLater(c, init, es, e, s.log[i]);
      }
    }
  }

  lemma AsReadNext(c: Config, init: State, es: seq<Event>, s: State)
    requires Valid(c) && es != [] && Protocol.Execute(c, init, es) == Some(s)
    requires AllAsRead(c, init, es[..|es| - 1], Protocol.Execute(c, init, es[..|es| - 1]).value)
    ensures AllAsRead(c, init, es, s)
  {
    var front, e := es[..|es| - 1], es[|es| - 1];
    assert es == front + [e];
    AsReadStep(c, init, front, Protocol.Execute(c, init, front).value, e);
  }

  /** Every debit is of the cost, from the payer and for the period its processor had read, whatever fails. */
  lemma {:induction false} DebitsAsRead(c: Config, init: State, es: seq<Event>, s: State)
    requires Valid(c) && Protocol.Reaches(c, init, es, s)
    ensures AllAsRead(c, init, es, s)
  {
    if es == [] {
    } else {
      var front := es[..|es| - 1];
      DebitsAsRead(c, init, front, Protocol.Execute(c, init, front).value);
      AsReadNext(c, init, es, s);
    }
  }
}

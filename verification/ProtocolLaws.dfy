/** What holds after any interleaving of processors, clients, the meter and failures. */
module ProtocolLaws {
  import opened Wrappers
  import opened Collections
  import opened Money
  import opened Tables
  import opened LedgerLaws
  import opened Grace
  import opened StateStore
  import opened Billing
  import opened Protocol

  // ---------- With failures anywhere ----------

  /**
   Once a state is persisted every period from the first to the current one
   has been debited, and a period is debited at most once more than runs
   stopped between its debit and its state write.
   */
  lemma NoPeriodLeftUndebited(c: Config, init: State, es: seq<Event>, s: State, p: ProjectId, b: nat)
    requires Valid(c) && StartsAligned(c) && Reaches(c, init, es, s)
    ensures Count(s.log, p, b) <= 1 + s.stops[(p, b)]
    ensures var M := At(s.states, p);
      M != {} && Min(M) <= b <= Max(M) && Aligned(b, c.period) ==> Count(s.log, p, b) == 1 + s.stops[(p, b)]
  {
    AlwaysSafe(c, init, es, s, p);
  }

  // ---------- Without failures ----------

  predicate Clean(es: seq<Event>) {
    forall i :: 0 <= i < |es| ==> !es[i].Raise? && !es[i].Crash?
  }

  /** The debits of project p, in order. */
  function EntriesOf(log: seq<Debit>, p: ProjectId): seq<Debit> {
    if log == [] then [] else
      var last := log[|log| - 1];
      EntriesOf(log[..|log| - 1], p) + if last.project == p then [last] else []
  }

  /** Gap-free and duplicate-free: each begin is one period after the one before. */
  predicate Consecutive(entries: seq<Debit>, period: nat) {
    forall i :: 0 < i < |entries| ==> entries[i].begin == entries[i - 1].begin + period
  }

  /** The last debit is the persisted state, or it is in flight and one period ahead of it. */
  ghost predicate InStep(period: nat, E: seq<Debit>, M: set<nat>, ph: Pc) {
    && Consecutive(E, period)
    && (M != {} ==> E != [] && E[0].begin == Min(M))
    && (if ph.Debited?
        then E != [] && E[|E| - 1].begin == ph.begin && (M == {} ==> |E| == 1)
             && (M != {} ==> ph.begin == Max(M) + period)
        else (E != [] ==> M != {} && E[|E| - 1].begin == Max(M)))
  }

  lemma EntriesSnoc(log: seq<Debit>, d: Debit, p: ProjectId)
    ensures EntriesOf(log + [d], p) == if d.project == p then EntriesOf(log, p) + [d] else EntriesOf(log, p)
  {
  }

  /** Debits, measures and phase of p before and after an event without failure. */
  ghost predicate Effect(s: State, s': State, p: ProjectId) {
    var E, M, ph := EntriesOf(s.log, p), At(s.states, p), Phase(s, p);
    var E', M', ph' := EntriesOf(s'.log, p), At(s'.states, p), Phase(s', p);
    || (M' == M && E' == E && (ph' == ph || (!ph.Debited? && !ph'.Debited?)))
    || (M' == M && ph.Cleared? && ph' == Debited(p, ph.begin)
        && exists d: Debit :: d.begin == ph.begin && E' == E + [d])
    || (E' == E && ph.Debited? && !ph'.Debited? && M' == M + {ph.begin})
  }

  lemma SettleEffect(c: Config, s: State, e: Event, p: ProjectId)
    requires Valid(c) && Fire(c, s, e).Some? && e.Settle? && Mutex(s, p)
    ensures Effect(s, Fire(c, s, e).value, p)
  {
    PhaseStep(c, s, e, p);
    EntriesSnoc(s.log, Fire(c, s, e).value.log[|s.log|], p);
  }

  lemma SetStateEffect(c: Config, s: State, e: Event, p: ProjectId)
    requires Valid(c) && Fire(c, s, e).Some? && e.SetState? && Mutex(s, p)
    ensures Effect(s, Fire(c, s, e).value, p)
  {
    PhaseStep(c, s, e, p);
  }

  lemma OtherEffect(c: Config, s: State, e: Event, p: ProjectId)
    requires Valid(c) && Fire(c, s, e).Some? && Plain(e) && Mutex(s, p)
    ensures Effect(s, Fire(c, s, e).value, p)
  {
    PhaseStep(c, s, e, p);
    KeepsDebits(c, s, e);
  }

  /** Seen from one project, such an event keeps it in step. */
  lemma EffectInStep(c: Config, s: State, s': State, p: ProjectId)
    requires Valid(c) && Effect(s, s', p) && OnSchedule(c, s, p)
    requires InStep(c.period, EntriesOf(s.log, p), At(s.states, p), Phase(s, p))
    ensures InStep(c.period, EntriesOf(s'.log, p), At(s'.states, p), Phase(s', p))
  {
    var M, ph := At(s.states, p), Phase(s, p);
    if ph.Debited? {
      WriteThenRead(M, ph.begin, c.period);
    }
  }

  lemma InStepStep(c: Config, s: State, e: Event, p: ProjectId)
    requires Valid(c) && Fire(c, s, e).Some? && !e.Raise? && !e.Crash?
    requires Safe(c, s, p) && InStep(c.period, EntriesOf(s.log, p), At(s.states, p), Phase(s, p))
    ensures var s' := Fire(c, s, e).value;
      InStep(c.period, EntriesOf(s'.log, p), At(s'.states, p), Phase(s', p))
  {
    if e.Settle? {
      SettleEffect(c, s, e, p);
    } else if e.SetState? {
      SetStateEffect(c, s, e, p);
    } else {
      OtherEffect(c, s, e, p);
    }
    EffectInStep(c, s, Fire(c, s, e).value, p);
  }

  /**
   Any number of processors without failures bill each project one period
   after the other, none twice, none left out; only the holder of the
   project's lock may be one period ahead of the persisted state.
   */
  lemma {:induction false} BilledInOrder(c: Config, init: State, es: seq<Event>, s: State, p: ProjectId)
    requires Valid(c) && StartsAligned(c) && Reaches(c, init, es, s) && Clean(es)
    ensures InStep(c.period, EntriesOf(s.log, p), At(s.states, p), Phase(s, p))
  {
    if es == [] {
    } else {
      var front := es[..|es| - 1];
      var mid := Execute(c, init, front).value;
      assert forall i :: 0 <= i < |front| ==> front[i] == es[i];
      BilledInOrder(c, init, front, mid, p);
      AlwaysSafe(c, init, front, mid, p);
      InStepStep(c, mid, es[|es| - 1], p);
    }
  }

  // ---------- The ledger under the protocol ----------

  function CostsOf(entries: seq<Debit>): (costs: seq<real>)
    ensures |costs| == |entries|
  {
    seq(|entries|, i requires 0 <= i < |entries| => entries[i].cost)
  }

  lemma CostsSnoc(entries: seq<Debit>, d: Debit)
    ensures BilledTotal(CostsOf(entries + [d])) == BilledTotal(CostsOf(entries)) + Quantize(d.cost)
  {
    assert CostsOf(entries + [d]) == CostsOf(entries) + [d.cost];
    assert (CostsOf(entries) + [d.cost])[..|entries|] == CostsOf(entries);
  }

  /** A call reaches the ledger, and if it is a settlement the log. */
  ghost predicate LedgerMoves(s: State, s': State) {
    || (s'.db == s.db && s'.ops == s.ops && s'.log == s.log)
    || (exists op: Op :: Called(s, s', op) && !op.UpdateAccount? && s'.log == s.log)
    || (exists d: Debit ::
          && Called(s, s', UpdateAccount(d.payer, d.project, d.cost, d.now))
          && Succeeds(s.db, UpdateAccount(d.payer, d.project, d.cost, d.now))
          && s'.log == s.log + [d])
  }

  predicate Called(s: State, s': State, op: Op) {
    NonNegativeCost(op) && s'.db == Step(s.db, op) && s'.ops == s.ops + [op]
  }

  /** A processor whose cost, if it carries one, is not negative. */
  predicate CostMetered(pc: Pc) {
    pc.Priced? || pc.Addressed? || pc.Cleared? ==> pc.cost >= 0.0
  }

  /** A cost on its way to the ledger is one the meter reported. */
  ghost predicate CostsMetered(s: State) {
    forall q: Processor :: CostMetered(PcOf(s, q))
  }

  lemma FireLedger(c: Config, s: State, e: Event)
    requires Valid(c) && Fire(c, s, e).Some? && CostsMetered(s)
    ensures LedgerMoves(s, Fire(c, s, e).value)
  {
    var s' := Fire(c, s, e).value;
    if e.Settle? {
      var d := s'.log[|s.log|];
      assert Called(s, s', UpdateAccount(d.payer, d.project, d.cost, d.now));
    } else if e.Client? {
      assert Called(s, s', e.op);
    }
  }

  lemma MovedMetered(c: Config, s: State, e: Event)
    requires Valid(c) && Fire(c, s, e).Some? && OfProcessor(e) && CostMetered(PcOf(s, e.q))
    ensures CostMetered(PcOf(Fire(c, s, e).value, e.q))
  {
  }

  lemma FireMetered(c: Config, s: State, e: Event)
    requires Valid(c) && Fire(c, s, e).Some? && CostsMetered(s)
    ensures CostsMetered(Fire(c, s, e).value)
  {
    FireMoves(c, s, e);
    forall q: Processor
      ensures CostMetered(PcOf(Fire(c, s, e).value, q))
    {
      assert CostMetered(PcOf(s, q));
      if OfProcessor(e) && e.q == q {
        MovedMetered(c, s, e);
      }
    }
  }

  ghost predicate LedgerAgrees(db: Tables, s: State, p: ProjectId) {
    && s.db == Run(db, s.ops) && NonNegativeCosts(s.ops)
    && SettledTotal(db, s.ops, p) == BilledTotal(CostsOf(EntriesOf(s.log, p)))
  }

  lemma SettledSnoc(db: Tables, ops: seq<Op>, op: Op, p: ProjectId)
    ensures SettledTotal(db, ops + [op], p) == SettledTotal(db, ops, p) + Settles(Run(db, ops), op, p)
  {
  }

  lemma ClientStep(db: Tables, s: State, s': State, op: Op, p: ProjectId)
    requires LedgerAgrees(db, s, p) && Called(s, s', op) && !op.UpdateAccount? && s'.log == s.log
    ensures LedgerAgrees(db, s', p)
  {
  }

  lemma DebitStep(db: Tables, s: State, s': State, d: Debit, p: ProjectId)
    requires LedgerAgrees(db, s, p) && s'.log == s.log + [d]
    requires Called(s, s', UpdateAccount(d.payer, d.project, d.cost, d.now))
    requires Succeeds(s.db, UpdateAccount(d.payer, d.project, d.cost, d.now))
    ensures LedgerAgrees(db, s', p)
  {
    var op := UpdateAccount(d.payer, d.project, d.cost, d.now);
    RunSnoc(db, s.ops, op);
    SettledSnoc(db, s.ops, op, p);
    EntriesSnoc(s.log, d, p);
    CostsSnoc(EntriesOf(s.log, p), d);
  }

  lemma LedgerStep(db: Tables, s: State, s': State, p: ProjectId)
    requires LedgerAgrees(db, s, p) && LedgerMoves(s, s')
    ensures LedgerAgrees(db, s', p)
  {
    if op: Op :| Called(s, s', op) && !op.UpdateAccount? && s'.log == s.log {
      ClientStep(db, s, s', op, p);
    } else if d: Debit :|
        && Called(s, s', UpdateAccount(d.payer, d.project, d.cost, d.now))
        && Succeeds(s.db, UpdateAccount(d.payer, d.project, d.cost, d.now))
        && s'.log == s.log + [d] {
      DebitStep(db, s, s', d, p);
    }
  }

  /** The ledger is the result of the calls made to it, and the log lists its settlements. */
  lemma {:induction false} LedgerIsRun(c: Config, init: State, es: seq<Event>, s: State, p: ProjectId)
    requires Valid(c) && Reaches(c, init, es, s)
    ensures LedgerAgrees(init.db, s, p) && CostsMetered(s)
  {
    if es == [] {
    } else {
      var mid, e := Execute(c, init, es[..|es| - 1]).value, es[|es| - 1];
      LedgerIsRun(c, init, es[..|es| - 1], mid, p);
      FireLedger(c, mid, e);
      FireMetered(c, mid, e);
      LedgerStep(init.db, mid, s, p);
    }
  }

  /**
   With or without failures a project's consumption grows by exactly the
   rounded costs of its debits, even though payers, charges and accounts change
   underneath.
   */
  lemma PaysPerDebit(c: Config, init: State, es: seq<Event>, s: State, p: ProjectId)
    requires Valid(c) && Reaches(c, init, es, s) && ProjectLives(init.db, s.ops, p)
    ensures p in init.db.projects && p in s.db.projects
    ensures s.db.projects[p].consumption
      == init.db.projects[p].consumption + BilledTotal(CostsOf(EntriesOf(s.log, p)))
  {
    LedgerIsRun(c, init, es, s, p);
    ConsumptionIsSettlements(init.db, s.ops, p);
  }

  /** Whatever fails, the books of an account stay balanced: no debit is ever half done. */
  lemma BooksStayBalanced(c: Config, init: State, es: seq<Event>, s: State, u: UserId)
    requires Valid(c) && Reaches(c, init, es, s)
    ensures Net(s.db, u) == Net(init.db, u) + OpenedTotal(init.db, s.ops, u) + CarriedTotal(init.db, s.ops, u)
      - WrittenOffTotal(init.db, s.ops, u)
    ensures AccountLives(init.db, s.ops, u) ==>
      u in s.db.accounts && u in init.db.accounts && Net(s.db, u) == Net(init.db, u) + CarriedTotal(init.db, s.ops, u)
  {
    LedgerIsRun(c, init, es, s, "");
    DoubleEntryRun(init.db, s.ops, u);
    if AccountLives(init.db, s.ops, u) {
      LivesOn(init.db, s.ops, u);
    }
  }

  /**
   Without failures a project pays once for each consecutive period, and its
   consumption is the sum of the rounded costs of those periods.
   */
  lemma PaysOncePerPeriod(c: Config, init: State, es: seq<Event>, s: State, p: ProjectId)
    requires Valid(c) && StartsAligned(c) && Reaches(c, init, es, s) && Clean(es)
    requires ProjectLives(init.db, s.ops, p)
    ensures p in init.db.projects && p in s.db.projects
    ensures var E := EntriesOf(s.log, p);
      && Consecutive(E, c.period)
      && s.db.projects[p].consumption == init.db.projects[p].consumption + BilledTotal(CostsOf(E))
  {
    BilledInOrder(c, init, es, s, p);
    PaysPerDebit(c, init, es, s, p);
  }

  // ---------- Drops ----------

  /** The drop was decided on the payer's account as the first d.calls ledger calls had left it. */
  predicate Due(db: Tables, ops: seq<Op>, d: Drop, allowOweAction: bool) {
    && d.calls <= |ops|
    && d.payer in Run(db, ops[..d.calls]).accounts
    && d.account == Run(db, ops[..d.calls]).accounts[d.payer]
    && DropsResources(d.account, d.now, allowOweAction)
  }

  lemma FireDrops(c: Config, s: State, e: Event)
    requires Valid(c) && Fire(c, s, e).Some?
    ensures var s' := Fire(c, s, e).value;
      && s.ops <= s'.ops
      && (|| s'.drops == s.drops
          || exists d: Drop ::
               && s'.drops == s.drops + [d] && d.calls == |s.ops| && d.payer in s.db.accounts
               && d.account == s.db.accounts[d.payer] && DropsResources(d.account, d.now, c.allowOweAction))
  {
    if e.ReadAccount? && Fire(c, s, e).value.drops != s.drops {
      var d := Fire(c, s, e).value.drops[|s.drops|];
      assert Fire(c, s, e).value.drops == s.drops + [d];
    }
  }

  lemma {:induction false} DropsWereDue(c: Config, init: State, es: seq<Event>, s: State, k: nat)
    requires Valid(c) && Reaches(c, init, es, s) && k < |s.drops|
    ensures Due(init.db, s.ops, s.drops[k], c.allowOweAction)
  {
    var front, e := es[..|es| - 1], es[|es| - 1];
    var mid := Execute(c, init, front).value;
    FireDrops(c, mid, e);
    if k < |mid.drops| {
      DropsWereDue(c, init, front, mid, k);
      assert s.ops[..mid.drops[k].calls] == mid.ops[..mid.drops[k].calls];
    } else {
      LedgerIsRun(c, init, front, mid, "");
      assert s.ops[..|mid.ops|] == mid.ops;
    }
  }

  /**
   Whatever the processors do, resources are dropped only when the account as
   read had been in debt, unsettled, since more than its level in days.
   */
  lemma DropsRespectGrace(c: Config, init: State, es: seq<Event>, s: State, k: nat) returns (j: nat)
    requires Valid(c) && Reaches(c, init, es, s) && k < |s.drops|
    ensures s.drops[k].calls <= |s.ops|
    ensures InDebtSince(init.db, s.ops[..s.drops[k].calls], s.drops[k].payer, j)
    ensures s.drops[k].now - s.ops[j].now > s.drops[k].account.level * DAY
    ensures s.drops[k].account.level != UNLIMITED_LEVEL && c.allowOweAction
  {
    var d := s.drops[k];
    DropsWereDue(c, init, es, s, k);
    LedgerIsRun(c, init, es, s, "");
    var ops := s.ops[..d.calls];
    assert forall i :: 0 <= i < |ops| ==> ops[i] == s.ops[i];
    j := DropOnlyAfterGrace(init.db, ops, d.payer, d.now, c.allowOweAction);
  }

  /**
   A processor that has read the account of u drops the project at that moment if
   and only if the account has been in debt and unsettled for more than its level
   in days, its level is not 9 and the option is on.
   */
  lemma DropsExactly(c: Config, init: State, es: seq<Event>, s: State, q: Processor, now: int)
    requires Valid(c) && Reaches(c, init, es, s)
    requires PcOf(s, q).Addressed? && PcOf(s, q).payer in s.db.accounts
    ensures Fire(c, s, ReadAccount(q, now)).Some?
    ensures var Addressed(p, _, _, u) := PcOf(s, q);
      Fire(c, s, ReadAccount(q, now)).value.drops
        == if exists j :: 0 <= j < |s.ops| && GraceOver(init.db, s.ops, u, j, now, c.allowOweAction)
           then s.drops + [Drop(p, u, s.db.accounts[u], now, |s.ops|)] else s.drops
  {
    LedgerIsRun(c, init, es, s, "");
    DropIff(init.db, s.ops, PcOf(s, q).payer, now, c.allowOweAction);
  }

  // ---------- Never ahead of cloudkitty ----------

  predicate Closed(c: Config, s: State, p: ProjectId, begin: nat)
    requires Valid(c)
  {
    var top := Top(At(s.meters, p), c.period);
    top.Some? && begin < top.value
  }

  ghost predicate NotAhead(c: Config, s: State)
    requires Valid(c)
  {
    && (forall q: Processor :: HasBegin(PcOf(s, q)) ==> Closed(c, s, PcOf(s, q).project, PcOf(s, q).begin))
    && (forall i :: 0 <= i < |s.log| ==> Closed(c, s, s.log[i].project, s.log[i].begin))
  }

  predicate Works(s: State, q: Processor, p: ProjectId, begin: nat) {
    HasBegin(PcOf(s, q)) && PcOf(s, q).project == p && PcOf(s, q).begin == begin
  }

  /** A processor takes up only periods that are closed. */
  lemma BeginsClosed(c: Config, s: State, e: Event, q: Processor)
    requires Valid(c) && Fire(c, s, e).Some? && c.historicalExpenses
    requires HasBegin(PcOf(Fire(c, s, e).value, q))
    ensures var pc := PcOf(Fire(c, s, e).value, q);
      Works(s, q, pc.project, pc.begin) || Closed(c, s, pc.project, pc.begin)
  {
    if e.ReadTop? {
      TopBeginsClosed(c, s, e, q);
    } else {
      OtherBeginsKept(c, s, e, q);
    }
  }

  lemma TopBeginsClosed(c: Config, s: State, e: Event, q: Processor)
    requires Valid(c) && Fire(c, s, e).Some? && e.ReadTop?
    requires HasBegin(PcOf(Fire(c, s, e).value, q))
    ensures var pc := PcOf(Fire(c, s, e).value, q);
      Works(s, q, pc.project, pc.begin) || Closed(c, s, pc.project, pc.begin)
  {
  }

  lemma OtherBeginsKept(c: Config, s: State, e: Event, q: Processor)
    requires Valid(c) && Fire(c, s, e).Some? && !e.ReadTop? && c.historicalExpenses
    requires HasBegin(PcOf(Fire(c, s, e).value, q))
    ensures var pc := PcOf(Fire(c, s, e).value, q); Works(s, q, pc.project, pc.begin)
  {
    if OfProcessor(e) && e.q == q {
      if e.ReadTimestamp? {
        NoFirstRun(c, s, e);
      } else {
        WorkGoesOn(c, s, e);
      }
    } else {
      FireMoves(c, s, e);
    }
  }

  lemma NoFirstRun(c: Config, s: State, e: Event)
    requires Valid(c) && Fire(c, s, e).Some? && e.ReadTimestamp? && c.historicalExpenses
    ensures !HasBegin(PcOf(Fire(c, s, e).value, e.q))
  {
  }

  lemma WorkGoesOn(c: Config, s: State, e: Event)
    requires Valid(c) && Fire(c, s, e).Some? && OfProcessor(e) && !e.ReadTop? && !e.ReadTimestamp?
    requires HasBegin(PcOf(Fire(c, s, e).value, e.q))
    ensures var pc := PcOf(Fire(c, s, e).value, e.q); Works(s, e.q, pc.project, pc.begin)
  {
  }

  /** A processor debits only the period it works on. */
  lemma DebitsOwn(c: Config, s: State, e: Event, i: nat)
    requires Valid(c) && Fire(c, s, e).Some? && i < |Fire(c, s, e).value.log|
    ensures var log := Fire(c, s, e).value.log;
      (i < |s.log| && log[i] == s.log[i]) || exists q :: Works(s, q, log[i].project, log[i].begin)
  {
    if e.Settle? && i == |s.log| {
      assert Works(s, e.q, Fire(c, s, e).value.log[i].project, Fire(c, s, e).value.log[i].begin);
    }
  }

  lemma StaysClosed(c: Config, s: State, e: Event, p: ProjectId, begin: nat)
    requires Valid(c) && Fire(c, s, e).Some? && Closed(c, s, p, begin)
    ensures Closed(c, Fire(c, s, e).value, p, begin)
  {
    var before, after := At(s.meters, p), At(Fire(c, s, e).value.meters, p);
    assert Max(Buckets(before, c.period)) in Buckets(after, c.period);
  }

  lemma FireCloses(c: Config, s: State, e: Event)
    requires Valid(c) && Fire(c, s, e).Some? && c.historicalExpenses && NotAhead(c, s)
    ensures NotAhead(c, Fire(c, s, e).value)
  {
    var s' := Fire(c, s, e).value;
    forall q: Processor | HasBegin(PcOf(s', q))
      ensures Closed(c, s', PcOf(s', q).project, PcOf(s', q).begin)
    {
      BeginsClosed(c, s, e, q);
      StaysClosed(c, s, e, PcOf(s', q).project, PcOf(s', q).begin);
    }
    forall i | 0 <= i < |s'.log|
      ensures Closed(c, s', s'.log[i].project, s'.log[i].begin)
    {
      DebitsOwn(c, s, e, i);
      StaysClosed(c, s, e, s'.log[i].project, s'.log[i].begin);
    }
  }

  /** With historical expenses on, only periods that cloudkitty has moved past are billed. */
  lemma {:induction false} NeverAhead(c: Config, init: State, es: seq<Event>, s: State)
    requires Valid(c) && c.historicalExpenses && Reaches(c, init, es, s)
    ensures NotAhead(c, s)
  {
    if es == [] {
    } else {
      var mid := Execute(c, init, es[..|es| - 1]).value;
      NeverAhead(c, init, es[..|es| - 1], mid);
      FireCloses(c, mid, es[|es| - 1]);
    }
  }
}

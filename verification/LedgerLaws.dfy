/** What every sequence of database calls keeps: the laws of the ledger. */
module LedgerLaws {
  import opened Wrappers
  import opened Money
  import opened Sums
  import opened Tables

  // ---------- Sums across tables ----------

  /** What user u has spent, project by project. */
  function UserView(rels: map<(UserId, ProjectId), Relation>, u: UserId): map<(UserId, ProjectId), int> {
    map k | k in rels && k.0 == u :: rels[k].consumption
  }

  /** What project p has cost, payer by payer. */
  function ProjectView(rels: map<(UserId, ProjectId), Relation>, p: ProjectId): map<(UserId, ProjectId), int> {
    map k | k in rels && k.1 == p :: rels[k].consumption
  }

  ghost function UserSpend(t: Tables, u: UserId): int {
    SumMap(UserView(t.relations, u))
  }

  ghost function ProjectSpend(t: Tables, p: ProjectId): int {
    SumMap(ProjectView(t.relations, p))
  }

  function ChargeTotal(charges: seq<Charge>, u: UserId): int {
    if charges == [] then 0 else
      var last := charges[|charges| - 1];
      ChargeTotal(charges[..|charges| - 1], u) + if last.user == u then last.value else 0
  }

  function Share(t: Tables, k: (UserId, ProjectId)): int {
    if k in t.relations then t.relations[k].consumption else 0
  }

  lemma WriteRelation(rels: map<(UserId, ProjectId), Relation>, k: (UserId, ProjectId), r: Relation, u: UserId,
                      p: ProjectId)
    ensures var delta := r.consumption - if k in rels then rels[k].consumption else 0;
      && SumMap(UserView(rels[k := r], u)) == SumMap(UserView(rels, u)) + (if k.0 == u then delta else 0)
      && SumMap(ProjectView(rels[k := r], p)) == SumMap(ProjectView(rels, p)) + (if k.1 == p then delta else 0)
  {
    var users, projects := UserView(rels, u), ProjectView(rels, p);
    if k.0 == u {
      assert UserView(rels[k := r], u) == users[k := r.consumption];
      SumMapUpdate(users, k, r.consumption);
    } else {
      assert UserView(rels[k := r], u) == users;
    }
    if k.1 == p {
      assert ProjectView(rels[k := r], p) == projects[k := r.consumption];
      SumMapUpdate(projects, k, r.consumption);
    } else {
      assert ProjectView(rels[k := r], p) == projects;
    }
  }

  /** Deleting user v empties its view, leaves those of the others alone and takes v's share out of every project. */
  lemma DropUser(rels: map<(UserId, ProjectId), Relation>, v: UserId, u: UserId, p: ProjectId)
    ensures var kept := map k | k in rels && k.0 != v :: rels[k];
      && UserView(kept, u) == (if u == v then map[] else UserView(rels, u))
      && SumMap(ProjectView(rels, p)) == SumMap(ProjectView(kept, p))
           + if (v, p) in rels then rels[(v, p)].consumption else 0
  {
    var kept := map k | k in rels && k.0 != v :: rels[k];
    if (v, p) in rels {
      SumMapRemove(ProjectView(rels, p), (v, p));
      assert ProjectView(rels, p) - {(v, p)} == ProjectView(kept, p);
    } else {
      assert ProjectView(rels, p) == ProjectView(kept, p);
    }
  }

  // ---------- Double entry ----------

  function Balance(t: Tables, u: UserId): int {
    if u in t.accounts then t.accounts[u].balance else 0
  }

  /** Money in the account plus money spent, less money paid in. */
  ghost function Net(t: Tables, u: UserId): int {
    Balance(t, u) + UserSpend(t, u) - ChargeTotal(t.charges, u)
  }

  /** A call that gives u an account, which a refused one does not. */
  predicate Opens(t: Tables, op: Op, u: UserId) {
    op.CreateAccount? && op.user == u && Succeeds(t, op)
  }

  predicate Closes(t: Tables, op: Op, u: UserId) {
    op.DeleteAccount? && op.user == u && Succeeds(t, op)
  }

  function Opened(t: Tables, op: Op, u: UserId): int {
    if Opens(t, op, u) then op.balance else 0
  }

  /** Consumption a new project brings along that no account has paid. */
  function Carried(t: Tables, op: Op, u: UserId): int {
    if op.CreateProject? && op.user == u && Succeeds(t, op) then op.consumption else 0
  }

  /** What a deletion takes out of the books: the balance and the record of what was spent. */
  ghost function WrittenOff(t: Tables, op: Op, u: UserId): int {
    if Closes(t, op, u) then Balance(t, u) + UserSpend(t, u) else 0
  }

  lemma DeleteSpend(t: Tables, v: UserId, u: UserId)
    requires v in t.accounts
    ensures UserSpend(Step(t, DeleteAccount(v)), u) == if u == v then 0 else UserSpend(t, u)
  {
    DropUser(t.relations, v, u, "");
  }

  lemma DeleteNet(t: Tables, v: UserId, u: UserId)
    requires v in t.accounts
    ensures Net(Step(t, DeleteAccount(v)), u) == Net(t, u) - WrittenOff(t, DeleteAccount(v), u)
  {
    DeleteSpend(t, v, u);
  }

  lemma DoubleEntryStep(t: Tables, op: Op, u: UserId)
    ensures Net(Step(t, op), u) == Net(t, u) + Opened(t, op, u) + Carried(t, op, u) - WrittenOff(t, op, u)
  {
    var t' := Step(t, op);
    if Succeeds(t, op) {
      match op
      case UpdateAccount(v, p, _, _) =>
        WriteRelation(t.relations, (v, p), t'.relations[(v, p)], u, p);
      case CreateProject(p, v, _, _) =>
        WriteRelation(t.relations, (v, p), t'.relations[(v, p)], u, p);
      case ChangeBillingOwner(p, v, _) =>
        WriteRelation(t.relations, (v, p), t'.relations[(v, p)], u, p);
      case DeleteAccount(v) =>
        DeleteNet(t, v, u);
      case ChargeAccount(_, _, _, _, _) =>
        assert t'.charges[..|t.charges|] == t.charges;
      case _ =>
    }
  }

  function OpenedTotal(t: Tables, ops: seq<Op>, u: UserId): int {
    if ops == [] then 0 else
      OpenedTotal(t, ops[..|ops| - 1], u) + Opened(Run(t, ops[..|ops| - 1]), ops[|ops| - 1], u)
  }

  function CarriedTotal(t: Tables, ops: seq<Op>, u: UserId): int {
    if ops == [] then 0 else
      CarriedTotal(t, ops[..|ops| - 1], u) + Carried(Run(t, ops[..|ops| - 1]), ops[|ops| - 1], u)
  }

  ghost function WrittenOffTotal(t: Tables, ops: seq<Op>, u: UserId): int {
    if ops == [] then 0 else
      WrittenOffTotal(t, ops[..|ops| - 1], u) + WrittenOff(Run(t, ops[..|ops| - 1]), ops[|ops| - 1], u)
  }

  lemma {:induction false} DoubleEntryRun(t: Tables, ops: seq<Op>, u: UserId)
    ensures Net(Run(t, ops), u)
      == Net(t, u) + OpenedTotal(t, ops, u) + CarriedTotal(t, ops, u) - WrittenOffTotal(t, ops, u)
  {
    if ops == [] {
    } else {
      DoubleEntryRun(t, ops[..|ops| - 1], u);
      DoubleEntryStep(Run(t, ops[..|ops| - 1]), ops[|ops| - 1], u);
    }
  }

  /** The account of u exists before, between and after the calls. */
  predicate AccountLives(t: Tables, ops: seq<Op>, u: UserId) {
    u in Run(t, ops).accounts && (ops != [] ==> AccountLives(t, ops[..|ops| - 1], u))
  }

  /** An account that lives on is neither opened nor written off. */
  lemma {:induction false} LivesOn(t: Tables, ops: seq<Op>, u: UserId)
    requires AccountLives(t, ops, u)
    ensures u in t.accounts && OpenedTotal(t, ops, u) == 0 && WrittenOffTotal(t, ops, u) == 0
  {
    if ops == [] {
    } else {
      LivesOn(t, ops[..|ops| - 1], u);
    }
  }

  function Openings(t: Tables, ops: seq<Op>, u: UserId): nat {
    if ops == [] then 0 else
      Openings(t, ops[..|ops| - 1], u) + if Opens(Run(t, ops[..|ops| - 1]), ops[|ops| - 1], u) then 1 else 0
  }

  function Closings(t: Tables, ops: seq<Op>, u: UserId): nat {
    if ops == [] then 0 else
      Closings(t, ops[..|ops| - 1], u) + if Closes(Run(t, ops[..|ops| - 1]), ops[|ops| - 1], u) then 1 else 0
  }

  /** Every opening but that of a live account has been undone by a deletion. */
  lemma {:induction false} OpeningsAndClosings(t: Tables, ops: seq<Op>, u: UserId)
    requires u !in t.accounts
    ensures Openings(t, ops, u) == Closings(t, ops, u) + if u in Run(t, ops).accounts then 1 else 0
    ensures Closings(t, ops, u) == 0 ==> WrittenOffTotal(t, ops, u) == 0
  {
    if ops == [] {
    } else {
      OpeningsAndClosings(t, ops[..|ops| - 1], u);
    }
  }

  lemma NothingSpentYet(t: Tables, u: UserId)
    requires t.relations == map[] && t.charges == [] && u !in t.accounts
    ensures Net(t, u) == 0
  {
    SumMapZero(UserView(t.relations, u));
  }

  /**
   Double entry: from an empty database, after any calls, what an account holds
   is what accounts under its user id were opened with, plus everything charged,
   less everything its user's projects have cost; but for what new projects
   carried in and what deletions wrote off.
   */
  lemma DoubleEntry(ops: seq<Op>, u: UserId)
    ensures var t := Run(EMPTY, ops);
      Balance(t, u) == OpenedTotal(EMPTY, ops, u) + ChargeTotal(t.charges, u) - UserSpend(t, u)
        + CarriedTotal(EMPTY, ops, u) - WrittenOffTotal(EMPTY, ops, u)
    ensures u in Run(EMPTY, ops).accounts && Openings(EMPTY, ops, u) == 1 ==> WrittenOffTotal(EMPTY, ops, u) == 0
  {
    NothingSpentYet(EMPTY, u);
    DoubleEntryRun(EMPTY, ops, u);
    OpeningsAndClosings(EMPTY, ops, u);
  }

  /** The books of an account whose user id was given out once balance exactly when nothing was carried in. */
  lemma DoubleEntryIff(ops: seq<Op>, u: UserId)
    requires u in Run(EMPTY, ops).accounts && Openings(EMPTY, ops, u) == 1
    ensures var t := Run(EMPTY, ops);
      t.accounts[u].balance == OpenedTotal(EMPTY, ops, u) + ChargeTotal(t.charges, u) - UserSpend(t, u)
      <==> CarriedTotal(EMPTY, ops, u) == 0
  {
    DoubleEntry(ops, u);
  }

  // ---------- A project and its payers ----------

  function Consumption(t: Tables, p: ProjectId): int {
    if p in t.projects then t.projects[p].consumption else 0
  }

  /** What the project row has consumed beyond what its payers' rows show. */
  ghost function Gap(t: Tables, p: ProjectId): int {
    Consumption(t, p) - ProjectSpend(t, p)
  }

  /** The share of a payer or former payer that goes away with the account. */
  function Forgotten(t: Tables, op: Op, p: ProjectId): int {
    if op.DeleteAccount? && Succeeds(t, op) then Share(t, (op.user, p)) else 0
  }

  predicate Creates(t: Tables, op: Op, p: ProjectId) {
    op.CreateProject? && op.project == p && Succeeds(t, op)
  }

  /** A project goes away with the account of its payer. */
  predicate Removes(t: Tables, op: Op, p: ProjectId) {
    op.DeleteAccount? && Succeeds(t, op) && p in t.projects && t.projects[p].payer == op.user
  }

  function Removed(t: Tables, op: Op, p: ProjectId): int {
    if Removes(t, op, p) then t.projects[p].consumption else 0
  }

  lemma ProjectGapStep(t: Tables, op: Op, p: ProjectId)
    ensures Gap(Step(t, op), p) == Gap(t, p) + Forgotten(t, op, p) - Removed(t, op, p)
  {
    var t' := Step(t, op);
    if Succeeds(t, op) {
      match op
      case UpdateAccount(v, r, _, _) => WriteRelation(t.relations, (v, r), t'.relations[(v, r)], v, p);
      case CreateProject(r, v, _, _) => WriteRelation(t.relations, (v, r), t'.relations[(v, r)], v, p);
      case ChangeBillingOwner(r, v, _) => WriteRelation(t.relations, (v, r), t'.relations[(v, r)], v, p);
      case DeleteAccount(v) => DropUser(t.relations, v, v, p);
      case _ =>
    }
  }

  function ForgottenTotal(t: Tables, ops: seq<Op>, p: ProjectId): int {
    if ops == [] then 0 else
      ForgottenTotal(t, ops[..|ops| - 1], p) + Forgotten(Run(t, ops[..|ops| - 1]), ops[|ops| - 1], p)
  }

  function RemovedTotal(t: Tables, ops: seq<Op>, p: ProjectId): int {
    if ops == [] then 0 else
      RemovedTotal(t, ops[..|ops| - 1], p) + Removed(Run(t, ops[..|ops| - 1]), ops[|ops| - 1], p)
  }

  lemma {:induction false} ProjectGapRun(t: Tables, ops: seq<Op>, p: ProjectId)
    ensures Gap(Run(t, ops), p) == Gap(t, p) + ForgottenTotal(t, ops, p) - RemovedTotal(t, ops, p)
  {
    if ops == [] {
    } else {
      ProjectGapRun(t, ops[..|ops| - 1], p);
      ProjectGapStep(Run(t, ops[..|ops| - 1]), ops[|ops| - 1], p);
    }
  }

  function Creations(t: Tables, ops: seq<Op>, p: ProjectId): nat {
    if ops == [] then 0 else
      Creations(t, ops[..|ops| - 1], p) + if Creates(Run(t, ops[..|ops| - 1]), ops[|ops| - 1], p) then 1 else 0
  }

  function Removals(t: Tables, ops: seq<Op>, p: ProjectId): nat {
    if ops == [] then 0 else
      Removals(t, ops[..|ops| - 1], p) + if Removes(Run(t, ops[..|ops| - 1]), ops[|ops| - 1], p) then 1 else 0
  }

  lemma {:induction false} CreationsAndRemovals(t: Tables, ops: seq<Op>, p: ProjectId)
    requires p !in t.projects
    ensures Creations(t, ops, p) == Removals(t, ops, p) + if p in Run(t, ops).projects then 1 else 0
    ensures Removals(t, ops, p) == 0 ==> RemovedTotal(t, ops, p) == 0
  {
    if ops == [] {
    } else {
      CreationsAndRemovals(t, ops[..|ops| - 1], p);
    }
  }

  /** Metered costs and opening consumptions are never negative. */
  predicate NonNegativeCosts(ops: seq<Op>) {
    forall i :: 0 <= i < |ops| ==> NonNegativeCost(ops[i])
  }

  predicate NonNegativeCost(op: Op) {
    match op
    case UpdateAccount(_, _, cost, _) => cost >= 0.0
    case CreateProject(_, _, consumption, _) => consumption >= 0
    case _ => true
  }

  lemma {:induction false} SharesNonNegative(ops: seq<Op>)
    requires NonNegativeCosts(ops)
    ensures forall k :: k in Run(EMPTY, ops).relations ==> Run(EMPTY, ops).relations[k].consumption >= 0
  {
    if ops == [] {
    } else {
      SharesNonNegative(ops[..|ops| - 1]);
      assert NonNegativeCost(ops[|ops| - 1]);
      if ops[|ops| - 1].UpdateAccount? {
        QuantizeMonotone(0.0, ops[|ops| - 1].cost);
      }
    }
  }

  lemma {:induction false} ForgottenNonNegative(ops: seq<Op>, p: ProjectId)
    requires NonNegativeCosts(ops)
    ensures ForgottenTotal(EMPTY, ops, p) >= 0
  {
    if ops == [] {
    } else {
      ForgottenNonNegative(ops[..|ops| - 1], p);
      SharesNonNegative(ops[..|ops| - 1]);
    }
  }

  /**
   Conservation: a project has consumed exactly what its payers paid for it,
   through any changes of payer, and what deleted accounts had paid for it; less
   what earlier projects of the same id had consumed when they were removed.
   */
  lemma ProjectConservation(ops: seq<Op>, p: ProjectId)
    ensures var t := Run(EMPTY, ops);
      Consumption(t, p) == ProjectSpend(t, p) + ForgottenTotal(EMPTY, ops, p) - RemovedTotal(EMPTY, ops, p)
    ensures p in Run(EMPTY, ops).projects && Creations(EMPTY, ops, p) == 1 ==> RemovedTotal(EMPTY, ops, p) == 0
  {
    SumMapZero(ProjectView(EMPTY.relations, p));
    ProjectGapRun(EMPTY, ops, p);
    CreationsAndRemovals(EMPTY, ops, p);
  }

  /** A project whose id was given out once shows its whole consumption exactly when no payer's share was deleted. */
  lemma ProjectConservationIff(ops: seq<Op>, p: ProjectId)
    requires p in Run(EMPTY, ops).projects && Creations(EMPTY, ops, p) == 1
    ensures var t := Run(EMPTY, ops);
      && (t.projects[p].consumption == ProjectSpend(t, p) <==> ForgottenTotal(EMPTY, ops, p) == 0)
      && (NonNegativeCosts(ops) ==> ProjectSpend(t, p) <= t.projects[p].consumption)
  {
    ProjectConservation(ops, p);
    if NonNegativeCosts(ops) {
      ForgottenNonNegative(ops, p);
    }
  }

  // ---------- Referential integrity ----------

  /** Every project's payer has an account and a relation to the project. */
  predicate Integrity(t: Tables) {
    forall p :: p in t.projects ==>
      t.projects[p].payer in t.accounts && (t.projects[p].payer, p) in t.relations
  }

  /** Integrity survives every call but the creation of a project for a user without an account. */
  lemma IntegrityStep(t: Tables, op: Op)
    requires Integrity(t)
    ensures Integrity(Step(t, op)) <==> (op.CreateProject? && Succeeds(t, op) ==> op.user in t.accounts)
  {
    var t' := Step(t, op);
    if op.CreateProject? && Succeeds(t, op) && op.user !in t.accounts {
      assert op.project in t'.projects;
    }
  }

  predicate ProjectsHaveAccounts(t: Tables, ops: seq<Op>) {
    ops != [] ==>
      && ProjectsHaveAccounts(t, ops[..|ops| - 1])
      && (ops[|ops| - 1].CreateProject? ==> ops[|ops| - 1].user in Run(t, ops[..|ops| - 1]).accounts)
  }

  /** In every reachable ledger the current payer of a project can be debited. */
  lemma {:induction false} PayerCanBeDebited(ops: seq<Op>)
    requires ProjectsHaveAccounts(EMPTY, ops)
    ensures Integrity(Run(EMPTY, ops))
    ensures forall p, cost, now :: p in Run(EMPTY, ops).projects ==>
      Succeeds(Run(EMPTY, ops), UpdateAccount(Run(EMPTY, ops).projects[p].payer, p, cost, now))
  {
    if ops == [] {
    } else {
      PayerCanBeDebited(ops[..|ops| - 1]);
      IntegrityStep(Run(EMPTY, ops[..|ops| - 1]), ops[|ops| - 1]);
    }
  }

  // ---------- The owed flag ----------

  predicate OwedSound(t: Tables) {
    forall u :: u in t.accounts ==> (t.accounts[u].owed ==> t.accounts[u].balance < 0)
  }

  predicate OwedExact(a: Account) {
    a.owed <==> a.balance < 0
  }

  lemma OwedSoundStep(t: Tables, op: Op)
    requires OwedSound(t) && NonNegativeCost(op)
    ensures OwedSound(Step(t, op))
  {
  }

  /** An account flagged as owed is in debt, in every reachable ledger. */
  lemma {:induction false} OwedImpliesDebt(t: Tables, ops: seq<Op>)
    requires OwedSound(t) && NonNegativeCosts(ops)
    ensures OwedSound(Run(t, ops))
  {
    if ops == [] {
    } else {
      var front := ops[..|ops| - 1];
      assert forall i :: 0 <= i < |front| ==> front[i] == ops[i];
      OwedImpliesDebt(t, front);
      OwedSoundStep(Run(t, front), ops[|ops| - 1]);
    }
  }

  /** Any settlement makes the flag of its account exact again. */
  lemma SettlementRestoresFlag(t: Tables, op: Op)
    requires OwedSound(t) && op.UpdateAccount? && op.cost >= 0.0 && Succeeds(t, op)
    ensures OwedExact(Step(t, op).accounts[op.user])
  {
  }

  /** A charge keeps the flag exact unless it takes a balance from zero or more to below zero. */
  lemma ChargeKeepsFlagIff(t: Tables, op: Op)
    requires op.ChargeAccount? && Succeeds(t, op) && OwedExact(t.accounts[op.user])
    ensures OwedExact(Step(t, op).accounts[op.user])
      <==> !(t.accounts[op.user].balance >= 0 && t.accounts[op.user].balance + op.value < 0)
  {
  }

  predicate CreditsOnly(ops: seq<Op>) {
    forall i :: 0 <= i < |ops| ==>
      && (ops[i].ChargeAccount? ==> ops[i].value >= 0)
      && (ops[i].CreateAccount? ==> ops[i].balance >= 0)
  }

  /** Without negative charges and openings, owed means exactly in debt. */
  lemma {:induction false} OwedMeansDebt(ops: seq<Op>)
    requires NonNegativeCosts(ops) && CreditsOnly(ops)
    ensures forall u :: u in Run(EMPTY, ops).accounts ==> OwedExact(Run(EMPTY, ops).accounts[u])
  {
    if ops == [] {
    } else {
      OwedMeansDebt(ops[..|ops| - 1]);
      var last := ops[|ops| - 1];
      assert NonNegativeCost(last);
      if last.UpdateAccount? {
        QuantizeMonotone(0.0, last.cost);
      }
    }
  }

  // ---------- Calls that all succeed ----------

  /** Every call succeeds when its turn comes. */
  predicate AllSucceed(t: Tables, ops: seq<Op>) {
    ops != [] ==> AllSucceed(t, ops[..|ops| - 1]) && Succeeds(Run(t, ops[..|ops| - 1]), ops[|ops| - 1])
  }

  lemma AllSucceedSnoc(t: Tables, ops: seq<Op>, op: Op)
    ensures AllSucceed(t, ops + [op]) <==> AllSucceed(t, ops) && Succeeds(Run(t, ops), op)
  {
  }

  // ---------- Settlements ----------

  /** The units a call settles on project p. */
  function Settles(t: Tables, op: Op, p: ProjectId): int {
    if op.UpdateAccount? && op.project == p && Succeeds(t, op) then Quantize(op.cost) else 0
  }

  function SettledTotal(t: Tables, ops: seq<Op>, p: ProjectId): int {
    if ops == [] then 0 else
      SettledTotal(t, ops[..|ops| - 1], p) + Settles(Run(t, ops[..|ops| - 1]), ops[|ops| - 1], p)
  }

  predicate ProjectLives(t: Tables, ops: seq<Op>, p: ProjectId) {
    p in Run(t, ops).projects && (ops != [] ==> ProjectLives(t, ops[..|ops| - 1], p))
  }

  /** Nothing but settlements moves a project's consumption. */
  lemma {:induction false} ConsumptionIsSettlements(t: Tables, ops: seq<Op>, p: ProjectId)
    requires ProjectLives(t, ops, p)
    ensures p in t.projects
    ensures Run(t, ops).projects[p].consumption == t.projects[p].consumption + SettledTotal(t, ops, p)
  {
    if ops == [] {
    } else {
      ConsumptionIsSettlements(t, ops[..|ops| - 1], p);
    }
  }

  /** One settlement per cost, the k-th one at the k-th clock reading. */
  function Settlements(u: UserId, p: ProjectId, costs: seq<real>, clock: nat -> int): (ops: seq<Op>)
    ensures |ops| == |costs|
  {
    seq(|costs|, i requires 0 <= i < |costs| => UpdateAccount(u, p, costs[i], clock(i)))
  }

  /** The account, the project and the relation move by the same total, which is near the metered one. */
  lemma {:induction false} SettlementsStayTogether(t: Tables, u: UserId, p: ProjectId, costs: seq<real>,
                                                   clock: nat -> int)
    requires u in t.accounts && p in t.projects && (u, p) in t.relations
    ensures var t' := Run(t, Settlements(u, p, costs, clock));
      && u in t'.accounts && p in t'.projects && (u, p) in t'.relations
      && t'.accounts[u].balance == t.accounts[u].balance - BilledTotal(costs)
      && t'.projects[p].consumption == t.projects[p].consumption + BilledTotal(costs)
      && t'.relations[(u, p)].consumption == t.relations[(u, p)].consumption + BilledTotal(costs)
    ensures -(|costs| as real) * 0.5 <= BilledTotal(costs) as real - ExactTotal(costs) * UNITS <= |costs| as real * 0.5
  {
    RoundingErrorBound(costs);
    if costs == [] {
    } else {
      var ops, front := Settlements(u, p, costs, clock), costs[..|costs| - 1];
      SettlementsStayTogether(t, u, p, front, clock);
      assert ops[..|ops| - 1] == Settlements(u, p, front, clock);
    }
  }
}

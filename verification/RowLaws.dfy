/**
 Where each column of a row comes from: the last call that wrote it, over any
 sequence of calls.
 */
module RowLaws {
  import opened Wrappers
  import opened Money
  import opened Tables
  import opened LedgerLaws

  /** A settlement of the account of u that went through. */
  predicate SettlesFor(t: Tables, op: Op, u: UserId) {
    op.UpdateAccount? && op.user == u && Succeeds(t, op)
  }

  // ---------- Accounts ----------

  /** What the last settlement of u cost in units, or what its account was opened with since then. */
  function LastAmount(t: Tables, ops: seq<Op>, u: UserId): int {
    if ops == [] then (if u in t.accounts then t.accounts[u].consumption else 0) else
      var before, op := Run(t, ops[..|ops| - 1]), ops[|ops| - 1];
      if SettlesFor(before, op, u) then Quantize(op.cost)
      else if Opens(before, op, u) then op.consumption
      else LastAmount(t, ops[..|ops| - 1], u)
  }

  /** When u was last settled since its account was opened. */
  function LastSettled(t: Tables, ops: seq<Op>, u: UserId): Option<int> {
    if ops == [] then (if u in t.accounts then t.accounts[u].updatedAt else None) else
      var before, op := Run(t, ops[..|ops| - 1]), ops[|ops| - 1];
      if SettlesFor(before, op, u) then Some(op.now)
      else if Opens(before, op, u) then None
      else LastSettled(t, ops[..|ops| - 1], u)
  }

  /** The level the account was last given. */
  function LastLevel(t: Tables, ops: seq<Op>, u: UserId): int {
    if ops == [] then (if u in t.accounts then t.accounts[u].level else 0) else
      var before, op := Run(t, ops[..|ops| - 1]), ops[|ops| - 1];
      if op.ChangeAccountLevel? && op.user == u && Succeeds(before, op) then op.level
      else if Opens(before, op, u) then op.level
      else LastLevel(t, ops[..|ops| - 1], u)
  }

  /** One call, seen from an account that is there after it. */
  lemma AccountWrites(t: Tables, op: Op, u: UserId)
    requires u in Step(t, op).accounts
    ensures u in t.accounts || Opens(t, op, u)
    ensures var a' := Step(t, op).accounts[u];
      if Opens(t, op, u) then a'.consumption == op.consumption && a'.updatedAt == None && a'.level == op.level
      else if SettlesFor(t, op, u) then
        a'.consumption == Quantize(op.cost) && a'.updatedAt == Some(op.now) && a'.level == t.accounts[u].level
      else
        && a'.consumption == t.accounts[u].consumption && a'.updatedAt == t.accounts[u].updatedAt
        && a'.level == if op.ChangeAccountLevel? && op.user == u && Succeeds(t, op) then op.level
                       else t.accounts[u].level
  {
  }

  /**
   A live account shows the amount of its last settlement, not their sum, the time
   of that settlement, and the level it was last given; no other call touches these.
   */
  lemma {:induction false} AccountColumns(t: Tables, ops: seq<Op>, u: UserId)
    requires u in Run(t, ops).accounts
    ensures Run(t, ops).accounts[u].consumption == LastAmount(t, ops, u)
    ensures Run(t, ops).accounts[u].updatedAt == LastSettled(t, ops, u)
    ensures Run(t, ops).accounts[u].level == LastLevel(t, ops, u)
  {
    if ops == [] {
    } else {
      var front := ops[..|ops| - 1];
      AccountWrites(Run(t, front), ops[|ops| - 1], u);
      if u in Run(t, front).accounts {
        AccountColumns(t, front, u);
      }
    }
  }

  lemma AccountStays(t: Tables, op: Op, u: UserId)
    requires u in t.accounts && !SettlesFor(t, op, u) && !(op.DeleteAccount? && op.user == u)
    ensures u in Step(t, op).accounts && Step(t, op).accounts[u].consumption == t.accounts[u].consumption
  {
  }

  lemma AccountSettled(t: Tables, op: Op, u: UserId)
    requires SettlesFor(t, op, u)
    ensures u in Step(t, op).accounts && Step(t, op).accounts[u].consumption == Quantize(op.cost)
  {
  }

  /** The same without the recursion: after settlement j of u, with none and no deletion of the account since. */
  lemma {:induction false} ConsumptionIsLastCost(t: Tables, ops: seq<Op>, u: UserId, j: nat)
    requires j < |ops| && SettlesFor(Run(t, ops[..j]), ops[j], u)
    requires forall i :: j < i < |ops| ==>
      !SettlesFor(Run(t, ops[..i]), ops[i], u) && !(ops[i].DeleteAccount? && ops[i].user == u)
    ensures u in Run(t, ops).accounts && Run(t, ops).accounts[u].consumption == Quantize(ops[j].cost)
  {
    var front, last := ops[..|ops| - 1], ops[|ops| - 1];
    assert ops[..|front|] == front;
    if j == |front| {
      AccountSettled(Run(t, front), last, u);
    } else {
      assert front[..j] == ops[..j];
      forall i | j < i < |front|
        ensures !SettlesFor(Run(t, front[..i]), front[i], u) && !(front[i].DeleteAccount? && front[i].user == u)
      {
        assert front[..i] == ops[..i];
      }
      ConsumptionIsLastCost(t, front, u, j);
      assert !SettlesFor(Run(t, front), last, u);
      AccountStays(Run(t, front), last, u);
    }
  }

  /** A new account is not owed, and a settlement marks exactly the debts it leaves. */
  lemma FlagWrites(t: Tables, op: Op, u: UserId)
    ensures Opens(t, op, u) ==> !Step(t, op).accounts[u].owed && Step(t, op).accounts[u].owedAt == None
    ensures SettlesFor(t, op, u) ==>
      var a, a' := t.accounts[u], Step(t, op).accounts[u];
      if a'.balance < 0 then a'.owed && a'.owedAt == Some(op.now) else a'.owed == a.owed && a'.owedAt == a.owedAt
  {
  }

  // ---------- Projects and relations ----------

  /** The last user named as the payer of p. */
  function LastPayer(t: Tables, ops: seq<Op>, p: ProjectId): UserId {
    if ops == [] then (if p in t.projects then t.projects[p].payer else "") else
      var before, op := Run(t, ops[..|ops| - 1]), ops[|ops| - 1];
      if (op.CreateProject? || op.ChangeBillingOwner?) && op.project == p && Succeeds(before, op) then op.user
      else LastPayer(t, ops[..|ops| - 1], p)
  }

  /** When p was created or last settled. */
  function LastTouched(t: Tables, ops: seq<Op>, p: ProjectId): int {
    if ops == [] then (if p in t.projects then t.projects[p].updatedAt else 0) else
      var before, op := Run(t, ops[..|ops| - 1]), ops[|ops| - 1];
      if (op.CreateProject? || op.UpdateAccount?) && op.project == p && Succeeds(before, op) then op.now
      else LastTouched(t, ops[..|ops| - 1], p)
  }

  lemma {:induction false} ProjectColumns(t: Tables, ops: seq<Op>, p: ProjectId)
    requires p in Run(t, ops).projects
    ensures Run(t, ops).projects[p].payer == LastPayer(t, ops, p)
    ensures Run(t, ops).projects[p].updatedAt == LastTouched(t, ops, p)
  {
    if ops == [] {
    } else {
      var front := ops[..|ops| - 1];
      if p in Run(t, front).projects {
        ProjectColumns(t, front, p);
      }
    }
  }

  /** When the relation of u to p was created, settled or renewed by an owner change. */
  function LastRelated(t: Tables, ops: seq<Op>, u: UserId, p: ProjectId): int {
    if ops == [] then (if (u, p) in t.relations then t.relations[(u, p)].updatedAt else 0) else
      var before, op := Run(t, ops[..|ops| - 1]), ops[|ops| - 1];
      if (op.CreateProject? || op.UpdateAccount? || op.ChangeBillingOwner?) && op.project == p && op.user == u
         && Succeeds(before, op)
      then op.now
      else LastRelated(t, ops[..|ops| - 1], u, p)
  }

  lemma {:induction false} RelationColumns(t: Tables, ops: seq<Op>, u: UserId, p: ProjectId)
    requires (u, p) in Run(t, ops).relations
    ensures Run(t, ops).relations[(u, p)].updatedAt == LastRelated(t, ops, u, p)
  {
    if ops == [] {
    } else {
      var front := ops[..|ops| - 1];
      if (u, p) in Run(t, front).relations {
        RelationColumns(t, front, u, p);
      }
    }
  }

  // ---------- Charges ----------

  /** The charges that went through, in order. */
  function ChargeCalls(t: Tables, ops: seq<Op>): seq<Op> {
    if ops == [] then [] else
      var before, op := Run(t, ops[..|ops| - 1]), ops[|ops| - 1];
      ChargeCalls(t, ops[..|ops| - 1]) + if op.ChargeAccount? && Succeeds(before, op) then [op] else []
  }

  /** The row of a charge: numbered on, dated as given or else now, and recorded now. */
  predicate IsRowOf(c: Charge, op: Op, id: nat) {
    && op.ChargeAccount? && c.id == id && c.user == op.user && c.value == op.value && c.kind == op.kind
    && c.createdAt == op.now
    && (op.chargeTime == None ==> c.chargeTime == op.now)
    && (op.chargeTime.Some? ==> c.chargeTime == op.chargeTime.value)
  }

  lemma {:induction false} ChargesAreCalls(t: Tables, ops: seq<Op>)
    ensures var charges, calls, n := Run(t, ops).charges, ChargeCalls(t, ops), |t.charges|;
      && |charges| == n + |calls| && charges[..n] == t.charges
      && forall i :: 0 <= i < |calls| ==> IsRowOf(charges[n + i], calls[i], n + i + 1)
  {
    if ops == [] {
    } else {
      ChargesAreCalls(t, ops[..|ops| - 1]);
    }
  }

  // ---------- What a call leaves alone, and how it fails ----------

  /** A call touches one account, one project but for a deletion, and the relations of its user. */
  lemma CallFrame(t: Tables, op: Op)
    ensures var t' := Step(t, op);
      && (forall u :: u != op.user ==> (u in t'.accounts <==> u in t.accounts))
      && (forall u :: u != op.user && u in t.accounts ==> t'.accounts[u] == t.accounts[u])
      && (forall k: (UserId, ProjectId) :: k.0 != op.user ==> (k in t'.relations <==> k in t.relations))
      && (forall k: (UserId, ProjectId) :: k.0 != op.user && k in t.relations ==> t'.relations[k] == t.relations[k])
      && (forall p :: p in t'.projects && p in t.projects ==>
            t'.projects[p] == t.projects[p] || (Names(op) && op.project == p))
      && t.charges <= t'.charges
  {
  }

  predicate Names(op: Op) {
    op.UpdateAccount? || op.CreateProject? || op.ChangeBillingOwner?
  }

  /** A deletion takes exactly the account, the projects it pays and its relations. */
  lemma DeletionExact(t: Tables, u: UserId)
    requires u in t.accounts
    ensures var t' := Step(t, DeleteAccount(u));
      && u !in t'.accounts && t'.charges == t.charges
      && (forall p :: p in t'.projects <==> p in t.projects && t.projects[p].payer != u)
      && (forall k: (UserId, ProjectId) :: k in t'.relations <==> k in t.relations && k.0 != u)
  {
  }

  /** Which call fails with which error. */
  lemma FailsIff(t: Tables, op: Op)
    ensures Apply(t, op) == Failure(DuplicateEntry) <==>
      || (op.CreateAccount? && op.user in t.accounts)
      || (op.CreateProject? && (op.project in t.projects || (op.user, op.project) in t.relations))
    ensures Apply(t, op) == Failure(AccountNotFound) <==>
      !op.CreateAccount? && !op.CreateProject? && op.user !in t.accounts
    ensures Apply(t, op) == Failure(ProjectNotFound) <==>
      (op.UpdateAccount? || op.ChangeBillingOwner?) && op.user in t.accounts && op.project !in t.projects
    ensures Apply(t, op) == Failure(RelationNotFound) <==>
      && op.UpdateAccount? && op.user in t.accounts && op.project in t.projects
      && (op.user, op.project) !in t.relations
  {
  }
}

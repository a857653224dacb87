/** The grace period of an account in debt: Worker.run in shadowfiend/processor/service/service.py. */
module Grace {
  import opened Wrappers
  import opened Tables
  import opened LedgerLaws

  const DAY := 86400
  const UNLIMITED_LEVEL := 9

  /** Whether the resources of a project are dropped, for the payer's account as read. */
  predicate DropsResources(a: Account, now: int, allowOweAction: bool) {
    if a.owed && a.owedAt.Some? then
      !(now - a.owedAt.value <= a.level * DAY || a.level == UNLIMITED_LEVEL || !allowOweAction)
    else
      false
  }

  /** Whether call i settles the account of u. */
  predicate SettledAt(t: Tables, ops: seq<Op>, u: UserId, i: nat)
    requires i < |ops|
  {
    ops[i].UpdateAccount? && ops[i].user == u && Succeeds(Run(t, ops[..i]), ops[i])
  }

  /** In debt, flagged, after the first i calls. */
  predicate InDebt(t: Tables, ops: seq<Op>, u: UserId, i: nat)
    requires i <= |ops|
  {
    var t' := Run(t, ops[..i]);
    u in t'.accounts && t'.accounts[u].owed && t'.accounts[u].balance < 0
  }

  /**
   Call j settled the account of u; in every later state the account is in
   debt, and no later call settled it.
   */
  predicate InDebtSince(t: Tables, ops: seq<Op>, u: UserId, j: nat) {
    && j < |ops|
    && SettledAt(t, ops, u, j)
    && (forall i :: j < i <= |ops| ==> InDebt(t, ops, u, i))
    && (forall i :: j < i < |ops| ==> !SettledAt(t, ops, u, i))
  }

  predicate NobodyOwed(t: Tables) {
    forall u :: u in t.accounts ==> !t.accounts[u].owed
  }

  lemma Prefix(t: Tables, ops: seq<Op>, u: UserId, i: nat)
    requires i < |ops|
    ensures InDebt(t, ops[..|ops| - 1], u, i) == InDebt(t, ops, u, i)
    ensures i < |ops| - 1 ==> SettledAt(t, ops[..|ops| - 1], u, i) == SettledAt(t, ops, u, i)
  {
    assert ops[..|ops| - 1][..i] == ops[..i];
  }

  lemma ExtendDebt(t: Tables, ops: seq<Op>, u: UserId, j: nat)
    requires ops != [] && InDebtSince(t, ops[..|ops| - 1], u, j)
    requires InDebt(t, ops, u, |ops|) && !SettledAt(t, ops, u, |ops| - 1)
    ensures InDebtSince(t, ops, u, j)
  {
    Prefix(t, ops, u, j);
    forall i | j < i < |ops|
      ensures InDebt(t, ops, u, i) && !SettledAt(t, ops, u, i)
    {
      Prefix(t, ops, u, i);
    }
  }

  /** A settlement that leaves the account in debt is where the debt counts from. */
  lemma SettledLast(t: Tables, ops: seq<Op>, u: UserId)
    requires NobodyOwed(t) && NonNegativeCosts(ops) && ops != []
    requires InDebt(t, ops, u, |ops|) && SettledAt(t, ops, u, |ops| - 1)
    ensures InDebtSince(t, ops, u, |ops| - 1)
    ensures u in Run(t, ops).accounts && Run(t, ops).accounts[u].owedAt == Some(ops[|ops| - 1].now)
  {
    assert ops[..|ops|] == ops;
  }

  /** Any other call leaves the time of a debt alone, and makes none. */
  lemma DebtIsOlder(t: Tables, op: Op, u: UserId)
    requires !(op.UpdateAccount? && op.user == u && Succeeds(t, op))
    requires u in Step(t, op).accounts && Step(t, op).accounts[u].owed
    ensures u in t.accounts && t.accounts[u].owed && t.accounts[u].owedAt == Step(t, op).accounts[u].owedAt
  {
  }

  /** Over whole runs, an account that is owed has been in debt and untouched by settlements since owedAt. */
  lemma {:induction false} OwedSince(t: Tables, ops: seq<Op>, u: UserId) returns (j: nat)
    requires NobodyOwed(t) && NonNegativeCosts(ops)
    requires u in Run(t, ops).accounts && Run(t, ops).accounts[u].owed
    ensures InDebtSince(t, ops, u, j)
    ensures Run(t, ops).accounts[u].owedAt == Some(ops[j].now)
  {
    var front := ops[..|ops| - 1];
    assert forall i :: 0 <= i < |front| ==> front[i] == ops[i];
    assert InDebt(t, ops, u, |ops|) by {
      OwedImpliesDebt(t, ops);
      assert ops[..|ops|] == ops;
    }
    if SettledAt(t, ops, u, |ops| - 1) {
      SettledLast(t, ops, u);
      j := |front|;
    } else {
      DebtIsOlder(Run(t, front), ops[|ops| - 1], u);
      j := OwedSince(t, front, u);
      ExtendDebt(t, ops, u, j);
    }
  }

  /**
   Resources are dropped only for a payer whose account has been in debt, in
   every state and with no settlement, since more than its level in days.
   */
  lemma DropOnlyAfterGrace(t: Tables, ops: seq<Op>, u: UserId, now: int, allowOweAction: bool) returns (j: nat)
    requires NobodyOwed(t) && NonNegativeCosts(ops)
    requires u in Run(t, ops).accounts && DropsResources(Run(t, ops).accounts[u], now, allowOweAction)
    ensures InDebtSince(t, ops, u, j)
    ensures now - ops[j].now > Run(t, ops).accounts[u].level * DAY
    ensures Run(t, ops).accounts[u].level != UNLIMITED_LEVEL && allowOweAction
  {
    j := OwedSince(t, ops, u);
  }

  /** An owed account always carries the time of its debt, so the test above is the code's test. */
  lemma OwedHasTime(t: Tables, ops: seq<Op>, u: UserId)
    requires NobodyOwed(t) && NonNegativeCosts(ops)
    requires u in Run(t, ops).accounts && Run(t, ops).accounts[u].owed
    ensures Run(t, ops).accounts[u].owedAt.Some?
  {
    var j := OwedSince(t, ops, u);
  }

  /** The settlement a debt counts from is one only. */
  lemma DebtSinceOnce(t: Tables, ops: seq<Op>, u: UserId, i: nat, j: nat)
    requires InDebtSince(t, ops, u, i) && InDebtSince(t, ops, u, j)
    ensures i == j
  {
  }

  /** In debt since call j, which was more than the account's level in days ago, and the account is not exempt. */
  predicate GraceOver(t: Tables, ops: seq<Op>, u: UserId, j: nat, now: int, allowOweAction: bool) {
    && InDebtSince(t, ops, u, j) && u in Run(t, ops).accounts
    && now - ops[j].now > Run(t, ops).accounts[u].level * 86400
    && Run(t, ops).accounts[u].level != 9 && allowOweAction
  }

  /**
   Resources are dropped if and only if the account has been in debt and unsettled
   for more than its level in days, its level is not 9 and the option is on.
   */
  lemma DropIff(t: Tables, ops: seq<Op>, u: UserId, now: int, allowOweAction: bool)
    requires NobodyOwed(t) && NonNegativeCosts(ops) && u in Run(t, ops).accounts
    ensures DropsResources(Run(t, ops).accounts[u], now, allowOweAction)
      <==> exists j :: 0 <= j < |ops| && GraceOver(t, ops, u, j, now, allowOweAction)
  {
    if DropsResources(Run(t, ops).accounts[u], now, allowOweAction) {
      var j := DropOnlyAfterGrace(t, ops, u, now, allowOweAction);
      assert GraceOver(t, ops, u, j, now, allowOweAction);
    } else if j :| 0 <= j < |ops| && GraceOver(t, ops, u, j, now, allowOweAction) {
      assert InDebt(t, ops, u, |ops|) && ops[..|ops|] == ops;
      var k := OwedSince(t, ops, u);
      DebtSinceOnce(t, ops, u, j, k);
      assert false;
    }
  }
}

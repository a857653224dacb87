/**
 The four tables of the billing database and the meaning of each database call
 as one atomic change: shadowfiend/db/sqlalchemy/models.py and api.py.

 Balances, consumptions and charges are whole numbers of units of 0.0001.
 Every call carries the clock readings it makes, so the meaning is a function.
 */
module Tables {
  import opened Wrappers
  import opened Money

  type UserId = string
  type ProjectId = string

  datatype Account = Account(
    balance: int,
    consumption: int,
    level: int,
    owed: bool,
    owedAt: Option<int>,
    updatedAt: Option<int>)

  datatype Project = Project(payer: UserId, consumption: int, updatedAt: int)

  datatype Relation = Relation(consumption: int, updatedAt: int)

  datatype Charge = Charge(id: nat, user: UserId, value: int, kind: string, chargeTime: int, createdAt: int)

  /** The unique keys of the migration are the keys of the maps. */
  datatype Tables = Tables(
    accounts: map<UserId, Account>,
    projects: map<ProjectId, Project>,
    relations: map<(UserId, ProjectId), Relation>,
    charges: seq<Charge>)

  datatype Error = AccountNotFound | ProjectNotFound | RelationNotFound | DuplicateEntry

  datatype Op =
    | CreateAccount(user: UserId, balance: int, consumption: int, level: int)
    | ChargeAccount(user: UserId, value: int, kind: string, chargeTime: Option<int>, now: int)
    | UpdateAccount(user: UserId, project: ProjectId, cost: real, now: int)
    | CreateProject(project: ProjectId, user: UserId, consumption: int, now: int)
    | ChangeBillingOwner(project: ProjectId, user: UserId, now: int)
    | ChangeAccountLevel(user: UserId, level: int)
    | DeleteAccount(user: UserId)

  const EMPTY := Tables(map[], map[], map[], [])

  /** The account row after a settlement of `amount` units. */
  function Settled(a: Account, amount: int, now: int): Account {
    var paid := a.(balance := a.balance - amount, consumption := amount, updatedAt := Some(now));
    if paid.balance < 0 then paid.(owed := true, owedAt := Some(now)) else paid
  }

  /** The account row after a charge of `value` units. */
  function Charged(a: Account, value: int): Account {
    var a' := a.(balance := a.balance + value);
    if a'.balance >= 0 then a'.(owed := false) else a'
  }

  function ChargeRow(charges: seq<Charge>, op: Op): Charge
    requires op.ChargeAccount?
  {
    Charge(|charges| + 1, op.user, op.value, op.kind,
           if op.chargeTime.Some? then op.chargeTime.value else op.now, op.now)
  }

  function Apply(t: Tables, op: Op): Result<Tables, Error> {
    match op
    case CreateAccount(u, balance, consumption, level) =>
      if u in t.accounts then Failure(DuplicateEntry) else
      Success(t.(accounts := t.accounts[u := Account(balance, consumption, level, false, None, None)]))
    case ChargeAccount(u, value, _, _, _) =>
      if u !in t.accounts then Failure(AccountNotFound) else
      Success(t.(accounts := t.accounts[u := Charged(t.accounts[u], value)],
                 charges := t.charges + [ChargeRow(t.charges, op)]))
    case UpdateAccount(u, p, cost, now) =>
      if u !in t.accounts then Failure(AccountNotFound)
      else if p !in t.projects then Failure(ProjectNotFound)
      else if (u, p) !in t.relations then Failure(RelationNotFound)
      else
        var q := Quantize(cost);
        var project, relation := t.projects[p], t.relations[(u, p)];
        Success(t.(accounts := t.accounts[u := Settled(t.accounts[u], q, now)],
                   projects := t.projects[p := project.(consumption := project.consumption + q, updatedAt := now)],
                   relations := t.relations[(u, p) := Relation(relation.consumption + q, now)]))
    case CreateProject(p, u, consumption, now) =>
      if p in t.projects || (u, p) in t.relations then Failure(DuplicateEntry) else
      Success(t.(projects := t.projects[p := Project(u, consumption, now)],
                 relations := t.relations[(u, p) := Relation(consumption, now)]))
    case ChangeBillingOwner(p, u, now) =>
      if u !in t.accounts then Failure(AccountNotFound)
      else if p !in t.projects then Failure(ProjectNotFound)
      else
        var spent := if (u, p) in t.relations then t.relations[(u, p)].consumption else 0;
        Success(t.(projects := t.projects[p := t.projects[p].(payer := u)],
                   relations := t.relations[(u, p) := Relation(spent, now)]))
    case ChangeAccountLevel(u, level) =>
      if u !in t.accounts then Failure(AccountNotFound) else
      Success(t.(accounts := t.accounts[u := t.accounts[u].(level := level)]))
    case DeleteAccount(u) =>
      if u !in t.accounts then Failure(AccountNotFound) else
      Success(t.(accounts := t.accounts - {u},
                 projects := map p | p in t.projects && t.projects[p].payer != u :: t.projects[p],
                 relations := map k | k in t.relations && k.0 != u :: t.relations[k]))
  }

  /** A failed call raises and its transaction is rolled back. */
  function Step(t: Tables, op: Op): Tables {
    match Apply(t, op)
    case Success(t') => t'
    case Failure(_) => t
  }

  predicate Succeeds(t: Tables, op: Op) {
    Apply(t, op).Success?
  }

  /** The tables after a sequence of calls. */
  function Run(t: Tables, ops: seq<Op>): Tables {
    if ops == [] then t else Step(Run(t, ops[..|ops| - 1]), ops[|ops| - 1])
  }

  lemma RunSnoc(t: Tables, ops: seq<Op>, op: Op)
    ensures Run(t, ops + [op]) == Step(Run(t, ops), op)
  {
  }

  lemma {:induction false} RunConcat(t: Tables, a: seq<Op>, b: seq<Op>)
    ensures Run(t, a + b) == Run(Run(t, a), b)
  {
    if b == [] {
      assert a + b == a;
    } else {
      var front := b[..|b| - 1];
      RunConcat(t, a, front);
      assert (a + b)[..|a + b| - 1] == a + front;
    }
  }
}

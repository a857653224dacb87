/**
 The billing database with rows updated in place: Connection in
 shadowfiend/db/sqlalchemy/api.py, one method a transaction.

 Every method is proved to have exactly the effect of its call in Tables,
 including that a transaction which fails half way leaves nothing behind.
 */
module Ledgers {
  import opened Wrappers
  import opened Money
  import opened Tables

  datatype Outcome = Done | Raised(error: Error)

  function Verdict(t: Tables, op: Op): Outcome {
    match Apply(t, op)
    case Success(_) => Done
    case Failure(error) => Raised(error)
  }

  class Ledger {
    var accounts: map<UserId, Account>
    var projects: map<ProjectId, Project>
    var relations: map<(UserId, ProjectId), Relation>
    var charges: seq<Charge>

    constructor ()
      ensures Snapshot() == EMPTY
    {
      accounts, projects, relations, charges := map[], map[], map[], [];
    }

    function Snapshot(): Tables
      reads this
    {
      Tables(accounts, projects, relations, charges)
    }

    method Rollback(saved: Tables)
      modifies this
      ensures Snapshot() == saved
    {
      accounts, projects, relations, charges := saved.accounts, saved.projects, saved.relations, saved.charges;
    }

    method CreateAccount(user: UserId, balance: int, consumption: int, level: int) returns (r: Outcome)
      modifies this
      ensures Snapshot() == Step(old(Snapshot()), Op.CreateAccount(user, balance, consumption, level))
      ensures r == Verdict(old(Snapshot()), Op.CreateAccount(user, balance, consumption, level))
    {
      if user in accounts {
        return Raised(DuplicateEntry);
      }
      accounts := accounts[user := Account(balance, consumption, level, false, None, None)];
      r := Done;
    }

    method ChargeAccount(user: UserId, value: int, kind: string, chargeTime: Option<int>, now: int) returns (r: Outcome)
      modifies this
      ensures Snapshot() == Step(old(Snapshot()), Op.ChargeAccount(user, value, kind, chargeTime, now))
      ensures r == Verdict(old(Snapshot()), Op.ChargeAccount(user, value, kind, chargeTime, now))
    {
      if user !in accounts {
        return Raised(AccountNotFound);
      }
      var account := accounts[user];
      account := account.(balance := account.balance + value);
      if account.balance >= 0 {
        account := account.(owed := false);
      }
      accounts := accounts[user := account];
      var time := match chargeTime case Some(given) => given case None => now;
      charges := charges + [Charge(|charges| + 1, user, value, kind, time, now)];
      r := Done;
    }

    /** Three rows are written one after the other; a missing row undoes the rows written before it. */
    method UpdateAccount(user: UserId, project: ProjectId, consumption: real, now: int) returns (r: Outcome)
      modifies this
      ensures Snapshot() == Step(old(Snapshot()), Op.UpdateAccount(user, project, consumption, now))
      ensures r == Verdict(old(Snapshot()), Op.UpdateAccount(user, project, consumption, now))
    {
      var saved := Snapshot();
      if user !in accounts {
        return Raised(AccountNotFound);
      }
      var balance := accounts[user].balance - Quantize(consumption);
      accounts := accounts[user := accounts[user].(balance := balance, consumption := Quantize(consumption),
                                                   updatedAt := Some(now))];
      if balance < 0 {
        accounts := accounts[user := accounts[user].(owed := true, owedAt := Some(now))];
      }
      if project !in projects {
        Rollback(saved);
        return Raised(ProjectNotFound);
      }
      var spent := projects[project].consumption + Quantize(consumption);
      projects := projects[project := projects[project].(consumption := spent, updatedAt := now)];
      if (user, project) !in relations {
        Rollback(saved);
        return Raised(RelationNotFound);
      }
      var share := relations[(user, project)].consumption + Quantize(consumption);
      relations := relations[(user, project) := relations[(user, project)].(consumption := share, updatedAt := now)];
      r := Done;
    }

    method CreateProject(project: ProjectId, user: UserId, consumption: int, now: int) returns (r: Outcome)
      modifies this
      ensures Snapshot() == Step(old(Snapshot()), Op.CreateProject(project, user, consumption, now))
      ensures r == Verdict(old(Snapshot()), Op.CreateProject(project, user, consumption, now))
    {
      var saved := Snapshot();
      if project in projects {
        return Raised(DuplicateEntry);
      }
      projects := projects[project := Project(user, consumption, now)];
      if (user, project) in relations {
        Rollback(saved);
        return Raised(DuplicateEntry);
      }
      relations := relations[(user, project) := Relation(consumption, now)];
      r := Done;
    }

    method ChangeBillingOwner(project: ProjectId, user: UserId, now: int) returns (r: Outcome)
      modifies this
      ensures Snapshot() == Step(old(Snapshot()), Op.ChangeBillingOwner(project, user, now))
      ensures r == Verdict(old(Snapshot()), Op.ChangeBillingOwner(project, user, now))
    {
      if user !in accounts {
        return Raised(AccountNotFound);
      }
      if project !in projects {
        return Raised(ProjectNotFound);
      }
      projects := projects[project := projects[project].(payer := user)];
      if (user, project) in relations {
        relations := relations[(user, project) := relations[(user, project)].(updatedAt := now)];
      } else {
        relations := relations[(user, project) := Relation(0, now)];
      }
      r := Done;
    }

    method ChangeAccountLevel(user: UserId, level: int) returns (r: Outcome)
      modifies this
      ensures Snapshot() == Step(old(Snapshot()), Op.ChangeAccountLevel(user, level))
      ensures r == Verdict(old(Snapshot()), Op.ChangeAccountLevel(user, level))
    {
      if user !in accounts {
        return Raised(AccountNotFound);
      }
      accounts := accounts[user := accounts[user].(level := level)];
      r := Done;
    }

    method DeleteAccount(user: UserId) returns (r: Outcome)
      modifies this
      ensures Snapshot() == Step(old(Snapshot()), Op.DeleteAccount(user))
      ensures r == Verdict(old(Snapshot()), Op.DeleteAccount(user))
    {
      if user !in accounts {
        return Raised(AccountNotFound);
      }
      accounts := accounts - {user};
      var related := set p | p in projects && projects[p].payer == user;
      projects := projects - related;
      var links := set k | k in relations && k.0 == user;
      relations := relations - links;
      r := Done;
    }
  }
}

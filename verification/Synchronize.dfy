/** Bringing the ledger in line with keystone: synchronize_database in shadowfiend/cmd/db_manage.py. */
module Synchronize {
  import opened Wrappers
  import opened Collections
  import opened Tables
  import opened Ledgers
  import opened LedgerLaws

  const BONUS := 100000
  const LEVEL := 4

  /** A new account before and after its bonus. */
  const BARE := Account(0, 0, LEVEL, false, None, None)
  const WITH_BONUS := Account(BONUS, 0, LEVEL, false, None, None)

  predicate NoDuplicates(ids: seq<string>) {
    forall i, j :: 0 <= i < j < |ids| ==> ids[i] != ids[j]
  }

  /** One project for the admin to pay for each keystone project the ledger lacks. */
  function ProjectCalls(known: set<ProjectId>, ids: seq<ProjectId>, admin: UserId, now: int): seq<Op> {
    if ids == [] then [] else
      ProjectCalls(known, ids[..|ids| - 1], admin, now)
      + if ids[|ids| - 1] in known then [] else [CreateProject(ids[|ids| - 1], admin, 0, now)]
  }

  /** One account with a bonus for each keystone user the ledger lacks. */
  function AccountCalls(known: set<UserId>, ids: seq<UserId>, now: int): seq<Op> {
    if ids == [] then [] else
      AccountCalls(known, ids[..|ids| - 1], now)
      + if ids[|ids| - 1] in known then [] else
          [CreateAccount(ids[|ids| - 1], 0, 0, LEVEL), ChargeAccount(ids[|ids| - 1], BONUS, "bonus", None, now)]
  }

  function Calls(t: Tables, projects: seq<ProjectId>, users: seq<UserId>, admin: UserId, now: int): seq<Op> {
    ProjectCalls(t.projects.Keys, projects, admin, now) + AccountCalls(t.accounts.Keys, users, now)
  }

  /** No project that is missing still has a relation to the admin. */
  predicate NoLeftovers(t: Tables, projects: seq<ProjectId>, admin: UserId) {
    forall p :: p in projects && p !in t.projects ==> (admin, p) !in t.relations
  }

  /** The ledger after the first n keystone projects have been gone through. */
  ghost predicate ProjectsDone(t: Tables, t': Tables, ids: seq<ProjectId>, admin: UserId, now: int) {
    && t'.accounts == t.accounts && t'.charges == t.charges
    && (forall p :: p in t'.projects <==> p in t.projects || p in ids)
    && (forall p :: p in t.projects ==> t'.projects[p] == t.projects[p])
    && (forall p :: p in t'.projects && p !in t.projects ==> t'.projects[p] == Project(admin, 0, now))
    && (forall k :: k in t'.relations <==> k in t.relations || (k.0 == admin && k.1 in ids && k.1 !in t.projects))
    && (forall k :: k in t.relations ==> t'.relations[k] == t.relations[k])
    && (forall k :: k in t'.relations && k !in t.relations ==> t'.relations[k] == Relation(0, now))
  }

  /** The bonus charges of the users that are missing, numbered from base. */
  function Bonuses(known: set<UserId>, ids: seq<UserId>, base: nat, now: int): seq<Charge> {
    if ids == [] then [] else
      var before, u := Bonuses(known, ids[..|ids| - 1], base, now), ids[|ids| - 1];
      before + if u in known then [] else [Charge(base + |before| + 1, u, BONUS, "bonus", now, now)]
  }

  /** The ledger after the first n keystone users have been gone through. */
  ghost predicate AccountsDone(t: Tables, t': Tables, ids: seq<UserId>, now: int) {
    && t'.projects == t.projects && t'.relations == t.relations
    && t'.charges == t.charges + Bonuses(t.accounts.Keys, ids, |t.charges|, now)
    && (forall u :: u in t'.accounts <==> u in t.accounts || u in ids)
    && (forall u :: u in t.accounts ==> t'.accounts[u] == t.accounts[u])
    && (forall u :: u in t'.accounts && u !in t.accounts ==>
          t'.accounts[u] == WITH_BONUS)
  }

  lemma ProjectStep(t: Tables, t': Tables, front: seq<ProjectId>, p: ProjectId, admin: UserId, now: int)
    requires ProjectsDone(t, t', front, admin, now)
    requires p !in front && (p !in t.projects ==> (admin, p) !in t.relations)
    ensures ProjectsDone(t, if p in t.projects then t' else Step(t', CreateProject(p, admin, 0, now)),
                         front + [p], admin, now)
  {
    assert forall r :: r in front + [p] <==> r in front || r == p;
    assert p !in t.projects ==> p !in t'.projects && (admin, p) !in t'.relations;
  }

  lemma {:induction false} ProjectsAreCreated(t: Tables, ids: seq<ProjectId>, admin: UserId, now: int)
    requires NoDuplicates(ids) && NoLeftovers(t, ids, admin)
    ensures ProjectsDone(t, Run(t, ProjectCalls(t.projects.Keys, ids, admin, now)), ids, admin, now)
  {
    if ids == [] {
    } else {
      var front, p := ids[..|ids| - 1], ids[|ids| - 1];
      assert ids == front + [p];
      ProjectsAreCreated(t, front, admin, now);
      var calls := ProjectCalls(t.projects.Keys, front, admin, now);
      ProjectStep(t, Run(t, calls), front, p, admin, now);
      RunSnoc(t, calls, CreateProject(p, admin, 0, now));
      assert calls + [] == calls;
    }
  }

  /** Creating a missing account and charging the bonus to it. */
  lemma OpenWithBonus(t: Tables, u: UserId, now: int)
    requires u !in t.accounts
    ensures Step(Step(t, CreateAccount(u, 0, 0, LEVEL)), ChargeAccount(u, BONUS, "bonus", None, now))
      == t.(accounts := t.accounts[u := WITH_BONUS],
            charges := t.charges + [Charge(|t.charges| + 1, u, BONUS, "bonus", now, now)])
  {
  }

  lemma BonusSnoc(known: set<UserId>, front: seq<UserId>, u: UserId, charges: seq<Charge>, now: int)
    ensures var before := charges + Bonuses(known, front, |charges|, now);
      charges + Bonuses(known, front + [u], |charges|, now)
        == if u in known then before else before + [Charge(|before| + 1, u, BONUS, "bonus", now, now)]
  {
    assert (front + [u])[..|front|] == front;
  }

  lemma KnownAccount(t: Tables, t': Tables, front: seq<UserId>, u: UserId, now: int)
    requires AccountsDone(t, t', front, now) && u in t.accounts
    ensures AccountsDone(t, t', front + [u], now)
  {
  }

  lemma MissingAccount(t: Tables, t': Tables, front: seq<UserId>, u: UserId, now: int)
    requires AccountsDone(t, t', front, now) && u !in front && u !in t.accounts
    ensures u !in t'.accounts
    ensures AccountsDone(t,
      t'.(accounts := t'.accounts[u := WITH_BONUS],
          charges := t'.charges + [Charge(|t'.charges| + 1, u, BONUS, "bonus", now, now)]), front + [u], now)
  {
    assert forall v :: v in front + [u] <==> v in front || v == u;
    BonusSnoc(t.accounts.Keys, front, u, t.charges, now);
  }

  /** One more keystone user gone through. */
  lemma NextAccount(t: Tables, calls: seq<Op>, front: seq<UserId>, u: UserId, now: int)
    requires AccountsDone(t, Run(t, calls), front, now) && u !in front && u !in t.accounts
    ensures AccountsDone(
      t, Run(t, calls + [CreateAccount(u, 0, 0, LEVEL), ChargeAccount(u, BONUS, "bonus", None, now)]),
      front + [u], now)
  {
    var open, bonus := CreateAccount(u, 0, 0, LEVEL), ChargeAccount(u, BONUS, "bonus", None, now);
    MissingAccount(t, Run(t, calls), front, u, now);
    OpenWithBonus(Run(t, calls), u, now);
    assert calls + [open, bonus] == calls + [open] + [bonus];
    RunSnoc(t, calls, open);
    RunSnoc(t, calls + [open], bonus);
  }

  lemma {:induction false} AccountsAreCreated(t: Tables, ids: seq<UserId>, now: int)
    requires NoDuplicates(ids)
    ensures AccountsDone(t, Run(t, AccountCalls(t.accounts.Keys, ids, now)), ids, now)
  {
    if ids == [] {
    } else {
      var front, u := ids[..|ids| - 1], ids[|ids| - 1];
      assert ids == front + [u];
      AccountsAreCreated(t, front, now);
      var calls := AccountCalls(t.accounts.Keys, front, now);
      if u in t.accounts {
        KnownAccount(t, Run(t, calls), front, u, now);
        assert calls + [] == calls;
      } else {
        NextAccount(t, calls, front, u, now);
      }
    }
  }

  // ---------- What a whole run does ----------

  lemma {:induction false} AllSucceedConcat(t: Tables, a: seq<Op>, b: seq<Op>)
    ensures AllSucceed(t, a + b) <==> AllSucceed(t, a) && AllSucceed(Run(t, a), b)
  {
    if b == [] {
      assert a + b == a;
    } else {
      var front := b[..|b| - 1];
      AllSucceedConcat(t, a, front);
      RunConcat(t, a, front);
      assert (a + b)[..|a + b| - 1] == a + front;
    }
  }

  lemma NoLeftoversSnoc(t: Tables, front: seq<ProjectId>, p: ProjectId, admin: UserId)
    ensures NoLeftovers(t, front + [p], admin)
      <==> NoLeftovers(t, front, admin) && (p !in t.projects ==> (admin, p) !in t.relations)
  {
  }

  /** Creating the missing projects fails exactly when one of them has left a relation to the admin behind. */
  lemma {:induction false} ProjectCallsSucceedIff(t: Tables, ids: seq<ProjectId>, admin: UserId, now: int)
    requires NoDuplicates(ids)
    ensures AllSucceed(t, ProjectCalls(t.projects.Keys, ids, admin, now)) <==> NoLeftovers(t, ids, admin)
  {
    if ids == [] {
    } else {
      var front, p := ids[..|ids| - 1], ids[|ids| - 1];
      assert ids == front + [p];
      ProjectCallsSucceedIff(t, front, admin, now);
      NoLeftoversSnoc(t, front, p, admin);
      var calls := ProjectCalls(t.projects.Keys, front, admin, now);
      AllSucceedSnoc(t, calls, CreateProject(p, admin, 0, now));
      assert calls + [] == calls;
      if NoLeftovers(t, front, admin) {
        ProjectsAreCreated(t, front, admin, now);
        if p !in t.projects {
          NextProject(t, Run(t, calls), front, p, admin, now);
        }
      }
    }
  }

  lemma NextProject(t: Tables, t': Tables, front: seq<ProjectId>, p: ProjectId, admin: UserId, now: int)
    requires ProjectsDone(t, t', front, admin, now) && p !in front && p !in t.projects
    ensures Succeeds(t', CreateProject(p, admin, 0, now)) <==> (admin, p) !in t.relations
  {
  }

  lemma {:induction false} AccountCallsSucceed(t: Tables, ids: seq<UserId>, now: int)
    requires NoDuplicates(ids)
    ensures AllSucceed(t, AccountCalls(t.accounts.Keys, ids, now))
  {
    if ids == [] {
    } else {
      var front, u := ids[..|ids| - 1], ids[|ids| - 1];
      assert ids == front + [u];
      AccountCallsSucceed(t, front, now);
      var calls := AccountCalls(t.accounts.Keys, front, now);
      if u in t.accounts {
        assert calls + [] == calls;
      } else {
        AccountsAreCreated(t, front, now);
        OpeningSucceeds(t, calls, u, now);
      }
    }
  }

  lemma BothSucceed(t: Tables, u: UserId, now: int)
    requires u !in t.accounts
    ensures var open := CreateAccount(u, 0, 0, LEVEL);
      Succeeds(t, open) && Succeeds(Step(t, open), ChargeAccount(u, BONUS, "bonus", None, now))
  {
  }

  lemma OpeningSucceeds(t: Tables, calls: seq<Op>, u: UserId, now: int)
    requires AllSucceed(t, calls) && u !in Run(t, calls).accounts
    ensures AllSucceed(t, calls + [CreateAccount(u, 0, 0, LEVEL), ChargeAccount(u, BONUS, "bonus", None, now)])
  {
    var open, bonus := CreateAccount(u, 0, 0, LEVEL), ChargeAccount(u, BONUS, "bonus", None, now);
    assert calls + [open, bonus] == calls + [open] + [bonus];
    BothSucceed(Run(t, calls), u, now);
    RunSnoc(t, calls, open);
    AllSucceedSnoc(t, calls, open);
    AllSucceedSnoc(t, calls + [open], bonus);
  }

  /** A run goes through exactly when no missing project has left a relation to the admin behind. */
  lemma SynchronizesIff(t: Tables, projects: seq<ProjectId>, users: seq<UserId>, admin: UserId, now: int)
    requires NoDuplicates(projects) && NoDuplicates(users)
    ensures AllSucceed(t, Calls(t, projects, users, admin, now)) <==> NoLeftovers(t, projects, admin)
  {
    var a, b := ProjectCalls(t.projects.Keys, projects, admin, now), AccountCalls(t.accounts.Keys, users, now);
    ProjectCallsSucceedIff(t, projects, admin, now);
    AllSucceedConcat(t, a, b);
    if NoLeftovers(t, projects, admin) {
      ProjectsAreCreated(t, projects, admin, now);
      assert Run(t, a).accounts.Keys == t.accounts.Keys;
      AccountCallsSucceed(Run(t, a), users, now);
    }
  }

  /** Such a relation stays when the account of a later payer is deleted together with its projects. */
  lemma LeftoverAfterDeletion(t: Tables, admin: UserId, user: UserId, p: ProjectId, now: int)
    requires admin != user && user in t.accounts
    requires p in t.projects && t.projects[p].payer == admin && (admin, p) in t.relations
    ensures !NoLeftovers(Run(t, [ChangeBillingOwner(p, user, now), DeleteAccount(user)]), [p], admin)
  {
    var o1, o2 := ChangeBillingOwner(p, user, now), DeleteAccount(user);
    var t1 := Step(t, o1);
    assert user in t1.accounts && t1.projects[p].payer == user && (admin, p) in t1.relations;
    assert [] + [o1] == [o1] && [o1] + [o2] == [o1, o2];
    RunSnoc(t, [], o1);
    RunSnoc(t, [o1], o2);
    assert p in [p];
  }

  /** The tables with exactly the missing rows added. */
  ghost predicate Synchronized(t: Tables, t': Tables, projects: seq<ProjectId>, users: seq<UserId>, admin: UserId,
                               now: int)
  {
    exists mid :: ProjectsDone(t, mid, projects, admin, now) && AccountsDone(mid, t', users, now)
  }

  /** A run adds the missing rows and nothing else, and a second run makes no call. */
  lemma SynchronizeOnceIsEnough(t: Tables, projects: seq<ProjectId>, users: seq<UserId>, admin: UserId, now: int,
                                later: int)
    requires NoDuplicates(projects) && NoDuplicates(users) && NoLeftovers(t, projects, admin)
    ensures var t' := Run(t, Calls(t, projects, users, admin, now));
      Synchronized(t, t', projects, users, admin, now) && Calls(t', projects, users, admin, later) == []
  {
    var a, b := ProjectCalls(t.projects.Keys, projects, admin, now), AccountCalls(t.accounts.Keys, users, now);
    var mid := Run(t, a);
    ProjectsAreCreated(t, projects, admin, now);
    RunConcat(t, a, b);
    assert mid.accounts.Keys == t.accounts.Keys;
    AccountsAreCreated(mid, users, now);
    var t' := Run(t, a + b);
    assert ProjectsDone(t, mid, projects, admin, now) && AccountsDone(mid, t', users, now);
    NothingMissing(t'.projects.Keys, t'.accounts.Keys, projects, users, admin, later);
  }

  lemma {:induction false} NothingMissing(ps: set<ProjectId>, us: set<UserId>, projects: seq<ProjectId>,
                                          users: seq<UserId>, admin: UserId, now: int)
    requires forall p :: p in projects ==> p in ps
    requires forall u :: u in users ==> u in us
    ensures ProjectCalls(ps, projects, admin, now) == [] && AccountCalls(us, users, now) == []
    decreases |projects| + |users|
  {
    if projects == [] && users == [] {
    } else if projects != [] {
      NothingMissing(ps, us, projects[..|projects| - 1], users, admin, now);
    } else {
      NothingMissing(ps, us, projects, users[..|users| - 1], admin, now);
    }
  }

  /** Integrity is kept exactly when the admin ends up with an account or had nothing to take over. */
  lemma SynchronizeKeepsIntegrityIff(t: Tables, t': Tables, projects: seq<ProjectId>, users: seq<UserId>,
                                     admin: UserId, now: int)
    requires Integrity(t) && Synchronized(t, t', projects, users, admin, now)
    ensures Integrity(t') <==> admin in t.accounts || admin in users || forall p :: p in projects ==> p in t.projects
  {
    var mid :| ProjectsDone(t, mid, projects, admin, now) && AccountsDone(mid, t', users, now);
    assert admin in t'.accounts <==> admin in t.accounts || admin in users;
    if p :| p in projects && p !in t.projects {
      assert t'.projects[p].payer == admin && (admin, p) in t'.relations;
    }
  }

  // ---------- A run that dies half way ----------

  /** The call before the death opened the account of u and its bonus was still to come. */
  predicate DiedBeforeBonus(calls: seq<Op>, k: nat, u: UserId)
    requires k <= |calls|
  {
    k > 0 && calls[k - 1] == CreateAccount(u, 0, 0, LEVEL)
  }

  /** Some calls have been made: those of the first i users, and perhaps the opening of the next one's account. */
  lemma {:induction false} SplitAccountCalls(known: set<UserId>, users: seq<UserId>, now: int, k: nat)
    returns (i: nat)
    requires k <= |AccountCalls(known, users, now)|
    ensures i <= |users|
    ensures var made := AccountCalls(known, users, now)[..k];
      || made == AccountCalls(known, users[..i], now)
      || (i < |users| && users[i] !in known
          && made == AccountCalls(known, users[..i], now) + [CreateAccount(users[i], 0, 0, LEVEL)])
  {
    var all := AccountCalls(known, users, now);
    if k == |all| {
      i := |users|;
      assert users[..i] == users && all[..k] == all;
    } else {
      var front, last := users[..|users| - 1], users[|users| - 1];
      var before := AccountCalls(known, front, now);
      if k <= |before| {
        i := SplitAccountCalls(known, front, now, k);
        assert all[..k] == before[..k] && users[..i] == front[..i];
      } else {
        i := |front|;
        assert all[..k] == before + [CreateAccount(last, 0, 0, LEVEL)];
      }
    }
  }

  lemma {:induction false} EndsInBonus(known: set<UserId>, users: seq<UserId>, now: int)
    ensures var calls := AccountCalls(known, users, now); calls != [] ==> calls[|calls| - 1].ChargeAccount?
  {
    if users == [] {
    } else {
      EndsInBonus(known, users[..|users| - 1], now);
    }
  }

  /** The accounts of a run that has died: bare if the account was the last call, with the bonus otherwise. */
  predicate AsOpened(t: Tables, dead: Tables, bare: bool, v: UserId) {
    && dead.projects == t.projects && dead.relations == t.relations
    && (if bare then v in dead.accounts && dead.accounts[v] == BARE
        else v in dead.accounts ==> dead.accounts[v] == WITH_BONUS)
  }

  lemma DeadBetweenUsers(t: Tables, users: seq<UserId>, now: int, v: UserId)
    requires NoDuplicates(users) && v !in t.accounts
    ensures AsOpened(t, Run(t, AccountCalls(t.accounts.Keys, users, now)), false, v)
  {
    AccountsAreCreated(t, users, now);
  }

  lemma DeadBeforeBonus(t: Tables, users: seq<UserId>, u: UserId, now: int, v: UserId)
    requires NoDuplicates(users) && v !in t.accounts && u !in t.accounts && u !in users
    ensures AsOpened(t, Run(t, AccountCalls(t.accounts.Keys, users, now) + [CreateAccount(u, 0, 0, LEVEL)]), v == u, v)
  {
    var before := AccountCalls(t.accounts.Keys, users, now);
    AccountsAreCreated(t, users, now);
    RunSnoc(t, before, CreateAccount(u, 0, 0, LEVEL));
    OpensBare(Run(t, before), u);
  }

  lemma OpensBare(t: Tables, u: UserId)
    requires u !in t.accounts
    ensures Step(t, CreateAccount(u, 0, 0, LEVEL)) == t.(accounts := t.accounts[u := BARE])
  {
  }

  /** The ledger when the account phase dies after k calls. */
  lemma AccountsWhenDead(t: Tables, users: seq<UserId>, now: int, k: nat, v: UserId)
    requires NoDuplicates(users) && k <= |AccountCalls(t.accounts.Keys, users, now)| && v !in t.accounts
    ensures var calls := AccountCalls(t.accounts.Keys, users, now);
      AsOpened(t, Run(t, calls[..k]), DiedBeforeBonus(calls, k, v), v)
  {
    var known, calls := t.accounts.Keys, AccountCalls(t.accounts.Keys, users, now);
    var i := SplitAccountCalls(known, users, now, k);
    var before := AccountCalls(known, users[..i], now);
    if calls[..k] == before {
      DeadBetweenUsers(t, users[..i], now, v);
      EndsInBonus(known, users[..i], now);
      assert k > 0 ==> calls[k - 1] == before[k - 1];
    } else {
      DeadBeforeBonus(t, users[..i], users[i], now, v);
      LastOf(calls, before, CreateAccount(users[i], 0, 0, LEVEL), k);
    }
  }

  lemma LastOf(calls: seq<Op>, before: seq<Op>, op: Op, k: nat)
    requires k <= |calls| && calls[..k] == before + [op]
    ensures k > 0 && calls[k - 1] == op
  {
    assert calls[..k][k - 1] == op;
  }

  /** A second run passes over every account it finds. */
  lemma AccountsAgain(t: Tables, users: seq<UserId>, now: int, later: int, k: nat, v: UserId)
    requires NoDuplicates(users) && k <= |AccountCalls(t.accounts.Keys, users, now)|
    requires v in users && v !in t.accounts
    ensures var calls := AccountCalls(t.accounts.Keys, users, now);
      var dead := Run(t, calls[..k]);
      var again := Run(dead, AccountCalls(dead.accounts.Keys, users, later));
      v in again.accounts && again.accounts[v] == if DiedBeforeBonus(calls, k, v) then BARE else WITH_BONUS
  {
    var dead := Run(t, AccountCalls(t.accounts.Keys, users, now)[..k]);
    AccountsWhenDead(t, users, now, k, v);
    AccountsAreCreated(dead, users, later);
  }

  /** Some calls of the project phase are those of the first i projects. */
  lemma {:induction false} SplitProjectCalls(known: set<ProjectId>, projects: seq<ProjectId>, admin: UserId, now: int,
                                             k: nat)
    returns (i: nat)
    requires k <= |ProjectCalls(known, projects, admin, now)|
    ensures i <= |projects|
    ensures ProjectCalls(known, projects, admin, now)[..k] == ProjectCalls(known, projects[..i], admin, now)
  {
    var all := ProjectCalls(known, projects, admin, now);
    if k == |all| {
      i := |projects|;
      assert projects[..i] == projects && all[..k] == all;
    } else {
      var front := projects[..|projects| - 1];
      i := SplitProjectCalls(known, front, admin, now, k);
      assert all[..k] == ProjectCalls(known, front, admin, now)[..k] && projects[..i] == front[..i];
    }
  }

  /** A run that dies among the projects leaves the accounts alone and nothing in the way of the next run. */
  lemma ProjectsWhenDead(t: Tables, projects: seq<ProjectId>, admin: UserId, now: int, k: nat)
    requires NoDuplicates(projects) && NoLeftovers(t, projects, admin)
    requires k <= |ProjectCalls(t.projects.Keys, projects, admin, now)|
    ensures var dead := Run(t, ProjectCalls(t.projects.Keys, projects, admin, now)[..k]);
      dead.accounts == t.accounts && NoLeftovers(dead, projects, admin)
  {
    var i := SplitProjectCalls(t.projects.Keys, projects, admin, now, k);
    ProjectsAreCreated(t, projects[..i], admin, now);
  }

  lemma {:induction false} NoAccountCalls(known: set<ProjectId>, projects: seq<ProjectId>, admin: UserId, now: int)
    ensures forall i :: 0 <= i < |ProjectCalls(known, projects, admin, now)| ==>
      ProjectCalls(known, projects, admin, now)[i].CreateProject?
  {
    if projects == [] {
    } else {
      NoAccountCalls(known, projects[..|projects| - 1], admin, now);
    }
  }

  /** An undisturbed run keeps the accounts it finds and gives the bonus with those it opens. */
  lemma SecondRun(t: Tables, projects: seq<ProjectId>, users: seq<UserId>, admin: UserId, now: int, v: UserId)
    requires NoDuplicates(projects) && NoDuplicates(users) && NoLeftovers(t, projects, admin) && v in users
    ensures AllSucceed(t, Calls(t, projects, users, admin, now))
    ensures var t' := Run(t, Calls(t, projects, users, admin, now));
      && v in t'.accounts && t'.accounts[v] == (if v in t.accounts then t.accounts[v] else WITH_BONUS)
      && Calls(t', projects, users, admin, now) == []
  {
    SynchronizesIff(t, projects, users, admin, now);
    SynchronizeOnceIsEnough(t, projects, users, admin, now, now);
    var t' := Run(t, Calls(t, projects, users, admin, now));
    var mid :| ProjectsDone(t, mid, projects, admin, now) && AccountsDone(mid, t', users, now);
  }

  lemma DeadAmongProjects(t: Tables, projects: seq<ProjectId>, users: seq<UserId>, admin: UserId, now: int,
                          k: nat, v: UserId)
    requires NoDuplicates(projects) && NoLeftovers(t, projects, admin)
    requires k <= |ProjectCalls(t.projects.Keys, projects, admin, now)| && v !in t.accounts
    ensures var calls := Calls(t, projects, users, admin, now); var dead := Run(t, calls[..k]);
      NoLeftovers(dead, projects, admin) && v !in dead.accounts && !DiedBeforeBonus(calls, k, v)
  {
    var a, b := ProjectCalls(t.projects.Keys, projects, admin, now), AccountCalls(t.accounts.Keys, users, now);
    TakeConcat(a, b, k);
    ProjectsWhenDead(t, projects, admin, now, k);
    NoAccountCalls(t.projects.Keys, projects, admin, now);
  }

  lemma NothingInTheWay(t: Tables, mid: Tables, dead: Tables, projects: seq<ProjectId>, admin: UserId, now: int)
    requires ProjectsDone(t, mid, projects, admin, now) && dead.projects == mid.projects
    ensures NoLeftovers(dead, projects, admin)
  {
  }

  /** Dying in the second part of some calls. */
  lemma DiedLater(t: Tables, a: seq<Op>, b: seq<Op>, k: nat, v: UserId)
    requires |a| < k <= |a + b|
    ensures Run(t, (a + b)[..k]) == Run(Run(t, a), b[..k - |a|])
    ensures DiedBeforeBonus(a + b, k, v) == DiedBeforeBonus(b, k - |a|, v)
  {
    TakeConcat(a, b, k);
    RunConcat(t, a, b[..k - |a|]);
  }

  lemma DeadAmongAccounts(t: Tables, projects: seq<ProjectId>, users: seq<UserId>, admin: UserId, now: int,
                          k: nat, v: UserId)
    requires NoDuplicates(projects) && NoDuplicates(users) && NoLeftovers(t, projects, admin) && v !in t.accounts
    requires |ProjectCalls(t.projects.Keys, projects, admin, now)| < k <= |Calls(t, projects, users, admin, now)|
    ensures var calls := Calls(t, projects, users, admin, now); var dead := Run(t, calls[..k]);
      && NoLeftovers(dead, projects, admin)
      && (if DiedBeforeBonus(calls, k, v) then v in dead.accounts && dead.accounts[v] == BARE
          else v in dead.accounts ==> dead.accounts[v] == WITH_BONUS)
  {
    var a, b := ProjectCalls(t.projects.Keys, projects, admin, now), AccountCalls(t.accounts.Keys, users, now);
    var mid := Run(t, a);
    DiedLater(t, a, b, k, v);
    ProjectsAreCreated(t, projects, admin, now);
    assert mid.accounts == t.accounts;
    AccountsWhenDead(mid, users, now, k - |a|, v);
    NothingInTheWay(t, mid, Run(mid, b[..k - |a|]), projects, admin, now);
  }

  /**
   A run that dies after k of its calls, and a second one that does not: the
   second goes through, and of the new users exactly the one whose account was
   opened by the last call of the first is without the bonus, and stays so, since
   a third run makes no call.
   */
  lemma BonusLostIff(t: Tables, projects: seq<ProjectId>, users: seq<UserId>, admin: UserId, now: int, later: int,
                     k: nat, v: UserId)
    requires NoDuplicates(projects) && NoDuplicates(users) && NoLeftovers(t, projects, admin)
    requires k <= |Calls(t, projects, users, admin, now)| && v in users && v !in t.accounts
    ensures var calls := Calls(t, projects, users, admin, now);
      var dead := Run(t, calls[..k]);
      var again := Run(dead, Calls(dead, projects, users, admin, later));
      && AllSucceed(dead, Calls(dead, projects, users, admin, later))
      && v in again.accounts
      && again.accounts[v] == (if DiedBeforeBonus(calls, k, v) then BARE else WITH_BONUS)
      && again.accounts[v].balance == (if DiedBeforeBonus(calls, k, v) then 0 else 100000)
      && again.accounts[v].level == 4 && !again.accounts[v].owed
      && Calls(again, projects, users, admin, later) == []
  {
    var calls := Calls(t, projects, users, admin, now);
    if k <= |ProjectCalls(t.projects.Keys, projects, admin, now)| {
      DeadAmongProjects(t, projects, users, admin, now, k, v);
    } else {
      DeadAmongAccounts(t, projects, users, admin, now, k, v);
    }
    SecondRun(Run(t, calls[..k]), projects, users, admin, later, v);
  }

  // ---------- The loops ----------

  /** How the command ends: by itself, at a call that fails, or by dying between two calls. */
  datatype Exit = Completed | Failed | Died

  lemma {:induction false} ProjectCallsPrefix(known: set<ProjectId>, projects: seq<ProjectId>, i: nat, admin: UserId,
                                              now: int)
    requires i <= |projects|
    ensures ProjectCalls(known, projects[..i], admin, now) <= ProjectCalls(known, projects, admin, now)
    decreases |projects|
  {
    if i == |projects| {
      assert projects[..i] == projects;
    } else {
      var front := projects[..|projects| - 1];
      assert front[..i] == projects[..i];
      ProjectCallsPrefix(known, front, i, admin, now);
    }
  }

  /** The next call of the first loop. */
  lemma NextProjectCall(known: set<ProjectId>, projects: seq<ProjectId>, i: nat, admin: UserId, now: int)
    requires i < |projects| && projects[i] !in known
    ensures var all, calls := ProjectCalls(known, projects, admin, now), ProjectCalls(known, projects[..i], admin, now);
      |calls| < |all| && all[..|calls|] == calls
  {
    ProjectCallsSnoc(known, projects, i, admin, now);
    ProjectCallsPrefix(known, projects, i + 1, admin, now);
  }

  lemma {:induction false} AccountCallsPrefix(known: set<UserId>, users: seq<UserId>, i: nat, now: int)
    requires i <= |users|
    ensures AccountCalls(known, users[..i], now) <= AccountCalls(known, users, now)
    decreases |users|
  {
    if i == |users| {
      assert users[..i] == users;
    } else {
      var front := users[..|users| - 1];
      assert front[..i] == users[..i];
      AccountCallsPrefix(known, front, i, now);
    }
  }

  /** The creation of project `stop` fails, after all missing projects before it have been created. */
  predicate StopsAt(t: Tables, t': Tables, projects: seq<ProjectId>, stop: nat, admin: UserId, now: int) {
    && stop < |projects| && projects[stop] !in t.projects
    && var calls := ProjectCalls(t.projects.Keys, projects[..stop], admin, now);
    && AllSucceed(t, calls) && t' == Run(t, calls) && !Succeeds(t', CreateProject(projects[stop], admin, 0, now))
  }

  lemma ProjectCallsSnoc(known: set<ProjectId>, projects: seq<ProjectId>, i: nat, admin: UserId, now: int)
    requires i < |projects|
    ensures ProjectCalls(known, projects[..i + 1], admin, now) ==
      if projects[i] in known then ProjectCalls(known, projects[..i], admin, now)
      else ProjectCalls(known, projects[..i], admin, now) + [CreateProject(projects[i], admin, 0, now)]
  {
    assert projects[..i + 1][..i] == projects[..i];
    assert ProjectCalls(known, projects[..i], admin, now) + [] == ProjectCalls(known, projects[..i], admin, now);
  }

  /** The first loop; the process dies when `budget` calls have been made. */
  method CreateMissingProjects(db: Ledger, projects: seq<ProjectId>, admin: UserId, now: int, budget: nat)
    returns (exit: Exit, left: nat, ghost stop: nat)
    modifies db
    ensures var t := old(db.Snapshot()); var calls := ProjectCalls(t.projects.Keys, projects, admin, now);
      match exit
      case Completed => AllSucceed(t, calls) && db.Snapshot() == Run(t, calls) && left + |calls| == budget
      case Failed => !AllSucceed(t, calls) && StopsAt(t, db.Snapshot(), projects, stop, admin, now)
      case Died => budget < |calls| && db.Snapshot() == Run(t, calls[..budget])
  {
    ghost var t := db.Snapshot();
    var known := db.projects.Keys;
    exit, left, stop := Completed, budget, 0;
    for i := 0 to |projects|
      invariant known == t.projects.Keys
      invariant AllSucceed(t, ProjectCalls(known, projects[..i], admin, now))
      invariant db.Snapshot() == Run(t, ProjectCalls(known, projects[..i], admin, now))
      invariant left + |ProjectCalls(known, projects[..i], admin, now)| == budget
    {
      ghost var calls := ProjectCalls(known, projects[..i], admin, now);
      ProjectCallsSnoc(known, projects, i, admin, now);
      if projects[i] !in known {
        if left == 0 {
          NextProjectCall(known, projects, i, admin, now);
          return Died, 0, i;
        }
        AllSucceedSnoc(t, calls, Op.CreateProject(projects[i], admin, 0, now));
        RunSnoc(t, calls, Op.CreateProject(projects[i], admin, 0, now));
        var outcome := db.CreateProject(projects[i], admin, 0, now);
        left := left - 1;
        if outcome.Raised? {
          FailedPrefix(t, known, projects, i + 1, admin, now);
          return Failed, left, i;
        }
      }
    }
    assert projects[..|projects|] == projects;
  }

  lemma {:induction false} FailedPrefix(t: Tables, known: set<ProjectId>, projects: seq<ProjectId>, i: nat,
                                        admin: UserId, now: int)
    requires i <= |projects| && !AllSucceed(t, ProjectCalls(known, projects[..i], admin, now))
    ensures !AllSucceed(t, ProjectCalls(known, projects, admin, now))
    decreases |projects|
  {
    if i == |projects| {
      assert projects[..i] == projects;
    } else {
      var front := projects[..|projects| - 1];
      assert front[..i] == projects[..i];
      FailedPrefix(t, known, front, i, admin, now);
      var calls := ProjectCalls(known, front, admin, now);
      assert calls + [] == calls;
      assert (calls + [CreateProject(projects[|projects| - 1], admin, 0, now)])[..|calls|] == calls;
    }
  }

  lemma RunTwice(t: Tables, calls: seq<Op>, a: Op, b: Op)
    ensures Run(t, calls + [a, b]) == Step(Step(Run(t, calls), a), b)
  {
    assert calls + [a, b] == calls + [a] + [b];
    RunSnoc(t, calls, a);
    RunSnoc(t, calls + [a], b);
  }

  lemma AccountCallsSnoc(known: set<UserId>, users: seq<UserId>, i: nat, now: int)
    requires i < |users|
    ensures AccountCalls(known, users[..i + 1], now) ==
      if users[i] in known then AccountCalls(known, users[..i], now)
      else AccountCalls(known, users[..i], now)
           + [CreateAccount(users[i], 0, 0, LEVEL), ChargeAccount(users[i], BONUS, "bonus", None, now)]
  {
    assert users[..i + 1][..i] == users[..i];
  }

  /** The next two calls of the second loop. */
  lemma NextAccountCalls(known: set<UserId>, users: seq<UserId>, i: nat, now: int)
    requires i < |users| && users[i] !in known
    ensures var all, calls := AccountCalls(known, users, now), AccountCalls(known, users[..i], now);
      && |calls| + 2 <= |all| && all[..|calls|] == calls
      && all[..|calls| + 1] == calls + [CreateAccount(users[i], 0, 0, LEVEL)]
  {
    var all, calls := AccountCalls(known, users, now), AccountCalls(known, users[..i], now);
    AccountCallsSnoc(known, users, i, now);
    AccountCallsPrefix(known, users, i + 1, now);
    var both := calls + [CreateAccount(users[i], 0, 0, LEVEL), ChargeAccount(users[i], BONUS, "bonus", None, now)];
    TakePrefix(both, all, |calls|);
    TakePrefix(both, all, |calls| + 1);
    TakeConcat(calls, both[|calls|..], |calls| + 1);
  }

  /** The two calls for one missing user, as far as the budget goes. */
  method OpenAccount(db: Ledger, u: UserId, now: int, budget: nat) returns (exit: Exit)
    modifies db
    ensures var t, open := old(db.Snapshot()), Op.CreateAccount(u, 0, 0, LEVEL);
      if budget == 0 then exit == Died && db.Snapshot() == t
      else if budget == 1 then exit == Died && db.Snapshot() == Step(t, open)
      else exit == Completed && db.Snapshot() == Step(Step(t, open), Op.ChargeAccount(u, BONUS, "bonus", None, now))
  {
    if budget == 0 {
      return Died;
    }
    var created := db.CreateAccount(u, 0, 0, LEVEL);
    if budget == 1 {
      return Died;
    }
    var charged := db.ChargeAccount(u, BONUS, "bonus", None, now);
    exit := Completed;
  }

  /** The ledger when the second loop dies at user i. */
  lemma DiesAtUser(t: Tables, known: set<UserId>, users: seq<UserId>, i: nat, now: int, budget: nat)
    requires i < |users| && users[i] !in known
    requires var made := |AccountCalls(known, users[..i], now)|; made <= budget < made + 2
    ensures var all, calls := AccountCalls(known, users, now), AccountCalls(known, users[..i], now);
      && budget < |all|
      && Run(t, all[..budget])
         == if budget == |calls| then Run(t, calls) else Step(Run(t, calls), CreateAccount(users[i], 0, 0, LEVEL))
  {
    NextAccountCalls(known, users, i, now);
    RunSnoc(t, AccountCalls(known, users[..i], now), CreateAccount(users[i], 0, 0, LEVEL));
  }

  lemma NextUser(t: Tables, known: set<UserId>, users: seq<UserId>, i: nat, now: int)
    requires i < |users|
    ensures var calls, calls' := AccountCalls(known, users[..i], now), AccountCalls(known, users[..i + 1], now);
      var open, bonus := CreateAccount(users[i], 0, 0, LEVEL), ChargeAccount(users[i], BONUS, "bonus", None, now);
      && |calls'| == |calls| + (if users[i] in known then 0 else 2)
      && Run(t, calls') == if users[i] in known then Run(t, calls) else Step(Step(Run(t, calls), open), bonus)
  {
    AccountCallsSnoc(known, users, i, now);
    RunTwice(t, AccountCalls(known, users[..i], now), CreateAccount(users[i], 0, 0, LEVEL),
             ChargeAccount(users[i], BONUS, "bonus", None, now));
  }

  /** The second loop. */
  method CreateMissingAccounts(db: Ledger, users: seq<UserId>, now: int, budget: nat) returns (exit: Exit)
    requires NoDuplicates(users)
    modifies db
    ensures var t := old(db.Snapshot()); var calls := AccountCalls(t.accounts.Keys, users, now);
      if budget < |calls| then exit == Died && db.Snapshot() == Run(t, calls[..budget])
      else exit == Completed && db.Snapshot() == Run(t, calls)
  {
    ghost var t := db.Snapshot();
    var known := db.accounts.Keys;
    var left: nat := budget;
    for i := 0 to |users|
      invariant known == t.accounts.Keys
      invariant db.Snapshot() == Run(t, AccountCalls(known, users[..i], now))
      invariant left + |AccountCalls(known, users[..i], now)| == budget
    {
      NextUser(t, known, users, i, now);
      if users[i] !in known {
        exit := OpenAccount(db, users[i], now, left);
        if exit.Died? {
          DiesAtUser(t, known, users, i, now, budget);
          return Died;
        }
        left := left - 2;
      }
    }
    assert users[..|users|] == users;
    exit := Completed;
  }

  /** The first missing project that still has a relation to the admin. */
  predicate FirstLeftover(t: Tables, projects: seq<ProjectId>, stop: nat, admin: UserId) {
    && stop < |projects| && NoLeftovers(t, projects[..stop], admin)
    && projects[stop] !in t.projects && (admin, projects[stop]) in t.relations
  }

  /** Where the command fails, and what it has done by then. */
  lemma StopsAtLeftover(t: Tables, t': Tables, projects: seq<ProjectId>, stop: nat, admin: UserId, now: int)
    requires NoDuplicates(projects) && StopsAt(t, t', projects, stop, admin, now)
    ensures FirstLeftover(t, projects, stop, admin) && ProjectsDone(t, t', projects[..stop], admin, now)
  {
    ProjectCallsSucceedIff(t, projects[..stop], admin, now);
    ProjectsAreCreated(t, projects[..stop], admin, now);
    NextProject(t, t', projects[..stop], projects[stop], admin, now);
  }

  /**
   The whole command.  It fails at the first missing project that still has a
   relation to the admin: the missing projects before it have been created, and
   nothing else has changed.  If it dies after `budget` calls, those have been made.
   */
  method SynchronizeDatabase(db: Ledger, projects: seq<ProjectId>, users: seq<UserId>, admin: UserId, now: int,
                             budget: nat)
    returns (exit: Exit, ghost stop: nat)
    requires NoDuplicates(projects) && NoDuplicates(users)
    modifies db
    ensures var t := old(db.Snapshot()); var calls := Calls(t, projects, users, admin, now);
      match exit
      case Completed =>
        && NoLeftovers(t, projects, admin) && budget >= |calls|
        && db.Snapshot() == Run(t, calls) && Synchronized(t, db.Snapshot(), projects, users, admin, now)
      case Failed =>
        && !NoLeftovers(t, projects, admin) && FirstLeftover(t, projects, stop, admin)
        && ProjectsDone(t, db.Snapshot(), projects[..stop], admin, now)
      case Died => budget < |calls| && db.Snapshot() == Run(t, calls[..budget])
  {
    ghost var t := db.Snapshot();
    ghost var a := ProjectCalls(t.projects.Keys, projects, admin, now);
    ghost var b := AccountCalls(t.accounts.Keys, users, now);
    ProjectCallsSucceedIff(t, projects, admin, now);
    var left;
    exit, left, stop := CreateMissingProjects(db, projects, admin, now, budget);
    if exit.Completed? {
      ProjectsAreCreated(t, projects, admin, now);
      assert db.accounts.Keys == t.accounts.Keys;
      exit := CreateMissingAccounts(db, users, now, left);
      if exit.Died? {
        TakeConcat(a, b, budget);
        RunConcat(t, a, b[..left]);
      } else {
        RunConcat(t, a, b);
        SynchronizeOnceIsEnough(t, projects, users, admin, now, now);
      }
    } else if exit.Failed? {
      StopsAtLeftover(t, db.Snapshot(), projects, stop, admin, now);
    } else {
      TakeConcat(a, b, budget);
    }
  }
}

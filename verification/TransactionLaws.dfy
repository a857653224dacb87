/** Concurrent settlements are serializable, however the statements interleave. */
module TransactionLaws {
  import opened Wrappers
  import opened Money
  import opened Tables
  import opened Transactions

  // ---------- One table ----------

  lemma WriteKeepsCommitted<K, V>(rows: map<K, V>, locks: map<K, Lock<V>>, k: K, id: TxnId, v: V)
    requires k in rows && k !in locks
    ensures CommittedRows(rows[k := v], locks[k := Lock(id, rows[k])]) == CommittedRows(rows, locks)
  {
  }

  lemma RollbackKeepsCommitted<K, V>(rows: map<K, V>, locks: map<K, Lock<V>>, id: TxnId)
    ensures CommittedRows(Restore(rows, locks, id), Release(locks, id)) == CommittedRows(rows, locks)
  {
  }

  lemma CommitPublishes<K, V>(rows: map<K, V>, locks: map<K, Lock<V>>, claims: map<TxnId, Claim<K>>,
                              settle: (V, int, int) -> V, id: TxnId)
    requires TableOK(rows, locks, claims, settle) && id in claims
    ensures var Claim(k, amount, now) := claims[id];
      var before := CommittedRows(rows, locks);
      k in before && CommittedRows(rows, Release(locks, id)) == before[k := settle(before[k], amount, now)]
  {
  }

  lemma WriteOK<K, V>(rows: map<K, V>, locks: map<K, Lock<V>>, claims: map<TxnId, Claim<K>>, settle: (V, int, int) -> V,
                      id: TxnId, k: K, amount: int, now: int)
    requires TableOK(rows, locks, claims, settle) && k in rows && k !in locks && id !in claims
    ensures TableOK(rows[k := settle(rows[k], amount, now)], locks[k := Lock(id, rows[k])],
                    claims[id := Claim(k, amount, now)], settle)
  {
  }

  lemma ReleaseOK<K, V>(rows: map<K, V>, locks: map<K, Lock<V>>, claims: map<TxnId, Claim<K>>,
                        settle: (V, int, int) -> V, id: TxnId)
    requires TableOK(rows, locks, claims, settle)
    ensures TableOK(rows, Release(locks, id), claims - {id}, settle)
    ensures TableOK(Restore(rows, locks, id), Release(locks, id), claims - {id}, settle)
  {
  }

  lemma FrameOK<K, V>(rows: map<K, V>, rows': map<K, V>, locks: map<K, Lock<V>>, claims: map<TxnId, Claim<K>>,
                      settle: (V, int, int) -> V)
    requires TableOK(rows, locks, claims, settle)
    requires forall k :: k in locks ==> k in rows' && rows'[k] == rows[k]
    ensures TableOK(rows', locks, claims, settle)
  {
  }

  // ---------- One event and what is committed ----------

  lemma RollbackView(s: DB, id: TxnId)
    ensures View(Rollback(s, id)) == View(s)
  {
    RollbackKeepsCommitted(s.rows.accounts, s.accountLocks, id);
    RollbackKeepsCommitted(s.rows.projects, s.projectLocks, id);
    RollbackKeepsCommitted(s.rows.relations, s.relationLocks, id);
  }

  /** The three rows a commit of the transaction makes visible. */
  ghost predicate PublishesRows(s: DB, id: TxnId)
    requires id in s.txns
  {
    var t, t', q, now := View(s), View(Unlock(s, id)), Quantize(s.txns[id].cost), s.txns[id].now;
    var u, p := s.txns[id].user, s.txns[id].project;
    && u in t.accounts && p in t.projects && (u, p) in t.relations
    && t'.accounts == t.accounts[u := Settled(t.accounts[u], q, now)]
    && t'.projects == t.projects[p := ProjectSettled(t.projects[p], q, now)]
    && t'.relations == t.relations[(u, p) := RelationSettled(t.relations[(u, p)], q, now)]
  }

  lemma CommitRows(s: DB, id: TxnId)
    requires Consistent(s) && id in s.txns && s.txns[id].phase.RelationWritten?
    ensures PublishesRows(s, id)
  {
    CommitPublishes(s.rows.accounts, s.accountLocks, AccountClaims(s.txns), Settled, id);
    CommitPublishes(s.rows.projects, s.projectLocks, ProjectClaims(s.txns), ProjectSettled, id);
    CommitPublishes(s.rows.relations, s.relationLocks, RelationClaims(s.txns), RelationSettled, id);
  }

  /** Publishing the three rows is one settlement on top of whatever has been committed meanwhile. */
  lemma CommitView(s: DB, id: TxnId)
    requires id in s.txns && PublishesRows(s, id)
    ensures Succeeds(View(s), CallOf(s.txns[id]))
    ensures View(Unlock(s, id)) == Step(View(s), CallOf(s.txns[id]))
  {
  }

  lemma WriteFreeRow<K, V>(rows: map<K, V>, locks: map<K, Lock<V>>, k: K, v: V)
    requires k !in locks
    ensures CommittedRows(rows[k := v], locks) == CommittedRows(rows, locks)[k := v]
    ensures k in rows ==> CommittedRows(rows, locks)[k] == rows[k]
  {
  }

  lemma CommittedPayers(s: DB, p: ProjectId)
    requires Consistent(s) && p in s.rows.projects
    ensures View(s).projects[p].payer == s.rows.projects[p].payer
  {
  }

  lemma KeepProjects(rows: map<ProjectId, Project>, locks: map<ProjectId, Lock<Project>>, u: UserId)
    requires forall p :: p in rows ==> CommittedRows(rows, locks)[p].payer == rows[p].payer
    ensures var committed := CommittedRows(rows, locks);
      CommittedRows(map p | p in rows && rows[p].payer != u :: rows[p], locks)
        == map p | p in committed && committed[p].payer != u :: committed[p]
  {
  }

  lemma KeepRelations(rows: map<(UserId, ProjectId), Relation>, locks: map<(UserId, ProjectId), Lock<Relation>>,
                      u: UserId)
    ensures var committed := CommittedRows(rows, locks);
      CommittedRows(map k | k in rows && k.0 != u :: rows[k], locks)
        == map k | k in committed && k.0 != u :: committed[k]
  {
  }

  lemma DeleteView(s: DB, u: UserId)
    requires u in s.rows.accounts
    requires forall p :: p in s.rows.projects ==> View(s).projects[p].payer == s.rows.projects[p].payer
    ensures View(s.(rows := Step(s.rows, DeleteAccount(u)))) == Step(View(s), DeleteAccount(u))
  {
    KeepProjects(s.rows.projects, s.projectLocks, u);
    KeepRelations(s.rows.relations, s.relationLocks, u);
    assert CommittedRows(s.rows.accounts - {u}, s.accountLocks) == CommittedRows(s.rows.accounts, s.accountLocks) - {u};
  }

  /** A call on unlocked rows does to the committed state what it does to the rows. */
  lemma ServeView(s: DB, op: Op)
    requires Consistent(s) && Free(s, op)
    ensures View(s.(rows := Step(s.rows, op))) == Step(View(s), op)
  {
    var rows' := Step(s.rows, op);
    if Succeeds(s.rows, op) {
      match op
      case DeleteAccount(u) =>
        forall p | p in s.rows.projects
          ensures View(s).projects[p].payer == s.rows.projects[p].payer
        {
          CommittedPayers(s, p);
        }
        DeleteView(s, u);
      case CreateAccount(u, _, _, _) => WriteFreeRow(s.rows.accounts, s.accountLocks, u, rows'.accounts[u]);
      case ChargeAccount(u, _, _, _, _) => WriteFreeRow(s.rows.accounts, s.accountLocks, u, rows'.accounts[u]);
      case ChangeAccountLevel(u, _) => WriteFreeRow(s.rows.accounts, s.accountLocks, u, rows'.accounts[u]);
      case CreateProject(p, u, _, _) =>
        WriteFreeRow(s.rows.projects, s.projectLocks, p, rows'.projects[p]);
        WriteFreeRow(s.rows.relations, s.relationLocks, (u, p), rows'.relations[(u, p)]);
      case ChangeBillingOwner(p, u, _) =>
        WriteFreeRow(s.rows.projects, s.projectLocks, p, rows'.projects[p]);
        WriteFreeRow(s.rows.relations, s.relationLocks, (u, p), rows'.relations[(u, p)]);
    }
  }

  // ---------- Every event keeps the locks in order ----------

  /** A transaction whose claims do not change. */
  lemma SameClaims(txns: map<TxnId, Txn>, id: TxnId, phase: Phase)
    requires id in txns
    ensures var txns' := txns[id := txns[id].(phase := phase)];
      && (HoldsAccount(phase) == HoldsAccount(txns[id].phase) ==> AccountClaims(txns') == AccountClaims(txns))
      && (HoldsProject(phase) == HoldsProject(txns[id].phase) ==> ProjectClaims(txns') == ProjectClaims(txns))
      && (HoldsRelation(phase) == HoldsRelation(txns[id].phase) ==> RelationClaims(txns') == RelationClaims(txns))
  {
    SameAccountClaims(txns, id, phase);
    SameProjectClaims(txns, id, phase);
    SameRelationClaims(txns, id, phase);
  }

  lemma SameAccountClaims(txns: map<TxnId, Txn>, id: TxnId, phase: Phase)
    requires id in txns
    ensures HoldsAccount(phase) == HoldsAccount(txns[id].phase)
      ==> AccountClaims(txns[id := txns[id].(phase := phase)]) == AccountClaims(txns)
  {
  }

  lemma SameProjectClaims(txns: map<TxnId, Txn>, id: TxnId, phase: Phase)
    requires id in txns
    ensures HoldsProject(phase) == HoldsProject(txns[id].phase)
      ==> ProjectClaims(txns[id := txns[id].(phase := phase)]) == ProjectClaims(txns)
  {
  }

  lemma SameRelationClaims(txns: map<TxnId, Txn>, id: TxnId, phase: Phase)
    requires id in txns
    ensures HoldsRelation(phase) == HoldsRelation(txns[id].phase)
      ==> RelationClaims(txns[id := txns[id].(phase := phase)]) == RelationClaims(txns)
  {
  }

  lemma NoClaims(txns: map<TxnId, Txn>, id: TxnId, txn: Txn)
    requires !HoldsAccount(txn.phase)
    ensures AccountClaims(txns[id := txn]) == AccountClaims(txns) - {id}
    ensures ProjectClaims(txns[id := txn]) == ProjectClaims(txns) - {id}
    ensures RelationClaims(txns[id := txn]) == RelationClaims(txns) - {id}
  {
  }

  lemma ReleaseConsistent(s: DB, id: TxnId, txn: Txn)
    requires Consistent(s) && !HoldsAccount(txn.phase)
    ensures Consistent(Rollback(s, id).(txns := s.txns[id := txn]))
    ensures Consistent(Unlock(s, id).(txns := s.txns[id := txn]))
  {
    NoClaims(s.txns, id, txn);
    ReleaseOK(s.rows.accounts, s.accountLocks, AccountClaims(s.txns), Settled, id);
    ReleaseOK(s.rows.projects, s.projectLocks, ProjectClaims(s.txns), ProjectSettled, id);
    ReleaseOK(s.rows.relations, s.relationLocks, RelationClaims(s.txns), RelationSettled, id);
  }

  lemma ServeConsistent(s: DB, op: Op)
    requires Consistent(s) && Free(s, op)
    ensures Consistent(s.(rows := Step(s.rows, op)))
  {
    var rows' := Step(s.rows, op);
    FrameOK(s.rows.accounts, rows'.accounts, s.accountLocks, AccountClaims(s.txns), Settled);
    FrameOK(s.rows.projects, rows'.projects, s.projectLocks, ProjectClaims(s.txns), ProjectSettled);
    FrameOK(s.rows.relations, rows'.relations, s.relationLocks, RelationClaims(s.txns), RelationSettled);
  }

  /** Rows, locks and transactions stay in order, and nothing new is committed. */
  ghost predicate Quiet(s: DB, s': DB) {
    Consistent(s') && View(s') == View(s) && s'.history == s.history && s'.log == s.log
  }

  lemma ReadQuiet(s: DB, id: TxnId, phase: Phase)
    requires Consistent(s) && id in s.txns
    requires HoldsAccount(phase) == HoldsAccount(s.txns[id].phase)
    requires HoldsProject(phase) == HoldsProject(s.txns[id].phase)
    requires HoldsRelation(phase) == HoldsRelation(s.txns[id].phase)
    ensures Quiet(s, Goto(s, id, phase))
  {
    SameClaims(s.txns, id, phase);
  }

  lemma GiveUpQuiet(s: DB, id: TxnId)
    requires Consistent(s) && id in s.txns
    ensures Quiet(s, GiveUp(s, id))
  {
    RollbackView(s, id);
    ReleaseConsistent(s, id, s.txns[id].(phase := Abandoned));
  }

  lemma AbortQuiet(s: DB, id: TxnId, clock: int)
    requires Consistent(s) && id in s.txns
    ensures Quiet(s, Retry(s, id, clock))
  {
    var txn := s.txns[id];
    if txn.retries < MAX_RETRIES {
      RollbackView(s, id);
      ReleaseConsistent(s, id, txn.(now := clock, retries := txn.retries + 1, phase := Started));
    } else {
      GiveUpQuiet(s, id);
    }
  }

  lemma AccountWriteClaims(txns: map<TxnId, Txn>, id: TxnId)
    requires id in txns && txns[id].phase.AccountRead?
    ensures var txns' := txns[id := txns[id].(phase := AccountWritten)];
      && AccountClaims(txns') == AccountClaims(txns)[id := Claim(txns[id].user, Quantize(txns[id].cost), txns[id].now)]
      && ProjectClaims(txns') == ProjectClaims(txns) && RelationClaims(txns') == RelationClaims(txns)
      && id !in AccountClaims(txns)
  {
  }

  /** The transaction has settled the account row in place and locked it. */
  function WroteAccount(s: DB, id: TxnId): DB
    requires id in s.txns && s.txns[id].user in s.rows.accounts
  {
    var k, txn := s.txns[id].user, s.txns[id];
    Goto(s, id, AccountWritten).(
      rows := s.rows.(accounts := s.rows.accounts[k := Settled(s.rows.accounts[k], Quantize(txn.cost), txn.now)]),
      accountLocks := s.accountLocks[k := Lock(id, s.rows.accounts[k])])
  }

  lemma WroteAccountQuiet(s: DB, id: TxnId)
    requires Consistent(s) && id in s.txns && s.txns[id].phase.AccountRead?
    requires s.txns[id].user in s.rows.accounts && s.txns[id].user !in s.accountLocks
    ensures Quiet(s, WroteAccount(s, id))
  {
    var k, txn := s.txns[id].user, s.txns[id];
    AccountWriteClaims(s.txns, id);
    WriteOK(s.rows.accounts, s.accountLocks, AccountClaims(s.txns), Settled, id, k, Quantize(txn.cost), txn.now);
    WriteKeepsCommitted(s.rows.accounts, s.accountLocks, k, id,
                        Settled(s.rows.accounts[k], Quantize(txn.cost), txn.now));
  }

  /** A write whose filter matches settles the row as it is now, whatever the age of the read. */
  lemma WriteAccountCases(s: DB, e: Event)
    requires e.WriteAccount? && e.id in s.txns && Advance(s, e).Some?
    ensures s.txns[e.id].phase.AccountRead? && s.txns[e.id].user !in s.accountLocks
    ensures
      || Advance(s, e).value == Retry(s, e.id, e.clock)
      || (s.txns[e.id].user in s.rows.accounts && Advance(s, e).value == WroteAccount(s, e.id))
  {
  }

  lemma ProjectWriteClaims(txns: map<TxnId, Txn>, id: TxnId)
    requires id in txns && txns[id].phase.ProjectRead?
    ensures var txns' := txns[id := txns[id].(phase := ProjectWritten)];
      && ProjectClaims(txns')
         == ProjectClaims(txns)[id := Claim(txns[id].project, Quantize(txns[id].cost), txns[id].now)]
      && AccountClaims(txns') == AccountClaims(txns) && RelationClaims(txns') == RelationClaims(txns)
      && id !in ProjectClaims(txns)
  {
  }

  /** The transaction has settled the project row in place and locked it. */
  function WroteProject(s: DB, id: TxnId): DB
    requires id in s.txns && s.txns[id].project in s.rows.projects
  {
    var k, txn := s.txns[id].project, s.txns[id];
    Goto(s, id, ProjectWritten).(
      rows := s.rows.(
        projects := s.rows.projects[k := ProjectSettled(s.rows.projects[k], Quantize(txn.cost), txn.now)]),
      projectLocks := s.projectLocks[k := Lock(id, s.rows.projects[k])])
  }

  lemma WroteProjectQuiet(s: DB, id: TxnId)
    requires Consistent(s) && id in s.txns && s.txns[id].phase.ProjectRead?
    requires s.txns[id].project in s.rows.projects && s.txns[id].project !in s.projectLocks
    ensures Quiet(s, WroteProject(s, id))
  {
    var k, txn := s.txns[id].project, s.txns[id];
    ProjectWriteClaims(s.txns, id);
    WriteOK(s.rows.projects, s.projectLocks, ProjectClaims(s.txns), ProjectSettled, id, k, Quantize(txn.cost), txn.now);
    WriteKeepsCommitted(s.rows.projects, s.projectLocks, k, id,
                        ProjectSettled(s.rows.projects[k], Quantize(txn.cost), txn.now));
  }

  /** A write whose filter matches settles the row as it is now, whatever the age of the read. */
  lemma WriteProjectCases(s: DB, e: Event)
    requires e.WriteProject? && e.id in s.txns && Advance(s, e).Some?
    ensures s.txns[e.id].phase.ProjectRead? && s.txns[e.id].project !in s.projectLocks
    ensures
      || Advance(s, e).value == Retry(s, e.id, e.clock)
      || (s.txns[e.id].project in s.rows.projects && Advance(s, e).value == WroteProject(s, e.id))
  {
  }

  lemma RelationWriteClaims(txns: map<TxnId, Txn>, id: TxnId)
    requires id in txns && txns[id].phase.RelationRead?
    ensures var txns' := txns[id := txns[id].(phase := RelationWritten)];
      && RelationClaims(txns')
         == RelationClaims(txns)[id := Claim((txns[id].user, txns[id].project), Quantize(txns[id].cost), txns[id].now)]
      && AccountClaims(txns') == AccountClaims(txns) && ProjectClaims(txns') == ProjectClaims(txns)
      && id !in RelationClaims(txns)
  {
  }

  /** The transaction has settled the relation row in place and locked it. */
  function WroteRelation(s: DB, id: TxnId): DB
    requires id in s.txns && (s.txns[id].user, s.txns[id].project) in s.rows.relations
  {
    var k, txn := (s.txns[id].user, s.txns[id].project), s.txns[id];
    Goto(s, id, RelationWritten).(
      rows := s.rows.(
        relations := s.rows.relations[k := RelationSettled(s.rows.relations[k], Quantize(txn.cost), txn.now)]),
      relationLocks := s.relationLocks[k := Lock(id, s.rows.relations[k])])
  }

  lemma WroteRelationQuiet(s: DB, id: TxnId)
    requires Consistent(s) && id in s.txns && s.txns[id].phase.RelationRead?
    requires (s.txns[id].user, s.txns[id].project) in s.rows.relations
    requires (s.txns[id].user, s.txns[id].project) !in s.relationLocks
    ensures Quiet(s, WroteRelation(s, id))
  {
    var k, txn := (s.txns[id].user, s.txns[id].project), s.txns[id];
    RelationWriteClaims(s.txns, id);
    WriteOK(s.rows.relations, s.relationLocks, RelationClaims(s.txns), RelationSettled,
            id, k, Quantize(txn.cost), txn.now);
    WriteKeepsCommitted(s.rows.relations, s.relationLocks, k, id,
                        RelationSettled(s.rows.relations[k], Quantize(txn.cost), txn.now));
  }

  /** A write whose filter matches settles the row as it is now, whatever the age of the read. */
  lemma WriteRelationCases(s: DB, e: Event)
    requires e.WriteRelation? && e.id in s.txns && Advance(s, e).Some?
    ensures s.txns[e.id].phase.RelationRead? && (s.txns[e.id].user, s.txns[e.id].project) !in s.relationLocks
    ensures
      || Advance(s, e).value == Retry(s, e.id, e.clock)
      || ((s.txns[e.id].user, s.txns[e.id].project) in s.rows.relations
          && Advance(s, e).value == WroteRelation(s, e.id))
  {
  }

  lemma ReadsQuiet(s: DB, e: Event)
    requires Consistent(s) && (e.ReadAccount? || e.ReadProject? || e.ReadRelation?)
    requires e.id in s.txns && Advance(s, e).Some?
    ensures Quiet(s, Advance(s, e).value)
  {
    var id, txn := e.id, s.txns[e.id];
    if Advance(s, e).value == GiveUp(s, id) {
      GiveUpQuiet(s, id);
    } else {
      ReadQuiet(s, id, Advance(s, e).value.txns[id].phase);
    }
  }

  lemma WritesQuiet(s: DB, e: Event)
    requires Consistent(s) && (e.WriteAccount? || e.WriteProject? || e.WriteRelation?)
    requires e.id in s.txns && Advance(s, e).Some?
    ensures Quiet(s, Advance(s, e).value)
  {
    var id, txn := e.id, s.txns[e.id];
    if Advance(s, e).value == Retry(s, id, e.clock) {
      AbortQuiet(s, id, e.clock);
    } else if e.WriteAccount? {
      WriteAccountCases(s, e);
      WroteAccountQuiet(s, id);
    } else if e.WriteProject? {
      WriteProjectCases(s, e);
      WroteProjectQuiet(s, id);
    } else {
      WriteRelationCases(s, e);
      WroteRelationQuiet(s, id);
    }
  }

  lemma AdvanceQuiet(s: DB, e: Event)
    requires Consistent(s) && !e.Begin? && !e.Serve? && !e.Commit? && e.id in s.txns && Advance(s, e).Some?
    ensures Quiet(s, Advance(s, e).value)
  {
    if e.Deadlock? {
      AbortQuiet(s, e.id, e.clock);
    } else if e.Die? {
      GiveUpQuiet(s, e.id);
    } else if e.WriteAccount? || e.WriteProject? || e.WriteRelation? {
      WritesQuiet(s, e);
    } else {
      ReadsQuiet(s, e);
    }
  }

  /** Exactly one call is committed, on top of the committed state. */
  ghost predicate Commits(s: DB, s': DB) {
    && Consistent(s')
    && |s'.log| == |s.log| + 1 && s'.log[..|s.log|] == s.log
    && View(s') == Step(View(s), s'.log[|s.log|].call)
    && s'.history == s.history + [View(s')]
  }

  lemma ServeCommits(s: DB, op: Op)
    requires Consistent(s) && Free(s, op)
    ensures Commits(s, Publish(s.(rows := Step(s.rows, op)), Other(op)))
  {
    ServeView(s, op);
    ServeConsistent(s, op);
  }

  lemma CommitKeeps(s: DB, id: TxnId)
    requires Consistent(s) && id in s.txns
    ensures Consistent(Goto(Unlock(s, id), id, Committed))
  {
    ReleaseConsistent(s, id, s.txns[id].(phase := Committed));
  }

  lemma CommitShows(s: DB, id: TxnId)
    requires Consistent(s) && id in s.txns && s.txns[id].phase.RelationWritten?
    ensures View(Goto(Unlock(s, id), id, Committed)) == Step(View(s), CallOf(s.txns[id]))
  {
    CommitRows(s, id);
    CommitView(s, id);
    assert View(Goto(Unlock(s, id), id, Committed)) == View(Unlock(s, id));
  }

  lemma CommitCommits(s: DB, id: TxnId)
    requires Consistent(s) && id in s.txns && s.txns[id].phase.RelationWritten?
    ensures Commits(s, Publish(Goto(Unlock(s, id), id, Committed), Settlement(id, CallOf(s.txns[id]))))
  {
    CommitKeeps(s, id);
    CommitShows(s, id);
    PublishesOne(s, Goto(Unlock(s, id), id, Committed), Settlement(id, CallOf(s.txns[id])));
  }

  lemma PublishesOne(s: DB, s': DB, entry: Entry)
    requires Consistent(s') && s'.log == s.log && s'.history == s.history && View(s') == Step(View(s), entry.call)
    ensures Commits(s, Publish(s', entry))
  {
  }

  lemma FireCommits(s: DB, e: Event)
    requires Consistent(s) && Fire(s, e).Some? && (e.Commit? || e.Serve?)
    ensures Commits(s, Fire(s, e).value)
  {
    if e.Serve? {
      ServeCommits(s, e.op);
    } else {
      CommitCommits(s, e.id);
    }
  }

  lemma FireQuiet(s: DB, e: Event)
    requires Consistent(s) && Fire(s, e).Some? && !e.Commit? && !e.Serve?
    ensures Quiet(s, Fire(s, e).value)
  {
    if e.Begin? {
      NoClaims(s.txns, e.id, Fire(s, e).value.txns[e.id]);
      assert AccountClaims(s.txns) - {e.id} == AccountClaims(s.txns);
      assert ProjectClaims(s.txns) - {e.id} == ProjectClaims(s.txns);
      assert RelationClaims(s.txns) - {e.id} == RelationClaims(s.txns);
    } else {
      AdvanceQuiet(s, e);
    }
  }

  // ---------- Serializability ----------

  /** The committed states are those of the logged calls made one after the other. */
  ghost predicate Serial(init: Tables, s: DB) {
    && |s.history| == |s.log| + 1
    && View(s) == s.history[|s.log|]
    && forall i :: 0 <= i <= |s.log| ==> s.history[i] == Run(init, OpsOf(s.log[..i]))
  }

  lemma SerialStep(init: Tables, s: DB, s': DB)
    requires Serial(init, s) && Commits(s, s')
    ensures Serial(init, s')
  {
    var n := |s.log|;
    forall i | 0 <= i <= |s'.log|
      ensures s'.history[i] == Run(init, OpsOf(s'.log[..i]))
    {
      if i <= n {
        assert s'.log[..i] == s.log[..i];
      } else {
        assert s.log[..n] == s.log && s'.log[..i] == s'.log;
        assert OpsOf(s'.log) == OpsOf(s.log) + [s'.log[n].call];
        RunSnoc(init, OpsOf(s.log), s'.log[n].call);
      }
    }
  }

  lemma {:induction false} AlwaysSerial(init: DB, es: seq<Event>, s: DB)
    requires Reaches(init, es, s)
    ensures Consistent(s) && Serial(init.rows, s)
  {
    if es == [] {
      assert OpsOf(s.log[..0]) == [];
    } else {
      var mid, e := Execute(init, es[..|es| - 1]).value, es[|es| - 1];
      AlwaysSerial(init, es[..|es| - 1], mid);
      if e.Commit? || e.Serve? {
        FireCommits(mid, e);
        SerialStep(init.rows, mid, s);
      } else {
        FireQuiet(mid, e);
      }
    }
  }

  /** Nobody is in the middle of a call with a row written. */
  ghost predicate AtRest(s: DB) {
    forall id :: id in s.txns ==> !HoldsAccount(s.txns[id].phase)
  }

  lemma UnlockedRowsAreCommitted<K, V>(rows: map<K, V>, locks: map<K, Lock<V>>, claims: map<TxnId, Claim<K>>,
                                       settle: (V, int, int) -> V)
    requires TableOK(rows, locks, claims, settle) && claims.Keys == {}
    ensures CommittedRows(rows, locks) == rows
  {
    forall k | k in rows
      ensures k !in locks
    {
    }
  }

  lemma RestIsCommitted(s: DB)
    requires Consistent(s) && AtRest(s)
    ensures View(s) == s.rows
  {
    UnlockedRowsAreCommitted(s.rows.accounts, s.accountLocks, AccountClaims(s.txns), Settled);
    UnlockedRowsAreCommitted(s.rows.projects, s.projectLocks, ProjectClaims(s.txns), ProjectSettled);
    UnlockedRowsAreCommitted(s.rows.relations, s.relationLocks, RelationClaims(s.txns), RelationSettled);
  }

  /**
   Whatever the interleaving and however stale the reads, the committed state
   is that of the committed calls made one after the other in commit order;
   and once nobody is in the middle of a call, so are the rows themselves.
   */
  lemma Serializable(init: DB, es: seq<Event>, s: DB)
    requires Reaches(init, es, s)
    ensures View(s) == Run(init.rows, OpsOf(s.log))
    ensures AtRest(s) ==> s.rows == Run(init.rows, OpsOf(s.log))
  {
    AlwaysSerial(init, es, s);
    assert s.log[..|s.log|] == s.log;
    if AtRest(s) {
      RestIsCommitted(s);
    }
  }

  // ---------- Exactly once ----------

  /** Only its own commit makes a transaction committed, and nothing touches it afterwards. */
  lemma FireTxn(s: DB, e: Event, id: TxnId)
    requires Fire(s, e).Some?
    ensures var s' := Fire(s, e).value;
      && (id in s.txns && s.txns[id].phase.Committed? ==> id in s'.txns && s'.txns[id] == s.txns[id])
      && (id in s'.txns && s'.txns[id].phase.Committed? ==>
            (e.Commit? && id == e.id) || (id in s.txns && s.txns[id] == s'.txns[id]))
  {
  }

  lemma FireLog(s: DB, e: Event)
    requires Fire(s, e).Some?
    ensures var s' := Fire(s, e).value;
      if e.Commit? then
        && e.id in s.txns && !s.txns[e.id].phase.Committed? && e.id in s'.txns && s'.txns[e.id].phase.Committed?
        && s'.log == s.log + [Settlement(e.id, CallOf(s'.txns[e.id]))]
      else
        s'.log == s.log || (e.Serve? && s'.log == s.log + [Other(e.op)])
  {
  }

  lemma CommittedIsLogged(s: DB, e: Event, id: TxnId)
    requires Fire(s, e).Some? && LoggedOnce(s)
    requires id in Fire(s, e).value.txns && Fire(s, e).value.txns[id].phase.Committed?
    ensures var s' := Fire(s, e).value;
      exists i :: 0 <= i < |s'.log| && s'.log[i] == Settlement(id, CallOf(s'.txns[id]))
  {
    var s' := Fire(s, e).value;
    FireLog(s, e);
    if e.Commit? && id == e.id {
      assert s'.log[|s.log|] == Settlement(id, CallOf(s'.txns[id]));
    } else {
      FireTxn(s, e, id);
      var i :| 0 <= i < |s.log| && s.log[i] == Settlement(id, CallOf(s.txns[id]));
      assert s'.log[i] == s.log[i];
    }
  }

  lemma LoggedOnceStep(s: DB, e: Event)
    requires Fire(s, e).Some? && LoggedOnce(s)
    ensures LoggedOnce(Fire(s, e).value)
  {
    var s' := Fire(s, e).value;
    FireLog(s, e);
    forall i | 0 <= i < |s'.log| && s'.log[i].Settlement?
      ensures var id := s'.log[i].id;
        id in s'.txns && s'.txns[id].phase.Committed? && s'.log[i].call == CallOf(s'.txns[id])
    {
      FireTxn(s, e, s'.log[i].id);
    }
    forall id | id in s'.txns && s'.txns[id].phase.Committed?
      ensures exists i :: 0 <= i < |s'.log| && s'.log[i] == Settlement(id, CallOf(s'.txns[id]))
    {
      CommittedIsLogged(s, e, id);
    }
  }

  /** The settlement finds its three rows; its amount leaves the account and goes to project and relation. */
  predicate AddsAmount(before: Tables, after: Tables, op: Op) {
    && op.UpdateAccount? && Succeeds(before, op)
    && var (u, p, q) := (op.user, op.project, Quantize(op.cost));
    && u in after.accounts && after.accounts[u].balance == before.accounts[u].balance - q
    && p in after.projects && after.projects[p].consumption == before.projects[p].consumption + q
    && (u, p) in after.relations && after.relations[(u, p)].consumption == before.relations[(u, p)].consumption + q
  }

  /** Every settlement in the log adds its amount to the committed state it found. */
  ghost predicate AllAdded(init: Tables, log: seq<Entry>) {
    forall i :: 0 <= i < |log| && log[i].Settlement? ==>
      AddsAmount(Run(init, OpsOf(log[..i])), Run(init, OpsOf(log[..i + 1])), log[i].call)
  }

  lemma LogSnoc(init: Tables, log: seq<Entry>, entry: Entry)
    ensures Run(init, OpsOf(log + [entry])) == Step(Run(init, OpsOf(log)), entry.call)
  {
    assert OpsOf(log + [entry]) == OpsOf(log) + [entry.call];
    RunSnoc(init, OpsOf(log), entry.call);
  }

  lemma AllAddedSnoc(init: Tables, log: seq<Entry>, entry: Entry)
    requires AllAdded(init, log)
    requires entry.Settlement? ==> entry.call.UpdateAccount? && Succeeds(Run(init, OpsOf(log)), entry.call)
    ensures AllAdded(init, log + [entry])
  {
    var log' := log + [entry];
    LogSnoc(init, log, entry);
    forall i | 0 <= i < |log'| && log'[i].Settlement?
      ensures AddsAmount(Run(init, OpsOf(log'[..i])), Run(init, OpsOf(log'[..i + 1])), log'[i].call)
    {
      if i < |log| {
        assert log'[..i] == log[..i] && log'[..i + 1] == log[..i + 1];
      } else {
        assert log'[..i] == log && log'[..i + 1] == log';
      }
    }
  }

  /** The rows a committing transaction has written were there in the committed state, so its call succeeds there. */
  lemma CommitSucceeds(s: DB, e: Event)
    requires Consistent(s) && e.Commit? && Fire(s, e).Some?
    ensures e.id in s.txns && Succeeds(View(s), CallOf(s.txns[e.id]))
    ensures Fire(s, e).value.log == s.log + [Settlement(e.id, CallOf(s.txns[e.id]))]
  {
    CommitRows(s, e.id);
    CommitView(s, e.id);
  }

  lemma {:induction false} AlwaysAdded(init: DB, es: seq<Event>, s: DB)
    requires Reaches(init, es, s)
    ensures AllAdded(init.rows, s.log)
  {
    if es == [] {
    } else {
      var mid, e := Execute(init, es[..|es| - 1]).value, es[|es| - 1];
      AlwaysAdded(init, es[..|es| - 1], mid);
      Serializable(init, es[..|es| - 1], mid);
      AlwaysSerial(init, es[..|es| - 1], mid);
      FireLog(mid, e);
      if e.Commit? {
        CommitSucceeds(mid, e);
        AllAddedSnoc(init.rows, mid.log, s.log[|mid.log|]);
      } else if s.log != mid.log {
        AllAddedSnoc(init.rows, mid.log, Other(e.op));
      }
    }
  }

  lemma {:induction false} AlwaysLoggedOnce(init: DB, es: seq<Event>, s: DB)
    requires Reaches(init, es, s)
    ensures LoggedOnce(s)
  {
    if es == [] {
    } else {
      AlwaysLoggedOnce(init, es[..|es| - 1], Execute(init, es[..|es| - 1]).value);
      LoggedOnceStep(Execute(init, es[..|es| - 1]).value, es[|es| - 1]);
    }
  }

  /** The transaction makes the call it was begun with. */
  predicate BegunAs(e: Event, id: TxnId, txn: Txn) {
    e.Begin? && e.id == id && e.user == txn.user && e.project == txn.project && e.cost == txn.cost
  }

  /** The call of a transaction is as it was before. */
  predicate SameCall(s: DB, s': DB, id: TxnId)
    requires id in s'.txns
  {
    && id in s.txns && s'.txns[id].user == s.txns[id].user && s'.txns[id].project == s.txns[id].project
    && s'.txns[id].cost == s.txns[id].cost
  }

  lemma WriteKeepsCall(s: DB, e: Event, id: TxnId)
    requires (e.WriteAccount? || e.WriteProject? || e.WriteRelation?) && e.id in s.txns && Advance(s, e).Some?
    requires id in Advance(s, e).value.txns
    ensures SameCall(s, Advance(s, e).value, id)
  {
  }

  lemma OtherKeepsCall(s: DB, e: Event, id: TxnId)
    requires !e.Begin? && !e.Serve? && !e.WriteAccount? && !e.WriteProject? && !e.WriteRelation?
    requires e.id in s.txns && Advance(s, e).Some? && id in Advance(s, e).value.txns
    ensures SameCall(s, Advance(s, e).value, id)
  {
  }

  lemma FireBegun(s: DB, e: Event, id: TxnId)
    requires Fire(s, e).Some? && id in Fire(s, e).value.txns
    ensures BegunAs(e, id, Fire(s, e).value.txns[id]) || SameCall(s, Fire(s, e).value, id)
  {
    if e.WriteAccount? || e.WriteProject? || e.WriteRelation? {
      WriteKeepsCall(s, e, id);
    } else if !e.Begin? && !e.Serve? {
      OtherKeepsCall(s, e, id);
    }
  }

  lemma {:induction false} AlwaysBegun(init: DB, es: seq<Event>, s: DB, id: TxnId) returns (k: nat)
    requires Reaches(init, es, s) && id in s.txns
    ensures k < |es| && BegunAs(es[k], id, s.txns[id])
  {
    var front, e := es[..|es| - 1], es[|es| - 1];
    var mid := Execute(init, front).value;
    FireBegun(mid, e, id);
    if BegunAs(e, id, s.txns[id]) {
      k := |front|;
    } else {
      k := AlwaysBegun(init, front, mid, id);
    }
  }

  /**
   A call that committed is in the log once and added its amount to all three
   rows of the committed state it found; one that did not is not in the log,
   and the committed state is that of the log (Serializable).  User, project and
   cost are those the call was begun with.
   */
  lemma CommittedExactlyOnce(init: DB, es: seq<Event>, s: DB)
    requires Reaches(init, es, s)
    ensures LoggedOnce(s)
    ensures |s.history| == |s.log| + 1 && s.history[0] == init.rows && s.history[|s.log|] == View(s)
    ensures forall i :: 0 <= i < |s.log| && s.log[i].Settlement? ==>
      AddsAmount(s.history[i], s.history[i + 1], s.log[i].call)
    ensures forall id :: id in s.txns ==> exists k :: 0 <= k < |es| && BegunAs(es[k], id, s.txns[id])
  {
    forall id | id in s.txns
      ensures exists k :: 0 <= k < |es| && BegunAs(es[k], id, s.txns[id])
    {
      var k := AlwaysBegun(init, es, s, id);
    }
    AlwaysLoggedOnce(init, es, s);
    AlwaysAdded(init, es, s);
    AlwaysSerial(init, es, s);
    assert OpsOf(s.log[..0]) == [];
  }

  lemma RetriesStep(s: DB, e: Event, id: TxnId)
    requires Fire(s, e).Some? && id in Fire(s, e).value.txns
    requires id in s.txns ==> s.txns[id].retries <= MAX_RETRIES
    ensures Fire(s, e).value.txns[id].retries <= MAX_RETRIES
  {
  }

  /** However many conflicts and deadlocks there are, a call is made at most six times. */
  lemma {:induction false} AtMostFiveRetries(init: DB, es: seq<Event>, s: DB, id: TxnId)
    requires Reaches(init, es, s) && id in s.txns
    ensures s.txns[id].retries <= MAX_RETRIES
  {
    if es == [] {
    } else {
      var mid, e := Execute(init, es[..|es| - 1]).value, es[|es| - 1];
      if id in mid.txns {
        AtMostFiveRetries(init, es[..|es| - 1], mid, id);
      }
      RetriesStep(mid, e, id);
    }
  }

  // ---------- Conflicts are real ----------

  function Lookup<K, V>(rows: map<K, V>, k: K): Option<V> {
    if k in rows then Some(rows[k]) else None
  }

  /** What a transaction has read was once committed. */
  ghost predicate ReadsCommitted(s: DB) {
    forall id :: id in s.txns ==>
      match s.txns[id].phase
      case AccountRead(a) =>
        exists v :: 0 <= v < |s.history| && Lookup(s.history[v].accounts, s.txns[id].user) == Some(a)
      case ProjectRead(p) =>
        exists v :: 0 <= v < |s.history| && Lookup(s.history[v].projects, s.txns[id].project) == Some(p)
      case RelationRead(r) =>
        exists v :: 0 <= v < |s.history| &&
          Lookup(s.history[v].relations, (s.txns[id].user, s.txns[id].project)) == Some(r)
      case _ => true
  }

  /** An event of one transaction leaves the others and the past alone. */
  lemma FireOthers(s: DB, e: Event, id: TxnId)
    requires Fire(s, e).Some? && id in Fire(s, e).value.txns
    ensures var s' := Fire(s, e).value;
      && s.history <= s'.history
      && (|| (id in s.txns && s'.txns[id] == s.txns[id])
          || (match s'.txns[id].phase
              case AccountRead(a) => e.ReadAccount? && e.version < |s.history|
                && Lookup(s.history[e.version].accounts, s'.txns[id].user) == Some(a)
              case ProjectRead(p) => e.ReadProject? && e.version < |s.history|
                && Lookup(s.history[e.version].projects, s'.txns[id].project) == Some(p)
              case RelationRead(r) => e.ReadRelation? && e.version < |s.history|
                && Lookup(s.history[e.version].relations, (s'.txns[id].user, s'.txns[id].project)) == Some(r)
              case _ => true))
  {
  }

  lemma ReadsCommittedStep(s: DB, e: Event)
    requires Fire(s, e).Some? && ReadsCommitted(s)
    ensures ReadsCommitted(Fire(s, e).value)
  {
    var s' := Fire(s, e).value;
    forall id | id in s'.txns
      ensures match s'.txns[id].phase
        case AccountRead(a) =>
          exists v :: 0 <= v < |s'.history| && Lookup(s'.history[v].accounts, s'.txns[id].user) == Some(a)
        case ProjectRead(p) =>
          exists v :: 0 <= v < |s'.history| && Lookup(s'.history[v].projects, s'.txns[id].project) == Some(p)
        case RelationRead(r) =>
          exists v :: 0 <= v < |s'.history| &&
            Lookup(s'.history[v].relations, (s'.txns[id].user, s'.txns[id].project)) == Some(r)
        case _ => true
    {
      FireOthers(s, e, id);
      assert forall v :: 0 <= v < |s.history| ==> s'.history[v] == s.history[v];
    }
  }

  lemma {:induction false} AlwaysReadsCommitted(init: DB, es: seq<Event>, s: DB)
    requires Reaches(init, es, s)
    ensures ReadsCommitted(s)
  {
    if es == [] {
    } else {
      AlwaysReadsCommitted(init, es[..|es| - 1], Execute(init, es[..|es| - 1]).value);
      ReadsCommittedStep(Execute(init, es[..|es| - 1]).value, es[|es| - 1]);
    }
  }

  /** If a row is not as a reader saw it, some commit after that read changed it. */
  lemma {:induction false} ChangedSince<V>(versions: seq<V>, v: nat, last: nat) returns (w: nat)
    requires v <= last < |versions| && versions[v] != versions[last]
    ensures v < w <= last && versions[w] != versions[w - 1]
    decreases last
  {
    if versions[last] != versions[last - 1] {
      w := last;
    } else {
      w := ChangedSince(versions, v, last - 1);
    }
  }

  function AccountVersions(history: seq<Tables>, u: UserId): (r: seq<Option<Account>>)
    ensures |r| == |history|
  {
    seq(|history|, i requires 0 <= i < |history| => Lookup(history[i].accounts, u))
  }

  function ProjectVersions(history: seq<Tables>, p: ProjectId): (r: seq<Option<Project>>)
    ensures |r| == |history|
  {
    seq(|history|, i requires 0 <= i < |history| => Lookup(history[i].projects, p))
  }

  function RelationVersions(history: seq<Tables>, k: (UserId, ProjectId)): (r: seq<Option<Relation>>)
    ensures |r| == |history|
  {
    seq(|history|, i requires 0 <= i < |history| => Lookup(history[i].relations, k))
  }

  ghost predicate ChangedAfter<V>(versions: seq<Option<V>>, v: nat) {
    exists w :: v < w < |versions| && versions[w] != versions[w - 1]
  }

  /** The row was committed as read, and whichever commit it was read after, a later one changed it. */
  ghost predicate ChangedAfterRead<V>(versions: seq<Option<V>>, read: V) {
    && Some(read) in versions
    && forall v :: 0 <= v < |versions| && versions[v] == Some(read) ==> ChangedAfter(versions, v)
  }

  /** Of the versions of a row up to the current one, the current one is not the one read. */
  lemma Changed<V>(versions: seq<Option<V>>, read: V)
    requires Some(read) in versions && versions[|versions| - 1] != Some(read)
    ensures ChangedAfterRead(versions, read)
  {
    forall v | 0 <= v < |versions| && versions[v] == Some(read)
      ensures ChangedAfter(versions, v)
    {
      var w := ChangedSince(versions, v, |versions| - 1);
    }
  }

  lemma UnlockedIsCommitted<K, V>(rows: map<K, V>, locks: map<K, Lock<V>>, k: K)
    requires k !in locks
    ensures Lookup(CommittedRows(rows, locks), k) == Lookup(rows, k)
  {
  }

  /** The transaction waits for no lock, and the filter of its next update finds no row. */
  predicate Conflicts(s: DB, id: TxnId)
    requires id in s.txns
  {
    var Txn(u, p, cost, _, _, phase) := s.txns[id];
    match phase
    case AccountRead(a) =>
      u !in s.accountLocks && (u in s.rows.accounts ==> !AccountMatches(a, s.rows.accounts[u], Quantize(cost)))
    case ProjectRead(r) =>
      p !in s.projectLocks && (p in s.rows.projects ==> !ProjectMatches(r, s.rows.projects[p]))
    case RelationRead(r) =>
      (u, p) !in s.relationLocks
      && ((u, p) in s.rows.relations ==> !RelationMatches(r, s.rows.relations[(u, p)]))
    case _ => false
  }

  /** The committed states up to now, what transactions have read among them, and a transaction in conflict. */
  ghost predicate InConflict(s: DB, id: TxnId) {
    && s.history != [] && View(s) == s.history[|s.history| - 1] && ReadsCommitted(s)
    && id in s.txns && Conflicts(s, id)
  }

  lemma AccountConflict(s: DB, id: TxnId)
    requires InConflict(s, id) && s.txns[id].phase.AccountRead?
    ensures ChangedAfterRead(AccountVersions(s.history, s.txns[id].user), s.txns[id].phase.account)
  {
    var k, read := s.txns[id].user, s.txns[id].phase.account;
    var v :| 0 <= v < |s.history| && Lookup(s.history[v].accounts, k) == Some(read);
    UnlockedIsCommitted(s.rows.accounts, s.accountLocks, k);
    assert AccountVersions(s.history, k)[v] == Some(read);
    Changed(AccountVersions(s.history, k), read);
  }

  lemma ProjectConflict(s: DB, id: TxnId)
    requires InConflict(s, id) && s.txns[id].phase.ProjectRead?
    ensures ChangedAfterRead(ProjectVersions(s.history, s.txns[id].project), s.txns[id].phase.project)
  {
    var k, read := s.txns[id].project, s.txns[id].phase.project;
    var v :| 0 <= v < |s.history| && Lookup(s.history[v].projects, k) == Some(read);
    UnlockedIsCommitted(s.rows.projects, s.projectLocks, k);
    assert ProjectVersions(s.history, k)[v] == Some(read);
    Changed(ProjectVersions(s.history, k), read);
  }

  lemma RelationConflict(s: DB, id: TxnId)
    requires InConflict(s, id) && s.txns[id].phase.RelationRead?
    ensures var k := (s.txns[id].user, s.txns[id].project);
      ChangedAfterRead(RelationVersions(s.history, k), s.txns[id].phase.relation)
  {
    var k, read := (s.txns[id].user, s.txns[id].project), s.txns[id].phase.relation;
    var v :| 0 <= v < |s.history| && Lookup(s.history[v].relations, k) == Some(read);
    UnlockedIsCommitted(s.rows.relations, s.relationLocks, k);
    assert RelationVersions(s.history, k)[v] == Some(read);
    Changed(RelationVersions(s.history, k), read);
  }

  /**
   A conditional update that could go ahead and finds no row to write means
   that another call committed a change to that row since it was read.
   */
  lemma ConflictMeansCommit(init: DB, es: seq<Event>, s: DB, id: TxnId)
    requires Reaches(init, es, s) && id in s.txns && Conflicts(s, id)
    ensures var Txn(u, p, _, _, _, phase) := s.txns[id];
      match phase
      case AccountRead(a) => ChangedAfterRead(AccountVersions(s.history, u), a)
      case ProjectRead(r) => ChangedAfterRead(ProjectVersions(s.history, p), r)
      case RelationRead(r) => ChangedAfterRead(RelationVersions(s.history, (u, p)), r)
      case _ => false
  {
    AlwaysSerial(init, es, s);
    AlwaysReadsCommitted(init, es, s);
    match s.txns[id].phase
    case AccountRead(_) => AccountConflict(s, id);
    case ProjectRead(_) => ProjectConflict(s, id);
    case RelationRead(_) => RelationConflict(s, id);
  }
}

/**
 update_account statement by statement: _update_params and wrap_db_retry in
 shadowfiend/db/sqlalchemy/api.py, under any interleaving with other calls.

 A transaction reads a row as some committed state showed it, however old,
 then writes the row only where the values it read are still there, and keeps
 the row locked until it commits or rolls back.  Writes are made in place, and
 a lock remembers the row to restore.  Every other call is one step.
 */
module Transactions {
  import opened Wrappers
  import opened Money
  import opened Tables

  type TxnId = nat

  const MAX_RETRIES := 5

  datatype Phase =
    | Started
    | AccountRead(account: Account)
    | AccountWritten
    | ProjectRead(project: Project)
    | ProjectWritten
    | RelationRead(relation: Relation)
    | RelationWritten
    | Committed
    | Abandoned

  /** One call of update_account: its arguments, the clock of the current attempt, and how far it got. */
  datatype Txn = Txn(user: UserId, project: ProjectId, cost: real, now: int, retries: nat, phase: Phase)

  /** A row lock: who holds it, and the row as it was before. */
  datatype Lock<V> = Lock(owner: TxnId, before: V)

  datatype Entry = Settlement(id: TxnId, call: Op) | Other(call: Op)

  /** `history` lists the committed states, `log` the committed calls in commit order. */
  datatype DB = DB(
    rows: Tables,
    accountLocks: map<UserId, Lock<Account>>,
    projectLocks: map<ProjectId, Lock<Project>>,
    relationLocks: map<(UserId, ProjectId), Lock<Relation>>,
    txns: map<TxnId, Txn>,
    history: seq<Tables>,
    log: seq<Entry>)

  datatype Event =
    | Begin(id: TxnId, user: UserId, project: ProjectId, cost: real, clock: int)
    | ReadAccount(id: TxnId, version: nat)
    | WriteAccount(id: TxnId, clock: int)
    | ReadProject(id: TxnId, version: nat)
    | WriteProject(id: TxnId, clock: int)
    | ReadRelation(id: TxnId, version: nat)
    | WriteRelation(id: TxnId, clock: int)
    | Commit(id: TxnId)
    | Deadlock(id: TxnId, clock: int)
    | Die(id: TxnId)
    | Serve(op: Op)

  function CallOf(txn: Txn): Op {
    UpdateAccount(txn.user, txn.project, txn.cost, txn.now)
  }

  // ---------- Rows, locks and what is committed ----------

  function CommittedRows<K, V>(rows: map<K, V>, locks: map<K, Lock<V>>): map<K, V> {
    map k | k in rows :: if k in locks then locks[k].before else rows[k]
  }

  /** What a reader that sees only committed data sees. */
  function View(s: DB): Tables {
    Tables(CommittedRows(s.rows.accounts, s.accountLocks),
           CommittedRows(s.rows.projects, s.projectLocks),
           CommittedRows(s.rows.relations, s.relationLocks),
           s.rows.charges)
  }

  function Restore<K, V>(rows: map<K, V>, locks: map<K, Lock<V>>, id: TxnId): map<K, V> {
    map k | k in rows :: if k in locks && locks[k].owner == id then locks[k].before else rows[k]
  }

  function Release<K, V>(locks: map<K, Lock<V>>, id: TxnId): map<K, Lock<V>> {
    map k | k in locks && locks[k].owner != id :: locks[k]
  }

  function Goto(s: DB, id: TxnId, phase: Phase): DB
    requires id in s.txns
  {
    s.(txns := s.txns[id := s.txns[id].(phase := phase)])
  }

  function Unlock(s: DB, id: TxnId): DB {
    s.(accountLocks := Release(s.accountLocks, id),
       projectLocks := Release(s.projectLocks, id),
       relationLocks := Release(s.relationLocks, id))
  }

  function Rollback(s: DB, id: TxnId): DB {
    Unlock(s, id).(rows := Tables(Restore(s.rows.accounts, s.accountLocks, id),
                                  Restore(s.rows.projects, s.projectLocks, id),
                                  Restore(s.rows.relations, s.relationLocks, id),
                                  s.rows.charges))
  }

  /** An exception that is not retried, or the loss of process or connection: the attempt is undone. */
  function GiveUp(s: DB, id: TxnId): DB
    requires id in s.txns
  {
    Goto(Rollback(s, id), id, Abandoned)
  }

  /** A conflict or a deadlock: the attempt is undone, and made again up to five times. */
  function Retry(s: DB, id: TxnId, clock: int): DB
    requires id in s.txns
  {
    var txn := s.txns[id];
    if txn.retries < MAX_RETRIES
    then Rollback(s, id).(txns := s.txns[id := txn.(now := clock, retries := txn.retries + 1, phase := Started)])
    else GiveUp(s, id)
  }

  // ---------- The filters of the conditional updates ----------

  /** The columns written are the columns compared: owed and owed_at only when the balance goes negative. */
  predicate AccountMatches(read: Account, row: Account, amount: int) {
    && row.balance == read.balance
    && row.consumption == read.consumption
    && row.updatedAt == read.updatedAt
    && (read.balance - amount < 0 ==> row.owed == read.owed && row.owedAt == read.owedAt)
  }

  /** The row with the columns computed from the values read. */
  function WrittenAccount(read: Account, row: Account, amount: int, now: int): Account {
    var balance := read.balance - amount;
    var row' := row.(balance := balance, consumption := amount, updatedAt := Some(now));
    if balance < 0 then row'.(owed := true, owedAt := Some(now)) else row'
  }

  predicate ProjectMatches(read: Project, row: Project) {
    row.consumption == read.consumption && row.updatedAt == read.updatedAt
  }

  predicate RelationMatches(read: Relation, row: Relation) {
    row.consumption == read.consumption && row.updatedAt == read.updatedAt
  }

  // ---------- Events ----------

  /** The rows a call other than a settlement writes or deletes are free. */
  predicate Free(s: DB, op: Op) {
    match op
    case CreateAccount(u, _, _, _) => u !in s.accountLocks
    case ChargeAccount(u, _, _, _, _) => u !in s.accountLocks
    case UpdateAccount(_, _, _, _) => false
    case CreateProject(p, u, _, _) => p !in s.projectLocks && (u, p) !in s.relationLocks
    case ChangeBillingOwner(p, u, _) => p !in s.projectLocks && (u, p) !in s.relationLocks
    case ChangeAccountLevel(u, _) => u !in s.accountLocks
    case DeleteAccount(u) =>
      && u !in s.accountLocks
      && (forall p :: p in s.projectLocks && p in s.rows.projects ==> s.rows.projects[p].payer != u)
      && (forall k :: k in s.relationLocks ==> k.0 != u)
  }

  function Publish(s: DB, entry: Entry): DB {
    s.(history := s.history + [View(s)], log := s.log + [entry])
  }

  /** The state after an event; None when it cannot happen, as when a write waits for a lock. */
  function Fire(s: DB, e: Event): Option<DB> {
    match e
    case Begin(id, u, p, cost, clock) =>
      if id in s.txns then None else Some(s.(txns := s.txns[id := Txn(u, p, cost, clock, 0, Started)]))
    case Serve(op) =>
      if Free(s, op) then Some(Publish(s.(rows := Step(s.rows, op)), Other(op))) else None
    case _ =>
      if e.id in s.txns then Advance(s, e) else None
  }

  function Advance(s: DB, e: Event): Option<DB>
    requires !e.Begin? && !e.Serve? && e.id in s.txns
  {
    var id := e.id;
    var Txn(u, p, cost, now, _, phase) := s.txns[id];
    match e
    case ReadAccount(_, v) =>
      if !phase.Started? || v >= |s.history| then None
      else if u !in s.history[v].accounts then Some(GiveUp(s, id))
      else Some(Goto(s, id, AccountRead(s.history[v].accounts[u])))
    case WriteAccount(_, clock) =>
      if !phase.AccountRead? || u in s.accountLocks then None
      else if u !in s.rows.accounts || !AccountMatches(phase.account, s.rows.accounts[u], Quantize(cost))
      then Some(Retry(s, id, clock))
      else
        var row := s.rows.accounts[u];
        var written := WrittenAccount(phase.account, row, Quantize(cost), now);
        Some(Goto(s, id, AccountWritten).(rows := s.rows.(accounts := s.rows.accounts[u := written]),
                                          accountLocks := s.accountLocks[u := Lock(id, row)]))
    case ReadProject(_, v) =>
      if !phase.AccountWritten? || v >= |s.history| then None
      else if p !in s.history[v].projects then Some(GiveUp(s, id))
      else Some(Goto(s, id, ProjectRead(s.history[v].projects[p])))
    case WriteProject(_, clock) =>
      if !phase.ProjectRead? || p in s.projectLocks then None
      else if p !in s.rows.projects || !ProjectMatches(phase.project, s.rows.projects[p]) then Some(Retry(s, id, clock))
      else
        var row := s.rows.projects[p];
        var written := row.(consumption := phase.project.consumption + Quantize(cost), updatedAt := now);
        Some(Goto(s, id, ProjectWritten).(rows := s.rows.(projects := s.rows.projects[p := written]),
                                          projectLocks := s.projectLocks[p := Lock(id, row)]))
    case ReadRelation(_, v) =>
      if !phase.ProjectWritten? || v >= |s.history| then None
      else if (u, p) !in s.history[v].relations then Some(GiveUp(s, id))
      else Some(Goto(s, id, RelationRead(s.history[v].relations[(u, p)])))
    case WriteRelation(_, clock) =>
      if !phase.RelationRead? || (u, p) in s.relationLocks then None
      else if (u, p) !in s.rows.relations || !RelationMatches(phase.relation, s.rows.relations[(u, p)])
      then Some(Retry(s, id, clock))
      else
        var row := s.rows.relations[(u, p)];
        var written := Relation(phase.relation.consumption + Quantize(cost), now);
        Some(Goto(s, id, RelationWritten).(rows := s.rows.(relations := s.rows.relations[(u, p) := written]),
                                           relationLocks := s.relationLocks[(u, p) := Lock(id, row)]))
    case Commit(_) =>
      if !phase.RelationWritten? then None
      else Some(Publish(Goto(Unlock(s, id), id, Committed), Settlement(id, CallOf(s.txns[id]))))
    case Deadlock(_, clock) =>
      if phase.Committed? || phase.Abandoned? then None else Some(Retry(s, id, clock))
    case Die(_) =>
      if phase.Committed? || phase.Abandoned? then None else Some(GiveUp(s, id))
  }

  predicate Init(s: DB) {
    && s.accountLocks == map[] && s.projectLocks == map[] && s.relationLocks == map[] && s.txns == map[]
    && s.history == [s.rows] && s.log == []
  }

  function Execute(s: DB, es: seq<Event>): Option<DB> {
    if es == [] then Some(s) else
      match Execute(s, es[..|es| - 1])
      case None => None
      case Some(mid) => Fire(mid, es[|es| - 1])
  }

  ghost predicate Reaches(init: DB, es: seq<Event>, s: DB) {
    Init(init) && Execute(init, es) == Some(s)
  }

  // ---------- The invariant ----------

  predicate HoldsAccount(phase: Phase) {
    phase.AccountWritten? || phase.ProjectRead? || HoldsProject(phase)
  }

  predicate HoldsProject(phase: Phase) {
    phase.ProjectWritten? || phase.RelationRead? || HoldsRelation(phase)
  }

  predicate HoldsRelation(phase: Phase) {
    phase.RelationWritten?
  }

  /** A transaction's claim on a row it has written: the row, and what it settles on it. */
  datatype Claim<K> = Claim(key: K, amount: int, now: int)

  function AccountClaims(txns: map<TxnId, Txn>): map<TxnId, Claim<UserId>> {
    map id | id in txns && HoldsAccount(txns[id].phase) :: Claim(txns[id].user, Quantize(txns[id].cost), txns[id].now)
  }

  function ProjectClaims(txns: map<TxnId, Txn>): map<TxnId, Claim<ProjectId>> {
    map id | id in txns && HoldsProject(txns[id].phase) ::
      Claim(txns[id].project, Quantize(txns[id].cost), txns[id].now)
  }

  function RelationClaims(txns: map<TxnId, Txn>): map<TxnId, Claim<(UserId, ProjectId)>> {
    map id | id in txns && HoldsRelation(txns[id].phase) ::
      Claim((txns[id].user, txns[id].project), Quantize(txns[id].cost), txns[id].now)
  }

  function ProjectSettled(p: Project, amount: int, now: int): Project {
    p.(consumption := p.consumption + amount, updatedAt := now)
  }

  function RelationSettled(r: Relation, amount: int, now: int): Relation {
    Relation(r.consumption + amount, now)
  }

  /**
   Locks and claims match one to one, and a locked row is the row as it was
   before with the claim of its owner applied.
   */
  ghost predicate TableOK<K, V>(rows: map<K, V>, locks: map<K, Lock<V>>, claims: map<TxnId, Claim<K>>,
                                settle: (V, int, int) -> V)
  {
    && (forall k :: k in locks ==>
          && k in rows && locks[k].owner in claims && claims[locks[k].owner].key == k
          && rows[k] == settle(locks[k].before, claims[locks[k].owner].amount, claims[locks[k].owner].now))
    && (forall id :: id in claims ==> claims[id].key in locks && locks[claims[id].key].owner == id)
  }

  ghost predicate Consistent(s: DB) {
    && TableOK(s.rows.accounts, s.accountLocks, AccountClaims(s.txns), Settled)
    && TableOK(s.rows.projects, s.projectLocks, ProjectClaims(s.txns), ProjectSettled)
    && TableOK(s.rows.relations, s.relationLocks, RelationClaims(s.txns), RelationSettled)
  }

  /** A settlement is in the log exactly when its transaction has committed, and then once. */
  ghost predicate LoggedOnce(s: DB) {
    && (forall i :: 0 <= i < |s.log| && s.log[i].Settlement? ==>
          var id := s.log[i].id;
          id in s.txns && s.txns[id].phase.Committed? && s.log[i].call == CallOf(s.txns[id]))
    && (forall id :: id in s.txns && s.txns[id].phase.Committed? ==>
          exists i :: 0 <= i < |s.log| && s.log[i] == Settlement(id, CallOf(s.txns[id])))
    && (forall i, j :: 0 <= i < j < |s.log| && s.log[i].Settlement? && s.log[j].Settlement? ==>
          s.log[i].id != s.log[j].id)
  }

  function OpsOf(log: seq<Entry>): (ops: seq<Op>)
    ensures |ops| == |log|
  {
    seq(|log|, i requires 0 <= i < |log| => log[i].call)
  }
}

/**
 That settlements get through: a settlement whose rows nobody holds commits, a
 conflict or a deadlock starts the call again, and a call is given up exactly
 when it should be.
 */
module RetryLaws {
  import opened Wrappers
  import opened Money
  import opened Tables
  import opened Transactions
  import opened TransactionLaws

  // ---------- What sets a call back ----------

  predicate Concerns(e: Event, id: TxnId) {
    !e.Serve? && e.id == id
  }

  predicate Writes(e: Event) {
    e.WriteAccount? || e.WriteProject? || e.WriteRelation?
  }

  /** The call meets a conflict or a deadlock. */
  predicate SetsBack(s: DB, e: Event, id: TxnId) {
    Concerns(e, id) && id in s.txns && (e.Deadlock? || (Writes(e) && Conflicts(s, id)))
  }

  /** The version read lacks the row, or the process dies. */
  predicate Ruins(s: DB, e: Event, id: TxnId) {
    && Concerns(e, id) && id in s.txns
    && var u, p := s.txns[id].user, s.txns[id].project;
    match e
    case ReadAccount(_, v) => v < |s.history| && u !in s.history[v].accounts
    case ReadProject(_, v) => v < |s.history| && p !in s.history[v].projects
    case ReadRelation(_, v) => v < |s.history| && (u, p) !in s.history[v].relations
    case Die(_) => true
    case _ => false
  }

  /** How often the call of id has been set back. */
  function Setbacks(init: DB, es: seq<Event>, id: TxnId): nat {
    if es == [] then 0 else
      var front, e := es[..|es| - 1], es[|es| - 1];
      match Execute(init, front)
      case None => 0
      case Some(mid) => Setbacks(init, front, id) + if SetsBack(mid, e, id) then 1 else 0
  }

  /** Whether some event has ruined the call of id. */
  predicate Ruined(init: DB, es: seq<Event>, id: TxnId) {
    es != [] &&
    var front, e := es[..|es| - 1], es[|es| - 1];
    match Execute(init, front)
    case None => false
    case Some(mid) => Ruined(init, front, id) || Ruins(mid, e, id)
  }

  /** The clock of the attempt under way: that of the begin, or of the last setback. */
  function AttemptClock(init: DB, es: seq<Event>, id: TxnId): int {
    if es == [] then 0 else
      var front, e := es[..|es| - 1], es[|es| - 1];
      match Execute(init, front)
      case None => 0
      case Some(mid) =>
        if e.Begin? && e.id == id then e.clock
        else if SetsBack(mid, e, id) then e.clock
        else AttemptClock(init, front, id)
  }

  // ---------- One event ----------

  /** A setback starts the call again with a new clock reading; the sixth gives it up. */
  predicate SetBack(txn: Txn, txn': Txn, clock: int) {
    && !txn.phase.Abandoned?
    && txn' == if txn.retries < 5 then txn.(now := clock, retries := txn.retries + 1, phase := Started)
               else txn.(phase := Abandoned)
  }

  lemma DeadlockSetsBack(s: DB, e: Event)
    requires Fire(s, e).Some? && e.Deadlock?
    ensures e.id in s.txns && e.id in Fire(s, e).value.txns
    ensures SetBack(s.txns[e.id], Fire(s, e).value.txns[e.id], e.clock)
  {
  }

  lemma ConflictSetsBack(s: DB, e: Event)
    requires Fire(s, e).Some? && Writes(e) && e.id in s.txns && Conflicts(s, e.id)
    ensures e.id in Fire(s, e).value.txns
    ensures SetBack(s.txns[e.id], Fire(s, e).value.txns[e.id], e.clock)
  {
  }

  lemma RuinGivesUp(s: DB, e: Event, id: TxnId)
    requires Fire(s, e).Some? && Ruins(s, e, id)
    ensures id in Fire(s, e).value.txns
    ensures !s.txns[id].phase.Abandoned? && Fire(s, e).value.txns[id] == s.txns[id].(phase := Abandoned)
  {
  }

  /** The call of a transaction goes on: attempt, clock and fate stay as they are. */
  predicate GoesOn(s: DB, s': DB, id: TxnId) {
    && id in s.txns && id in s'.txns
    && s'.txns[id].retries == s.txns[id].retries && s'.txns[id].now == s.txns[id].now
    && s'.txns[id].phase.Abandoned? == s.txns[id].phase.Abandoned?
  }

  lemma WriteGoesOn(s: DB, e: Event, id: TxnId)
    requires Writes(e) && e.id in s.txns && Advance(s, e).Some? && id in s.txns && !SetsBack(s, e, id)
    ensures GoesOn(s, Advance(s, e).value, id)
  {
  }

  lemma OtherGoesOn(s: DB, e: Event, id: TxnId)
    requires !e.Begin? && !e.Serve? && !Writes(e) && e.id in s.txns && Advance(s, e).Some?
    requires id in s.txns && !SetsBack(s, e, id) && !Ruins(s, e, id)
    ensures GoesOn(s, Advance(s, e).value, id)
  {
  }

  lemma FireGoesOn(s: DB, e: Event, id: TxnId)
    requires Fire(s, e).Some? && id in s.txns && !SetsBack(s, e, id) && !Ruins(s, e, id)
    ensures GoesOn(s, Fire(s, e).value, id)
  {
    if Writes(e) {
      WriteGoesOn(s, e, id);
    } else if !e.Begin? && !e.Serve? {
      OtherGoesOn(s, e, id);
    }
  }

  lemma FireBegins(s: DB, e: Event, id: TxnId)
    requires Fire(s, e).Some? && id !in s.txns
    ensures var s' := Fire(s, e).value;
      id in s'.txns ==> e.Begin? && e.id == id && s'.txns[id] == Txn(e.user, e.project, e.cost, e.clock, 0, Started)
  {
  }

  // ---------- Over runs ----------

  /** What the events so far mean for the call of id. */
  ghost predicate Fate(init: DB, es: seq<Event>, s: DB, id: TxnId) {
    var n := Setbacks(init, es, id);
    if id in s.txns then
      && n <= 6 && s.txns[id].retries == (if n == 6 then 5 else n)
      && (s.txns[id].phase.Abandoned? <==> n == 6 || Ruined(init, es, id))
      && (n < 6 ==> s.txns[id].now == AttemptClock(init, es, id))
    else n == 0 && !Ruined(init, es, id)
  }

  lemma FateSnoc(init: DB, front: seq<Event>, e: Event, mid: DB, id: TxnId)
    requires Execute(init, front) == Some(mid)
    ensures var es := front + [e];
      && Setbacks(init, es, id) == Setbacks(init, front, id) + (if SetsBack(mid, e, id) then 1 else 0)
      && (Ruined(init, es, id) <==> Ruined(init, front, id) || Ruins(mid, e, id))
      && AttemptClock(init, es, id) ==
           (if (e.Begin? && e.id == id) || SetsBack(mid, e, id) then e.clock else AttemptClock(init, front, id))
  {
    assert (front + [e])[..|front|] == front;
  }

  lemma FateStep(init: DB, front: seq<Event>, e: Event, mid: DB, id: TxnId)
    requires Execute(init, front) == Some(mid) && Fire(mid, e).Some? && Fate(init, front, mid, id)
    ensures Fate(init, front + [e], Fire(mid, e).value, id)
  {
    FateSnoc(init, front, e, mid, id);
    if id !in mid.txns {
      FireBegins(mid, e, id);
    } else if SetsBack(mid, e, id) {
      if e.Deadlock? {
        DeadlockSetsBack(mid, e);
      } else {
        ConflictSetsBack(mid, e);
      }
    } else if Ruins(mid, e, id) {
      RuinGivesUp(mid, e, id);
    } else {
      FireGoesOn(mid, e, id);
      assert !(e.Begin? && e.id == id);
    }
  }

  lemma {:induction false} AlwaysFate(init: DB, es: seq<Event>, s: DB, id: TxnId)
    requires Reaches(init, es, s)
    ensures Fate(init, es, s, id)
  {
    if es == [] {
    } else {
      var front, e := es[..|es| - 1], es[|es| - 1];
      AlwaysFate(init, front, Execute(init, front).value, id);
      FateStep(init, front, e, Execute(init, front).value, id);
      assert front + [e] == es;
    }
  }

  /**
   A call is given up if and only if its process died, a row was missing where it
   looked, or it was set back six times; until then every setback starts it again,
   and the attempt under way carries the clock of the last one.
   */
  lemma GivenUpIff(init: DB, es: seq<Event>, s: DB, id: TxnId)
    requires Reaches(init, es, s) && id in s.txns
    ensures Setbacks(init, es, id) <= 6
    ensures s.txns[id].phase.Abandoned? <==> Setbacks(init, es, id) == 6 || Ruined(init, es, id)
    ensures s.txns[id].retries == if Setbacks(init, es, id) == 6 then 5 else Setbacks(init, es, id)
    ensures !s.txns[id].phase.Abandoned? ==> s.txns[id].now == AttemptClock(init, es, id)
  {
    AlwaysFate(init, es, s, id);
  }

  // ---------- Settlements get through ----------

  /** A reachable state, seen at its last committed version. */
  ghost predicate UpToDate(s: DB) {
    Consistent(s) && |s.history| == |s.log| + 1 && View(s) == s.history[|s.log|]
  }

  /** The rows the call of id needs are there, and nobody holds those it has yet to write. */
  ghost predicate Clear(s: DB, id: TxnId) {
    && id in s.txns
    && var Txn(u, p, _, _, _, phase) := s.txns[id];
    && u in s.rows.accounts && p in s.rows.projects && (u, p) in s.rows.relations
    && (!HoldsAccount(phase) ==> u !in s.accountLocks)
    && (!HoldsProject(phase) ==> p !in s.projectLocks)
    && (!HoldsRelation(phase) ==> (u, p) !in s.relationLocks)
  }

  lemma Extend(init: DB, es: seq<Event>, s: DB, e: Event)
    requires Execute(init, es) == Some(s)
    ensures Execute(init, es + [e]) == Fire(s, e)
  {
  }

  lemma FindsAccount(s: DB, id: TxnId)
    requires UpToDate(s) && Clear(s, id) && s.txns[id].phase.Started?
    ensures Fire(s, ReadAccount(id, |s.log|)) == Some(Goto(s, id, AccountRead(s.rows.accounts[s.txns[id].user])))
  {
    UnlockedIsCommitted(s.rows.accounts, s.accountLocks, s.txns[id].user);
  }

  lemma GetAccount(s: DB, id: TxnId)
    requires UpToDate(s) && Clear(s, id) && s.txns[id].phase.Started?
    ensures var s' := Goto(s, id, AccountRead(s.rows.accounts[s.txns[id].user]));
      Fire(s, ReadAccount(id, |s.log|)) == Some(s') && UpToDate(s') && Clear(s', id)
  {
    FindsAccount(s, id);
    ReadQuiet(s, id, AccountRead(s.rows.accounts[s.txns[id].user]));
  }

  lemma FindsProject(s: DB, id: TxnId)
    requires UpToDate(s) && Clear(s, id) && s.txns[id].phase.AccountWritten?
    ensures Fire(s, ReadProject(id, |s.log|)) == Some(Goto(s, id, ProjectRead(s.rows.projects[s.txns[id].project])))
  {
    UnlockedIsCommitted(s.rows.projects, s.projectLocks, s.txns[id].project);
  }

  lemma GetProject(s: DB, id: TxnId)
    requires UpToDate(s) && Clear(s, id) && s.txns[id].phase.AccountWritten?
    ensures var s' := Goto(s, id, ProjectRead(s.rows.projects[s.txns[id].project]));
      Fire(s, ReadProject(id, |s.log|)) == Some(s') && UpToDate(s') && Clear(s', id)
  {
    FindsProject(s, id);
    ReadQuiet(s, id, ProjectRead(s.rows.projects[s.txns[id].project]));
  }

  lemma FindsRelation(s: DB, id: TxnId)
    requires UpToDate(s) && Clear(s, id) && s.txns[id].phase.ProjectWritten?
    ensures var k := (s.txns[id].user, s.txns[id].project);
      Fire(s, ReadRelation(id, |s.log|)) == Some(Goto(s, id, RelationRead(s.rows.relations[k])))
  {
    UnlockedIsCommitted(s.rows.relations, s.relationLocks, (s.txns[id].user, s.txns[id].project));
  }

  lemma GetRelation(s: DB, id: TxnId)
    requires UpToDate(s) && Clear(s, id) && s.txns[id].phase.ProjectWritten?
    ensures var s' := Goto(s, id, RelationRead(s.rows.relations[(s.txns[id].user, s.txns[id].project)]));
      Fire(s, ReadRelation(id, |s.log|)) == Some(s') && UpToDate(s') && Clear(s', id)
  {
    FindsRelation(s, id);
    ReadQuiet(s, id, RelationRead(s.rows.relations[(s.txns[id].user, s.txns[id].project)]));
  }

  lemma WroteAccountClear(s: DB, id: TxnId)
    requires UpToDate(s) && Clear(s, id) && s.txns[id].phase == AccountRead(s.rows.accounts[s.txns[id].user])
    ensures Clear(WroteAccount(s, id), id)
  {
  }

  lemma FiresAccount(s: DB, id: TxnId, clock: int)
    requires UpToDate(s) && Clear(s, id) && s.txns[id].phase == AccountRead(s.rows.accounts[s.txns[id].user])
    ensures Fire(s, WriteAccount(id, clock)) == Some(WroteAccount(s, id))
  {
  }

  lemma PutAccount(s: DB, id: TxnId, clock: int)
    requires UpToDate(s) && Clear(s, id) && s.txns[id].phase == AccountRead(s.rows.accounts[s.txns[id].user])
    ensures var s' := WroteAccount(s, id);
      Fire(s, WriteAccount(id, clock)) == Some(s') && UpToDate(s') && Clear(s', id)
  {
    FiresAccount(s, id, clock);
    WroteAccountQuiet(s, id);
    WroteAccountClear(s, id);
  }

  lemma WroteProjectClear(s: DB, id: TxnId)
    requires UpToDate(s) && Clear(s, id) && s.txns[id].phase == ProjectRead(s.rows.projects[s.txns[id].project])
    ensures Clear(WroteProject(s, id), id)
  {
  }

  lemma FiresProject(s: DB, id: TxnId, clock: int)
    requires UpToDate(s) && Clear(s, id) && s.txns[id].phase == ProjectRead(s.rows.projects[s.txns[id].project])
    ensures Fire(s, WriteProject(id, clock)) == Some(WroteProject(s, id))
  {
  }

  lemma PutProject(s: DB, id: TxnId, clock: int)
    requires UpToDate(s) && Clear(s, id) && s.txns[id].phase == ProjectRead(s.rows.projects[s.txns[id].project])
    ensures var s' := WroteProject(s, id);
      Fire(s, WriteProject(id, clock)) == Some(s') && UpToDate(s') && Clear(s', id)
  {
    FiresProject(s, id, clock);
    WroteProjectQuiet(s, id);
    WroteProjectClear(s, id);
  }

  lemma WroteRelationClear(s: DB, id: TxnId)
    requires UpToDate(s) && Clear(s, id)
    requires s.txns[id].phase == RelationRead(s.rows.relations[(s.txns[id].user, s.txns[id].project)])
    ensures Clear(WroteRelation(s, id), id)
  {
  }

  lemma FiresRelation(s: DB, id: TxnId, clock: int)
    requires UpToDate(s) && Clear(s, id)
    requires s.txns[id].phase == RelationRead(s.rows.relations[(s.txns[id].user, s.txns[id].project)])
    ensures Fire(s, WriteRelation(id, clock)) == Some(WroteRelation(s, id))
  {
  }

  lemma PutRelation(s: DB, id: TxnId, clock: int)
    requires UpToDate(s) && Clear(s, id)
    requires s.txns[id].phase == RelationRead(s.rows.relations[(s.txns[id].user, s.txns[id].project)])
    ensures var s' := WroteRelation(s, id);
      Fire(s, WriteRelation(id, clock)) == Some(s') && UpToDate(s') && Clear(s', id)
  {
    FiresRelation(s, id, clock);
    WroteRelationQuiet(s, id);
    WroteRelationClear(s, id);
  }

  /** The account is read and written. */
  lemma AccountDone(init: DB, es: seq<Event>, s: DB, id: TxnId, clock: int) returns (s': DB)
    requires Execute(init, es) == Some(s) && UpToDate(s) && Clear(s, id) && s.txns[id].phase.Started?
    ensures Execute(init, es + [ReadAccount(id, |s.log|)] + [WriteAccount(id, clock)]) == Some(s')
    ensures UpToDate(s') && Clear(s', id) && s'.history == s.history && s'.log == s.log
    ensures s'.txns[id] == s.txns[id].(phase := AccountWritten)
  {
    GetAccount(s, id);
    var s1 := Goto(s, id, AccountRead(s.rows.accounts[s.txns[id].user]));
    Extend(init, es, s, ReadAccount(id, |s.log|));
    PutAccount(s1, id, clock);
    s' := WroteAccount(s1, id);
    Extend(init, es + [ReadAccount(id, |s.log|)], s1, WriteAccount(id, clock));
  }

  lemma ProjectDone(init: DB, es: seq<Event>, s: DB, id: TxnId, clock: int) returns (s': DB)
    requires Execute(init, es) == Some(s) && UpToDate(s) && Clear(s, id) && s.txns[id].phase.AccountWritten?
    ensures Execute(init, es + [ReadProject(id, |s.log|)] + [WriteProject(id, clock)]) == Some(s')
    ensures UpToDate(s') && Clear(s', id) && s'.history == s.history && s'.log == s.log
    ensures s'.txns[id] == s.txns[id].(phase := ProjectWritten)
  {
    GetProject(s, id);
    var s1 := Goto(s, id, ProjectRead(s.rows.projects[s.txns[id].project]));
    Extend(init, es, s, ReadProject(id, |s.log|));
    PutProject(s1, id, clock);
    s' := WroteProject(s1, id);
    Extend(init, es + [ReadProject(id, |s.log|)], s1, WriteProject(id, clock));
  }

  lemma RelationDone(init: DB, es: seq<Event>, s: DB, id: TxnId, clock: int) returns (s': DB)
    requires Execute(init, es) == Some(s) && UpToDate(s) && Clear(s, id) && s.txns[id].phase.ProjectWritten?
    ensures Execute(init, es + [ReadRelation(id, |s.log|)] + [WriteRelation(id, clock)]) == Some(s')
    ensures UpToDate(s') && Clear(s', id) && s'.history == s.history && s'.log == s.log
    ensures s'.txns[id] == s.txns[id].(phase := RelationWritten)
  {
    GetRelation(s, id);
    var s1 := Goto(s, id, RelationRead(s.rows.relations[(s.txns[id].user, s.txns[id].project)]));
    Extend(init, es, s, ReadRelation(id, |s.log|));
    PutRelation(s1, id, clock);
    s' := WroteRelation(s1, id);
    Extend(init, es + [ReadRelation(id, |s.log|)], s1, WriteRelation(id, clock));
  }

  /** The events so far and then three reads at version v and three writes. */
  function WithRows(es: seq<Event>, id: TxnId, v: nat, clock: int): seq<Event> {
    es + [ReadAccount(id, v)] + [WriteAccount(id, clock)] + [ReadProject(id, v)] + [WriteProject(id, clock)]
    + [ReadRelation(id, v)] + [WriteRelation(id, clock)]
  }

  lemma RowsDone(init: DB, es: seq<Event>, s: DB, id: TxnId, clock: int) returns (s': DB)
    requires Execute(init, es) == Some(s) && UpToDate(s) && Clear(s, id) && s.txns[id].phase.Started?
    ensures Execute(init, WithRows(es, id, |s.log|, clock)) == Some(s')
    ensures id in s'.txns && s'.log == s.log && s'.txns[id] == s.txns[id].(phase := RelationWritten)
  {
    var v := |s.log|;
    var s1 := AccountDone(init, es, s, id, clock);
    var es1 := es + [ReadAccount(id, v)] + [WriteAccount(id, clock)];
    var s2 := ProjectDone(init, es1, s1, id, clock);
    s' := RelationDone(init, es1 + [ReadProject(id, v)] + [WriteProject(id, clock)], s2, id, clock);
  }

  lemma CommitFires(s: DB, id: TxnId)
    requires id in s.txns && s.txns[id].phase.RelationWritten?
    ensures Fire(s, Commit(id)).Some?
    ensures var s' := Fire(s, Commit(id)).value;
      && s'.log == s.log
           + [Settlement(id, UpdateAccount(s.txns[id].user, s.txns[id].project, s.txns[id].cost, s.txns[id].now))]
      && id in s'.txns && s'.txns[id].phase.Committed?
  {
  }

  /** The events so far and then an undisturbed attempt at version v: reads, writes and the commit. */
  function WithAttempt(es: seq<Event>, id: TxnId, v: nat, clock: int): seq<Event> {
    WithRows(es, id, v, clock) + [Commit(id)]
  }

  /**
   A call that starts, for the first time or again, commits if its rows are there
   and nobody holds them: its events go through one after the other and append
   exactly its settlement.
   */
  lemma AttemptCommits(init: DB, es: seq<Event>, s: DB, id: TxnId, clock: int) returns (s': DB)
    requires Reaches(init, es, s) && id in s.txns && s.txns[id].phase.Started? && Clear(s, id)
    ensures Execute(init, WithAttempt(es, id, |s.log|, clock)) == Some(s')
    ensures s'.log == s.log
      + [Settlement(id, UpdateAccount(s.txns[id].user, s.txns[id].project, s.txns[id].cost, s.txns[id].now))]
    ensures id in s'.txns && s'.txns[id].phase.Committed?
  {
    AlwaysSerial(init, es, s);
    var ready := RowsDone(init, es, s, id, clock);
    CommitFires(ready, id);
    Extend(init, WithRows(es, id, |s.log|, clock), ready, Commit(id));
    s' := Fire(ready, Commit(id)).value;
  }

  /** A new call whose rows are there and free commits, from any reachable state. */
  lemma SettlementCommits(init: DB, es: seq<Event>, s: DB, id: TxnId, u: UserId, p: ProjectId, cost: real, clock: int)
    returns (s': DB)
    requires Reaches(init, es, s) && id !in s.txns
    requires u in s.rows.accounts && p in s.rows.projects && (u, p) in s.rows.relations
    requires u !in s.accountLocks && p !in s.projectLocks && (u, p) !in s.relationLocks
    ensures Execute(init, WithAttempt(es + [Begin(id, u, p, cost, clock)], id, |s.log|, clock)) == Some(s')
    ensures s'.log == s.log + [Settlement(id, UpdateAccount(u, p, cost, clock))]
  {
    var begin := Begin(id, u, p, cost, clock);
    Extend(init, es, s, begin);
    s' := AttemptCommits(init, es + [begin], Fire(s, begin).value, id, clock);
  }

  /** Between calls, every call whose rows are committed goes through. */
  lemma RestCommits(init: DB, es: seq<Event>, s: DB, id: TxnId, u: UserId, p: ProjectId, cost: real, clock: int)
    returns (s': DB)
    requires Reaches(init, es, s) && AtRest(s) && id !in s.txns
    requires u in View(s).accounts && p in View(s).projects && (u, p) in View(s).relations
    ensures Execute(init, WithAttempt(es + [Begin(id, u, p, cost, clock)], id, |s.log|, clock)) == Some(s')
    ensures s'.log == s.log + [Settlement(id, UpdateAccount(u, p, cost, clock))]
  {
    AlwaysSerial(init, es, s);
    NoLocksAtRest(s);
    s' := SettlementCommits(init, es, s, id, u, p, cost, clock);
  }

  lemma NoClaimsNoLocks<K, V>(rows: map<K, V>, locks: map<K, Lock<V>>, claims: map<TxnId, Claim<K>>,
                              settle: (V, int, int) -> V)
    requires TableOK(rows, locks, claims, settle) && claims.Keys == {}
    ensures locks == map[]
  {
    forall k
      ensures k !in locks
    {
    }
  }

  lemma NoLocksAtRest(s: DB)
    requires Consistent(s) && AtRest(s)
    ensures s.accountLocks == map[] && s.projectLocks == map[] && s.relationLocks == map[]
  {
    NoClaimsNoLocks(s.rows.accounts, s.accountLocks, AccountClaims(s.txns), Settled);
    NoClaimsNoLocks(s.rows.projects, s.projectLocks, ProjectClaims(s.txns), ProjectSettled);
    NoClaimsNoLocks(s.rows.relations, s.relationLocks, RelationClaims(s.txns), RelationSettled);
  }

  /** Any other call is served when nobody holds a row. */
  lemma RestServes(init: DB, es: seq<Event>, s: DB, op: Op)
    requires Reaches(init, es, s) && AtRest(s) && !op.UpdateAccount?
    ensures Execute(init, es + [Serve(op)]).Some?
    ensures Execute(init, es + [Serve(op)]).value.log == s.log + [Other(op)]
  {
    AlwaysSerial(init, es, s);
    NoLocksAtRest(s);
    Extend(init, es, s, Serve(op));
  }

  // ---------- What the filters let through ----------

  /**
   Between a read of an account and its write: a settlement at another time is
   noticed whatever its amount, a charge exactly if it moves the balance or, when
   the debit leaves a debt, the flag; a change of level is not noticed.
   */
  lemma AccountFilter(a: Account, amount: int, other: int, now: int, value: int, level: int)
    ensures a.updatedAt != Some(now) ==> !AccountMatches(a, Settled(a, other, now), amount)
    ensures AccountMatches(a, Charged(a, value), amount) <==>
      value == 0 && (a.balance < amount ==> !(a.balance >= 0 && a.owed))
    ensures AccountMatches(a, a.(level := level), amount)
  {
  }

  /** A settlement at another time is noticed in the project and relation rows; a change of payer is not. */
  lemma RowFilters(p: Project, r: Relation, amount: int, now: int, payer: UserId)
    ensures p.updatedAt != now ==> !ProjectMatches(p, ProjectSettled(p, amount, now))
    ensures ProjectMatches(p, p.(payer := payer))
    ensures r.updatedAt != now ==> !RelationMatches(r, RelationSettled(r, amount, now))
    ensures RelationMatches(r, r)
  {
  }

  // ---------- Which events can happen ----------

  /** A read may be made of any committed state, a write waits for the lock of its row, and nothing else waits. */
  lemma AdvancesIff(s: DB, e: Event)
    requires !e.Begin? && !e.Serve? && e.id in s.txns
    ensures var Txn(u, p, _, _, _, phase) := s.txns[e.id];
      Advance(s, e).Some? <==>
        match e
        case ReadAccount(_, v) => phase.Started? && v < |s.history|
        case WriteAccount(_, _) => phase.AccountRead? && u !in s.accountLocks
        case ReadProject(_, v) => phase.AccountWritten? && v < |s.history|
        case WriteProject(_, _) => phase.ProjectRead? && p !in s.projectLocks
        case ReadRelation(_, v) => phase.ProjectWritten? && v < |s.history|
        case WriteRelation(_, _) => phase.RelationRead? && (u, p) !in s.relationLocks
        case Commit(_) => phase.RelationWritten?
        case _ => !phase.Committed? && !phase.Abandoned?
  {
  }

  /** A read gives the row as that state had it, however old. */
  lemma ReadsAnyVersion(s: DB, id: TxnId, v: nat)
    requires id in s.txns && v < |s.history|
    ensures var Txn(u, p, _, _, _, phase) := s.txns[id]; var then' := s.history[v];
      && (phase.Started? && u in then'.accounts ==>
            Fire(s, ReadAccount(id, v)) == Some(Goto(s, id, AccountRead(then'.accounts[u]))))
      && (phase.AccountWritten? && p in then'.projects ==>
            Fire(s, ReadProject(id, v)) == Some(Goto(s, id, ProjectRead(then'.projects[p]))))
      && (phase.ProjectWritten? && (u, p) in then'.relations ==>
            Fire(s, ReadRelation(id, v)) == Some(Goto(s, id, RelationRead(then'.relations[(u, p)]))))
  {
  }
}

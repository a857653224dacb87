/**
 One processor catching up: the loop of primary_period and Worker.run in
 shadowfiend/processor/service/service.py.

 The loop is first a function of its state, one visit, one pass and n passes at
 a time, so that runs which never end can be spoken of; the methods of
 Processor then do the same in place.
 */
module PrimaryPeriod {
  import opened Wrappers
  import opened Collections
  import opened Money
  import opened Sums
  import opened Tables
  import opened LedgerLaws
  import opened Grace
  import opened Ledgers
  import opened StateStore
  import opened Billing
  import opened Plans

  // ---------- Visits and passes ----------

  /** A period that has been billed, and the call that settled it. */
  datatype Payment = Payment(project: ProjectId, begin: nat, call: Op)

  /**
   What the processor reads and writes: the ledger, the persisted states, the
   locks that are held, the projects dropped so far, and the payments of this run.
   */
  datatype Store = Store(
    db: Tables,
    states: map<ProjectId, set<nat>>,
    locks: set<ProjectId>,
    dropped: seq<ProjectId>,
    billed: seq<Payment>)

  /** The loop between two visits: whether nothing has raised, and the projects still in the list. */
  datatype Loop = Loop(ok: bool, store: Store, rate: seq<ProjectId>)

  function Bill(w: World, p: ProjectId, begin: nat): Op
    requires p in w.payers
  {
    UpdateAccount(w.payers[p], p, w.tariff(p, begin), w.now)
  }

  /** The grace period of the account of u has run out by now. */
  predicate Overdue(w: World, t: Tables, u: UserId) {
    u in t.accounts && DropsResources(t.accounts[u], w.now, w.config.allowOweAction)
  }

  /** The resources of p go: its payer's account is overdue. */
  predicate Drops(w: World, t: Tables, p: ProjectId) {
    p in w.payers && Overdue(w, t, w.payers[p])
  }

  /** Worker.run: drop an overdue project, debit, write the state; or raise, with at most the drop done. */
  function Worked(w: World, x: Store, p: ProjectId, begin: nat): (bool, Store) {
    var x' := if Drops(w, x.db, p) then x.(dropped := x.dropped + [p]) else x;
    if p !in w.payers || !Succeeds(x.db, Bill(w, p, begin)) then (false, x')
    else
      var call := Bill(w, p, begin);
      (true, x'.(db := Step(x.db, call), states := Recorded(x.states, p, begin),
                 billed := x.billed + [Payment(p, begin, call)]))
  }

  /** The loop has raised while p was being served, and p stays locked. */
  function Raised(x: Store, p: ProjectId, rate: seq<ProjectId>): Loop {
    Loop(false, x.(locks := x.locks + {p}), rate)
  }

  /** list.remove: the first occurrence goes. */
  function RemoveFirst(xs: seq<ProjectId>, x: ProjectId): (r: seq<ProjectId>)
    requires x in xs
    ensures |r| == |xs| - 1 && multiset(r) == multiset(xs) - multiset{x}
  {
    if xs[0] == x then
      assert xs == [x] + xs[1..];
      xs[1..]
    else
      assert xs == [xs[0]] + xs[1..];
      [xs[0]] + RemoveFirst(xs[1..], x)
  }

  /** One project of a pass: passed over if its lock is held, else billed, or taken off the list. */
  function Visited(w: World, l: Loop, p: ProjectId): Loop
    requires Valid(w.config)
  {
    if p in l.store.locks then l
    else
      match Check(w, l.store.states, p)
      case None => Raised(l.store, p, l.rate)
      case Some(begin) =>
        if begin == 0 then
          if p in l.rate then l.(rate := RemoveFirst(l.rate, p)) else Raised(l.store, p, l.rate)
        else
          var (done, x) := Worked(w, l.store, p, begin);
          if done then l.(store := x) else Raised(x, p, l.rate)
  }

  function VisitAll(w: World, l: Loop, pass: seq<ProjectId>): Loop
    requires Valid(w.config)
  {
    if pass == [] then l else
      var mid := VisitAll(w, l, pass[..|pass| - 1]);
      if mid.ok then Visited(w, mid, pass[|pass| - 1]) else mid
  }

  /** The loop after n passes, each over a copy of the list; a loop that has ended stays as it is. */
  function Passes(w: World, l: Loop, n: nat): Loop
    requires Valid(w.config)
  {
    if n == 0 then l else
      var mid := Passes(w, l, n - 1);
      if Ended(mid) then mid else VisitAll(w, mid, mid.rate)
  }

  predicate Ended(l: Loop) {
    !l.ok || l.rate == []
  }

  predicate Starts(l: Loop) {
    l.ok && l.store.billed == []
  }

  // ---------- Projects that cannot be billed ----------

  /** The payer, its account and the two rows a settlement needs are there. */
  predicate Payable(w: World, t: Tables, p: ProjectId) {
    p in w.payers && w.payers[p] in t.accounts && p in t.projects && (w.payers[p], p) in t.relations
  }

  /** The check raises for want of a first record, or a period is due that cannot be settled. */
  predicate Stuck(w: World, t: Tables, states: map<ProjectId, set<nat>>, p: ProjectId)
    requires Valid(w.config)
  {
    Check(w, states, p).None? || (Plan(w, states, p) != [] && !Payable(w, t, p))
  }

  predicate StuckIn(w: World, l: Loop, p: ProjectId)
    requires Valid(w.config)
  {
    p in l.rate && p !in l.store.locks && Stuck(w, l.store.db, l.store.states, p)
  }

  // ---------- What every visit keeps ----------

  function CallsOf(bs: seq<Payment>): (ops: seq<Op>)
    ensures |ops| == |bs|
  {
    seq(|bs|, i requires 0 <= i < |bs| => bs[i].call)
  }

  /** The begins paid for p, in order. */
  function BeginsOf(bs: seq<Payment>, p: ProjectId): seq<nat> {
    if bs == [] then [] else
      var last := bs[|bs| - 1];
      BeginsOf(bs[..|bs| - 1], p) + if last.project == p then [last.begin] else []
  }

  /** A payment for a project of the list that was free and could be billed when the loop started. */
  predicate Rightful(w: World, l0: Loop, b: Payment) {
    && b.project in l0.rate && b.project !in l0.store.locks && Payable(w, l0.store.db, b.project)
    && b.call == Bill(w, b.project, b.begin)
  }

  /** The ledger is the result of the payments, and of nothing else. */
  ghost predicate PaymentsMade(w: World, l0: Loop, l: Loop) {
    && (forall i :: 0 <= i < |l.store.billed| ==> Rightful(w, l0, l.store.billed[i]))
    && AllSucceed(l0.store.db, CallsOf(l.store.billed))
    && l.store.db == Run(l0.store.db, CallsOf(l.store.billed))
  }

  /** What has been paid is recorded, and is the first part of the plan; the rest is still planned. */
  ghost predicate OnPlan(w: World, l0: Loop, l: Loop)
    requires Valid(w.config)
  {
    forall p :: OnPlanFor(w, l0.store.states, l.store.billed, l.store.states, p)
  }

  ghost predicate OnPlanFor(w: World, states0: map<ProjectId, set<nat>>, bs: seq<Payment>,
                            states: map<ProjectId, set<nat>>, p: ProjectId)
    requires Valid(w.config)
  {
    && At(states, p) == At(states0, p) + SetOf(BeginsOf(bs, p))
    && Plan(w, states0, p) == BeginsOf(bs, p) + Plan(w, states, p)
  }

  /** A settlement adds and removes no row. */
  predicate SameRows(t0: Tables, t: Tables) {
    && t.accounts.Keys == t0.accounts.Keys && t.projects.Keys == t0.projects.Keys
    && t.relations.Keys == t0.relations.Keys
  }

  /** Accounts keep their levels, and none has become overdue. */
  ghost predicate NoneOverdueSince(w: World, t0: Tables, t: Tables) {
    forall u :: u in t.accounts ==>
      && u in t0.accounts && t.accounts[u].level == t0.accounts[u].level
      && (t0.accounts[u].level >= 0 && Overdue(w, t, u) ==> Overdue(w, t0, u))
  }

  /** Whatever has been dropped was due to be dropped when the loop started. */
  ghost predicate DroppedDue(w: World, l0: Loop, dropped: seq<ProjectId>) {
    && l0.store.dropped <= dropped
    && forall i :: |l0.store.dropped| <= i < |dropped| ==>
         && dropped[i] in l0.rate && dropped[i] in w.payers && w.payers[dropped[i]] in l0.store.db.accounts
         && (l0.store.db.accounts[w.payers[dropped[i]]].level >= 0 ==> Drops(w, l0.store.db, dropped[i]))
  }

  ghost predicate Kept(w: World, l0: Loop, l: Loop)
    requires Valid(w.config)
  {
    && PaymentsMade(w, l0, l) && OnPlan(w, l0, l) && SameRows(l0.store.db, l.store.db)
    && NoneOverdueSince(w, l0.store.db, l.store.db) && DroppedDue(w, l0, l.store.dropped)
  }

  /** Only projects that were free and have no period left to pay leave the list. */
  ghost predicate Listed(w: World, l0: Loop, l: Loop)
    requires Valid(w.config)
  {
    && (forall p :: p in l.rate ==> p in l0.rate)
    && (forall p :: p in l0.rate && p !in l.rate ==> p !in l0.store.locks && Plan(w, l.store.states, p) == [])
  }

  /** Where a loop stands that has not raised. */
  ghost predicate Progress(w: World, l0: Loop, l: Loop)
    requires Valid(w.config)
  {
    l.ok && l.store.locks == l0.store.locks && Kept(w, l0, l) && Listed(w, l0, l)
  }

  /** The loop has raised for a free project that could not be billed to begin with, and left it locked. */
  ghost predicate Broken(w: World, l0: Loop, l: Loop)
    requires Valid(w.config)
  {
    !l.ok && Kept(w, l0, l) && exists p :: StuckIn(w, l0, p) && l.store.locks == l0.store.locks + {p}
  }

  lemma PlannedFor(w: World, l0: Loop, l: Loop, p: ProjectId)
    requires Valid(w.config) && OnPlan(w, l0, l)
    ensures OnPlanFor(w, l0.store.states, l.store.billed, l.store.states, p)
  {
  }

  lemma StartProgress(w: World, l: Loop)
    requires Valid(w.config) && Starts(l)
    ensures Progress(w, l, l)
  {
    assert CallsOf([]) == [];
  }

  // ---------- One payment ----------

  lemma CallsSnoc(bs: seq<Payment>, b: Payment)
    ensures CallsOf(bs + [b]) == CallsOf(bs) + [b.call]
  {
  }

  lemma BeginsSnoc(bs: seq<Payment>, b: Payment, p: ProjectId)
    ensures BeginsOf(bs + [b], p) == if b.project == p then BeginsOf(bs, p) + [b.begin] else BeginsOf(bs, p)
  {
  }

  lemma PaymentsMadePay(w: World, l0: Loop, l: Loop, l': Loop, b: Payment)
    requires PaymentsMade(w, l0, l) && Rightful(w, l0, b) && Succeeds(l.store.db, b.call)
    requires l'.store.billed == l.store.billed + [b] && l'.store.db == Step(l.store.db, b.call)
    ensures PaymentsMade(w, l0, l')
  {
    CallsSnoc(l.store.billed, b);
    AllSucceedSnoc(l0.store.db, CallsOf(l.store.billed), b.call);
    RunSnoc(l0.store.db, CallsOf(l.store.billed), b.call);
  }

  lemma OnPlanOther(w: World, states0: map<ProjectId, set<nat>>, bs: seq<Payment>, states: map<ProjectId, set<nat>>,
                    b: Payment, p: ProjectId)
    requires Valid(w.config) && OnPlanFor(w, states0, bs, states, p) && p != b.project
    ensures OnPlanFor(w, states0, bs + [b], Recorded(states, b.project, b.begin), p)
  {
    BeginsSnoc(bs, b, p);
    OtherPlansStay(w, states, b.project, b.begin, p);
  }

  /** Recording the next begin moves it from the plan to the payments. */
  lemma OnPlanNext(w: World, states0: map<ProjectId, set<nat>>, bs: seq<Payment>, states: map<ProjectId, set<nat>>,
                   b: Payment)
    requires Sane(w) && OnPlanFor(w, states0, bs, states, b.project)
    requires b.begin > 0 && Check(w, states, b.project) == Some(b.begin)
    ensures OnPlanFor(w, states0, bs + [b], Recorded(states, b.project, b.begin), b.project)
  {
    BeginsSnoc(bs, b, b.project);
    PlanStep(w, states, b.project);
    SetOfSnoc(BeginsOf(bs, b.project), b.begin);
    SplitBefore(BeginsOf(bs, b.project), b.begin, Plan(w, Recorded(states, b.project, b.begin), b.project));
  }

  lemma SplitBefore(paid: seq<nat>, begin: nat, rest: seq<nat>)
    ensures paid + [begin] + rest == paid + ([begin] + rest)
  {
  }

  lemma OnPlanPay(w: World, l0: Loop, l: Loop, l': Loop, b: Payment)
    requires Sane(w) && OnPlan(w, l0, l)
    requires b.begin > 0 && Check(w, l.store.states, b.project) == Some(b.begin)
    requires l'.store.billed == l.store.billed + [b]
    requires l'.store.states == Recorded(l.store.states, b.project, b.begin)
    ensures OnPlan(w, l0, l')
  {
    forall p
      ensures OnPlanFor(w, l0.store.states, l'.store.billed, l'.store.states, p)
    {
      assert OnPlanFor(w, l0.store.states, l.store.billed, l.store.states, p);
      if p == b.project {
        OnPlanNext(w, l0.store.states, l.store.billed, l.store.states, b);
      } else {
        OnPlanOther(w, l0.store.states, l.store.billed, l.store.states, b, p);
      }
    }
  }

  lemma SetOfSnoc(xs: seq<nat>, x: nat)
    ensures SetOf(xs + [x]) == SetOf(xs) + {x}
  {
  }

  /** A settlement starts the grace period again, or leaves an account as it was. */
  lemma SettlingIsNotOverdue(w: World, t0: Tables, t: Tables, p: ProjectId, begin: nat)
    requires NoneOverdueSince(w, t0, t) && p in w.payers && Succeeds(t, Bill(w, p, begin))
    ensures NoneOverdueSince(w, t0, Step(t, Bill(w, p, begin)))
  {
  }

  lemma DropIsDue(w: World, l0: Loop, l: Loop, p: ProjectId)
    requires Valid(w.config) && Kept(w, l0, l) && p in l0.rate
    ensures DroppedDue(w, l0, if Drops(w, l.store.db, p) then l.store.dropped + [p] else l.store.dropped)
  {
  }

  lemma SameRowsSettle(t0: Tables, t: Tables, op: Op)
    requires SameRows(t0, t) && op.UpdateAccount?
    ensures SameRows(t0, Step(t, op))
  {
  }

  lemma PayableSucceeds(w: World, t0: Tables, t: Tables, p: ProjectId, begin: nat)
    requires SameRows(t0, t)
    ensures Payable(w, t0, p) <==> p in w.payers && Succeeds(t, Bill(w, p, begin))
  {
  }

  /** One run of the worker that goes through. */
  lemma KeptWork(w: World, l0: Loop, l: Loop, p: ProjectId, begin: nat)
    requires Sane(w) && Progress(w, l0, l) && p in l0.rate && p !in l0.store.locks
    requires begin > 0 && Check(w, l.store.states, p) == Some(begin) && Worked(w, l.store, p, begin).0
    ensures Kept(w, l0, l.(store := Worked(w, l.store, p, begin).1))
  {
    var l', b := l.(store := Worked(w, l.store, p, begin).1), Payment(p, begin, Bill(w, p, begin));
    PayableSucceeds(w, l0.store.db, l.store.db, p, begin);
    PaymentsMadePay(w, l0, l, l', b);
    OnPlanPay(w, l0, l, l', b);
    SameRowsSettle(l0.store.db, l.store.db, b.call);
    SettlingIsNotOverdue(w, l0.store.db, l.store.db, p, begin);
    DropIsDue(w, l0, l, p);
  }

  lemma ListedWork(w: World, l0: Loop, l: Loop, p: ProjectId, begin: nat)
    requires Sane(w) && Listed(w, l0, l) && p in l.rate
    requires Worked(w, l.store, p, begin).0
    ensures Listed(w, l0, l.(store := Worked(w, l.store, p, begin).1))
  {
    forall r | r in l0.rate && r !in l.rate
      ensures Plan(w, Recorded(l.store.states, p, begin), r) == []
    {
      OtherPlansStay(w, l.store.states, p, begin, r);
    }
  }

  lemma ListedRemove(w: World, l0: Loop, l: Loop, p: ProjectId)
    requires Valid(w.config) && Listed(w, l0, l)
    requires p in l.rate && p !in l0.store.locks && Plan(w, l.store.states, p) == []
    ensures Listed(w, l0, l.(rate := RemoveFirst(l.rate, p)))
  {
    var rest := RemoveFirst(l.rate, p);
    forall r
      ensures r in rest ==> r in l.rate
      ensures r in l.rate && r !in rest ==> r == p
    {
      assert r in rest <==> r in multiset(rest);
      assert r in l.rate <==> r in multiset(l.rate);
    }
  }

  /** Being stuck does not change while the loop goes on: nothing is ever billed for such a project. */
  lemma StuckStays(w: World, l0: Loop, l: Loop, p: ProjectId)
    requires Sane(w) && Starts(l0) && Kept(w, l0, l)
    ensures Stuck(w, l.store.db, l.store.states, p) <==> Stuck(w, l0.store.db, l0.store.states, p)
  {
    PlannedFor(w, l0, l, p);
    if BeginsOf(l.store.billed, p) == [] {
      SameState(w, l0.store.states, l.store.states, p);
    } else {
      HasPayment(l.store.billed, p);
      PaidMeansChecked(w, l0, l, p);
    }
  }

  lemma SameState(w: World, before: map<ProjectId, set<nat>>, after: map<ProjectId, set<nat>>, p: ProjectId)
    requires Valid(w.config) && At(after, p) == At(before, p)
    ensures Check(w, after, p) == Check(w, before, p) && Plan(w, after, p) == Plan(w, before, p)
  {
  }

  lemma {:induction false} HasPayment(bs: seq<Payment>, p: ProjectId)
    requires BeginsOf(bs, p) != []
    ensures exists i :: 0 <= i < |bs| && bs[i].project == p
  {
    if bs[|bs| - 1].project != p {
      HasPayment(bs[..|bs| - 1], p);
    } else {
      assert bs[|bs| - 1].project == p;
    }
  }

  /** A project something has been billed for is checked without raising, before and after. */
  lemma PaidMeansChecked(w: World, l0: Loop, l: Loop, p: ProjectId)
    requires Sane(w) && OnPlan(w, l0, l) && BeginsOf(l.store.billed, p) != []
    ensures Check(w, l0.store.states, p).Some? && Check(w, l.store.states, p).Some?
  {
    PlannedFor(w, l0, l, p);
  }

  // ---------- One visit ----------

  /** Periods still to be billed, and places in the list. */
  ghost function Left(w: World, l0: Loop, l: Loop): nat
    requires Valid(w.config)
  {
    |l.rate| + Steps(PlansOf(w, l.store.states, SetOf(l0.rate)))
  }

  lemma VisitRaises(w: World, l0: Loop, l: Loop, p: ProjectId)
    requires Sane(w) && Starts(l0) && Progress(w, l0, l) && p in l.rate && StuckIn(w, l0, p)
    ensures Broken(w, l0, Visited(w, l, p))
    ensures Visited(w, l, p).store.locks == l0.store.locks + {p}
  {
    StuckStays(w, l0, l, p);
    PlanStep(w, l.store.states, p);
    DropIsDue(w, l0, l, p);
    var begin := Check(w, l.store.states, p);
    if begin.Some? {
      PayableSucceeds(w, l.store.db, l.store.db, p, begin.value);
    }
  }

  lemma VisitWorks(w: World, l0: Loop, l: Loop, p: ProjectId, begin: nat)
    requires Sane(w) && Starts(l0) && Progress(w, l0, l) && p in l.rate && p !in l0.store.locks
    requires begin > 0 && Check(w, l.store.states, p) == Some(begin) && Worked(w, l.store, p, begin).0
    ensures var l' := l.(store := Worked(w, l.store, p, begin).1);
      Progress(w, l0, l') && Left(w, l0, l') == Left(w, l0, l) - 1
  {
    KeptWork(w, l0, l, p, begin);
    ListedWork(w, l0, l, p, begin);
    CheckBills(w, l.store.states, SetOf(l0.rate), p, begin);
    StepsBill(PlansOf(w, l.store.states, SetOf(l0.rate)), p);
  }

  lemma VisitRemoves(w: World, l0: Loop, l: Loop, p: ProjectId)
    requires Sane(w) && Progress(w, l0, l) && p in l.rate && p !in l0.store.locks
    requires Check(w, l.store.states, p) == Some(0)
    ensures Progress(w, l0, l.(rate := RemoveFirst(l.rate, p)))
    ensures Left(w, l0, l.(rate := RemoveFirst(l.rate, p))) == Left(w, l0, l) - 1
  {
    PlanStep(w, l.store.states, p);
    ListedRemove(w, l0, l, p);
  }

  /** A visit to a free project raises exactly if the project is stuck, and otherwise brings the end one step closer. */
  lemma VisitProgress(w: World, l0: Loop, l: Loop, p: ProjectId)
    requires Sane(w) && Starts(l0) && Progress(w, l0, l) && p in l.rate
    ensures var l' := Visited(w, l, p);
      && (if StuckIn(w, l0, p) then Broken(w, l0, l')
          else
            && Progress(w, l0, l') && multiset(l'.rate) >= multiset(l.rate) - multiset{p}
            && Left(w, l0, l') == Left(w, l0, l) - if p in l0.store.locks then 0 else 1)
  {
    if StuckIn(w, l0, p) {
      VisitRaises(w, l0, l, p);
    } else if p !in l0.store.locks {
      StuckStays(w, l0, l, p);
      PlanStep(w, l.store.states, p);
      var begin := Check(w, l.store.states, p).value;
      if begin == 0 {
        VisitRemoves(w, l0, l, p);
      } else {
        PayableSucceeds(w, l.store.db, l.store.db, p, begin);
        VisitWorks(w, l0, l, p, begin);
      }
    }
  }

  // ---------- One pass ----------

  /** How many places of the list are taken by projects nobody holds. */
  function FreePlaces(pass: seq<ProjectId>, locks: set<ProjectId>): nat {
    if pass == [] then 0 else
      FreePlaces(pass[..|pass| - 1], locks) + if pass[|pass| - 1] in locks then 0 else 1
  }

  lemma {:induction false} NoFreePlaces(pass: seq<ProjectId>, locks: set<ProjectId>)
    ensures FreePlaces(pass, locks) == 0 <==> forall p :: p in pass ==> p in locks
  {
    if pass == [] {
    } else {
      var front, last := pass[..|pass| - 1], pass[|pass| - 1];
      NoFreePlaces(front, locks);
      assert forall p :: p in pass <==> p in front || p == last;
    }
  }

  /** What a pass has yet to visit is still in the list. */
  lemma NextInList(pass: seq<ProjectId>, i: nat, rate: seq<ProjectId>)
    requires i < |pass| && multiset(pass[i..]) <= multiset(rate)
    ensures pass[i] in rate
  {
    assert pass[i..][0] == pass[i];
    assert pass[i] in multiset(pass[i..]);
    assert pass[i] in multiset(rate);
  }

  lemma NextVisit(pass: seq<ProjectId>, i: nat, rate: seq<ProjectId>, rest: seq<ProjectId>)
    requires i < |pass| && multiset(pass[i..]) <= multiset(rate)
    requires multiset(rest) >= multiset(rate) - multiset{pass[i]}
    ensures multiset(pass[i + 1..]) <= multiset(rest)
  {
    assert pass[i..] == [pass[i]] + pass[i + 1..];
    assert multiset(pass[i..]) == multiset{pass[i]} + multiset(pass[i + 1..]);
  }

  lemma VisitAllSnoc(w: World, l: Loop, pass: seq<ProjectId>, i: nat)
    requires Valid(w.config) && i < |pass|
    ensures VisitAll(w, l, pass[..i + 1]) ==
      var mid := VisitAll(w, l, pass[..i]); if mid.ok then Visited(w, mid, pass[i]) else mid
  {
    assert pass[..i + 1][..i] == pass[..i];
  }

  lemma FreePlacesSnoc(pass: seq<ProjectId>, locks: set<ProjectId>, i: nat)
    requires i < |pass|
    ensures FreePlaces(pass[..i + 1], locks) == FreePlaces(pass[..i], locks) + if pass[i] in locks then 0 else 1
  {
    assert pass[..i + 1][..i] == pass[..i];
  }

  predicate MeetsStuck(w: World, l0: Loop, pass: seq<ProjectId>)
    requires Valid(w.config)
  {
    exists p :: p in pass && StuckIn(w, l0, p)
  }

  /** After the first i visits of a pass that have not raised. */
  ghost predicate Passing(w: World, l0: Loop, l: Loop, i: nat, l': Loop)
    requires Valid(w.config) && i <= |l.rate|
  {
    && Progress(w, l0, l') && multiset(l.rate[i..]) <= multiset(l'.rate)
    && Left(w, l0, l') == Left(w, l0, l) - FreePlaces(l.rate[..i], l0.store.locks)
  }

  lemma MeetsSnoc(w: World, l0: Loop, pass: seq<ProjectId>, i: nat)
    requires Valid(w.config) && i < |pass|
    ensures MeetsStuck(w, l0, pass[..i + 1]) <==> MeetsStuck(w, l0, pass[..i]) || StuckIn(w, l0, pass[i])
  {
    assert pass[..i + 1] == pass[..i] + [pass[i]];
  }

  lemma PassingStep(w: World, l0: Loop, l: Loop, i: nat, mid: Loop)
    requires Sane(w) && Starts(l0) && i < |l.rate| && Passing(w, l0, l, i, mid)
    ensures var l' := Visited(w, mid, l.rate[i]);
      if StuckIn(w, l0, l.rate[i]) then Broken(w, l0, l') else Passing(w, l0, l, i + 1, l')
  {
    var p := l.rate[i];
    NextInList(l.rate, i, mid.rate);
    VisitProgress(w, l0, mid, p);
    if !StuckIn(w, l0, p) {
      NextVisit(l.rate, i, mid.rate, Visited(w, mid, p).rate);
      FreePlacesSnoc(l.rate, l0.store.locks, i);
    }
  }

  /** The first i visits of a pass: they raise exactly if they meet a stuck project. */
  lemma {:induction false} PassProgress(w: World, l0: Loop, l: Loop, i: nat)
    requires Sane(w) && Starts(l0) && Progress(w, l0, l) && i <= |l.rate|
    ensures var l' := VisitAll(w, l, l.rate[..i]);
      if MeetsStuck(w, l0, l.rate[..i]) then Broken(w, l0, l') else Passing(w, l0, l, i, l')
  {
    if i == 0 {
      assert l.rate[0..] == l.rate;
    } else {
      PassProgress(w, l0, l, i - 1);
      VisitAllSnoc(w, l, l.rate, i - 1);
      MeetsSnoc(w, l0, l.rate, i - 1);
      if !MeetsStuck(w, l0, l.rate[..i - 1]) {
        PassingStep(w, l0, l, i - 1, VisitAll(w, l, l.rate[..i - 1]));
      }
    }
  }

  /** A whole pass raises exactly if a project in the list is stuck, and else comes closer by each free place. */
  lemma WholePass(w: World, l0: Loop, l: Loop)
    requires Sane(w) && Starts(l0) && Progress(w, l0, l)
    ensures var l' := VisitAll(w, l, l.rate);
      if MeetsStuck(w, l0, l.rate) then Broken(w, l0, l')
      else Progress(w, l0, l') && Left(w, l0, l') == Left(w, l0, l) - FreePlaces(l.rate, l0.store.locks)
  {
    PassProgress(w, l0, l, |l.rate|);
    assert l.rate[..|l.rate|] == l.rate;
  }

  // ---------- Any number of passes ----------

  /** Nothing in the list can be billed or taken off: every lock is held. */
  predicate AllHeld(l: Loop) {
    forall p :: p in l.rate ==> p in l.store.locks
  }

  lemma {:induction false} HeldPass(w: World, l: Loop, pass: seq<ProjectId>)
    requires Valid(w.config) && forall p :: p in pass ==> p in l.store.locks
    ensures VisitAll(w, l, pass) == l
  {
    if pass == [] {
    } else {
      HeldPass(w, l, pass[..|pass| - 1]);
    }
  }

  lemma ClosedPass(w: World, l0: Loop, l: Loop)
    requires Valid(w.config) && Listed(w, l0, l) && !MeetsStuck(w, l0, l0.rate)
    ensures !MeetsStuck(w, l0, l.rate)
  {
  }

  /** A run in which nothing is stuck: it goes on, and each pass brings it closer until only held projects are left. */
  lemma {:induction false} GoesOn(w: World, l0: Loop, n: nat)
    requires Sane(w) && Starts(l0) && !MeetsStuck(w, l0, l0.rate)
    ensures var l := Passes(w, l0, n);
      Progress(w, l0, l) && (AllHeld(l) || Left(w, l0, l) + n <= Left(w, l0, l0))
  {
    if n == 0 {
      StartProgress(w, l0);
    } else {
      var mid := Passes(w, l0, n - 1);
      GoesOn(w, l0, n - 1);
      ClosedPass(w, l0, mid);
      WholePass(w, l0, mid);
      NoFreePlaces(mid.rate, l0.store.locks);
      if AllHeld(mid) {
        HeldPass(w, mid, mid.rate);
      }
    }
  }

  /** A run in which something is stuck raises in its first pass. */
  lemma {:induction false} Raises(w: World, l0: Loop, n: nat)
    requires Sane(w) && Starts(l0) && MeetsStuck(w, l0, l0.rate) && n > 0
    ensures Broken(w, l0, Passes(w, l0, n))
  {
    if n == 1 {
      StartProgress(w, l0);
      WholePass(w, l0, l0);
      assert Passes(w, l0, 0) == l0;
    } else {
      Raises(w, l0, n - 1);
    }
  }

  /**
   After any number of passes: a listed project whose lock is held is still in
   the list unless the loop has raised; and after as many passes as there are
   places and periods left, no other project is, and none has anything to pay.
   */
  lemma HeldStay(w: World, l0: Loop, n: nat, p: ProjectId)
    requires Sane(w) && Starts(l0) && p in l0.rate
    ensures var l := Passes(w, l0, n);
      && (p in l0.store.locks && l.ok ==> p in l.rate)
      && (p !in l0.store.locks && l.ok && n >= Left(w, l0, l0) ==> p !in l.rate && Plan(w, l.store.states, p) == [])
  {
    if MeetsStuck(w, l0, l0.rate) {
      if n == 0 {
      } else {
        Raises(w, l0, n);
      }
    } else {
      GoesOn(w, l0, n);
    }
  }

  ghost predicate Terminates(w: World, l0: Loop)
    requires Valid(w.config)
  {
    exists n: nat :: Ended(Passes(w, l0, n))
  }

  /** Exactly when the loop comes to an end: no listed project's lock is held, or it raises. */
  predicate Ends(w: World, l0: Loop)
    requires Valid(w.config)
  {
    (forall p :: p in l0.rate ==> p !in l0.store.locks) || MeetsStuck(w, l0, l0.rate)
  }

  /** A loop that ends well has drained its list; one that ends badly has raised for a stuck project. */
  ghost predicate Ending(w: World, l0: Loop, l: Loop)
    requires Valid(w.config)
  {
    if MeetsStuck(w, l0, l0.rate) then Broken(w, l0, l) else Progress(w, l0, l) && l.rate == []
  }

  lemma EmptyIff(rate: seq<ProjectId>)
    ensures rate == [] <==> forall p :: p !in rate
  {
    if rate != [] {
      assert rate[0] in rate;
    }
  }

  lemma NothingHeld(w: World, l0: Loop, l: Loop)
    requires Valid(w.config) && Progress(w, l0, l) && (AllHeld(l) || Left(w, l0, l) == 0)
    requires forall p :: p in l0.rate ==> p !in l0.store.locks
    ensures l.rate == []
  {
    EmptyIff(l.rate);
  }

  /**
   The loop ends if and only if no listed project's lock is held or a free
   listed project is stuck; it then ends within as many passes as there are
   places and periods, and it raises exactly in the second case.
   */
  lemma EndsIff(w: World, l0: Loop)
    requires Sane(w) && Starts(l0)
    ensures Terminates(w, l0) <==> Ends(w, l0)
    ensures Ends(w, l0) ==> Ended(Passes(w, l0, Left(w, l0, l0)))
    ensures forall n: nat :: Ended(Passes(w, l0, n)) ==> Ending(w, l0, Passes(w, l0, n))
  {
    var enough := Left(w, l0, l0);
    if MeetsStuck(w, l0, l0.rate) {
      forall n: nat | n > 0
        ensures Broken(w, l0, Passes(w, l0, n))
      {
        Raises(w, l0, n);
      }
      var one: nat := 1;
      assert Ended(Passes(w, l0, one));
    } else {
      forall n: nat
        ensures Progress(w, l0, Passes(w, l0, n))
      {
        GoesOn(w, l0, n);
      }
      if Ends(w, l0) {
        GoesOn(w, l0, enough);
        NothingHeld(w, l0, Passes(w, l0, enough));
        assert Ended(Passes(w, l0, enough));
      }
    }
  }

  /**
   After a failed run one more lock is held: that of a listed project that could
   not be billed.  Whatever is repaired meanwhile, the next run over that project
   never ends, unless it raises for another project.
   */
  lemma FailureBlocks(w: World, l0: Loop, n: nat, w': World, next: Loop)
    returns (p: ProjectId)
    requires Sane(w) && Sane(w') && Starts(l0) && !Passes(w, l0, n).ok
    requires Starts(next) && next.rate == l0.rate && next.store.locks == Passes(w, l0, n).store.locks
    ensures StuckIn(w, l0, p) && Passes(w, l0, n).store.locks == l0.store.locks + {p}
    ensures Terminates(w', next) <==> MeetsStuck(w', next, next.rate)
  {
    EndsIff(w, l0);
    assert n > 0;
    assert Broken(w, l0, Passes(w, l0, n));
    p :| StuckIn(w, l0, p) && Passes(w, l0, n).store.locks == l0.store.locks + {p};
    EndsIff(w', next);
  }

  // ---------- What the payments add up to ----------

  lemma {:induction false} CostSnoc(w: World, p: ProjectId, begins: seq<nat>, begin: nat)
    ensures CostOf(w, p, begins + [begin]) == CostOf(w, p, begins) + Quantize(w.tariff(p, begin))
  {
    if begins == [] {
    } else {
      CostSnoc(w, p, begins[1..], begin);
      assert (begins + [begin])[1..] == begins[1..] + [begin];
    }
  }

  /** The payments are settlements of their projects for their payers. */
  ghost predicate Settling(w: World, t0: Tables, bs: seq<Payment>) {
    && (forall i :: 0 <= i < |bs| ==> bs[i].project in w.payers && bs[i].call == Bill(w, bs[i].project, bs[i].begin))
    && AllSucceed(t0, CallsOf(bs))
  }

  lemma LastPayment(w: World, t0: Tables, bs: seq<Payment>)
    requires Settling(w, t0, bs) && bs != []
    ensures var front, last := bs[..|bs| - 1], bs[|bs| - 1];
      && Settling(w, t0, front) && Succeeds(Run(t0, CallsOf(front)), last.call)
      && Run(t0, CallsOf(bs)) == Step(Run(t0, CallsOf(front)), last.call)
  {
    var front, last := bs[..|bs| - 1], bs[|bs| - 1];
    assert bs == front + [last];
    CallsSnoc(front, last);
    AllSucceedSnoc(t0, CallsOf(front), last.call);
    RunSnoc(t0, CallsOf(front), last.call);
  }

  lemma PayOne(w: World, t: Tables, b: Payment, p: ProjectId)
    requires b.project in w.payers && b.call == Bill(w, b.project, b.begin) && Succeeds(t, b.call)
    requires Payable(w, t, p)
    ensures var t', cost := Step(t, b.call), if b.project == p then Quantize(w.tariff(p, b.begin)) else 0;
      && Payable(w, t', p)
      && t'.projects[p].consumption == t.projects[p].consumption + cost
      && t'.relations[(w.payers[p], p)].consumption == t.relations[(w.payers[p], p)].consumption + cost
  {
  }

  /** A project's consumption, and its payer's share of it, grow by the rounded costs of its paid periods. */
  lemma {:induction false} ProjectPays(w: World, t0: Tables, bs: seq<Payment>, p: ProjectId)
    requires Settling(w, t0, bs) && Payable(w, t0, p)
    ensures var t, cost := Run(t0, CallsOf(bs)), CostOf(w, p, BeginsOf(bs, p));
      && Payable(w, t, p)
      && t.projects[p].consumption == t0.projects[p].consumption + cost
      && t.relations[(w.payers[p], p)].consumption == t0.relations[(w.payers[p], p)].consumption + cost
  {
    if bs == [] {
    } else {
      var front, last := bs[..|bs| - 1], bs[|bs| - 1];
      LastPayment(w, t0, bs);
      ProjectPays(w, t0, front, p);
      PayOne(w, Run(t0, CallsOf(front)), last, p);
      assert bs == front + [last];
      BeginsSnoc(front, last, p);
      CostSnoc(w, p, BeginsOf(front, p), last.begin);
    }
  }

  /** Plans that begin with what has been paid. */
  ghost predicate Splits(plans0: map<ProjectId, seq<nat>>, bs: seq<Payment>, plans: map<ProjectId, seq<nat>>) {
    && plans.Keys == plans0.Keys
    && (forall i :: 0 <= i < |bs| ==> bs[i].project in plans0)
    && (forall p :: p in plans0 ==> plans0[p] == BeginsOf(bs, p) + plans[p])
  }

  lemma SplitsBeforeAt(plans0: map<ProjectId, seq<nat>>, front: seq<Payment>, last: Payment,
                       plans: map<ProjectId, seq<nat>>, p: ProjectId)
    requires p in plans0 && p in plans && plans0[p] == BeginsOf(front + [last], p) + plans[p]
    ensures plans0[p] == BeginsOf(front, p) + if p == last.project then [last.begin] + plans[p] else plans[p]
  {
    BeginsSnoc(front, last, p);
    SplitBefore(BeginsOf(front, p), last.begin, plans[p]);
  }

  /** Before its last payment that payment was the next in the plan. */
  lemma SplitsBefore(plans0: map<ProjectId, seq<nat>>, bs: seq<Payment>, plans: map<ProjectId, seq<nat>>)
    requires Splits(plans0, bs, plans) && bs != []
    ensures var last := bs[|bs| - 1];
      Splits(plans0, bs[..|bs| - 1], plans[last.project := [last.begin] + plans[last.project]])
  {
    var front, last := bs[..|bs| - 1], bs[|bs| - 1];
    var before := plans[last.project := [last.begin] + plans[last.project]];
    assert bs == front + [last];
    forall p | p in plans0
      ensures plans0[p] == BeginsOf(front, p) + before[p]
    {
      SplitsBeforeAt(plans0, front, last, plans, p);
    }
    assert before.Keys == plans0.Keys;
  }

  lemma BalanceOne(w: World, t: Tables, b: Payment, u: UserId)
    requires b.project in w.payers && b.call == Bill(w, b.project, b.begin) && Succeeds(t, b.call) && u in t.accounts
    ensures u in Step(t, b.call).accounts
    ensures Step(t, b.call).accounts[u].balance
      == t.accounts[u].balance - if w.payers[b.project] == u then Quantize(w.tariff(b.project, b.begin)) else 0
  {
  }

  lemma DuesBefore(w: World, plans: map<ProjectId, seq<nat>>, p: ProjectId, begin: nat, u: UserId)
    requires p in plans && p in w.payers
    ensures Outstanding(w, plans[p := [begin] + plans[p]], u)
      == Outstanding(w, plans, u) + if w.payers[p] == u then Quantize(w.tariff(p, begin)) else 0
  {
    var before := plans[p := [begin] + plans[p]];
    DuesBill(w, before, p, u);
    assert before[p := before[p][1..]] == plans;
  }

  /** A balance falls by the costs that leave its user's dues. */
  lemma {:induction false} BalancesFall(w: World, t0: Tables, bs: seq<Payment>, plans0: map<ProjectId, seq<nat>>,
                                        plans: map<ProjectId, seq<nat>>, u: UserId)
    requires Settling(w, t0, bs) && Splits(plans0, bs, plans) && u in t0.accounts
    ensures var t := Run(t0, CallsOf(bs));
      u in t.accounts
      && t0.accounts[u].balance - t.accounts[u].balance == Outstanding(w, plans0, u) - Outstanding(w, plans, u)
  {
    if bs == [] {
      assert forall r :: r in plans0 ==> plans0[r] == BeginsOf([], r) + plans[r] == plans[r];
      assert plans == plans0;
    } else {
      var front, last := bs[..|bs| - 1], bs[|bs| - 1];
      var before := plans[last.project := [last.begin] + plans[last.project]];
      LastPayment(w, t0, bs);
      SplitsBefore(plans0, bs, plans);
      BalancesFall(w, t0, front, plans0, before, u);
      BalanceOne(w, Run(t0, CallsOf(front)), last, u);
      DuesBefore(w, plans, last.project, last.begin, u);
    }
  }

  lemma KeptSplits(w: World, l0: Loop, l: Loop)
    requires Valid(w.config) && Kept(w, l0, l)
    ensures Settling(w, l0.store.db, l.store.billed)
    ensures Splits(PlansOf(w, l0.store.states, SetOf(l0.rate)), l.store.billed,
                   PlansOf(w, l.store.states, SetOf(l0.rate)))
  {
    var S := SetOf(l0.rate);
    var plans0, plans := PlansOf(w, l0.store.states, S), PlansOf(w, l.store.states, S);
    forall p | p in plans0
      ensures plans0[p] == BeginsOf(l.store.billed, p) + plans[p]
    {
      PlannedFor(w, l0, l, p);
    }
    forall i | 0 <= i < |l.store.billed|
      ensures l.store.billed[i].project in plans0
    {
      assert Rightful(w, l0, l.store.billed[i]);
    }
  }

  /**
   However far a run has come: the balance of u has fallen by what has left its
   dues, and consumption and share of a project it can settle have grown by the
   rounded costs of the paid part of its plan.
   */
  lemma MoneyFollowsPayments(w: World, l0: Loop, l: Loop, u: UserId, p: ProjectId)
    requires Valid(w.config) && Kept(w, l0, l)
    ensures var S := SetOf(l0.rate);
      u in l0.store.db.accounts ==>
        && u in l.store.db.accounts
        && l0.store.db.accounts[u].balance - l.store.db.accounts[u].balance
           == Outstanding(w, PlansOf(w, l0.store.states, S), u) - Outstanding(w, PlansOf(w, l.store.states, S), u)
    ensures var t0, t, cost := l0.store.db, l.store.db, CostOf(w, p, BeginsOf(l.store.billed, p));
      Payable(w, t0, p) ==>
        && Payable(w, t, p)
        && t.projects[p].consumption == t0.projects[p].consumption + cost
        && t.relations[(w.payers[p], p)].consumption == t0.relations[(w.payers[p], p)].consumption + cost
    ensures BeginsOf(l.store.billed, p) != [] ==> Payable(w, l0.store.db, p)
  {
    var S := SetOf(l0.rate);
    KeptSplits(w, l0, l);
    if u in l0.store.db.accounts {
      BalancesFall(w, l0.store.db, l.store.billed, PlansOf(w, l0.store.states, S), PlansOf(w, l.store.states, S), u);
    }
    if Payable(w, l0.store.db, p) {
      ProjectPays(w, l0.store.db, l.store.billed, p);
    }
    if BeginsOf(l.store.billed, p) != [] {
      HasPayment(l.store.billed, p);
    }
  }

  /** A project is dropped exactly when its payer has been in debt and unsettled for longer than its level in days. */
  lemma DropsIff(w: World, t: Tables, ops: seq<Op>, p: ProjectId)
    requires NobodyOwed(t) && NonNegativeCosts(ops) && p in w.payers && w.payers[p] in Run(t, ops).accounts
    ensures Drops(w, Run(t, ops), p) <==>
      exists j :: 0 <= j < |ops| && GraceOver(t, ops, w.payers[p], j, w.now, w.config.allowOweAction)
  {
    DropIff(t, ops, w.payers[p], w.now, w.config.allowOweAction);
  }

  // ---------- After a run ----------

  /** A project with nothing left to pay has been billed its whole plan, and could be if there was one. */
  lemma PlanPaid(w: World, l0: Loop, l: Loop, p: ProjectId)
    requires Valid(w.config) && Kept(w, l0, l) && Plan(w, l.store.states, p) == []
    ensures var plan, t0, t := Plan(w, l0.store.states, p), l0.store.db, l.store.db;
      && BeginsOf(l.store.billed, p) == plan
      && At(l.store.states, p) == At(l0.store.states, p) + SetOf(plan)
      && (plan != [] ==>
            && Payable(w, t0, p) && Payable(w, t, p)
            && t.projects[p].consumption == t0.projects[p].consumption + CostOf(w, p, plan))
  {
    MoneyFollowsPayments(w, l0, l, "", p);
    PlannedFor(w, l0, l, p);
    assert BeginsOf(l.store.billed, p) + [] == BeginsOf(l.store.billed, p);
  }

  /**
   Where a project stands whose plan has been recorded: at the last step strictly
   below cloudkitty's top from where it started, which is the persisted state, else
   cloudkitty's first record, whose own period is in no plan, else the full hour.
   */
  ghost predicate AtLastStep(w: World, before: map<ProjectId, set<nat>>, after: map<ProjectId, set<nat>>,
                             p: ProjectId, top: nat)
    requires Valid(w.config)
  {
    var plan, period, M := Plan(w, before, p), w.config.period, At(after, p);
    var k := |plan|;
    match ReadState(w.config, At(before, p), At(w.meters, p), w.clock(p))
    case ResumeAfter(ts) =>
      && Top(M, period) == (if k == 0 then Top(At(before, p), period) else Some(ts + k * period))
      && (k > 0 ==> ts + k * period < top)
      && top <= ts + k * period + period
      && ts !in plan
    case StartAt(hour) =>
      hour > 0 ==>
        && k > 0 && plan[0] == hour
        && Top(M, period) == Some(Bucket(hour, period) + (k - 1) * period)
        && (k > 1 ==> Bucket(hour, period) + (k - 1) * period < top)
        && top <= Bucket(hour, period) + k * period
    case NoRecord => k == 0
  }

  lemma RecordedEnds(w: World, before: map<ProjectId, set<nat>>, after: map<ProjectId, set<nat>>, p: ProjectId,
                     top: nat)
    requires Sane(w) && Top(At(w.meters, p), w.config.period) == Some(top)
    requires At(after, p) == At(before, p) + SetOf(Plan(w, before, p))
    ensures AtLastStep(w, before, after, p, top)
  {
    match ReadState(w.config, At(before, p), At(w.meters, p), w.clock(p))
    case ResumeAfter(ts) => ResumedEnds(w, before, after, p, ts, top);
    case StartAt(hour) =>
      if hour > 0 {
        HourEnds(w, before, after, p, hour, top);
      }
    case NoRecord =>
  }

  /** A project with nothing left to pay is paid for, from the right period on, and at its last step. */
  lemma CaughtUp(w: World, l0: Loop, l: Loop, p: ProjectId, top: nat)
    requires Sane(w) && Kept(w, l0, l) && Plan(w, l.store.states, p) == []
    requires Top(At(w.meters, p), w.config.period) == Some(top)
    ensures var plan, t0, t := Plan(w, l0.store.states, p), l0.store.db, l.store.db;
      && BeginsOf(l.store.billed, p) == plan
      && (plan != [] ==>
            && Payable(w, t0, p) && Payable(w, t, p)
            && t.projects[p].consumption == t0.projects[p].consumption + CostOf(w, p, plan))
    ensures AtLastStep(w, l0.store.states, l.store.states, p, top)
    ensures BeginsRight(w, l0.store.states, p, BeginsOf(l.store.billed, p))
  {
    PlanBeginsRight(w, l0.store.states, p);
    PlanPaid(w, l0, l, p);
    RecordedEnds(w, l0.store.states, l.store.states, p, top);
  }

  /** After a run that ends well a balance has fallen by the whole dues of its user's projects. */
  lemma DuesPaid(w: World, l0: Loop, l: Loop, u: UserId)
    requires Valid(w.config) && Progress(w, l0, l) && l.rate == [] && u in l0.store.db.accounts
    ensures u in l.store.db.accounts
    ensures l.store.db.accounts[u].balance
      == l0.store.db.accounts[u].balance - Outstanding(w, PlansOf(w, l0.store.states, SetOf(l0.rate)), u)
  {
    MoneyFollowsPayments(w, l0, l, u, "");
    SumMapZero(DueView(w, PlansOf(w, l.store.states, SetOf(l0.rate)), u));
  }

  /** A run over a project without a payer fails, and no later run over it ends, even with a payer. */
  lemma RepairIsNotEnough(repaired: World) returns (w: World, l0: Loop, failed: Loop)
    requires Sane(repaired)
    ensures Sane(w) && Starts(l0) && l0.store.locks == {} && failed == Passes(w, l0, 1) && !failed.ok
    ensures exists p :: p in l0.rate && failed.store.locks == {p}
    ensures !Terminates(repaired, Loop(true, failed.store.(billed := []), l0.rate))
  {
    w := World(Config(3600, false, false), map[], map[], _ => 3600, (_, _) => 0.0, 0);
    l0 := Loop(true, Store(EMPTY, map[], {}, [], []), ["project"]);
    failed := Passes(w, l0, 1);
    assert StuckIn(w, l0, "project");
    Raises(w, l0, 1);
    var next := Loop(true, failed.store.(billed := []), l0.rate);
    var p := FailureBlocks(w, l0, 1, repaired, next);
    assert p in l0.rate && failed.store.locks == {p};
  }

  // ---------- In place ----------

  lemma {:induction false} VisitAllStops(w: World, l: Loop, pass: seq<ProjectId>, i: nat)
    requires Valid(w.config) && i <= |pass| && !VisitAll(w, l, pass[..i]).ok
    ensures VisitAll(w, l, pass) == VisitAll(w, l, pass[..i])
    decreases |pass|
  {
    if i == |pass| {
      assert pass[..i] == pass;
    } else {
      var front := pass[..|pass| - 1];
      assert front[..i] == pass[..i];
      VisitAllStops(w, l, front, i);
    }
  }

  /** Each pass of a loop that can end raises or brings the end closer. */
  lemma NextPass(w: World, l0: Loop, n: nat)
    requires Sane(w) && Starts(l0) && Ends(w, l0) && !Ended(Passes(w, l0, n))
    ensures var l, l' := Passes(w, l0, n), Passes(w, l0, n + 1);
      l' == VisitAll(w, l, l.rate) && (l'.ok ==> Left(w, l0, l') < Left(w, l0, l))
  {
    var l := Passes(w, l0, n);
    if MeetsStuck(w, l0, l0.rate) {
      Raises(w, l0, n + 1);
    } else {
      GoesOn(w, l0, n);
      ClosedPass(w, l0, l);
      WholePass(w, l0, l);
      NoFreePlaces(l.rate, l0.store.locks);
      assert l.rate[0] in l.rate;
    }
  }

  class Processor {
    const db: Ledger
    var states: map<ProjectId, set<nat>>
    var locks: set<ProjectId>
    var dropped: seq<ProjectId>        // the projects owed_action was called for
    var billed: seq<Payment>           // the payments of the current run

    constructor (db: Ledger)
      ensures this.db == db && states == map[] && locks == {} && dropped == [] && billed == []
    {
      this.db := db;
      states, locks, dropped, billed := map[], {}, [], [];
    }

    ghost function Now(): Store
      reads this, db
    {
      Store(db.Snapshot(), states, locks, dropped, billed)
    }

    /**
     Worker.run: read the payer and the account, drop the resources if the
     account is overdue, debit, write the state.  Raising leaves ledger and state
     alone, but not the drop.
     */
    method Work(w: World, p: ProjectId, begin: nat) returns (done: bool)
      requires Valid(w.config)
      modifies this`states, this`dropped, this`billed, db
      ensures var t := old(db.Snapshot());
        && done == (p in w.payers && Succeeds(t, Bill(w, p, begin)))
        && (done ==> states == Recorded(old(states), p, begin) && db.Snapshot() == Step(t, Bill(w, p, begin)))
        && (!done ==> states == old(states) && db.Snapshot() == t)
        && (dropped == old(dropped) || dropped == old(dropped) + [p])
        && (dropped == old(dropped) + [p] <==>
              && p in w.payers && w.payers[p] in t.accounts
              && var a := t.accounts[w.payers[p]];
              && a.owed && a.owedAt.Some? && w.now - a.owedAt.value > a.level * 86400
              && a.level != 9 && w.config.allowOweAction)
      ensures (done, Now()) == Worked(w, old(Now()), p, begin)
    {
      var cost := w.tariff(p, begin);
      if p !in w.payers || w.payers[p] !in db.accounts {
        return false;
      }
      var account := db.accounts[w.payers[p]];
      if account.owed && account.owedAt.Some? {
        var offset := w.now - account.owedAt.value;
        if !(offset <= account.level * DAY || account.level == UNLIMITED_LEVEL || !w.config.allowOweAction) {
          dropped := dropped + [p];
        }
      }
      var outcome := db.UpdateAccount(w.payers[p], p, cost, w.now);
      if outcome.Raised? {
        return false;
      }
      states := Recorded(states, p, begin);
      billed := billed + [Payment(p, begin, Bill(w, p, begin))];
      done := true;
    }

    /**
     One project of a pass.  If its lock can be taken the project is checked, then
     billed or taken off the list, and the lock is released unless that raised.
     */
    method Visit(w: World, p: ProjectId, rate: seq<ProjectId>) returns (done: bool, rest: seq<ProjectId>)
      requires Valid(w.config)
      modifies this, db
      ensures Loop(done, Now(), rest) == Visited(w, Loop(true, old(Now()), rate), p)
      ensures locks == if done then old(locks) else old(locks) + {p}
      ensures p in old(locks) ==> done && Now() == old(Now()) && rest == rate
    {
      rest := rate;
      if p in locks {
        return true, rest;
      }
      locks := locks + {p};
      var begin := Check(w, states, p);
      if begin.None? {
        return false, rest;
      }
      if begin.value == 0 {
        if p !in rate {
          return false, rest;
        }
        rest := RemoveFirst(rate, p);
      } else {
        done := Work(w, p, begin.value);
        if !done {
          return false, rest;
        }
      }
      locks := locks - {p};
      done := true;
    }

    /** One pass over a copy of the list. */
    method Pass(w: World, pass: seq<ProjectId>) returns (done: bool, rate: seq<ProjectId>)
      requires Valid(w.config)
      modifies this, db
      ensures Loop(done, Now(), rate) == VisitAll(w, Loop(true, old(Now()), pass), pass)
    {
      done, rate := true, pass;
      ghost var start := Loop(true, Now(), pass);
      for i := 0 to |pass|
        invariant done && Loop(true, Now(), rate) == VisitAll(w, start, pass[..i])
      {
        VisitAllSnoc(w, start, pass, i);
        done, rate := Visit(w, pass[i], rate);
        if !done {
          VisitAllStops(w, start, pass, i + 1);
          return false, rate;
        }
      }
      assert pass[..|pass|] == pass;
    }

    /** The loop, from a state l0 in which nothing has been billed yet. */
    method Drain(w: World, projects: seq<ProjectId>, ghost l0: Loop)
      returns (ok: bool, rate: seq<ProjectId>, ghost passes: nat)
      requires Sane(w) && l0 == Loop(true, Now(), projects) && Starts(l0) && Ends(w, l0)
      modifies this, db
      ensures Loop(ok, Now(), rate) == Passes(w, l0, passes) && (!ok || rate == [])
    {
      rate, ok, passes := projects, true, 0;
      while ok && |rate| > 0
        invariant Loop(ok, Now(), rate) == Passes(w, l0, passes)
        decreases ok, Left(w, l0, Passes(w, l0, passes))
      {
        NextPass(w, l0, passes);
        ok, rate := Pass(w, rate);
        passes := passes + 1;
      }
    }

    /**
     A whole run.  It ends whenever that is possible at all, and then as Ending
     says: with every project at the last period of its plan, or raised for one
     that could not be billed, whose lock stays held.  In every case the ledger is
     the result of the payments made, the paid periods are the first ones of each
     plan, and only projects have been dropped whose payers were overdue at the start.
     */
    method PrimaryPeriod(w: World, projects: seq<ProjectId>)
      returns (ok: bool, rate: seq<ProjectId>, ghost passes: nat)
      requires Sane(w) && Ends(w, Loop(true, Now().(billed := []), projects))
      modifies this, db
      ensures var l0, l := Loop(true, old(Now()).(billed := []), projects), Loop(ok, Now(), rate);
        l == Passes(w, l0, passes) && Ended(l) && Ending(w, l0, l)
    {
      ghost var l0 := Loop(true, Now().(billed := []), projects);
      billed := [];
      ok, rate, passes := Drain(w, projects, l0);
      EndsIff(w, l0);
    }
  }
}

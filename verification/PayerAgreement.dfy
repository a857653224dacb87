/**
 Who pays for a project, in two stores: the billing owner role in keystone and
 the payer in the ledger.  KeystoneBillingProtocol in
 shadowfiend/middleware/mid_keystone.py, one role request at a time, with
 failures allowed at every call it makes.
 */
module PayerAgreement {
  import opened Wrappers
  import opened Collections
  import opened Tables
  import opened Ledgers

  /** Keystone's holders of the billing owner role, project by project, and the ledger. */
  datatype Site = Site(holders: map<ProjectId, set<UserId>>, db: Tables)

  /**
   What happens to the calls of a role request.  Keystone refuses, or grants
   the request but answers with a body, which the middleware takes for a refusal;
   or a later call fails.  A lost reply is a failure after the effect.
   */
  datatype Fault =
    | NoFault
    | AppFails
    | AppAnswersBody
    | LedgerFails
    | ReplyLost
    | ListingFails
    | RemovalFails(removed: set<UserId>)

  datatype Response = Ok | OkWithBody | Forbidden403 | Error500 | AppError

  datatype Request =
    | PutRole(project: ProjectId, user: UserId, isBillingOwner: bool, fault: Fault, now: int)
    | DeleteRole(project: ProjectId, user: UserId, isBillingOwner: bool, fault: Fault)
    | DirectOwner(project: ProjectId, user: UserId, now: int)
    | LedgerCall(op: Op)

  /** The part of a PUT after keystone has assigned the role. */
  function OwnerChange(s: Site, p: ProjectId, u: UserId, fault: Fault, now: int): (Site, Response) {
    var op := ChangeBillingOwner(p, u, now);
    if fault.LedgerFails? || !Succeeds(s.db, op) then (s, Error500)
    else
      var s' := s.(db := Step(s.db, op));
      match fault
      case ReplyLost => (s', Error500)
      case ListingFails => (s', Error500)
      case RemovalFails(removed) => (s'.(holders := s.holders[p := At(s.holders, p) - (removed - {u})]), Error500)
      case _ => (s'.(holders := s.holders[p := At(s.holders, p) - (At(s.holders, p) - {u})]), Ok)
  }

  /** Keystone's own success, passed on. */
  function Granted(fault: Fault): Response {
    if fault.AppAnswersBody? then OkWithBody else Ok
  }

  function Respond(s: Site, r: Request): (Site, Response) {
    match r
    case PutRole(p, u, isBillingOwner, fault, now) =>
      if fault.AppFails? then (s, AppError)
      else if !isBillingOwner then (s, Granted(fault))
      else
        var s' := s.(holders := s.holders[p := At(s.holders, p) + {u}]);
        if fault.AppAnswersBody? then (s', OkWithBody) else OwnerChange(s', p, u, fault, now)
    case DeleteRole(p, u, isBillingOwner, fault) =>
      if !isBillingOwner then (s, if fault.AppFails? then AppError else Granted(fault))
      else if fault.LedgerFails? || p !in s.db.projects then (s, Error500)
      else if s.db.projects[p].payer == u then (s, Forbidden403)
      else if fault.AppFails? then (s, AppError)
      else (s.(holders := s.holders[p := At(s.holders, p) - {u}]), Granted(fault))
    case DirectOwner(p, u, now) => (s.(db := Step(s.db, ChangeBillingOwner(p, u, now))), Ok)
    case LedgerCall(op) => (s.(db := Step(s.db, op)), Ok)
  }

  function Serve(s: Site, rs: seq<Request>): Site {
    if rs == [] then s else Respond(Serve(s, rs[..|rs| - 1]), rs[|rs| - 1]).0
  }

  /** The ledger's payer of p holds the role in keystone. */
  predicate Agrees(s: Site, p: ProjectId) {
    p in s.db.projects ==> s.db.projects[p].payer in At(s.holders, p)
  }

  /** Requests that go through the middleware, and ledger calls that do not choose the payer of p. */
  predicate Guarded(r: Request, p: ProjectId) {
    match r
    case DirectOwner(q, _, _) => q != p
    case LedgerCall(op) =>
      && (op.ChangeBillingOwner? ==> op.project != p)
      && (op.CreateProject? ==> op.project != p)
    case _ => true
  }

  lemma AgreesStep(s: Site, r: Request, p: ProjectId)
    requires Agrees(s, p) && Guarded(r, p)
    ensures Agrees(Respond(s, r).0, p)
  {
  }

  /** A successful PUT leaves its user as the payer and as the only holder. */
  lemma PutSettlesOwner(s: Site, p: ProjectId, u: UserId, fault: Fault, now: int)
    ensures var (s', response) := Respond(s, PutRole(p, u, true, fault, now));
      response == Ok ==> p in s'.db.projects && s'.db.projects[p].payer == u && s'.holders[p] == {u}
  {
  }

  /**
   A DELETE is refused exactly for the payer of a known project; if keystone then
   grants it, the role is taken from its user and nobody else; the ledger never changes.
   */
  lemma DeleteExact(s: Site, p: ProjectId, u: UserId, isBillingOwner: bool, fault: Fault)
    ensures var (s', response) := Respond(s, DeleteRole(p, u, isBillingOwner, fault));
      && (response == Forbidden403 <==>
            isBillingOwner && !fault.LedgerFails? && p in s.db.projects && s.db.projects[p].payer == u)
      && (response == Error500 <==> isBillingOwner && (fault.LedgerFails? || p !in s.db.projects))
      && s'.db == s.db
      && s'.holders == if isBillingOwner && response in {Ok, OkWithBody}
                       then s.holders[p := At(s.holders, p) - {u}] else s.holders
  {
  }

  /** A PUT of another role, or one keystone refuses, changes nothing; any other gives its user the role. */
  lemma PutExact(s: Site, p: ProjectId, u: UserId, isBillingOwner: bool, fault: Fault, now: int)
    ensures var (s', response) := Respond(s, PutRole(p, u, isBillingOwner, fault, now));
      && (response == AppError <==> fault.AppFails?)
      && (if !isBillingOwner || fault.AppFails? then s' == s else u in At(s'.holders, p))
      && (response in {Ok, Error500} && isBillingOwner && !fault.LedgerFails? ==>
            s'.db == Step(s.db, ChangeBillingOwner(p, u, now)))
      && (forall r :: r != p ==> At(s'.holders, r) == At(s.holders, r))
  {
  }

  /** A call to the ledger or to the public owner change reaches the ledger and not keystone. */
  lemma LedgerCallExact(s: Site, op: Op, p: ProjectId, u: UserId, now: int)
    ensures Respond(s, LedgerCall(op)).0 == Site(s.holders, Step(s.db, op))
    ensures Respond(s, DirectOwner(p, u, now)).0 == Site(s.holders, Step(s.db, ChangeBillingOwner(p, u, now)))
  {
  }

  /**
   From the first successful PUT on, whatever requests follow and wherever they
   fail, the ledger's payer holds the role.
   */
  lemma {:induction false} PayerAlwaysHolds(s: Site, p: ProjectId, put: Request, rs: seq<Request>)
    requires put.PutRole? && put.project == p && put.isBillingOwner && Respond(s, put).1 == Ok
    requires forall i :: 0 <= i < |rs| ==> Guarded(rs[i], p)
    ensures Agrees(Serve(Respond(s, put).0, rs), p)
  {
    if rs == [] {
      PutSettlesOwner(s, p, put.user, put.fault, put.now);
    } else {
      PayerAlwaysHolds(s, p, put, rs[..|rs| - 1]);
      AgreesStep(Serve(Respond(s, put).0, rs[..|rs| - 1]), rs[|rs| - 1], p);
    }
  }

  /**
   The public billing_owner call changes the ledger alone: it keeps the
   agreement exactly when it fails or names someone who holds the role.
   */
  lemma DirectOwnerIff(s: Site, p: ProjectId, u: UserId, now: int)
    requires Agrees(s, p) && p in s.db.projects
    ensures Agrees(Respond(s, DirectOwner(p, u, now)).0, p) <==> u !in s.db.accounts || u in At(s.holders, p)
  {
  }

  // ---------- The payer a processor finds ----------

  /** Keystone lists the holders in an order of its own. */
  ghost predicate Lists(listing: seq<UserId>, holders: set<UserId>) {
    forall u :: u in listing <==> u in holders
  }

  /** get_rate_user: the first assignment listed, if any. */
  function RateUser(listing: seq<UserId>): Option<UserId> {
    if listing == [] then None else Some(listing[0])
  }

  /** The first one listed, and nobody if nobody is listed. */
  lemma FirstListed(u: UserId, rest: seq<UserId>)
    ensures RateUser([u] + rest) == Some(u) && RateUser([]) == None
  {
  }

  lemma {:induction false} ListingExists(holders: set<UserId>) returns (listing: seq<UserId>)
    ensures Lists(listing, holders)
    decreases |holders|
  {
    if holders == {} {
      listing := [];
    } else {
      var u :| u in holders;
      var rest := ListingExists(holders - {u});
      listing := [u] + rest;
      assert forall v :: v in holders <==> v == u || v in holders - {u};
    }
  }

  /** The processor finds the payer in every listing exactly when nobody else holds the role. */
  lemma RateUserIff(holders: set<UserId>, payer: UserId)
    ensures (forall listing :: Lists(listing, holders) ==> RateUser(listing) == Some(payer)) <==> holders == {payer}
  {
    if holders == {payer} {
      forall listing | Lists(listing, holders)
        ensures RateUser(listing) == Some(payer)
      {
        assert payer in listing && listing[0] in listing;
      }
    } else {
      var listing := ListingExists(holders);
      if exists u :: u in holders && u != payer {
        var u :| u in holders && u != payer;
        assert Lists([u] + listing, holders);
        assert RateUser([u] + listing) == Some(u);
      } else {
        assert holders == {};
        assert Lists([], holders);
        assert RateUser([]) == None;
      }
    }
  }

  /** Right after a successful PUT every processor charges the new payer. */
  lemma RateUserAfterPut(s: Site, p: ProjectId, u: UserId, fault: Fault, now: int, listing: seq<UserId>)
    requires Respond(s, PutRole(p, u, true, fault, now)).1 == Ok
    requires Lists(listing, At(Respond(s, PutRole(p, u, true, fault, now)).0.holders, p))
    ensures RateUser(listing) == Some(Respond(s, PutRole(p, u, true, fault, now)).0.db.projects[p].payer)
  {
    PutSettlesOwner(s, p, u, fault, now);
    RateUserIff({u}, u);
  }

  /**
   A PUT that keystone grants with a body reports success and leaves the ledger
   alone: unless its user already pays, a processor may find another user than
   the payer.
   */
  lemma GrantedWithBody(s: Site, p: ProjectId, u: UserId, fault: Fault, now: int)
    requires Agrees(s, p) && p in s.db.projects
    requires Respond(s, PutRole(p, u, true, fault, now)).1 == OkWithBody
    ensures var s' := Respond(s, PutRole(p, u, true, fault, now)).0;
      && s'.db == s.db && At(s'.holders, p) == At(s.holders, p) + {u} && Agrees(s', p)
      && ((forall listing :: Lists(listing, s'.holders[p]) ==> RateUser(listing) == Some(s.db.projects[p].payer))
          <==> At(s.holders, p) + {u} == {s.db.projects[p].payer})
  {
    RateUserIff(At(s.holders, p) + {u}, s.db.projects[p].payer);
  }

  // ---------- The middleware ----------

  /** What keystone makes of a request it is handed. */
  datatype AppResult = Refuses | Grants(withBody: bool)

  function AppFault(app: AppResult): Fault {
    match app
    case Refuses => AppFails
    case Grants(withBody) => if withBody then AppAnswersBody else NoFault
  }

  class Middleware {
    const ledger: Ledger
    var holders: map<ProjectId, set<UserId>>

    constructor (ledger: Ledger)
      ensures this.ledger == ledger && holders == map[]
    {
      this.ledger := ledger;
      holders := map[];
    }

    function Snapshot(): Site
      reads this, ledger
    {
      Site(holders, ledger.Snapshot())
    }

    /**
     Change the owner in the ledger, list the holders, and take the role from
     all but the new owner; `budget` removals succeed before one raises.
     */
    method AddRole(p: ProjectId, u: UserId, lost: bool, listing: Option<seq<UserId>>, budget: nat, now: int)
      returns (success: bool, ghost fault: Fault)
      requires p in holders && (listing.Some? ==> Lists(listing.value, holders[p]))
      modifies this, ledger
      ensures !fault.AppFails? && !fault.AppAnswersBody?
      ensures (Snapshot(), if success then Ok else Error500) == OwnerChange(old(Snapshot()), p, u, fault, now)
      ensures success == (Succeeds(old(ledger.Snapshot()), ChangeBillingOwner(p, u, now)) && !lost && listing.Some?
                          && Stale(listing.value, u) <= budget)
      ensures ledger.Snapshot() == Step(old(ledger.Snapshot()), ChangeBillingOwner(p, u, now))
      ensures holders.Keys == old(holders.Keys) && forall r :: r in holders && r != p ==> holders[r] == old(holders)[r]
      ensures old(holders)[p] * {u} <= holders[p] <= old(holders)[p]
      ensures success && u in old(holders)[p] ==> holders[p] == {u}
    {
      var outcome := ledger.ChangeBillingOwner(p, u, now);
      if outcome.Raised? {
        return false, LedgerFails;
      }
      if lost {
        return false, ReplyLost;
      }
      if listing.None? {
        return false, ListingFails;
      }
      var assignments := listing.value;
      ghost var before := holders[p];
      var removals := 0;
      for i := 0 to |assignments|
        invariant ledger.Snapshot() == Step(old(ledger.Snapshot()), ChangeBillingOwner(p, u, now))
        invariant p in holders && holders == old(holders)[p := holders[p]]
        invariant holders[p] == before - (SetOf(assignments[..i]) - {u})
        invariant removals == Stale(assignments[..i], u) <= budget
      {
        assert assignments[..i + 1][..i] == assignments[..i];
        assert SetOf(assignments[..i + 1]) == SetOf(assignments[..i]) + {assignments[i]};
        if assignments[i] != u {
          if removals == budget {
            StaleGrows(assignments, i + 1, u);
            return false, RemovalFails(SetOf(assignments[..i]));
          }
          holders := holders[p := holders[p] - {assignments[i]}];
          removals := removals + 1;
        }
      }
      assert assignments[..|assignments|] == assignments && SetOf(assignments) == before;
      return true, NoFault;
    }

    /** PUT of a role on a project: keystone first, then the ledger, then the other holders. */
    method Put(p: ProjectId, u: UserId, isBillingOwner: bool, app: AppResult, lost: bool,
               listing: Option<seq<UserId>>, budget: nat, now: int)
      returns (response: Response, ghost fault: Fault)
      requires listing.Some? ==> Lists(listing.value, At(holders, p) + {u})
      modifies this, ledger
      ensures (Snapshot(), response) == Respond(old(Snapshot()), PutRole(p, u, isBillingOwner, fault, now))
      ensures fault.AppFails? <==> app.Refuses?
      ensures fault.AppAnswersBody? <==> app.Grants? && app.withBody
      ensures response == AppError <==> app.Refuses?
      ensures response == OkWithBody <==> app.Grants? && app.withBody
      ensures app.Refuses? || !isBillingOwner ==> Snapshot() == old(Snapshot())
      ensures isBillingOwner && app == Grants(true) ==>
        Snapshot() == old(Snapshot()).(holders := old(holders)[p := At(old(holders), p) + {u}])
      ensures isBillingOwner && app == Grants(false) ==>
        && ledger.Snapshot() == Step(old(ledger.Snapshot()), ChangeBillingOwner(p, u, now))
        && u in At(holders, p)
        && (response == Ok <==>
              Succeeds(old(ledger.Snapshot()), ChangeBillingOwner(p, u, now)) && !lost && listing.Some?
              && Stale(listing.value, u) <= budget)
        && (response == Ok ==> At(holders, p) == {u})
      ensures forall r :: r != p ==> At(holders, r) == At(old(holders), r)
    {
      fault := AppFault(app);
      if app.Refuses? {
        return AppError, fault;
      }
      if !isBillingOwner {
        return if app.withBody then OkWithBody else Ok, fault;
      }
      holders := holders[p := At(holders, p) + {u}];
      if app.withBody {
        return OkWithBody, fault;
      }
      var success;
      success, fault := AddRole(p, u, lost, listing, budget, now);
      response := if success then Ok else Error500;
    }

    /** DELETE of a role on a project: refused for the current payer. */
    method Delete(p: ProjectId, u: UserId, isBillingOwner: bool, ledgerFails: bool, app: AppResult)
      returns (response: Response)
      modifies this
      ensures (Snapshot(), response) == Respond(old(Snapshot()), DeleteRole(p, u, isBillingOwner,
        if isBillingOwner && ledgerFails then LedgerFails else AppFault(app)))
      ensures response == Forbidden403 <==>
        isBillingOwner && !ledgerFails && p in ledger.projects && ledger.projects[p].payer == u
      ensures response == Error500 <==> isBillingOwner && (ledgerFails || p !in ledger.projects)
      ensures response == AppError <==> app.Refuses? && response != Forbidden403 && response != Error500
      ensures holders == if isBillingOwner && app.Grants? && response != Forbidden403 && response != Error500
                         then old(holders)[p := At(old(holders), p) - {u}] else old(holders)
      ensures ledger.Snapshot() == old(ledger.Snapshot())
    {
      if isBillingOwner {
        if ledgerFails || p !in ledger.projects {
          return Error500;
        }
        if ledger.projects[p].payer == u {
          return Forbidden403;
        }
      }
      if app.Refuses? {
        return AppError;
      }
      if isBillingOwner {
        holders := holders[p := At(holders, p) - {u}];
      }
      response := if app.withBody then OkWithBody else Ok;
    }
  }

  /** How many of the listed holders are not the new owner. */
  function Stale(listing: seq<UserId>, u: UserId): nat {
    if listing == [] then 0 else
      Stale(listing[..|listing| - 1], u) + if listing[|listing| - 1] == u then 0 else 1
  }

  lemma {:induction false} StaleGrows(listing: seq<UserId>, i: nat, u: UserId)
    requires i <= |listing|
    ensures Stale(listing[..i], u) <= Stale(listing, u)
    decreases |listing|
  {
    if i == |listing| {
      assert listing[..i] == listing;
    } else {
      StaleGrows(listing[..|listing| - 1], i, u);
      assert listing[..|listing| - 1][..i] == listing[..i];
    }
  }
}

/**
 Keystone's role and the ledger's payer meet where a processor reads the billing
 owner of a project and debits its account: Worker.run in
 shadowfiend/processor/service/service.py.
 */
module PayerDebits {
  import opened Wrappers
  import opened Tables
  import opened LedgerLaws
  import opened Billing
  import opened Protocol
  import opened PayerAgreement

  /** A run from the listing of the role's holders to the debit: the state after it, unless something raises. */
  function DebitListed(c: Config, s: State, q: Processor, listing: seq<UserId>, readAt: int, settleAt: int):
    Option<State>
    requires Valid(c)
  {
    match RateUser(listing)
    case None => None
    case Some(u) => Protocol.Execute(c, s, [ReadOwner(q, u), ReadAccount(q, readAt), Settle(q, settleAt)])
  }

  /** The processor debits the given user for the period it works on: one settlement, logged as such. */
  predicate Debits(s: State, s': State, q: Processor, u: UserId, settleAt: int) {
    && PcOf(s, q).Priced?
    && var Priced(p, begin, cost) := PcOf(s, q);
    && s'.log == s.log + [Debit(p, begin, cost, u, settleAt)]
    && Succeeds(s.db, UpdateAccount(u, p, cost, settleAt))
    && s'.db == Step(s.db, UpdateAccount(u, p, cost, settleAt))
  }

  lemma ThreeEvents(c: Config, s: State, a: Event, b: Event, d: Event)
    requires Valid(c)
    ensures Protocol.Execute(c, s, [a, b, d]) ==
      match Fire(c, s, a)
      case None => None
      case Some(s1) => (match Fire(c, s1, b) case None => None case Some(s2) => Fire(c, s2, d))
  {
    assert [a][..0] == [] && Protocol.Execute(c, s, []) == Some(s);
    assert Protocol.Execute(c, s, [a]) == Fire(c, s, a);
    assert [a, b][..1] == [a] && [a, b, d][..2] == [a, b];
  }

  lemma OwnerThenAccount(c: Config, s: State, q: Processor, u: UserId, readAt: int)
    requires Valid(c) && PcOf(s, q).Priced?
    ensures var Priced(p, begin, cost) := PcOf(s, q); var s1 := Fire(c, s, ReadOwner(q, u));
      && s1.Some?
      && var s2 := Fire(c, s1.value, ReadAccount(q, readAt));
      && (s2.Some? <==> u in s.db.accounts)
      && (s2.Some? ==> PcOf(s2.value, q) == Cleared(p, begin, cost, u) && s2.value.db == s.db && s2.value.log == s.log)
  {
  }

  /** Whoever is listed first is debited, if the three rows are there; otherwise the run raises. */
  lemma ListedIsDebited(c: Config, s: State, q: Processor, listing: seq<UserId>, readAt: int, settleAt: int)
    requires Valid(c) && PcOf(s, q).Priced?
    ensures var r := DebitListed(c, s, q, listing, readAt, settleAt);
      && (r.Some? <==>
            listing != []
            && Succeeds(s.db, UpdateAccount(listing[0], PcOf(s, q).project, PcOf(s, q).cost, settleAt)))
      && (r.Some? ==> Debits(s, r.value, q, listing[0], settleAt))
  {
    if listing != [] {
      OwnerThenAccount(c, s, q, listing[0], readAt);
      ThreeEvents(c, s, ReadOwner(q, listing[0]), ReadAccount(q, readAt), Settle(q, settleAt));
    }
  }

  /** The debit of this run succeeds and falls on u, whatever the order keystone lists the holders in. */
  ghost predicate AlwaysDebits(c: Config, s: State, q: Processor, holders: set<UserId>, u: UserId, readAt: int,
                               settleAt: int)
    requires Valid(c)
  {
    forall listing :: Lists(listing, holders) ==>
      var r := DebitListed(c, s, q, listing, readAt, settleAt);
      r.Some? && Debits(s, r.value, q, u, settleAt)
  }

  /**
   In a ledger with integrity the debit of a project succeeds and falls on the
   ledger's payer in every case exactly when the payer is the only holder of the role.
   */
  lemma DebitFallsOnPayerIff(c: Config, s: State, q: Processor, holders: set<UserId>, readAt: int, settleAt: int)
    requires Valid(c) && PcOf(s, q).Priced? && PcOf(s, q).project in s.db.projects && Integrity(s.db)
    ensures var payer := s.db.projects[PcOf(s, q).project].payer;
      AlwaysDebits(c, s, q, holders, payer, readAt, settleAt) <==> holders == {payer}
  {
    var payer := s.db.projects[PcOf(s, q).project].payer;
    RateUserIff(holders, payer);
    if holders == {payer} {
      forall listing | Lists(listing, holders)
        ensures var r := DebitListed(c, s, q, listing, readAt, settleAt);
          r.Some? && Debits(s, r.value, q, payer, settleAt)
      {
        assert RateUser(listing) == Some(payer);
        ListedIsDebited(c, s, q, listing, readAt, settleAt);
      }
    } else {
      var listing :| Lists(listing, holders) && RateUser(listing) != Some(payer);
      ListedIsDebited(c, s, q, listing, readAt, settleAt);
      OneUserDebited(s, q, listing, payer, DebitListed(c, s, q, listing, readAt, settleAt), settleAt);
    }
  }

  lemma OneUserDebited(s: State, q: Processor, listing: seq<UserId>, payer: UserId, r: Option<State>, settleAt: int)
    requires r.Some? ==> listing != [] && Debits(s, r.value, q, listing[0], settleAt)
    requires RateUser(listing) != Some(payer)
    ensures !(r.Some? && Debits(s, r.value, q, payer, settleAt))
  {
    if r.Some? {
      var Priced(p, begin, cost) := PcOf(s, q);
      SameLast(s.log, Debit(p, begin, cost, listing[0], settleAt), Debit(p, begin, cost, payer, settleAt));
    }
  }

  lemma SameLast(log: seq<Debit>, a: Debit, b: Debit)
    ensures log + [a] == log + [b] ==> a == b
  {
    assert (log + [a])[|log|] == a && (log + [b])[|log|] == b;
  }
}

/**
 One undisturbed round of a processor over one project: from taking the lock to
 releasing it, one event after the other.
 */
module Rounds {
  import opened Wrappers
  import opened Collections
  import opened Tables
  import opened LedgerLaws
  import opened Grace
  import opened StateStore
  import opened Billing
  import opened Protocol
  import opened ProtocolLaws

  /** What a round reads on its way: the clock, the cost, the payer, and the clock again. */
  datatype Reads = Reads(clock: nat, cost: real, payer: UserId, readAt: int, settleAt: int)

  lemma Extend(c: Config, init: State, es: seq<Event>, s: State, e: Event)
    requires Valid(c) && Protocol.Execute(c, init, es) == Some(s)
    ensures Protocol.Execute(c, init, es + [e]) == Fire(c, s, e)
  {
  }

  /** Further events, none of them a failure. */
  predicate Onward(es: seq<Event>, es': seq<Event>) {
    es <= es' && (Clean(es) ==> Clean(es'))
  }

  /** The check of project p answers begin. */
  predicate Answers(c: Config, s: State, p: ProjectId, clock: nat, begin: nat)
    requires Valid(c)
  {
    CheckState(c, At(s.states, p), At(s.meters, p), clock) == Some(begin)
  }

  /** All but the processor's own place and the locks. */
  predicate SameStores(s: State, s': State) {
    && s'.db == s.db && s'.states == s.states && s'.meters == s.meters && s'.ops == s.ops && s'.log == s.log
    && s'.stops == s.stops
  }

  /** Acquiring the lock. */
  lemma Take(c: Config, init: State, es: seq<Event>, s: State, q: Processor, p: ProjectId)
    returns (es': seq<Event>, s': State)
    requires Valid(c) && Protocol.Execute(c, init, es) == Some(s) && PcOf(s, q) == Idle && p !in s.locks
    ensures Protocol.Execute(c, init, es') == Some(s') && Onward(es, es')
    ensures SameStores(s, s') && s'.drops == s.drops && s'.locks == s.locks[p := q] && PcOf(s', q) == Locked(p)
  {
    Extend(c, init, es, s, Acquire(q, p));
    es', s' := es + [Acquire(q, p)], Fire(c, s, Acquire(q, p)).value;
  }

  /** Checking the state. */
  lemma Look(c: Config, init: State, es: seq<Event>, s: State, q: Processor, p: ProjectId, clock: nat, begin: nat)
    returns (es': seq<Event>, s': State)
    requires Valid(c) && Protocol.Execute(c, init, es) == Some(s) && PcOf(s, q) == Locked(p)
    requires Answers(c, s, p, clock, begin)
    ensures Protocol.Execute(c, init, es') == Some(s') && Onward(es, es')
    ensures SameStores(s, s') && s'.drops == s.drops && s'.locks == s.locks
    ensures PcOf(s', q) == if begin == 0 then Finished(p) else Begun(p, begin)
  {
    Extend(c, init, es, s, ReadTimestamp(q, clock));
    es', s' := es + [ReadTimestamp(q, clock)], Fire(c, s, ReadTimestamp(q, clock)).value;
    if PcOf(s', q).Resumed? {
      Extend(c, init, es', s', ReadTop(q));
      var s2 := Fire(c, s', ReadTop(q)).value;
      es', s' := es' + [ReadTop(q)], s2;
    }
  }

  /** From the cost to the payer's account. */
  lemma Price(c: Config, init: State, es: seq<Event>, s: State, q: Processor, p: ProjectId, begin: nat, r: Reads)
    returns (es': seq<Event>, s': State)
    requires Valid(c) && Protocol.Execute(c, init, es) == Some(s) && PcOf(s, q) == Begun(p, begin)
    requires r.cost >= 0.0 && r.payer in s.db.accounts
    ensures Protocol.Execute(c, init, es') == Some(s') && Onward(es, es')
    ensures SameStores(s, s') && s'.locks == s.locks && PcOf(s', q) == Cleared(p, begin, r.cost, r.payer)
    ensures var a := s.db.accounts[r.payer];
      s'.drops == if DropsResources(a, r.readAt, c.allowOweAction)
                  then s.drops + [Drop(p, r.payer, a, r.readAt, |s.ops|)] else s.drops
  {
    var a, b, d := ReadCost(q, r.cost), ReadOwner(q, r.payer), ReadAccount(q, r.readAt);
    var s1 := Costed(c, s, q, p, begin, r.cost);
    Extend(c, init, es, s, a);
    var s2 := Owned(c, s1, q, p, begin, r.cost, r.payer);
    Extend(c, init, es + [a], s1, b);
    Extend(c, init, es + [a] + [b], s2, d);
    es', s' := es + [a] + [b] + [d], Fire(c, s2, d).value;
  }

  lemma Costed(c: Config, s: State, q: Processor, p: ProjectId, begin: nat, cost: real) returns (s': State)
    requires Valid(c) && PcOf(s, q) == Begun(p, begin) && cost >= 0.0
    ensures Fire(c, s, ReadCost(q, cost)) == Some(s') && SameStores(s, s')
    ensures s'.locks == s.locks && s'.drops == s.drops && PcOf(s', q) == Priced(p, begin, cost)
  {
    s' := Fire(c, s, ReadCost(q, cost)).value;
  }

  lemma Owned(c: Config, s: State, q: Processor, p: ProjectId, begin: nat, cost: real, payer: UserId)
    returns (s': State)
    requires Valid(c) && PcOf(s, q) == Priced(p, begin, cost)
    ensures Fire(c, s, ReadOwner(q, payer)) == Some(s') && SameStores(s, s')
    ensures s'.locks == s.locks && s'.drops == s.drops && PcOf(s', q) == Addressed(p, begin, cost, payer)
  {
    s' := Fire(c, s, ReadOwner(q, payer)).value;
  }

  /** The debit. */
  lemma Pay(c: Config, init: State, es: seq<Event>, s: State, q: Processor, p: ProjectId, begin: nat, r: Reads)
    returns (es': seq<Event>, s': State)
    requires Valid(c) && Protocol.Execute(c, init, es) == Some(s)
    requires PcOf(s, q) == Cleared(p, begin, r.cost, r.payer)
    requires Succeeds(s.db, UpdateAccount(r.payer, p, r.cost, r.settleAt))
    ensures Protocol.Execute(c, init, es') == Some(s') && Onward(es, es')
    ensures PcOf(s', q) == Debited(p, begin) && s'.locks == s.locks && s'.drops == s.drops
    ensures s'.states == s.states && s'.meters == s.meters && s'.stops == s.stops
    ensures s'.db == Step(s.db, UpdateAccount(r.payer, p, r.cost, r.settleAt))
    ensures s'.log == s.log + [Debit(p, begin, r.cost, r.payer, r.settleAt)]
  {
    Extend(c, init, es, s, Settle(q, r.settleAt));
    es', s' := es + [Settle(q, r.settleAt)], Fire(c, s, Settle(q, r.settleAt)).value;
  }

  /** The state write. */
  lemma Record(c: Config, init: State, es: seq<Event>, s: State, q: Processor, p: ProjectId, begin: nat)
    returns (es': seq<Event>, s': State)
    requires Valid(c) && Protocol.Execute(c, init, es) == Some(s) && PcOf(s, q) == Debited(p, begin)
    ensures Protocol.Execute(c, init, es') == Some(s') && Onward(es, es')
    ensures PcOf(s', q) == Finished(p) && s'.states == s.states[p := At(s.states, p) + {begin}]
    ensures s'.db == s.db && s'.log == s.log && s'.stops == s.stops && s'.meters == s.meters
    ensures s'.locks == s.locks && s'.drops == s.drops
  {
    Extend(c, init, es, s, SetState(q));
    es', s' := es + [SetState(q)], Fire(c, s, SetState(q)).value;
  }

  /** The release of the lock. */
  lemma Free(c: Config, init: State, es: seq<Event>, s: State, q: Processor, p: ProjectId)
    returns (es': seq<Event>, s': State)
    requires Valid(c) && Protocol.Execute(c, init, es) == Some(s) && PcOf(s, q) == Finished(p)
    ensures Protocol.Execute(c, init, es') == Some(s') && Onward(es, es')
    ensures SameStores(s, s') && s'.drops == s.drops && s'.locks == s.locks - {p} && PcOf(s', q) == Idle
  {
    Extend(c, init, es, s, Release(q));
    es', s' := es + [Release(q)], Fire(c, s, Release(q)).value;
  }

  /** From the lock to the debit. */
  lemma GetDebited(c: Config, init: State, es: seq<Event>, s: State, q: Processor, p: ProjectId, begin: nat, r: Reads)
    returns (es': seq<Event>, s': State)
    requires Valid(c) && Protocol.Execute(c, init, es) == Some(s) && PcOf(s, q) == Idle && p !in s.locks
    requires Answers(c, s, p, r.clock, begin) && begin > 0 && r.cost >= 0.0
    requires Succeeds(s.db, UpdateAccount(r.payer, p, r.cost, r.settleAt))
    ensures Protocol.Execute(c, init, es') == Some(s') && Onward(es, es')
    ensures PcOf(s', q) == Debited(p, begin) && s'.locks == s.locks[p := q]
    ensures s'.states == s.states && s'.meters == s.meters && s'.stops == s.stops
    ensures s'.db == Step(s.db, UpdateAccount(r.payer, p, r.cost, r.settleAt))
    ensures s'.log == s.log + [Debit(p, begin, r.cost, r.payer, r.settleAt)]
  {
    var es1, s1 := Take(c, init, es, s, q, p);
    var es2, s2 := Look(c, init, es1, s1, q, p, r.clock, begin);
    var es3, s3 := Price(c, init, es2, s2, q, p, begin, r);
    es', s' := Pay(c, init, es3, s3, q, p, begin, r);
  }

  /**
   A free project whose check answers a period and whose settlement would succeed
   is billed by any idle processor: that period is debited once, at the cost read
   and from the account of the payer read, and recorded, and the lock is free again.
   */
  lemma RoundCompletes(c: Config, init: State, es: seq<Event>, s: State, q: Processor, p: ProjectId, begin: nat,
                       r: Reads)
    returns (es': seq<Event>, s': State)
    requires Valid(c) && Protocol.Execute(c, init, es) == Some(s) && PcOf(s, q) == Idle && p !in s.locks
    requires Answers(c, s, p, r.clock, begin) && begin > 0 && r.cost >= 0.0
    requires Succeeds(s.db, UpdateAccount(r.payer, p, r.cost, r.settleAt))
    ensures Protocol.Execute(c, init, es') == Some(s') && Onward(es, es')
    ensures PcOf(s', q) == Idle && s'.locks == s.locks
    ensures s'.db == Step(s.db, UpdateAccount(r.payer, p, r.cost, r.settleAt))
    ensures s'.states == s.states[p := At(s.states, p) + {begin}] && s'.meters == s.meters && s'.stops == s.stops
    ensures s'.log == s.log + [Debit(p, begin, r.cost, r.payer, r.settleAt)]
  {
    var es1, s1 := GetDebited(c, init, es, s, q, p, begin, r);
    var es2, s2 := Record(c, init, es1, s1, q, p, begin);
    es', s' := Free(c, init, es2, s2, q, p);
  }

  /** With nothing due a round only takes and frees the lock. */
  lemma IdleRoundCompletes(c: Config, init: State, es: seq<Event>, s: State, q: Processor, p: ProjectId, clock: nat)
    returns (es': seq<Event>, s': State)
    requires Valid(c) && Protocol.Execute(c, init, es) == Some(s) && PcOf(s, q) == Idle && p !in s.locks
    requires Answers(c, s, p, clock, 0)
    ensures Protocol.Execute(c, init, es') == Some(s') && Onward(es, es')
    ensures SameStores(s, s') && PcOf(s', q) == Idle && s'.locks == s.locks && s'.drops == s.drops
  {
    var es1, s1 := Take(c, init, es, s, q, p);
    var es2, s2 := Look(c, init, es1, s1, q, p, clock, 0);
    es', s' := Free(c, init, es2, s2, q, p);
  }

  /** A run that stops changes no store; an exception keeps every lock, a death frees exactly those of the processor. */
  lemma StopsAreClean(c: Config, s: State, q: Processor)
    requires Valid(c)
    ensures var raised, dead := Fire(c, s, Raise(q)), Fire(c, s, Crash(q));
      && raised.Some? && raised.value.locks == s.locks && PcOf(raised.value, q) == Idle
      && dead.Some? && PcOf(dead.value, q) == Idle
      && (forall p :: p in dead.value.locks <==> p in s.locks && s.locks[p] != q)
      && (forall p :: p in dead.value.locks ==> dead.value.locks[p] == s.locks[p])
    ensures var raised, dead := Fire(c, s, Raise(q)).value, Fire(c, s, Crash(q)).value;
      && raised == s.(pcs := raised.pcs, stops := raised.stops)
      && dead == s.(pcs := dead.pcs, stops := dead.stops, locks := dead.locks)
  {
  }

  /** Cloudkitty may record at any time, and clients may make any call but settlements. */
  lemma OthersServed(c: Config, s: State, p: ProjectId, ts: nat, op: Op)
    requires Valid(c) && !op.UpdateAccount? && NonNegativeCost(op)
    ensures Fire(c, s, Meter(p, ts)) == Some(s.(meters := s.meters[p := At(s.meters, p) + {ts}]))
    ensures Fire(c, s, Client(op)) == Some(s.(db := Step(s.db, op), ops := s.ops + [op]))
  {
  }
}

/**
 Metered requests as the server handles them (server/server.go, guard): each handler keeps
 the bucket object that its admission gave it and settles that object, without looking it up
 again. Whatever the table forgets meanwhile, the object is still the one stored under the
 request's key, so the server's tables and answers are those of the value-level runs.
 */
module Guard {
  import opened Budget
  import opened Admissions
  import opened Server

  /** What a handler keeps of its admission: the bucket itself, and the cap of its endpoint. */
  datatype Handler = Handler(bucket: Bucket, cap: int)

  /** Every unsettled request holds the very bucket that is stored under its key now. */
  ghost predicate Linked(budget: ClientBudget, tickets: map<nat, Ticket>, held: map<nat, Handler>)
    reads budget
  {
    && held.Keys == tickets.Keys
    && forall id :: id in tickets ==>
         && tickets[id].key in budget.seen && budget.seen[tickets[id].key] == held[id].bucket
         && tickets[id].cap == held[id].cap
  }

  /** Asks for admission and, when it is granted, keeps the bucket it came with. */
  method Admit(budget: ClientBudget, ghost s: System, ghost r: int, ghost last: int,
               held: map<nat, Handler>, id: nat, key: string, cap: int, now: int)
    returns (holding: map<nat, Handler>, verdict: Verdict, ghost e: Event)
    requires budget.Valid() && budget.Contents() == s.seen && Linked(budget, s.tickets, held)
    requires r >= 0 && Sound(budget.l, s, r, last) && last <= now && 0 < cap <= r
    requires id !in s.tickets && id !in s.settled
    modifies budget`seen, if key in budget.seen then {budget.seen[key]} else {}
    ensures e == Arrive(id, key, cap, now, SourceDrop(s.seen)) && Enabled(s, e)
    ensures budget.Valid() && (budget.Contents(), verdict) == (Next(budget.l, s, e).0.seen, Next(budget.l, s, e).1)
    ensures Linked(budget, Next(budget.l, s, e).0.tickets, holding)
    ensures forall k :: k in budget.seen ==>
              fresh(budget.seen[k]) || (k in old(budget.seen) && budget.seen[k] == old(budget.seen)[k])
  {
    hide Budget.Admit, Sound, SourceDrop, ClientBudget.Valid;
    e := Arrive(id, key, cap, now, SourceDrop(s.seen));
    HoldersActive(budget.l, s, r, last, now);
    var bucket;
    bucket, verdict := budget.TryAdmit(key, now);
    holding := held;
    if bucket != null {
      holding := held[id := Handler(bucket, cap)];
    }
  }

  lemma HoldersActive(l: Limits, s: System, r: int, last: int, now: int)
    requires l.Valid() && Sound(l, s, r, last)
    ensures forall id :: id in s.tickets ==> s.tickets[id].key in s.seen && s.seen[s.tickets[id].key].active >= 1
  {
    hide Sound, Sweep;
    forall id | id in s.tickets ensures s.tickets[id].key in s.seen && s.seen[s.tickets[id].key].active >= 1 {
      HeldIsKept(l, s, r, last, id, {}, now);
      TicketStored(l, s, r, last, id);
    }
  }

  lemma TicketStored(l: Limits, s: System, r: int, last: int, id: nat)
    requires Sound(l, s, r, last) && id in s.tickets
    ensures s.tickets[id].key in s.seen
  {
    hide SoundBucket;
  }

  /** Settles the bucket that the request has held since its admission. */
  method Settle(budget: ClientBudget, ghost s: System, held: map<nat, Handler>, id: nat, charge: int, now: int)
    returns (holding: map<nat, Handler>)
    requires budget.Valid() && budget.Contents() == s.seen && Linked(budget, s.tickets, held) && id in s.tickets
    modifies held[id].bucket
    ensures budget.Valid() && budget.Contents() == Finish(budget.l, s, id, charge, now).seen
    ensures Linked(budget, Finish(budget.l, s, id, charge, now).tickets, holding)
  {
    hide Budget.Settle;
    budget.SettleBucket(held[id].bucket, charge, now);
    holding := held - {id};
  }

  /** Carries out one event of a run: an admission, or a settlement at what was moved or, after a panic, the cap. */
  method Handle(budget: ClientBudget, ghost s: System, ghost r: int, ghost last: int,
                held: map<nat, Handler>, e: Event)
    returns (holding: map<nat, Handler>, verdict: Verdict)
    requires budget.Valid() && budget.Contents() == s.seen && Linked(budget, s.tickets, held)
    requires r >= 0 && Sound(budget.l, s, r, last) && last <= Time(e) && Enabled(s, e)
    requires e.Arrive? ==> e.cap <= r && e.drop == SourceDrop(s.seen)
    modifies budget`seen, budget.seen.Values
    ensures budget.Valid() && (budget.Contents(), verdict) == (Next(budget.l, s, e).0.seen, Next(budget.l, s, e).1)
    ensures Linked(budget, Next(budget.l, s, e).0.tickets, holding)
    ensures forall k :: k in budget.seen ==>
              fresh(budget.seen[k]) || (k in old(budget.seen) && budget.seen[k] == old(budget.seen)[k])
  {
    hide Sound, SourceDrop, Budget.Admit, Budget.Settle, ClientBudget.Valid;
    match e
    case Arrive(id, key, cap, now, _) =>
      ghost var asked;
      holding, verdict, asked := Admit(budget, s, r, last, held, id, key, cap, now);
    case Return(id, moved, now) =>
      holding := Settle(budget, s, held, id, moved, now);
      verdict := Admitted;
    case Panic(id, now) =>
      holding := Settle(budget, s, held, id, held[id].cap, now);
      verdict := Admitted;
  }

  /** Each arrival of the run sweeps the table as the source does, once it is large. */
  predicate SweepsAsSource(l: Limits, s: System, since: int, events: seq<Event>, r: int)
    requires l.Valid() && Legal(l, s, since, events, r)
    decreases |events|
  {
    events != [] ==>
      && (events[0].Arrive? ==> events[0].drop == SourceDrop(s.seen))
      && SweepsAsSource(l, Next(l, s, events[0]).0, Time(events[0]), events[1..], r)
  }

  /**
   A whole run on the objects, from an empty table: the verdicts and the final table are those
   of the value-level run, and every handler still unsettled holds the bucket stored for it.
   */
  method Serve(l: Limits, events: seq<Event>, ghost since: int, ghost r: int)
    returns (budget: ClientBudget, held: map<nat, Handler>, verdicts: seq<Verdict>)
    requires l.Valid() && r >= 0 && Legal(l, START, since, events, r) && SweepsAsSource(l, START, since, events, r)
    ensures fresh(budget) && budget.l == l && budget.Valid()
    ensures budget.Contents() == Exec(l, START, since, events, r).seen
    ensures Linked(budget, Exec(l, START, since, events, r).tickets, held)
    ensures verdicts == Verdicts(l, START, since, events, r)
  {
    hide Sound, SourceDrop, Next, Enabled, ClientBudget.Valid;
    budget := new ClientBudget(l);
    held, verdicts := map[], [];
    ghost var s, now := START, since;
    StartSound(l, r, since);
    var rest := events;
    while rest != []
      invariant fresh(budget) && budget.l == l && budget.Valid()
      invariant forall k :: k in budget.seen ==> fresh(budget.seen[k])
      invariant budget.Contents() == s.seen && Linked(budget, s.tickets, held)
      invariant Sound(l, s, r, now) && Legal(l, s, now, rest, r) && SweepsAsSource(l, s, now, rest, r)
      invariant Exec(l, START, since, events, r) == Exec(l, s, now, rest, r)
      invariant Verdicts(l, START, since, events, r) == verdicts + Verdicts(l, s, now, rest, r)
      decreases |rest|
    {
      var verdict;
      held, verdict := Handle(budget, s, r, now, held, rest[0]);
      NextSound(l, s, r, now, rest[0]);
      verdicts := verdicts + [verdict];
      s, now := Next(l, s, rest[0]).0, Time(rest[0]);
      rest := rest[1..];
    }
  }
}

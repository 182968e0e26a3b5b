/**
 Runs of many concurrent metered requests against one budget (server/server.go, guard):
 every interleaving of the atomic admissions and settlements, with a clock that does not
 run backwards.
 */
module Admissions {
  import opened Budget

  /** An admitted, unsettled request: its identity and the cap of its endpoint. */
  datatype Ticket = Ticket(key: string, cap: int)

  datatype Event =
    | Arrive(id: nat, key: string, cap: int, now: int, drop: set<string>)  // the handler asks for admission
    | Return(id: nat, moved: int, now: int)                               // the transfer returned
    | Panic(id: nat, now: int)                                            // the handler panicked

  /** What a request that is done had been admitted as, and what it was charged. */
  datatype Settlement = Settlement(ticket: Ticket, charge: int)

  datatype System = System(seen: Buckets, tickets: map<nat, Ticket>, settled: map<nat, Settlement>)

  const START := System(map[], map[], map[])

  /** The events a server can see: new requests, and the end of admitted ones within their cap. */
  predicate Enabled(s: System, e: Event) {
    match e
    case Arrive(id, _, cap, _, _) => id !in s.tickets && id !in s.settled && cap > 0
    case Return(id, moved, _) => id in s.tickets && 0 <= moved <= s.tickets[id].cap
    case Panic(id, _) => id in s.tickets
  }

  function Charge(s: System, e: Event): int
    requires Enabled(s, e)
  {
    match e
    case Arrive(_, _, _, _, _) => 0
    case Return(_, moved, _) => moved
    case Panic(id, _) => s.tickets[id].cap
  }

  function KeyOf(s: System, e: Event): string
    requires Enabled(s, e)
  {
    match e
    case Arrive(_, key, _, _, _) => key
    case Return(id, _, _) => s.tickets[id].key
    case Panic(id, _) => s.tickets[id].key
  }

  function Finish(l: Limits, s: System, id: nat, charge: int, now: int): System
    requires l.Valid() && id in s.tickets
  {
    System(Settle(l, s.seen, s.tickets[id].key, charge, now), s.tickets - {id},
           s.settled[id := Settlement(s.tickets[id], charge)])
  }

  /** One atomic step, and the verdict the client sees (Admitted for a request that ends). */
  function Next(l: Limits, s: System, e: Event): (System, Verdict)
    requires l.Valid() && Enabled(s, e)
  {
    match e
    case Arrive(id, key, cap, now, drop) =>
      var (seen, verdict) := Admit(l, s.seen, key, now, drop);
      (s.(seen := seen, tickets := if verdict.Admitted? then s.tickets[id := Ticket(key, cap)] else s.tickets), verdict)
    case Return(id, moved, now) => (Finish(l, s, id, moved, now), Admitted)
    case Panic(id, now) => (Finish(l, s, id, s.tickets[id].cap, now), Admitted)
  }

  // ---- Invariant of every reachable state ----

  function Holders(s: System, key: string): set<nat> {
    set id | id in s.tickets && s.tickets[id].key == key
  }

  /**
   What holds of every stored bucket: its active count is the number of tickets on it, within
   the concurrency limit; and even if every one of them still moves r bytes, the balance stays
   above minus concurrency times r.
   */
  predicate SoundBucket(l: Limits, b: BucketState, holders: nat, r: int) {
    && b.active == holders && holders <= l.concurrency
    && b.tokens <= l.max as real
    && b.tokens - (r * b.active) as real > -((l.concurrency * r) as real)
  }

  predicate Sound(l: Limits, s: System, r: int, now: int) {
    && (forall key :: key in s.seen ==> s.seen[key].last <= now && SoundBucket(l, s.seen[key], |Holders(s, key)|, r))
    && (forall id :: id in s.tickets ==> s.tickets[id].key in s.seen && 0 < s.tickets[id].cap <= r && id !in s.settled)
  }

  lemma RefillSound(l: Limits, b: BucketState, holders: nat, r: int, now: int)
    requires l.Valid() && SoundBucket(l, b, holders, r)
    ensures SoundBucket(l, Refill(l, b, now), holders, r)
    ensures b.tokens <= Refill(l, b, now).tokens
  {
    hide Credit;
    CreditNonNegative(l, if now > b.last then now - b.last else 0);
  }

  lemma FreshSound(l: Limits, r: int, now: int)
    requires l.Valid() && r >= 0
    ensures SoundBucket(l, Fresh(l, now), 0, r)
  {
    assert l.concurrency * r >= 0;
  }

  lemma DecideSound(l: Limits, b: BucketState, holders: nat, r: int)
    requires l.Valid() && r >= 0 && SoundBucket(l, b, holders, r)
    ensures var (n, verdict) := Decide(l, b);
            SoundBucket(l, n, if verdict.Admitted? then holders + 1 else holders, r)
  {
    hide WaitFor;
    if Decide(l, b).1.Admitted? {
      SlotFits(r, b.active + 1, l.concurrency);
    }
  }

  lemma SlotFits(r: int, active: int, limit: int)
    requires r >= 0 && active <= limit
    ensures r * active <= limit * r
  {
    assert r * (limit - active) >= 0;
  }

  lemma SettleSound(l: Limits, b: BucketState, holders: nat, r: int, n: int)
    requires l.Valid() && 0 <= n <= r && holders >= 1 && SoundBucket(l, b, holders, r)
    ensures SoundBucket(l, b.(tokens := b.tokens - n as real, active := b.active - 1), holders - 1, r)
  {
    assert r * (b.active - 1) == r * b.active - r;
  }

  lemma ViewSound(l: Limits, s: System, r: int, last: int, now: int, key: string)
    requires l.Valid() && r >= 0 && Sound(l, s, r, last) && last <= now
    ensures SoundBucket(l, View(l, s.seen, key, now), |Holders(s, key)|, r)
    ensures View(l, s.seen, key, now).last == now
  {
    hide SoundBucket, Balance;
    if key in s.seen {
      RefillSound(l, s.seen[key], |Holders(s, key)|, r, now);
    } else {
      assert Holders(s, key) == {};
      FreshSound(l, r, now);
    }
  }

  lemma HoldersTaken(s: System, id: nat, t: Ticket, key: string)
    requires id !in s.tickets
    ensures var n := s.(tickets := s.tickets[id := t]);
            |Holders(n, key)| == |Holders(s, key)| + if key == t.key then 1 else 0
  {
    var n := s.(tickets := s.tickets[id := t]);
    if key == t.key {
      assert Holders(n, key) == Holders(s, key) + {id};
    } else {
      assert Holders(n, key) == Holders(s, key);
    }
  }

  lemma HoldersGiven(s: System, id: nat, key: string)
    requires id in s.tickets
    ensures var n := s.(tickets := s.tickets - {id});
            |Holders(n, key)| == |Holders(s, key)| - if key == s.tickets[id].key then 1 else 0
    ensures |Holders(s, s.tickets[id].key)| >= 1
  {
    var n := s.(tickets := s.tickets - {id});
    assert id in Holders(s, s.tickets[id].key);
    if key == s.tickets[id].key {
      assert Holders(n, key) == Holders(s, key) - {id};
    } else {
      assert Holders(n, key) == Holders(s, key);
    }
  }

  // ---- Runs ----

  function Time(e: Event): int {
    e.now
  }

  /** A run that can happen from s on: enabled events in the order of the clock, with caps up to r. */
  predicate Legal(l: Limits, s: System, since: int, events: seq<Event>, r: int)
    requires l.Valid()
    decreases |events|
  {
    events != [] ==>
      && Enabled(s, events[0]) && since <= Time(events[0])
      && (events[0].Arrive? ==> events[0].cap <= r)
      && Legal(l, Next(l, s, events[0]).0, Time(events[0]), events[1..], r)
  }

  function Exec(l: Limits, s: System, since: int, events: seq<Event>, r: int): System
    requires l.Valid() && Legal(l, s, since, events, r)
    decreases |events|
  {
    if events == [] then s else Exec(l, Next(l, s, events[0]).0, Time(events[0]), events[1..], r)
  }

  function Verdicts(l: Limits, s: System, since: int, events: seq<Event>, r: int): seq<Verdict>
    requires l.Valid() && Legal(l, s, since, events, r)
    decreases |events|
  {
    if events == [] then []
    else
      var (n, verdict) := Next(l, s, events[0]);
      [verdict] + Verdicts(l, n, Time(events[0]), events[1..], r)
  }

  function EndTime(since: int, events: seq<Event>): int {
    if events == [] then since else Time(events[|events| - 1])
  }

  /** Bytes charged to one identity over a run. */
  function Charged(l: Limits, s: System, since: int, events: seq<Event>, r: int, key: string): int
    requires l.Valid() && Legal(l, s, since, events, r)
    decreases |events|
  {
    if events == [] then 0
    else
      (if KeyOf(s, events[0]) == key then Charge(s, events[0]) else 0)
      + Charged(l, Next(l, s, events[0]).0, Time(events[0]), events[1..], r, key)
  }

  // ---- Every step keeps the invariant ----

  lemma ArriveSound(l: Limits, s: System, r: int, last: int, e: Event)
    requires l.Valid() && r >= 0 && Sound(l, s, r, last) && e.Arrive? && Enabled(s, e)
    requires last <= e.now && e.cap <= r
    ensures Sound(l, Next(l, s, e).0, r, e.now)
  {
    hide SoundBucket, Holders, Refill, Balance, Evictable;
    var n := Next(l, s, e).0;
    var b := View(l, s.seen, e.key, e.now);
    ViewSound(l, s, r, last, e.now, e.key);
    DecideSound(l, b, |Holders(s, e.key)|, r);
    DecideKeepsTime(l, b);
    forall key | key in n.seen
      ensures n.seen[key].last <= e.now && SoundBucket(l, n.seen[key], |Holders(n, key)|, r)
    {
      if Decide(l, b).1.Admitted? {
        HoldersTaken(s, e.id, Ticket(e.key, e.cap), key);
        HoldersIgnoreSeen(n, s.(tickets := n.tickets), key);
      } else {
        HoldersIgnoreSeen(n, s, key);
      }
    }
    forall id | id in n.tickets ensures n.tickets[id].key in n.seen {
      if id in s.tickets {
        HeldIsKept(l, s, r, last, id, e.drop, e.now);
      }
    }
  }

  lemma DecideKeepsTime(l: Limits, b: BucketState)
    requires l.Valid()
    ensures Decide(l, b).0.last == b.last
  {
  }

  lemma HoldersIgnoreSeen(s: System, t: System, key: string)
    requires s.tickets == t.tickets
    ensures Holders(s, key) == Holders(t, key)
  {
  }

  /** The bucket of an unsettled ticket is never swept away: the ticket keeps it active. */
  lemma HeldIsKept(l: Limits, s: System, r: int, last: int, id: nat, drop: set<string>, now: int)
    requires l.Valid() && Sound(l, s, r, last) && id in s.tickets
    ensures var key := s.tickets[id].key;
            && key in Sweep(l, s.seen, drop, now) && Sweep(l, s.seen, drop, now)[key] == s.seen[key]
            && s.seen[key].active >= 1
  {
    hide Balance;
    HoldersGiven(s, id, s.tickets[id].key);
  }

  lemma FinishSound(l: Limits, s: System, r: int, last: int, id: nat, charge: int, now: int)
    requires l.Valid() && r >= 0 && Sound(l, s, r, last) && id in s.tickets
    requires last <= now && 0 <= charge <= s.tickets[id].cap
    ensures Sound(l, Finish(l, s, id, charge, now), r, now)
  {
    hide SoundBucket, Holders, Refill, Balance;
    var n := Finish(l, s, id, charge, now);
    var held := s.tickets[id].key;
    ViewSound(l, s, r, last, now, held);
    HoldersGiven(s, id, held);
    SettleSound(l, View(l, s.seen, held, now), |Holders(s, held)|, r, charge);
    forall key | key in n.seen
      ensures n.seen[key].last <= now && SoundBucket(l, n.seen[key], |Holders(n, key)|, r)
    {
      HoldersGiven(s, id, key);
      HoldersIgnoreSeen(n, s.(tickets := n.tickets), key);
    }
  }

  lemma NextSound(l: Limits, s: System, r: int, last: int, e: Event)
    requires l.Valid() && r >= 0 && Sound(l, s, r, last) && Enabled(s, e) && last <= Time(e)
    requires e.Arrive? ==> e.cap <= r
    ensures Sound(l, Next(l, s, e).0, r, Time(e))
  {
    hide Sound, Finish, Admit;
    match e
    case Arrive(_, _, _, _, _) => ArriveSound(l, s, r, last, e);
    case Return(id, moved, now) =>
      TicketCap(l, s, r, last, id);
      FinishSound(l, s, r, last, id, moved, now);
    case Panic(id, now) =>
      TicketCap(l, s, r, last, id);
      FinishSound(l, s, r, last, id, s.tickets[id].cap, now);
  }

  lemma TicketCap(l: Limits, s: System, r: int, last: int, id: nat)
    requires Sound(l, s, r, last) && id in s.tickets
    ensures 0 < s.tickets[id].cap <= r
  {
  }

  /** Ticket accounting and bounded debt in every reachable state, whatever was evicted. */
  lemma {:induction false} RunSound(l: Limits, s: System, since: int, events: seq<Event>, r: int)
    requires l.Valid() && r >= 0 && Sound(l, s, r, since) && Legal(l, s, since, events, r)
    ensures since <= EndTime(since, events)
    ensures Sound(l, Exec(l, s, since, events, r), r, EndTime(since, events))
    decreases |events|
  {
    hide Sound, Next, Enabled;
    if events == [] {
    } else {
      var e := events[0];
      NextSound(l, s, r, since, e);
      RunSound(l, Next(l, s, e).0, Time(e), events[1..], r);
      assert EndTime(Time(e), events[1..]) == EndTime(since, events);
    }
  }

  lemma StartSound(l: Limits, r: int, now: int)
    requires l.Valid()
    ensures Sound(l, START, r, now)
  {
  }

  /** No identity has more than the limit admitted at once, and an unsettled ticket's bucket is stored and active. */
  lemma TicketsAccounted(l: Limits, since: int, events: seq<Event>, r: int, key: string)
    requires l.Valid() && r >= 0 && Legal(l, START, since, events, r)
    ensures var s := Exec(l, START, since, events, r);
            && |Holders(s, key)| <= l.concurrency
            && (key in s.seen ==> s.seen[key].active == |Holders(s, key)|)
            && (Holders(s, key) != {} ==> key in s.seen && s.seen[key].active >= 1)
  {
    hide Legal, Exec, Holders, Balance;
    StartSound(l, r, since);
    RunSound(l, START, since, events, r);
    var s := Exec(l, START, since, events, r);
    if key !in s.seen {
      NoHolders(l, s, r, EndTime(since, events), key);
    }
  }

  lemma NoHolders(l: Limits, s: System, r: int, now: int, key: string)
    requires Sound(l, s, r, now) && key !in s.seen
    ensures Holders(s, key) == {}
  {
  }

  /** What the given unsettled requests may still move between them. */
  ghost function Outstanding(s: System, ids: set<nat>): int
    requires ids <= s.tickets.Keys
  {
    if ids == {} then 0
    else
      var id :| id in ids;
      s.tickets[id].cap + Outstanding(s, ids - {id})
  }

  lemma {:induction false} OutstandingAtMost(s: System, ids: set<nat>, r: int)
    requires ids <= s.tickets.Keys && forall id :: id in ids ==> s.tickets[id].cap <= r
    ensures Outstanding(s, ids) <= r * |ids|
  {
    if ids == {} {
    } else {
      forall id | id in ids ensures Outstanding(s, ids - {id}) <= r * |ids| - r {
        OutstandingAtMost(s, ids - {id}, r);
        assert r * |ids - {id}| == r * |ids| - r;
      }
    }
  }

  /** What one identity's admitted requests may still move is at most concurrency times r. */
  lemma OutstandingBounded(l: Limits, since: int, events: seq<Event>, r: int, key: string)
    requires l.Valid() && r >= 0 && Legal(l, START, since, events, r)
    ensures var s := Exec(l, START, since, events, r);
            Outstanding(s, Holders(s, key)) <= l.concurrency * r
  {
    hide Legal, Exec, Balance, SoundBucket;
    StartSound(l, r, since);
    RunSound(l, START, since, events, r);
    TicketsAccounted(l, since, events, r, key);
    var s := Exec(l, START, since, events, r);
    OutstandingAtMost(s, Holders(s, key), r);
    SlotFits(r, |Holders(s, key)|, l.concurrency);
  }

  /**
   A request is admitted exactly when its identity has a positive balance and fewer than the
   limit of its requests hold a slot; a refusal for bytes goes before one for concurrency.
   */
  lemma AdmittedExactly(l: Limits, s: System, r: int, last: int, e: Event)
    requires l.Valid() && r >= 0 && Sound(l, s, r, last) && Enabled(s, e) && e.Arrive? && last <= e.now
    ensures var balance, verdict := View(l, s.seen, e.key, e.now).tokens, Next(l, s, e).1;
            && (verdict.Admitted? <==> balance > 0.0 && |Holders(s, e.key)| < l.concurrency)
            && (verdict.BytesExhausted? <==> balance <= 0.0)
  {
    hide Sound, View, Holders, WaitFor, Sweep;
    ViewSound(l, s, r, last, e.now, e.key);
  }

  // ---- Each admission is settled exactly once ----

  /** The requests admitted over a run. */
  function AdmittedIds(l: Limits, s: System, since: int, events: seq<Event>, r: int): set<nat>
    requires l.Valid() && Legal(l, s, since, events, r)
    decreases |events|
  {
    if events == [] then {}
    else
      var (n, verdict) := Next(l, s, events[0]);
      (if events[0].Arrive? && verdict.Admitted? then {events[0].id} else {})
      + AdmittedIds(l, n, Time(events[0]), events[1..], r)
  }

  /** A request that held its slot in s still does in n, or was settled under the same ticket. */
  predicate TicketKept(s: System, n: System, id: nat) {
    id in s.tickets ==>
      || (id in n.tickets && n.tickets[id] == s.tickets[id])
      || (id in n.settled && n.settled[id].ticket == s.tickets[id])
  }

  /** The request that ended with e was charged what it moved or, after a panic, the cap it was admitted with. */
  predicate ChargedAs(n: System, e: Event) {
    !e.Arrive? ==> e.id in n.settled
                   && n.settled[e.id].charge == if e.Return? then e.moved else n.settled[e.id].ticket.cap
  }

  lemma NextAccounts(l: Limits, s: System, e: Event)
    requires l.Valid() && Enabled(s, e) && s.tickets.Keys !! s.settled.Keys
    ensures var (n, verdict) := Next(l, s, e);
            && n.tickets.Keys !! n.settled.Keys
            && n.tickets.Keys + n.settled.Keys
               == s.tickets.Keys + s.settled.Keys + (if e.Arrive? && verdict.Admitted? then {e.id} else {})
            && (forall id :: id in s.settled ==> id in n.settled && n.settled[id] == s.settled[id])
            && (e.Arrive? && verdict.Admitted? ==> n.tickets[e.id] == Ticket(e.key, e.cap))
            && (forall id :: TicketKept(s, n, id)) && ChargedAs(n, e)
            && (if e.Arrive? then n.settled == s.settled
                else n.settled == s.settled[e.id := Settlement(s.tickets[e.id], Charge(s, e))])
  {
    hide Admit, Settle;
  }

  /**
   After any run, every request ever admitted is either still holding its slot, on the same
   ticket, or was settled, never both; a settlement once made is never made again or changed;
   and it charged the bytes moved or, on a panic, the cap of the request.
   */
  lemma {:induction false} SettledOnce(l: Limits, s: System, since: int, events: seq<Event>, r: int)
    requires l.Valid() && Legal(l, s, since, events, r) && s.tickets.Keys !! s.settled.Keys
    ensures var n := Exec(l, s, since, events, r);
            && n.tickets.Keys !! n.settled.Keys
            && n.tickets.Keys + n.settled.Keys == s.tickets.Keys + s.settled.Keys + AdmittedIds(l, s, since, events, r)
            && (forall id :: id in s.settled ==> id in n.settled && n.settled[id] == s.settled[id])
            && (forall id :: TicketKept(s, n, id))
            && (forall i :: 0 <= i < |events| ==> ChargedAs(n, events[i]))
    decreases |events|
  {
    hide Next, Enabled;
    if events == [] {
    } else {
      var m := Next(l, s, events[0]).0;
      NextAccounts(l, s, events[0]);
      SettledOnce(l, m, Time(events[0]), events[1..], r);
      var n := Exec(l, s, since, events, r);
      forall id ensures TicketKept(s, n, id) {
        assert TicketKept(s, m, id) && TicketKept(m, n, id);
      }
      forall i | 0 <= i < |events| ensures ChargedAs(n, events[i]) {
        if i > 0 {
          assert ChargedAs(n, events[1..][i - 1]);
        }
      }
    }
  }

  // ---- The charges add up ----

  /** What the given settled requests of one identity were charged between them. */
  ghost function SettledTotal(settled: map<nat, Settlement>, ids: set<nat>, key: string): int
    requires ids <= settled.Keys
  {
    if ids == {} then 0
    else
      var id :| id in ids;
      Part(settled, id, key) + SettledTotal(settled, ids - {id}, key)
  }

  function Part(settled: map<nat, Settlement>, id: nat, key: string): int
    requires id in settled
  {
    if settled[id].ticket.key == key then settled[id].charge else 0
  }

  /** The order in which settlements are added up does not matter. */
  lemma {:induction false} TotalWithout(settled: map<nat, Settlement>, ids: set<nat>, key: string, id: nat)
    requires ids <= settled.Keys && id in ids
    ensures SettledTotal(settled, ids, key) == Part(settled, id, key) + SettledTotal(settled, ids - {id}, key)
  {
    hide Part;
    var first :| first in ids && SettledTotal(settled, ids, key)
                                 == Part(settled, first, key) + SettledTotal(settled, ids - {first}, key);
    if first == id {
    } else {
      TotalWithout(settled, ids - {first}, key, id);
      TotalWithout(settled, ids - {id}, key, first);
      assert ids - {first} - {id} == ids - {id} - {first};
    }
  }

  lemma {:induction false} TotalUnchanged(a: map<nat, Settlement>, b: map<nat, Settlement>, ids: set<nat>, key: string)
    requires ids <= a.Keys && ids <= b.Keys && forall id :: id in ids ==> a[id] == b[id]
    ensures SettledTotal(a, ids, key) == SettledTotal(b, ids, key)
  {
    if ids == {} {
    } else {
      var id :| id in ids;
      TotalWithout(a, ids, key, id);
      TotalWithout(b, ids, key, id);
      TotalUnchanged(a, b, ids - {id}, key);
    }
  }

  lemma TotalMore(settled: map<nat, Settlement>, id: nat, x: Settlement, key: string)
    requires id !in settled
    ensures var more := settled[id := x];
            SettledTotal(more, more.Keys, key)
            == SettledTotal(settled, settled.Keys, key) + if x.ticket.key == key then x.charge else 0
  {
    var more := settled[id := x];
    TotalWithout(more, more.Keys, key, id);
    assert more.Keys - {id} == settled.Keys;
    TotalUnchanged(more, settled, settled.Keys, key);
  }

  /** What an identity was charged over a run is the sum of the settlements the run made for it. */
  lemma {:induction false} ChargesAddUp(l: Limits, s: System, since: int, events: seq<Event>, r: int, key: string)
    requires l.Valid() && Legal(l, s, since, events, r) && s.tickets.Keys !! s.settled.Keys
    ensures var n := Exec(l, s, since, events, r);
            SettledTotal(n.settled, n.settled.Keys, key)
            == SettledTotal(s.settled, s.settled.Keys, key) + Charged(l, s, since, events, r, key)
    decreases |events|
  {
    hide Next, SettledTotal;
    if events == [] {
    } else {
      var e := events[0];
      NextAccounts(l, s, e);
      ChargesAddUp(l, Next(l, s, e).0, Time(e), events[1..], r, key);
      if !e.Arrive? {
        TotalMore(s.settled, e.id, Settlement(s.tickets[e.id], Charge(s, e)), key);
      }
    }
  }

  // ---- Spending over a span of time ----

  lemma ViewLater(l: Limits, s: System, r: int, last: int, t1: int, t2: int, key: string)
    requires l.Valid() && Sound(l, s, r, last) && last <= t1 <= t2
    ensures View(l, s.seen, key, t2) == Refill(l, View(l, s.seen, key, t1), t2)
  {
    hide SoundBucket, Refill, Holders;
    if key in s.seen {
      LazyRefill(l, s.seen[key], t1, t2);
    } else {
      FreshStaysFresh(l, t1, t2);
    }
  }

  lemma RefillAtMostCredit(l: Limits, b: BucketState, now: int)
    requires l.Valid() && b.last <= now
    ensures Refill(l, b, now).tokens <= b.tokens + Credit(l, now - b.last)
  {
    hide Credit;
    CreditNonNegative(l, 0);
  }

  /** A step changes the balance known of an identity now only by what it charges it. */
  lemma NextView(l: Limits, s: System, e: Event, key: string)
    requires l.Valid() && Enabled(s, e) && Charge(s, e) >= 0
    ensures var n, now := Next(l, s, e).0, Time(e);
            View(l, n.seen, key, now).tokens
            == View(l, s.seen, key, now).tokens - (if KeyOf(s, e) == key then Charge(s, e) else 0) as real
  {
    hide View, Admit, Settle, WaitFor;
    match e
    case Arrive(_, k, _, now, drop) => AdmitView(l, s.seen, k, now, drop, key);
    case Return(id, moved, now) => SettleView(l, s.seen, s.tickets[id].key, moved, now, key);
    case Panic(id, now) => SettleView(l, s.seen, s.tickets[id].key, s.tickets[id].cap, now, key);
  }

  lemma ChargeBounds(l: Limits, s: System, r: int, last: int, e: Event)
    requires l.Valid() && r >= 0 && Sound(l, s, r, last) && Enabled(s, e)
    ensures 0 <= Charge(s, e) <= r
  {
  }

  /** What an identity was charged since a moment is what its balance lost, beyond the credit of that time. */
  lemma {:induction false} Spending(l: Limits, s: System, since: int, events: seq<Event>, r: int, key: string,
                                    until: int)
    requires l.Valid() && r >= 0 && Sound(l, s, r, since) && Legal(l, s, since, events, r)
    requires EndTime(since, events) <= until
    ensures View(l, Exec(l, s, since, events, r).seen, key, until).tokens
            <= View(l, s.seen, key, since).tokens + Credit(l, until - since)
               - Charged(l, s, since, events, r, key) as real
    decreases |events|
  {
    hide Next, Enabled, Sound, View, Credit, Charge, KeyOf, Refill;
    if events == [] {
      SpendNothing(l, s, r, since, until, key);
    } else {
      var e := events[0];
      var n := Next(l, s, e).0;
      NextSound(l, s, r, since, e);
      RunSound(l, n, Time(e), events[1..], r);
      assert EndTime(Time(e), events[1..]) == EndTime(since, events);
      Spending(l, n, Time(e), events[1..], r, key, until);
      ChargeBounds(l, s, r, since, e);
      NextView(l, s, e, key);
      SpendNothing(l, s, r, since, Time(e), key);
      CreditAdds(l, Time(e) - since, until - Time(e));
    }
  }

  lemma SpendNothing(l: Limits, s: System, r: int, t1: int, t2: int, key: string)
    requires l.Valid() && Sound(l, s, r, t1) && t1 <= t2
    ensures View(l, s.seen, key, t2).tokens <= View(l, s.seen, key, t1).tokens + Credit(l, t2 - t1)
  {
    hide Sound, Credit, Refill;
    ViewLater(l, s, r, t1, t1, t2, key);
    ViewCapped(l, s.seen, key, t1);
    RefillAtMostCredit(l, View(l, s.seen, key, t1), t2);
  }

  /**
   Bounded rate: over any span of any run, evictions included, the bytes charged to one
   identity stay below its budget, plus what the span refills, plus concurrency times r.
   */
  lemma ChargedBounded(l: Limits, s: System, since: int, events: seq<Event>, r: int, key: string, until: int)
    requires l.Valid() && r >= 0 && Sound(l, s, r, since) && Legal(l, s, since, events, r)
    requires EndTime(since, events) <= until
    ensures Charged(l, s, since, events, r, key) as real
            < l.max as real * (1.0 + (until - since) as real / l.window as real) + (l.concurrency * r) as real
  {
    hide Sound, Legal, Exec, Charged, Credit, Refill, View, SoundBucket;
    var n := Exec(l, s, since, events, r);
    RunSound(l, s, since, events, r);
    Spending(l, s, since, events, r, key, until);
    ViewSound(l, n, r, EndTime(since, events), until, key);
    DebtBounded(l, View(l, n.seen, key, until), |Holders(n, key)|, r);
    ViewCapped(l, s.seen, key, since);
    CreditShare(l, until - since);
  }

  lemma DebtBounded(l: Limits, b: BucketState, holders: nat, r: int)
    requires r >= 0 && SoundBucket(l, b, holders, r)
    ensures b.tokens > -((l.concurrency * r) as real)
  {
    assert r * b.active >= 0;
  }

  lemma CreditShare(l: Limits, elapsed: int)
    requires l.Valid()
    ensures l.max as real + Credit(l, elapsed) == l.max as real * (1.0 + elapsed as real / l.window as real)
  {
    var m, d, w := l.max as real, elapsed as real, l.window as real;
    assert m * d / w == m * (d / w);
  }

  // ---- Eviction is unobservable ----

  /** No observation from now on tells the two systems apart. */
  ghost predicate Alike(l: Limits, s: System, t: System, now: int)
    requires l.Valid()
  {
    && s.tickets == t.tickets && s.settled == t.settled
    && forall key :: View(l, s.seen, key, now) == View(l, t.seen, key, now)
  }

  /** The same event, except that another choice of identities may be forgotten. */
  predicate SameButDrop(e: Event, f: Event) {
    if e.Arrive? then f.Arrive? && f == e.(drop := f.drop) else e == f
  }

  predicate SameButDrops(events: seq<Event>, others: seq<Event>) {
    |events| == |others| && forall k :: 0 <= k < |events| ==> SameButDrop(events[k], others[k])
  }

  lemma AlikeLater(l: Limits, s: System, t: System, r: int, t1: int, t2: int)
    requires l.Valid() && Sound(l, s, r, t1) && Sound(l, t, r, t1) && Alike(l, s, t, t1) && t1 <= t2
    ensures Alike(l, s, t, t2)
  {
    hide Sound, View, Refill;
    forall key ensures View(l, s.seen, key, t2) == View(l, t.seen, key, t2) {
      ViewLater(l, s, r, t1, t1, t2, key);
      ViewLater(l, t, r, t1, t1, t2, key);
    }
  }

  lemma NextAlike(l: Limits, s: System, t: System, e: Event, f: Event)
    requires l.Valid() && Alike(l, s, t, Time(e)) && SameButDrop(e, f) && Enabled(s, e)
    requires Charge(s, e) >= 0
    ensures Enabled(t, f)
    ensures Next(l, s, e).1 == Next(l, t, f).1
    ensures Alike(l, Next(l, s, e).0, Next(l, t, f).0, Time(e))
  {
    hide View, Sweep, Settle, Decide;
    var n, m := Next(l, s, e).0, Next(l, t, f).0;
    forall key ensures View(l, n.seen, key, Time(e)) == View(l, m.seen, key, Time(e)) {
      match e
      case Arrive(_, k, _, now, drop) =>
        AdmitView(l, s.seen, k, now, drop, key);
        AdmitView(l, t.seen, k, now, f.drop, key);
      case Return(id, moved, now) =>
        SettleView(l, s.seen, s.tickets[id].key, moved, now, key);
        SettleView(l, t.seen, s.tickets[id].key, moved, now, key);
      case Panic(id, now) =>
        SettleView(l, s.seen, s.tickets[id].key, s.tickets[id].cap, now, key);
        SettleView(l, t.seen, s.tickets[id].key, s.tickets[id].cap, now, key);
    }
  }

  /**
   Two alike systems that see the same events, but may forget different idle and replenished
   identities, give every request the same verdict and wait, and stay alike.
   */
  lemma {:induction false} AlikeRuns(l: Limits, s: System, t: System, since: int,
                                     events: seq<Event>, others: seq<Event>, r: int)
    requires l.Valid() && r >= 0 && Sound(l, s, r, since) && Sound(l, t, r, since)
    requires Alike(l, s, t, since) && SameButDrops(events, others) && Legal(l, s, since, events, r)
    ensures Legal(l, t, since, others, r)
    ensures Verdicts(l, s, since, events, r) == Verdicts(l, t, since, others, r)
    ensures Alike(l, Exec(l, s, since, events, r), Exec(l, t, since, others, r), EndTime(since, events))
    decreases |events|
  {
    hide Next, Enabled, Sound, Alike, Charge;
    if events == [] {
    } else {
      var e, f := events[0], others[0];
      assert SameButDrop(e, f);
      AlikeLater(l, s, t, r, since, Time(e));
      ChargeBounds(l, s, r, since, e);
      NextAlike(l, s, t, e, f);
      NextSound(l, s, r, since, e);
      NextSound(l, t, r, since, f);
      assert SameButDrops(events[1..], others[1..]) by {
        forall k | 0 <= k < |events[1..]| ensures SameButDrop(events[1..][k], others[1..][k]) {
          assert SameButDrop(events[k + 1], others[k + 1]);
        }
      }
      AlikeRuns(l, Next(l, s, e).0, Next(l, t, f).0, Time(e), events[1..], others[1..], r);
      assert EndTime(Time(e), events[1..]) == EndTime(since, events);
    }
  }

  /** The same run on a server that never forgets anybody. */
  function NeverEvicting(events: seq<Event>): (r: seq<Event>)
    ensures |r| == |events|
  {
    seq(|events|, i requires 0 <= i < |events| => if events[i].Arrive? then events[i].(drop := {}) else events[i])
  }

  /** Eviction is unobservable: it changes no verdict, no wait and no later balance. */
  lemma EvictionUnobservable(l: Limits, since: int, events: seq<Event>, r: int)
    requires l.Valid() && r >= 0 && Legal(l, START, since, events, r)
    ensures var others := NeverEvicting(events);
            && Legal(l, START, since, others, r)
            && Verdicts(l, START, since, events, r) == Verdicts(l, START, since, others, r)
            && Alike(l, Exec(l, START, since, events, r), Exec(l, START, since, others, r), EndTime(since, events))
  {
    hide Legal, Verdicts, Exec;
    StartSound(l, r, since);
    AlikeRuns(l, START, START, since, events, NeverEvicting(events), r);
  }

  /** A refused request leaves no trace: everything that follows goes as if it had not been made. */
  lemma RefusalInvisible(l: Limits, s: System, since: int, e: Event, events: seq<Event>, r: int)
    requires l.Valid() && r >= 0 && Sound(l, s, r, since) && Legal(l, s, since, [e] + events, r)
    requires e.Arrive? && !Next(l, s, e).1.Admitted?
    ensures Legal(l, s, since, events, r)
    ensures Verdicts(l, s, since, [e] + events, r) == [Next(l, s, e).1] + Verdicts(l, s, since, events, r)
  {
    hide Sound, Alike;
    assert ([e] + events)[1..] == events;
    var n := Next(l, s, e).0;
    RefusalAlike(l, s, e);
    hide Next, Enabled;
    NextSound(l, s, r, since, e);
    SoundLater(l, s, r, since, Time(e));
    SameEvents(events);
    AlikeRuns(l, n, s, Time(e), events, events, r);
    LegalEarlier(l, s, since, Time(e), events, r);
  }

  lemma RefusalAlike(l: Limits, s: System, e: Event)
    requires l.Valid() && Enabled(s, e) && e.Arrive? && !Next(l, s, e).1.Admitted?
    ensures Alike(l, Next(l, s, e).0, s, e.now)
  {
    hide View, Sweep, WaitFor;
    forall key ensures View(l, Next(l, s, e).0.seen, key, e.now) == View(l, s.seen, key, e.now) {
      AdmitView(l, s.seen, e.key, e.now, e.drop, key);
    }
  }

  lemma SoundLater(l: Limits, s: System, r: int, t1: int, t2: int)
    requires Sound(l, s, r, t1) && t1 <= t2
    ensures Sound(l, s, r, t2)
  {
    hide SoundBucket, Holders;
  }

  lemma SameEvents(events: seq<Event>)
    ensures SameButDrops(events, events)
  {
  }

  lemma LegalEarlier(l: Limits, s: System, t1: int, t2: int, events: seq<Event>, r: int)
    requires l.Valid() && t1 <= t2 && Legal(l, s, t2, events, r)
    ensures Legal(l, s, t1, events, r)
    ensures Verdicts(l, s, t1, events, r) == Verdicts(l, s, t2, events, r)
  {
    hide Next, Enabled;
  }
}

/**
 The connection registry of a transport the library owns (transport.go): dialled
 connections are tracked so that teardown can close them, while dials may still complete
 and callers may still close connections of their own. A step is one locked section or one
 close of an underlying connection.
 */
module Registry {

  type Conn = nat

  /** What the mutex guards. */
  datatype Core = Core(conns: set<Conn>, closed: bool)

  /** Files a connection unless teardown has begun; says whether it was filed. */
  function Filed(r: Core, c: Conn): (Core, bool) {
    if r.closed then (r, false) else (r.(conns := r.conns + {c}), true)
  }

  function Forgotten(r: Core, c: Conn): Core {
    r.(conns := r.conns - {c})
  }

  /** Latches teardown and takes the snapshot to close. */
  function Snapshotted(r: Core): (Core, set<Conn>) {
    (r.(closed := true), r.conns)
  }

  /** The locked sections, in place. */
  class OwnedTransport {
    var conns: set<Conn>
    var closed: bool

    ghost function State(): Core
      reads this
    {
      Core(conns, closed)
    }

    constructor ()
      ensures State() == Core({}, false)
    {
      conns, closed := {}, false;
    }

    method File(c: Conn) returns (filed: bool)
      modifies this
      ensures (State(), filed) == Filed(old(State()), c)
    {
      if closed {
        return false;
      }
      conns := conns + {c};
      filed := true;
    }

    method Forget(c: Conn)
      modifies this`conns
      ensures State() == Forgotten(old(State()), c)
    {
      conns := conns - {c};
    }

    method Latch() returns (snapshot: seq<Conn>)
      modifies this`closed
      ensures State() == Snapshotted(old(State())).0
      ensures (forall c :: c in snapshot <==> c in Snapshotted(old(State())).1) && |snapshot| == |conns|
    {
      closed := true;
      snapshot := [];
      var rest := conns;
      while rest != {}
        invariant rest <= conns && |snapshot| + |rest| == |conns|
        invariant forall c :: c in snapshot <==> c in conns - rest
        decreases |rest|
      {
        var c :| c in rest;
        snapshot := snapshot + [c];
        rest := rest - {c};
      }
    }
  }

  // ---- Concurrent calls ----

  /**
   A call under way. Tracking has dialled c and not filed it yet; Rejecting found teardown
   latched and will close c itself; Closing is a Close that has still to forget c, and
   Releasing one that has only the underlying close left; Sweeping is a closeAll past its
   latch with rest still to close, at times in the middle of closing one of them.
   */
  datatype Proc =
    | Tracking(c: Conn)
    | Rejecting(c: Conn)
    | Closing(c: Conn)
    | Releasing(c: Conn)
    | TearingDown
    | Sweeping(rest: set<Conn>)
    | SweepClosing(c: Conn, rest: set<Conn>)
    | SweepReleasing(c: Conn, rest: set<Conn>)

  /** dialled are all connections ever dialled, open those not yet closed, handed those track returned. */
  datatype System = System(core: Core, dialled: set<Conn>, open: set<Conn>, handed: set<Conn>, raw: set<Conn>,
                           procs: map<nat, Proc>)

  const START := System(Core({}, false), {}, {}, {}, {}, map[])

  datatype Event =
    | Dial(id: nat, c: Conn, wrapped: bool)
    | File(id: nat)
    | Reject(id: nat)
    | CallClose(id: nat, c: Conn)
    | Forget(id: nat)
    | Release(id: nat)
    | CallCloseAll(id: nat)
    | Latch(id: nat)
    | SweepNext(id: nat, c: Conn)
    | SweepForget(id: nat)
    | SweepRelease(id: nat)
    | SweepDone(id: nat)

  predicate Enabled(s: System, e: Event) {
    match e
    case Dial(id, c, _) => id !in s.procs && c !in s.dialled
    case File(id) => id in s.procs && s.procs[id].Tracking?
    case Reject(id) => id in s.procs && s.procs[id].Rejecting?
    case CallClose(id, c) => id !in s.procs && c in s.handed
    case Forget(id) => id in s.procs && s.procs[id].Closing?
    case Release(id) => id in s.procs && s.procs[id].Releasing?
    case CallCloseAll(id) => id !in s.procs
    case Latch(id) => id in s.procs && s.procs[id].TearingDown?
    case SweepNext(id, c) => id in s.procs && s.procs[id].Sweeping? && c in s.procs[id].rest
    case SweepForget(id) => id in s.procs && s.procs[id].SweepClosing?
    case SweepRelease(id) => id in s.procs && s.procs[id].SweepReleasing?
    case SweepDone(id) => id in s.procs && s.procs[id] == Sweeping({})
  }

  function Next(s: System, e: Event): System
    requires Enabled(s, e)
  {
    match e
    case Dial(id, c, wrapped) =>
      s.(dialled := s.dialled + {c}, open := s.open + {c}, raw := if wrapped then s.raw else s.raw + {c},
         procs := s.procs[id := Tracking(c)])
    case File(id) =>
      var c := s.procs[id].c;
      var (core, filed) := Filed(s.core, c);
      if filed then s.(core := core, handed := s.handed + {c}, procs := s.procs - {id})
      else s.(procs := s.procs[id := Rejecting(c)])
    case Reject(id) =>
      var c := s.procs[id].c;
      s.(core := if c in s.raw then s.core else Forgotten(s.core, c), open := s.open - {c},
         handed := s.handed + {c}, procs := s.procs - {id})
    case CallClose(id, c) => s.(procs := s.procs[id := if c in s.raw then Releasing(c) else Closing(c)])
    case Forget(id) =>
      var c := s.procs[id].c;
      s.(core := Forgotten(s.core, c), procs := s.procs[id := Releasing(c)])
    case Release(id) => s.(open := s.open - {s.procs[id].c}, procs := s.procs - {id})
    case CallCloseAll(id) => s.(procs := s.procs[id := TearingDown])
    case Latch(id) =>
      var (core, snapshot) := Snapshotted(s.core);
      s.(core := core, procs := s.procs[id := Sweeping(snapshot)])
    case SweepNext(id, c) =>
      var rest := s.procs[id].rest - {c};
      s.(procs := s.procs[id := if c in s.raw then SweepReleasing(c, rest) else SweepClosing(c, rest)])
    case SweepForget(id) =>
      var p := s.procs[id];
      s.(core := Forgotten(s.core, p.c), procs := s.procs[id := SweepReleasing(p.c, p.rest)])
    case SweepRelease(id) =>
      var p := s.procs[id];
      s.(open := s.open - {p.c}, procs := s.procs[id := Sweeping(p.rest)])
    case SweepDone(id) => s.(procs := s.procs - {id})
  }

  // ---- Who will close a connection ----

  predicate Handing(s: System, id: nat, c: Conn) {
    id in s.procs && (s.procs[id] == Tracking(c) || s.procs[id] == Rejecting(c))
  }

  predicate Swept(s: System, id: nat, c: Conn) {
    id in s.procs && match s.procs[id]
                     case Sweeping(rest) => c in rest
                     case SweepClosing(d, rest) => c == d || c in rest
                     case SweepReleasing(d, rest) => c == d || c in rest
                     case _ => false
  }

  /** The call has to do with c. */
  predicate Concerns(s: System, id: nat, c: Conn) {
    id in s.procs && match s.procs[id]
                     case TearingDown => false
                     case Sweeping(rest) => c in rest
                     case SweepClosing(d, rest) => c == d || c in rest
                     case SweepReleasing(d, rest) => c == d || c in rest
                     case p => c == p.c
  }

  /** A caller's Close has forgotten c, or need not forget it, and has still to close it. */
  predicate MidClose(s: System, id: nat, c: Conn) {
    id in s.procs && s.procs[id] == Releasing(c)
  }

  /** Some call under way will close c. */
  ghost predicate Pending(s: System, c: Conn) {
    exists id :: Handing(s, id, c) || Swept(s, id, c) || MidClose(s, id, c)
  }

  /**
   Where an open connection may be: in the map, with a teardown's snapshot still to close it
   once teardown is latched; or in the hands of a call that will close it or file it.
   */
  ghost predicate Accounted(s: System, c: Conn) {
    Pending(s, c) || (c in s.core.conns && !s.core.closed)
  }

  ghost predicate Sound(s: System) {
    && s.open <= s.dialled && s.core.conns <= s.handed <= s.dialled
    && (forall id, c :: Concerns(s, id, c) ==> c in s.dialled)
    && (forall c :: c in s.open ==> Accounted(s, c))
    && (forall c :: c in s.open && c !in s.handed ==> exists id :: Handing(s, id, c))
  }

  /** A step of one call leaves the other calls alone. */
  lemma Untouched(s: System, e: Event, id: nat, c: Conn)
    requires Enabled(s, e) && id != e.id
    ensures Handing(s, id, c) ==> Handing(Next(s, e), id, c)
    ensures Swept(s, id, c) ==> Swept(Next(s, e), id, c)
    ensures MidClose(s, id, c) ==> MidClose(Next(s, e), id, c)
  {
  }

  /** A call that would have closed an open c still will, or has filed it. */
  lemma Continues(s: System, e: Event, c: Conn)
    requires Enabled(s, e) && Next(s, e).open <= s.open && c in Next(s, e).open
    requires Handing(s, e.id, c) || Swept(s, e.id, c) || MidClose(s, e.id, c)
    ensures var n := Next(s, e);
            || Handing(n, e.id, c) || Swept(n, e.id, c) || MidClose(n, e.id, c)
            || (c in n.core.conns && !n.core.closed)
  {
  }

  /** What leaves the map, or is overtaken by the latch, is in the hands of the call that did it. */
  lemma MapKept(s: System, e: Event, c: Conn)
    requires Enabled(s, e) && c in Next(s, e).open && c in s.core.conns && !s.core.closed
    ensures var n := Next(s, e);
            (c in n.core.conns && !n.core.closed) || Swept(n, e.id, c) || MidClose(n, e.id, c)
  {
  }

  lemma OpenAccounted(s: System, e: Event, c: Conn)
    requires Enabled(s, e) && Sound(s) && c in Next(s, e).open
    ensures Accounted(Next(s, e), c)
  {
    var n := Next(s, e);
    if c in s.open {
      hide Handing, Swept, MidClose, Next;
      assert Accounted(s, c);
      if Pending(s, c) {
        var id :| Handing(s, id, c) || Swept(s, id, c) || MidClose(s, id, c);
        if id == e.id {
          OpenShrinks(s, e, c);
          Continues(s, e, c);
        } else {
          Untouched(s, e, id, c);
        }
      } else {
        MapKept(s, e, c);
      }
    } else {
      assert Handing(n, e.id, c);
    }
  }

  lemma OpenShrinks(s: System, e: Event, c: Conn)
    requires Enabled(s, e) && c in s.open && (Handing(s, e.id, c) || Swept(s, e.id, c) || MidClose(s, e.id, c))
    ensures Next(s, e).open <= s.open
  {
  }

  lemma NotYetHanded(s: System, e: Event, c: Conn)
    requires Enabled(s, e) && Sound(s) && c in Next(s, e).open && c !in Next(s, e).handed
    ensures exists id :: Handing(Next(s, e), id, c)
  {
    hide Accounted, Swept, MidClose;
    var n := Next(s, e);
    if c in s.open {
      assert c !in s.handed;
      var id :| Handing(s, id, c);
      if id == e.id {
        assert Handing(n, id, c);
      } else {
        Untouched(s, e, id, c);
      }
    } else {
      assert Handing(n, e.id, c);
    }
  }

  lemma NextSets(s: System, e: Event)
    requires Enabled(s, e) && Sound(s)
    ensures var n := Next(s, e);
            && n.open <= n.dialled && n.core.conns <= n.handed <= n.dialled
            && forall id, c :: Concerns(n, id, c) ==> c in n.dialled
  {
    hide Accounted, Swept, MidClose, Handing;
    if e.id in s.procs && (s.procs[e.id].Tracking? || s.procs[e.id].Rejecting?) {
      assert Concerns(s, e.id, s.procs[e.id].c);
    }
    forall id, c | Concerns(Next(s, e), id, c) ensures c in Next(s, e).dialled {
      assert Concerns(s, id, c) || (id == e.id && (e.Dial? || e.CallClose? || c in s.core.conns));
    }
  }

  /** Every step of every call keeps every open connection accounted for. */
  lemma NextSound(s: System, e: Event)
    requires Enabled(s, e) && Sound(s)
    ensures Sound(Next(s, e))
  {
    hide Accounted, Next, Handing;
    NextSets(s, e);
    forall c | c in Next(s, e).open ensures Accounted(Next(s, e), c) {
      OpenAccounted(s, e, c);
    }
    forall c | c in Next(s, e).open && c !in Next(s, e).handed ensures exists id :: Handing(Next(s, e), id, c) {
      NotYetHanded(s, e, c);
    }
  }

  // ---- Whole runs ----

  predicate Legal(events: seq<Event>)
    decreases |events|, 0
  {
    events != [] ==>
      && Legal(events[..|events| - 1])
      && Enabled(Exec(events[..|events| - 1]), events[|events| - 1])
  }

  function Exec(events: seq<Event>): System
    requires Legal(events)
    decreases |events|, 1
  {
    if events == [] then START else Next(Exec(events[..|events| - 1]), events[|events| - 1])
  }

  lemma {:induction false} RunSound(events: seq<Event>)
    requires Legal(events)
    ensures Sound(Exec(events))
  {
    if events == [] {
      assert Sound(START);
    } else {
      hide Sound, Next;
      RunSound(events[..|events| - 1]);
      NextSound(Exec(events[..|events| - 1]), events[|events| - 1]);
    }
  }

  /** Teardown has latched, no teardown is still closing its snapshot, and every dial has been handed over. */
  predicate TornDown(s: System) {
    && s.core.closed
    && forall id :: id in s.procs ==> var p := s.procs[id]; p.Closing? || p.Releasing? || p.TearingDown?
  }

  /** No caller's Close is under way past the point where it forgets its connection. */
  predicate NoCloseInFlight(s: System) {
    forall id :: id in s.procs ==> !s.procs[id].Releasing?
  }

  /** The connections whose underlying close has been performed. */
  function ClosedBy(events: seq<Event>): set<Conn>
    requires Legal(events)
  {
    if events == [] then {}
    else
      var before, e := events[..|events| - 1], events[|events| - 1];
      ClosedBy(before) + if e.Reject? || e.Release? || e.SweepRelease? then {Exec(before).procs[e.id].c} else {}
  }

  lemma {:induction false} OpenExactly(events: seq<Event>)
    requires Legal(events)
    ensures Exec(events).open == Exec(events).dialled - ClosedBy(events)
    ensures ClosedBy(events) <= Exec(events).dialled
  {
    if events == [] {
    } else {
      hide Accounted, Handing;
      var before, e := events[..|events| - 1], events[|events| - 1];
      OpenExactly(before);
      RunSound(before);
      assert e.Reject? || e.Release? || e.SweepRelease? ==>
          Concerns(Exec(before), e.id, Exec(before).procs[e.id].c);
    }
  }

  // ---- Which connections survive teardown ----

  /** The connections that a caller's Close made the map forget before teardown first latched. */
  function ForgottenEarly(events: seq<Event>): set<Conn>
    requires Legal(events)
  {
    if events == [] then {}
    else
      var before, e := events[..|events| - 1], events[|events| - 1];
      ForgottenEarly(before)
      + if e.Forget? && !Exec(before).core.closed then {Exec(before).procs[e.id].c} else {}
  }

  /** The connections that some caller's Close has closed. */
  function ReleasedBy(events: seq<Event>): set<Conn>
    requires Legal(events)
  {
    if events == [] then {}
    else
      var before, e := events[..|events| - 1], events[|events| - 1];
      ReleasedBy(before) + if e.Release? then {Exec(before).procs[e.id].c} else {}
  }

  /** A Close of c called by its owner is under way. */
  predicate Leaving(s: System, id: nat, c: Conn) {
    id in s.procs && (s.procs[id] == Closing(c) || s.procs[id] == Releasing(c))
  }

  /** A connection is handed over once, and only then closed by callers or filed. */
  ghost predicate HandedOnce(s: System) {
    && s.core.conns <= s.handed <= s.dialled
    && (forall id, c :: Handing(s, id, c) ==> c in s.dialled && c in s.open && c !in s.handed)
    && (forall id, c :: Handing(s, id, c) && s.procs[id].Rejecting? ==> s.core.closed)
    && (forall i, j, c :: Handing(s, i, c) && Handing(s, j, c) ==> i == j)
    && (forall id, c :: Leaving(s, id, c) ==> c in s.handed)
    && (forall id, c :: Swept(s, id, c) ==> c in s.handed && s.core.closed)
  }

  /** What is known of the connections f forgotten early and those r released by callers. */
  ghost predicate Hidden(s: System, f: set<Conn>, r: set<Conn>) {
    && f <= s.handed && f !! s.core.conns && f - r <= s.open
    && r <= s.dialled && r !! s.open
    && (!s.core.closed ==> s.handed <= s.open + r)
    && (forall id, c :: Swept(s, id, c) ==> c !in f)
  }

  /** An open connection that was not forgotten early is filed or in the hands of a dial or a teardown. */
  ghost predicate Visible(s: System, f: set<Conn>, c: Conn) {
    c in f || (c in s.core.conns && !s.core.closed) || exists id :: Handing(s, id, c) || Swept(s, id, c)
  }

  /** The call that takes a step holds the connection it acts on. */
  lemma ActsOnItsOwn(s: System, e: Event)
    requires Enabled(s, e)
    ensures e.File? || e.Reject? ==> Handing(s, e.id, s.procs[e.id].c)
    ensures e.Forget? || e.Release? ==> Leaving(s, e.id, s.procs[e.id].c)
    ensures e.SweepForget? || e.SweepRelease? ==> Swept(s, e.id, s.procs[e.id].c)
  {
  }

  lemma HandingBefore(s: System, e: Event, id: nat, c: Conn)
    requires Enabled(s, e) && Handing(Next(s, e), id, c)
    ensures Handing(s, id, c) || (id == e.id && e == Dial(id, c, e.wrapped))
    ensures Next(s, e).procs[id].Rejecting? ==>
              (Handing(s, id, c) && s.procs[id].Rejecting?) || (e == File(id) && s.core.closed)
  {
  }

  lemma HandingKept(s: System, e: Event, id: nat, c: Conn)
    requires Enabled(s, e) && HandedOnce(s) && Handing(Next(s, e), id, c)
    ensures var n := Next(s, e);
            && c in n.dialled && c in n.open && c !in n.handed
            && (n.procs[id].Rejecting? ==> n.core.closed)
  {
    HandingBefore(s, e, id, c);
    ActsOnItsOwn(s, e);
  }

  lemma NextHandedOnce(s: System, e: Event)
    requires Enabled(s, e) && HandedOnce(s)
    ensures HandedOnce(Next(s, e))
  {
    var n := Next(s, e);
    ActsOnItsOwn(s, e);
    forall id, c | Handing(n, id, c)
      ensures c in n.dialled && c in n.open && c !in n.handed && (n.procs[id].Rejecting? ==> n.core.closed)
    {
      HandingKept(s, e, id, c);
    }
    forall i, j, c | Handing(n, i, c) && Handing(n, j, c) ensures i == j {
      HandingBefore(s, e, i, c);
      HandingBefore(s, e, j, c);
    }
    forall id, c | Leaving(n, id, c) ensures c in n.handed {
      assert Leaving(s, id, c) || (id == e.id && e.CallClose?);
    }
    forall id, c | Swept(n, id, c) ensures c in n.handed && n.core.closed {
      assert Swept(s, id, c) || (id == e.id && e.Latch? && c in s.core.conns);
    }
  }

  function EarlyNow(s: System, e: Event): set<Conn>
    requires Enabled(s, e)
  {
    if e.Forget? && !s.core.closed then {s.procs[e.id].c} else {}
  }

  function ReleasedNow(s: System, e: Event): set<Conn>
    requires Enabled(s, e)
  {
    if e.Release? then {s.procs[e.id].c} else {}
  }

  lemma NextHidden(s: System, e: Event, f: set<Conn>, r: set<Conn>)
    requires Enabled(s, e) && HandedOnce(s) && Hidden(s, f, r)
    ensures Hidden(Next(s, e), f + EarlyNow(s, e), r + ReleasedNow(s, e))
  {
    var n, f', r' := Next(s, e), f + EarlyNow(s, e), r + ReleasedNow(s, e);
    ActsOnItsOwn(s, e);
    forall id, c | Swept(n, id, c) ensures c !in f' {
      assert Swept(s, id, c) || (id == e.id && e.Latch? && c in s.core.conns);
    }
  }

  /** A dial or a teardown that holds an open connection still holds it after a step, or has filed it. */
  lemma StaysVisible(s: System, e: Event, f: set<Conn>, c: Conn)
    requires Enabled(s, e) && Visible(s, f, c) && c in s.open && c in Next(s, e).open
    ensures Visible(Next(s, e), f + EarlyNow(s, e), c)
  {
    var n := Next(s, e);
    if c in f {
    } else if c in s.core.conns && !s.core.closed {
      assert (c in n.core.conns && !n.core.closed) || Swept(n, e.id, c) || c in EarlyNow(s, e);
    } else {
      var id :| Handing(s, id, c) || Swept(s, id, c);
      assert Handing(n, id, c) || Swept(n, id, c) || (c in n.core.conns && !n.core.closed);
    }
  }

  ghost predicate AllVisible(s: System, f: set<Conn>) {
    forall c :: c in s.open ==> Visible(s, f, c)
  }

  lemma NextVisible(s: System, e: Event, f: set<Conn>)
    requires Enabled(s, e) && AllVisible(s, f)
    ensures AllVisible(Next(s, e), f + EarlyNow(s, e))
  {
    var n := Next(s, e);
    forall c | c in n.open ensures Visible(n, f + EarlyNow(s, e), c) {
      if c in s.open {
        StaysVisible(s, e, f, c);
      } else {
        assert Handing(n, e.id, c);
      }
    }
  }

  lemma {:induction false} RunHidden(events: seq<Event>)
    requires Legal(events)
    ensures HandedOnce(Exec(events)) && Hidden(Exec(events), ForgottenEarly(events), ReleasedBy(events))
    ensures AllVisible(Exec(events), ForgottenEarly(events))
  {
    if events == [] {
      assert HandedOnce(START) && Hidden(START, {}, {});
    } else {
      hide Next, HandedOnce, Hidden, AllVisible;
      var before, e := events[..|events| - 1], events[|events| - 1];
      RunHidden(before);
      NextHandedOnce(Exec(before), e);
      NextHidden(Exec(before), e, ForgottenEarly(before), ReleasedBy(before));
      NextVisible(Exec(before), e, ForgottenEarly(before));
    }
  }

  lemma NoneLeft(a: set<Conn>, b: set<Conn>)
    ensures a - b == {} <==> a <= b
  {
    if a - b == {} {
      forall c | c in a ensures c in b {
        assert c !in a - b;
      }
    }
  }

  /**
   After teardown, in every interleaving, the connections still open are exactly those that a
   caller's Close made the map forget before teardown first latched, and that no caller's
   Close has closed. Each of them has such a Close still under way, so with none under way
   every connection ever dialled is closed; and all are closed exactly if every connection
   forgotten early has been closed by a caller.
   */
  lemma NothingSurvivesTeardown(events: seq<Event>)
    requires Legal(events) && TornDown(Exec(events))
    ensures Exec(events).open == ForgottenEarly(events) - ReleasedBy(events)
    ensures forall c :: c in Exec(events).open ==> exists id :: MidClose(Exec(events), id, c)
    ensures NoCloseInFlight(Exec(events)) ==> Exec(events).open == {}
    ensures Exec(events).open == {} <==> ForgottenEarly(events) <= ReleasedBy(events)
  {
    hide Exec, ForgottenEarly, ReleasedBy, HandedOnce;
    RunSound(events);
    RunHidden(events);
    var s, f := Exec(events), ForgottenEarly(events);
    forall c | c in s.open ensures c in f && exists id :: MidClose(s, id, c) {
      assert Visible(s, f, c);
      assert Accounted(s, c);
      var id :| Handing(s, id, c) || Swept(s, id, c) || MidClose(s, id, c);
    }
    NoneLeft(f, ReleasedBy(events));
  }

  /** Once teardown has latched, nothing is filed any more. */
  lemma NothingFiledAfterLatch(s: System, e: Event)
    requires Enabled(s, e) && s.core.closed
    ensures Next(s, e).core.closed && Next(s, e).core.conns <= s.core.conns
  {
  }

  /**
   The claim that nothing survives teardown needs its condition: a Close that has forgotten
   its connection hides it from the snapshot, and closeAll may return before it is closed.
   */
  lemma CloseInFlightSurvives()
    ensures var events := [Dial(0, 7, true), File(0), CallClose(1, 7), Forget(1),
                           CallCloseAll(2), Latch(2), SweepDone(2)];
            && Legal(events) && TornDown(Exec(events))
            && 7 in Exec(events).handed && 7 in Exec(events).open
  {
    hide Legal, Exec;
    var c: Conn := 7;
    NothingYet();
    var e1 := [Dial(0, c, true)];
    Extend([], Dial(0, c, true), START);
    assert [] + [Dial(0, c, true)] == e1;
    var s1 := Next(START, Dial(0, c, true));
    var e2, s2 := e1 + [File(0)], System(Core({c}, false), {c}, {c}, {c}, {}, map[]);
    Extend(e1, File(0), s1);
    assert Next(s1, File(0)) == s2;
    var e3, s3 := e2 + [CallClose(1, c)], s2.(procs := map[1 := Closing(c)]);
    Extend(e2, CallClose(1, c), s2);
    assert Next(s2, CallClose(1, c)) == s3;
    var e4, s4 := e3 + [Forget(1)], System(Core({}, false), {c}, {c}, {c}, {}, map[1 := Releasing(c)]);
    Extend(e3, Forget(1), s3);
    assert Next(s3, Forget(1)) == s4;
    ClosesBesides(e4, s4);
    assert e4 + [CallCloseAll(2)] + [Latch(2)] + [SweepDone(2)]
        == [Dial(0, 7, true), File(0), CallClose(1, 7), Forget(1), CallCloseAll(2), Latch(2), SweepDone(2)];
  }

  /** A closeAll that finds the map empty latches and returns. */
  lemma ClosesBesides(events: seq<Event>, s: System)
    requires Legal(events) && Exec(events) == s && s.core.conns == {} && 2 !in s.procs
    ensures var all := events + [CallCloseAll(2)] + [Latch(2)] + [SweepDone(2)];
            Legal(all) && Exec(all) == s.(core := Core({}, true))
  {
    hide Legal, Exec;
    var e5, s5 := events + [CallCloseAll(2)], s.(procs := s.procs[2 := TearingDown]);
    Extend(events, CallCloseAll(2), s);
    var e6, s6 := e5 + [Latch(2)], s.(core := Core({}, true), procs := s.procs[2 := Sweeping({})]);
    Extend(e5, Latch(2), s5);
    assert Next(s5, Latch(2)) == s6;
    Extend(e6, SweepDone(2), s6);
    assert s6.procs - {2} == s.procs;
  }

  lemma NothingYet()
    ensures Legal([]) && Exec([]) == START
  {
  }

  lemma Extend(events: seq<Event>, e: Event, s: System)
    requires Legal(events) && Exec(events) == s && Enabled(s, e)
    ensures Legal(events + [e]) && Exec(events + [e]) == Next(s, e)
  {
    assert (events + [e])[..|events|] == events;
  }
}

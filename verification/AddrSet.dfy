/**
 The lock-free address set (transport.go): adders load the shared pointer, build a longer
 copy of the slice it points to, and swap the pointer if nobody else has in the meantime.
 Slices are immutable once published. A step is one atomic action of one adder.
 */
module AddrSet {

  /**
   An adder between its steps. tries counts its failed swaps and base is the length of the
   list when it was called; both only serve to state how often it can fail.
   */
  datatype Adder =
    | Idle
    | Loading(a: string, tries: nat, base: nat)
    | Loaded(a: string, cur: nat, tries: nat, base: nat)

  /**
   Published slices, the shared pointer (0 for nil, k for slices[k - 1]), the adders, and the
   finished calls in the order in which they took effect.
   */
  datatype State = State(slices: seq<seq<string>>, p: nat, adders: map<nat, Adder>, log: seq<(nat, string)>)

  datatype Event = Call(t: nat, a: string) | Load(t: nat) | Return(t: nat) | Swap(t: nat)

  const START := State([], 0, map[], [])

  function Deref(slices: seq<seq<string>>, p: nat): seq<string>
    requires p <= |slices|
  {
    if p == 0 then [] else slices[p - 1]
  }

  function AdderOf(s: State, t: nat): Adder {
    if t in s.adders then s.adders[t] else Idle
  }

  /** The pointers in play point to published slices. */
  predicate Pointers(s: State) {
    && s.p <= |s.slices|
    && forall t :: t in s.adders && s.adders[t].Loaded? ==> s.adders[t].cur <= |s.slices|
  }

  // ---- The thread-local part of add ----

  /** Looks for a in the loaded slice and otherwise builds the slice to publish. */
  method Prepare(cur: seq<string>, a: string) returns (present: bool, next: seq<string>)
    ensures present <==> a in cur
    ensures !present ==> next == cur + [a]
  {
    present, next := false, [];
    for i := 0 to |cur|
      invariant a !in cur[..i]
    {
      if cur[i] == a {
        present := true;
        return;
      }
    }
    assert cur[..|cur|] == cur;
    next := cur + [a];
  }

  // ---- Atomic steps ----

  predicate Enabled(s: State, e: Event) {
    && Pointers(s)
    && match e
       case Call(t, _) => AdderOf(s, t).Idle?
       case Load(t) => AdderOf(s, t).Loading?
       case Return(t) => AdderOf(s, t).Loaded? && AdderOf(s, t).a in Deref(s.slices, AdderOf(s, t).cur)
       case Swap(t) => AdderOf(s, t).Loaded? && AdderOf(s, t).a !in Deref(s.slices, AdderOf(s, t).cur)
  }

  function Logged(s: State, t: nat, a: string): State {
    s.(adders := s.adders[t := Idle], log := s.log + [(t, a)])
  }

  function Next(s: State, e: Event): State
    requires Enabled(s, e)
  {
    match e
    case Call(t, a) =>
      if a == "" then Logged(s, t, a) else s.(adders := s.adders[t := Loading(a, 0, |Deref(s.slices, s.p)|)])
    case Load(t) =>
      var w := AdderOf(s, t);
      s.(adders := s.adders[t := Loaded(w.a, s.p, w.tries, w.base)])
    case Return(t) => Logged(s, t, AdderOf(s, t).a)
    case Swap(t) =>
      var w := AdderOf(s, t);
      if s.p == w.cur then
        Logged(s.(slices := s.slices + [Deref(s.slices, w.cur) + [w.a]], p := |s.slices| + 1), t, w.a)
      else s.(adders := s.adders[t := Loading(w.a, w.tries + 1, w.base)])
  }

  /** What list returns. */
  function Current(s: State): seq<string>
    requires Pointers(s)
  {
    Deref(s.slices, s.p)
  }

  // ---- Specification ----

  /** The sequential meaning of add. */
  function Add(list: seq<string>, a: string): seq<string> {
    if a == "" || a in list then list else list + [a]
  }

  function Replay(log: seq<(nat, string)>): seq<string> {
    if log == [] then [] else Add(Replay(log[..|log| - 1]), log[|log| - 1].1)
  }

  predicate NoDuplicates(list: seq<string>) {
    forall j, k :: 0 <= j < k < |list| ==> list[j] != list[k]
  }

  // ---- Invariant of every reachable state ----

  /** Each slice extends the one before it by one new address. */
  predicate Chain(slices: seq<seq<string>>) {
    forall k :: 0 < k <= |slices| ==>
      && |Deref(slices, k)| == k
      && Deref(slices, k)[..k - 1] == Deref(slices, k - 1)
      && Deref(slices, k)[k - 1] != "" && Deref(slices, k)[k - 1] !in Deref(slices, k - 1)
  }

  /** Every failed swap of an adder is matched by growth of the list since it was called. */
  predicate Progress(s: State, w: Adder) {
    match w
    case Idle => true
    case Loading(a, tries, base) => a != "" && base + tries <= s.p
    case Loaded(a, cur, tries, base) => a != "" && cur <= s.p && base + tries <= cur
  }

  predicate Sound(s: State) {
    && Pointers(s)
    && s.p == |s.slices| && Chain(s.slices)
    && (forall t :: t in s.adders ==> Progress(s, s.adders[t]))
    && Current(s) == Replay(s.log)
  }

  lemma {:induction false} SlicesGrow(slices: seq<seq<string>>, j: nat, k: nat)
    requires Chain(slices) && j <= k <= |slices|
    ensures |Deref(slices, j)| == j && |Deref(slices, k)| == k && Deref(slices, k)[..j] == Deref(slices, j)
  {
    if j == k {
    } else {
      SlicesGrow(slices, j, k - 1);
      assert Deref(slices, k)[..k - 1][..j] == Deref(slices, k)[..j];
    }
  }

  lemma {:induction false} SlicesDistinct(slices: seq<seq<string>>, k: nat)
    requires Chain(slices) && k <= |slices|
    ensures |Deref(slices, k)| == k && NoDuplicates(Deref(slices, k))
  {
    if k == 0 {
    } else {
      SlicesDistinct(slices, k - 1);
      var d := Deref(slices, k);
      forall i, j | 0 <= i < j < k ensures d[i] != d[j] {
        assert d[..k - 1][i] == d[i];
        if j < k - 1 {
          assert d[..k - 1][j] == d[j];
        }
      }
    }
  }

  lemma ReplayMore(log: seq<(nat, string)>, entry: (nat, string))
    ensures Replay(log + [entry]) == Add(Replay(log), entry.1)
  {
    assert (log + [entry])[..|log|] == log;
  }

  lemma PublishChain(slices: seq<seq<string>>, a: string)
    requires Chain(slices) && a != "" && a !in Deref(slices, |slices|)
    ensures Chain(slices + [Deref(slices, |slices|) + [a]])
  {
    SlicesGrow(slices, 0, |slices|);
    var more := slices + [Deref(slices, |slices|) + [a]];
    forall k | 0 <= k <= |slices| ensures Deref(more, k) == Deref(slices, k) {
    }
  }

  /** Each step keeps the invariant, and either leaves the list alone or appends one address to it. */
  lemma NextSound(s: State, e: Event)
    requires Sound(s) && Enabled(s, e)
    ensures Sound(Next(s, e))
    ensures var before, after := Current(s), Current(Next(s, e));
            after == before || (e.Swap? && after == before + [AdderOf(s, e.t).a])
  {
    hide Replay;
    var n := Next(s, e);
    SlicesGrow(s.slices, 0, s.p);
    if n.log != s.log {
      ReplayMore(s.log, n.log[|s.log|]);
    }
    match e
    case Return(t) =>
      var w := AdderOf(s, t);
      SlicesGrow(s.slices, w.cur, s.p);
      assert Current(s)[..w.cur] == Deref(s.slices, w.cur);
    case Swap(t) =>
      if s.p == AdderOf(s, t).cur {
        PublishChain(s.slices, AdderOf(s, t).a);
      }
    case _ =>
  }

  // ---- Whole runs ----

  predicate Legal(events: seq<Event>)
    decreases |events|, 0
  {
    events != [] ==>
      && Legal(events[..|events| - 1])
      && Enabled(Exec(events[..|events| - 1]), events[|events| - 1])
  }

  function Exec(events: seq<Event>): (s: State)
    requires Legal(events)
    ensures Pointers(s)
    decreases |events|, 1
  {
    if events == [] then START else Next(Exec(events[..|events| - 1]), events[|events| - 1])
  }

  /**
   Linearizability: in every interleaving the shared list is the result of performing the
   finished calls one after another, each at one step of its own.
   */
  lemma {:induction false} Linearizable(events: seq<Event>)
    requires Legal(events)
    ensures Sound(Exec(events)) && Current(Exec(events)) == Replay(Exec(events).log)
  {
    if events == [] {
    } else {
      hide Sound, Next;
      Linearizable(events[..|events| - 1]);
      NextSound(Exec(events[..|events| - 1]), events[|events| - 1]);
    }
    SoundReplays(Exec(events));
  }

  lemma SoundReplays(s: State)
    requires Sound(s) || s == START
    ensures Sound(s) && Current(s) == Replay(s.log)
  {
  }

  /** The addresses that adder t was called with, in order. */
  function CalledWith(events: seq<Event>, t: nat): seq<string> {
    if events == [] then []
    else
      var e := events[|events| - 1];
      CalledWith(events[..|events| - 1], t) + if e.Call? && e.t == t then [e.a] else []
  }

  /** The addresses logged for adder t, in order. */
  function LoggedAs(log: seq<(nat, string)>, t: nat): seq<string> {
    if log == [] then []
    else LoggedAs(log[..|log| - 1], t) + if log[|log| - 1].0 == t then [log[|log| - 1].1] else []
  }

  /** The address of the call that adder t has not finished. */
  function UnderWay(s: State, t: nat): seq<string> {
    if AdderOf(s, t).Idle? then [] else [AdderOf(s, t).a]
  }

  lemma LoggedMore(log: seq<(nat, string)>, entry: (nat, string), t: nat)
    ensures LoggedAs(log + [entry], t) == LoggedAs(log, t) + if entry.0 == t then [entry.1] else []
  {
    assert (log + [entry])[..|log|] == log;
  }

  /** A step moves a call's own address from under way to the log, or puts a new one under way. */
  lemma NextLogs(s: State, e: Event, t: nat)
    requires Enabled(s, e)
    ensures var n := Next(s, e);
            LoggedAs(n.log, t) + UnderWay(n, t)
            == LoggedAs(s.log, t) + UnderWay(s, t) + if e.Call? && e.t == t then [e.a] else []
  {
    hide LoggedAs, Deref;
    var n := Next(s, e);
    if n.log != s.log {
      LoggedMore(s.log, n.log[|s.log|], t);
    }
  }

  /**
   Every call takes effect exactly once, with its own argument and in its adder's order; the
   only one that has not is the one under way.
   */
  lemma {:induction false} EachCallOnce(events: seq<Event>, t: nat)
    requires Legal(events)
    ensures CalledWith(events, t) == LoggedAs(Exec(events).log, t) + UnderWay(Exec(events), t)
  {
    hide Next, Enabled, LoggedAs, Pointers;
    if events == [] {
      NothingLogged(t);
    } else {
      EachCallOnce(events[..|events| - 1], t);
      NextLogs(Exec(events[..|events| - 1]), events[|events| - 1], t);
    }
  }

  lemma NothingLogged(t: nat)
    ensures LoggedAs([], t) == []
  {
  }

  /** Calls take effect in real time: what has taken effect by some moment precedes all that does later. */
  lemma {:induction false} LogGrows(events: seq<Event>, k: nat)
    requires Legal(events) && k <= |events|
    ensures Legal(events[..k]) && Exec(events[..k]).log <= Exec(events).log
  {
    if k == |events| {
      assert events[..k] == events;
    } else {
      hide Pointers, Deref;
      assert events[..|events| - 1][..k] == events[..k];
      LogGrows(events[..|events| - 1], k);
    }
  }

  /** The list only grows, by appending, whatever happens after. */
  lemma {:induction false} AppendOnly(events: seq<Event>, k: nat)
    requires Legal(events) && k <= |events|
    ensures Legal(events[..k]) && Sound(Exec(events[..k])) && Sound(Exec(events))
    ensures var early, late := Current(Exec(events[..k])), Current(Exec(events));
            |early| <= |late| && late[..|early|] == early
  {
    hide Sound, Next, Current;
    Linearizable(events);
    if k == |events| {
      assert events[..k] == events;
      SoundReplays(Exec(events));
    } else {
      var before := events[..|events| - 1];
      AppendOnly(before, k);
      assert before[..k] == events[..k];
      NextSound(Exec(before), events[|events| - 1]);
      PrefixOfPrefix(Current(Exec(events[..k])), Current(Exec(before)), Current(Exec(events)));
    }
  }

  lemma PrefixOfPrefix(a: seq<string>, b: seq<string>, c: seq<string>)
    requires |a| <= |b| && b[..|a|] == a
    requires c == b || (|c| == |b| + 1 && c[..|b|] == b)
    ensures |a| <= |c| && c[..|a|] == a
  {
    assert c[..|b|] == b;
    assert c[..|b|][..|a|] == c[..|a|];
  }

  lemma {:induction false} ReplayContains(log: seq<(nat, string)>, i: nat)
    requires i < |log| && log[i].1 != ""
    ensures log[i].1 in Replay(log)
  {
    if i == |log| - 1 {
    } else {
      ReplayContains(log[..|log| - 1], i);
    }
  }

  lemma {:induction false} LoggedIsInLog(log: seq<(nat, string)>, t: nat, i: nat) returns (k: nat)
    requires i < |LoggedAs(log, t)|
    ensures k < |log| && log[k] == (t, LoggedAs(log, t)[i])
  {
    if i < |LoggedAs(log[..|log| - 1], t)| {
      k := LoggedIsInLog(log[..|log| - 1], t, i);
    } else {
      k := |log| - 1;
    }
  }

  /**
   Once a call has returned, its non-empty address is in the list from then on: the i-th call
   of an adder has returned when it is not the one under way. The list has no duplicates.
   */
  lemma FinishedIsListed(events: seq<Event>, t: nat, i: nat)
    requires Legal(events) && i < |CalledWith(events, t)| - |UnderWay(Exec(events), t)|
    ensures Sound(Exec(events)) && NoDuplicates(Current(Exec(events)))
    ensures CalledWith(events, t)[i] != "" ==> CalledWith(events, t)[i] in Current(Exec(events))
  {
    hide Exec, Next, CalledWith, LoggedAs, UnderWay, Pointers;
    var s := Exec(events);
    Linearizable(events);
    SlicesDistinct(s.slices, s.p);
    EachCallOnce(events, t);
    var k := LoggedIsInLog(s.log, t, i);
    if s.log[k].1 != "" {
      ReplayContains(s.log, k);
    }
  }

  // ---- Lock freedom ----

  /** A swap that fails means that the list grew after this adder loaded it. */
  lemma FailedSwapMeansGrowth(s: State, t: nat)
    requires Sound(s) && Enabled(s, Swap(t))
    ensures AdderOf(Next(s, Swap(t)), t).Loading? <==> |Current(s)| > |Deref(s.slices, AdderOf(s, t).cur)|
  {
    SlicesGrow(s.slices, AdderOf(s, t).cur, s.p);
  }

  /** The distinct addresses that adders were ever called with. */
  function Called(events: seq<Event>): set<string> {
    set e <- events | e.Call? && e.a != "" :: e.a
  }

  /** The list and the adders under way hold no other addresses. */
  ghost predicate Known(s: State, all: set<string>)
    requires Pointers(s)
  {
    && (forall x :: x in Current(s) ==> x in all)
    && forall t :: !AdderOf(s, t).Idle? ==> AdderOf(s, t).a in all
  }

  lemma NextKnown(s: State, e: Event, all: set<string>)
    requires Sound(s) && Enabled(s, e) && Known(s, all)
    ensures Sound(Next(s, e)) && Known(Next(s, e), if e.Call? && e.a != "" then all + {e.a} else all)
  {
    hide Sound;
    NextSound(s, e);
    SoundIsPointed(s);
    SoundIsPointed(Next(s, e));
    var n, more := Next(s, e), if e.Call? && e.a != "" then all + {e.a} else all;
    forall x | x in Current(n) ensures x in more {
    }
    forall t | !AdderOf(n, t).Idle? ensures AdderOf(n, t).a in more {
      assert t == e.t || AdderOf(n, t) == AdderOf(s, t);
    }
  }

  lemma KnownMore(s: State, a: set<string>, b: set<string>)
    requires Pointers(s) && Known(s, a) && a <= b
    ensures Known(s, b)
  {
  }

  lemma {:induction false} ListedWasCalled(events: seq<Event>)
    requires Legal(events)
    ensures Known(Exec(events), Called(events))
  {
    if events == [] {
    } else {
      hide Sound, Next, Known, Enabled, Pointers;
      var before, e := events[..|events| - 1], events[|events| - 1];
      ListedWasCalled(before);
      Linearizable(before);
      NextKnown(Exec(before), e, Called(before));
      CalledMore(events);
      KnownMore(Exec(events), if e.Call? && e.a != "" then Called(before) + {e.a} else Called(before), Called(events));
    }
  }

  lemma CalledMore(events: seq<Event>)
    requires events != []
    ensures var e, before := events[|events| - 1], Called(events[..|events| - 1]);
            (if e.Call? && e.a != "" then before + {e.a} else before) <= Called(events)
  {
    assert events[|events| - 1] in events;
    assert forall e :: e in events[..|events| - 1] ==> e in events;
  }

  lemma SoundIsPointed(s: State)
    requires Sound(s)
    ensures Pointers(s)
  {
  }

  lemma {:induction false} DistinctCount(list: seq<string>, all: set<string>)
    requires NoDuplicates(list) && forall x :: x in list ==> x in all
    ensures |list| <= |all|
  {
    if list == [] {
    } else {
      var last := list[|list| - 1];
      DistinctCount(list[..|list| - 1], all - {last});
    }
  }

  /** No call ever retries more often than there are distinct addresses. */
  lemma RetriesBounded(events: seq<Event>, t: nat)
    requires Legal(events) && !AdderOf(Exec(events), t).Idle?
    ensures Pointers(Exec(events)) && |Current(Exec(events))| <= |Called(events)|
    ensures var w := AdderOf(Exec(events), t);
            w.base + w.tries <= |Current(Exec(events))|
  {
    hide Exec, Called;
    var s := Exec(events);
    Linearizable(events);
    ListedWasCalled(events);
    SlicesDistinct(s.slices, s.p);
    DistinctCount(Current(s), Called(events));
  }
}

/**
 The server's per-client admission budget (server/server.go): a lazily refilled token
 bucket with concurrency slots per identity, and opportunistic eviction. The functions
 give the meaning of each atomic step on values; the classes update in place.
 Times are nanoseconds.
 */
module Budget {
  import opened Series
  import opened Stats

  const MAX_RETRY_WAIT := 0x7fff_ffff_ffff_ffff
  const CLEANUP_SIZE := 10000

  datatype Limits = Limits(max: int, window: int, concurrency: int) {
    predicate Valid() {
      max > 0 && window > 0 && concurrency > 0
    }
  }

  datatype BucketState = BucketState(tokens: real, last: int, active: int)

  datatype Verdict = Admitted | BytesExhausted(wait: int) | ConcurrencyExhausted

  // ---- Refill ----

  /** Bytes credited over the given time. */
  function Credit(l: Limits, elapsed: int): real
    requires l.Valid()
  {
    l.max as real * elapsed as real / l.window as real
  }

  function Capped(l: Limits, tokens: real): real {
    if tokens > l.max as real then l.max as real else tokens
  }

  /** The balance of a bucket at a moment; time never runs backwards for it. */
  function Balance(l: Limits, b: BucketState, now: int): real
    requires l.Valid()
  {
    Capped(l, b.tokens + Credit(l, if now > b.last then now - b.last else 0))
  }

  function Refill(l: Limits, b: BucketState, now: int): BucketState
    requires l.Valid()
  {
    b.(tokens := Balance(l, b, now), last := now)
  }

  function Fresh(l: Limits, now: int): BucketState {
    BucketState(l.max as real, now, 0)
  }

  lemma CreditAdds(l: Limits, a: int, b: int)
    requires l.Valid()
    ensures Credit(l, a) + Credit(l, b) == Credit(l, a + b)
  {
    var m, w := l.max as real, l.window as real;
    assert m * (a + b) as real == m * a as real + m * b as real;
    assert (m * a as real + m * b as real) / w == m * a as real / w + m * b as real / w;
  }

  lemma CreditNonNegative(l: Limits, elapsed: int)
    requires l.Valid() && elapsed >= 0
    ensures Credit(l, elapsed) >= 0.0 && Credit(l, 0) == 0.0
  {
    ScaleAtMost(l.max as real, 0.0, elapsed as real);
    DivideAtLeast(l.max as real * elapsed as real, 0.0, l.window as real);
  }

  /** Refilling at t1 and then at t2 equals refilling at t2 alone. */
  lemma LazyRefill(l: Limits, b: BucketState, t1: int, t2: int)
    requires l.Valid() && b.last <= t1 <= t2
    ensures Refill(l, Refill(l, b, t1), t2) == Refill(l, b, t2)
  {
    hide Credit;
    CreditNonNegative(l, t1 - b.last);
    CreditNonNegative(l, t2 - t1);
    CreditAdds(l, t1 - b.last, t2 - t1);
  }

  lemma RefillNow(l: Limits, b: BucketState, now: int)
    requires l.Valid() && b.last == now && b.tokens <= l.max as real
    ensures Refill(l, b, now) == b
  {
    hide Credit;
    CreditNonNegative(l, 0);
  }

  /** A full bucket stays full. */
  lemma FreshStaysFresh(l: Limits, t1: int, t2: int)
    requires l.Valid() && t1 <= t2
    ensures Refill(l, Fresh(l, t1), t2) == Fresh(l, t2)
  {
    hide Credit;
    CreditNonNegative(l, t2 - t1);
  }

  // ---- Admission ----

  /** The exact time until an exhausted balance is back at zero, in nanoseconds. */
  function ExactWait(l: Limits, tokens: real): real
    requires l.Valid()
  {
    -tokens / l.max as real * l.window as real
  }

  function WaitFor(l: Limits, tokens: real): int
    requires l.Valid()
  {
    var wait := ExactWait(l, tokens);
    if wait >= MAX_RETRY_WAIT as real then MAX_RETRY_WAIT else Truncate(wait)
  }

  /** Decides on a request against a bucket refilled just now, and takes a slot if it may start. */
  function Decide(l: Limits, b: BucketState): (BucketState, Verdict)
    requires l.Valid()
  {
    if b.tokens <= 0.0 then (b, BytesExhausted(WaitFor(l, b.tokens)))
    else if b.active >= l.concurrency then (b, ConcurrencyExhausted)
    else (b.(active := b.active + 1), Admitted)
  }

  type Buckets = map<string, BucketState>

  /** What is known of an identity now; one that is not stored has a full, idle bucket. */
  function View(l: Limits, seen: Buckets, key: string, now: int): BucketState
    requires l.Valid()
  {
    if key in seen then Refill(l, seen[key], now) else Fresh(l, now)
  }

  predicate Evictable(l: Limits, b: BucketState, now: int)
    requires l.Valid()
  {
    b.active == 0 && Balance(l, b, now) == l.max as real
  }

  /** Forgets those of the given identities that are idle and fully replenished. */
  function Sweep(l: Limits, seen: Buckets, drop: set<string>, now: int): Buckets
    requires l.Valid()
  {
    map k | k in seen && !(k in drop && Evictable(l, seen[k], now)) :: seen[k]
  }

  /** Admission with an arbitrary choice of identities to forget when a new one arrives. */
  function Admit(l: Limits, seen: Buckets, key: string, now: int, drop: set<string>): (Buckets, Verdict)
    requires l.Valid()
  {
    var kept := if key in seen then seen else Sweep(l, seen, drop, now);
    var (b, verdict) := Decide(l, View(l, seen, key, now));
    (kept[key := b], verdict)
  }

  function Settle(l: Limits, seen: Buckets, key: string, n: int, now: int): Buckets
    requires l.Valid()
  {
    var b := View(l, seen, key, now);
    seen[key := b.(tokens := b.tokens - n as real, active := b.active - 1)]
  }

  /** The source's own choice: once the table is large, everything that can go. */
  function SourceDrop(seen: Buckets): set<string> {
    if |seen| >= CLEANUP_SIZE then seen.Keys else {}
  }

  /**
   The table stays small while it can: an arrival leaves it within its size, or with nobody
   else in it who could be forgotten; and as long as it is within its size nobody is forgotten.
   */
  lemma TableBounded(l: Limits, seen: Buckets, key: string, now: int)
    requires l.Valid() && key !in seen
    ensures var after := Admit(l, seen, key, now, SourceDrop(seen)).0;
            && (|seen| < CLEANUP_SIZE ==> after.Keys == seen.Keys + {key} && |after| <= CLEANUP_SIZE)
            && (|seen| >= CLEANUP_SIZE ==>
                  forall k :: k in after && k != key ==> k in seen && !Evictable(l, after[k], now))
  {
    hide View, Decide, Evictable;
    var after := Admit(l, seen, key, now, SourceDrop(seen)).0;
    if |seen| < CLEANUP_SIZE {
      assert after.Keys == seen.Keys + {key};
      assert |after| == |after.Keys| && |seen| == |seen.Keys|;
    }
  }

  // ---- What a step changes of what is known of an identity ----

  lemma ViewCapped(l: Limits, seen: Buckets, key: string, now: int)
    requires l.Valid()
    ensures var b := View(l, seen, key, now);
            b.last == now && b.tokens <= l.max as real
  {
    hide Credit;
  }

  /** An admission is seen only by its own identity, whatever was swept away with it. */
  lemma AdmitView(l: Limits, seen: Buckets, key: string, now: int, drop: set<string>, other: string)
    requires l.Valid()
    ensures View(l, Admit(l, seen, key, now, drop).0, other, now)
            == if other == key then Decide(l, View(l, seen, key, now)).0 else View(l, seen, other, now)
  {
    hide Credit, WaitFor;
    if other == key {
      ViewCapped(l, seen, key, now);
      RefillNow(l, Decide(l, View(l, seen, key, now)).0, now);
    }
  }

  /** A settlement charges its own identity and frees one of its slots. */
  lemma SettleView(l: Limits, seen: Buckets, key: string, n: int, now: int, other: string)
    requires l.Valid() && n >= 0
    ensures var b := View(l, seen, other, now);
            View(l, Settle(l, seen, key, n, now), other, now)
            == if other == key then b.(tokens := b.tokens - n as real, active := b.active - 1) else b
  {
    hide Credit;
    if other == key {
      ViewCapped(l, seen, key, now);
      var b := View(l, seen, key, now);
      RefillNow(l, b.(tokens := b.tokens - n as real, active := b.active - 1), now);
    }
  }

  // ---- Retry-After ----

  /** The advertised seconds. */
  function RetryAfter(wait: int): int {
    Quotient(wait, SECOND) + 1
  }

  lemma CreditCoversDebt(l: Limits, debt: real, elapsed: int)
    requires l.Valid()
    ensures Credit(l, elapsed) <= debt <==> elapsed as real <= debt / l.max as real * l.window as real
  {
    var m, w, d := l.max as real, l.window as real, elapsed as real;
    var q := debt / m * w;
    assert q * m == debt * w by {
      assert debt / m * m == debt;
    }
    var credit := Credit(l, elapsed);
    assert credit * w == m * d;
    if d <= q {
      ScaleAtMost(m, d, q);
      assert credit * w <= debt * w;
      if credit > debt { ScaleLess(w, debt, credit); }
    } else {
      ScaleLess(m, q, d);
      if credit <= debt { ScaleAtMost(w, credit, debt); }
    }
  }

  /**
   After a refusal for bytes, and absent further charges, an attempt is refused for bytes
   exactly up to the exact wait.
   */
  lemma RefusedUntilExactWait(l: Limits, b: BucketState, now: int, t: int)
    requires l.Valid() && b.last == now && b.tokens <= 0.0 && now <= t
    ensures Decide(l, Refill(l, b, t)).1.BytesExhausted? <==> (t - now) as real <= ExactWait(l, b.tokens)
  {
    hide Credit, WaitFor, ExactWait;
    CreditCoversDebt(l, -b.tokens, t - now);
    ExactWaitIs(l, b.tokens);
  }

  lemma ExactWaitIs(l: Limits, tokens: real)
    requires l.Valid()
    ensures ExactWait(l, tokens) == -tokens / l.max as real * l.window as real
  {
  }

  lemma ExactWaitNonNegative(l: Limits, tokens: real)
    requires l.Valid() && tokens <= 0.0
    ensures ExactWait(l, tokens) >= 0.0
  {
    DivideAtLeast(-tokens, 0.0, l.max as real);
    ScaleAtMost(l.window as real, 0.0, -tokens / l.max as real);
  }

  /** The advertised wait is never short of the exact one, and exceeds it by at most a second. */
  lemma HintIsTight(l: Limits, tokens: real)
    requires l.Valid() && tokens <= 0.0 && ExactWait(l, tokens) < MAX_RETRY_WAIT as real
    ensures var hint := RetryAfter(WaitFor(l, tokens)) * SECOND;
            ExactWait(l, tokens) < hint as real <= ExactWait(l, tokens) + SECOND as real
  {
    ExactWaitNonNegative(l, tokens);
    hide ExactWait;
  }

  /** A client that waits as told is not refused for bytes again, unless it was charged meanwhile. */
  lemma RetryAfterSuffices(l: Limits, b: BucketState, now: int, t: int)
    requires l.Valid() && b.last == now
    requires Decide(l, b).1.BytesExhausted? && ExactWait(l, b.tokens) < MAX_RETRY_WAIT as real
    requires t >= now + RetryAfter(Decide(l, b).1.wait) * SECOND
    ensures !Decide(l, Refill(l, b, t)).1.BytesExhausted?
  {
    hide ExactWait, Refill, RetryAfter, WaitFor;
    HintIsTight(l, b.tokens);
    HintPositive(l, b.tokens);
    RefusedUntilExactWait(l, b, now, t);
  }

  /** A deeper debt never waits less, and no wait is longer than a duration can say. */
  lemma WaitGrows(l: Limits, a: real, b: real)
    requires l.Valid() && a <= b <= 0.0
    ensures 0 <= WaitFor(l, b) <= WaitFor(l, a) <= MAX_RETRY_WAIT
  {
    ExactWaitNonNegative(l, b);
    DivideAtMost(-b, -a / l.max as real, l.max as real) by {
      assert -a / l.max as real * l.max as real == -a;
    }
    ScaleAtMost(l.window as real, -b / l.max as real, -a / l.max as real);
    assert ExactWait(l, b) <= ExactWait(l, a);
    hide ExactWait;
    TruncateMonotone(ExactWait(l, b), ExactWait(l, a));
  }

  lemma HintPositive(l: Limits, tokens: real)
    requires l.Valid() && tokens <= 0.0
    ensures RetryAfter(WaitFor(l, tokens)) >= 1
  {
    ExactWaitNonNegative(l, tokens);
    hide ExactWait;
  }
}

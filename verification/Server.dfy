/**
 The budget as the server keeps it (server/server.go): shared bucket objects in a map that
 each locked section updates in place, and the download handler's loop.
 */
module Server {
  import opened Wrappers
  import opened Stats
  import opened Budget

  const DEFAULT_CLIENT_BYTES := 0x2_0000_0000
  const DEFAULT_CLIENT_WINDOW := 600 * SECOND
  const DEFAULT_CLIENT_CONCURRENCY := 32
  const STREAM_CHUNK := 0x1_0000

  /** The limits a handler enforces: unset options take their defaults, a negative budget disables it. */
  function LimitsFor(maxClientBytes: int, clientWindow: int, maxClientConcurrency: int): (r: Option<Limits>)
    ensures r.None? <==> maxClientBytes < 0
    ensures r.Some? ==> r.value.Valid()
    ensures r.Some? ==> r.value.max == if maxClientBytes == 0 then DEFAULT_CLIENT_BYTES else maxClientBytes
    ensures r.Some? ==> r.value.window == if clientWindow > 0 then clientWindow else DEFAULT_CLIENT_WINDOW
    ensures r.Some? ==> r.value.concurrency
                        == if maxClientConcurrency > 0 then maxClientConcurrency else DEFAULT_CLIENT_CONCURRENCY
  {
    var bytes := if maxClientBytes == 0 then DEFAULT_CLIENT_BYTES else maxClientBytes;
    if bytes > 0 then
      Some(Limits(bytes,
        if clientWindow <= 0 then DEFAULT_CLIENT_WINDOW else clientWindow,
        if maxClientConcurrency <= 0 then DEFAULT_CLIENT_CONCURRENCY else maxClientConcurrency))
    else None
  }

  class Bucket {
    var tokens: real
    var last: int
    var active: int

    constructor (tokens: real, last: int)
      ensures State() == BucketState(tokens, last, 0)
    {
      this.tokens, this.last, this.active := tokens, last, 0;
    }

    ghost function State(): BucketState
      reads this
    {
      BucketState(tokens, last, active)
    }
  }

  class ClientBudget {
    const l: Limits
    var seen: map<string, Bucket>

    /** Every identity has a bucket of its own. */
    ghost predicate Valid()
      reads this
      ensures Valid() ==> l.Valid()
    {
      l.Valid() && forall j, k :: j in seen && k in seen && seen[j] == seen[k] ==> j == k
    }

    ghost function Contents(): Buckets
      reads this, seen.Values
    {
      map k | k in seen :: seen[k].State()
    }

    constructor (l: Limits)
      requires l.Valid()
      ensures Valid() && this.l == l && Contents() == map[] && seen == map[]
    {
      this.l := l;
      seen := map[];
    }

    method BalanceAt(bucket: Bucket, now: int) returns (r: real)
      requires l.Valid()
      ensures r == Balance(l, bucket.State(), now)
    {
      hide Credit;
      var elapsed := if now > bucket.last then now - bucket.last else 0;
      r := Capped(l, bucket.tokens + Credit(l, elapsed));
    }

    method RefillBucket(bucket: Bucket, now: int)
      requires l.Valid()
      modifies bucket
      ensures bucket.State() == Refill(l, old(bucket.State()), now)
    {
      hide Balance;
      var balance := BalanceAt(bucket, now);
      bucket.tokens := balance;
      bucket.last := now;
    }

    /** Refills the bucket stored under the key. */
    method RefillStored(key: string, now: int)
      requires Valid() && key in seen
      modifies seen[key]
      ensures Valid() && Contents() == old(Contents())[key := Refill(l, old(Contents())[key], now)]
    {
      hide Refill;
      RefillBucket(seen[key], now);
    }

    /** Forgets every idle and fully replenished identity, in whatever order the map yields them. */
    method Cleanup(now: int)
      requires Valid()
      modifies this`seen
      ensures Valid()
      ensures forall k :: k in seen ==> k in old(seen) && seen[k] == old(seen)[k]
      ensures Contents() == Sweep(l, old(Contents()), old(seen).Keys, now)
    {
      hide Balance;
      ghost var all, was := seen, Contents();
      var rest := seen.Keys;
      while rest != {}
        invariant rest <= all.Keys
        invariant forall k :: k in seen ==> k in all && seen[k] == all[k]
        invariant forall k :: k in all ==> (k in seen <==> k in rest || !Evictable(l, was[k], now))
        decreases |rest|
      {
        var k :| k in rest;
        assert seen[k].State() == was[k];
        var balance := BalanceAt(seen[k], now);
        if seen[k].active == 0 && balance == l.max as real {
          seen := seen - {k};
        }
        rest := rest - {k};
      }
      assert Contents().Keys == seen.Keys;
    }

    /** Stores a full bucket for a new identity. */
    method Enter(key: string, now: int)
      requires Valid() && key !in seen
      modifies this`seen
      ensures Valid() && key in seen && fresh(seen[key]) && seen == old(seen)[key := seen[key]]
      ensures Contents() == old(Contents())[key := Fresh(l, now)]
    {
      var bucket := new Bucket(l.max as real, now);
      seen := seen[key := bucket];
    }

    /** Sweeps a large table before a new identity is added; an identity with an open slot stays. */
    method MakeRoom(now: int)
      requires Valid()
      modifies this`seen
      ensures Valid()
      ensures forall k :: k in seen ==> k in old(seen) && seen[k] == old(seen)[k]
      ensures forall k :: k in old(seen) && old(Contents())[k].active > 0 ==> k in seen && seen[k] == old(seen)[k]
      ensures Contents() == old(Sweep(l, Contents(), SourceDrop(Contents()), now))
    {
      hide Balance;
      ghost var was := Contents();
      assert was.Keys == seen.Keys && |was| == |seen|;
      if |seen| >= CLEANUP_SIZE {
        Cleanup(now);
        assert Contents().Keys == seen.Keys;
      }
    }

    /** The bucket stored under the key, refilled; a new identity may push idle ones out. */
    method Find(key: string, now: int) returns (bucket: Bucket)
      requires Valid()
      modifies this`seen, if key in seen then {seen[key]} else {}
      ensures Valid() && key in seen && seen[key] == bucket
      ensures if key in old(seen) then seen == old(seen) else fresh(bucket)
      ensures forall k :: k in seen && k != key ==> k in old(seen) && seen[k] == old(seen)[k]
      ensures forall k :: k in old(seen) && old(Contents())[k].active > 0 ==> k in seen && seen[k] == old(seen)[k]
      ensures Contents() == old(if key in seen then Contents() else Sweep(l, Contents(), SourceDrop(Contents()), now))
                            [key := old(View(l, Contents(), key, now))]
    {
      hide Refill, Sweep, SourceDrop;
      if key !in seen {
        MakeRoom(now);
        Enter(key, now);
        FreshStaysFresh(l, now, now);
      }
      RefillStored(key, now);
      bucket := seen[key];
    }

    /**
     Asks for a slot. The bucket returned with an admission is the one stored under the key,
     and no bucket that anyone still holds a slot on is forgotten or replaced.
     */
    method TryAdmit(key: string, now: int) returns (bucket: Bucket?, verdict: Verdict)
      requires Valid()
      modifies this`seen, if key in seen then {seen[key]} else {}
      ensures Valid()
      ensures (Contents(), verdict) == old(Admit(l, Contents(), key, now, SourceDrop(Contents())))
      ensures if verdict.Admitted? then key in seen && bucket == seen[key] else bucket == null
      ensures forall k :: k in old(seen) && (k == key || old(Contents())[k].active > 0) ==>
                k in seen && seen[k] == old(seen)[k]
      ensures forall k :: k in seen ==> fresh(seen[k]) || (k in old(seen) && seen[k] == old(seen)[k])
    {
      hide View, Sweep, WaitFor, SourceDrop, Valid;
      ghost var kept := if key in seen then Contents() else Sweep(l, Contents(), SourceDrop(Contents()), now);
      ghost var view := View(l, Contents(), key, now);
      assert Contents().Keys == seen.Keys;
      var bk := Find(key, now);
      assert bk.State() == Contents()[key] == view;
      if bk.tokens <= 0.0 {
        verdict, bucket := BytesExhausted(WaitFor(l, bk.tokens)), null;
      } else if bk.active >= l.concurrency {
        verdict, bucket := ConcurrencyExhausted, null;
      } else {
        Occupy(key);
        verdict, bucket := Admitted, bk;
      }
      assert Contents() == kept[key := Decide(l, view).0];
    }

    /** Takes a slot of the bucket stored under the key. */
    method Occupy(key: string)
      requires Valid() && key in seen
      modifies seen[key]
      ensures Valid()
      ensures Contents() == old(Contents())[key := old(seen[key].State()).(active := old(seen[key].active) + 1)]
    {
      var bucket := seen[key];
      bucket.active := bucket.active + 1;
    }

    /**
     Charges n bytes to the bucket a ticket holds and gives its slot back; the map is not
     looked at. The table changes as the settlement of an identity does exactly if the bucket
     is the one stored for it, and not at all if it is stored for none.
     */
    method SettleBucket(bucket: Bucket, n: int, now: int)
      requires Valid()
      modifies bucket
      ensures Valid()
      ensures var b := Refill(l, old(bucket.State()), now);
              bucket.State() == b.(tokens := b.tokens - n as real, active := b.active - 1)
      ensures forall key :: key in seen && seen[key] == bucket ==>
                Contents() == old(Contents())[key := bucket.State()]
                && Contents() == Settle(l, old(Contents()), key, n, now)
      ensures (forall key :: key in seen ==> seen[key] != bucket) ==> Contents() == old(Contents())
    {
      hide Refill;
      RefillBucket(bucket, now);
      bucket.tokens := bucket.tokens - n as real;
      bucket.active := bucket.active - 1;
    }
  }

  // ---- The large download ----

  /** What the connection did with a write: how much it took, and whether it failed. */
  datatype WriteResult = WriteResult(written: int, failed: bool)

  /** A writer takes no more than it is given, and reports failure when it takes less. */
  ghost predicate Writer(write: (nat, int) -> WriteResult) {
    forall i, n :: n >= 0 ==> 0 <= write(i, n).written <= n && (write(i, n).written < n ==> write(i, n).failed)
  }

  function Accepted(log: seq<int>): int {
    if log == [] then 0 else Accepted(log[..|log| - 1]) + log[|log| - 1]
  }

  /** The size of write i while the whole of every write before it went through. */
  function ChunkAt(size: nat, i: nat): nat
    requires i * STREAM_CHUNK < size
  {
    if size - i * STREAM_CHUNK < STREAM_CHUNK then size - i * STREAM_CHUNK else STREAM_CHUNK
  }

  /** Write i was due and not cancelled, and the connection took w of it. */
  predicate Took(size: nat, write: (nat, int) -> WriteResult, cancelled: nat -> bool, i: nat, w: int) {
    i * STREAM_CHUNK < size && !cancelled(i) && w == write(i, ChunkAt(size, i)).written
  }

  predicate FailedAt(size: nat, write: (nat, int) -> WriteResult, i: nat) {
    i * STREAM_CHUNK < size && write(i, ChunkAt(size, i)).failed
  }

  /** log is what the connection took of the first writes, none of which but the last may have failed. */
  ghost predicate Transferred(size: nat, write: (nat, int) -> WriteResult, cancelled: nat -> bool, log: seq<int>) {
    && (forall i :: 0 <= i < |log| ==> Took(size, write, cancelled, i, log[i]))
    && (forall i :: 0 <= i < |log| - 1 ==> !FailedAt(size, write, i))
  }

  predicate LastFailed(size: nat, write: (nat, int) -> WriteResult, log: seq<int>) {
    log != [] && FailedAt(size, write, |log| - 1)
  }

  lemma TransferredMore(size: nat, write: (nat, int) -> WriteResult, cancelled: nat -> bool, log: seq<int>, w: int)
    requires Transferred(size, write, cancelled, log) && !LastFailed(size, write, log)
    requires Took(size, write, cancelled, |log|, w)
    ensures Transferred(size, write, cancelled, log + [w])
    ensures LastFailed(size, write, log + [w]) == FailedAt(size, write, |log|)
    ensures Accepted(log + [w]) == Accepted(log) + w
  {
    hide Took, FailedAt;
    assert (log + [w])[..|log|] == log;
  }

  lemma WriterTakes(write: (nat, int) -> WriteResult, i: nat, n: nat)
    requires Writer(write)
    ensures var r := write(i, n); 0 <= r.written <= n && (r.written < n ==> r.failed)
  {
  }

  /**
   Streams size bytes until the connection fails or the request is cancelled, and returns
   what the connection took: never more than the size the request is metered at, and all of
   it unless something cut the transfer short.
   */
  method Download(size: nat, write: (nat, int) -> WriteResult, cancelled: nat -> bool)
    returns (moved: int, ghost log: seq<int>)
    requires Writer(write)
    ensures Transferred(size, write, cancelled, log) && moved == Accepted(log)
    ensures LastFailed(size, write, log) || cancelled(|log|) || |log| * STREAM_CHUNK >= size
    ensures 0 <= moved <= size
    ensures !LastFailed(size, write, log) && |log| * STREAM_CHUNK >= size ==> moved == size
  {
    hide Transferred, LastFailed, Accepted, Writer;
    var remaining := size;
    var i := 0;
    moved, log := 0, [];
    NothingTransferred(size, write, cancelled);
    while remaining > 0 && !cancelled(i)
      invariant 0 <= remaining <= size && moved == size - remaining
      invariant |log| == i && moved == Accepted(log)
      invariant remaining == if i * STREAM_CHUNK < size then size - i * STREAM_CHUNK else 0
      invariant Transferred(size, write, cancelled, log)
      invariant !LastFailed(size, write, log)
      decreases remaining
    {
      var n := if remaining < STREAM_CHUNK then remaining else STREAM_CHUNK;
      WriterTakes(write, i, n);
      var r := write(i, n);
      TransferredMore(size, write, cancelled, log, r.written);
      moved := moved + r.written;
      log := log + [r.written];
      i := i + 1;
      if r.failed {
        return;
      }
      remaining := remaining - n;
    }
  }

  lemma NothingTransferred(size: nat, write: (nat, int) -> WriteResult, cancelled: nat -> bool)
    ensures Transferred(size, write, cancelled, []) && !LastFailed(size, write, []) && Accepted([]) == 0
  {
  }
}

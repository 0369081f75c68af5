/**
 The event log of one guest execution: what is appended, and what the byte cap leaves of it.
 The specification rescans the whole log; `GuestRegistry.Execution` does it with one cursor
 that only moves forward.
 */
module EventLog {

  newtype byte = x: int | 0 <= x < 256

  datatype Stream = Stdout | Stderr

  datatype Payload =
    | PhaseChange(phase: string)
    | LogChunk(stream: Stream, data: seq<byte>)
    | Heartbeat(unixNanos: int)
    | TerminalResult(exitCode: int, message: string)

  datatype Event = Event(sequence: nat, payload: Payload)

  const MAX_RETAINED_LOG_BYTES: nat := 4 * 1024 * 1024
  const MAXIMUM_PROCESS_EXIT_CODE: int := 0x7FFF_FFFF

  function ClampExitCode(code: int): int {
    if code < 0 || code > MAXIMUM_PROCESS_EXIT_CODE then -1 else code
  }

  function ChunkBytes(p: Payload): nat {
    if p.LogChunk? then |p.data| else 0
  }

  /** Log bytes appended at position i and after it. */
  function BytesFrom(history: seq<Payload>, i: nat): nat
    decreases |history| - i
  {
    if i >= |history| then 0 else ChunkBytes(history[i]) + BytesFrom(history, i + 1)
  }

  /** What is left of the i-th payload: a chunk keeps its data iff the bytes from it on fit the cap. */
  function Shown(history: seq<Payload>, i: nat): Payload
    requires i < |history|
  {
    var p := history[i];
    if p.LogChunk? && BytesFrom(history, i) > MAX_RETAINED_LOG_BYTES then LogChunk(p.stream, []) else p
  }

  /** What a reader may find in place of a logged payload: itself, or a chunk without its data. */
  predicate Delivers(p: Payload, original: Payload) {
    p == original || (original.LogChunk? && p == LogChunk(original.stream, []))
  }

  function Retained(history: seq<Payload>): seq<Event> {
    seq(|history|, i requires 0 <= i < |history| => Event(i + 1, Shown(history, i)))
  }

  /** Bytes held by the log events that are still in memory. */
  function LiveBytes(events: seq<Event>): nat {
    if events == [] then 0
    else LiveBytes(events[..|events| - 1]) + ChunkBytes(events[|events| - 1].payload)
  }

  /** The bytes one stream's chunks carry, in order. */
  function StreamBytes(history: seq<Payload>, stream: Stream): seq<byte> {
    if history == [] then []
    else
      var last := history[|history| - 1];
      StreamBytes(history[..|history| - 1], stream)
      + if last.LogChunk? && last.stream == stream then last.data else []
  }

  lemma {:induction false} BytesFromMonotone(history: seq<Payload>, i: nat, j: nat)
    requires i <= j
    ensures BytesFrom(history, i) >= BytesFrom(history, j)
    decreases j - i
  {
    if i < j && i < |history| {
      BytesFromMonotone(history, i + 1, j);
    }
  }

  lemma {:induction false} BytesFromAppend(history: seq<Payload>, p: Payload, i: nat)
    requires i <= |history|
    ensures BytesFrom(history + [p], i) == BytesFrom(history, i) + ChunkBytes(p)
    decreases |history| - i
  {
    if i < |history| {
      BytesFromAppend(history, p, i + 1);
      assert (history + [p])[i] == history[i];
    } else {
      assert BytesFrom(history + [p], i + 1) == 0;
    }
  }

  lemma StreamBytesAppend(history: seq<Payload>, p: Payload, stream: Stream)
    ensures StreamBytes(history + [p], stream)
         == StreamBytes(history, stream) + if p.LogChunk? && p.stream == stream then p.data else []
  {
    assert (history + [p])[..|history|] == history;
  }

  /** Live bytes of the first n retained events, when everything before `cursor` is evicted or carries nothing. */
  lemma {:induction false} LiveBytesUpTo(history: seq<Payload>, cursor: nat, n: nat)
    requires cursor <= |history| && n <= |history|
    requires BytesFrom(history, cursor) <= MAX_RETAINED_LOG_BYTES
    requires forall i :: 0 <= i < cursor ==> ChunkBytes(Shown(history, i)) == 0
    ensures LiveBytes(Retained(history)[..n]) + BytesFrom(history, if n <= cursor then cursor else n)
         == BytesFrom(history, cursor)
  {
    if n > 0 {
      LiveBytesUpTo(history, cursor, n - 1);
      assert Retained(history)[..n][..n - 1] == Retained(history)[..n - 1];
      if n > cursor {
        BytesFromMonotone(history, cursor, n - 1);
      }
    }
  }

  /** The live bytes never exceed the cap, and are the bytes from some position on. */
  lemma {:induction false} RetainedFitsCap(history: seq<Payload>)
    ensures LiveBytes(Retained(history)) <= MAX_RETAINED_LOG_BYTES
  {
    var cursor := FirstKept(history, 0);
    LiveBytesUpTo(history, cursor, |history|);
    assert Retained(history)[..|history|] == Retained(history);
  }

  /** The first position from which the rest fits the cap. */
  function FirstKept(history: seq<Payload>, from: nat): (c: nat)
    requires from <= |history|
    requires forall i :: 0 <= i < from ==> BytesFrom(history, i) > MAX_RETAINED_LOG_BYTES
    ensures c <= |history| && BytesFrom(history, c) <= MAX_RETAINED_LOG_BYTES
    ensures forall i :: 0 <= i < c ==> BytesFrom(history, i) > MAX_RETAINED_LOG_BYTES
    decreases |history| - from
  {
    if BytesFrom(history, from) <= MAX_RETAINED_LOG_BYTES then from else FirstKept(history, from + 1)
  }

  /** A newest chunk that fits the cap on its own is kept whole. */
  lemma NewestChunkKept(history: seq<Payload>, p: Payload)
    requires ChunkBytes(p) <= MAX_RETAINED_LOG_BYTES
    ensures Retained(history + [p])[|history|] == Event(|history| + 1, p)
  {
    assert BytesFrom(history + [p], |history| + 1) == 0;
  }

  /** Eviction is for good: what a later log shows of an event is what it showed, or nothing. */
  lemma EvictionIsFinal(history: seq<Payload>, more: seq<Payload>, i: nat)
    requires i < |history|
    ensures Delivers(Shown(history + more, i), Shown(history, i))
    ensures BytesFrom(history + more, i) >= BytesFrom(history, i)
    decreases |more|
  {
    if more != [] {
      var last := |more| - 1;
      EvictionIsFinal(history, more[..last], i);
      assert history + more == (history + more[..last]) + [more[last]];
      BytesFromAppend(history + more[..last], more[last], i);
    } else {
      assert history + more == history;
    }
  }
  lemma {:induction false} BareBytes(history: seq<Payload>, i: nat, j: nat)
    requires i <= j <= |history| && forall k :: i <= k < j ==> ChunkBytes(history[k]) == 0
    ensures BytesFrom(history, i) == BytesFrom(history, j)
    decreases j - i
  {
    if i < j { BareBytes(history, i + 1, j); }
  }

  /**
   Data is dropped from the oldest chunk on and only while the log is over the cap: when an event lost its
   data so did every chunk before it, and unless a later one lost its own too, the data that is left would
   not fit the cap together with what this one had.
   */
  lemma NothingEvictedNeedlessly(history: seq<Payload>, i: nat)
    requires i < |history| && Shown(history, i) != history[i]
    ensures forall j :: 0 <= j < i ==> ChunkBytes(Shown(history, j)) == 0
    ensures (forall j :: i < j < |history| ==> Shown(history, j) == history[j]) ==>
              LiveBytes(Retained(history)) + ChunkBytes(history[i]) > 4 * 1024 * 1024
  {
    var cursor := FirstKept(history, 0);
    LiveBytesUpTo(history, cursor, |history|);
    assert Retained(history)[..|history|] == Retained(history);
    forall j | 0 <= j < i
      ensures ChunkBytes(Shown(history, j)) == 0
    {
      BytesFromMonotone(history, j, i);
    }
    if forall j :: i < j < |history| ==> Shown(history, j) == history[j] {
      assert i < cursor by { if cursor <= i { BytesFromMonotone(history, cursor, i); } }
      forall k | i + 1 <= k < cursor
        ensures ChunkBytes(history[k]) == 0
      {
        assert BytesFrom(history, k) > MAX_RETAINED_LOG_BYTES;
      }
      BareBytes(history, i + 1, cursor);
    }
  }
}

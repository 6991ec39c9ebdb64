/** The `BLESPPUtils` session (BLESPPUtils.py:7-202): validated settings, the `connected`
    flag, the segmented and retried `write_characteristic`, and `send`. The Bluetooth
    client is an oracle: `answer(k)` says whether the `k`-th write attempt of the session
    succeeds. A sleep is not waited for; its delay is recorded in the trace. */
module Transport {

  import Options
  import opened Checksum
  import opened Commands
  import opened MacAddress
  import BitPacking

  /** What the client sees: a write attempt of one chunk and whether it succeeded, or a
      pause of the given number of seconds. */
  datatype Event = Write(chunk: seq<Byte>, ok: bool) | Sleep(seconds: real)

  /** The argument of `write_characteristic`: a list of ints, or any other value. */
  datatype Payload = List(values: seq<int>) | Other

  /** What `write_characteristic` returns: Python's True, False or None. */
  datatype Reply = True | False | None

  /** What the retry loop leaves behind: its events, the attempt counter after it, and
      whether it sent everything (rather than giving up). */
  datatype Run = Run(events: seq<Event>, attempts: nat, completed: bool)

  /** What one call leaves behind. */
  datatype Call = Call(reply: Reply, events: seq<Event>, attempts: nat)

  /** Consecutive failures after which a write gives up (BLESPPUtils.py:179). */
  const MaxRetries: nat := 50

  /** The pause after a failed attempt (BLESPPUtils.py:184). */
  const RetryDelay: real := 0.004

  /** Only lists longer than this make a completed write return True (BLESPPUtils.py:186). */
  const LongWrite: nat := 50

  // ---------------------------------------------------------------------------------
  // Converting the list to bytes (BLESPPUtils.py:144-152).

  /** The values the hex-string conversion turns into one byte each: a negative value
      becomes `(value + 256) % 256`, a value above 255 would print more than two hex
      digits. */
  predicate Fits(values: seq<int>)
  {
    forall i | 0 <= i < |values| :: values[i] <= 255
  }

  /** An argument the conversion can take: anything that is not a list, or a list whose
      values fit. */
  predicate Convertible(p: Payload)
  {
    p.List? ==> Fits(p.values)
  }

  /** Every argument of a series of calls is convertible. */
  predicate AllConvertible(ps: seq<Payload>)
  {
    forall k | 0 <= k < |ps| :: Convertible(ps[k])
  }

  /** The bytes `binascii.unhexlify(hex_string)` returns, one per value. */
  function ToBytes(values: seq<int>): (bytes: seq<Byte>)
  {
    seq(|values|, i requires 0 <= i < |values| => ToUnsigned(values[i]))
  }

  /** The conversion keeps the length, keeps every value in 0..255 and adds 256 to every
      value in -256..-1: each byte is its value modulo 256. */
  lemma ToBytesMod(values: seq<int>)
    requires Fits(values)
    ensures |ToBytes(values)| == |values|
    ensures forall i | 0 <= i < |values| :: ToBytes(values)[i] == values[i] % 256
    ensures forall i | 0 <= i < |values| && 0 <= values[i] ::
      ToBytes(values)[i] == values[i]
    ensures forall i | 0 <= i < |values| && -256 <= values[i] < 0 ::
      ToBytes(values)[i] == values[i] + 256
  {
  }

  // ---------------------------------------------------------------------------------
  // The retry loop (BLESPPUtils.py:154-187).

  /** `chunk_size = min(one_length, length - i2)` (BLESPPUtils.py:161). */
  function ChunkSize(n: int, length: nat, i2: nat): (size: nat)
    requires n > 0 && i2 < length
    ensures 0 < size <= n && i2 + size <= length
    ensures size == n || i2 + size == length
  {
    if n < length - i2 then n else length - i2
  }

  /** The loop from offset `i2` with `i3` consecutive failures behind it, the next attempt
      being the session's attempt number `attempt`: a success moves on by the chunk, resets
      the streak and pauses for `pace`; the failure that makes the streak `MaxRetries`
      gives up at once; any other failure pauses for `RetryDelay` and tries the same chunk
      again. */
  function WriteLoop(data: seq<Byte>, n: int, pace: real, answer: nat -> bool,
                     attempt: nat, i2: nat, i3: nat): (r: Run)
    requires n > 0 && i2 <= |data| && i3 < MaxRetries
    decreases |data| - i2, MaxRetries - i3
  {
    if i2 == |data| then Run([], attempt, true)
    else
      var size := ChunkSize(n, |data|, i2);
      var chunk := data[i2..i2 + size];
      var ok := answer(attempt);
      if !ok && i3 + 1 >= MaxRetries then Run([Write(chunk, false)], attempt + 1, false)
      else
        var rest := WriteLoop(data, n, pace, answer, attempt + 1,
                              if ok then i2 + size else i2, if ok then 0 else i3 + 1);
        Run([Write(chunk, ok), Sleep(if ok then pace else RetryDelay)] + rest.events,
            rest.attempts, rest.completed)
  }

  /** The bytes an event hands to the client: the chunk of a successful write. */
  function Gain(e: Event): seq<Byte>
  {
    if e.Write? && e.ok then e.chunk else []
  }

  /** Whether an event is a write attempt. */
  function Tries(e: Event): nat
  {
    if e.Write? then 1 else 0
  }

  /** The bytes the client accepted: the chunks of the successful writes, in order. */
  function Delivered(events: seq<Event>): seq<Byte>
    decreases |events|
  {
    if events == [] then [] else Gain(events[0]) + Delivered(events[1..])
  }

  /** The number of write attempts among the events. */
  function Attempts(events: seq<Event>): nat
    decreases |events|
  {
    if events == [] then 0 else Tries(events[0]) + Attempts(events[1..])
  }

  lemma DeliveredCons(e: Event, es: seq<Event>)
    ensures Delivered([e] + es) == Gain(e) + Delivered(es)
    ensures Attempts([e] + es) == Tries(e) + Attempts(es)
  {
    assert ([e] + es)[1..] == es;
  }

  /** A single event. */
  lemma DeliveredOne(e: Event)
    ensures Delivered([e]) == Gain(e) && Attempts([e]) == Tries(e)
  {
    assert [e][1..] == [];
  }

  /** An attempt and its pause in front of more events. */
  lemma DeliveredPair(w: Event, d: real, es: seq<Event>)
    ensures Delivered([w, Sleep(d)] + es) == Gain(w) + Delivered(es)
    ensures Attempts([w, Sleep(d)] + es) == Tries(w) + Attempts(es)
  {
    DeliveredCons(Sleep(d), es);
    assert [w, Sleep(d)] + es == [w] + ([Sleep(d)] + es);
    DeliveredCons(w, [Sleep(d)] + es);
  }

  lemma {:induction false} DeliveredAppend(a: seq<Event>, b: seq<Event>)
    ensures Delivered(a + b) == Delivered(a) + Delivered(b)
    decreases |a|
  {
    if a == [] {
      assert a + b == b;
    } else {
      assert a + b == [a[0]] + (a[1..] + b);
      DeliveredCons(a[0], a[1..] + b);
      DeliveredAppend(a[1..], b);
      assert a == [a[0]] + a[1..];
      DeliveredCons(a[0], a[1..]);
    }
  }

  /** A run from offset `i2` hands over the data from `i2` on, in order and all of it
      exactly when it completes, and its counter moves by one per attempt. */
  predicate DeliversFrom(data: seq<Byte>, i2: nat, attempt: nat, r: Run)
  {
    var d := Delivered(r.events);
    i2 + |d| <= |data| && d == data[i2..i2 + |d|] &&
    (r.completed <==> i2 + |d| == |data|) &&
    r.attempts == attempt + Attempts(r.events)
  }

  /** Walking the events from offset `off`: every write attempt sends the data at the
      current offset, a chunk that is not empty and at most `n` long, and a successful
      one moves the offset past its chunk. */
  predicate ChunksFrom(data: seq<Byte>, n: int, off: nat, es: seq<Event>)
    decreases |es|
  {
    es != [] ==>
      (es[0].Write? ==>
        0 < |es[0].chunk| <= n && off + |es[0].chunk| <= |data| &&
        es[0].chunk == data[off..off + |es[0].chunk|]) &&
      ChunksFrom(data, n, off + |Gain(es[0])|, es[1..])
  }

  /** A successful attempt is followed by a pause of `pace`, a failed one by a pause of
      `RetryDelay`, except a failure that ends a run that gave up. */
  predicate Paced(pace: real, r: Run)
  {
    forall j {:trigger r.events[j]} | 0 <= j < |r.events| && r.events[j].Write? ::
      if j + 1 < |r.events| then
        r.events[j + 1] == Sleep(if r.events[j].ok then pace else RetryDelay)
      else !r.events[j].ok && !r.completed
  }

  /** The attempt at `i2` and its pause in front of the rest of the run. */
  function StepRun(chunk: seq<Byte>, ok: bool, pace: real, rest: Run): Run
  {
    Run([Write(chunk, ok), Sleep(if ok then pace else RetryDelay)] + rest.events,
        rest.attempts, rest.completed)
  }

  /** The loop unfolded once where it neither stops nor gives up. */
  lemma WriteLoopStep(data: seq<Byte>, n: int, pace: real, answer: nat -> bool,
                      attempt: nat, i2: nat, i3: nat)
    requires n > 0 && i2 < |data| && i3 < MaxRetries
    requires answer(attempt) || i3 + 1 < MaxRetries
    ensures var size := ChunkSize(n, |data|, i2);
      var ok := answer(attempt);
      WriteLoop(data, n, pace, answer, attempt, i2, i3) ==
      StepRun(data[i2..i2 + size], ok, pace,
              WriteLoop(data, n, pace, answer, attempt + 1, if ok then i2 + size else i2,
                        if ok then 0 else i3 + 1))
  {
  }

  /** The same, with the chunk, the outcome and the next state named by the caller. */
  lemma WriteLoopStepAt(data: seq<Byte>, n: int, pace: real, answer: nat -> bool,
                        attempt: nat, i2: nat, i3: nat, chunk: seq<Byte>, ok: bool,
                        attempt': nat, i2': nat, i3': nat)
    requires n > 0 && i2 < |data| && i3 < MaxRetries
    requires ok == answer(attempt) && (ok || i3 + 1 < MaxRetries)
    requires chunk == data[i2..i2 + ChunkSize(n, |data|, i2)] && attempt' == attempt + 1
    requires i2' == (if ok then i2 + |chunk| else i2) && i3' == (if ok then 0 else i3 + 1)
    ensures WriteLoop(data, n, pace, answer, attempt, i2, i3) ==
      StepRun(chunk, ok, pace, WriteLoop(data, n, pace, answer, attempt', i2', i3'))
  {
    WriteLoopStep(data, n, pace, answer, attempt, i2, i3);
  }

  /** The loop unfolded once where the failure fills the streak: it gives up. */
  lemma WriteLoopLast(data: seq<Byte>, n: int, pace: real, answer: nat -> bool,
                      attempt: nat, i2: nat, i3: nat, chunk: seq<Byte>)
    requires n > 0 && i2 < |data| && i3 < MaxRetries
    requires !answer(attempt) && i3 + 1 >= MaxRetries
    requires chunk == data[i2..i2 + ChunkSize(n, |data|, i2)]
    ensures WriteLoop(data, n, pace, answer, attempt, i2, i3) ==
      Run([Write(chunk, false)], attempt + 1, false)
  {
  }

  /** The step case of WriteLoopDelivers, on sequences alone. */
  lemma DeliversStep(data: seq<Byte>, i2: nat, next: nat, attempt: nat, chunk: seq<Byte>,
                     ok: bool, pace: real, rest: Run)
    requires i2 <= next <= |data| && Gain(Write(chunk, ok)) == data[i2..next]
    requires DeliversFrom(data, next, attempt + 1, rest)
    ensures DeliversFrom(data, i2, attempt, StepRun(chunk, ok, pace, rest))
  {
    DeliveredPair(Write(chunk, ok), if ok then pace else RetryDelay, rest.events);
    JoinSlices(data, i2, next, Gain(Write(chunk, ok)), Delivered(rest.events));
  }

  /** The slice from `i` to `j` followed by the slice that starts at `j` is the slice
      from `i`. */
  lemma JoinSlices(data: seq<Byte>, i: nat, j: nat, g: seq<Byte>, d: seq<Byte>)
    requires i <= j && j + |d| <= |data|
    requires g == data[i..j] && d == data[j..j + |d|]
    ensures i + |g + d| <= |data| && g + d == data[i..i + |g + d|]
  {
    assert data[i..j + |d|] == data[i..j] + data[j..j + |d|];
  }

  /** Sent in order: the bytes accepted are the data from `i2` on, all of it exactly when
      the loop completes; the attempt counter moves by one per attempt. */
  lemma {:induction false} WriteLoopDelivers(data: seq<Byte>, n: int, pace: real,
                                            answer: nat -> bool, attempt: nat, i2: nat, i3: nat)
    requires n > 0 && i2 <= |data| && i3 < MaxRetries
    ensures DeliversFrom(data, i2, attempt, WriteLoop(data, n, pace, answer, attempt, i2, i3))
    decreases |data| - i2, MaxRetries - i3
  {
    if i2 < |data| {
      var size := ChunkSize(n, |data|, i2);
      var chunk := data[i2..i2 + size];
      var ok := answer(attempt);
      if !ok && i3 + 1 >= MaxRetries {
        WriteLoopLast(data, n, pace, answer, attempt, i2, i3, chunk);
        DeliveredOne(Write(chunk, false));
      } else {
        var next := if ok then i2 + size else i2;
        var i3' := if ok then 0 else i3 + 1;
        WriteLoopStepAt(data, n, pace, answer, attempt, i2, i3, chunk, ok, attempt + 1, next, i3');
        WriteLoopDelivers(data, n, pace, answer, attempt + 1, next, i3');
        DeliversStep(data, i2, next, attempt, chunk, ok, pace,
                     WriteLoop(data, n, pace, answer, attempt + 1, next, i3'));
      }
    }
  }

  /** Every attempted chunk is the data at the offset reached so far, is not empty and is
      at most `n` long. */
  lemma {:induction false} WriteLoopChunks(data: seq<Byte>, n: int, pace: real,
                                          answer: nat -> bool, attempt: nat, i2: nat, i3: nat)
    requires n > 0 && i2 <= |data| && i3 < MaxRetries
    ensures ChunksFrom(data, n, i2, WriteLoop(data, n, pace, answer, attempt, i2, i3).events)
    decreases |data| - i2, MaxRetries - i3
  {
    if i2 < |data| {
      var size := ChunkSize(n, |data|, i2);
      var chunk := data[i2..i2 + size];
      var ok := answer(attempt);
      if !ok && i3 + 1 >= MaxRetries {
        WriteLoopLast(data, n, pace, answer, attempt, i2, i3, chunk);
        assert [Write(chunk, false)][1..] == [];
      } else {
        var next := if ok then i2 + size else i2;
        var i3' := if ok then 0 else i3 + 1;
        WriteLoopStepAt(data, n, pace, answer, attempt, i2, i3, chunk, ok, attempt + 1, next, i3');
        WriteLoopChunks(data, n, pace, answer, attempt + 1, next, i3');
        ChunksStep(data, n, i2, next, chunk, ok, pace,
                   WriteLoop(data, n, pace, answer, attempt + 1, next, i3'));
      }
    }
  }

  /** The step case of WriteLoopChunks: the new chunk is the data at `i2`, and it hands
      over `data[i2..next]`, so the rest's chunks sit at the right offsets. */
  lemma ChunksStep(data: seq<Byte>, n: int, i2: nat, next: nat, chunk: seq<Byte>,
                   ok: bool, pace: real, rest: Run)
    requires i2 <= next <= |data| && 0 < |chunk| <= n && i2 + |chunk| <= |data|
    requires chunk == data[i2..i2 + |chunk|] && Gain(Write(chunk, ok)) == data[i2..next]
    requires ChunksFrom(data, n, next, rest.events)
    ensures ChunksFrom(data, n, i2, StepRun(chunk, ok, pace, rest).events)
  {
    var pause := Sleep(if ok then pace else RetryDelay);
    var tail := [pause] + rest.events;
    PairCons(Write(chunk, ok), pause, rest.events);
    assert ChunksFrom(data, n, next, tail);
  }

  /** Two events in front, and the tails after the first and the second. */
  lemma PairCons(a: Event, b: Event, es: seq<Event>)
    ensures [a, b] + es == [a] + ([b] + es)
    ensures ([a, b] + es)[1..] == [b] + es && ([b] + es)[1..] == es
  {
  }

  /** Pacing: a successful attempt is followed by a pause of `pace`, a failed one by a
      pause of `RetryDelay` unless it is the very last event of a loop that gave up. */
  lemma {:induction false} WriteLoopPacing(data: seq<Byte>, n: int, pace: real,
                                          answer: nat -> bool, attempt: nat, i2: nat, i3: nat)
    requires n > 0 && i2 <= |data| && i3 < MaxRetries
    ensures Paced(pace, WriteLoop(data, n, pace, answer, attempt, i2, i3))
    decreases |data| - i2, MaxRetries - i3
  {
    if i2 < |data| {
      var size := ChunkSize(n, |data|, i2);
      var chunk := data[i2..i2 + size];
      var ok := answer(attempt);
      if ok || i3 + 1 < MaxRetries {
        var next := if ok then i2 + size else i2;
        var i3' := if ok then 0 else i3 + 1;
        WriteLoopStepAt(data, n, pace, answer, attempt, i2, i3, chunk, ok, attempt + 1, next, i3');
        WriteLoopPacing(data, n, pace, answer, attempt + 1, next, i3');
        PacedStep(chunk, ok, pace, WriteLoop(data, n, pace, answer, attempt + 1, next, i3'));
      }
    }
  }

  /** The step case of WriteLoopPacing. */
  lemma PacedStep(chunk: seq<Byte>, ok: bool, pace: real, rest: Run)
    requires Paced(pace, rest)
    ensures Paced(pace, StepRun(chunk, ok, pace, rest))
  {
    var r := StepRun(chunk, ok, pace, rest);
    var es := r.events;
    assert |es| == |rest.events| + 2 && r.completed == rest.completed;
    forall j | 0 <= j < |es| && es[j].Write?
      ensures if j + 1 < |es| then es[j + 1] == Sleep(if es[j].ok then pace else RetryDelay)
        else !es[j].ok && !r.completed
    {
      if j >= 2 {
        var k := j - 2;
        assert es[j] == rest.events[k];
        assert rest.events[k].Write?;
        if k + 1 < |rest.events| {
          assert es[j + 1] == rest.events[k + 1];
        } else {
          assert !rest.events[k].ok && !rest.completed;
        }
      }
    }
  }

  /** `k` failed attempts at one chunk, each followed by the retry pause. */
  function Failures(chunk: seq<Byte>, k: nat): (es: seq<Event>)
    ensures |es| == 2 * k
    decreases k
  {
    if k == 0 then [] else [Write(chunk, false), Sleep(RetryDelay)] + Failures(chunk, k - 1)
  }

  /** `k` failures that leave the streak short of `MaxRetries` retry the same chunk. */
  lemma {:induction false} RetryStreak(data: seq<Byte>, n: int, pace: real,
                                      answer: nat -> bool, attempt: nat, i2: nat, i3: nat,
                                      k: nat)
    requires n > 0 && i2 < |data| && i3 + k < MaxRetries
    requires forall a | attempt <= a < attempt + k :: !answer(a)
    ensures var r := WriteLoop(data, n, pace, answer, attempt, i2, i3);
      var rest := WriteLoop(data, n, pace, answer, attempt + k, i2, i3 + k);
      r == Run(Failures(data[i2..i2 + ChunkSize(n, |data|, i2)], k) + rest.events,
               rest.attempts, rest.completed)
    decreases k
  {
    if k > 0 {
      var chunk := data[i2..i2 + ChunkSize(n, |data|, i2)];
      var rest := WriteLoop(data, n, pace, answer, attempt + k, i2, i3 + k);
      assert !answer(attempt);
      WriteLoopStepAt(data, n, pace, answer, attempt, i2, i3, chunk, false, attempt + 1, i2,
                      i3 + 1);
      assert attempt + 1 + (k - 1) == attempt + k && i3 + 1 + (k - 1) == i3 + k;
      RetryStreak(data, n, pace, answer, attempt + 1, i2, i3 + 1, k - 1);
      assert [Write(chunk, false), Sleep(RetryDelay)] + (Failures(chunk, k - 1) + rest.events)
        == Failures(chunk, k) + rest.events;
    }
  }

  /** After `MaxRetries - i3` failures in a row the loop gives up: False, nothing more is
      attempted. */
  lemma GiveUp(data: seq<Byte>, n: int, pace: real, answer: nat -> bool,
               attempt: nat, i2: nat, i3: nat)
    requires n > 0 && i2 < |data| && i3 < MaxRetries
    requires forall a | attempt <= a < attempt + MaxRetries - i3 :: !answer(a)
    ensures var chunk := data[i2..i2 + ChunkSize(n, |data|, i2)];
      WriteLoop(data, n, pace, answer, attempt, i2, i3) ==
      Run(Failures(chunk, MaxRetries - i3 - 1) + [Write(chunk, false)],
          attempt + MaxRetries - i3, false)
  {
    var k := MaxRetries - i3 - 1;
    RetryStreak(data, n, pace, answer, attempt, i2, i3, k);
    assert !answer(attempt + k);
  }

  /** 49 failures and then a success: the chunk goes through and the loop carries on with
      the next one with a fresh streak. */
  lemma RetryThenSucceed(data: seq<Byte>, n: int, pace: real, answer: nat -> bool,
                         attempt: nat, i2: nat)
    requires n > 0 && i2 < |data|
    requires forall a | attempt <= a < attempt + MaxRetries - 1 :: !answer(a)
    requires answer(attempt + MaxRetries - 1)
    ensures var size := ChunkSize(n, |data|, i2);
      var chunk := data[i2..i2 + size];
      var rest := WriteLoop(data, n, pace, answer, attempt + MaxRetries, i2 + size, 0);
      WriteLoop(data, n, pace, answer, attempt, i2, 0) ==
      Run(Failures(chunk, MaxRetries - 1) + [Write(chunk, true), Sleep(pace)] + rest.events,
          rest.attempts, rest.completed)
  {
    var k := MaxRetries - 1;
    RetryStreak(data, n, pace, answer, attempt, i2, 0, k);
  }

  /** The number of chunks left from offset `i2`. */
  function ChunksLeft(n: int, length: nat, i2: nat): nat
    requires n > 0 && i2 <= length
    decreases length - i2
  {
    if i2 == length then 0 else 1 + ChunksLeft(n, length, i2 + ChunkSize(n, length, i2))
  }

  /** The retry budget: no chunk gets more than `MaxRetries` attempts, so the loop makes
      at most `MaxRetries` attempts per chunk (fewer by the streak it starts with). */
  lemma {:induction false} AttemptBudget(data: seq<Byte>, n: int, pace: real,
                                        answer: nat -> bool, attempt: nat, i2: nat, i3: nat)
    requires n > 0 && i2 <= |data| && i3 < MaxRetries
    ensures var r := WriteLoop(data, n, pace, answer, attempt, i2, i3);
      r.attempts + (if i2 < |data| then i3 else 0)
        <= attempt + MaxRetries * ChunksLeft(n, |data|, i2)
    decreases |data| - i2, MaxRetries - i3
  {
    if i2 < |data| {
      var size := ChunkSize(n, |data|, i2);
      if answer(attempt) {
        AttemptBudget(data, n, pace, answer, attempt + 1, i2 + size, 0);
      } else if i3 + 1 < MaxRetries {
        AttemptBudget(data, n, pace, answer, attempt + 1, i2, i3 + 1);
      }
    }
  }

  /** `write_characteristic(data)` as a whole (BLESPPUtils.py:140-187): False without a
      connection, None for a non-list, False when the loop gives up, and after a complete
      write True only for more than 50 bytes, None otherwise. */
  function WriteCall(connected: bool, payload: Payload, n: int, pace: real,
                     answer: nat -> bool, attempt: nat): (c: Call)
    requires n > 0 && Convertible(payload)
  {
    if !connected then Call(False, [], attempt)
    else if payload.Other? then Call(None, [], attempt)
    else
      var data := ToBytes(payload.values);
      var r := WriteLoop(data, n, pace, answer, attempt, 0, 0);
      Call(if !r.completed then False else if |data| > LongWrite then True else None,
           r.events, r.attempts)
  }

  /** The replies, case by case, and what reaches the client: with a connection and a
      list, the write delivers the converted bytes exactly when it does not return False. */
  lemma WriteCallReplies(connected: bool, payload: Payload, n: int, pace: real,
                         answer: nat -> bool, attempt: nat)
    requires n > 0 && Convertible(payload)
    ensures var c := WriteCall(connected, payload, n, pace, answer, attempt);
      (!connected ==> c.reply == False && c.events == []) &&
      (connected && payload.Other? ==> c.reply == None && c.events == []) &&
      (connected && payload.List? ==>
        (c.reply != False <==> Delivered(c.events) == ToBytes(payload.values)) &&
        (c.reply == True ==> |payload.values| > LongWrite) &&
        (c.reply == None ==> |payload.values| <= LongWrite))
  {
    if connected && payload.List? {
      WriteLoopDelivers(ToBytes(payload.values), n, pace, answer, attempt, 0, 0);
      assert ToBytes(payload.values)[0..] == ToBytes(payload.values);
    }
  }

  // ---------------------------------------------------------------------------------
  // `send` (BLESPPUtils.py:190-202).

  /** The four fixed writes `send` starts with (BLESPPUtils.py:193-196). */
  const Handshakes: seq<Payload> := [
    List([18, 81, 120, -93, 0, 1, 0, 0, 0, -1]),
    List([18, 81, 120, -88, 0, 1, 0, 0, 0, -1]),
    List([18, 81, 120, -69, 0, 1, 0, 1, 7, -1]),
    List([18, 81, 120, -93, 0, 1, 0, 0, 0, -1])
  ]

  /** Each handshake is the byte 18 in front of a well-formed printer frame. */
  lemma HandshakesFramed()
    ensures Handshakes[0].values == [18] + Frame(Seal(-93, [0]))
    ensures Handshakes[1].values == [18] + Frame(Seal(-88, [0]))
    ensures Handshakes[2].values == [18] + Frame(Seal(-69, [1]))
    ensures Handshakes[3].values == [18] + Frame(Seal(-93, [0]))
  {
    Checksum0();
    Checksum1();
  }

  /** The handshakes fit the byte conversion. */
  lemma HandshakesFit()
    ensures forall k | 0 <= k < 4 :: Fits(Handshakes[k].values)
  {
  }

  // ---------------------------------------------------------------------------------
  // The output of `generate_image` as the argument of `send`.

  /** Joining lists that fit gives a list that fits. */
  lemma FitsAppend(a: seq<int>, b: seq<int>)
    requires Fits(a) && Fits(b)
    ensures Fits(a + b)
  {
    forall i | 0 <= i < |a + b| ensures (a + b)[i] <= 255 {
      if i >= |a| {
        assert (a + b)[i] == b[i - |a|];
      }
    }
  }

  /** Blocks that fit, joined one after another. */
  lemma {:induction false} FitsConcat(bs: seq<seq<int>>)
    requires forall y | 0 <= y < |bs| :: Fits(bs[y])
    ensures Fits(Concat(bs))
    decreases |bs|
  {
    if bs != [] {
      var m := |bs| - 1;
      assert forall y | 0 <= y < m :: bs[..m][y] == bs[y];
      FitsConcat(bs[..m]);
      FitsAppend(Concat(bs[..m]), bs[m]);
    }
  }

  /** A frame fits when its code, its length field, its payload and its check byte do. */
  lemma FrameFits(c: Command)
    requires c.code <= 255 && |c.payload| <= 255 && c.check <= 255 && Fits(c.payload)
    ensures Fits(Frame(c))
  {
    var head := [81, 120, c.code, 0, |c.payload|, 0];
    FitsAppend(head, c.payload);
    FitsAppend(head + c.payload, [c.check, -1]);
  }

  /** A sealed frame fits when its code, its length field and its payload do: the check
      byte is a signed byte. */
  lemma SealFits(code: int, payload: seq<int>)
    requires code <= 255 && |payload| <= 255 && Fits(payload)
    ensures Fits(Frame(Seal(code, payload)))
  {
    FrameFits(Seal(code, payload));
  }

  /** A row of at most 2040 pixels has at most 255 bitmap bytes, so its block fits. */
  lemma RowBlockFits(row: seq<int>)
    requires |row| <= 2040
    ensures Fits(RowBlock(row))
  {
    var bmp := BitPacking.PackRow(row);
    BitmapBound(|row|);
    SealFits(-65, bmp);
    assert Fits(RowPrefix);
    FitsAppend(RowPrefix, Frame(RowCommand(row)));
  }

  /** At most 2040 pixels make at most 255 bitmap bytes. */
  lemma BitmapBound(w: nat)
    requires w <= 2040
    ensures (w + 7) / 8 <= 255
  {
  }

  /** The fixed blocks fit. */
  lemma FixedBlocksFit()
    ensures Fits(CmdHeader) && Fits(CmdFooter)
  {
    assert Fits(HeaderPart1) && Fits(HeaderPart2) && Fits(HeaderPart3);
    FitsAppend(HeaderPart1, HeaderPart2);
    FitsAppend(HeaderPart1 + HeaderPart2, HeaderPart3);
    assert Fits(FooterPart1) && Fits(FooterPart2) && Fits(FooterPart3);
    assert Fits(FooterPart4) && Fits(FooterPart5) && Fits(FooterPadding);
    var f1 := FooterPart1 + FooterPart2;
    FitsAppend(FooterPart1, FooterPart2);
    FitsAppend(f1, FooterPart3);
    FitsAppend(f1 + FooterPart3, FooterPart4);
    FitsAppend(f1 + FooterPart3 + FooterPart4, FooterPart5);
    FitsAppend(f1 + FooterPart3 + FooterPart4 + FooterPart5, FooterPadding);
  }

  /** The output of `generate_image` for a raster at most 2040 pixels wide is a list the
      writer can convert: every value is at most 255. */
  lemma ImageFits(raster: seq<seq<int>>, width: nat)
    requires Rectangular(raster, width) && width <= 2040
    ensures Fits(ImageCommands(raster))
  {
    var bs := RowBlocks(raster);
    forall y | 0 <= y < |bs| ensures Fits(bs[y]) {
      RowBlockFits(raster[y]);
    }
    FitsConcat(bs);
    FixedBlocksFit();
    FitsAppend(CmdHeader, RowsBlock(raster));
    FitsAppend(CmdHeader + RowsBlock(raster), CmdFooter);
  }

  /** Call `next` made right after the calls summed up in `before`: the events follow
      each other, and the reply and the attempt counter are the later call's. */
  function Then(before: Call, next: Call): Call
  {
    Call(next.reply, before.events + next.events, next.attempts)
  }

  /** What a series of `write_characteristic` calls leaves behind, one call after another,
      each starting at the attempt counter the previous one left. */
  function Session(ps: seq<Payload>, connected: bool, n: int, pace: real,
                   answer: nat -> bool, attempt: nat): (c: Call)
    requires n > 0 && AllConvertible(ps)
    decreases |ps|
  {
    if ps == [] then Call(None, [], attempt)
    else
      var init := Session(ps[..|ps| - 1], connected, n, pace, answer, attempt);
      Then(init, WriteCall(connected, ps[|ps| - 1], n, pace, answer, init.attempts))
  }

  /** A session one call longer: the call is made where the shorter session stopped. */
  lemma SessionSnoc(ps: seq<Payload>, p: Payload, connected: bool, n: int, pace: real,
                    answer: nat -> bool, attempt: nat)
    requires n > 0 && AllConvertible(ps) && Convertible(p)
    ensures var before := Session(ps, connected, n, pace, answer, attempt);
      Session(ps + [p], connected, n, pace, answer, attempt) ==
      Then(before, WriteCall(connected, p, n, pace, answer, before.attempts))
  {
    assert (ps + [p])[..|ps|] == ps;
  }

  /** The same, with the call named by its place in the list. */
  lemma SessionNext(ps: seq<Payload>, k: nat, connected: bool, n: int, pace: real,
                    answer: nat -> bool, attempt: nat)
    requires n > 0 && k < |ps| && AllConvertible(ps)
    ensures var before := Session(ps[..k], connected, n, pace, answer, attempt);
      Session(ps[..k + 1], connected, n, pace, answer, attempt) ==
      Then(before, WriteCall(connected, ps[k], n, pace, answer, before.attempts))
  {
    assert ps[..k + 1][..k] == ps[..k];
  }

  /** Without a connection, a session writes nothing and every call returns False. */
  lemma {:induction false} SessionDisconnected(ps: seq<Payload>, n: int, pace: real,
                                              answer: nat -> bool, attempt: nat)
    requires n > 0 && AllConvertible(ps)
    ensures var s := Session(ps, false, n, pace, answer, attempt);
      s.events == [] && s.attempts == attempt && (ps != [] ==> s.reply == False)
    decreases |ps|
  {
    if ps != [] {
      SessionDisconnected(ps[..|ps| - 1], n, pace, answer, attempt);
    }
  }

  /** The bytes a session hands to the client are its calls' bytes, in call order. */
  lemma SessionDelivers(ps: seq<Payload>, connected: bool, n: int, pace: real,
                        answer: nat -> bool, attempt: nat)
    requires n > 0 && ps != [] && AllConvertible(ps)
    ensures var init := Session(ps[..|ps| - 1], connected, n, pace, answer, attempt);
      Delivered(Session(ps, connected, n, pace, answer, attempt).events) ==
      Delivered(init.events) +
      Delivered(WriteCall(connected, ps[|ps| - 1], n, pace, answer, init.attempts).events)
  {
    var init := Session(ps[..|ps| - 1], connected, n, pace, answer, attempt);
    DeliveredAppend(init.events,
                    WriteCall(connected, ps[|ps| - 1], n, pace, answer, init.attempts).events);
  }

  /** With a connection and every call completing, a session hands the client every
      payload's bytes, one payload after another. */
  lemma {:induction false} SessionDeliversAll(ps: seq<Payload>, n: int, pace: real,
                                             answer: nat -> bool, attempt: nat,
                                             bytes: seq<seq<Byte>>)
    requires n > 0 && |bytes| == |ps| && AllConvertible(ps)
    requires forall k | 0 <= k < |ps| :: ps[k].List? && bytes[k] == ToBytes(ps[k].values)
    requires forall k | 0 <= k < |ps| ::
      var before := Session(ps[..k], true, n, pace, answer, attempt);
      WriteCall(true, ps[k], n, pace, answer, before.attempts).reply != False
    ensures Delivered(Session(ps, true, n, pace, answer, attempt).events) == Concat(bytes)
    decreases |ps|
  {
    if ps != [] {
      var m := |ps| - 1;
      var init := Session(ps[..m], true, n, pace, answer, attempt);
      var last := WriteCall(true, ps[m], n, pace, answer, init.attempts);
      assert Delivered(init.events) == Concat(bytes[..m]) by {
        forall k | 0 <= k < m
          ensures ps[..m][k] == ps[k] && ps[..m][..k] == ps[..k] && bytes[..m][k] == bytes[k]
        {
        }
        SessionDeliversAll(ps[..m], n, pace, answer, attempt, bytes[..m]);
      }
      assert Delivered(last.events) == bytes[m] by {
        WriteCallReplies(true, ps[m], n, pace, answer, init.attempts);
      }
      SessionDelivers(ps, true, n, pace, answer, attempt);
    }
  }

  /** A session of five calls, one after another: each starts at the attempt counter
      the previous one left, and their events follow each other. */
  lemma SessionOfFive(p0: Payload, p1: Payload, p2: Payload, p3: Payload, p4: Payload,
                      connected: bool, n: int, pace: real, answer: nat -> bool, a0: nat)
    requires n > 0 && Convertible(p0) && Convertible(p1) && Convertible(p2)
    requires Convertible(p3) && Convertible(p4)
    ensures var c0 := WriteCall(connected, p0, n, pace, answer, a0);
      var c1 := WriteCall(connected, p1, n, pace, answer, c0.attempts);
      var c2 := WriteCall(connected, p2, n, pace, answer, c1.attempts);
      var c3 := WriteCall(connected, p3, n, pace, answer, c2.attempts);
      var c4 := WriteCall(connected, p4, n, pace, answer, c3.attempts);
      var s := Session([p0, p1, p2, p3, p4], connected, n, pace, answer, a0);
      s.events == [] + c0.events + c1.events + c2.events + c3.events + c4.events &&
      s.attempts == c4.attempts && s.reply == c4.reply
  {
    var ps := [p0, p1, p2, p3, p4];
    assert AllConvertible(ps);
    assert ps[..0] == [];
    SessionNext(ps, 0, connected, n, pace, answer, a0);
    SessionNext(ps, 1, connected, n, pace, answer, a0);
    SessionNext(ps, 2, connected, n, pace, answer, a0);
    SessionNext(ps, 3, connected, n, pace, answer, a0);
    SessionNext(ps, 4, connected, n, pace, answer, a0);
    assert ps[..5] == ps;
  }

  /** The trace went from `start` to `trace` while running the first part of `whole`,
      and the run `now` is what is left of it. */
  predicate Resumes(whole: Run, start: seq<Event>, trace: seq<Event>, now: Run)
  {
    start + whole.events == trace + now.events &&
    whole.attempts == now.attempts && whole.completed == now.completed
  }

  /** One pass of the loop body, on the run: recording the attempt and its pause leaves
      the loop from the next state to do. */
  lemma LoopResumes(whole: Run, start: seq<Event>, trace: seq<Event>, data: seq<Byte>,
                    n: int, pace: real, answer: nat -> bool, attempt: nat, i2: nat, i3: nat,
                    chunk: seq<Byte>, ok: bool, attempt': nat, i2': nat, i3': nat)
    requires n > 0 && i2 < |data| && i3 < MaxRetries
    requires ok == answer(attempt) && (ok || i3 + 1 < MaxRetries)
    requires chunk == data[i2..i2 + ChunkSize(n, |data|, i2)] && attempt' == attempt + 1
    requires i2' == (if ok then i2 + |chunk| else i2) && i3' == (if ok then 0 else i3 + 1)
    requires Resumes(whole, start, trace, WriteLoop(data, n, pace, answer, attempt, i2, i3))
    ensures Resumes(whole, start,
                    trace + [Write(chunk, ok)] + [Sleep(if ok then pace else RetryDelay)],
                    WriteLoop(data, n, pace, answer, attempt', i2', i3'))
  {
    var after := WriteLoop(data, n, pace, answer, attempt', i2', i3');
    WriteLoopStepAt(data, n, pace, answer, attempt, i2, i3, chunk, ok, attempt', i2', i3');
    var head := [Write(chunk, ok), Sleep(if ok then pace else RetryDelay)];
    assert trace + (head + after.events) ==
      trace + [Write(chunk, ok)] + [Sleep(if ok then pace else RetryDelay)] + after.events;
  }

  /** The failure that ends a streak of `MaxRetries` ends the run: it is the last event,
      and the run is not complete. */
  lemma LoopGivesUp(whole: Run, start: seq<Event>, trace: seq<Event>, data: seq<Byte>,
                    n: int, pace: real, answer: nat -> bool, attempt: nat, i2: nat, i3: nat,
                    chunk: seq<Byte>)
    requires n > 0 && i2 < |data| && i3 < MaxRetries
    requires !answer(attempt) && i3 + 1 >= MaxRetries
    requires chunk == data[i2..i2 + ChunkSize(n, |data|, i2)]
    requires Resumes(whole, start, trace, WriteLoop(data, n, pace, answer, attempt, i2, i3))
    ensures trace + [Write(chunk, false)] == start + whole.events
    ensures whole.attempts == attempt + 1 && !whole.completed
  {
  }

  /** At the end of the data, the run is what has happened. */
  lemma LoopEnds(whole: Run, start: seq<Event>, trace: seq<Event>, data: seq<Byte>,
                 n: int, pace: real, answer: nat -> bool, attempt: nat, i3: nat)
    requires n > 0 && i3 < MaxRetries
    requires Resumes(whole, start, trace, WriteLoop(data, n, pace, answer, attempt, |data|, i3))
    ensures trace == start + whole.events && whole.attempts == attempt && whole.completed
  {
    assert trace + [] == trace;
  }

  // ---------------------------------------------------------------------------------
  // The session object.

  /** The constructor's default `slow_interval`, `interval` and `one_length`
      (BLESPPUtils.py:8). */
  const DefaultSlowInterval: real := 0.05
  const DefaultInterval: real := 0.01
  const DefaultOneLength: int := 100

  /** The value the `one_length` setter accepts (BLESPPUtils.py:42). */
  predicate ValidOneLength(value: int)
  {
    value > 0
  }

  /** The values the `interval` and `slow_interval` setters accept (BLESPPUtils.py:52, 62). */
  predicate ValidInterval(value: real)
  {
    value >= 0.0
  }

  class BleSppUtils {
    var deviceAddress: string
    var slowInterval: real
    var interval: real
    var oneLength: int
    /** `_is_full`: set to False by the constructor and never changed (BLESPPUtils.py:14). */
    const isFull: bool
    const uuid: string
    const notifyUuid: string
    const readUuid: string
    var connected: bool
    /** Whether `connect` has assigned `_client` (BLESPPUtils.py:118). */
    var hasClient: bool
    /** The client's outcome for each write attempt of the session, by attempt number. */
    const answer: nat -> bool
    /** The number of write attempts made so far. */
    var attempts: nat
    /** Everything the client has been asked to do, in order. */
    var trace: seq<Event>

    /** Every setting holds a value its setter accepts. */
    predicate Valid()
      reads this`deviceAddress, this`oneLength, this`interval, this`slowInterval
    {
      IsValidMac(deviceAddress) && ValidOneLength(oneLength) &&
      ValidInterval(interval) && ValidInterval(slowInterval)
    }

    /** `BLESPPUtils(address, uuid, notify_uuid, read_uuid, slow_interval, interval,
        one_length)` with accepted arguments (BLESPPUtils.py:8-18). */
    constructor (address: string, uuid: string, notifyUuid: string, readUuid: string,
                 slowInterval: real, interval: real, oneLength: int, answer: nat -> bool)
      requires IsValidMac(address) && ValidInterval(slowInterval)
      requires ValidInterval(interval) && ValidOneLength(oneLength)
      ensures Valid()
      ensures deviceAddress == address && this.slowInterval == slowInterval
      ensures this.interval == interval && this.oneLength == oneLength
      ensures this.uuid == uuid && this.notifyUuid == notifyUuid && this.readUuid == readUuid
      ensures !isFull && !connected && !hasClient
      ensures this.answer == answer && attempts == 0 && trace == []
    {
      deviceAddress := address;
      this.slowInterval := slowInterval;
      this.interval := interval;
      this.oneLength := oneLength;
      isFull := false;
      this.uuid := uuid;
      this.notifyUuid := notifyUuid;
      this.readUuid := readUuid;
      connected := false;
      hasClient := false;
      this.answer := answer;
      attempts := 0;
      trace := [];
    }

    /** The constructor with any arguments: `None` stands for the ValueError one of the
        setters raises. */
    static method Create(address: string, uuid: string, notifyUuid: string, readUuid: string,
                         slowInterval: real, interval: real, oneLength: int,
                         answer: nat -> bool)
      returns (r: Options.Option<BleSppUtils>)
      ensures r.Some? <==>
        IsValidMac(address) && ValidInterval(slowInterval) &&
        ValidInterval(interval) && ValidOneLength(oneLength)
      ensures r.Some? ==> fresh(r.value) && r.value.Valid() && !r.value.connected
      ensures r.Some? ==> r.value.deviceAddress == address && r.value.oneLength == oneLength
      ensures r.Some? ==> r.value.interval == interval && r.value.slowInterval == slowInterval
      ensures r.Some? ==> r.value.uuid == uuid && r.value.notifyUuid == notifyUuid
      ensures r.Some? ==> r.value.readUuid == readUuid
      ensures r.Some? ==> !r.value.isFull && !r.value.hasClient && r.value.answer == answer
      ensures r.Some? ==> r.value.attempts == 0 && r.value.trace == []
    {
      if IsValidMac(address) && ValidInterval(slowInterval) &&
         ValidInterval(interval) && ValidOneLength(oneLength) {
        var u := new BleSppUtils(address, uuid, notifyUuid, readUuid, slowInterval, interval,
                                 oneLength, answer);
        r := Options.Some(u);
      } else {
        r := Options.None;
      }
    }

    /** The constructor with its default intervals and chunk length. */
    static method CreateWithDefaults(address: string, uuid: string, notifyUuid: string,
                                     readUuid: string, answer: nat -> bool)
      returns (r: Options.Option<BleSppUtils>)
      ensures r.Some? <==> IsValidMac(address)
      ensures r.Some? ==> fresh(r.value) && r.value.Valid()
      ensures r.Some? ==> r.value.slowInterval == 0.05 && r.value.interval == 0.01
      ensures r.Some? ==> r.value.oneLength == 100 && r.value.deviceAddress == address
      ensures r.Some? ==> r.value.uuid == uuid && r.value.notifyUuid == notifyUuid
      ensures r.Some? ==> r.value.readUuid == readUuid
      ensures r.Some? ==> !r.value.connected && !r.value.isFull && !r.value.hasClient
      ensures r.Some? ==> r.value.answer == answer && r.value.attempts == 0 && r.value.trace == []
    {
      r := Create(address, uuid, notifyUuid, readUuid, DefaultSlowInterval, DefaultInterval,
                  DefaultOneLength, answer);
    }

    /** The `device_address` setter (BLESPPUtils.py:29-33): `ok` is false where it raises
        ValueError, and then the stored value is kept. */
    method SetDeviceAddress(value: string) returns (ok: bool)
      modifies this`deviceAddress
      ensures ok <==> IsValidMac(value)
      ensures deviceAddress == if ok then value else old(deviceAddress)
      ensures old(Valid()) ==> Valid()
    {
      ok := IsValidMac(value);
      if ok {
        deviceAddress := value;
      }
    }

    /** The `one_length` setter (BLESPPUtils.py:40-44). */
    method SetOneLength(value: int) returns (ok: bool)
      modifies this`oneLength
      ensures ok <==> ValidOneLength(value)
      ensures oneLength == if ok then value else old(oneLength)
      ensures old(Valid()) ==> Valid()
    {
      ok := ValidOneLength(value);
      if ok {
        oneLength := value;
      }
    }

    /** The `interval` setter (BLESPPUtils.py:50-54). */
    method SetInterval(value: real) returns (ok: bool)
      modifies this`interval
      ensures ok <==> ValidInterval(value)
      ensures interval == if ok then value else old(interval)
      ensures old(Valid()) ==> Valid()
    {
      ok := ValidInterval(value);
      if ok {
        interval := value;
      }
    }

    /** The `slow_interval` setter (BLESPPUtils.py:60-64). */
    method SetSlowInterval(value: real) returns (ok: bool)
      modifies this`slowInterval
      ensures ok <==> ValidInterval(value)
      ensures slowInterval == if ok then value else old(slowInterval)
      ensures old(Valid()) ==> Valid()
    {
      ok := ValidInterval(value);
      if ok {
        slowInterval := value;
      }
    }

    /** `connect()` (BLESPPUtils.py:116-125), the client's answer being `linkUp`: the
        client is assigned either way, and `connected` becomes true only on success. */
    method Connect(linkUp: bool) returns (ok: bool)
      modifies this`connected, this`hasClient
      ensures ok == linkUp && hasClient
      ensures connected == (linkUp || old(connected))
    {
      hasClient := true;
      if linkUp {
        connected := true;
        ok := true;
      } else {
        ok := false;
      }
    }

    /** `disconnect()` (BLESPPUtils.py:127-131): before any `connect` there is no
        `_client` and the call raises, changing nothing; otherwise `connected` becomes
        false. */
    method Disconnect() returns (raised: bool)
      modifies this`connected
      ensures raised <==> !hasClient
      ensures connected == if raised then old(connected) else false
    {
      raised := !hasClient;
      if !raised {
        connected := false;
      }
    }

    /** The pause after a successful write (BLESPPUtils.py:170). */
    function Pace(): real
      reads this`interval, this`slowInterval
    {
      if !isFull then interval else slowInterval
    }

    /** The list-to-bytes loop (BLESPPUtils.py:145-152). */
    static method Convert(values: seq<int>) returns (data: seq<Byte>)
      requires Fits(values)
      ensures data == ToBytes(values)
    {
      data := [];
      var j := 0;
      while j < |values|
        invariant 0 <= j <= |values|
        invariant data == ToBytes(values[..j])
      {
        var value := values[j];
        if value < 0 {
          value := (value + 256) % 256;
        }
        data := data + [value];
        assert values[..j + 1] == values[..j] + [values[j]];
        j := j + 1;
      }
      assert values[..j] == values;
    }

    /** `await self._client.write_gatt_char(self.uuid, chunk)`: the attempt succeeds when
        the client's answer to it is yes, counts as one attempt, and is recorded. */
    method WriteGattChar(chunk: seq<Byte>) returns (ok: bool)
      modifies this`trace, this`attempts
      ensures ok == answer(old(attempts)) && attempts == old(attempts) + 1
      ensures trace == old(trace) + [Write(chunk, ok)]
    {
      ok := answer(attempts);
      attempts := attempts + 1;
      trace := trace + [Write(chunk, ok)];
    }

    /** `await asyncio.sleep(seconds)`: recorded, not waited for. */
    method AsyncSleep(seconds: real)
      modifies this`trace
      ensures trace == old(trace) + [Sleep(seconds)]
    {
      trace := trace + [Sleep(seconds)];
    }

    /** The retry loop of `write_characteristic` (BLESPPUtils.py:154-185) on the converted
        bytes: the events it records, the attempt counter it leaves and whether it sent
        everything are those of WriteLoop from offset 0. */
    method WriteChunks(data: seq<Byte>) returns (completed: bool)
      requires Valid()
      modifies this`trace, this`attempts
      ensures var r := old(WriteLoop(data, oneLength, Pace(), answer, attempts, 0, 0));
        completed == r.completed && trace == old(trace) + r.events && attempts == r.attempts
    {
      var length := |data|;
      var i2 := 0;
      var i3 := 0;
      ghost var n, pace, start := oneLength, Pace(), trace;
      ghost var whole := WriteLoop(data, n, pace, answer, attempts, 0, 0);
      while i2 < length
        invariant 0 <= i2 <= length && 0 <= i3 < MaxRetries
        invariant n == oneLength && pace == Pace()
        invariant Resumes(whole, start, trace, WriteLoop(data, n, pace, answer, attempts, i2, i3))
        decreases length - i2, MaxRetries - i3
      {
        var size := if oneLength < length - i2 then oneLength else length - i2;
        var chunk := data[i2..i2 + size];
        ghost var (a, j2, j3, before) := (attempts, i2, i3, trace);
        var ok := WriteGattChar(chunk);
        if ok {
          i2 := i2 + size;
          i3 := 0;
          AsyncSleep(if !isFull then interval else slowInterval);
        } else {
          i3 := i3 + 1;
          if i3 >= MaxRetries {
            LoopGivesUp(whole, start, before, data, n, pace, answer, a, j2, j3, chunk);
            return false;
          }
          AsyncSleep(RetryDelay);
        }
        LoopResumes(whole, start, before, data, n, pace, answer, a, j2, j3, chunk, ok,
                    attempts, i2, i3);
      }
      LoopEnds(whole, start, trace, data, n, pace, answer, attempts, i3);
      completed := true;
    }

    /** `write_characteristic(data)` (BLESPPUtils.py:140-187): the result, the events and
        the attempt counter are those WriteCall describes. */
    method WriteCharacteristic(payload: Payload) returns (reply: Reply)
      requires Valid() && Convertible(payload)
      modifies this`trace, this`attempts
      ensures var c := old(WriteCall(connected, payload, oneLength, Pace(), answer, attempts));
        reply == c.reply && trace == old(trace) + c.events && attempts == c.attempts
    {
      if !connected {
        return False;
      }
      if !payload.List? {
        return None;
      }
      var data := Convert(payload.values);
      var completed := WriteChunks(data);
      if !completed {
        reply := False;
      } else if |data| > LongWrite {
        reply := True;
      } else {
        reply := None;
      }
    }

    /** `send(data)` (BLESPPUtils.py:190-202): the four handshakes, then `data`, whatever
        each write returns; the result is always True. */
    method Send(data: Payload) returns (ok: bool)
      requires Valid() && Convertible(data)
      modifies this`trace, this`attempts
      ensures ok
      ensures var c0 := old(WriteCall(connected, Handshakes[0], oneLength, Pace(), answer,
                                      attempts));
        var c1 := old(WriteCall(connected, Handshakes[1], oneLength, Pace(), answer,
                                c0.attempts));
        var c2 := old(WriteCall(connected, Handshakes[2], oneLength, Pace(), answer,
                                c1.attempts));
        var c3 := old(WriteCall(connected, Handshakes[3], oneLength, Pace(), answer,
                                c2.attempts));
        var c4 := old(WriteCall(connected, data, oneLength, Pace(), answer, c3.attempts));
        trace == old(trace) + c0.events + c1.events + c2.events + c3.events + c4.events &&
        attempts == c4.attempts
    {
      HandshakesFit();
      var r0 := WriteCharacteristic(Handshakes[0]);
      var r1 := WriteCharacteristic(Handshakes[1]);
      var r2 := WriteCharacteristic(Handshakes[2]);
      var r3 := WriteCharacteristic(Handshakes[3]);
      var r4 := WriteCharacteristic(data);
      ok := true;
    }
  }
}

/**
 * The audio side of the client: raw frames, the FIFO they travel through
 * (`buff`, a `queue.Queue` holding byte strings and a `None` close sentinel),
 * the bounded overlap deque, and the aggregator generator that turns the
 * queue into one outbound chunk sequence per recognition session.
 */
module Audio {
  import opened Wrappers

  type Bytes = seq<bv8>

  /** One element of the queue: a byte string, or the `None` close sentinel. */
  datatype Elem = Frame(bytes: Bytes) | Sentinel

  // Client.RATE, Client.CHUNK (int(RATE / 10), 100 ms) and Client.SECS_OVERLAP.
  const Rate: int := 16000
  const Chunk: int := Rate / 10
  const SecsOverlap: int := 1
  /** The deque's maxlen, SECS_OVERLAP * RATE / CHUNK under true division: 10 elements. */
  const W: nat := SecsOverlap * Rate / Chunk

  /** Total number of bytes in a list of byte strings. */
  function TotalLength(chunks: seq<Bytes>): nat
  {
    if chunks == [] then 0 else |chunks[0]| + TotalLength(chunks[1..])
  }

  /** `b''.join(chunks)`: the in-order concatenation of byte strings. */
  function Join(chunks: seq<Bytes>): Bytes
  {
    if chunks == [] then [] else chunks[0] + Join(chunks[1..])
  }

  /** Joining loses and adds no byte. */
  lemma {:induction false} JoinLength(chunks: seq<Bytes>)
    ensures |Join(chunks)| == TotalLength(chunks)
  {
    if chunks != [] {
      JoinLength(chunks[1..]);
    }
  }

  lemma {:induction false} JoinAppend(a: seq<Bytes>, b: seq<Bytes>)
    ensures Join(a + b) == Join(a) + Join(b)
  {
    if a == [] {
      assert a + b == b;
    } else {
      assert (a + b)[1..] == a[1..] + b;
      JoinAppend(a[1..], b);
    }
  }

  /** The byte strings of a queue, in order, with every sentinel dropped. */
  function AudioOf(es: seq<Elem>): seq<Bytes>
  {
    if es == [] then []
    else (if es[0].Frame? then [es[0].bytes] else []) + AudioOf(es[1..])
  }

  lemma {:induction false} AudioAppend(a: seq<Elem>, b: seq<Elem>)
    ensures AudioOf(a + b) == AudioOf(a) + AudioOf(b)
  {
    if a == [] {
      assert a + b == b;
    } else {
      assert (a + b)[1..] == a[1..] + b;
      AudioAppend(a[1..], b);
    }
  }

  lemma AudioCons(e: Elem, rest: seq<Elem>)
    ensures AudioOf([e] + rest) == (if e.Frame? then [e.bytes] else []) + AudioOf(rest)
  {
    assert ([e] + rest)[1..] == rest;
  }

  /** How many close sentinels a queue holds. */
  function SentinelCount(es: seq<Elem>): nat
  {
    if es == [] then 0 else (if es[0] == Sentinel then 1 else 0) + SentinelCount(es[1..])
  }

  lemma {:induction false} SentinelCountPositive(es: seq<Elem>)
    ensures Sentinel in es <==> SentinelCount(es) > 0
  {
    if es != [] {
      SentinelCountPositive(es[1..]);
      assert es == [es[0]] + es[1..];
    }
  }

  /**
   * `b''.join(data)` over queue elements: it raises (TypeError) as soon as
   * one element is the `None` sentinel, and otherwise concatenates.
   */
  function JoinElems(es: seq<Elem>): (r: Option<Bytes>)
    ensures r.Some? <==> Sentinel !in es
    ensures r.Some? ==> r.value == Join(AudioOf(es))
  {
    if es == [] then Some([])
    else if es[0] == Sentinel then None
    else match JoinElems(es[1..])
      case None => None
      case Some(rest) => Some(es[0].bytes + rest)
  }

  /** The position of the first sentinel in a queue. */
  function FirstSentinel(es: seq<Elem>): (k: nat)
    requires Sentinel in es
    ensures k < |es| && es[k] == Sentinel && Sentinel !in es[..k]
  {
    if es[0] == Sentinel then 0 else 1 + FirstSentinel(es[1..])
  }

  /** `data.remove(None)`: delete the first sentinel. */
  function RemoveFirstSentinel(es: seq<Elem>): (r: seq<Elem>)
    requires Sentinel in es
    ensures |r| == |es| - 1
    ensures SentinelCount(r) + 1 == SentinelCount(es)
    ensures AudioOf(r) == AudioOf(es)
  {
    if es[0] == Sentinel then es[1..]
    else
      var rest := RemoveFirstSentinel(es[1..]);
      assert ([es[0]] + rest)[1..] == rest;
      [es[0]] + rest
  }

  /** The sentinel removed is the first one; the elements around it keep their order. */
  lemma {:induction false} RemoveFirstSentinelAt(es: seq<Elem>)
    requires Sentinel in es
    ensures var k := FirstSentinel(es);
            RemoveFirstSentinel(es) == es[..k] + es[k + 1..]
  {
    if es[0] != Sentinel {
      var tail := es[1..];
      RemoveFirstSentinelAt(tail);
      var j := FirstSentinel(tail);
      calc {
        RemoveFirstSentinel(es);
        [es[0]] + RemoveFirstSentinel(tail);
        [es[0]] + (tail[..j] + tail[j + 1..]);
        ([es[0]] + tail[..j]) + tail[j + 1..];
        { assert es[..j + 1] == [es[0]] + tail[..j]; assert es[j + 2..] == tail[j + 1..]; }
        es[..j + 1] + es[j + 2..];
      }
    }
  }

  /** The last `n` elements of `s` (all of `s` when it is shorter). */
  function LastN<T>(s: seq<T>, n: nat): (r: seq<T>)
    ensures |r| <= n && |r| <= |s|
  {
    if |s| <= n then s else s[|s| - n..]
  }

  lemma {:induction false} LastNOfLastN<T>(a: seq<T>, b: seq<T>, n: nat)
    ensures LastN(LastN(a, n) + b, n) == LastN(a + b, n)
  {
    if |a| > n {
      var c := a[|a| - n..] + b;
      if |a + b| > n {
        assert c[|c| - n..] == (a + b)[|a + b| - n..];
      }
    }
  }

  /** `deque.append` on a deque with maxlen W: a full deque drops its oldest element first. */
  function Append(d: seq<Bytes>, x: Bytes): (r: seq<Bytes>)
    requires |d| <= W
    ensures |r| <= W
  {
    if |d| < W then d + [x] else d[1..] + [x]
  }

  /** After an append the deque holds the latest W elements. */
  lemma AppendKeepsLatest(d: seq<Bytes>, x: Bytes)
    requires |d| <= W
    ensures Append(d, x) == LastN(d + [x], W)
  {
    if |d| == W {
      assert (d + [x])[|d + [x]| - W..] == d[1..] + [x];
    }
  }

  /** `deque.extend(xs)` on a deque with maxlen W: one `append` per element, in order. */
  function Extend(d: seq<Bytes>, xs: seq<Bytes>): (r: seq<Bytes>)
    requires |d| <= W
    ensures |r| <= W
    decreases |xs|
  {
    if xs == [] then d else Extend(Append(d, xs[0]), xs[1..])
  }

  /** Extending the overlap deque keeps exactly the latest W elements of old contents ++ new ones. */
  lemma {:induction false} ExtendKeepsLatest(d: seq<Bytes>, xs: seq<Bytes>)
    requires |d| <= W
    ensures Extend(d, xs) == LastN(d + xs, W)
    decreases |xs|
  {
    if xs == [] {
      assert d + xs == d;
    } else {
      AppendKeepsLatest(d, xs[0]);
      ExtendKeepsLatest(Append(d, xs[0]), xs[1..]);
      LastNOfLastN(d + [xs[0]], xs[1..], W);
      assert d + [xs[0]] + xs[1..] == d + xs;
    }
  }

  /** Two successive batches leave the deque as one batch made of both would. */
  lemma {:induction false} ExtendComposes(d: seq<Bytes>, a: seq<Bytes>, b: seq<Bytes>)
    requires |d| <= W
    ensures Extend(Extend(d, a), b) == Extend(d, a + b)
    decreases |a|
  {
    if a == [] {
      assert a + b == b;
    } else {
      assert (a + b)[0] == a[0] && (a + b)[1..] == a[1..] + b;
      ExtendComposes(Append(d, a[0]), a[1..], b);
    }
  }

  /** What one pass of the aggregator's batch loop did. */
  datatype BatchOutcome =
    | Yielded(chunk: Bytes)   // `yield b''.join(data)`
    | Stopped                 // the sentinel was seen: the generator returns
    | JoinFailed              // a second sentinel reached `b''.join`: TypeError

  /** The audio a batch outcome hands to the session. */
  function Emitted(o: BatchOutcome): Bytes
  {
    if o.Yielded? then o.chunk else []
  }

  /**
   * The queue `buff` and the deque `overlap_buffer`, created once by `listen`
   * and shared by every aggregator instance it builds.
   */
  class AudioBuffers {
    var buff: seq<Elem>
    var overlap: seq<Bytes>

    ghost predicate Valid()
      reads this
    {
      |overlap| <= W
    }

    constructor ()
      ensures Valid()
      ensures buff == [] && overlap == []
    {
      buff := [];
      overlap := [];
    }

    /** `buff.put(e)`: enqueue at the tail. */
    method Put(e: Elem)
      requires Valid()
      modifies this
      ensures Valid()
      ensures buff == old(buff) + [e] && overlap == old(overlap)
    {
      buff := buff + [e];
    }

    /**
     * The start of an aggregator instance: a non-empty overlap deque is
     * replayed as one chunk and then cleared; an empty one yields nothing.
     */
    method Start() returns (replay: Option<Bytes>)
      requires Valid()
      modifies this
      ensures Valid()
      ensures old(overlap) == [] <==> replay == None
      ensures replay.Some? ==> replay.value == Join(old(overlap))
      ensures overlap == [] && buff == old(buff)
    {
      replay := None;
      if overlap != [] {
        replay := Some(Join(overlap));
        overlap := [];
      }
    }

    /**
     * One pass of the aggregator's `while True` loop. The blocking `get`
     * followed by the non-blocking drain takes the whole current queue,
     * which therefore must hold at least one element.
     */
    method NextBatch() returns (step: BatchOutcome)
      requires Valid() && buff != []
      modifies this
      ensures Valid()
      // no sentinel: yield the batch, remember it in the overlap deque
      ensures SentinelCount(old(buff)) == 0 ==>
                step == Yielded(Join(AudioOf(old(buff)))) && buff == []
                && overlap == LastN(old(overlap) + AudioOf(old(buff)), W)
      // one sentinel: stop, re-queue the other elements as one joined element
      ensures SentinelCount(old(buff)) == 1 ==>
                step == Stopped && overlap == old(overlap)
                && buff == (if |old(buff)| == 1 then [] else [Frame(Join(AudioOf(old(buff))))])
      // more than one: `b''.join` meets the second sentinel and raises
      ensures SentinelCount(old(buff)) > 1 ==>
                step == JoinFailed && buff == [] && overlap == old(overlap)
      // unless the join fails, no byte is lost or reordered
      ensures step != JoinFailed ==> Join(AudioOf(old(buff))) == Emitted(step) + Join(AudioOf(buff))
    {
      var data := [buff[0]];
      buff := buff[1..];
      while buff != []
        invariant data != [] && data + buff == old(buff)
        invariant overlap == old(overlap)
        decreases |buff|
      {
        data := data + [buff[0]];
        buff := buff[1..];
      }
      assert data == old(buff);
      SentinelCountPositive(data);
      if Sentinel in data {
        data := RemoveFirstSentinel(data);
        SentinelCountPositive(data);
        if data != [] {
          var joined := JoinElems(data);
          if joined == None {
            return JoinFailed;
          }
          buff := buff + [Frame(joined.value)];
          assert AudioOf(buff) == [joined.value] by {
            assert buff == [Frame(joined.value)];
            assert buff[1..] == [];
          }
          assert Join([joined.value]) == joined.value by {
            assert [joined.value][1..] == [];
          }
        }
        step := Stopped;
      } else {
        var joined := JoinElems(data);
        ExtendKeepsLatest(overlap, AudioOf(data));
        overlap := Extend(overlap, AudioOf(data));
        step := Yielded(joined.value);
      }
    }
  }
}

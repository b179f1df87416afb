/**
 * One reconnect of `listen`: the queue and the overlap deque outlive the
 * aggregator instance, so the next session opens with the audio the last
 * one forwarded, while the dialog flags carry over in the client.
 */
module Session {
  import opened Wrappers
  import opened Audio
  import opened WakeWord
  import opened Dialog

  lemma ThreeFrames(c1: Bytes, c2: Bytes, c3: Bytes)
    ensures var frames := [Frame(c1), Frame(c2), Frame(c3)];
            SentinelCount(frames) == 0 && AudioOf(frames) == [c1, c2, c3] && Join([c1, c2, c3]) == c1 + c2 + c3
  {
    var frames := [Frame(c1), Frame(c2), Frame(c3)];
    SentinelCountPositive(frames);
    AudioCons(Frame(c1), [Frame(c2), Frame(c3)]);
    AudioCons(Frame(c2), [Frame(c3)]);
    AudioCons(Frame(c3), []);
    assert frames == [Frame(c1)] + [Frame(c2), Frame(c3)];
    assert [Frame(c2), Frame(c3)] == [Frame(c2)] + [Frame(c3)];
    assert [Frame(c3)] == [Frame(c3)] + [];
    assert [c3][1..] == [];
    assert Join([c3]) == c3;
    assert [c2, c3][1..] == [c3];
    assert Join([c2, c3]) == c2 + c3;
    assert [c1, c2, c3][1..] == [c2, c3];
  }

  /** An end of utterance followed by a final "hey JARVIS" from the initial flags. */
  lemma EndThenWakeWord(endOfUtterance: StreamingRecognizeResponse, wake: StreamingRecognizeResponse)
    requires endOfUtterance == StreamingRecognizeResponse(RpcStatus(OK, ""), [], EndOfUtterance)
    requires wake == StreamingRecognizeResponse(
               RpcStatus(OK, ""),
               [StreamingRecognitionResult([SpeechRecognitionAlternative("hey JARVIS")], true)],
               EndpointerEventUnspecified)
    ensures Run(Initial, [endOfUtterance, wake]) == LoopState(Flags(false, true), 1, [], None)
  {
    AttentionMatchesUpperCase();
    var afterEnd := LoopState(Initial, 1, [], None);
    assert Run(Initial, [endOfUtterance]) == afterEnd by {
      assert Classify(endOfUtterance) == UtteranceEnd;
      RunSnoc(Initial, [], endOfUtterance);
      assert [] + [endOfUtterance] == [endOfUtterance];
    }
    assert Advance(afterEnd, wake) == LoopState(Flags(false, true), 1, [], None) by {
      assert Classify(wake) == Transcript("hey JARVIS", true);
      assert Respond(Initial, "hey JARVIS", true) == Reaction(Flags(false, true), None);
    }
    RunSnoc(Initial, [endOfUtterance], wake);
    assert [endOfUtterance] + [wake] == [endOfUtterance, wake];
  }

  /**
   * A fresh aggregator over an empty queue and deque, after three captured
   * frames: no replay, then one chunk made of the three frames, which the
   * deque keeps for the next session.
   */
  method ForwardThreeFrames(client: Client, buffers: AudioBuffers, c1: Bytes, c2: Bytes, c3: Bytes)
    returns (forwarded: BatchOutcome)
    requires buffers.Valid() && buffers.buff == [] && buffers.overlap == []
    modifies buffers
    ensures buffers.Valid() && buffers.buff == [] && buffers.overlap == [c1, c2, c3]
    ensures forwarded == Yielded(c1 + c2 + c3)
  {
    client.FillBuffer(buffers, c1);
    client.FillBuffer(buffers, c2);
    client.FillBuffer(buffers, c3);

    ThreeFrames(c1, c2, c3);

    var opening := buffers.Start();
    assert opening == None;
    ghost var batch := buffers.buff;
    assert batch == [Frame(c1), Frame(c2), Frame(c3)];
    assert SentinelCount(batch) == 0 && AudioOf(batch) == [c1, c2, c3];
    forwarded := buffers.NextBatch();
    assert buffers.overlap == LastN([] + [c1, c2, c3], W);
    assert [] + [c1, c2, c3] == [c1, c2, c3];
  }

  /**
   * The server ends the utterance and then sends a final "hey JARVIS": the
   * running aggregator sees the sentinel and stops, the next one opens by
   * replaying the deque, and the dialog awaits a command.
   */
  method EndAndReconnect(client: Client, buffers: AudioBuffers)
    returns (closing: BatchOutcome, replay: Option<Bytes>, heard: seq<string>, phase: Phase)
    requires client.State() == Initial
    requires buffers.Valid() && buffers.buff == [] && buffers.overlap != []
    modifies client, buffers
    ensures closing == Stopped
    ensures replay == Some(Join(old(buffers.overlap)))
    ensures heard == [] && phase == AwaitingCommand
  {
    var endOfUtterance := StreamingRecognizeResponse(RpcStatus(OK, ""), [], EndOfUtterance);
    var wake := StreamingRecognizeResponse(
      RpcStatus(OK, ""),
      [StreamingRecognitionResult([SpeechRecognitionAlternative("hey JARVIS")], true)],
      EndpointerEventUnspecified);
    EndThenWakeWord(endOfUtterance, wake);
    var raised;
    heard, raised := client.ListenPrintLoop([endOfUtterance, wake], buffers);
    assert Sentinels(1) == [Sentinel];
    assert buffers.buff == [] + Sentinels(1);
    assert buffers.buff == [Sentinel];
    assert SentinelCount([Sentinel]) == 1 by { assert [Sentinel][1..] == []; }

    closing := buffers.NextBatch();
    replay := buffers.Start();
    phase := PhaseOf(client.State());
  }

  /**
   * Three frames are captured and forwarded, the server signals the end of
   * the utterance and then sends a final "hey JARVIS"; the aggregator sees
   * the sentinel and stops, and the next aggregator replays the three frames.
   */
  method ReconnectScenario(c1: Bytes, c2: Bytes, c3: Bytes)
    returns (forwarded: BatchOutcome, closing: BatchOutcome, replay: Option<Bytes>, heard: seq<string>, phase: Phase)
    ensures forwarded == Yielded(c1 + c2 + c3)
    ensures closing == Stopped
    ensures replay == Some(c1 + c2 + c3)
    ensures heard == [] && phase == AwaitingCommand
  {
    var client := new Client();
    var buffers := new AudioBuffers();
    forwarded := ForwardThreeFrames(client, buffers, c1, c2, c3);
    ThreeFrames(c1, c2, c3);
    closing, replay, heard, phase := EndAndReconnect(client, buffers);
  }
}

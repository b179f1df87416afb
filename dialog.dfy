/**
 * The receiving side of a session (`listen_print_loop`): each server
 * response is classified, end-of-utterance responses put the close sentinel
 * into the audio queue, and transcripts drive the two dialog flags
 * `listening_for_prompt` and `listening_for_command`.
 */
module Dialog {
  import opened Wrappers
  import opened Audio
  import opened WakeWord

  /** code_pb2.OK */
  const OK: int := 0

  /** StreamingRecognizeResponse.EndpointerType */
  datatype EndpointerType =
    EndpointerEventUnspecified | StartOfSpeech | EndOfSpeech | EndOfAudio | EndOfUtterance

  datatype RpcStatus = RpcStatus(code: int, message: string)
  datatype SpeechRecognitionAlternative = SpeechRecognitionAlternative(transcript: string)
  datatype StreamingRecognitionResult =
    StreamingRecognitionResult(alternatives: seq<SpeechRecognitionAlternative>, isFinal: bool)
  datatype StreamingRecognizeResponse =
    StreamingRecognizeResponse(error: RpcStatus, results: seq<StreamingRecognitionResult>, endpointerType: EndpointerType)

  /** The exceptions the loop lets escape. */
  datatype Failure =
    | RuntimeError(message: string)   // raised for a non-OK status
    | IndexError                      // `result.alternatives[0]` on an empty list

  /** What one response means to the loop. */
  datatype Event =
    | Fatal(failure: Failure)
    | UtteranceEnd
    | Dropped
    | Transcript(text: string, isFinal: bool)

  function Classify(resp: StreamingRecognizeResponse): (e: Event)
    // the status is looked at before anything else
    ensures resp.error.code != OK ==> e == Fatal(RuntimeError("Server error: " + resp.error.message))
    // a response without results is the utterance boundary exactly when its endpointer says so
    ensures resp.error.code == OK && resp.results == [] ==>
              (e == UtteranceEnd || e == Dropped) && (e == UtteranceEnd <==> resp.endpointerType == EndOfUtterance)
    // otherwise only the first alternative of the first result is looked at
    ensures resp.error.code == OK && resp.results != [] ==>
              if resp.results[0].alternatives == [] then e == Fatal(IndexError)
              else e == Transcript(resp.results[0].alternatives[0].transcript, resp.results[0].isFinal)
  {
    if resp.error.code != OK then Fatal(RuntimeError("Server error: " + resp.error.message))
    else if resp.results == [] then
      if resp.endpointerType == EndOfUtterance then UtteranceEnd else Dropped
    else
      var result := resp.results[0];
      if result.alternatives == [] then Fatal(IndexError)
      else Transcript(result.alternatives[0].transcript, result.isFinal)
  }

  /** The pair (listening_for_prompt, listening_for_command). */
  datatype Flags = Flags(prompt: bool, command: bool)

  /** The flags `Client.__init__` sets. */
  const Initial: Flags := Flags(true, false)

  /** The dialog never listens for the wake word and for a command at once. */
  predicate Consistent(f: Flags)
  {
    !(f.prompt && f.command)
  }

  /** The flags after one transcript, and the command printed, if any. */
  datatype Reaction = Reaction(next: Flags, command: Option<string>)

  /** The three flag updates applied, in order, to one transcript. */
  function Respond(f: Flags, text: string, isFinal: bool): (r: Reaction)
    // a command is heard exactly for a final result while listening for one,
    // and the dialog then goes back to waiting for the wake word
    ensures r.command.Some? <==> isFinal && f.command
    ensures r.command.Some? ==> r.command.value == text && r.next == Initial
    // command capture is armed only by a final result once the prompt is no
    // longer awaited, which may be this very result's wake word
    ensures r.next.command && !f.command ==> isFinal && (!f.prompt || GettingBotsAttention(text))
    ensures isFinal && !f.command && (!f.prompt || GettingBotsAttention(text)) ==> r.next == Flags(false, true)
    // a partial result prints nothing and leaves command capture alone
    ensures !isFinal ==> r.command == None && r.next.command == f.command
                         && r.next.prompt == (f.prompt && !GettingBotsAttention(text))
    ensures Consistent(f) ==> Consistent(r.next)
    // while waiting for the wake word, a transcript without it changes nothing
    ensures f.prompt && !f.command && !GettingBotsAttention(text) ==> r == Reaction(f, None)
  {
    var prompt1 := if f.prompt && GettingBotsAttention(text) then false else f.prompt;
    var heard := f.command && isFinal;
    var prompt2 := if heard then true else prompt1;
    var command2 := if heard then false else f.command;
    var command3 := if !prompt2 && !command2 && isFinal then true else command2;
    Reaction(Flags(prompt2, command3), if heard then Some(text) else None)
  }

  /** What the loop has done after a prefix of the responses. */
  datatype LoopState = LoopState(flags: Flags, sentinels: nat, commands: seq<string>, error: Option<Failure>)

  function Heard(c: Option<string>): seq<string>
  {
    if c.Some? then [c.value] else []
  }

  /** The loop's handling of one more response. */
  function Advance(t: LoopState, resp: StreamingRecognizeResponse): (r: LoopState)
    // once raised, nothing further happens
    ensures t.error.Some? ==> r == t
    // a server error raises before any flag or queue change
    ensures t.error == None && resp.error.code != OK ==>
              r == t.(error := Some(RuntimeError("Server error: " + resp.error.message)))
    // no results: no flag change, one sentinel exactly at the end of an utterance
    ensures t.error == None && resp.error.code == OK && resp.results == [] ==>
              r == t.(sentinels := t.sentinels + if resp.endpointerType == EndOfUtterance then 1 else 0)
    ensures r.sentinels >= t.sentinels && t.commands <= r.commands
  {
    if t.error.Some? then t
    else match Classify(resp)
      case Fatal(e) => t.(error := Some(e))
      case UtteranceEnd => t.(sentinels := t.sentinels + 1)
      case Dropped => t
      case Transcript(text, isFinal) =>
        var r := Respond(t.flags, text, isFinal);
        t.(flags := r.next, commands := t.commands + Heard(r.command))
  }

  /** The loop over a whole response sequence, starting from flags `f`. A loop
      that has not raised saw only OK statuses, and each response adds at most
      one sentinel or one printed command. */
  function Run(f: Flags, rs: seq<StreamingRecognizeResponse>): (r: LoopState)
    ensures Consistent(f) ==> Consistent(r.flags)
    decreases |rs|
  {
    if rs == [] then LoopState(f, 0, [], None)
    else Advance(Run(f, rs[..|rs| - 1]), rs[|rs| - 1])
  }

  lemma RunSnoc(f: Flags, rs: seq<StreamingRecognizeResponse>, resp: StreamingRecognizeResponse)
    ensures Run(f, rs + [resp]) == Advance(Run(f, rs), resp)
  {
    assert (rs + [resp])[..|rs|] == rs;
  }

  /** The loop after `i + 1` responses is one more step after `i`. */
  lemma RunPrefixStep(f: Flags, rs: seq<StreamingRecognizeResponse>, i: nat)
    requires i < |rs|
    ensures Run(f, rs[..i + 1]) == Advance(Run(f, rs[..i]), rs[i])
  {
    assert rs[..i + 1] == rs[..i] + [rs[i]];
    RunSnoc(f, rs[..i], rs[i]);
  }

  /** A response that raises decides the outcome of the whole loop. */
  lemma RunRaisesAt(f: Flags, rs: seq<StreamingRecognizeResponse>, i: nat)
    requires i < |rs| && Run(f, rs[..i]).error == None && Classify(rs[i]).Fatal?
    ensures Run(f, rs) == Run(f, rs[..i]).(error := Some(Classify(rs[i]).failure))
  {
    var t := Run(f, rs[..i]);
    RunPrefixStep(f, rs, i);
    assert Run(f, rs[..i + 1]) == t.(error := Some(Classify(rs[i]).failure));
    RunStopsAtError(f, rs[..i + 1], rs[i + 1..]);
    assert rs[..i + 1] + rs[i + 1..] == rs;
  }

  /** After a raise no further response has any effect. */
  lemma {:induction false} RunStopsAtError(f: Flags, rs: seq<StreamingRecognizeResponse>, more: seq<StreamingRecognizeResponse>)
    requires Run(f, rs).error.Some?
    ensures Run(f, rs + more) == Run(f, rs)
    decreases |more|
  {
    if more == [] {
      assert rs + more == rs;
    } else {
      var init := more[..|more| - 1];
      RunStopsAtError(f, rs, init);
      assert rs + more == (rs + init) + [more[|more| - 1]];
      RunSnoc(f, rs + init, more[|more| - 1]);
    }
  }

  /** A server error ends the loop: whatever follows it, the outcome is the
      state before it with the RuntimeError carrying the server's message. */
  lemma ServerErrorEndsLoop(f: Flags, rs: seq<StreamingRecognizeResponse>, resp: StreamingRecognizeResponse,
                            more: seq<StreamingRecognizeResponse>)
    requires Run(f, rs).error == None && resp.error.code != OK
    ensures Run(f, rs + [resp] + more) == Run(f, rs).(error := Some(RuntimeError("Server error: " + resp.error.message)))
  {
    RunSnoc(f, rs, resp);
    RunStopsAtError(f, rs + [resp], more);
  }

  /** Starting from consistent flags, no response sequence makes both flags true. */
  lemma NeverBoth(rs: seq<StreamingRecognizeResponse>)
    ensures !(Run(Initial, rs).flags.prompt && Run(Initial, rs).flags.command)
  {
  }

  /** The three dialog phases the two flags encode. */
  datatype Phase = AwaitingWakeWord | Armed | AwaitingCommand

  function PhaseOf(f: Flags): Phase
    requires Consistent(f)
  {
    if f.prompt then AwaitingWakeWord else if f.command then AwaitingCommand else Armed
  }

  /** The dialog as a three-state machine: the wake word arms it, a final
      result while armed starts command capture (in the same step when that
      result also carried the wake word), and a final result while capturing
      is the command. */
  function PhaseStep(p: Phase, text: string, isFinal: bool): (Phase, Option<string>)
  {
    match p
    case AwaitingWakeWord =>
      if !GettingBotsAttention(text) then (AwaitingWakeWord, None)
      else if isFinal then (AwaitingCommand, None)
      else (Armed, None)
    case Armed =>
      if isFinal then (AwaitingCommand, None) else (Armed, None)
    case AwaitingCommand =>
      if isFinal then (AwaitingWakeWord, Some(text)) else (AwaitingCommand, None)
  }

  datatype PhaseState = PhaseState(phase: Phase, sentinels: nat, commands: seq<string>, error: Option<Failure>)

  /** The response loop driven by the three-state machine. */
  function PhaseRun(p: Phase, rs: seq<StreamingRecognizeResponse>): PhaseState
    decreases |rs|
  {
    if rs == [] then PhaseState(p, 0, [], None)
    else
      var t := PhaseRun(p, rs[..|rs| - 1]);
      if t.error.Some? then t
      else match Classify(rs[|rs| - 1])
        case Fatal(e) => t.(error := Some(e))
        case UtteranceEnd => t.(sentinels := t.sentinels + 1)
        case Dropped => t
        case Transcript(text, isFinal) =>
          var (q, c) := PhaseStep(t.phase, text, isFinal);
          t.(phase := q, commands := t.commands + Heard(c))
  }

  /** The two flags behave exactly as the three-state machine: same phase,
      same sentinels, same commands, same error, after any response sequence. */
  lemma {:induction false} RunRefinesPhaseRun(f: Flags, rs: seq<StreamingRecognizeResponse>)
    requires Consistent(f)
    ensures var t := Run(f, rs);
            Consistent(t.flags) &&
            PhaseRun(PhaseOf(f), rs) == PhaseState(PhaseOf(t.flags), t.sentinels, t.commands, t.error)
    decreases |rs|
  {
    if rs != [] {
      RunRefinesPhaseRun(f, rs[..|rs| - 1]);
    }
  }

  /** `n` close sentinels. */
  function Sentinels(n: nat): seq<Elem>
  {
    seq(n, _ => Sentinel)
  }

  /** The client object: the dialog flags it keeps between sessions. */
  class Client {
    var listeningForPrompt: bool
    var listeningForCommand: bool

    function State(): Flags
      reads this
    {
      Flags(listeningForPrompt, listeningForCommand)
    }

    constructor ()
      ensures State() == Initial
    {
      listeningForPrompt := true;
      listeningForCommand := false;
    }

    /** `_fill_buffer`: the capture callback enqueues one frame. */
    method FillBuffer(buff: AudioBuffers, inData: Bytes)
      requires buff.Valid()
      modifies buff
      ensures buff.Valid()
      ensures buff.buff == old(buff.buff) + [Frame(inData)] && buff.overlap == old(buff.overlap)
    {
      buff.Put(Frame(inData));
    }

    /** The three flag updates `listen_print_loop` applies to one transcript;
        `command` is the transcript printed as a command, if any. */
    method React(transcript: string, isFinal: bool) returns (command: Option<string>)
      modifies this
      ensures var r := Respond(old(State()), transcript, isFinal);
              State() == r.next && command == r.command
    {
      command := None;
      if listeningForPrompt && GettingBotsAttention(transcript) {
        listeningForPrompt := false;
      }
      if listeningForCommand && isFinal {
        listeningForCommand := false;
        listeningForPrompt := true;
        command := Some(transcript);
      }
      if !listeningForPrompt && !listeningForCommand && isFinal {
        listeningForCommand := true;
      }
    }

    /**
     * `listen_print_loop`: handle the responses in order. `heard` holds the
     * commands printed; `raised` the exception that ended the loop, if any.
     */
    method ListenPrintLoop(responses: seq<StreamingRecognizeResponse>, buff: AudioBuffers)
      returns (heard: seq<string>, raised: Option<Failure>)
      requires buff.Valid()
      modifies this, buff
      ensures buff.Valid()
      ensures var t := Run(old(State()), responses);
              State() == t.flags && heard == t.commands && raised == t.error
              && buff.buff == old(buff.buff) + Sentinels(t.sentinels) && buff.overlap == old(buff.overlap)
    {
      heard, raised := [], None;
      ghost var f0 := State();
      ghost var q0 := buff.buff;
      for i := 0 to |responses|
        invariant buff.Valid() && buff.overlap == old(buff.overlap)
        invariant var t := Run(f0, responses[..i]);
                  t.error == None && State() == t.flags && heard == t.commands
                  && buff.buff == q0 + Sentinels(t.sentinels)
      {
        var resp := responses[i];
        ghost var before := Run(f0, responses[..i]);
        RunPrefixStep(f0, responses, i);
        if resp.error.code != OK {
          raised := Some(RuntimeError("Server error: " + resp.error.message));
          RunRaisesAt(f0, responses, i);
          return;
        }
        if resp.results == [] {
          if resp.endpointerType == EndOfUtterance {
            buff.Put(Sentinel);
            assert Sentinels(before.sentinels + 1) == Sentinels(before.sentinels) + [Sentinel];
          }
          continue;
        }
        var result := resp.results[0];
        if result.alternatives == [] {
          raised := Some(IndexError);
          RunRaisesAt(f0, responses, i);
          return;
        }
        var transcript := result.alternatives[0].transcript;
        assert Classify(resp) == Transcript(transcript, result.isFinal);
        var command := React(transcript, result.isFinal);
        heard := heard + Heard(command);
      }
      assert responses[..|responses|] == responses;
    }
  }
}

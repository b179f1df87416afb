# Speech-recognition client: audio aggregation, request stream and dialog flags

This project models the sequential core of `client.py`, a voice-assistant front end. The client streams microphone audio to a streaming speech-recognition service. The service closes a session at the end of every utterance, so the client opens a new session each time. The model proves what the client guarantees across those sessions. It covers three parts of the file.

- **The audio aggregator** (`_audio_data_generator`). The capture callback (`_fill_buffer`) puts 100 ms frames into a FIFO queue `buff`. The queue can also hold a `None` close sentinel. Each recognition session runs one aggregator instance over this queue and over a deque `overlap_buffer` whose `maxlen` is `SECS_OVERLAP * RATE / CHUNK` = 10 elements.
  - **Start.** A fresh instance first replays the deque's contents as one chunk, then clears the deque.
  - **Each pass.** It drains the whole queue in one batch.
  - **Batch without a sentinel.** It extends the deque (evicting the oldest elements beyond 10) and yields the joined batch.
  - **Batch with a sentinel.** It removes the first sentinel and puts the join of the other elements back into the queue as one element. Then it stops.
  - **Persistence.** The queue and the deque are one object (`Audio.AudioBuffers`) that outlives every aggregator instance, as in `listen`.
- **The request stream** (`request_stream`). Each session sends one configuration message first: LINEAR16, the given rate, `en-US`, the given `interim_results`, and `single_utterance` set. Then it sends one audio message per chunk, unchanged and in order. The messages are plain datatypes.
- **The response loop** (`listen_print_loop`, `getting_bots_attention`).
  - **Errors.** A non-OK status raises `RuntimeError('Server error: ' + message)`.
  - **No results.** A response without results enqueues the sentinel, but only for END_OF_UTTERANCE.
  - **Transcripts.** The first transcript of a response goes through three flag updates, applied in order to `listening_for_prompt` and `listening_for_command`.
  - **Wake word.** The wake-word test asks whether the lower-cased bot name is one of the tokens that `split()` returns for the lower-cased text.
  - **Phases.** The two flags are shown to behave exactly like a three-state machine (AwaitingWakeWord, Armed, AwaitingCommand), and never to be true together.

Behaviour of the code that the model keeps as written:

- The re-queue at `client.py:118` is `Queue.put`, which appends at the tail. The model's batch is the whole queue, so the queue is empty at that moment, and tail and head coincide.
- Two sentinels can land in one batch, for example after two END_OF_UTTERANCE responses arrive before the aggregator runs. `data.remove(None)` removes only the first one, and `b''.join` then fails on the second. `Audio.AudioBuffers.NextBatch` models this as the outcome `JoinFailed`. In that outcome the queue has already been drained, so the batch's audio is gone.
- A final result that contains the wake word, received while the client waits for the wake word, arms command capture in that same response. This follows from the three sequential flag updates. `Dialog.Respond` and `Dialog.PhaseStep` both state it.

## Model

| member | source | states |
|---|---|---|
| `Audio.JoinLength` | client.py:123 | `b''.join` loses and adds no byte: the result is as long as all chunks together |
| `Audio.JoinAppend` | client.py:123 | joining two lists one after the other is joining their concatenation, so chunks stay in order |
| `Audio.JoinElems` | client.py:118 | `b''.join` over queue elements fails exactly when a sentinel is present; otherwise it is the in-order concatenation of the frames |
| `Audio.RemoveFirstSentinel` | client.py:116 | removing one `None` shortens the batch by one and removes exactly one sentinel. The audio elements stay the same and keep their order |
| `Audio.RemoveFirstSentinelAt` | client.py:116 | the sentinel removed is the first one; the elements before and after it are kept in place |
| `Audio.Append` | client.py:121 | one element added to the bounded deque never takes it past 10 elements |
| `Audio.AppendKeepsLatest` | client.py:121 | after one element is added, the deque holds exactly the last 10 elements of old contents followed by the new element |
| `Audio.Extend` | client.py:121 | the deque never holds more than 10 elements |
| `Audio.ExtendKeepsLatest` | client.py:121 | extending the bounded deque leaves exactly the last 10 elements of old contents followed by the batch |
| `Audio.ExtendComposes` | client.py:121 | two batches in a row leave the deque as one batch made of both would |
| `Audio.AudioBuffers.constructor` | client.py:44-46 | the shared queue and overlap deque start empty. The queue is the `queue.Queue()` that `record_audio` creates at client.py:137; the deque is created at line 46 |
| `Audio.AudioBuffers.Put` | client.py:118 | `Queue.put` appends one element at the tail and leaves the deque alone |
| `Audio.AudioBuffers.Start` | client.py:98-100 | a non-empty deque is replayed as the concatenation of its elements in order and is empty afterwards; an empty deque yields no replay; the queue is untouched |
| `Audio.AudioBuffers.NextBatch` | client.py:102-123 | without a sentinel: yields the in-order join of the drained queue, leaves the queue empty, keeps the last 10 elements of deque ++ batch. With one sentinel: yields nothing, keeps the deque, and re-queues the join of the other elements as one element (nothing when the batch was only the sentinel). With more: the join fails after the queue was drained. Except on that failure, every byte is either yielded or left in the queue, in order |
| `WakeWord.Split` | client.py:232 | every token of `split()` is non-empty and free of whitespace |
| `WakeWord.SplitFindsWholeWords` | client.py:232 | a string is a token of `split()` exactly when it occurs as a whole word: bounded by whitespace or by the ends of the text |
| `WakeWord.LowerFoldsCase` | client.py:232 | `lower()` keeps the length, leaves no upper-case letter, keeps every other character and so keeps every whitespace position |
| `WakeWord.GettingBotsAttention` | client.py:231-232 | the bot's attention is caught exactly when "jarvis" is a whole word of the lower-cased transcript |
| `WakeWord.AttentionMatchesUpperCase` | client.py:231-232 | "hey JARVIS" catches the bot's attention |
| `WakeWord.AttentionIgnoresLongerWord` | client.py:231-232 | "Jarviston" does not |
| `WakeWord.AttentionIgnoresSuffix` | client.py:231-232 | "heyjarvis" does not |
| `Requests.Handshake` | client.py:173-186 | the configuration asks for LINEAR16 samples at the given rate in `en-US`, with the given interim-results choice and a single utterance per session |
| `Requests.AudioRequests` | client.py:191-193 | one audio message per chunk, the i-th carrying the i-th chunk unchanged |
| `Requests.RequestStream` | client.py:161-193 | 1 + n messages for n chunks. The first is the streaming config (LINEAR16, given rate, `en-US`, given interim flag, single utterance). Message i + 1 carries chunk i |
| `Requests.RequestStreamRoundTrip` | client.py:173-193 | reading a session back yields its handshake and exactly the chunks, in order |
| `Dialog.Classify` | client.py:206-217 | a non-OK status is a `RuntimeError` with "Server error: " + message, decided before anything else. A response without results is the end of an utterance exactly when its endpointer is END_OF_UTTERANCE, and otherwise dropped. Otherwise the first alternative of the first result is used, and an empty alternatives list is an `IndexError` |
| `Dialog.Respond` | client.py:219-228 | a command is printed exactly for a final result while listening for a command, and the flags then return to (prompt, no command). Command capture is switched on only by a final result once the prompt is no longer awaited, which the same result's wake word can bring about. Partial results print nothing and leave command capture alone. While the wake word is awaited, a transcript without it changes nothing. From flags that are not both true, the flags are not both true afterwards |
| `Dialog.Advance` | client.py:205-214 | after a raise nothing changes; a server error raises before any flag or queue change; a response without results changes no flag and adds one sentinel exactly at END_OF_UTTERANCE; sentinels and printed commands only accumulate |
| `Dialog.RunStopsAtError` | client.py:206-207 | once the loop has raised, further responses have no effect |
| `Dialog.ServerErrorEndsLoop` | client.py:206-207 | a server error ends the loop with its message, keeping the flags, sentinels and commands from before it, whatever follows |
| `Dialog.Run` | client.py:205-228 | from flags that are not both true, no response sequence makes both true; `Dialog.RunRefinesPhaseRun` relates the rest of its outcome to the three-state machine |
| `Dialog.NeverBoth` | client.py:35-36 | from the initial flags, the dialog never listens for the wake word and for a command at once |
| `Dialog.RunRefinesPhaseRun` | client.py:219-228 | after any response sequence, the two flags encode the same phase, sentinels, commands and error as the three-state machine |
| `Dialog.Client.constructor` | client.py:33-36 | a new client listens for the wake word and not for a command |
| `Dialog.Client.FillBuffer` | client.py:126-129 | the capture callback appends one frame to the queue |
| `Dialog.Client.React` | client.py:219-228 | the three in-place flag updates produce the flags and the printed command of `Dialog.Respond` |
| `Dialog.Client.ListenPrintLoop` | client.py:196-228 | the new flags, the printed commands, the raised exception and the sentinels appended to the queue are those of `Dialog.Run` over the responses; the deque is untouched |
| `Session.EndThenWakeWord` | client.py:209-228 | end of utterance, then a final "hey JARVIS", from the initial flags: one sentinel, no command, command capture armed |
| `Session.ForwardThreeFrames` | client.py:98-123 | a fresh aggregator over three captured frames replays nothing, forwards them as one chunk and leaves them in the deque |
| `Session.EndAndReconnect` | client.py:56-69 | after an end of utterance and a final wake word, the running aggregator stops and the next one opens by replaying the deque; the dialog awaits a command |
| `Session.ReconnectScenario` | client.py:56-69 | three frames forwarded in one chunk, then end of utterance and a final wake word: the aggregator stops on the sentinel, the next instance opens by replaying the three frames, and the dialog awaits a command |

## Left out

- `make_channel`, `SpeechStub` and `StreamingRecognize` are left out. They are authentication and gRPC transport calls whose behaviour cannot be seen from this file.
- The reconnect loop in `listen` is left out, together with `.cancel()`, the swallowed `grpc.RpcError` and the SIGINT handler. These are signal and asynchronous-cancellation plumbing. What carries over is that one `AudioBuffers` object is shared by every aggregator instance. `Session.ReconnectScenario` shows one reconnect.
- `record_audio` and the pyaudio device lifecycle are left out, because they are device I/O. Its final `buff.put(None)` is `AudioBuffers.Put(Sentinel)`.
- The capture thread runs concurrently with the aggregator in the source. Here the queue is used sequentially, and the blocking `get` plus the non-blocking drain become "take the whole queue". That queue must be non-empty: the model's stand-in for blocking.
  - Frames the capture thread enqueues between the drain and the re-put at `client.py:118` are not modelled. In the source such frames would come before the re-queued audio.
- The aggregator's generator suspension is not modelled. A generator instance is a `Start` call followed by `NextBatch` calls made by its consumer.
- Output of `print` is left out. The model only records each printed command's transcript.
- `_fill_buffer`'s return value `(None, paContinue)` is left out; it is pyaudio's callback protocol.
- `playsound`, `ATTENTION_SOUND_PATH`, `DEADLINE_SECS`, `FORMAT` and `CHANNELS` are left out. They are unused, a transport timeout or device settings.
- `WakeWord.Lower` and `WakeWord.Split`: `lower()` and `split()` are modelled for ASCII only. Upper-case letters are A–Z, and whitespace is space, tab, LF, CR, VT and FF, as for a Python 2 `str`. Transcripts that arrive as `unicode` would use the wider Unicode tables.
- `resp.endpointer_type is resp.END_OF_UTTERANCE` compares small integers by identity; the model compares enum values by equality.

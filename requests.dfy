/**
 * `request_stream`: the outbound half of one recognition session, a
 * configuration handshake followed by one audio message per chunk.
 * The protocol-buffer messages are modelled as plain datatypes.
 */
module Requests {
  import opened Wrappers
  import opened Audio

  /** RecognitionConfig.AudioEncoding */
  datatype AudioEncoding = EncodingUnspecified | Linear16 | Flac | Mulaw | Amr | AmrWb

  datatype RecognitionConfig = RecognitionConfig(encoding: AudioEncoding, sampleRate: int, languageCode: string)

  datatype StreamingRecognitionConfig =
    StreamingRecognitionConfig(config: RecognitionConfig, interimResults: bool, singleUtterance: bool)

  /** A StreamingRecognizeRequest carries either the streaming configuration or audio content. */
  datatype StreamingRecognizeRequest =
    | ConfigRequest(streamingConfig: StreamingRecognitionConfig)
    | AudioRequest(audioContent: Bytes)

  /** The handshake every session opens with: raw 16-bit samples at the given
      rate, US English, the given interim-results choice, one utterance per session. */
  function Handshake(rate: int, interimResults: bool): (c: StreamingRecognitionConfig)
    ensures c.config.encoding == Linear16 && c.config.sampleRate == rate && c.config.languageCode == "en-US"
    ensures c.interimResults == interimResults && c.singleUtterance
  {
    StreamingRecognitionConfig(RecognitionConfig(Linear16, rate, "en-US"), interimResults, true)
  }

  /** `for data in data_stream: yield StreamingRecognizeRequest(audio_content=data)` */
  function AudioRequests(chunks: seq<Bytes>): (rs: seq<StreamingRecognizeRequest>)
    ensures |rs| == |chunks|
    ensures forall i :: 0 <= i < |chunks| ==> rs[i].AudioRequest? && rs[i].audioContent == chunks[i]
  {
    if chunks == [] then [] else [AudioRequest(chunks[0])] + AudioRequests(chunks[1..])
  }

  /** `request_stream(data_stream, rate, interim_results)` */
  function RequestStream(chunks: seq<Bytes>, rate: int, interimResults: bool): (rs: seq<StreamingRecognizeRequest>)
    ensures |rs| == 1 + |chunks|
    ensures rs[0].ConfigRequest?
    ensures var c := rs[0].streamingConfig;
            c.config.encoding == Linear16 && c.config.sampleRate == rate && c.config.languageCode == "en-US"
            && c.interimResults == interimResults && c.singleUtterance
    ensures forall i :: 0 <= i < |chunks| ==> rs[i + 1] == AudioRequest(chunks[i])
  {
    [ConfigRequest(Handshake(rate, interimResults))] + AudioRequests(chunks)
  }

  /** How the receiving side reads a session: a configuration first, then only audio. */
  function ReadSession(rs: seq<StreamingRecognizeRequest>): Option<(StreamingRecognitionConfig, seq<Bytes>)>
  {
    if rs == [] || !rs[0].ConfigRequest? then None
    else match ReadAudio(rs[1..])
      case None => None
      case Some(chunks) => Some((rs[0].streamingConfig, chunks))
  }

  function ReadAudio(rs: seq<StreamingRecognizeRequest>): Option<seq<Bytes>>
  {
    if rs == [] then Some([])
    else if !rs[0].AudioRequest? then None
    else match ReadAudio(rs[1..])
      case None => None
      case Some(rest) => Some([rs[0].audioContent] + rest)
  }

  lemma {:induction false} ReadAudioRequests(chunks: seq<Bytes>)
    ensures ReadAudio(AudioRequests(chunks)) == Some(chunks)
  {
    if chunks != [] {
      ReadAudioRequests(chunks[1..]);
      assert AudioRequests(chunks)[1..] == AudioRequests(chunks[1..]);
      assert [chunks[0]] + chunks[1..] == chunks;
    }
  }

  /** The session carries exactly the handshake and, in order and unchanged, every chunk. */
  lemma RequestStreamRoundTrip(chunks: seq<Bytes>, rate: int, interimResults: bool)
    ensures ReadSession(RequestStream(chunks, rate, interimResults)) == Some((Handshake(rate, interimResults), chunks))
  {
    var rs := RequestStream(chunks, rate, interimResults);
    assert rs[1..] == AudioRequests(chunks);
    ReadAudioRequests(chunks);
  }
}

/**
 * The live voice session (src/hooks/useVoiceSession.js) as a state machine.
 *
 * Machine is the session's state as a value and the *Step functions are
 * its transitions, one per callback: startSession, onopen, onaudioprocess,
 * onmessage, a buffer source's 'ended' event, onerror, onclose and
 * stopSession. Session is the hook itself, a class whose fields are the
 * hook's refs and state and whose methods run each callback to completion
 * (the `await decodeAudioData` inside onmessage is not an interleaving
 * point here). The audio clock's currentTime is the parameter `now`.
 */
module Voice {
  import opened Wrappers
  import opened Text
  import Base64
  import Audio
  import Bytes
  import opened Tools
  import opened Jobs
  import Chat

  /** AssistantState. */
  datatype Phase = Idle | Connecting | Listening | Thinking | Speaking | Error

  /** AUDIO_CONFIG.OUTPUT_SAMPLE_RATE, the rate of the played chunks. */
  const OutputSampleRate: real := 24000.0

  const ConnectionError := "Connection interrupted. Please refresh or check your API key."
  const StartError := "Microphone access denied or session failed to start."

  /**
   * The parts of a server message the handler reads: the tool call's
   * function calls (none when the message has no tool call), the output and
   * input transcription texts when present, turnComplete, the base 64 audio
   * of the first model-turn part ("" when absent) and interrupted.
   */
  datatype ServerMessage = ServerMessage(
    functionCalls: seq<FunctionCall>,
    outputTranscription: Option<string>,
    inputTranscription: Option<string>,
    turnComplete: bool,
    audio: string,
    interrupted: bool)

  /** A sendToolResponse payload. */
  datatype ToolResponse = ToolResponse(id: string, name: string, result: string)

  /** An onMessage(userText, assistantText) call. */
  datatype Turn = Turn(userText: string, assistantText: string)

  /** A buffer source started at `start` on the audio clock, playing for `duration` seconds. */
  datatype Chunk = Chunk(source: nat, start: real, duration: real)

  /**
   * How startSession's asynchronous part ends: the session promise resolves,
   * or something throws (err.message, "" when it has none), after or before
   * the microphone stream was obtained.
   */
  datatype StartOutcome = Connected | Failed(message: string, micAcquired: bool)


  /**
   * The output side: the playing sources (sourcesRef, each source named by
   * the number it was issued with), the next number to issue, the playback
   * cursor (nextStartTimeRef) and every chunk scheduled so far.
   */
  datatype Playback = Playback(sources: set<nat>, nextSourceId: nat, nextStartTime: real, chunks: seq<Chunk>)

  /** The two transcription buffers of the turn in progress. */
  datatype Transcript = Transcript(input: string, output: string)

  /** Which of the session, script-processor and microphone-stream handles are held. */
  datatype Handles = Handles(session: bool, processor: bool, stream: bool)

  /** The effects so far: onMessage turns, onError messages, tool responses sent and audio blobs sent. */
  datatype Log = Log(turns: seq<Turn>, errors: seq<string>, responses: seq<ToolResponse>, sent: seq<Audio.Blob>)

  /** The session state; startedFrom is the phase startSession saw when it ran, which its onclose captures. */
  datatype Machine = Machine(
    phase: Phase,
    startedFrom: Phase,
    playback: Playback,
    transcript: Transcript,
    handles: Handles,
    log: Log)

  const Initial := Machine(Idle, Idle, Playback({}, 0, 0.0, []), Transcript("", ""),
                           Handles(false, false, false), Log([], [], [], []))

  /** THINKING is never entered, the cursor is never negative, and every playing source has been issued. */
  predicate Invariant(m: Machine)
  {
    && m.phase != Thinking
    && m.playback.nextStartTime >= 0.0
    && (forall s :: s in m.playback.sources ==> s < m.playback.nextSourceId)
  }

  function Max(a: real, b: real): real
  {
    if a >= b then a else b
  }

  // ------------------------------------------------------------ transitions

  /** startSession: ignored unless IDLE or ERROR; otherwise CONNECTING with the cursor at 0. */
  function StartStep(m: Machine, outcome: StartOutcome): Machine
  {
    if m.phase != Idle && m.phase != Error then m
    else
      var connecting := m.(phase := Connecting, startedFrom := m.phase,
                           playback := m.playback.(nextStartTime := 0.0));
      match outcome
      case Connected => connecting.(handles := m.handles.(stream := true, session := true))
      case Failed(message, micAcquired) =>
        connecting.(phase := Error,
                    log := m.log.(errors := m.log.errors + [if message == "" then StartError else message]),
                    handles := m.handles.(stream := m.handles.stream || micAcquired))
  }

  /** onopen: LISTENING, and the script processor starts capturing. */
  function OpenStep(m: Machine): Machine
  {
    m.(phase := Listening, handles := m.handles.(processor := true))
  }

  /** The blob createAudioBlob makes of one captured buffer. */
  function CapturedBlob(samples: seq<real>): Audio.Blob
  {
    Audio.Blob(Base64.Encode(Audio.PcmBytes(Audio.Quantized(samples))), Audio.MimeType)
  }

  /** onaudioprocess: while the processor is attached, each captured buffer is sent as a blob. */
  function AudioProcessStep(m: Machine, samples: seq<real>): Machine
  {
    if m.handles.processor then m.(log := m.log.(sent := m.log.sent + [CapturedBlob(samples)])) else m
  }

  /** The responses sent for the calls of a tool-call message: one per non-empty result, in order. */
  function ToolResponses(calls: seq<FunctionCall>, results: seq<string>): seq<ToolResponse>
    requires |results| == |calls|
    decreases |calls|
  {
    if calls == [] then []
    else
      var n := |calls| - 1;
      ToolResponses(calls[..n], results[..n])
      + (if results[n] != "" then [ToolResponse(calls[n].id, calls[n].name, results[n])] else [])
  }

  /** Output transcription text is appended to the output buffer, else input text to the input buffer. */
  function TranscriptStep(t: Transcript, msg: ServerMessage): Transcript
  {
    if msg.outputTranscription.Some? then t.(output := t.output + msg.outputTranscription.value)
    else if msg.inputTranscription.Some? then t.(input := t.input + msg.inputTranscription.value)
    else t
  }

  /** The turn a completed transcript reports: both buffers trimmed, None when both are empty. */
  function CompletedTurn(t: Transcript): Option<Turn>
  {
    var userText := Trim(t.input);
    var assistantText := Trim(t.output);
    if userText != "" || assistantText != "" then Some(Turn(userText, assistantText)) else None
  }

  /** turnComplete: the completed turn reported, if any, and both buffers cleared. */
  function TurnStep(m: Machine): Machine
  {
    var turn := CompletedTurn(m.transcript);
    m.(log := m.log.(turns := m.log.turns + (if turn.Some? then [turn.value] else [])),
       transcript := Transcript("", ""))
  }

  /**
   * The length in seconds of a chunk of base 64 audio, or None where decoding
   * it throws: atob fails, the byte count is odd, or there is no whole
   * sample, so that createBuffer is asked for no frames.
   */
  function ChunkDuration(audio: string): (d: Option<real>)
    ensures d.Some? ==> d.value > 0.0
  {
    match Base64.Atob(audio)
    case None => None
    case Some(binary) =>
      if |binary| % 2 == 1 || |binary| < 2 then None else Some((|binary| / 2) as real / OutputSampleRate)
  }

  /** A mono buffer of n bytes has a whole frame exactly when n holds at least one sample. */
  lemma DecodedFrames(n: nat)
    ensures (n / 2) / 1 == n / 2
    ensures (n / 2 == 0) <==> n < 2
  {
  }

  /** A chunk of the given duration started at max(cursor, now), the cursor moved past its end. */
  function Schedule(p: Playback, duration: real, now: real): Playback
  {
    var start := Max(p.nextStartTime, now);
    Playback(p.sources + {p.nextSourceId}, p.nextSourceId + 1, start + duration,
             p.chunks + [Chunk(p.nextSourceId, start, duration)])
  }

  /** stopAllAudio: every source stopped and forgotten, the cursor back at 0. */
  function Silenced(p: Playback): Playback
  {
    p.(sources := {}, nextStartTime := 0.0)
  }

  /**
   * onmessage: tool calls, transcription, turn completion, audio, then
   * interruption. When the audio does not decode the handler's promise
   * rejects after SPEAKING and the cursor update, and the rest is skipped.
   */
  function MessageStep(m: Machine, msg: ServerMessage, results: seq<string>, now: real): Machine
    requires |results| == |msg.functionCalls|
  {
    var m1 := m.(log := m.log.(responses := m.log.responses + ToolResponses(msg.functionCalls, results)),
                 transcript := TranscriptStep(m.transcript, msg));
    var m2 := if msg.turnComplete then TurnStep(m1) else m1;
    var m3 :=
      if msg.audio == "" then Some(m2)
      else match ChunkDuration(msg.audio)
        case None => None
        case Some(duration) => Some(m2.(phase := Speaking, playback := Schedule(m2.playback, duration, now)));
    if m3.None? then
      m2.(phase := Speaking, playback := m2.playback.(nextStartTime := Max(m2.playback.nextStartTime, now)))
    else if msg.interrupted then m3.value.(phase := Listening, playback := Silenced(m3.value.playback))
    else m3.value
  }

  /** A source's 'ended' event, for a source still playing: removed, LISTENING once none is left. */
  function EndedStep(m: Machine, source: nat): Machine
  {
    if source !in m.playback.sources then m
    else
      var rest := m.playback.sources - {source};
      m.(playback := m.playback.(sources := rest), phase := if rest == {} then Listening else m.phase)
  }

  /** onerror: the connection message is reported and the phase is ERROR. */
  function ErrorStep(m: Machine): Machine
  {
    m.(log := m.log.(errors := m.log.errors + [ConnectionError]), phase := Error)
  }

  /** onclose: IDLE unless the session is in ERROR. */
  function CloseStep(m: Machine): Machine
  {
    if m.phase != Error then m.(phase := Idle) else m
  }

  /** stopSession: every handle released, all audio stopped, IDLE. */
  function StopStep(m: Machine): Machine
  {
    m.(handles := Handles(false, false, false), playback := Silenced(m.playback), phase := Idle)
  }

  // ----------------------------------------------- the callbacks as written

  /** onclose as written: it tests the phase startSession saw, not the current one. */
  function CloseAsWritten(m: Machine): Machine
  {
    if m.startedFrom != Error then m.(phase := Idle) else m
  }

  /** The 'ended' listener as written: it also runs for sources that stopAllAudio already dropped. */
  function EndedAsWritten(m: Machine, source: nat): Machine
  {
    var rest := m.playback.sources - {source};
    m.(playback := m.playback.(sources := rest), phase := if rest == {} then Listening else m.phase)
  }

  // ------------------------------------------------------- the tool calls

  /** The calls of a tool-call message as reply parts, each carrying its call. */
  function AsParts(calls: seq<FunctionCall>): (parts: seq<Option<FunctionCall>>)
    ensures |parts| == |calls| && forall i :: 0 <= i < |calls| ==> parts[i] == Some(calls[i])
  {
    seq(|calls|, i requires 0 <= i < |calls| => Some(calls[i]))
  }

  lemma {:induction false} CallCountAsParts(calls: seq<FunctionCall>)
    ensures Chat.CallCount(AsParts(calls)) == |calls|
    decreases |calls|
  {
    if calls != [] {
      assert AsParts(calls)[1..] == AsParts(calls[1..]);
      CallCountAsParts(calls[1..]);
    }
  }

  /**
   * onToolCall over a tool-call message runs the same dispatcher as a typed
   * reply, and gives exactly one result per call.
   */
  lemma SpokenCallsOneResultEach(apps: seq<Job>, calls: seq<FunctionCall>, freshIds: seq<string>)
    requires |freshIds| == |calls|
    ensures |Chat.RunCalls(apps, AsParts(calls), freshIds).results| == |calls|
  {
    Chat.RunCallsOneResultPerCall(apps, AsParts(calls), freshIds);
    CallCountAsParts(calls);
  }

  /**
   * The loop of onmessage over message.toolCall.functionCalls: each call is
   * handed to onToolCall, that is the assistant's handleToolCall, in order.
   */
  method DispatchToolCalls(store: JobStore, calls: seq<FunctionCall>, freshIds: seq<string>) returns (results: seq<string>)
    requires store.Valid() && |freshIds| == |calls| && Chat.FreshIds(store.apps, freshIds)
    modifies store
    ensures store.Valid()
    ensures var run := Chat.RunCalls(old(store.apps), AsParts(calls), freshIds);
      results == run.results && store.apps == run.apps
    ensures |results| == |calls|
  {
    ghost var apps0 := store.apps;
    var parts := AsParts(calls);
    results := [];
    assert parts[0..] == parts && freshIds[0..] == freshIds;
    for i := 0 to |calls|
      invariant store.Valid() && |results| == i
      invariant Chat.FreshFrom(store.apps, freshIds, i) && Chat.Distinct(freshIds)
      invariant var rest := Chat.RunCalls(store.apps, parts[i..], freshIds[i..]);
        Chat.RunCalls(apps0, parts, freshIds) == Chat.Run(results + rest.results, rest.apps)
    {
      ghost var before := store.apps;
      var result := HandleToolCall(store, calls[i], freshIds[i]);
      ToolIds(before, calls[i], freshIds[i]);
      Chat.FreshFromStep(before, store.apps, freshIds, i);
      Chat.RunCallsStep(apps0, parts, freshIds, i, results, before, result, store.apps);
      results := results + [result];
    }
    assert results + [] == results;
  }

  // ---------------------------------------------------------------- the hook

  /** The hook: its state, its refs grouped as above, and the effects it has had. */
  class Session {
    var phase: Phase
    var startedFrom: Phase
    var playback: Playback
    var transcript: Transcript
    var handles: Handles
    var log: Log

    function State(): Machine
      reads this
    {
      Machine(phase, startedFrom, playback, transcript, handles, log)
    }

    ghost predicate Valid()
      reads this
    {
      Invariant(State())
    }

    constructor ()
      ensures State() == Initial && Valid()
    {
      phase, startedFrom := Idle, Idle;
      playback := Playback({}, 0, 0.0, []);
      transcript := Transcript("", "");
      handles := Handles(false, false, false);
      log := Log([], [], [], []);
    }

    method Start(outcome: StartOutcome)
      requires Valid()
      modifies this
      ensures Valid() && State() == StartStep(old(State()), outcome)
    {
      if phase != Idle && phase != Error {
        return;
      }
      startedFrom := phase;
      phase := Connecting;
      playback := playback.(nextStartTime := 0.0);
      match outcome {
        case Connected =>
          handles := handles.(stream := true, session := true);
        case Failed(message, micAcquired) =>
          if micAcquired {
            handles := handles.(stream := true);
          }
          log := log.(errors := log.errors + [if message == "" then StartError else message]);
          phase := Error;
      }
    }

    method OnOpen()
      requires Valid()
      modifies this
      ensures Valid() && State() == OpenStep(old(State()))
    {
      phase := Listening;
      handles := handles.(processor := true);
    }

    method OnAudioProcess(samples: array<real>)
      requires Valid()
      modifies this
      ensures Valid() && State() == AudioProcessStep(old(State()), samples[..])
    {
      if handles.processor {
        var blob := Audio.CreateAudioBlob(samples);
        log := log.(sent := log.sent + [blob]);
      }
    }

    method StopAllAudio()
      modifies this
      ensures State() == old(State()).(playback := Silenced(old(playback)))
    {
      playback := playback.(sources := {}, nextStartTime := 0.0);
    }

    /** The tool-call branch of onmessage: one response per call with a non-empty result. */
    method SendToolResponses(calls: seq<FunctionCall>, results: seq<string>)
      requires |results| == |calls|
      modifies this
      ensures State() == old(State()).(log := old(log).(responses := old(log.responses) + ToolResponses(calls, results)))
    {
      var sentNow: seq<ToolResponse> := [];
      for i := 0 to |calls|
        invariant sentNow == ToolResponses(calls[..i], results[..i])
      {
        assert calls[..i + 1][..i] == calls[..i] && results[..i + 1][..i] == results[..i];
        if results[i] != "" {
          sentNow := sentNow + [ToolResponse(calls[i].id, calls[i].name, results[i])];
        }
      }
      assert calls[..|calls|] == calls && results[..|results|] == results;
      log := log.(responses := log.responses + sentNow);
    }

    /** The turnComplete branch of onmessage. */
    method CompleteTurn()
      modifies this
      ensures State() == TurnStep(old(State()))
    {
      var userText := Trim(transcript.input);
      var assistantText := Trim(transcript.output);
      if userText != "" || assistantText != "" {
        log := log.(turns := log.turns + [Turn(userText, assistantText)]);
      }
      transcript := Transcript("", "");
    }

    /** The audio branch of onmessage; `played` is false where decoding throws. */
    method PlayAudio(audio: string, now: real) returns (played: bool)
      modifies this
      ensures played <==> ChunkDuration(audio).Some?
      ensures played ==>
        State() == old(State()).(phase := Speaking, playback := Schedule(old(playback), ChunkDuration(audio).value, now))
      ensures !played ==>
        State() == old(State()).(phase := Speaking,
                                 playback := old(playback).(nextStartTime := Max(old(playback.nextStartTime), now)))
    {
      phase := Speaking;
      playback := playback.(nextStartTime := Max(playback.nextStartTime, now));
      var bytes := Audio.Decode(audio);
      if bytes.None? {
        return false;
      }
      ghost var binary := Base64.Atob(audio).value;
      assert bytes.value.Length == |binary| by {
        assert |bytes.value[..]| == |Bytes.CharCodes(binary)|;
      }
      var buffer := Audio.DecodeAudioData(bytes.value, 1);
      DecodedFrames(|binary|);
      if buffer.None? {
        return false;
      }
      var duration := buffer.value.Length1 as real / OutputSampleRate;
      assert ChunkDuration(audio) == Some(duration);
      var source := playback.nextSourceId;
      var start := playback.nextStartTime;
      playback := Playback(playback.sources + {source}, source + 1, start + duration,
                           playback.chunks + [Chunk(source, start, duration)]);
      played := true;
    }

    /**
     * onmessage: the tool calls run against the job store through the
     * assistant's dispatcher, one fresh id each, and their results decide
     * which responses are sent; the rest is the message transition.
     */
    method OnMessage(msg: ServerMessage, store: JobStore, freshIds: seq<string>, now: real) returns (results: seq<string>)
      requires Valid() && store.Valid()
      requires |freshIds| == |msg.functionCalls| && Chat.FreshIds(store.apps, freshIds)
      modifies this, store
      ensures store.Valid()
      ensures var run := Chat.RunCalls(old(store.apps), AsParts(msg.functionCalls), freshIds);
        results == run.results && store.apps == run.apps
      ensures |results| == |msg.functionCalls|
      ensures Valid() && State() == MessageStep(old(State()), msg, results, now)
    {
      results := DispatchToolCalls(store, msg.functionCalls, freshIds);
      ApplyMessage(msg, results, now);
    }

    /** The rest of onmessage, once the tool calls have their results. */
    method ApplyMessage(msg: ServerMessage, results: seq<string>, now: real)
      requires Valid() && |results| == |msg.functionCalls|
      modifies this
      ensures Valid() && State() == MessageStep(old(State()), msg, results, now)
    {
      SendToolResponses(msg.functionCalls, results);
      if msg.outputTranscription.Some? {
        transcript := transcript.(output := transcript.output + msg.outputTranscription.value);
      } else if msg.inputTranscription.Some? {
        transcript := transcript.(input := transcript.input + msg.inputTranscription.value);
      }
      if msg.turnComplete {
        CompleteTurn();
      }
      if msg.audio != "" {
        var played := PlayAudio(msg.audio, now);
        if !played {
          MessageKeepsInvariant(old(State()), msg, results, now);
          return;
        }
      }
      if msg.interrupted {
        StopAllAudio();
        phase := Listening;
      }
      MessageKeepsInvariant(old(State()), msg, results, now);
    }

    method OnEnded(source: nat)
      requires Valid()
      modifies this
      ensures Valid() && State() == EndedStep(old(State()), source)
    {
      if source in playback.sources {
        playback := playback.(sources := playback.sources - {source});
        if playback.sources == {} {
          phase := Listening;
        }
      }
    }

    method OnError()
      requires Valid()
      modifies this
      ensures Valid() && State() == ErrorStep(old(State()))
    {
      log := log.(errors := log.errors + [ConnectionError]);
      phase := Error;
    }

    method OnClose()
      requires Valid()
      modifies this
      ensures Valid() && State() == CloseStep(old(State()))
    {
      if phase != Error {
        phase := Idle;
      }
    }

    method Stop()
      requires Valid()
      modifies this
      ensures Valid() && State() == StopStep(old(State()))
    {
      handles := Handles(false, false, false);
      StopAllAudio();
      phase := Idle;
    }
  }

  // ------------------------------------------------------------ properties

  /** startSession does nothing unless the session is IDLE or in ERROR. */
  lemma StartGuarded(m: Machine, outcome: StartOutcome)
    requires m.phase != Idle && m.phase != Error
    ensures StartStep(m, outcome) == m
  {
  }

  /**
   * From IDLE or ERROR, startSession resets the cursor; it ends CONNECTING
   * with a session when the session is created, and in ERROR, with one
   * message reported, when anything fails.
   */
  lemma StartFromRest(m: Machine, outcome: StartOutcome)
    requires m.phase == Idle || m.phase == Error
    ensures var r := StartStep(m, outcome);
      && r.playback == m.playback.(nextStartTime := 0.0)
      && r.startedFrom == m.phase
      && (outcome.Connected? ==> r.phase == Connecting && r.log == m.log && r.handles.session)
      && (outcome.Failed? ==>
            && r.phase == Error
            && r.handles.session == m.handles.session
            && r.log.errors == m.log.errors + [if outcome.message == "" then StartError else outcome.message])
  {
  }

  /** Opening the connection makes a started session LISTENING, capturing, with the cursor at 0. */
  lemma StartThenOpen(m: Machine)
    requires m.phase == Idle
    ensures var r := OpenStep(StartStep(m, Connected));
      && r.phase == Listening && r.playback.nextStartTime == 0.0
      && r.handles == Handles(true, true, true)
  {
  }

  /** Captured audio is sent exactly while the processor is attached: never before onopen, never after a stop. */
  lemma CaptureOnlyWhileOpen(m: Machine, samples: seq<real>)
    ensures AudioProcessStep(OpenStep(m), samples).log.sent == m.log.sent + [CapturedBlob(samples)]
    ensures AudioProcessStep(StopStep(m), samples) == StopStep(m)
  {
  }

  /** The responses sent are exactly the calls with a non-empty result, with that call's id and name. */
  lemma {:induction false} ToolResponsesExact(calls: seq<FunctionCall>, results: seq<string>)
    requires |results| == |calls|
    ensures forall r :: r in ToolResponses(calls, results) ==>
      exists i :: 0 <= i < |calls| && r == ToolResponse(calls[i].id, calls[i].name, results[i]) && results[i] != ""
    ensures forall i :: 0 <= i < |calls| && results[i] != "" ==>
      ToolResponse(calls[i].id, calls[i].name, results[i]) in ToolResponses(calls, results)
    decreases |calls|
  {
    if calls != [] {
      var n := |calls| - 1;
      ToolResponsesExact(calls[..n], results[..n]);
      forall i | 0 <= i < n
        ensures calls[..n][i] == calls[i] && results[..n][i] == results[i]
      {
      }
    }
  }

  /** At most one response per call, and none at all when every result is empty. */
  lemma {:induction false} ToolResponsesBounded(calls: seq<FunctionCall>, results: seq<string>)
    requires |results| == |calls|
    ensures |ToolResponses(calls, results)| <= |calls|
    ensures (forall i :: 0 <= i < |results| ==> results[i] == "") ==> ToolResponses(calls, results) == []
    decreases |calls|
  {
    if calls != [] {
      ToolResponsesBounded(calls[..|calls| - 1], results[..|results| - 1]);
    }
  }

  /** One message feeds at most one transcription buffer: output when present, otherwise input. */
  lemma TranscriptFeedsOneBuffer(t: Transcript, msg: ServerMessage)
    ensures var r := TranscriptStep(t, msg);
      && (msg.outputTranscription.Some? ==>
            r.output == t.output + msg.outputTranscription.value && r.input == t.input)
      && (msg.outputTranscription.None? && msg.inputTranscription.Some? ==>
            r.input == t.input + msg.inputTranscription.value && r.output == t.output)
      && (msg.outputTranscription.None? && msg.inputTranscription.None? ==> r == t)
  {
  }

  /**
   * Turn completion clears both buffers and reports one turn, with the
   * trimmed texts, exactly when either trimmed text is non-empty; a turn
   * reported never carries white space at either end of its texts.
   */
  lemma TurnCompleteClears(m: Machine)
    ensures var r := TurnStep(m);
      && r.transcript == Transcript("", "")
      && (Trim(m.transcript.input) == "" && Trim(m.transcript.output) == "" <==> r.log.turns == m.log.turns)
      && (r.log.turns != m.log.turns ==>
            r.log.turns == m.log.turns + [Turn(Trim(m.transcript.input), Trim(m.transcript.output))])
  {
  }

  /** A reported turn is already trimmed. */
  lemma CompletedTurnTrimmed(t: Transcript)
    requires CompletedTurn(t).Some?
    ensures var turn := CompletedTurn(t).value;
      Trim(turn.userText) == turn.userText && Trim(turn.assistantText) == turn.assistantText
  {
    TrimIdempotent(t.input);
    TrimIdempotent(t.output);
  }

  /**
   * A decodable audio chunk makes the session SPEAKING, starts no earlier
   * than the cursor or the clock, moves the cursor to its end, and adds a
   * source that was not already playing.
   */
  lemma ChunkScheduled(p: Playback, duration: real, now: real)
    requires forall s :: s in p.sources ==> s < p.nextSourceId
    ensures var r := Schedule(p, duration, now);
      var c := r.chunks[|r.chunks| - 1];
      && r.chunks == p.chunks + [c]
      && c.start >= p.nextStartTime && c.start >= now
      && (c.start == p.nextStartTime || c.start == now)
      && c.duration == duration
      && r.nextStartTime == c.start + duration
      && c.source !in p.sources
      && r.sources == p.sources + {c.source}
  {
  }

  /**
   * Two chunks in a row never overlap: the second starts no earlier than
   * the first ends, and exactly when it ends if the clock has not passed
   * that point.
   */
  lemma ChunksDoNotOverlap(p: Playback, d1: real, now1: real, d2: real, now2: real)
    ensures var r := Schedule(Schedule(p, d1, now1), d2, now2);
      var first := r.chunks[|p.chunks|];
      var second := r.chunks[|p.chunks| + 1];
      && second.start >= first.start + first.duration
      && (now2 <= first.start + first.duration ==> second.start == first.start + first.duration)
  {
  }

  /**
   * The duration of encoded bytes is their 16-bit sample count over the
   * output rate; an odd count, or no sample at all, does not decode.
   */
  lemma ChunkDurationOfSamples(samples: seq<Bytes.Byte>)
    ensures ChunkDuration(Base64.Encode(samples)) ==
      if |samples| % 2 == 1 || samples == [] then None else Some((|samples| / 2) as real / OutputSampleRate)
  {
    Base64.AtobOfEncode(samples);
  }

  /**
   * Audio text that is only white space passes the handler's non-empty test,
   * but decodes to no bytes: the message aborts after SPEAKING and the
   * cursor update, and no chunk is scheduled.
   */
  lemma BlankAudioAborts(m: Machine, msg: ServerMessage, results: seq<string>, now: real)
    requires |results| == |msg.functionCalls| && msg.audio == " "
    ensures ChunkDuration(msg.audio).None?
    ensures var r := MessageStep(m, msg, results, now);
      && r.phase == Speaking
      && r.playback.sources == m.playback.sources && r.playback.chunks == m.playback.chunks
  {
    assert Base64.RemoveWhitespace(" ") == "";
    assert Base64.Atob(" ") == Some("");
  }

  /** A message whose audio decodes schedules exactly one chunk, of positive length. */
  lemma DecodedAudioPlays(m: Machine, msg: ServerMessage, results: seq<string>, now: real)
    requires |results| == |msg.functionCalls| && msg.audio != "" && ChunkDuration(msg.audio).Some?
    ensures var r := MessageStep(m, msg, results, now);
      && |r.playback.chunks| == |m.playback.chunks| + 1
      && r.playback.chunks[..|m.playback.chunks|] == m.playback.chunks
      && r.playback.chunks[|m.playback.chunks|].duration == ChunkDuration(msg.audio).value > 0.0
  {
  }

  /** A message that carries an interruption (and audio that decodes, if any) flushes playback and listens. */
  lemma InterruptFlushes(m: Machine, msg: ServerMessage, results: seq<string>, now: real)
    requires |results| == |msg.functionCalls| && msg.interrupted
    requires msg.audio == "" || ChunkDuration(msg.audio).Some?
    ensures var r := MessageStep(m, msg, results, now);
      r.playback.sources == {} && r.playback.nextStartTime == 0.0 && r.phase == Listening
  {
  }

  /** Audio that does not decode leaves the session SPEAKING, schedules nothing and skips the interruption. */
  lemma UndecodableAudioAborts(m: Machine, msg: ServerMessage, results: seq<string>, now: real)
    requires |results| == |msg.functionCalls| && msg.audio != "" && ChunkDuration(msg.audio).None?
    ensures var r := MessageStep(m, msg, results, now);
      && r.phase == Speaking
      && r.playback.sources == m.playback.sources && r.playback.chunks == m.playback.chunks
      && r.playback.nextStartTime == Max(m.playback.nextStartTime, now)
  {
  }

  /** A message without audio or interruption leaves the phase and playback alone. */
  lemma QuietMessageKeepsPlayback(m: Machine, msg: ServerMessage, results: seq<string>, now: real)
    requires |results| == |msg.functionCalls| && msg.audio == "" && !msg.interrupted
    ensures var r := MessageStep(m, msg, results, now);
      r.phase == m.phase && r.playback == m.playback && r.handles == m.handles
  {
  }

  /** When a playing chunk ends it leaves the set; LISTENING follows only when the set is then empty. */
  lemma EndedRemoves(m: Machine, source: nat)
    requires source in m.playback.sources
    ensures var r := EndedStep(m, source);
      && r.playback.sources == m.playback.sources - {source}
      && (r.playback.sources == {} ==> r.phase == Listening)
      && (r.playback.sources != {} ==> r.phase == m.phase)
  {
  }

  /** An error is reported with the connection message and leaves the session in ERROR. */
  lemma ErrorReported(m: Machine)
    ensures var r := ErrorStep(m);
      r.phase == Error && r.log.errors == m.log.errors + [ConnectionError]
  {
  }

  /** Close keeps ERROR and turns every other phase into IDLE. */
  lemma CloseKeepsError(m: Machine)
    ensures m.phase == Error ==> CloseStep(m) == m
    ensures m.phase != Error ==> CloseStep(m).phase == Idle
    ensures CloseStep(ErrorStep(m)).phase == Error
  {
  }

  /** stopSession always ends IDLE, silent and with every handle released; a second stop changes nothing. */
  lemma StopIdempotent(m: Machine)
    ensures var r := StopStep(m);
      && r.phase == Idle && r.playback.sources == {} && r.playback.nextStartTime == 0.0
      && r.handles == Handles(false, false, false)
      && StopStep(r) == r
  {
  }

  /** Once stopped, an 'ended' event leaves the session as it is. */
  lemma EndedAfterStopIgnored(m: Machine, source: nat)
    ensures EndedStep(StopStep(m), source) == StopStep(m)
  {
  }

  /** No transition enters THINKING, moves the cursor below 0 or plays a source it has not issued. */
  lemma TransitionsKeepInvariant(m: Machine, outcome: StartOutcome, samples: seq<real>, source: nat)
    requires Invariant(m)
    ensures Invariant(StartStep(m, outcome)) && Invariant(OpenStep(m))
    ensures Invariant(AudioProcessStep(m, samples))
    ensures Invariant(EndedStep(m, source)) && Invariant(ErrorStep(m))
    ensures Invariant(CloseStep(m)) && Invariant(StopStep(m))
  {
  }

  /** A server message keeps the invariant too: a new source takes the next number and the cursor only grows or resets. */
  lemma MessageKeepsInvariant(m: Machine, msg: ServerMessage, results: seq<string>, now: real)
    requires Invariant(m) && |results| == |msg.functionCalls|
    ensures Invariant(MessageStep(m, msg, results, now))
  {
    if msg.audio != "" && ChunkDuration(msg.audio).Some? {
      ChunkScheduled(m.playback, ChunkDuration(msg.audio).value, now);
    }
  }

  // --------------------------------------------------------------- findings

  /**
   * As written, a session started from IDLE that then fails (onerror, then
   * onclose) ends IDLE: the ERROR the error handler set is overwritten.
   * Testing the current phase keeps it.
   */
  lemma ErrorThenCloseAsWritten(m: Machine)
    requires m.phase == Idle
    ensures var failed := ErrorStep(OpenStep(StartStep(m, Connected)));
      && failed.phase == Error
      && CloseAsWritten(failed).phase == Idle
      && CloseStep(failed).phase == Error
  {
  }

  /**
   * As written, stopping the session while a chunk plays ends IDLE, but the
   * stopped source's 'ended' event then sets LISTENING with no session.
   * Ignoring sources that are no longer playing keeps it IDLE.
   */
  lemma EndedAfterStopAsWritten(m: Machine, source: nat)
    requires source in m.playback.sources
    ensures EndedAsWritten(StopStep(m), source).phase == Listening
    ensures EndedStep(StopStep(m), source).phase == Idle
  {
  }
}

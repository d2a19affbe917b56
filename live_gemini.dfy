/**
 * The live session hook: its state cells, the teardown, the guarded connect
 * split at its two awaits, and the SDK callbacks applied as atomic events.
 */
module LiveGemini {
  import opened Common
  import opened Transcript
  import opened Playback

  /** An opaque browser or SDK object: an AudioContext, a MediaStream, a ScriptProcessorNode, an AnalyserNode, a live session. */
  datatype Handle = Handle(id: nat)

  /** A teardown call made on a held object. */
  datatype Release =
    | CloseSession(session: Handle)
    | StopTracks(stream: Handle)
    | DisconnectProcessor(processor: Handle)
    | CloseContext(context: Handle)

  /** Where the in-flight connect is suspended, if anywhere. */
  datatype Continuation = NoContinuation | AwaitingMicrophone | AwaitingSession

  /**
   * The parts of a server message the hook reads. `audio` is the duration of the
   * decoded first inline audio part, present when that part carries a non-empty payload.
   */
  datatype ServerMessage = ServerMessage(
    outputTranscription: Option<string>,
    inputTranscription: Option<string>,
    turnComplete: bool,
    audio: Option<real>,
    interrupted: bool)

  /** The fresh id and clock reading an addMessage call would draw. */
  datatype Stamp = Stamp(id: string, timestamp: int)

  const SecureContextRequired := "Microphone requires a secure context (HTTPS)."
  const ApiKeyMissingMessage := "API Key is missing. Please check your environment variables."
  const ConnectionFailed := "Failed to establish connection."
  const ConnectionLost := "Connection lost. Please ensure you are not using the Vercel Toolbar and your API key is correct."

  /** The key is absent, empty, or the text a build leaves when it substitutes an undefined variable. */
  predicate ApiKeyMissing(apiKey: Option<string>) {
    apiKey.None? || apiKey.value == "" || apiKey.value == "undefined"
  }

  /** What the catch block records: the error's message, or a fixed text when it has none. */
  function ErrorText(message: string): (r: string)
    ensures r != ""
    ensures message != "" ==> r == message
    ensures message == "" ==> r == ConnectionFailed
  {
    if message == "" then ConnectionFailed else message
  }

  /** The fragment one optional transcription contributes: none, or one non-final fragment of the given role. */
  function TranscriptFragment(text: Option<string>, role: Role, stamp: Stamp): (frags: seq<Fragment>)
  {
    if text.Some? then [Fragment(role, text.value, false, stamp.id, stamp.timestamp)] else []
  }

  /** The addMessage calls one server message makes: the agent's transcript as Model, then the user's as User. */
  function MessageFragments(msg: ServerMessage, outStamp: Stamp, inStamp: Stamp): (frags: seq<Fragment>)
  {
    TranscriptFragment(msg.outputTranscription, Model, outStamp) + TranscriptFragment(msg.inputTranscription, User, inStamp)
  }

  /** One guarded addMessage call: `if (transcription) addMessage(role, transcription.text, false)`. */
  function AddTranscription(messages: seq<ChatMessage>, text: Option<string>, role: Role, stamp: Stamp)
    : (r: seq<ChatMessage>)
    ensures r == Fold(messages, TranscriptFragment(text, role, stamp))
    ensures FragmentTexts(TranscriptFragment(text, role, stamp)) == text.GetOr("")
    ensures |messages| <= |r| <= |messages| + 1
  {
    if text.Some? then
      FoldSingle(messages, Fragment(role, text.value, false, stamp.id, stamp.timestamp));
      AddMessage(messages, role, text.value, false, stamp.id, stamp.timestamp)
    else messages
  }

  /** The transcript updates of one server message. */
  function Transcribe(messages: seq<ChatMessage>, msg: ServerMessage, outStamp: Stamp, inStamp: Stamp)
    : (r: seq<ChatMessage>)
    ensures r == Fold(messages, MessageFragments(msg, outStamp, inStamp))
    ensures Texts(r) == Texts(messages) + msg.outputTranscription.GetOr("") + msg.inputTranscription.GetOr("")
    ensures |messages| <= |r| <= |messages| + 2
  {
    var afterModel := AddTranscription(messages, msg.outputTranscription, Model, outStamp);
    var outFrags := TranscriptFragment(msg.outputTranscription, Model, outStamp);
    var inFrags := TranscriptFragment(msg.inputTranscription, User, inStamp);
    var r := AddTranscription(afterModel, msg.inputTranscription, User, inStamp);
    assert r == Fold(messages, outFrags + inFrags) by {
      FoldAppend(messages, outFrags, inFrags);
    }
    assert Texts(r) == Texts(messages) + FragmentTexts(outFrags + inFrags) by {
      FoldTexts(messages, outFrags + inFrags);
    }
    assert FragmentTexts(outFrags + inFrags) == msg.outputTranscription.GetOr("") + msg.inputTranscription.GetOr("") by {
      FoldAppend(messages, outFrags, inFrags);
    }
    r
  }

  /** With the hook's constant isFinal=false, one server message keeps the transcript alternating and open. */
  lemma TranscribeKeepsAlternation(messages: seq<ChatMessage>, msg: ServerMessage, outStamp: Stamp, inStamp: Stamp)
    requires Alternates(messages) && AllOpen(messages)
    ensures Alternates(Transcribe(messages, msg, outStamp, inStamp))
    ensures AllOpen(Transcribe(messages, msg, outStamp, inStamp))
  {
    var frags := MessageFragments(msg, outStamp, inStamp);
    assert forall j :: 0 <= j < |frags| ==> !frags[j].isFinal;
    FoldOpenAlternates(messages, frags);
  }

  /** The state of one useLiveGemini hook instance: its React state and its ref cells. */
  class Engine {
    // React state exposed to the screen
    var isConnected: bool
    var isConnecting: bool
    var isSpeaking: bool
    var messages: seq<ChatMessage>
    var volume: real
    var error: Option<string>

    // ref cells
    var audioContext: Option<Handle>
    var inputAudioContext: Option<Handle>
    var nextStartTime: real
    var sources: set<SourceNode>
    var session: Option<Handle>
    var processor: Option<Handle>
    var stream: Option<Handle>
    var analyser: Option<Handle>

    /** The teardown calls made so far, in order. */
    var releaseLog: seq<Release>
    /** The continuation of an in-flight connect. */
    var pending: Continuation
    /** The SDK has been asked to open a channel, so its callbacks may fire. */
    var channelRequested: bool

    /**
     * The hook's invariant: the speaking flag implies a live source; every live
     * source is unstopped and ends by the cursor; live sources never overlap;
     * the transcript alternates between roles and has no final message.
     */
    ghost predicate Valid()
      reads this, sources
    {
      && (isSpeaking ==> sources != {})
      && (forall s :: s in sources ==> !s.stopped && 0.0 <= s.duration && s.startTime + s.duration <= nextStartTime)
      && (forall s, t :: s in sources && t in sources && s != t ==>
            s.startTime + s.duration <= t.startTime || t.startTime + t.duration <= s.startTime)
      && Alternates(messages) && AllOpen(messages)
    }

    /** Nothing is held and every indicator is off. */
    ghost predicate TornDown()
      reads this
    {
      && session.None? && stream.None? && processor.None?
      && inputAudioContext.None? && audioContext.None?
      && sources == {}
      && !isConnected && !isConnecting && !isSpeaking && volume == 0.0
    }

    /** The teardown calls disconnect makes for the objects currently held, in its order. */
    function Releases(): (calls: seq<Release>)
      reads this
    {
      (if session.Some? then [CloseSession(session.value)] else [])
      + (if stream.Some? then [StopTracks(stream.value)] else [])
      + (if processor.Some? then [DisconnectProcessor(processor.value)] else [])
      + (if inputAudioContext.Some? then [CloseContext(inputAudioContext.value)] else [])
      + (if audioContext.Some? then [CloseContext(audioContext.value)] else [])
    }

    /** The hook's initial state. */
    constructor ()
      ensures Valid() && TornDown()
      ensures messages == [] && error == None && nextStartTime == 0.0 && analyser == None
      ensures releaseLog == [] && pending == NoContinuation && !channelRequested
    {
      isConnected, isConnecting, isSpeaking := false, false, false;
      messages, volume, error := [], 0.0, None;
      audioContext, inputAudioContext, nextStartTime, sources := None, None, 0.0, {};
      session, processor, stream, analyser := None, None, None, None;
      releaseLog, pending, channelRequested := [], NoContinuation, false;
    }

    /** Calls stop() on every live source. */
    method StopSources()
      modifies sources
      ensures forall s :: s in sources ==> s.stopped
    {
      var remaining := sources;
      while remaining != {}
        invariant remaining <= sources
        invariant forall s :: s in sources - remaining ==> s.stopped
        decreases remaining
      {
        var s :| s in remaining;
        s.Stop();
        remaining := remaining - {s};
      }
    }

    /**
     * disconnect: release every held object, stop and forget every source and
     * clear the indicators. The error slot, the transcript, the timeline cursor
     * and the analyser ref are not touched; on a torn-down hook it changes nothing.
     */
    method Disconnect()
      requires Valid()
      modifies this`session, this`stream, this`processor, this`inputAudioContext, this`audioContext, this`releaseLog,
              this`sources, this`isConnected, this`isConnecting, this`isSpeaking, this`volume, sources
      ensures Valid() && TornDown()
      ensures releaseLog == old(releaseLog) + old(Releases())
      ensures forall s :: s in old(sources) ==> s.stopped
      ensures error == old(error) && messages == old(messages) && nextStartTime == old(nextStartTime)
      ensures analyser == old(analyser) && pending == old(pending) && channelRequested == old(channelRequested)
      ensures old(TornDown()) ==> unchanged(this)
    {
      ReleaseHandles();
      StopSources();
      ClearIndicators();
    }

    /** The second half of disconnect: forget the sources and reset the indicators. */
    method ClearIndicators()
      modifies this`sources, this`isConnected, this`isConnecting, this`isSpeaking, this`volume
      ensures sources == {} && !isConnected && !isConnecting && !isSpeaking && volume == 0.0
      ensures old(TornDown()) ==> unchanged(this)
    {
      sources := {};
      isConnected, isConnecting, isSpeaking := false, false, false;
      volume := 0.0;
    }

    /** The first half of disconnect: close, stop or disconnect each held object, in order, and null its ref. */
    method ReleaseHandles()
      modifies this`session, this`stream, this`processor, this`inputAudioContext, this`audioContext, this`releaseLog
      ensures session.None? && stream.None? && processor.None? && inputAudioContext.None? && audioContext.None?
      ensures releaseLog == old(releaseLog) + old(Releases())
      ensures old(Releases()) == [] ==> releaseLog == old(releaseLog)
    {
      releaseLog := releaseLog + Releases();
      session, stream, processor := None, None, None;
      inputAudioContext, audioContext := None, None;
    }

    /**
     * connect, up to its first await. The handles are the two new AudioContexts
     * and the analyser it creates.
     */
    method Connect(secureContext: bool, apiKey: Option<string>, outputCtx: Handle, inputCtx: Handle, analyserNode: Handle)
      requires Valid()
      modifies this`session, this`stream, this`processor, this`inputAudioContext, this`audioContext, this`releaseLog,
              this`sources, this`isConnected, this`isConnecting, this`isSpeaking, this`volume,
              this`error, this`analyser, this`pending, sources
      ensures Valid()
      ensures messages == old(messages) && nextStartTime == old(nextStartTime) && channelRequested == old(channelRequested)
      // insecure context: report it and acquire nothing
      ensures !secureContext ==>
        && error == Some(SecureContextRequired) && !isConnecting
        && isConnected == old(isConnected) && isSpeaking == old(isSpeaking) && volume == old(volume)
        && audioContext == old(audioContext) && inputAudioContext == old(inputAudioContext)
        && analyser == old(analyser) && session == old(session) && stream == old(stream)
        && processor == old(processor) && sources == old(sources)
        && releaseLog == old(releaseLog) && pending == old(pending)
      // missing key: report it and tear down
      ensures secureContext && ApiKeyMissing(apiKey) ==>
        && error == Some(ApiKeyMissingMessage) && TornDown()
        && releaseLog == old(releaseLog) + old(Releases())
        && analyser == old(analyser) && pending == old(pending)
        && (forall s :: s in old(sources) ==> s.stopped)
      // otherwise: create the contexts and the analyser and wait for the microphone
      ensures secureContext && !ApiKeyMissing(apiKey) ==>
        && error == None && isConnecting
        && audioContext == Some(outputCtx) && inputAudioContext == Some(inputCtx) && analyser == Some(analyserNode)
        && pending == AwaitingMicrophone
        && isConnected == old(isConnected) && isSpeaking == old(isSpeaking) && volume == old(volume)
        && session == old(session) && stream == old(stream) && processor == old(processor)
        && sources == old(sources) && releaseLog == old(releaseLog)
    {
      error := None;
      isConnecting := true;
      if !secureContext {
        error := Some(SecureContextRequired);
        isConnecting := false;
        return;
      }
      if ApiKeyMissing(apiKey) {
        error := Some(ErrorText(ApiKeyMissingMessage));
        Disconnect();
        return;
      }
      CreateContexts(outputCtx, inputCtx, analyserNode);
    }

    /** The rest of connect before its first await: hold the new contexts and analyser, then wait for the microphone. */
    method CreateContexts(outputCtx: Handle, inputCtx: Handle, analyserNode: Handle)
      modifies this`audioContext, this`inputAudioContext, this`analyser, this`pending
      ensures audioContext == Some(outputCtx) && inputAudioContext == Some(inputCtx) && analyser == Some(analyserNode)
      ensures pending == AwaitingMicrophone
    {
      audioContext, inputAudioContext := Some(outputCtx), Some(inputCtx);
      analyser := Some(analyserNode);
      pending := AwaitingMicrophone;
    }

    /**
     * connect resumes after getUserMedia: on a stream it stores it and asks the
     * SDK for a channel; on a rejection it records the error and tears down.
     */
    method MicrophoneResolved(result: Result<Handle>)
      requires Valid() && pending == AwaitingMicrophone
      modifies this`session, this`stream, this`processor, this`inputAudioContext, this`audioContext, this`releaseLog,
              this`sources, this`isConnected, this`isConnecting, this`isSpeaking, this`volume,
              this`error, this`channelRequested, this`pending, sources
      ensures Valid() && messages == old(messages) && nextStartTime == old(nextStartTime) && analyser == old(analyser)
      ensures result.Ok? ==>
        && stream == Some(result.value) && channelRequested && pending == AwaitingSession
        && error == old(error) && isConnected == old(isConnected) && isConnecting == old(isConnecting)
        && isSpeaking == old(isSpeaking) && sources == old(sources) && releaseLog == old(releaseLog)
        && session == old(session) && processor == old(processor)
        && audioContext == old(audioContext) && inputAudioContext == old(inputAudioContext) && volume == old(volume)
      ensures result.Err? ==>
        && error == Some(ErrorText(result.message)) && TornDown() && pending == NoContinuation
        && releaseLog == old(releaseLog) + old(Releases()) && channelRequested == old(channelRequested)
        && (forall s :: s in old(sources) ==> s.stopped)
    {
      if result.Ok? {
        stream := Some(result.value);
        channelRequested := true;
        pending := AwaitingSession;
      } else {
        pending := NoContinuation;
        error := Some(ErrorText(result.message));
        Disconnect();
      }
    }

    /**
     * connect resumes after the SDK's connect promise: on a session it stores it,
     * even if a teardown ran meanwhile; on a rejection it records the error and tears down.
     */
    method SessionResolved(result: Result<Handle>)
      requires Valid() && pending == AwaitingSession
      modifies this`session, this`stream, this`processor, this`inputAudioContext, this`audioContext, this`releaseLog,
              this`sources, this`isConnected, this`isConnecting, this`isSpeaking, this`volume,
              this`error, this`pending, sources
      ensures Valid() && pending == NoContinuation && messages == old(messages) && nextStartTime == old(nextStartTime)
      ensures channelRequested == old(channelRequested) && analyser == old(analyser)
      ensures result.Ok? ==>
        && session == Some(result.value)
        && error == old(error) && isConnected == old(isConnected) && isConnecting == old(isConnecting)
        && isSpeaking == old(isSpeaking) && sources == old(sources) && releaseLog == old(releaseLog)
        && stream == old(stream) && processor == old(processor)
        && audioContext == old(audioContext) && inputAudioContext == old(inputAudioContext) && volume == old(volume)
      ensures result.Err? ==>
        && error == Some(ErrorText(result.message)) && TornDown()
        && releaseLog == old(releaseLog) + old(Releases())
        && (forall s :: s in old(sources) ==> s.stopped)
    {
      pending := NoContinuation;
      if result.Ok? {
        session := Some(result.value);
      } else {
        error := Some(ErrorText(result.message));
        Disconnect();
      }
    }

    /** onopen: connected, no longer connecting, and the microphone processor is wired up. */
    method OnOpen(processorNode: Handle)
      requires Valid() && channelRequested
      modifies this`isConnected, this`isConnecting, this`processor
      ensures Valid()
      ensures isConnected && !isConnecting && processor == Some(processorNode)
    {
      isConnected := true;
      isConnecting := false;
      processor := Some(processorNode);
    }

    /**
     * The audio path of onmessage: start a new source at max(cursor, now) and
     * move the cursor to its end.
     */
    method Enqueue(duration: real, now: real) returns (node: SourceNode)
      requires Valid() && 0.0 <= duration
      modifies this`isSpeaking, this`nextStartTime, this`sources
      ensures Valid()
      ensures fresh(node) && !node.stopped && node.duration == duration
      ensures node.startTime == StartTime(old(nextStartTime), now)
      ensures node.startTime >= now && nextStartTime >= old(nextStartTime)
      ensures forall s :: s in old(sources) ==> s.startTime + s.duration <= node.startTime
      ensures nextStartTime == node.startTime + duration
      ensures sources == old(sources) + {node} && isSpeaking
    {
      isSpeaking := true;
      nextStartTime := StartTime(nextStartTime, now);
      node := new SourceNode(nextStartTime, duration);
      nextStartTime := nextStartTime + duration;
      sources := sources + {node};
    }

    /**
     * The barge-in path of onmessage: stop every source, forget them all and
     * reset the cursor to 0, so that the next chunk starts at the clock's reading.
     */
    method Interrupt()
      requires Valid()
      modifies this`sources, this`nextStartTime, this`isSpeaking, sources
      ensures Valid()
      ensures forall s :: s in old(sources) ==> s.stopped
      ensures sources == {} && nextStartTime == 0.0 && !isSpeaking
      ensures forall now :: now >= 0.0 ==> StartTime(nextStartTime, now) == now
    {
      StopSources();
      sources := {};
      nextStartTime := 0.0;
      isSpeaking := false;
    }

    /** The two guarded addMessage calls at the head of onmessage. */
    method ApplyTranscripts(msg: ServerMessage, outStamp: Stamp, inStamp: Stamp)
      requires Valid()
      modifies this`messages
      ensures Valid() && messages == Transcribe(old(messages), msg, outStamp, inStamp)
    {
      TranscribeKeepsAlternation(messages, msg, outStamp, inStamp);
      messages := Transcribe(messages, msg, outStamp, inStamp);
    }

    /**
     * onmessage, applied atomically: transcripts, then turn completion, then the
     * audio chunk when an output context exists, then interruption.
     */
    method OnMessage(msg: ServerMessage, now: real, outStamp: Stamp, inStamp: Stamp) returns (node: Option<SourceNode>)
      requires Valid() && channelRequested && now >= 0.0
      requires msg.audio.Some? ==> msg.audio.value >= 0.0
      modifies this`messages, this`isSpeaking, this`nextStartTime, this`sources, sources
      ensures Valid()
      ensures messages == Transcribe(old(messages), msg, outStamp, inStamp)
      ensures node.Some? <==> msg.audio.Some? && audioContext.Some?
      ensures node.Some? ==>
        && fresh(node.value) && node.value.duration == msg.audio.value
        && node.value.startTime == StartTime(old(nextStartTime), now)
      ensures !msg.interrupted ==>
        && sources == old(sources) + (if node.Some? then {node.value} else {})
        && nextStartTime == (if node.Some? then node.value.startTime + node.value.duration else old(nextStartTime))
        && isSpeaking == (node.Some? || (old(isSpeaking) && !msg.turnComplete))
      ensures msg.interrupted ==>
        && sources == {} && nextStartTime == 0.0 && !isSpeaking
        && (forall s :: s in old(sources) ==> s.stopped)
        && (node.Some? ==> node.value.stopped)
      ensures isConnected == old(isConnected) && isConnecting == old(isConnecting) && error == old(error)
      ensures audioContext == old(audioContext) && inputAudioContext == old(inputAudioContext)
      ensures session == old(session) && stream == old(stream) && processor == old(processor)
      ensures releaseLog == old(releaseLog) && pending == old(pending) && volume == old(volume)
      ensures analyser == old(analyser) && channelRequested == old(channelRequested)
    {
      ApplyTranscripts(msg, outStamp, inStamp);
      node := PlayAudio(msg, now);
    }

    /** The rest of onmessage: turn completion, then the audio chunk when an output context exists, then interruption. */
    method PlayAudio(msg: ServerMessage, now: real) returns (node: Option<SourceNode>)
      requires Valid() && now >= 0.0
      requires msg.audio.Some? ==> msg.audio.value >= 0.0
      modifies this`isSpeaking, this`nextStartTime, this`sources, sources
      ensures Valid()
      ensures node.Some? <==> msg.audio.Some? && audioContext.Some?
      ensures node.Some? ==>
        && fresh(node.value) && node.value.duration == msg.audio.value
        && node.value.startTime == StartTime(old(nextStartTime), now)
      ensures !msg.interrupted ==>
        && sources == old(sources) + (if node.Some? then {node.value} else {})
        && nextStartTime == (if node.Some? then node.value.startTime + node.value.duration else old(nextStartTime))
        && isSpeaking == (node.Some? || (old(isSpeaking) && !msg.turnComplete))
      ensures msg.interrupted ==>
        && sources == {} && nextStartTime == 0.0 && !isSpeaking
        && (forall s :: s in old(sources) ==> s.stopped)
        && (node.Some? ==> node.value.stopped)
    {
      if msg.turnComplete {
        isSpeaking := false;
      }
      node := None;
      if msg.audio.Some? && audioContext.Some? {
        var n := Enqueue(msg.audio.value, now);
        node := Some(n);
      }
      if msg.interrupted {
        Interrupt();
      }
    }

    /** A source's onended: forget that source; the speaking flag drops when none is left. */
    method OnEnded(node: SourceNode)
      requires Valid()
      modifies this`sources, this`isSpeaking
      ensures Valid()
      ensures sources == old(sources) - {node}
      ensures isSpeaking == (old(isSpeaking) && sources != {})
      ensures !isSpeaking <==> (!old(isSpeaking) || sources == {})
    {
      sources := sources - {node};
      if |sources| == 0 {
        isSpeaking := false;
      }
    }

    /** onerror: record the connection-lost message, then tear down. */
    method OnError()
      requires Valid() && channelRequested
      modifies this`session, this`stream, this`processor, this`inputAudioContext, this`audioContext, this`releaseLog,
              this`sources, this`isConnected, this`isConnecting, this`isSpeaking, this`volume,
              this`error, sources
      ensures Valid() && TornDown() && error == Some(ConnectionLost)
      ensures releaseLog == old(releaseLog) + old(Releases())
      ensures messages == old(messages) && pending == old(pending) && nextStartTime == old(nextStartTime)
      ensures analyser == old(analyser) && channelRequested == old(channelRequested)
      ensures forall s :: s in old(sources) ==> s.stopped
    {
      error := Some(ConnectionLost);
      Disconnect();
    }

    /** onclose: tear down, leaving the error slot as it is. */
    method OnClose()
      requires Valid() && channelRequested
      modifies this`session, this`stream, this`processor, this`inputAudioContext, this`audioContext, this`releaseLog,
              this`sources, this`isConnected, this`isConnecting, this`isSpeaking, this`volume,
              sources
      ensures Valid() && TornDown() && error == old(error)
      ensures releaseLog == old(releaseLog) + old(Releases())
      ensures messages == old(messages) && pending == old(pending) && nextStartTime == old(nextStartTime)
      ensures analyser == old(analyser) && channelRequested == old(channelRequested)
      ensures forall s :: s in old(sources) ==> s.stopped
    {
      Disconnect();
    }
  }

  /** Two disconnects in a row leave the same state as one, and release nothing the second time. */
  method DisconnectTwice(e: Engine)
    requires e.Valid()
    modifies e, e.sources
    ensures e.Valid() && e.TornDown()
    ensures e.releaseLog == old(e.releaseLog) + old(e.Releases())
  {
    e.Disconnect();
    ghost var once := e.releaseLog;
    e.Disconnect();
    assert e.releaseLog == once;
  }

  /** A run of audio chunks with no interrupt between them is scheduled exactly as Starts and Cursor say. */
  method EnqueueSeries(e: Engine, chunks: seq<Chunk>) returns (nodes: seq<SourceNode>)
    requires e.Valid() && NonNegative(chunks)
    modifies e
    ensures e.Valid() && |nodes| == |chunks|
    ensures forall k :: 0 <= k < |nodes| ==> nodes[k].startTime == Starts(old(e.nextStartTime), chunks)[k]
    ensures forall k :: 0 <= k < |nodes| ==> nodes[k].duration == chunks[k].duration
    ensures e.nextStartTime == Cursor(old(e.nextStartTime), chunks)
  {
    ghost var cursor := e.nextStartTime;
    nodes := [];
    var i := 0;
    while i < |chunks|
      invariant 0 <= i <= |chunks| && e.Valid() && |nodes| == i
      invariant forall k :: 0 <= k < i ==> nodes[k].startTime == Starts(cursor, chunks[..i])[k]
      invariant forall k :: 0 <= k < i ==> nodes[k].duration == chunks[k].duration
      invariant e.nextStartTime == Cursor(cursor, chunks[..i])
    {
      StartsSnoc(cursor, chunks[..i], chunks[i]);
      assert chunks[..i + 1] == chunks[..i] + [chunks[i]];
      var n := e.Enqueue(chunks[i].duration, chunks[i].now);
      nodes := nodes + [n];
      i := i + 1;
    }
    assert chunks[..i] == chunks;
  }

  /**
   * Disconnect leaves the timeline cursor where it was, so after a reconnect the
   * first chunk is scheduled at the old cursor whenever that is still ahead of the clock.
   */
  method ReconnectKeepsCursor(e: Engine, key: string, outputCtx: Handle, inputCtx: Handle, analyserNode: Handle,
                              mic: Handle, channel: Handle, processorNode: Handle, now: real, duration: real,
                              outStamp: Stamp, inStamp: Stamp)
    returns (node: Option<SourceNode>)
    requires e.Valid() && !ApiKeyMissing(Some(key)) && now >= 0.0 && duration >= 0.0
    modifies e, e.sources
    ensures e.Valid() && e.isConnected && node.Some?
    ensures node.value.startTime == StartTime(old(e.nextStartTime), now)
    ensures old(e.nextStartTime) >= now ==> node.value.startTime == old(e.nextStartTime)
  {
    e.Disconnect();
    e.Connect(true, Some(key), outputCtx, inputCtx, analyserNode);
    e.MicrophoneResolved(Ok(mic));
    e.SessionResolved(Ok(channel));
    e.OnOpen(processorNode);
    var msg := ServerMessage(None, None, false, Some(duration), false);
    node := e.OnMessage(msg, now, outStamp, inStamp);
  }
}

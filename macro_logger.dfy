/** The voice logger component (frontend/src/components/MacroLogger.jsx): its
    React state flags become fields of a `VoiceLogger` object, the recorder's
    chunk buffer a sequence field, and every browser callback (`ondataavailable`,
    `onstop`, the FileReader's `onload`, the outcome of `getUserMedia`) an
    explicit method call with the callback's input as a parameter. */
module MacroLogger {
  import opened Nutrition

  newtype byte = x: int | 0 <= x < 256

  /** The payload of one `dataavailable` event; its `size` is its length. */
  type Chunk = seq<byte>

  datatype Blob = Blob(bytes: seq<byte>, mimeType: string)

  const AudioMimeType := "audio/webm;codecs=opus"
  const PermissionDeniedMessage := "Microphone permission denied. Please allow microphone access to use voice logging."
  const StartFailedPrefix := "Failed to start recording: "
  const ProcessFailedPrefix := "Failed to process audio: "

  /** `new Blob(chunks)`: the chunks' bytes one after the other. */
  function Flatten(chunks: seq<Chunk>): (bytes: seq<byte>)
    ensures |bytes| == 0 <==> forall i :: 0 <= i < |chunks| ==> |chunks[i]| == 0
  {
    if chunks == [] then [] else Flatten(chunks[..|chunks| - 1]) + chunks[|chunks| - 1]
  }

  /** The buffer after a run of `dataavailable` events on an empty buffer:
      the non-empty payloads in arrival order. */
  function KeptChunks(arrivals: seq<Chunk>): (kept: seq<Chunk>)
    ensures |kept| <= |arrivals|
    ensures forall c :: c in kept ==> |c| > 0 && c in arrivals
  {
    if arrivals == [] then []
    else
      var last := arrivals[|arrivals| - 1];
      KeptChunks(arrivals[..|arrivals| - 1]) + (if |last| > 0 then [last] else [])
  }

  lemma {:induction false} FlattenAppend(a: seq<Chunk>, b: seq<Chunk>)
    ensures Flatten(a + b) == Flatten(a) + Flatten(b)
  {
    if b == [] {
      assert a + b == a;
    } else {
      var ab := a + b;
      var bInit := b[..|b| - 1];
      assert ab[..|ab| - 1] == a + bInit && ab[|ab| - 1] == b[|b| - 1];
      FlattenAppend(a, bInit);
      calc {
        Flatten(ab);
        Flatten(a + bInit) + b[|b| - 1];
        Flatten(a) + Flatten(bInit) + b[|b| - 1];
        Flatten(a) + Flatten(b);
      }
    }
  }

  /** Dropping the empty payloads loses no audio: the recorded bytes are all
      arrivals' bytes in arrival order. */
  lemma {:induction false} KeptChunksLoseNoAudio(arrivals: seq<Chunk>)
    ensures Flatten(KeptChunks(arrivals)) == Flatten(arrivals)
  {
    if arrivals != [] {
      var init := arrivals[..|arrivals| - 1];
      var last := arrivals[|arrivals| - 1];
      KeptChunksLoseNoAudio(init);
      FlattenAppend(KeptChunks(init), if |last| > 0 then [last] else []);
      assert Flatten([last]) == last by {
        assert [last][..0] == [];
      }
    }
  }

  /** A hardware track of a media stream. */
  class Track {
    var live: bool

    constructor ()
      ensures live
    {
      live := true;
    }

    /** `track.stop()`. */
    method Stop()
      modifies this
      ensures !live
    {
      live := false;
    }
  }

  /** A `MediaStream` from `getUserMedia`: a fixed list of tracks. */
  class MediaStream {
    const tracks: seq<Track>

    constructor (tracks: seq<Track>)
      ensures this.tracks == tracks
    {
      this.tracks := tracks;
    }

    function TrackSet(): set<Track>
    {
      set t | t in tracks
    }

    /** No track of the stream holds the microphone any more. */
    predicate Released()
      reads TrackSet()
    {
      forall t :: t in tracks ==> !t.live
    }

    /** `stream.getTracks().forEach(track => track.stop())`. */
    method StopTracks()
      modifies TrackSet()
      ensures Released()
    {
      for i := 0 to |tracks|
        invariant forall j :: 0 <= j < i ==> !tracks[j].live
      {
        tracks[i].Stop();
      }
    }
  }

  /** `mediaRecorderRef.current` once set: a recorder over `stream`, which its
      `onstop` handler releases. */
  datatype Recorder = Recorder(stream: MediaStream)

  /** What the FileReader's `onload` handler gets from the network: a 2xx
      response with its JSON, a non-2xx response, or a rejected fetch or JSON
      parse. */
  datatype FetchOutcome = Delivered(transcribedText: string, macroData: MacroData) | NotOk | Thrown(reason: string)

  /** How a button is rendered. */
  datatype Button = Hidden | Disabled | Enabled

  /** The controls the component renders. */
  datatype Controls = Controls(requestPermission: bool, start: Button, stop: Button, process: Button, clear: Button)

  /** The render's conditions: without permission only the permission button;
      otherwise Start (disabled while processing) or Stop, and Process and Clear
      (both disabled while processing) once there is audio and no recording. */
  function ControlsFor(hasPermission: bool, isRecording: bool, isProcessing: bool, hasAudio: bool): (c: Controls)
    ensures c.requestPermission <==> !hasPermission
    ensures c.start != Hidden <==> hasPermission && !isRecording
    ensures c.stop != Hidden <==> hasPermission && isRecording
    ensures c.process != Hidden <==> hasPermission && hasAudio && !isRecording
    ensures c.process == c.clear
    ensures c.start == Disabled <==> c.start != Hidden && isProcessing
    ensures c.process == Disabled <==> c.process != Hidden && isProcessing
    ensures c.stop != Disabled
  {
    if !hasPermission then Controls(true, Hidden, Hidden, Hidden, Hidden)
    else
      var audioButton := if hasAudio && !isRecording then (if isProcessing then Disabled else Enabled) else Hidden;
      Controls(false,
               if isRecording then Hidden else if isProcessing then Disabled else Enabled,
               if isRecording then Enabled else Hidden,
               audioButton, audioButton)
  }

  /** Start and Stop are never offered together, and Process is never offered
      while recording. */
  lemma ControlsExclusive(hasPermission: bool, isRecording: bool, isProcessing: bool, hasAudio: bool)
    ensures var c := ControlsFor(hasPermission, isRecording, isProcessing, hasAudio);
            !(c.start != Hidden && c.stop != Hidden) && !(c.process != Hidden && c.stop != Hidden)
  {
  }

  class VoiceLogger {
    var isRecording: bool
    var isProcessing: bool
    var audioBlob: Option<Blob>
    var transcribedText: string
    var macroData: Option<MacroData>
    var error: string
    var hasPermission: bool
    /** `mediaRecorderRef.current`. */
    var recorder: Option<Recorder>
    /** The recorder's state is "recording". */
    var recorderActive: bool
    /** `audioChunksRef.current`. */
    var audioChunks: seq<Chunk>
    /** Blobs handed to a FileReader whose `onload` has not run yet. */
    var pendingReads: multiset<Blob>
    /** Recorders that were stopped and whose `onstop` has not run yet; each
        handler releases the stream it captured when its recorder was made. */
    var pendingStops: multiset<Recorder>

    /** What holds between events: the buffer holds no empty chunk, the flag
        `isRecording` mirrors the recorder's state, and `isProcessing` is false,
        because `processAudio` clears it in `finally` before any `onload` runs. */
    ghost predicate Valid()
      reads this
    {
      !isProcessing &&
      (forall c :: c in audioChunks ==> |c| > 0) &&
      (isRecording <==> recorder.Some? && recorderActive)
    }

    /** The initial `useState` values. */
    constructor ()
      ensures Valid()
      ensures !isRecording && !isProcessing && audioBlob.None? && transcribedText == "" && macroData.None?
      ensures error == "" && !hasPermission && recorder.None? && !recorderActive && audioChunks == []
      ensures pendingReads == multiset{} && pendingStops == multiset{}
    {
      isRecording, isProcessing := false, false;
      audioBlob, transcribedText, macroData := None, "", None;
      error, hasPermission := "", false;
      recorder, recorderActive, audioChunks := None, false, [];
      pendingReads := multiset{};
      pendingStops := multiset{};
    }

    /** The controls rendered in the current state. */
    function ShownControls(): Controls
      reads this
    {
      ControlsFor(hasPermission, isRecording, isProcessing, audioBlob.Some?)
    }

    /** `checkMicrophonePermission`, resumed with the outcome of the probe
        `getUserMedia({audio: true})`: a stream, or `None` when it was refused. */
    method CheckMicrophonePermission(probe: Option<MediaStream>)
      requires Valid()
      modifies this`hasPermission, this`error, if probe.Some? then probe.value.TrackSet() else {}
      ensures Valid()
      ensures probe.Some? ==> hasPermission && error == old(error) && probe.value.Released()
      ensures probe.None? ==> !hasPermission && error == PermissionDeniedMessage
    {
      match probe {
        case Some(stream) =>
          hasPermission := true;
          stream.StopTracks();
        case None =>
          error := PermissionDeniedMessage;
          hasPermission := false;
      }
    }

    /** `startRecording`, resumed with the outcome of `getUserMedia`;
        `recorderFailure` and `startFailure` are what `new MediaRecorder(...)` and
        `start(1000)` throw, if anything.  Only reachable from the Start button,
        which is rendered only while not recording. */
    method StartRecording(acquired: Result<MediaStream>, recorderFailure: Option<string>, startFailure: Option<string>)
      requires Valid() && !isRecording
      modifies this`error, this`recorder, this`audioChunks, this`recorderActive, this`isRecording
      ensures Valid()
      ensures acquired.Failure? ==>
        error == StartFailedPrefix + acquired.message &&
        recorder == old(recorder) && audioChunks == old(audioChunks) && !isRecording
      ensures acquired.Success? && recorderFailure.Some? ==>
        error == StartFailedPrefix + recorderFailure.value &&
        recorder == old(recorder) && audioChunks == old(audioChunks) && !isRecording
      ensures acquired.Success? && recorderFailure.None? ==>
        recorder == Some(Recorder(acquired.value)) && audioChunks == [] &&
        (startFailure.Some? ==> error == StartFailedPrefix + startFailure.value && !isRecording) &&
        (startFailure.None? ==> error == "" && isRecording)
    {
      error := "";
      match acquired {
        case Failure(reason) =>
          error := StartFailedPrefix + reason;
        case Success(stream) =>
          if recorderFailure.Some? {
            error := StartFailedPrefix + recorderFailure.value;
            return;
          }
          recorder := Some(Recorder(stream));
          recorderActive := false;
          audioChunks := [];
          if startFailure.Some? {
            error := StartFailedPrefix + startFailure.value;
            return;
          }
          recorderActive := true;
          isRecording := true;
      }
    }

    /** `ondataavailable`: keep the payload only if it is not empty. */
    method OnDataAvailable(chunk: Chunk)
      requires Valid()
      modifies this`audioChunks
      ensures Valid()
      ensures audioChunks == if |chunk| > 0 then old(audioChunks) + [chunk] else old(audioChunks)
    {
      if |chunk| > 0 {
        audioChunks := audioChunks + [chunk];
      }
    }

    /** `stopRecording`: acts only when a recorder exists and the flag says
        recording; the recorder's `onstop` runs later, as `OnStop`. */
    method StopRecording()
      requires Valid()
      modifies this`recorderActive, this`isRecording, this`pendingStops
      ensures Valid()
      ensures !isRecording
      ensures old(recorder.Some? && isRecording) ==> pendingStops == old(pendingStops) + multiset{recorder.value}
      ensures !old(recorder.Some? && isRecording) ==>
        recorderActive == old(recorderActive) && isRecording == old(isRecording) && pendingStops == old(pendingStops)
    {
      if recorder.Some? && isRecording {
        recorderActive := false;
        isRecording := false;
        pendingStops := pendingStops + multiset{recorder.value};
      }
    }

    /** The `onstop` of the stopped recorder `stopped`: the chunks now in the
        buffer ref become the audio blob, and the stream that handler captured
        is released, whichever recorder is current by then. */
    method OnStop(stopped: Recorder)
      requires Valid() && stopped in pendingStops
      modifies this`audioBlob, this`pendingStops, stopped.stream.TrackSet()
      ensures Valid()
      ensures pendingStops == old(pendingStops) - multiset{stopped}
      ensures audioBlob == Some(Blob(Flatten(audioChunks), AudioMimeType))
      ensures stopped.stream.Released()
    {
      pendingStops := pendingStops - multiset{stopped};
      audioBlob := Some(Blob(Flatten(audioChunks), AudioMimeType));
      stopped.stream.StopTracks();
    }

    /** `processAudio`.  Without a blob nothing happens.  Otherwise the error is
        cleared and a FileReader starts reading the blob; `isProcessing` is set and
        then cleared again by `finally` as soon as the `onload` handler is
        registered, so it is false when the call returns.  `readFailure` is what
        the reader throws synchronously, if anything. */
    method ProcessAudio(readFailure: Option<string>)
      requires Valid()
      modifies this`isProcessing, this`error, this`pendingReads
      ensures Valid()
      ensures audioBlob.None? ==> error == old(error) && pendingReads == old(pendingReads)
      ensures audioBlob.Some? && readFailure.None? ==>
        error == "" && pendingReads == old(pendingReads) + multiset{audioBlob.value}
      ensures audioBlob.Some? && readFailure.Some? ==>
        error == ProcessFailedPrefix + readFailure.value && pendingReads == old(pendingReads)
    {
      if audioBlob.None? {
        return;
      }
      isProcessing := true;
      error := "";
      if readFailure.Some? {
        error := ProcessFailedPrefix + readFailure.value;
      } else {
        pendingReads := pendingReads + multiset{audioBlob.value};
      }
      isProcessing := false;
    }

    /** The FileReader's `onload` for `blob`, resumed with the outcome of the
        request.  A delivered result overwrites the transcription and the
        analysis whatever happened since (there is no check that the blob is
        still current); a failure throws out of the handler, which nothing
        catches, so no state changes. */
    method OnLoad(blob: Blob, outcome: FetchOutcome)
      requires Valid() && blob in pendingReads
      modifies this`pendingReads, this`transcribedText, this`macroData
      ensures Valid()
      ensures pendingReads == old(pendingReads) - multiset{blob}
      ensures outcome.Delivered? ==> transcribedText == outcome.transcribedText && macroData == Some(outcome.macroData)
      ensures !outcome.Delivered? ==> transcribedText == old(transcribedText) && macroData == old(macroData)
    {
      pendingReads := pendingReads - multiset{blob};
      if outcome.Delivered? {
        transcribedText := outcome.transcribedText;
        macroData := Some(outcome.macroData);
      }
    }

    /** `clearRecording`: forget the audio, the results and the error; the chunk
        buffer, the recorder and any pending read stay as they are. */
    method ClearRecording()
      requires Valid()
      modifies this`audioBlob, this`transcribedText, this`macroData, this`error
      ensures Valid()
      ensures audioBlob.None? && transcribedText == "" && macroData.None? && error == ""
    {
      audioBlob := None;
      transcribedText := "";
      macroData := None;
      error := "";
    }
  }

  /** Between events no button is ever rendered disabled: the disabling
      conditions all test `isProcessing`, which is false in every state. */
  lemma NothingDisabledBetweenEvents(s: VoiceLogger)
    requires s.Valid()
    ensures s.ShownControls().start != Disabled && s.ShownControls().process != Disabled
    ensures s.ShownControls().clear != Disabled
  {
  }

  /** Permission refused, then granted on the retry: the probe's microphone is
      released and the recording controls appear. */
  method PermissionScenario()
  {
    var session := new VoiceLogger();
    session.CheckMicrophonePermission(None);
    assert session.error == PermissionDeniedMessage && session.ShownControls().requestPermission;
    var probeTrack := new Track();
    var probe := new MediaStream([probeTrack]);
    session.CheckMicrophonePermission(Some(probe));
    assert !probeTrack.live && session.ShownControls().start == Enabled;
  }

  /** Record four payloads with an empty one among them: the buffer keeps the
      non-empty ones in arrival order. */
  method CaptureScenario(session: VoiceLogger)
    requires session.Valid() && session.hasPermission && !session.isRecording
    modifies session
  {
    var track := new Track();
    var stream := new MediaStream([track]);
    session.StartRecording(Success(stream), None, None);
    assert session.isRecording && session.ShownControls().stop == Enabled;
    session.OnDataAvailable([97]);
    session.OnDataAvailable([]);
    session.OnDataAvailable([98]);
    session.OnDataAvailable([99]);
    assert session.audioChunks == [[97], [98], [99]];
  }

  /** Stop a recording: the blob holds the buffered bytes in order, the
      microphone is released, and Process is offered. */
  method StopScenario(session: VoiceLogger, stream: MediaStream, track: Track)
    requires session.Valid() && session.hasPermission && session.isRecording
    requires session.recorder == Some(Recorder(stream)) && stream.tracks == [track]
    requires session.audioChunks == [[97], [98], [99]]
    modifies session, track
  {
    assert Flatten([[97], [98], [99]]) == [97, 98, 99] by {
      var cs: seq<Chunk> := [[97], [98], [99]];
      assert cs[..2] == [[97], [98]] && cs[..2][..1] == [[97]] && cs[..2][..1][..0] == [];
      assert Flatten([[97]]) == [97];
      assert Flatten([[97], [98]]) == [97] + [98] == [97, 98];
      assert Flatten(cs) == [97, 98] + [99];
    }
    session.StopRecording();
    session.OnStop(Recorder(stream));
    assert session.audioBlob == Some(Blob([97, 98, 99], AudioMimeType));
    assert !track.live;
    assert session.ShownControls().process == Enabled;
  }

  /** One more arrival extends the kept chunks by that arrival, if it is not empty. */
  lemma KeptChunksStep(arrivals: seq<Chunk>, i: nat)
    requires i < |arrivals|
    ensures KeptChunks(arrivals[..i + 1]) == KeptChunks(arrivals[..i]) + (if |arrivals[i]| > 0 then [arrivals[i]] else [])
  {
    assert arrivals[..i + 1][..i] == arrivals[..i];
  }

  /** A run of `dataavailable` events on an empty buffer leaves exactly the
      kept chunks of the run in the buffer. */
  method ReceiveChunks(session: VoiceLogger, arrivals: seq<Chunk>)
    requires session.Valid() && session.audioChunks == []
    modifies session`audioChunks
    ensures session.Valid()
    ensures session.audioChunks == KeptChunks(arrivals)
  {
    for i := 0 to |arrivals|
      invariant session.Valid()
      invariant session.audioChunks == KeptChunks(arrivals[..i])
    {
      KeptChunksStep(arrivals, i);
      session.OnDataAvailable(arrivals[i]);
    }
    assert arrivals[..|arrivals|] == arrivals;
  }

  /** A whole recording: start on `stream`, receive `arrivals` one
      `dataavailable` event at a time, stop, and let `onstop` run.  The blob
      holds every arrival's bytes in arrival order, empty payloads included
      (they carry none), and the microphone is released. */
  method RecordSession(session: VoiceLogger, stream: MediaStream, arrivals: seq<Chunk>)
    requires session.Valid() && !session.isRecording
    modifies session, stream.TrackSet()
    ensures session.Valid() && !session.isRecording
    ensures session.audioChunks == KeptChunks(arrivals)
    ensures session.audioBlob == Some(Blob(Flatten(arrivals), AudioMimeType))
    ensures stream.Released()
  {
    session.StartRecording(Success(stream), None, None);
    ReceiveChunks(session, arrivals);
    session.StopRecording();
    session.OnStop(Recorder(stream));
    KeptChunksLoseNoAudio(arrivals);
  }

  /** A new recording started before the previous recorder's `onstop` ran: that
      late handler releases only its own stream, and the new recording goes on. */
  method LateStopScenario(session: VoiceLogger)
    requires session.Valid() && !session.isRecording
    modifies session
  {
    var first := new Track();
    var firstStream := new MediaStream([first]);
    session.StartRecording(Success(firstStream), None, None);
    session.StopRecording();
    var second := new Track();
    var secondStream := new MediaStream([second]);
    session.StartRecording(Success(secondStream), None, None);
    session.OnStop(Recorder(firstStream));
    assert !first.live && second.live && session.isRecording;
  }

  /** A response that arrives after Clear still fills in the results. */
  method LateResponseScenario(session: VoiceLogger, result: MacroData)
    requires session.Valid() && session.audioBlob.Some?
    modifies session
  {
    var blob := session.audioBlob.value;
    session.ProcessAudio(None);
    session.ClearRecording();
    assert session.macroData.None? && session.audioBlob.None?;
    session.OnLoad(blob, Delivered("two eggs", result));
    assert session.macroData == Some(result) && session.audioBlob.None?;
  }
}

/** The older single-window component (App.tsx): the same recorder and
    message-list handlers as the synced window, with no sync bus. */
module LegacyApp {
  import opened Types
  import opened Transcript
  import opened AudioChunks
  import opened Recording

  class Recorder {
    var messages: seq<Message>
    var isRecording: bool
    /** `mediaRecorderRef.current !== null`. */
    var hasRecorder: bool
    /** `chunksRef.current`. */
    var chunks: seq<Chunk>

    /** Every chunk delivered by the recorder since the last start. */
    ghost var delivered: seq<Chunk>

    /** The buffer holds exactly the non-empty delivered chunks. */
    ghost predicate Valid()
      reads this
    {
      chunks == Kept(delivered)
    }

    constructor ()
      ensures Valid()
      ensures messages == [] && !isRecording && !hasRecorder && chunks == []
    {
      messages, isRecording, hasRecorder, chunks := [], false, false, [];
      delivered := [];
    }

    /** startRecording (App.tsx:16-46); `outcome` says how far the `try`
        block got. Once the recorder exists its ref is set and the buffer
        emptied; the flag is set only when `start()` returned. */
    method StartRecording(outcome: Acquisition)
      requires Valid()
      modifies this
      ensures Valid()
      ensures outcome.RecorderCreated() ==> hasRecorder && chunks == []
      ensures isRecording == (old(isRecording) || outcome.Started?)
      ensures !outcome.RecorderCreated() ==> hasRecorder == old(hasRecorder) && chunks == old(chunks)
      ensures messages == old(messages)
    {
      if outcome.RecorderCreated() {
        hasRecorder := true;
        chunks := [];
        delivered := [];
        if outcome.Started? {
          isRecording := true;
        }
      }
    }

    /** The recorder's `ondataavailable` (App.tsx:25-29). */
    method OnDataAvailable(c: Chunk)
      requires Valid()
      modifies this`chunks, this`delivered
      ensures Valid()
      ensures chunks == if c.size > 0 then old(chunks) + [c] else old(chunks)
      ensures forall i :: 0 <= i < |chunks| ==> chunks[i].size > 0
    {
      KeptSnoc(delivered, c);
      delivered := delivered + [c];
      if c.size > 0 {
        chunks := chunks + [c];
      }
    }

    /** stopRecording (App.tsx:48-53). */
    method StopRecording() returns (stopped: bool)
      requires Valid()
      modifies this`isRecording
      ensures Valid()
      ensures stopped == (hasRecorder && old(isRecording))
      ensures isRecording == (old(isRecording) && !stopped)
    {
      stopped := hasRecorder && isRecording;
      if stopped {
        isRecording := false;
      }
    }

    /** The recorder's `onstop` and the first half of processAudio
        (App.tsx:31-33, 67-77). */
    method OnRecorderStop(id: string, timestamp: int) returns (audio: AudioBlob)
      requires Valid()
      modifies this`messages
      ensures Valid()
      ensures audio == AudioBlob(chunks, RecordingMimeType)
      ensures messages == StartTranscript(old(messages), id, timestamp)
    {
      audio := AudioBlob(chunks, RecordingMimeType);
      messages := StartTranscript(messages, id, timestamp);
    }

    /** The second half of processAudio (App.tsx:79-94). */
    method OnTranscribed(id: string, outcome: Outcome)
      requires Valid()
      modifies this`messages
      ensures Valid()
      ensures outcome.Success? ==> messages == ApplySuccess(old(messages), id, outcome.result)
      ensures outcome.Failure? ==> messages == ApplyFailure(old(messages), id, outcome.reason)
      ensures Pending(messages) <= Pending(old(messages))
    {
      messages := Settle(messages, id, outcome);
    }

    /** clearHistory (App.tsx:97-101): `confirmed` is the answer of the
        browser's `confirm`. */
    method ClearHistory(confirmed: bool)
      requires Valid()
      modifies this`messages
      ensures Valid()
      ensures messages == if confirmed then [] else old(messages)
    {
      if confirmed {
        messages := [];
      }
    }
  }

  /** The scenario of a recording whose transcription succeeds: the list
      holds one settled message with the service's texts. */
  method RecordAndTranscribe(verbatim: string, concise: string) returns (last: Message)
    ensures !last.isProcessing && last.verbatim == verbatim && last.concise == concise
    ensures last.error == None
  {
    var app := new Recorder();
    app.StartRecording(Started);
    assert app.chunks == [] && app.messages == [];
    app.OnDataAvailable(Chunk(0));
    app.OnDataAvailable(Chunk(42));
    assert app.chunks == [Chunk(42)];
    var stopped := app.StopRecording();
    var audio := app.OnRecorderStop("k3x9", 1700000000000);
    assert audio.parts == [Chunk(42)];
    app.OnTranscribed("k3x9", Success(TranscriptionResult(verbatim, Some(concise))));
    assert |app.messages| == 1 && app.messages[0].id == "k3x9";
    last := app.messages[0];
  }

  /** The scenario of a failing transcription: the message records the
      service's error and keeps its empty texts. */
  method RecordAndFail(reason: string) returns (last: Message)
    requires reason != ""
    ensures !last.isProcessing && last.error == Some(reason) && last.verbatim == ""
  {
    var app := new Recorder();
    app.StartRecording(Started);
    var stopped := app.StopRecording();
    var audio := app.OnRecorderStop("q7", 0);
    app.OnTranscribed("q7", Failure(Some(reason)));
    assert |app.messages| == 1 && app.messages[0].id == "q7";
    last := app.messages[0];
  }
}

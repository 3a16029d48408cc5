/** The front-end component of src/App.tsx as one window's state: the
    replicated session fields (message list, recording flag, concise flag),
    the recorder handle and its chunk buffer, and the events this window has
    published on the sync bus. Each handler is one atomic step. */
module Session {
  import opened Types
  import opened Transcript
  import opened SyncBus
  import opened AudioChunks
  import opened Recording

  class Window {
    var messages: seq<Message>
    var isRecording: bool
    var isConcise: bool
    /** `mediaRecorderRef.current !== null`; set once `new MediaRecorder`
        succeeded (`outcome.RecorderCreated()`). */
    var hasRecorder: bool
    /** `chunksRef.current`. */
    var chunks: seq<Chunk>
    /** Every payload this window emitted, oldest first. */
    var published: seq<SyncEvent>

    /** Every snapshot this window applied, its own and received ones. */
    ghost var log: seq<SyncEvent>
    /** Every chunk delivered by the recorder since the last start. */
    ghost var delivered: seq<Chunk>

    function View(): Replica
      reads this
    {
      Replica(messages, isRecording, isConcise)
    }

    /** The replica is exactly the fold of the snapshots applied so far, and
        the buffer holds exactly the non-empty delivered chunks. */
    ghost predicate Valid()
      reads this
    {
      && View() == ApplyAll(Initial, log)
      && chunks == Kept(delivered)
    }

    constructor ()
      ensures Valid()
      ensures View() == Initial && !hasRecorder && chunks == [] && published == []
    {
      messages, isRecording, isConcise := [], false, false;
      hasRecorder, chunks, published := false, [], [];
      log, delivered := [], [];
    }

    /** Record a local change `e` that has already been applied. */
    method Publish(e: SyncEvent)
      requires View() == Apply(ApplyAll(Initial, log), e)
      modifies this`published, this`log
      ensures published == old(published) + [e]
      ensures log == old(log) + [e]
      ensures View() == ApplyAll(Initial, log)
    {
      ApplyAllSnoc(Initial, log, e);
      published := published + [e];
      log := log + [e];
    }

    /** toggleConcise (src/App.tsx:58-62). */
    method ToggleConcise()
      requires Valid()
      modifies this
      ensures Valid()
      ensures isConcise == !old(isConcise)
      ensures messages == old(messages) && isRecording == old(isRecording)
      ensures hasRecorder == old(hasRecorder) && chunks == old(chunks)
      ensures published == old(published) + [SyncConcise(isConcise)]
    {
      isConcise := !isConcise;
      Publish(SyncConcise(isConcise));
    }

    /** startRecording (src/App.tsx:64-95); `outcome` says how far the
        `try` block got. Once the recorder exists its ref is set and the
        buffer emptied; the flag is set and published only when `start()`
        returned. A refused device or recorder changes nothing. */
    method StartRecording(outcome: Acquisition)
      requires Valid()
      modifies this
      ensures Valid()
      ensures outcome.RecorderCreated() ==> hasRecorder && chunks == []
      ensures outcome.Started? ==> isRecording && published == old(published) + [SyncRecording(true)]
      ensures !outcome.Started? ==> View() == old(View()) && published == old(published)
      ensures !outcome.RecorderCreated() ==> hasRecorder == old(hasRecorder) && chunks == old(chunks)
      ensures messages == old(messages) && isConcise == old(isConcise)
    {
      if outcome.RecorderCreated() {
        hasRecorder := true;
        chunks := [];
        delivered := [];
        if outcome.Started? {
          isRecording := true;
          Publish(SyncRecording(true));
        }
      }
    }

    /** The recorder's `ondataavailable` (src/App.tsx:73-77). */
    method OnDataAvailable(c: Chunk)
      requires Valid()
      modifies this`chunks, this`delivered
      ensures Valid()
      ensures chunks == if c.size > 0 then old(chunks) + [c] else old(chunks)
    {
      KeptSnoc(delivered, c);
      delivered := delivered + [c];
      if c.size > 0 {
        chunks := chunks + [c];
      }
    }

    /** stopRecording (src/App.tsx:97-103): acts only when a recorder exists
        and the recording flag is set. */
    method StopRecording() returns (stopped: bool)
      requires Valid()
      modifies this
      ensures Valid()
      ensures stopped == (old(hasRecorder) && old(isRecording))
      ensures stopped ==> !isRecording && published == old(published) + [SyncRecording(false)]
      ensures !stopped ==> isRecording == old(isRecording) && published == old(published)
      ensures messages == old(messages) && isConcise == old(isConcise)
      ensures hasRecorder == old(hasRecorder) && chunks == old(chunks)
    {
      stopped := hasRecorder && isRecording;
      if stopped {
        isRecording := false;
        Publish(SyncRecording(false));
      }
    }

    /** The recorder's `onstop` and the first half of processAudio
        (src/App.tsx:79-81, 117-131): the buffered chunks become the audio
        blob, and a placeholder with the fresh id heads the list. */
    method OnRecorderStop(id: string, timestamp: int) returns (audio: AudioBlob)
      requires Valid()
      modifies this
      ensures Valid()
      ensures audio == AudioBlob(old(chunks), RecordingMimeType)
      ensures messages == StartTranscript(old(messages), id, timestamp)
      ensures published == old(published) + [SyncMessages(messages)]
      ensures isRecording == old(isRecording) && isConcise == old(isConcise)
      ensures hasRecorder == old(hasRecorder) && chunks == old(chunks)
    {
      audio := AudioBlob(chunks, RecordingMimeType);
      messages := StartTranscript(messages, id, timestamp);
      Publish(SyncMessages(messages));
    }

    /** The second half of processAudio (src/App.tsx:133-156): the outcome
        settles every message with the id, and the new list is published. */
    method OnTranscribed(id: string, outcome: Outcome)
      requires Valid()
      modifies this
      ensures Valid()
      ensures outcome.Success? ==> messages == ApplySuccess(old(messages), id, outcome.result)
      ensures outcome.Failure? ==> messages == ApplyFailure(old(messages), id, outcome.reason)
      ensures Pending(messages) <= Pending(old(messages))
      ensures published == old(published) + [SyncMessages(messages)]
      ensures isRecording == old(isRecording) && isConcise == old(isConcise)
      ensures hasRecorder == old(hasRecorder) && chunks == old(chunks)
    {
      messages := Settle(messages, id, outcome);
      Publish(SyncMessages(messages));
    }

    /** updateTranscription (src/App.tsx:159-170): edits the text of the
        view that is active in this window. */
    method UpdateTranscription(id: string, text: string)
      requires Valid()
      modifies this
      ensures Valid()
      ensures messages == EditText(old(messages), id, text, old(isConcise))
      ensures published == old(published) + [SyncMessages(messages)]
      ensures isRecording == old(isRecording) && isConcise == old(isConcise)
      ensures hasRecorder == old(hasRecorder) && chunks == old(chunks)
    {
      messages := EditText(messages, id, text, isConcise);
      Publish(SyncMessages(messages));
    }

    /** clearHistory (src/App.tsx:183-201): `dialog` is the answer of the
        dialog plugin, or None when the plugin failed and the browser's
        `confirm` was asked instead, which answered `fallback`. */
    method ClearHistory(dialog: Option<bool>, fallback: bool) returns (cleared: bool)
      requires Valid()
      modifies this
      ensures Valid()
      ensures cleared == dialog.GetOr(fallback)
      ensures cleared ==> messages == [] && published == old(published) + [SyncMessages([])]
      ensures !cleared ==> messages == old(messages) && published == old(published)
      ensures isRecording == old(isRecording) && isConcise == old(isConcise)
      ensures hasRecorder == old(hasRecorder) && chunks == old(chunks)
    {
      cleared := dialog.GetOr(fallback);
      if cleared {
        messages := [];
        Publish(SyncMessages([]));
      }
    }

    /** The three `listen` handlers (src/App.tsx:25-35): the payload
        overwrites its field and nothing is re-published. */
    method Receive(e: SyncEvent)
      requires Valid()
      modifies this
      ensures Valid()
      ensures View() == Apply(old(View()), e)
      ensures published == old(published)
      ensures hasRecorder == old(hasRecorder) && chunks == old(chunks)
    {
      ApplyAllSnoc(Initial, log, e);
      var next := Apply(View(), e);
      messages, isRecording, isConcise := next.messages, next.isRecording, next.isConcise;
      log := log + [e];
    }
  }

  /** A window that has never recorded and learned of a recording only
      through the bus holds no recorder, so its stop action does nothing. */
  method StopInFollowerWindow() returns (stopped: bool)
    ensures !stopped
  {
    var follower := new Window();
    follower.Receive(SyncRecording(true));
    assert follower.isRecording;
    stopped := follower.StopRecording();
  }

  /** The recorder ref is never cleared, so a window that recorded earlier
      passes the stop guard once it receives another window's
      `sync-recording true`: it publishes `false`, and the recording window
      takes that value although it never called its own stop action: it
      still holds its recorder, which the model does not stop. */
  method StopFromEarlierRecorder() returns (stopped: bool, recordingHoldsRecorder: bool, flagInRecordingWindow: bool)
    ensures stopped && recordingHoldsRecorder && !flagInRecordingWindow
  {
    var recording := new Window();
    var other := new Window();
    other.StartRecording(Started);
    var _ := other.StopRecording();
    recording.StartRecording(Started);
    other.Receive(recording.published[|recording.published| - 1]);
    stopped := other.StopRecording();
    recording.Receive(other.published[|other.published| - 1]);
    recordingHoldsRecorder := recording.hasRecorder;
    flagInRecordingWindow := recording.isRecording;
  }

  /** Two windows exchanging a toggle: after the notch window receives the
      main window's snapshot, both show the same display mode. */
  method ToggleReachesOtherWindow() returns (same: bool)
    ensures same
  {
    var main := new Window();
    var notch := new Window();
    main.ToggleConcise();
    notch.Receive(main.published[|main.published| - 1]);
    same := main.isConcise == notch.isConcise;
  }
}

/** The cross-window sync protocol of the front end: each window keeps a
    local replica of the session (message list, recording flag, concise
    flag) and publishes a full snapshot of a field on its topic after every
    local change; a received snapshot overwrites the local field unchanged. */
module SyncBus {
  import opened Types

  const MessagesTopic: string := "sync-messages"
  const RecordingTopic: string := "sync-recording"
  const ConciseTopic: string := "sync-concise"

  /** One published payload; always a whole field, never a delta. */
  datatype SyncEvent =
    | SyncMessages(messages: seq<Message>)
    | SyncRecording(recording: bool)
    | SyncConcise(concise: bool)
  {
    function Topic(): string {
      match this
      case SyncMessages(_) => MessagesTopic
      case SyncRecording(_) => RecordingTopic
      case SyncConcise(_) => ConciseTopic
    }
  }

  /** A window's local copy of the session. */
  datatype Replica = Replica(messages: seq<Message>, isRecording: bool, isConcise: bool)

  /** Every window starts from the component's initial `useState` values. */
  const Initial: Replica := Replica([], false, false)

  /** The `listen` handlers: the payload replaces the field of its topic. */
  function Apply(r: Replica, e: SyncEvent): Replica {
    match e
    case SyncMessages(ms) => r.(messages := ms)
    case SyncRecording(b) => r.(isRecording := b)
    case SyncConcise(b) => r.(isConcise := b)
  }

  /** The replica after applying a sequence of events, oldest first. */
  function ApplyAll(r: Replica, es: seq<SyncEvent>): Replica
    decreases |es|
  {
    if es == [] then r else Apply(ApplyAll(r, es[..|es| - 1]), es[|es| - 1])
  }

  /** The payload of the most recent event on each topic, if any. */
  function LastMessages(es: seq<SyncEvent>): Option<seq<Message>>
    decreases |es|
  {
    if es == [] then None
    else if es[|es| - 1].SyncMessages? then Some(es[|es| - 1].messages)
    else LastMessages(es[..|es| - 1])
  }

  function LastRecording(es: seq<SyncEvent>): Option<bool>
    decreases |es|
  {
    if es == [] then None
    else if es[|es| - 1].SyncRecording? then Some(es[|es| - 1].recording)
    else LastRecording(es[..|es| - 1])
  }

  function LastConcise(es: seq<SyncEvent>): Option<bool>
    decreases |es|
  {
    if es == [] then None
    else if es[|es| - 1].SyncConcise? then Some(es[|es| - 1].concise)
    else LastConcise(es[..|es| - 1])
  }

  /** Applying one more event extends the fold by one step. */
  lemma ApplyAllSnoc(r: Replica, es: seq<SyncEvent>, e: SyncEvent)
    ensures ApplyAll(r, es + [e]) == Apply(ApplyAll(r, es), e)
  {
    assert (es + [e])[..|es|] == es;
  }

  /** A received snapshot sets its field to the payload whatever the field
      held before, and leaves the other two fields alone. */
  lemma ApplyOverwrites(r1: Replica, r2: Replica, e: SyncEvent)
    ensures e.SyncMessages? ==> Apply(r1, e).messages == Apply(r2, e).messages == e.messages
    ensures e.SyncRecording? ==> Apply(r1, e).isRecording == Apply(r2, e).isRecording == e.recording
    ensures e.SyncConcise? ==> Apply(r1, e).isConcise == Apply(r2, e).isConcise == e.concise
    ensures !e.SyncMessages? ==> Apply(r1, e).messages == r1.messages
    ensures !e.SyncRecording? ==> Apply(r1, e).isRecording == r1.isRecording
    ensures !e.SyncConcise? ==> Apply(r1, e).isConcise == r1.isConcise
  {
  }

  /** A later snapshot on the same topic hides the earlier one completely. */
  lemma SameTopicOverwrites(r: Replica, e1: SyncEvent, e2: SyncEvent)
    requires e1.Topic() == e2.Topic()
    ensures Apply(Apply(r, e1), e2) == Apply(r, e2)
  {
  }

  /** Snapshots on different topics touch different fields, so the order in
      which they arrive does not matter. */
  lemma DistinctTopicsCommute(r: Replica, e1: SyncEvent, e2: SyncEvent)
    requires e1.Topic() != e2.Topic()
    ensures Apply(Apply(r, e1), e2) == Apply(Apply(r, e2), e1)
  {
  }

  /** Receiving one's own snapshot back (an echo) changes nothing. */
  lemma ApplyIdempotent(r: Replica, e: SyncEvent)
    ensures Apply(Apply(r, e), e) == Apply(r, e)
  {
  }

  /** Last writer wins: after any sequence of events each field holds the
      payload of the latest event on its topic, or its old value when its
      topic never appeared. */
  lemma {:induction false} LastWriterWins(r: Replica, es: seq<SyncEvent>)
    ensures ApplyAll(r, es) == Replica(
      LastMessages(es).GetOr(r.messages),
      LastRecording(es).GetOr(r.isRecording),
      LastConcise(es).GetOr(r.isConcise))
    decreases |es|
  {
    if es != [] {
      LastWriterWins(r, es[..|es| - 1]);
    }
  }

  /** Convergence: two replicas, whatever their starting states, that apply
      the same events, with every topic among them, end up equal. */
  lemma {:induction false} Converge(r1: Replica, r2: Replica, es: seq<SyncEvent>)
    requires LastMessages(es).Some? && LastRecording(es).Some? && LastConcise(es).Some?
    ensures ApplyAll(r1, es) == ApplyAll(r2, es)
  {
    LastWriterWins(r1, es);
    LastWriterWins(r2, es);
  }
}

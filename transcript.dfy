/** The transcript list: a newest-first sequence of messages and the pure
    transforms both front-end components apply to it (a prepend and three
    `map`-by-id rewrites). Ids come from a random string and are not
    guaranteed unique, so every rewrite touches EVERY message carrying the id. */
module Transcript {
  import opened Types

  /** Error text used when a failure carries no (or an empty) message. */
  const FailureFallback: string := "Failed to transcribe audio."

  /** The abstract outcome of one transcription request. */
  datatype Outcome = Success(result: TranscriptionResult) | Failure(reason: Option<string>)

  /** The per-message rewrites performed by the `map` callbacks. */
  datatype Edit =
    | Complete(result: TranscriptionResult)
    | Fail(reason: Option<string>)
    | Retext(text: string, toConcise: bool)

  /** JavaScript's `s || ''` on an optional string. */
  function OrEmpty(s: Option<string>): string {
    if s.Some? then s.value else ""
  }

  /** JavaScript's `message || "Failed to transcribe audio."`. */
  function FailureText(reason: Option<string>): string {
    if reason.Some? && reason.value != "" then reason.value else FailureFallback
  }

  function ApplyEdit(m: Message, e: Edit): Message {
    match e
    case Complete(res) =>
      m.(verbatim := res.verbatim, concise := OrEmpty(res.concise), isProcessing := false)
    case Fail(reason) =>
      m.(isProcessing := false, error := Some(FailureText(reason)))
    case Retext(text, toConcise) =>
      if toConcise then m.(concise := text) else m.(verbatim := text)
  }

  predicate HasId(msgs: seq<Message>, id: string) {
    exists i :: 0 <= i < |msgs| && msgs[i].id == id
  }

  predicate UniqueIds(msgs: seq<Message>) {
    forall i, j :: 0 <= i < j < |msgs| ==> msgs[i].id != msgs[j].id
  }

  /** Number of messages still waiting for their transcription. */
  function Pending(msgs: seq<Message>): nat {
    if msgs == [] then 0
    else (if msgs[0].isProcessing then 1 else 0) + Pending(msgs[1..])
  }

  /** Some message with this id is still waiting for its transcription. */
  predicate AwaitsResult(msgs: seq<Message>, id: string) {
    exists i :: 0 <= i < |msgs| && msgs[i].id == id && msgs[i].isProcessing
  }

  /** `prev.map(msg => msg.id === id ? <edit>(msg) : msg)`: every message
      with the id is rewritten, every other one is kept; no message is added,
      dropped or moved, no id or timestamp changes, and no message goes back
      to processing. */
  function UpdateWhere(msgs: seq<Message>, id: string, e: Edit): (r: seq<Message>)
    ensures |r| == |msgs|
    ensures forall i :: 0 <= i < |msgs| ==>
      r[i] == if msgs[i].id == id then ApplyEdit(msgs[i], e) else msgs[i]
    ensures forall i :: 0 <= i < |msgs| ==>
      r[i].id == msgs[i].id && r[i].timestamp == msgs[i].timestamp
      && (r[i].isProcessing ==> msgs[i].isProcessing)
  {
    if msgs == [] then []
    else
      var rest := UpdateWhere(msgs[1..], id, e);
      var r := [if msgs[0].id == id then ApplyEdit(msgs[0], e) else msgs[0]] + rest;
      assert forall i :: 1 <= i < |r| ==> r[i] == rest[i - 1];
      r
  }

  /** The rewrite is the identity when no message has the id, and it keeps
      ids unique. */
  lemma UpdateWhereFrame(msgs: seq<Message>, id: string, e: Edit)
    ensures !HasId(msgs, id) ==> UpdateWhere(msgs, id, e) == msgs
    ensures UniqueIds(msgs) ==> UniqueIds(UpdateWhere(msgs, id, e))
  {
    var r := UpdateWhere(msgs, id, e);
    if !HasId(msgs, id) {
      assert forall i :: 0 <= i < |msgs| ==> r[i] == msgs[i];
    }
  }

  /** `[newMessage, ...prev]` with a fresh placeholder at the head. */
  function StartTranscript(msgs: seq<Message>, id: string, timestamp: int): (r: seq<Message>)
    ensures |r| == |msgs| + 1 && r[1..] == msgs
    ensures r[0].id == id && r[0].timestamp == timestamp
    ensures r[0].verbatim == "" && r[0].concise == "" && r[0].isProcessing && r[0].error == None
    ensures Pending(r) == Pending(msgs) + 1
    ensures UniqueIds(msgs) && !HasId(msgs, id) ==> UniqueIds(r)
  {
    var r := [Message(id, timestamp, "", "", true, None)] + msgs;
    assert r[1..] == msgs;
    r
  }

  /** The success branch of processAudio: every message with the id takes the
      service's texts (`concise` falls back to the empty string) and stops
      processing; its error, id and timestamp stay as they were. */
  function ApplySuccess(msgs: seq<Message>, id: string, res: TranscriptionResult): (r: seq<Message>)
    ensures |r| == |msgs|
    ensures forall i :: 0 <= i < |msgs| && msgs[i].id != id ==> r[i] == msgs[i]
    ensures forall i :: 0 <= i < |msgs| && msgs[i].id == id ==>
      && r[i].id == id && r[i].timestamp == msgs[i].timestamp
      && r[i].verbatim == res.verbatim
      && (r[i].concise == if res.concise.Some? then res.concise.value else "")
      && !r[i].isProcessing
      && r[i].error == msgs[i].error
    ensures !HasId(msgs, id) ==> r == msgs
  {
    UpdateWhereFrame(msgs, id, Complete(res));
    UpdateWhere(msgs, id, Complete(res))
  }

  /** The failure branch of processAudio: every message with the id stops
      processing and records the failure text (the fallback when the failure
      has no message or an empty one); its texts are left untouched. */
  function ApplyFailure(msgs: seq<Message>, id: string, reason: Option<string>): (r: seq<Message>)
    ensures |r| == |msgs|
    ensures forall i :: 0 <= i < |msgs| && msgs[i].id != id ==> r[i] == msgs[i]
    ensures forall i :: 0 <= i < |msgs| && msgs[i].id == id ==>
      && r[i].id == id && r[i].timestamp == msgs[i].timestamp
      && r[i].verbatim == msgs[i].verbatim && r[i].concise == msgs[i].concise
      && !r[i].isProcessing
      && r[i].error.Some?
      && (reason.Some? && reason.value != "" ==> r[i].error.value == reason.value)
      && (reason.None? || reason.value == "" ==> r[i].error.value == FailureFallback)
    ensures !HasId(msgs, id) ==> r == msgs
  {
    UpdateWhereFrame(msgs, id, Fail(reason));
    UpdateWhere(msgs, id, Fail(reason))
  }

  /** updateTranscription: a manual edit replaces the concise text when the
      concise view is active and the verbatim text otherwise, on every
      message with the id and on no other field. */
  function EditText(msgs: seq<Message>, id: string, text: string, isConcise: bool): (r: seq<Message>)
    ensures |r| == |msgs|
    ensures forall i :: 0 <= i < |msgs| && msgs[i].id != id ==> r[i] == msgs[i]
    ensures forall i :: 0 <= i < |msgs| && msgs[i].id == id ==>
      && r[i].id == id && r[i].timestamp == msgs[i].timestamp
      && r[i].isProcessing == msgs[i].isProcessing && r[i].error == msgs[i].error
      && (isConcise ==> r[i].concise == text && r[i].verbatim == msgs[i].verbatim)
      && (!isConcise ==> r[i].verbatim == text && r[i].concise == msgs[i].concise)
    ensures Pending(r) == Pending(msgs)
  {
    EditTextKeepsPending(msgs, id, text, isConcise);
    UpdateWhere(msgs, id, Retext(text, isConcise))
  }

  /** The outcome dispatcher used by processAudio's two branches. */
  function Settle(msgs: seq<Message>, id: string, outcome: Outcome): (r: seq<Message>)
    ensures |r| == |msgs|
    ensures Pending(r) <= Pending(msgs)
    ensures AwaitsResult(msgs, id) ==> Pending(r) < Pending(msgs)
  {
    match outcome
    case Success(res) =>
      SettlingReducesPending(msgs, id, Complete(res));
      ApplySuccess(msgs, id, res)
    case Failure(reason) =>
      SettlingReducesPending(msgs, id, Fail(reason));
      ApplyFailure(msgs, id, reason)
  }

  lemma {:induction false} PendingCons(m: Message, msgs: seq<Message>)
    ensures Pending([m] + msgs) == (if m.isProcessing then 1 else 0) + Pending(msgs)
  {
    assert ([m] + msgs)[1..] == msgs;
  }

  /** A completion or a failure never adds a waiting message, and it removes
      at least one when a message with the id was waiting. */
  lemma {:induction false} SettlingReducesPending(msgs: seq<Message>, id: string, e: Edit)
    requires !e.Retext?
    ensures Pending(UpdateWhere(msgs, id, e)) <= Pending(msgs)
    ensures AwaitsResult(msgs, id) ==> Pending(UpdateWhere(msgs, id, e)) < Pending(msgs)
  {
    if msgs != [] {
      var head := if msgs[0].id == id then ApplyEdit(msgs[0], e) else msgs[0];
      SettlingReducesPending(msgs[1..], id, e);
      PendingCons(head, UpdateWhere(msgs[1..], id, e));
      if AwaitsResult(msgs, id) && !(msgs[0].id == id && msgs[0].isProcessing) {
        var i :| 0 <= i < |msgs| && msgs[i].id == id && msgs[i].isProcessing;
        assert msgs[1..][i - 1] == msgs[i];
        assert AwaitsResult(msgs[1..], id);
      }
    }
  }

  /** A manual text edit never changes which messages are waiting. */
  lemma {:induction false} EditTextKeepsPending(msgs: seq<Message>, id: string, text: string, isConcise: bool)
    ensures Pending(UpdateWhere(msgs, id, Retext(text, isConcise))) == Pending(msgs)
  {
    if msgs != [] {
      var e := Retext(text, isConcise);
      var head := if msgs[0].id == id then ApplyEdit(msgs[0], e) else msgs[0];
      EditTextKeepsPending(msgs[1..], id, text, isConcise);
      PendingCons(head, UpdateWhere(msgs[1..], id, e));
    }
  }
}

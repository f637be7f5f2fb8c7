/**
 * The compound processor's execution over a mutable ingest document. Each
 * method is proved to do exactly what the specification functions of
 * `Processors` say, on the document's metadata and on the recorded calls.
 */
module CompoundExecution {
  import opened IngestDocuments
  import opened Processors

  /**
   * The record of observable calls made during execution, in the order they
   * were made (what a test verifies on its mocks and spies).
   */
  class Recorder {
    var events: seq<Event>

    constructor ()
      ensures events == []
    {
      events := [];
    }

    method Record(e: Event)
      modifies this
      ensures events == old(events) + [e]
    {
      events := events + [e];
    }
  }

  /** `processor.execute(document)`: a leaf reports its fixed behaviour; a compound runs its chain. */
  method Execute(p: Processor, doc: IngestDocument, recorder: Recorder) returns (outcome: Outcome)
    modifies doc, recorder
    decreases p, 0
    ensures var r := Exec(p, old(doc.ingestMetadata));
      outcome == r.outcome && doc.ingestMetadata == r.metadata && recorder.events == old(recorder.events) + r.trace
  {
    match p
    case Leaf(tag, fails, message) =>
      recorder.Record(Executed(tag, doc.ingestMetadata));
      outcome := if fails then Failure(message) else Success;
    case Compound(c) =>
      outcome := ExecuteCompound(c, doc, recorder);
  }

  /**
   * How running a list of processors ended: every one of them returned, or
   * one threw, with its type and the exception's message.
   */
  datatype ListOutcome = AllSucceeded | Threw(failedType: string, message: string)

  /**
   * The loop shared by `execute` and `executeOnFailure`: runs `ps` in order
   * on the document, and the first processor that throws ends the loop.
   */
  method ExecuteAll(ps: seq<Processor>, doc: IngestDocument, recorder: Recorder) returns (ended: ListOutcome)
    modifies doc, recorder
    decreases ps, 0
    ensures var lr := RunList(ps, old(doc.ingestMetadata));
      && (ended == if lr.Completed? then AllSucceeded else Threw(lr.failedType, lr.message))
      && doc.ingestMetadata == lr.metadata
      && recorder.events == old(recorder.events) + lr.trace
  {
    ghost var m0 := doc.ingestMetadata;
    ghost var log0 := recorder.events;
    ghost var done: seq<Event> := [];
    var i := 0;
    while i < |ps|
      invariant i <= |ps|
      invariant RunList(ps[..i], m0) == Completed(doc.ingestMetadata, done)
      invariant recorder.events == log0 + done
    {
      var p := ps[i];
      ghost var before := doc.ingestMetadata;
      var o := Execute(p, doc, recorder);
      ghost var r := Exec(p, before);
      if o.Failure? {
        StopsAtFirstFailure(ps, i, m0);
        return Threw(GetType(p), o.message);
      }
      ContinueAfterSuccess(ps, i, m0);
      done := done + r.trace;
      i := i + 1;
    }
    assert ps[..i] == ps;
    ended := AllSucceeded;
  }

  /**
   * `CompoundProcessor.execute`: runs the processors in order; the first one
   * that throws has its failure handed to `executeOnFailure`, and with no
   * on-failure processors the original error is rethrown.
   */
  method ExecuteCompound(c: CompoundProcessor, doc: IngestDocument, recorder: Recorder) returns (outcome: Outcome)
    modifies doc, recorder
    decreases c, 1
    ensures var r := ExecCompound(c, old(doc.ingestMetadata));
      outcome == r.outcome && doc.ingestMetadata == r.metadata && recorder.events == old(recorder.events) + r.trace
  {
    var ended := ExecuteAll(c.processors, doc, recorder);
    if ended.AllSucceeded? {
      outcome := Success;
    } else {
      var handled := ExecuteOnFailure(c, doc, recorder, ended.message, ended.failedType);
      if c.onFailureProcessors == [] {
        outcome := Failure(ended.message);
      } else {
        outcome := handled;
      }
    }
  }

  /**
   * `CompoundProcessor.executeOnFailure(document, error, failedType)`: writes
   * the failure context into the ingest metadata, then runs the on-failure
   * processors in order; an exception among them propagates.
   */
  method ExecuteOnFailure(c: CompoundProcessor, doc: IngestDocument, recorder: Recorder,
                          message: string, failedType: string) returns (outcome: Outcome)
    modifies doc, recorder
    decreases c, 0
    ensures var r := ExecOnFailure(c, old(doc.ingestMetadata), message, failedType);
      outcome == r.outcome && doc.ingestMetadata == r.metadata && recorder.events == old(recorder.events) + r.trace
  {
    recorder.Record(FailureHandled(message, failedType));
    ghost var m0 := doc.ingestMetadata;
    doc.PutIngestMetadata(OnFailureMessageField, message);
    doc.PutIngestMetadata(OnFailureProcessorField, failedType);
    assert doc.ingestMetadata == m0[OnFailureMessageField := message][OnFailureProcessorField := failedType];
    var ended := ExecuteAll(c.onFailureProcessors, doc, recorder);
    outcome := if ended.AllSucceeded? then Success else Failure(ended.message);
  }
}

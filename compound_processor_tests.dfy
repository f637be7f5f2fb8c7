/**
 * The compound processor's test scenarios, each run on a fresh document
 * through the imperative execution. A mocked processor becomes a leaf with a
 * fixed behaviour; what the tests verify on their mocks and spies (how often
 * `execute` and `executeOnFailure` were called, with which arguments, and
 * what metadata a processor saw) is read off the recorded calls.
 */
module CompoundProcessorTests {
  import opened IngestDocuments
  import opened Processors
  import opened CompoundExecution
  import opened ExecutionProperties

  /** The failure context a fresh document carries after one recorded failure. */
  function Context(message: string, failedType: string): Metadata
  {
    map[OnFailureMessageField := message, OnFailureProcessorField := failedType]
  }

  /** An empty compound processor has no processors and runs without error. */
  method TestEmpty() returns (processors: seq<Processor>, onFailure: seq<Processor>, outcome: Outcome, calls: seq<Event>, metadata: Metadata)
    ensures processors == [] && onFailure == []
    ensures outcome == Success && calls == []
    ensures metadata == map[]
  {
    var doc := new IngestDocument();
    var recorder := new Recorder();
    var compound := NewCompoundProcessor([]);
    processors, onFailure := compound.processors, compound.onFailureProcessors;
    outcome := ExecuteCompound(compound, doc, recorder);
    calls, metadata := recorder.events, doc.ingestMetadata;
  }

  /** A single processor is kept as given and executed exactly once. */
  method TestSingleProcessor() returns (processors: seq<Processor>, onFailure: seq<Processor>, outcome: Outcome, calls: seq<Event>, metadata: Metadata)
    ensures processors == [Leaf("processor", false, "")] && onFailure == []
    ensures outcome == Success
    ensures calls == [Executed("processor", map[])]
    ensures metadata == map[]
  {
    var doc := new IngestDocument();
    var recorder := new Recorder();
    var processor := Leaf("processor", false, "");
    var compound := NewCompoundProcessor([processor]);
    processors, onFailure := compound.processors, compound.onFailureProcessors;
    RunSingle(processor, map[]);
    outcome := ExecuteCompound(compound, doc, recorder);
    calls, metadata := recorder.events, doc.ingestMetadata;
  }

  /**
   * A single failing processor without on-failure processors: the compound
   * throws the processor's message "error", and the processor is executed
   * exactly once.
   */
  method TestSingleProcessorWithException() returns (processors: seq<Processor>, onFailure: seq<Processor>, outcome: Outcome, calls: seq<Event>, metadata: Metadata)
    ensures processors == [Leaf("failed_processor", true, "error")] && onFailure == []
    ensures outcome == Failure("error")
    ensures calls == [Executed("failed_processor", map[]), FailureHandled("error", "failed_processor")]
    ensures metadata == Context("error", "failed_processor")
  {
    var doc := new IngestDocument();
    var recorder := new Recorder();
    var processor := Leaf("failed_processor", true, "error");
    var compound := NewCompoundProcessor([processor]);
    processors, onFailure := compound.processors, compound.onFailureProcessors;
    assert compound.processors[..0] == [];
    RethrowsFirstFailure(compound, 0, map[]);
    assert RecordFailure(map[], "error", "failed_processor") == Context("error", "failed_processor");
    outcome := ExecuteCompound(compound, doc, recorder);
    calls, metadata := recorder.events, doc.ingestMetadata;
  }

  /**
   * A failing processor "first" with one on-failure processor: the compound
   * succeeds, `executeOnFailure` is called once with ("error", "first"), and
   * the on-failure processor runs once, seeing exactly two metadata entries.
   */
  method TestSingleProcessorWithOnFailureProcessor() returns (processors: seq<Processor>, onFailure: seq<Processor>, outcome: Outcome, calls: seq<Event>, metadata: Metadata)
    ensures processors == [Leaf("first", true, "error")]
    ensures onFailure == [Leaf("processorNext", false, "")]
    ensures outcome == Success
    ensures calls == [Executed("first", map[]), FailureHandled("error", "first"), Executed("processorNext", Context("error", "first"))]
    ensures var seen := calls[2].seen;
      |seen| == 2 && seen[OnFailureMessageField] == "error" && seen[OnFailureProcessorField] == "first"
    ensures metadata == Context("error", "first")
  {
    var doc := new IngestDocument();
    var recorder := new Recorder();
    var processor := Leaf("first", true, "error");
    var processorNext := Leaf("processorNext", false, "");
    var compound := NewCompoundProcessorWithOnFailure([processor], [processorNext]);
    processors, onFailure := compound.processors, compound.onFailureProcessors;
    RunSingle(processor, map[]);
    OnFailureRecovers(compound, map[]);
    assert LeavesOf([processorNext]) == ["processorNext"];
    outcome := ExecuteCompound(compound, doc, recorder);
    calls, metadata := recorder.events, doc.ingestMetadata;
    assert |Context("error", "first")| == 2 by {
      assert Context("error", "first").Keys == FailureFields;
    }
  }

  /** The inner compound of the nested scenario, run on the context of the first failure. */
  lemma InnerCompoundRecovers()
    ensures ExecCompound(CompoundProcessor([Leaf("second", true, "error")], [Leaf("last", false, "")]), Context("error", "first")) ==
      Run(Success, Context("error", "second"),
          [Executed("second", Context("error", "first")), FailureHandled("error", "second"), Executed("last", Context("error", "second"))])
  {
    var inner := CompoundProcessor([Leaf("second", true, "error")], [Leaf("last", false, "")]);
    RunSingle(Leaf("second", true, "error"), Context("error", "first"));
    assert RecordFailure(Context("error", "first"), "error", "second") == Context("error", "second");
    OnFailureRecovers(inner, Context("error", "first"));
    assert LeavesOf([Leaf("last", false, "")]) == ["last"];
  }

  /** The outer compound of the nested scenario, run on a fresh document. */
  lemma NestedCompoundRecovers()
    ensures ExecCompound(CompoundProcessor([Leaf("first", true, "error")],
                                           [Compound(CompoundProcessor([Leaf("second", true, "error")], [Leaf("last", false, "")]))]), map[]) ==
      Run(Success, Context("error", "second"),
          [Executed("first", map[]), FailureHandled("error", "first"), Executed("second", Context("error", "first")),
           FailureHandled("error", "second"), Executed("last", Context("error", "second"))])
  {
    var inner := CompoundProcessor([Leaf("second", true, "error")], [Leaf("last", false, "")]);
    InnerCompoundRecovers();
    RunSingle(Leaf("first", true, "error"), map[]);
    RunSingle(Compound(inner), Context("error", "first"));
    assert RecordFailure(map[], "error", "first") == Context("error", "first");
  }

  /**
   * Nested failures: "first" fails, its on-failure processor is a compound
   * whose processor "second" fails too, and that compound's on-failure
   * processor "last" succeeds. Each of the three runs exactly once, in that
   * order; `executeOnFailure` is called once per level, with "first" and then
   * "second"; "last" sees exactly two entries, naming "second".
   */
  method TestSingleProcessorWithNestedFailures() returns (processors: seq<Processor>, onFailure: seq<Processor>, outcome: Outcome, calls: seq<Event>, metadata: Metadata)
    ensures processors == [Leaf("first", true, "error")]
    ensures onFailure == [Compound(CompoundProcessor([Leaf("second", true, "error")], [Leaf("last", false, "")]))]
    ensures outcome == Success
    ensures calls == [
      Executed("first", map[]),
      FailureHandled("error", "first"),
      Executed("second", Context("error", "first")),
      FailureHandled("error", "second"),
      Executed("last", Context("error", "second"))]
    ensures var seen := calls[4].seen;
      |seen| == 2 && seen[OnFailureMessageField] == "error" && seen[OnFailureProcessorField] == "second"
    ensures metadata == Context("error", "second")
  {
    var doc := new IngestDocument();
    var recorder := new Recorder();
    var processor := Leaf("first", true, "error");
    var processorToFail := Leaf("second", true, "error");
    var lastProcessor := Leaf("last", false, "");
    var compoundOnFailProcessor := NewCompoundProcessorWithOnFailure([processorToFail], [lastProcessor]);
    var compound := NewCompoundProcessorWithOnFailure([processor], [Compound(compoundOnFailProcessor)]);
    processors, onFailure := compound.processors, compound.onFailureProcessors;
    NestedCompoundRecovers();
    outcome := ExecuteCompound(compound, doc, recorder);
    calls, metadata := recorder.events, doc.ingestMetadata;
    assert |Context("error", "second")| == 2 by {
      assert Context("error", "second").Keys == FailureFields;
    }
  }
}

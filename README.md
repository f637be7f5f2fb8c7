# Ingest compound processor, modelled in Dafny

This project models the `CompoundProcessor` of the Elasticsearch ingest plugin.
The compound processor runs an ordered list of processors against an
`IngestDocument`. The first processor that throws ends the list. The compound
then calls `executeOnFailure(document, error, failedType)`. That call writes
the error message and the failing processor's `getType()` into two entries of
the document's ingest metadata, overwriting earlier values. It then runs the
on-failure processors in order. Without on-failure processors, the original
error is rethrown. A compound processor is itself a processor, so on-failure
chains nest.

The behaviour is taken from `CompoundProcessorTests.java`, which pins down the
contract. `CompoundProcessor.java` itself is not part of this model.

Layout:

- `ingest_document.dfy` (module `IngestDocuments`): the document as a class whose `ingestMetadata` map is updated in place.
- `processors.dfy` (module `Processors`): the processor datatypes and the constructors. It also holds the specification functions. `Exec`, `ExecCompound`, `ExecOnFailure` and `RunList` give the outcome, the final metadata and the trace of observable calls. It ends with the sequencing lemmas: running a list stops at its first failure.
- `compound_execution.dfy` (module `CompoundExecution`): the imperative execution. The methods `Execute`, `ExecuteCompound`, `ExecuteOnFailure` and the shared loop `ExecuteAll` work on an `IngestDocument` and a `Recorder`. The `Recorder` logs every `execute` and `executeOnFailure` call, which is what the tests check through their mocks and spies. Each method is proved equal to its specification function.
- `execution_properties.dfy` (module `ExecutionProperties`): properties that hold for every tree of processors:
  - the metadata is a snapshot of the most recent failure, not a log;
  - no processor is retried;
  - a compound without on-failure processors rethrows the first error;
  - on-failure processors that do not throw absorb the failure.
- `compound_processor_tests.dfy` (module `CompoundProcessorTests`): the five test scenarios. Each runs through the imperative methods on a fresh document, and its result is stated exactly.

A mocked processor is a `Leaf(tag, fails, message)`: it reports `tag` as its
type and either always throws `message` or always succeeds. Where a test does
not stub `getType()`, the leaf gets a descriptive tag (`"processor"`,
`"processorNext"`, `"last"`).

## Model

| member | source | states |
|---|---|---|
| `IngestDocuments.IngestDocument.constructor` | plugins/ingest/src/test/java/org/elasticsearch/ingest/processor/CompoundProcessorTests.java:44-47 | every scenario starts from a document with empty ingest metadata |
| `Processors.NewCompoundProcessor` | plugins/ingest/src/test/java/org/elasticsearch/ingest/processor/CompoundProcessorTests.java:58-61 | the processors-only constructor keeps the given processors, in order. Its on-failure list is empty. With no processors, both lists are empty (lines 50-52) |
| `Processors.NewCompoundProcessorWithOnFailure` | plugins/ingest/src/test/java/org/elasticsearch/ingest/processor/CompoundProcessorTests.java:103-107 | `getProcessors()` and `getOnFailureProcessors()` return exactly the two lists given, with their sizes |
| `IngestDocuments.IngestDocument.PutIngestMetadata` | plugins/ingest/src/test/java/org/elasticsearch/ingest/processor/CompoundProcessorTests.java:95-98 | putting an entry into the ingest metadata sets that key to the value, overwriting any earlier value, and keeps every other entry |
| `Processors.GetType` | plugins/ingest/src/test/java/org/elasticsearch/ingest/processor/CompoundProcessorTests.java:131 | a mocked processor's `getType()` returns the type it was stubbed with (`"failed_processor"`, `"first"`, `"second"`); a compound processor reports its own type |
| `Processors.RecordFailure` | plugins/ingest/src/test/java/org/elasticsearch/ingest/processor/CompoundProcessorTests.java:95-98 | the failure context `executeOnFailure` writes: the message field holds the error message and the processor field the failing type. Every other entry is kept, and no other key is added |
| `Processors.Exec` | plugins/ingest/src/test/java/org/elasticsearch/ingest/processor/CompoundProcessorTests.java:62-63 | `processor.execute(document)` on metadata m: a mocked leaf is called once with m and leaves it unchanged. A compound runs its chain. Either way, nothing but the two failure fields is ever written |
| `Processors.ExecCompound` | plugins/ingest/src/test/java/org/elasticsearch/ingest/processor/CompoundProcessorTests.java:84-113 | `CompoundProcessor.execute`: writes nothing but the two failure fields, and an execution that throws has called `executeOnFailure` at least once |
| `Processors.ExecOnFailure` | plugins/ingest/src/test/java/org/elasticsearch/ingest/processor/CompoundProcessorTests.java:157-160 | `executeOnFailure(document, error, failedType)`: the call, then the on-failure processors on the recorded context. It writes nothing but the two failure fields |
| `Processors.RunList` | plugins/ingest/src/test/java/org/elasticsearch/ingest/processor/CompoundProcessorTests.java:66-82 | running a list of processors writes nothing but the two failure fields, whether the list completes or stops at a failure |
| `Processors.StopsAtFirstFailure` | plugins/ingest/src/test/java/org/elasticsearch/ingest/processor/CompoundProcessorTests.java:66-82 | once the processor at index k throws, the list stops with that processor's type and message. No later processor runs: the trace is that of the first k processors plus the failing one |
| `CompoundExecution.Execute` | plugins/ingest/src/test/java/org/elasticsearch/ingest/processor/CompoundProcessorTests.java:62-63 | `processor.execute(document)` yields the outcome, the metadata and the recorded calls that `Exec` specifies. A leaf's call is recorded with the metadata it saw |
| `CompoundExecution.ExecuteAll` | plugins/ingest/src/test/java/org/elasticsearch/ingest/processor/CompoundProcessorTests.java:66-82 | the loop runs the list in order on the document and ends at the first throw. It reports that processor's type and message, and leaves the metadata and calls that `RunList` specifies |
| `CompoundExecution.ExecuteCompound` | plugins/ingest/src/test/java/org/elasticsearch/ingest/processor/CompoundProcessorTests.java:84-113 | `CompoundProcessor.execute` runs the processors. On the first failure it calls `executeOnFailure` with the error and the failing type, and rethrows the error if there are no on-failure processors. It is equal to `ExecCompound` on outcome, final metadata and recorded calls |
| `CompoundExecution.ExecuteOnFailure` | plugins/ingest/src/test/java/org/elasticsearch/ingest/processor/CompoundProcessorTests.java:92-109 | `executeOnFailure` records one call, writes the message and failing-type entries, then runs the on-failure processors in order. It is equal to `ExecOnFailure` |
| `ExecutionProperties.RecordFailureOverwrites` | plugins/ingest/src/test/java/org/elasticsearch/ingest/processor/CompoundProcessorTests.java:134-142 | a second recorded failure replaces the first one completely |
| `ExecutionProperties.FailureContextHasTwoEntries` | plugins/ingest/src/test/java/org/elasticsearch/ingest/processor/CompoundProcessorTests.java:92-100 | on metadata with no other keys (e.g. a fresh document), the failure context is exactly two entries: the message and the failing type |
| `ExecutionProperties.ReplayIsSnapshot` | plugins/ingest/src/test/java/org/elasticsearch/ingest/processor/CompoundProcessorTests.java:134-142 | replaying any sequence of calls leaves the initial metadata overwritten by the most recent failure only (`Snapshot`, defined from the last call backwards) |
| `ExecutionProperties.ExecConsistent` | plugins/ingest/src/test/java/org/elasticsearch/ingest/processor/CompoundProcessorTests.java:121-142 | in any execution, every processor sees the metadata as the earlier calls left it, and only `executeOnFailure` changes the metadata |
| `ExecutionProperties.ExecutionSeesLatestFailureOnly` | plugins/ingest/src/test/java/org/elasticsearch/ingest/processor/CompoundProcessorTests.java:121-142 | for any processor tree, each invoked processor sees the initial metadata plus the most recent failure context before it. The final metadata holds the most recent context |
| `ExecutionProperties.SnapshotOfFreshDocument` | plugins/ingest/src/test/java/org/elasticsearch/ingest/processor/CompoundProcessorTests.java:46 | starting from empty metadata, a snapshot is either empty or exactly the two failure fields |
| `ExecutionProperties.FreshDocumentSeesAtMostTwoEntries` | plugins/ingest/src/test/java/org/elasticsearch/ingest/processor/CompoundProcessorTests.java:134-142 | on a fresh document, every invoked processor of any tree sees either no metadata or exactly the two failure entries |
| `ExecutionProperties.ExecFollowsTree` | plugins/ingest/src/test/java/org/elasticsearch/ingest/processor/CompoundProcessorTests.java:145-161 | the invoked processors, in call order, are a subsequence of the tree's leaves, with processors before on-failure processors: nothing runs twice or out of order |
| `ExecutionProperties.NoProcessorIsRetried` | plugins/ingest/src/test/java/org/elasticsearch/ingest/processor/CompoundProcessorTests.java:156-161 | a processor type is invoked at most as often as it occurs among the tree's leaves. A type that occurs once in the tree, as each mock of the test does, is invoked at most once |
| `ExecutionProperties.NeverThrowingLeavesRunInOrder` | plugins/ingest/src/test/java/org/elasticsearch/ingest/processor/CompoundProcessorTests.java:56-64 | processors that never throw each run exactly once, in list order, and the list completes |
| `ExecutionProperties.RethrowsFirstFailure` | plugins/ingest/src/test/java/org/elasticsearch/ingest/processor/CompoundProcessorTests.java:66-82 | with no on-failure processors, the compound throws the message of its first failing processor. The trace ends with that processor's single run and the one `executeOnFailure` call, and the failure context stays in the metadata |
| `ExecutionProperties.OnFailureRecovers` | plugins/ingest/src/test/java/org/elasticsearch/ingest/processor/CompoundProcessorTests.java:84-113 | after a failure, on-failure processors that never throw make the compound succeed. `executeOnFailure` is called once with the error and the failing type, then each on-failure processor runs once, in order, seeing the failure context |
| `CompoundProcessorTests.TestEmpty` | plugins/ingest/src/test/java/org/elasticsearch/ingest/processor/CompoundProcessorTests.java:49-54 | an empty compound has empty lists, succeeds, makes no calls and leaves the metadata empty |
| `CompoundProcessorTests.TestSingleProcessor` | plugins/ingest/src/test/java/org/elasticsearch/ingest/processor/CompoundProcessorTests.java:56-64 | the single processor is kept as given and executed exactly once. The compound succeeds and leaves the metadata empty |
| `CompoundProcessorTests.TestSingleProcessorWithException` | plugins/ingest/src/test/java/org/elasticsearch/ingest/processor/CompoundProcessorTests.java:66-82 | the compound throws "error". The failing processor is executed exactly once, with no retry. The document ends holding exactly the two entries "error" and "failed_processor" |
| `CompoundProcessorTests.TestSingleProcessorWithOnFailureProcessor` | plugins/ingest/src/test/java/org/elasticsearch/ingest/processor/CompoundProcessorTests.java:84-113 | the compound succeeds and `executeOnFailure` is called once with ("error", "first"). The on-failure processor runs once and sees exactly two entries: "error" and "first". The document ends with that context |
| `CompoundProcessorTests.TestSingleProcessorWithNestedFailures` | plugins/ingest/src/test/java/org/elasticsearch/ingest/processor/CompoundProcessorTests.java:115-162 | "first", "second" and "last" each run exactly once, in that order. `executeOnFailure` is called once per level, with "first" and then "second". "last" sees exactly two entries, the processor field now "second". The whole call succeeds, and the document ends with the context naming "second" |

## Left out

- `CompoundProcessor.java` is not part of this model. The behaviour is modelled from what the tests observe. Three choices follow from that:
  - The metadata key values `"on_failure_message"` and `"on_failure_processor"` and the type `"compound"` are stand-ins. Only the two keys being distinct matters.
  - When there are no on-failure processors, the failure context is recorded before the error is rethrown (`ExecCompound` always calls `ExecOnFailure`). The tests do not observe the metadata on that path.
  - A failure among the on-failure processors ends that list, and its message propagates in place of the original error. The model does this, but no test covers it, and no property is claimed about it beyond the general lemmas.
- The document's source/data payload is not modelled: no scenario reads or writes it. Leaves never touch the metadata, like the mocks they stand for. Concrete processors that write metadata are not part of this model.
- Java exception types, exception identity and cause chaining are not modelled. An error is its message.
- Mockito, `ESTestCase` and the JUnit lifecycle are not modelled. A mock becomes a `Leaf` with a fixed behaviour, and `verify(...)` becomes the `Recorder`'s log of calls.
- A `doThrow(...).doNothing()` mock throws only on its first call. A `Leaf` always throws. The difference is never observable, because every mock in the tests has a type of its own, and a type that occurs once in the tree is invoked at most once (`NoProcessorIsRetried`). `NoProcessorIsRetried` counts invocations by type, so two leaves of the same type are not told apart.
- The test at lines 121-132 first stubs `processorToFail` with a metadata-checking answer, then re-stubs it with `doThrow` at line 132. That second stub replaces the first, so the check at lines 125-127 never runs. The model still shows that "second" sees exactly the context naming "first" (`TestSingleProcessorWithNestedFailures`).
- The test's `verify(compoundOnFailProcessor, times(1)).execute(...)` (line 158) is covered only indirectly. Compound calls are not logged. The inner compound's own processor "second" and its `executeOnFailure` each appear exactly once.
- The metadata is left unchanged when every processor succeeds. That follows from leaves never writing metadata (`NeverThrowingLeavesRunInOrder`, `ExecutionSeesLatestFailureOnly`).
- The two failure entries are not cleared after the on-failure processors finish. The final-metadata parts of `OnFailureRecovers`, `RethrowsFirstFailure`, `ExecutionSeesLatestFailureOnly` and the scenario methods describe that choice. The tests would pass just as well if the entries were removed once the on-failure processors finish.

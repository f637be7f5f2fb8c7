/**
 * Processors and the compound processor, and the specification of what
 * executing them does: the outcome (success, or failure with a message), the
 * final ingest metadata, and the trace of observable calls (each leaf
 * processor's `execute`, with the metadata it saw, and each `executeOnFailure`).
 */
module Processors {
  import opened IngestDocuments

  /** Metadata key that receives the message of the failure being handled. */
  const OnFailureMessageField: string := "on_failure_message"
  /** Metadata key that receives the type of the processor that failed. */
  const OnFailureProcessorField: string := "on_failure_processor"
  /** The only keys the failure handling ever writes. */
  const FailureFields: set<string> := {OnFailureMessageField, OnFailureProcessorField}
  /** The type a compound processor reports for itself. */
  const CompoundType: string := "compound"

  /**
   * A processor. A leaf stands for a concrete processor whose behaviour is
   * fixed: it reports `tag` as its type and either always fails with
   * `message` or always succeeds. A compound processor is itself a processor.
   */
  datatype Processor =
    | Leaf(tag: string, fails: bool, message: string)
    | Compound(compound: CompoundProcessor)

  /** A compound processor: its processors and its on-failure processors, in order. */
  datatype CompoundProcessor = CompoundProcessor(processors: seq<Processor>, onFailureProcessors: seq<Processor>)

  /** The constructor taking only processors: the on-failure list is empty. */
  function NewCompoundProcessor(processors: seq<Processor>): (c: CompoundProcessor)
    ensures c.processors == processors
    ensures c.onFailureProcessors == []
  {
    CompoundProcessor(processors, [])
  }

  /** The constructor taking both lists keeps each of them as given. */
  function NewCompoundProcessorWithOnFailure(processors: seq<Processor>, onFailure: seq<Processor>): (c: CompoundProcessor)
    ensures c.processors == processors
    ensures c.onFailureProcessors == onFailure
  {
    CompoundProcessor(processors, onFailure)
  }

  /** `getType()` of a processor: a leaf reports its stubbed type, a compound its own. */
  function GetType(p: Processor): (t: string)
    ensures p.Leaf? ==> t == p.tag
    ensures p.Compound? ==> t == CompoundType
  {
    match p
    case Leaf(tag, _, _) => tag
    case Compound(_) => CompoundType
  }

  /**
   * `m'` differs from `m` at most in the two failure fields: no entry is
   * removed, no other key is added and no other value changes.
   */
  ghost predicate OnlyFailureFieldsWritten(m: Metadata, m': Metadata)
  {
    && m.Keys <= m'.Keys <= m.Keys + FailureFields
    && m' - FailureFields == m - FailureFields
  }

  /**
   * The metadata after `executeOnFailure` has written the failure context:
   * the message field holds the error message, the processor field the
   * failing type, and every other entry is kept.
   */
  function RecordFailure(m: Metadata, message: string, failedType: string): (r: Metadata)
    ensures r.Keys == m.Keys + FailureFields
    ensures r[OnFailureMessageField] == message && r[OnFailureProcessorField] == failedType
    ensures OnlyFailureFieldsWritten(m, r)
  {
    m[OnFailureMessageField := message][OnFailureProcessorField := failedType]
  }

  /** One observable call during an execution. */
  datatype Event =
    | Executed(tag: string, seen: Metadata)                  // a leaf's `execute`, with the metadata it saw
    | FailureHandled(message: string, failedType: string)    // `executeOnFailure(document, error, type)`

  /** How an execution ends: normally, or by throwing an exception with a message. */
  datatype Outcome = Success | Failure(message: string)

  /** The effect of executing one processor. */
  datatype Run = Run(outcome: Outcome, metadata: Metadata, trace: seq<Event>)

  /**
   * The effect of running a list of processors in order, stopping at the
   * first one that throws: which type failed, with which message.
   */
  datatype ListRun =
    | Completed(metadata: Metadata, trace: seq<Event>)
    | Stopped(failedType: string, message: string, metadata: Metadata, trace: seq<Event>)

  /** `r` preceded by the events `t`. */
  function Prefix(t: seq<Event>, r: ListRun): ListRun
  {
    match r
    case Completed(m, t') => Completed(m, t + t')
    case Stopped(ty, msg, m, t') => Stopped(ty, msg, m, t + t')
  }

  /** Continues a list run with the processors `rest`, unless it has already stopped. */
  function Then(r: ListRun, rest: seq<Processor>): ListRun
  {
    match r
    case Stopped(_, _, _, _) => r
    case Completed(m, t) => Prefix(t, RunList(rest, m))
  }

  /** Executes one processor on metadata `m`. */
  function Exec(p: Processor, m: Metadata): (r: Run)
    decreases p, 0
    ensures OnlyFailureFieldsWritten(m, r.metadata)
  {
    match p
    case Leaf(tag, fails, message) =>
      Run(if fails then Failure(message) else Success, m, [Executed(tag, m)])
    case Compound(c) => ExecCompound(c, m)
  }

  /**
   * `CompoundProcessor.execute`: the processors in order; at the first
   * failure, `executeOnFailure` with the error and the failing type; the
   * original error is rethrown when there are no on-failure processors.
   */
  function ExecCompound(c: CompoundProcessor, m: Metadata): (r: Run)
    decreases c, 1
    ensures OnlyFailureFieldsWritten(m, r.metadata)
    ensures r.outcome.Failure? ==> exists i :: 0 <= i < |r.trace| && r.trace[i].FailureHandled?
  {
    match RunList(c.processors, m)
    case Completed(m1, t1) => Run(Success, m1, t1)
    case Stopped(failedType, message, m1, t1) =>
      var h := ExecOnFailure(c, m1, message, failedType);
      assert (t1 + h.trace)[|t1|] == h.trace[0] == FailureHandled(message, failedType);
      Run(if c.onFailureProcessors == [] then Failure(message) else h.outcome, h.metadata, t1 + h.trace)
  }

  /**
   * `CompoundProcessor.executeOnFailure`: records the failure context, then
   * runs the on-failure processors in order; a failure among them propagates.
   */
  function ExecOnFailure(c: CompoundProcessor, m: Metadata, message: string, failedType: string): (r: Run)
    decreases c, 0
    ensures OnlyFailureFieldsWritten(m, r.metadata)
  {
    var handled := [FailureHandled(message, failedType)];
    match RunList(c.onFailureProcessors, RecordFailure(m, message, failedType))
    case Completed(m2, t) => Run(Success, m2, handled + t)
    case Stopped(_, message', m2, t) => Run(Failure(message'), m2, handled + t)
  }

  /** Runs `ps` in order from metadata `m`, stopping at the first failure. */
  function RunList(ps: seq<Processor>, m: Metadata): (r: ListRun)
    decreases ps, 0
    ensures OnlyFailureFieldsWritten(m, r.metadata)
  {
    if ps == [] then Completed(m, [])
    else
      var r := Exec(ps[0], m);
      match r.outcome
      case Failure(message) => Stopped(GetType(ps[0]), message, r.metadata, r.trace)
      case Success => Prefix(r.trace, RunList(ps[1..], r.metadata))
  }

  lemma PrefixPrefix(t1: seq<Event>, t2: seq<Event>, r: ListRun)
    ensures Prefix(t1, Prefix(t2, r)) == Prefix(t1 + t2, r)
  {
  }

  /**
   * Running `a + b` is running `a` and, only if all of `a` succeeded,
   * continuing with `b` on the metadata `a` left behind.
   */
  lemma {:induction false} RunListAppend(a: seq<Processor>, b: seq<Processor>, m: Metadata)
    ensures RunList(a + b, m) == Then(RunList(a, m), b)
    decreases |a|
  {
    if a == [] {
      assert a + b == b;
      var r := RunList(b, m);
      assert [] + r.trace == r.trace;
    } else {
      assert (a + b)[0] == a[0];
      assert (a + b)[1..] == a[1..] + b;
      var r := Exec(a[0], m);
      if r.outcome.Success? {
        RunListAppend(a[1..], b, r.metadata);
        var ra := RunList(a[1..], r.metadata);
        if ra.Completed? {
          PrefixPrefix(r.trace, ra.trace, RunList(b, ra.metadata));
        }
      }
    }
  }

  /** A list of one processor succeeds or stops exactly as that processor does. */
  lemma RunSingle(p: Processor, m: Metadata)
    ensures var r := Exec(p, m);
      RunList([p], m) ==
        if r.outcome.Success? then Completed(r.metadata, r.trace)
        else Stopped(GetType(p), r.outcome.message, r.metadata, r.trace)
  {
  }

  /**
   * Once the processor at index `k` fails, no later processor of the list
   * runs: the list stops with that processor's type and message, and its
   * trace is that of `ps[..k]` followed by that of `ps[k]` only.
   */
  lemma StopsAtFirstFailure(ps: seq<Processor>, k: nat, m: Metadata)
    requires k < |ps|
    requires RunList(ps[..k], m).Completed?
    requires Exec(ps[k], RunList(ps[..k], m).metadata).outcome.Failure?
    ensures var before := RunList(ps[..k], m);
      var r := Exec(ps[k], before.metadata);
      RunList(ps, m) == Stopped(GetType(ps[k]), r.outcome.message, r.metadata, before.trace + r.trace)
  {
    var before := RunList(ps[..k], m);
    assert ps == ps[..k] + ([ps[k]] + ps[k + 1..]);
    RunListAppend(ps[..k], [ps[k]] + ps[k + 1..], m);
    RunListAppend([ps[k]], ps[k + 1..], before.metadata);
    RunSingle(ps[k], before.metadata);
  }

  /** Extending a completed prefix by one processor that succeeds keeps the list running. */
  lemma ContinueAfterSuccess(ps: seq<Processor>, k: nat, m: Metadata)
    requires k < |ps|
    requires RunList(ps[..k], m).Completed?
    requires Exec(ps[k], RunList(ps[..k], m).metadata).outcome.Success?
    ensures var before := RunList(ps[..k], m);
      var r := Exec(ps[k], before.metadata);
      RunList(ps[..k + 1], m) == Completed(r.metadata, before.trace + r.trace)
  {
    var before := RunList(ps[..k], m);
    assert ps[..k + 1] == ps[..k] + [ps[k]];
    RunListAppend(ps[..k], [ps[k]], m);
    RunSingle(ps[k], before.metadata);
  }
}

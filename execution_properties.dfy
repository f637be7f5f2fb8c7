/**
 * What every execution of a processor guarantees, whatever the tree of
 * compound and on-failure processors:
 *  - the failure context is a snapshot: each processor sees the initial
 *    metadata overwritten by the most recent failure only, never a history;
 *  - no processor is retried: the invoked processors, in order, are a
 *    subsequence of the processors of the tree.
 */
module ExecutionProperties {
  import opened IngestDocuments
  import opened Processors

  // ---------------------------------------------------------------------
  // The failure context written by executeOnFailure
  // ---------------------------------------------------------------------

  /** A second failure overwrites the first: nothing of the earlier context survives. */
  lemma RecordFailureOverwrites(m: Metadata, message: string, failedType: string, message': string, failedType': string)
    ensures RecordFailure(RecordFailure(m, message, failedType), message', failedType') == RecordFailure(m, message', failedType')
  {
  }

  /** On metadata holding no other keys, the failure context is exactly two entries. */
  lemma FailureContextHasTwoEntries(m: Metadata, message: string, failedType: string)
    requires m.Keys <= FailureFields
    ensures var r := RecordFailure(m, message, failedType);
      r.Keys == FailureFields && |r| == 2
      && r[OnFailureMessageField] == message && r[OnFailureProcessorField] == failedType
  {
  }

  // ---------------------------------------------------------------------
  // Replaying a trace: the metadata each call sees
  // ---------------------------------------------------------------------

  /** The metadata after the call `e`: only `executeOnFailure` writes to it. */
  function Next(m: Metadata, e: Event): Metadata
  {
    match e
    case Executed(_, _) => m
    case FailureHandled(message, failedType) => RecordFailure(m, message, failedType)
  }

  /** The metadata after the calls of `t`, starting from `m`. */
  function Replay(m: Metadata, t: seq<Event>): Metadata
    decreases |t|
  {
    if t == [] then m else Replay(Next(m, t[0]), t[1..])
  }

  /** Every processor call in `t` saw the metadata as the calls before it had left it. */
  ghost predicate Consistent(m: Metadata, t: seq<Event>)
    decreases |t|
  {
    t == [] || ((t[0].Executed? ==> t[0].seen == m) && Consistent(Next(m, t[0]), t[1..]))
  }

  /**
   * The independent reference: the initial metadata overwritten by the most
   * recent `executeOnFailure` of `t` alone, or unchanged if there is none.
   */
  function Snapshot(m: Metadata, t: seq<Event>): Metadata
    decreases |t|
  {
    if t == [] then m
    else match t[|t| - 1]
      case FailureHandled(message, failedType) => RecordFailure(m, message, failedType)
      case Executed(_, _) => Snapshot(m, t[..|t| - 1])
  }

  lemma {:induction false} ReplayAppend(m: Metadata, a: seq<Event>, b: seq<Event>)
    ensures Replay(m, a + b) == Replay(Replay(m, a), b)
    ensures Consistent(m, a + b) <==> Consistent(m, a) && Consistent(Replay(m, a), b)
    decreases |a|
  {
    if a == [] {
      assert a + b == b;
    } else {
      assert (a + b)[0] == a[0];
      assert (a + b)[1..] == a[1..] + b;
      ReplayAppend(Next(m, a[0]), a[1..], b);
    }
  }

  /** Recording a failure on any snapshot of `m` gives the same as recording it on `m`. */
  lemma {:induction false} RecordFailureAbsorbsSnapshot(m: Metadata, t: seq<Event>, message: string, failedType: string)
    ensures RecordFailure(Snapshot(m, t), message, failedType) == RecordFailure(m, message, failedType)
    decreases |t|
  {
    if t != [] {
      match t[|t| - 1]
      case FailureHandled(message', failedType') =>
        RecordFailureOverwrites(m, message', failedType', message, failedType);
      case Executed(_, _) =>
        RecordFailureAbsorbsSnapshot(m, t[..|t| - 1], message, failedType);
    }
  }

  /** Replaying a trace leaves only the most recent failure context: the metadata is not a log. */
  lemma {:induction false} ReplayIsSnapshot(m: Metadata, t: seq<Event>)
    ensures Replay(m, t) == Snapshot(m, t)
    decreases |t|
  {
    if t != [] {
      var init := t[..|t| - 1];
      var last := t[|t| - 1];
      assert t == init + [last];
      ReplayAppend(m, init, [last]);
      ReplayIsSnapshot(m, init);
      assert Replay(m, t) == Next(Snapshot(m, init), last);
      match last
      case FailureHandled(message, failedType) =>
        RecordFailureAbsorbsSnapshot(m, init, message, failedType);
      case Executed(_, _) =>
    }
  }

  /** In a consistent trace, the call at `i` saw the metadata the calls before it left behind. */
  lemma {:induction false} ConsistentSeen(m: Metadata, t: seq<Event>, i: nat)
    requires Consistent(m, t)
    requires i < |t| && t[i].Executed?
    ensures t[i].seen == Replay(m, t[..i])
    decreases i
  {
    if i > 0 {
      assert t[1..][i - 1] == t[i];
      ConsistentSeen(Next(m, t[0]), t[1..], i - 1);
      assert t[..i][0] == t[0];
      assert t[..i][1..] == t[1..][..i - 1];
    }
  }

  lemma {:induction false} PrefixConsistent(m: Metadata, t: seq<Event>, r: ListRun)
    requires Consistent(m, t)
    requires Consistent(Replay(m, t), r.trace) && r.metadata == Replay(Replay(m, t), r.trace)
    ensures Consistent(m, Prefix(t, r).trace) && Prefix(t, r).metadata == Replay(m, Prefix(t, r).trace)
  {
    ReplayAppend(m, t, r.trace);
  }

  /** A processor's execution only changes the metadata through `executeOnFailure`. */
  lemma {:induction false} ExecConsistent(p: Processor, m: Metadata)
    ensures var r := Exec(p, m); Consistent(m, r.trace) && r.metadata == Replay(m, r.trace)
    decreases p, 0
  {
    match p
    case Leaf(tag, fails, message) =>
      assert [Executed(tag, m)][1..] == [];
    case Compound(c) =>
      ExecCompoundConsistent(c, m);
  }

  lemma {:induction false} ExecCompoundConsistent(c: CompoundProcessor, m: Metadata)
    ensures var r := ExecCompound(c, m); Consistent(m, r.trace) && r.metadata == Replay(m, r.trace)
    decreases c, 1
  {
    RunListConsistent(c.processors, m);
    var lr := RunList(c.processors, m);
    if lr.Stopped? {
      ExecOnFailureConsistent(c, lr.metadata, lr.message, lr.failedType);
      var h := ExecOnFailure(c, lr.metadata, lr.message, lr.failedType);
      ReplayAppend(m, lr.trace, h.trace);
    }
  }

  lemma {:induction false} ExecOnFailureConsistent(c: CompoundProcessor, m: Metadata, message: string, failedType: string)
    ensures var r := ExecOnFailure(c, m, message, failedType); Consistent(m, r.trace) && r.metadata == Replay(m, r.trace)
    decreases c, 0
  {
    var m1 := RecordFailure(m, message, failedType);
    RunListConsistent(c.onFailureProcessors, m1);
    var lr := RunList(c.onFailureProcessors, m1);
    var handled := [FailureHandled(message, failedType)];
    assert (handled + lr.trace)[0] == handled[0];
    assert (handled + lr.trace)[1..] == lr.trace;
  }

  lemma {:induction false} RunListConsistent(ps: seq<Processor>, m: Metadata)
    ensures var r := RunList(ps, m); Consistent(m, r.trace) && r.metadata == Replay(m, r.trace)
    decreases ps, 0
  {
    if ps != [] {
      ExecConsistent(ps[0], m);
      var r := Exec(ps[0], m);
      if r.outcome.Success? {
        RunListConsistent(ps[1..], r.metadata);
        PrefixConsistent(m, r.trace, RunList(ps[1..], r.metadata));
      }
    }
  }

  /**
   * Every processor invoked during an execution sees the initial metadata
   * overwritten by the most recent failure context before it (and no older
   * one), and the execution ends with the most recent context in place.
   */
  lemma ExecutionSeesLatestFailureOnly(p: Processor, m: Metadata)
    ensures var r := Exec(p, m);
      && r.metadata == Snapshot(m, r.trace)
      && forall i :: 0 <= i < |r.trace| && r.trace[i].Executed? ==> r.trace[i].seen == Snapshot(m, r.trace[..i])
  {
    var r := Exec(p, m);
    ExecConsistent(p, m);
    ReplayIsSnapshot(m, r.trace);
    forall i | 0 <= i < |r.trace| && r.trace[i].Executed?
      ensures r.trace[i].seen == Snapshot(m, r.trace[..i])
    {
      ConsistentSeen(m, r.trace, i);
      ReplayIsSnapshot(m, r.trace[..i]);
    }
  }

  /** From an empty document, a snapshot is empty, or exactly the two failure fields. */
  lemma {:induction false} SnapshotOfFreshDocument(t: seq<Event>)
    ensures var s := Snapshot(map[], t);
      s == map[] || (s.Keys == FailureFields && |s| == 2)
    decreases |t|
  {
    if t != [] {
      match t[|t| - 1]
      case FailureHandled(message, failedType) =>
        FailureContextHasTwoEntries(map[], message, failedType);
      case Executed(_, _) =>
        SnapshotOfFreshDocument(t[..|t| - 1]);
    }
  }

  /**
   * On a fresh document, every processor sees either no metadata at all or
   * exactly two entries: the latest failure's message and processor type.
   */
  lemma FreshDocumentSeesAtMostTwoEntries(p: Processor, i: nat)
    requires i < |Exec(p, map[]).trace| && Exec(p, map[]).trace[i].Executed?
    ensures var seen := Exec(p, map[]).trace[i].seen;
      seen == map[] || (seen.Keys == FailureFields && |seen| == 2)
  {
    var r := Exec(p, map[]);
    ExecutionSeesLatestFailureOnly(p, map[]);
    SnapshotOfFreshDocument(r.trace[..i]);
  }

  // ---------------------------------------------------------------------
  // No retry: invocations follow the tree of processors
  // ---------------------------------------------------------------------

  /** The leaf processors of `p`, processors before on-failure processors. */
  function Leaves(p: Processor): seq<string>
    decreases p, 0
  {
    match p
    case Leaf(tag, _, _) => [tag]
    case Compound(c) => LeavesOf(c.processors) + LeavesOf(c.onFailureProcessors)
  }

  function LeavesOf(ps: seq<Processor>): seq<string>
    decreases ps, 0
  {
    if ps == [] then [] else Leaves(ps[0]) + LeavesOf(ps[1..])
  }

  /** The processors invoked in `t`, in order. */
  function Invoked(t: seq<Event>): seq<string>
    decreases |t|
  {
    if t == [] then []
    else (if t[0].Executed? then [t[0].tag] else []) + Invoked(t[1..])
  }

  /** `a` is obtained from `b` by deleting elements. */
  ghost predicate IsSubsequence(a: seq<string>, b: seq<string>)
    decreases |b|
  {
    a == [] || (b != [] && ((a[0] == b[0] && IsSubsequence(a[1..], b[1..])) || IsSubsequence(a, b[1..])))
  }

  /** How often `x` occurs in `s`. */
  function Count(s: seq<string>, x: string): nat
    decreases |s|
  {
    if s == [] then 0 else (if s[0] == x then 1 else 0) + Count(s[1..], x)
  }

  lemma {:induction false} InvokedAppend(a: seq<Event>, b: seq<Event>)
    ensures Invoked(a + b) == Invoked(a) + Invoked(b)
    decreases |a|
  {
    if a != [] {
      assert (a + b)[0] == a[0];
      assert (a + b)[1..] == a[1..] + b;
      InvokedAppend(a[1..], b);
    } else {
      assert a + b == b;
    }
  }

  lemma {:induction false} SubsequenceWiden(a: seq<string>, b: seq<string>, c: seq<string>)
    requires IsSubsequence(a, b)
    ensures IsSubsequence(a, c + b)
    decreases |c|
  {
    if c != [] {
      SubsequenceWiden(a, b, c[1..]);
      assert (c + b)[1..] == c[1..] + b;
    } else {
      assert c + b == b;
    }
  }

  lemma {:induction false} SubsequenceConcat(a: seq<string>, b: seq<string>, c: seq<string>, d: seq<string>)
    requires IsSubsequence(a, b) && IsSubsequence(c, d)
    ensures IsSubsequence(a + c, b + d)
    decreases |b|
  {
    if a == [] {
      assert a + c == c;
      SubsequenceWiden(c, d, b);
    } else {
      assert (b + d)[1..] == b[1..] + d;
      if a[0] == b[0] && IsSubsequence(a[1..], b[1..]) {
        SubsequenceConcat(a[1..], b[1..], c, d);
        assert (a + c)[1..] == a[1..] + c;
      } else {
        SubsequenceConcat(a, b[1..], c, d);
      }
    }
  }

  lemma {:induction false} SubsequenceCount(a: seq<string>, b: seq<string>, x: string)
    requires IsSubsequence(a, b)
    ensures Count(a, x) <= Count(b, x)
    decreases |b|
  {
    if a != [] {
      if a[0] == b[0] && IsSubsequence(a[1..], b[1..]) {
        SubsequenceCount(a[1..], b[1..], x);
      } else {
        SubsequenceCount(a, b[1..], x);
      }
    }
  }

  lemma {:induction false} SubsequenceOfSelf(a: seq<string>)
    ensures IsSubsequence(a, a)
    decreases |a|
  {
    if a != [] {
      SubsequenceOfSelf(a[1..]);
    }
  }

  /** The invoked processors of an execution follow the leaves of the tree, none twice. */
  lemma {:induction false} ExecFollowsTree(p: Processor, m: Metadata)
    ensures IsSubsequence(Invoked(Exec(p, m).trace), Leaves(p))
    decreases p, 0
  {
    match p
    case Leaf(tag, _, _) =>
      assert Invoked([Executed(tag, m)]) == [tag] + Invoked([]);
      SubsequenceOfSelf([tag]);
    case Compound(c) =>
      ExecCompoundFollowsTree(c, m);
  }

  lemma {:induction false} ExecCompoundFollowsTree(c: CompoundProcessor, m: Metadata)
    ensures IsSubsequence(Invoked(ExecCompound(c, m).trace), LeavesOf(c.processors) + LeavesOf(c.onFailureProcessors))
    decreases c, 1
  {
    RunListFollowsTree(c.processors, m);
    var lr := RunList(c.processors, m);
    var rest := LeavesOf(c.onFailureProcessors);
    if lr.Completed? {
      SubsequenceConcat(Invoked(lr.trace), LeavesOf(c.processors), [], rest);
      assert Invoked(lr.trace) + [] == Invoked(lr.trace);
    } else {
      var h := ExecOnFailure(c, lr.metadata, lr.message, lr.failedType);
      ExecOnFailureFollowsTree(c, lr.metadata, lr.message, lr.failedType);
      InvokedAppend(lr.trace, h.trace);
      SubsequenceConcat(Invoked(lr.trace), LeavesOf(c.processors), Invoked(h.trace), rest);
    }
  }

  lemma {:induction false} ExecOnFailureFollowsTree(c: CompoundProcessor, m: Metadata, message: string, failedType: string)
    ensures IsSubsequence(Invoked(ExecOnFailure(c, m, message, failedType).trace), LeavesOf(c.onFailureProcessors))
    decreases c, 0
  {
    var m1 := RecordFailure(m, message, failedType);
    RunListFollowsTree(c.onFailureProcessors, m1);
    var t := RunList(c.onFailureProcessors, m1).trace;
    var handled := [FailureHandled(message, failedType)];
    InvokedAppend(handled, t);
    assert handled[1..] == [];
    assert Invoked(handled) == [];
    assert Invoked(handled + t) == Invoked(t);
    assert ExecOnFailure(c, m, message, failedType).trace == handled + t;
  }

  lemma {:induction false} RunListFollowsTree(ps: seq<Processor>, m: Metadata)
    ensures IsSubsequence(Invoked(RunList(ps, m).trace), LeavesOf(ps))
    decreases ps, 0
  {
    if ps != [] {
      ExecFollowsTree(ps[0], m);
      var r := Exec(ps[0], m);
      if r.outcome.Success? {
        RunListFollowsTree(ps[1..], r.metadata);
        var rest := RunList(ps[1..], r.metadata);
        InvokedAppend(r.trace, rest.trace);
        SubsequenceConcat(Invoked(r.trace), Leaves(ps[0]), Invoked(rest.trace), LeavesOf(ps[1..]));
      } else {
        SubsequenceConcat(Invoked(r.trace), Leaves(ps[0]), [], LeavesOf(ps[1..]));
        assert Invoked(r.trace) + [] == Invoked(r.trace);
      }
    }
  }

  /**
   * No retry: during one execution a processor type is invoked at most as
   * many times as it occurs among the tree's leaves, so a type that occurs
   * once in the tree is invoked at most once.
   */
  lemma NoProcessorIsRetried(p: Processor, m: Metadata, tag: string)
    ensures Count(Invoked(Exec(p, m).trace), tag) <= Count(Leaves(p), tag)
  {
    ExecFollowsTree(p, m);
    SubsequenceCount(Invoked(Exec(p, m).trace), Leaves(p), tag);
  }

  // ---------------------------------------------------------------------
  // Outcomes: rethrow, recovery by on-failure processors
  // ---------------------------------------------------------------------

  /** Processors that are leaves which never throw. */
  ghost predicate NeverThrowingLeaves(ps: seq<Processor>)
  {
    forall i :: 0 <= i < |ps| ==> ps[i].Leaf? && !ps[i].fails
  }

  /** One `execute` call per tag, in order, each seeing metadata `m`. */
  function ExecutedEach(tags: seq<string>, m: Metadata): (t: seq<Event>)
    ensures |t| == |tags|
    ensures forall i :: 0 <= i < |t| ==> t[i] == Executed(tags[i], m)
    decreases |tags|
  {
    if tags == [] then [] else [Executed(tags[0], m)] + ExecutedEach(tags[1..], m)
  }

  /**
   * Leaves that never throw all run, each exactly once, in list order, each
   * seeing the metadata unchanged.
   */
  lemma {:induction false} NeverThrowingLeavesRunInOrder(ps: seq<Processor>, m: Metadata)
    requires NeverThrowingLeaves(ps)
    ensures RunList(ps, m) == Completed(m, ExecutedEach(LeavesOf(ps), m))
    decreases |ps|
  {
    if ps != [] {
      assert NeverThrowingLeaves(ps[1..]) by {
        forall i | 0 <= i < |ps[1..]| ensures ps[1..][i].Leaf? && !ps[1..][i].fails {
          assert ps[1..][i] == ps[i + 1];
        }
      }
      NeverThrowingLeavesRunInOrder(ps[1..], m);
      assert ps[0].Leaf? && !ps[0].fails;
      assert LeavesOf(ps) == [ps[0].tag] + LeavesOf(ps[1..]);
      assert (LeavesOf(ps))[1..] == LeavesOf(ps[1..]);
    }
  }

  /**
   * With no on-failure processors, the compound rethrows exactly the error of
   * its first failing processor, and no later processor runs.
   */
  lemma RethrowsFirstFailure(c: CompoundProcessor, k: nat, m: Metadata)
    requires c.onFailureProcessors == []
    requires k < |c.processors|
    requires RunList(c.processors[..k], m).Completed?
    requires Exec(c.processors[k], RunList(c.processors[..k], m).metadata).outcome.Failure?
    ensures var before := RunList(c.processors[..k], m);
      var r := Exec(c.processors[k], before.metadata);
      var result := ExecCompound(c, m);
      && result.outcome == Failure(r.outcome.message)
      && result.metadata == RecordFailure(r.metadata, r.outcome.message, GetType(c.processors[k]))
      && result.trace == before.trace + r.trace + [FailureHandled(r.outcome.message, GetType(c.processors[k]))]
  {
    StopsAtFirstFailure(c.processors, k, m);
    var before := RunList(c.processors[..k], m);
    var r := Exec(c.processors[k], before.metadata);
    var handled := [FailureHandled(r.outcome.message, GetType(c.processors[k]))];
    assert RunList([], RecordFailure(r.metadata, r.outcome.message, GetType(c.processors[k]))).trace == [];
    assert handled + [] == handled;
  }

  /**
   * When a processor fails and the on-failure processors never throw, the
   * compound succeeds: `executeOnFailure` is called once with the error and
   * the failing type, then every on-failure processor runs once, in order,
   * seeing the failure context.
   */
  lemma OnFailureRecovers(c: CompoundProcessor, m: Metadata)
    requires RunList(c.processors, m).Stopped?
    requires c.onFailureProcessors != []
    requires NeverThrowingLeaves(c.onFailureProcessors)
    ensures var lr := RunList(c.processors, m);
      var context := RecordFailure(lr.metadata, lr.message, lr.failedType);
      ExecCompound(c, m) == Run(Success, context,
        lr.trace + [FailureHandled(lr.message, lr.failedType)] + ExecutedEach(LeavesOf(c.onFailureProcessors), context))
  {
    var lr := RunList(c.processors, m);
    var context := RecordFailure(lr.metadata, lr.message, lr.failedType);
    NeverThrowingLeavesRunInOrder(c.onFailureProcessors, context);
    var handled := [FailureHandled(lr.message, lr.failedType)];
    var rest := ExecutedEach(LeavesOf(c.onFailureProcessors), context);
    assert lr.trace + (handled + rest) == lr.trace + handled + rest;
  }
}

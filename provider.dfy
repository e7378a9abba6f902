/**
 * The handlers package's vocabulary: its error values, the records the bot
 * reads (configuration, merge request information, candidates for clean-up),
 * and the abstract source-control provider every request talks to.
 *
 * The provider is not implemented here. It is an oracle: the reply to the
 * k-th call of a request is `replies(k, call)`, so any sequence of replies
 * can be expressed, and every call is appended to a trace that the
 * properties talk about.
 */
module Provider {
  import opened Wrappers

  // ------------------------------------------------------------------ errors

  /** The six package-level sentinel errors. */
  datatype Kind =
    | StatusError
    | ValidError
    | RepoSizeError
    | NotFoundError
    | DiscussionError
    | CommitNotFoundError

  function KindText(k: Kind): (t: string)
    ensures |t| > 0
  {
    match k
    case StatusError => "Is it opened?"
    case ValidError => "Your request can't be merged, because either it has conflicts or state is not opened"
    case RepoSizeError => "Repository size is greater than allowed size"
    case NotFoundError => "Resource is not found"
    case DiscussionError => "Could not find resolvable discussion for merge request"
    case CommitNotFoundError => "Commit was not found"
  }

  /**
   * A Go error value.
   *  - Sentinel: one of the package-level `*Error` values, compared by identity;
   *  - Plain: a fresh `&Error{text}`, never identical to a sentinel;
   *  - Conflict: the `MergeError` a failed branch update reports;
   *  - Wrapped: `fmt.Errorf("<context>: %w", inner)`;
   *  - Message: any other error (errors.New, a foreign library's error).
   */
  datatype Error =
    | Sentinel(kind: Kind)
    | Plain(text: string)
    | Conflict(sourceBranch: string, destinationBranch: string, text: string)
    | Wrapped(context: string, inner: Error)
    | Message(text: string)

  /** err.Error() */
  function Text(e: Error): string {
    match e
    case Sentinel(k) => KindText(k)
    case Plain(t) => t
    case Conflict(_, _, t) => t
    case Wrapped(c, inner) => c + ": " + Text(inner)
    case Message(t) => t
  }

  /** errors.Is(e, sentinel): follows the %w chain and compares identities. */
  predicate Is(e: Error, k: Kind) {
    match e
    case Sentinel(k') => k' == k
    case Wrapped(_, inner) => Is(inner, k)
    case _ => false
  }

  /** errors.As(e, &mergeError): the first MergeError on the %w chain. */
  function AsConflict(e: Error): (r: Option<(string, string)>)
    ensures e.Conflict? ==> r == Some((e.sourceBranch, e.destinationBranch))
    ensures e.Sentinel? || e.Plain? || e.Message? ==> r.None?
  {
    match e
    case Conflict(s, d, _) => Some((s, d))
    case Wrapped(_, inner) => AsConflict(inner)
    case _ => None
  }

  /** fmt.Errorf("<context>: %w", e) when a context is given, e itself otherwise. */
  function Wrap(context: Option<string>, e: Error): (r: Error)
    ensures forall k :: Is(r, k) <==> Is(e, k)
    ensures AsConflict(r) == AsConflict(e)
  {
    if context.Some? then Wrapped(context.value, e) else e
  }

  /**
   * Error.Error returns the text it was built with, and the six sentinels are
   * distinct values: errors.Is matches a sentinel only against itself.
   */
  lemma SentinelsDistinct(a: Kind, b: Kind)
    ensures Text(Sentinel(a)) == KindText(a)
    ensures a != b ==> Sentinel(a) != Sentinel(b)
    ensures Is(Sentinel(a), b) <==> a == b
  {
  }

  /** A fresh &Error with a sentinel's text is still not that sentinel. */
  lemma PlainIsNoSentinel(t: string, k: Kind)
    ensures !Is(Plain(t), k)
    ensures Text(Plain(t)) == t
  {
  }

  // ------------------------------------------------------------ data model

  datatype ResetApprovalsOnPush = ResetApprovalsOnPush(enabled: bool, issueToken: bool, projectVarName: string)

  /** `approvers` keeps YAML's distinction between a missing list (None) and an empty one (Some([])). */
  datatype Rules = Rules(
    minApprovals: int,
    approvers: Option<seq<string>>,
    allowFailingPipelines: bool,
    allowFailingTests: bool,
    titleRegex: string,
    allowEmptyDescription: bool,
    resetApprovalsOnPush: ResetApprovalsOnPush)

  datatype Greetings = Greetings(enabled: bool, resolvable: bool, template: string)

  datatype StaleBranchesDeletion = StaleBranchesDeletion(
    enabled: bool, protected: bool, days: int, batchSize: int, waitDays: int)

  datatype Config = Config(
    rules: Rules,
    greetings: Greetings,
    autoMasterMerge: bool,
    staleBranchesDeletion: StaleBranchesDeletion,
    pluginVars: Option<map<string, string>>)

  /** What the provider tells about one merge request; `approvals` is a set of user names. */
  datatype MrInfo = MrInfo(
    projectId: int,
    id: int,
    labels: seq<string>,
    targetBranch: string,
    sourceBranch: string,
    approvals: set<string>,
    author: string,
    failedPipelines: int,
    failedTests: int,
    title: string,
    description: string,
    configContent: string,
    isValid: bool)

  /** Timestamps are integers (nanoseconds, like time.Time differences). */
  datatype MR = MR(id: int, branch: string, labels: seq<string>, lastUpdated: int)

  datatype StaleBranch = StaleBranch(name: string, lastUpdated: int, protected: bool)

  // ------------------------------------------------------- provider calls

  /** One call of the RequestProvider interface. */
  datatype Call =
    | ListBranches(projectId: int, size: int)
    | DeleteBranch(projectId: int, name: string)
    | LeaveComment(projectId: int, mergeId: int, message: string)
    | LeaveNote(projectId: int, mergeId: int, message: string)
    | UnresolveDiscussion(projectId: int, mergeId: int)
    | Merge(projectId: int, mergeId: int, message: string)
    | GetMRInfo(projectId: int, mergeId: int, path: string)
    | ListMergeRequests(projectId: int, size: int)
    | FindMergeRequests(projectId: int, targetBranch: string, labelName: string)
    | UpdateFromMaster(projectId: int, mergeId: int)
    | AssignLabel(projectId: int, mergeId: int, name: string, color: string)
    | ResetApprovals(projectId: int, mergeId: int, updatedAt: int, config: ResetApprovalsOnPush)
    | CreateLabel(projectId: int, name: string, color: string)
    | GetVar(projectId: int, varName: string)
    | RerunPipeline(projectId: int, pipelineId: int, ref: string)

  /**
   * A reply: the error (None for nil) and whichever result the call has —
   * a text (GetVar, RerunPipeline), merge requests, branches, or MR information.
   */
  datatype Reply = Reply(err: Option<Error>, text: string, mrs: seq<MR>, branches: seq<StaleBranch>, info: MrInfo)

  /** The reply to the k-th call. */
  type Oracle = (nat, Call) -> Reply

  /** A live provider: its replies and the calls made through it so far. */
  class RequestProvider {
    const replies: Oracle
    var calls: seq<Call>

    constructor(replies: Oracle)
      ensures this.replies == replies && calls == []
    {
      this.replies := replies;
      calls := [];
    }

    /** Make one call: it is appended to the trace and answered by the oracle. */
    method Invoke(c: Call) returns (r: Reply)
      modifies this
      ensures calls == old(calls) + [c]
      ensures r == replies(|old(calls)|, c)
    {
      r := replies(|calls|, c);
      calls := calls + [c];
    }

    /** One `if err := call(); err != nil { return wrap(err) }`: make the call and wrap its error. */
    method Try(s: Step) returns (err: Option<Error>)
      modifies this
      ensures calls == old(calls) + [s.call]
      ensures var e := replies(|old(calls)|, s.call).err;
              err == if e.Some? then Some(Wrap(s.context, e.value)) else None
    {
      var r := Invoke(s.call);
      err := if r.err.Some? then Some(Wrap(s.context, r.err.value)) else None;
    }

    /**
     * Try, as step k of a plan whose first k steps, issued after the calls
     * `base`, all succeeded: on success the first k + 1 steps have; on failure
     * the plan's run ends here, with err.
     */
    method TryAt(s: Step, ghost base: seq<Call>, ghost plan: seq<Step>, ghost k: nat) returns (reply: Reply, err: Option<Error>)
      requires Progress(replies, base, calls, plan, k) && k < |plan| && plan[k] == s
      modifies this
      ensures reply == replies(|old(calls)|, s.call)
      ensures calls == old(calls) + [s.call]
      ensures err.None? <==> reply.err.None?
      ensures err.None? ==> Progress(replies, base, calls, plan, k + 1)
      ensures err.Some? ==> Finished(replies, base, calls, plan, err)
    {
      assert plan[..k + 1] == plan[..k] + [s];
      assert plan == plan[..k] + [s] + plan[k + 1..];
      ExecuteStep(replies, |base|, plan[..k], s, plan[k + 1..]);
      reply := Invoke(s.call);
      err := if reply.err.Some? then Some(Wrap(s.context, reply.err.value)) else None;
      assert Calls(plan[..k + 1]) == Calls(plan[..k]) + [s.call];
    }

    /** Run a plan of calls up to its first failure (see Execute). */
    method Perform(plan: seq<Step>) returns (err: Option<Error>)
      modifies this
      ensures calls == old(calls) + Execute(replies, |old(calls)|, plan).calls
      ensures err == Execute(replies, |old(calls)|, plan).err
    {
      var i := 0;
      err := None;
      ghost var n := |calls|;
      while i < |plan|
        invariant 0 <= i <= |plan|
        invariant Execute(replies, n, plan[..i]).err.None?
        invariant calls == old(calls) + Execute(replies, n, plan[..i]).calls
        invariant |calls| == n + i
        decreases |plan| - i
      {
        ExecuteAppend(replies, n, plan[..i], [plan[i]]);
        assert plan[..i + 1] == plan[..i] + [plan[i]];
        var r := Invoke(plan[i].call);
        if r.err.Some? {
          ExecuteAppend(replies, n, plan[..i + 1], plan[i + 1..]);
          assert plan[..i + 1] + plan[i + 1..] == plan;
          return Some(Wrap(plan[i].context, r.err.value));
        }
        i := i + 1;
      }
      assert plan[..i] == plan;
    }
  }

  // ------------------------------------------------ first-error execution

  /** One planned call and the context its error is wrapped with (None: returned as is). */
  datatype Step = Step(call: Call, context: Option<string>)

  /** The calls made and the error returned. */
  datatype Run = Run(calls: seq<Call>, err: Option<Error>)

  function Calls(plan: seq<Step>): (cs: seq<Call>)
    ensures |cs| == |plan|
    ensures forall i :: 0 <= i < |plan| ==> cs[i] == plan[i].call
  {
    if plan == [] then [] else [plan[0].call] + Calls(plan[1..])
  }

  lemma {:induction false} CallsAppend(a: seq<Step>, b: seq<Step>)
    ensures Calls(a + b) == Calls(a) + Calls(b)
  {
    var l, r := Calls(a + b), Calls(a) + Calls(b);
    assert |l| == |r|;
    forall i | 0 <= i < |l|
      ensures l[i] == r[i]
    {
      if i < |a| {
        assert (a + b)[i] == a[i];
      } else {
        assert (a + b)[i] == b[i - |a|];
      }
    }
  }

  /**
   * The Go idiom `if err := call(); err != nil { return wrap(err) }`, repeated
   * for each planned call, starting at trace index n.
   */
  function Execute(o: Oracle, n: nat, plan: seq<Step>): (r: Run)
    decreases |plan|
  {
    if plan == [] then Run([], None)
    else
      var reply := o(n, plan[0].call);
      if reply.err.Some? then Run([plan[0].call], Some(Wrap(plan[0].context, reply.err.value)))
      else
        var rest := Execute(o, n + 1, plan[1..]);
        Run([plan[0].call] + rest.calls, rest.err)
  }

  /** The calls after `base` are the first k steps of the plan, and all of them succeeded. */
  ghost predicate Progress(o: Oracle, base: seq<Call>, calls: seq<Call>, plan: seq<Step>, k: nat) {
    && k <= |plan|
    && calls == base + Calls(plan[..k])
    && Execute(o, |base|, plan[..k]) == Run(Calls(plan[..k]), None)
  }

  /** The calls after `base` are the whole run of the plan, which ended with err. */
  ghost predicate Finished(o: Oracle, base: seq<Call>, calls: seq<Call>, plan: seq<Step>, err: Option<Error>) {
    && |base| <= |calls| && calls[..|base|] == base
    && Execute(o, |base|, plan) == Run(calls[|base|..], err)
  }

  /** A finished run after `base` is the method's whole contribution to the trace. */
  lemma FinishedTrace(o: Oracle, base: seq<Call>, calls: seq<Call>, plan: seq<Step>, err: Option<Error>)
    requires Finished(o, base, calls, plan, err)
    ensures calls == base + Execute(o, |base|, plan).calls && err == Execute(o, |base|, plan).err
  {
    assert calls == calls[..|base|] + calls[|base|..];
  }

  /** Nothing issued yet is progress; the whole plan issued without error is its finished run. */
  lemma ProgressEnds(o: Oracle, base: seq<Call>, calls: seq<Call>, plan: seq<Step>)
    ensures calls == base ==> Progress(o, base, calls, plan, 0)
    ensures Progress(o, base, calls, plan, |plan|) ==> Finished(o, base, calls, plan, None)
  {
    assert plan[..0] == [];
    assert plan[..|plan|] == plan;
    if calls == base {
      assert Calls([]) == [];
      assert base + [] == base;
    }
  }

  /** The calls made are a prefix of the plan, issued in plan order. */
  lemma {:induction false} ExecutePrefix(o: Oracle, n: nat, plan: seq<Step>)
    ensures var r := Execute(o, n, plan);
            |r.calls| <= |plan| && r.calls == Calls(plan)[..|r.calls|]
    decreases |plan|
  {
    if plan != [] {
      ExecutePrefix(o, n + 1, plan[1..]);
      assert Calls(plan) == [plan[0].call] + Calls(plan[1..]);
    }
  }

  /** Without an error every planned call was made, and every one of them succeeded. */
  lemma {:induction false} ExecuteSucceeds(o: Oracle, n: nat, plan: seq<Step>)
    ensures var r := Execute(o, n, plan);
            r.err.None? ==>
              && r.calls == Calls(plan)
              && (forall i :: 0 <= i < |plan| ==> o(n + i, plan[i].call).err.None?)
    decreases |plan|
  {
    if plan != [] {
      ExecuteSucceeds(o, n + 1, plan[1..]);
      var r := Execute(o, n, plan);
      if r.err.None? {
        assert Calls(plan) == [plan[0].call] + Calls(plan[1..]);
        forall i | 1 <= i < |plan| ensures o(n + i, plan[i].call).err.None? {
          assert plan[1..][i - 1] == plan[i];
        }
      }
    }
  }

  /**
   * With an error, the calls made are the plan up to and including the first
   * failing one; every earlier call succeeded and the error is that call's,
   * wrapped with its context.
   */
  lemma ExecuteFails(o: Oracle, n: nat, plan: seq<Step>)
    ensures var r := Execute(o, n, plan);
            r.err.Some? ==>
              && 1 <= |r.calls| <= |plan|
              && r.calls == Calls(plan[..|r.calls|])
              && (forall i :: 0 <= i < |r.calls| - 1 ==> o(n + i, plan[i].call).err.None?)
              && (var last := |r.calls| - 1;
                  && o(n + last, plan[last].call).err.Some?
                  && r.err.value == Wrap(plan[last].context, o(n + last, plan[last].call).err.value))
  {
    ExecuteCallsPrefix(o, n, plan);
    ExecuteEarlierSucceed(o, n, plan);
    ExecuteLastFails(o, n, plan);
  }

  /** The calls made are the plan's first steps, in order. */
  lemma {:induction false} ExecuteCallsPrefix(o: Oracle, n: nat, plan: seq<Step>)
    ensures var r := Execute(o, n, plan);
            |r.calls| <= |plan| && r.calls == Calls(plan[..|r.calls|])
    decreases |plan|
  {
    if plan != [] && o(n, plan[0].call).err.None? {
      ExecuteCallsPrefix(o, n + 1, plan[1..]);
      var rest := Execute(o, n + 1, plan[1..]);
      assert plan[..|rest.calls| + 1] == [plan[0]] + plan[1..][..|rest.calls|];
      CallsAppend([plan[0]], plan[1..][..|rest.calls|]);
    } else if plan != [] {
      assert plan[..1] == [plan[0]];
    }
  }

  /** Every call before the last one made succeeded. */
  lemma {:induction false} ExecuteEarlierSucceed(o: Oracle, n: nat, plan: seq<Step>)
    ensures var r := Execute(o, n, plan);
            && |r.calls| <= |plan|
            && forall i :: 0 <= i < |r.calls| - 1 ==> o(n + i, plan[i].call).err.None?
    decreases |plan|
  {
    if plan != [] && o(n, plan[0].call).err.None? {
      ExecuteEarlierSucceed(o, n + 1, plan[1..]);
      var r, rest := Execute(o, n, plan), Execute(o, n + 1, plan[1..]);
      forall i | 0 <= i < |r.calls| - 1 ensures o(n + i, plan[i].call).err.None? {
        if i > 0 {
          assert plan[1..][i - 1] == plan[i];
        }
      }
    }
  }

  /** A run that failed ended on a failing call, and returns that call's error wrapped with its context. */
  lemma {:induction false} ExecuteLastFails(o: Oracle, n: nat, plan: seq<Step>)
    ensures var r := Execute(o, n, plan);
            r.err.Some? ==>
              && 1 <= |r.calls| <= |plan|
              && (var last := |r.calls| - 1;
                  && o(n + last, plan[last].call).err.Some?
                  && r.err.value == Wrap(plan[last].context, o(n + last, plan[last].call).err.value))
    decreases |plan|
  {
    if plan != [] && o(n, plan[0].call).err.None? {
      ExecuteLastFails(o, n + 1, plan[1..]);
      var rest := Execute(o, n + 1, plan[1..]);
      if rest.err.Some? {
        assert plan[1..][|rest.calls| - 1] == plan[|rest.calls|];
      }
    }
  }

  /** Running two plans back to back is running their concatenation, when the first one succeeds. */
  lemma {:induction false} ExecuteAppend(o: Oracle, n: nat, p: seq<Step>, q: seq<Step>)
    ensures var a := Execute(o, n, p);
            a.err.None? ==>
              (|a.calls| == |p| &&
               Execute(o, n, p + q) == Run(a.calls + Execute(o, n + |p|, q).calls, Execute(o, n + |p|, q).err))
    ensures Execute(o, n, p).err.Some? ==> Execute(o, n, p + q) == Execute(o, n, p)
    decreases |p|
  {
    if p != [] {
      assert (p + q)[0] == p[0];
      assert (p + q)[1..] == p[1..] + q;
      ExecuteAppend(o, n + 1, p[1..], q);
    } else {
      assert p + q == q;
    }
  }

  /**
   * One more step after a successful prefix `done`: on success the prefix
   * grows by it; on failure the run of any plan continuing `done + [s]` ends
   * right there with this step's wrapped error.
   */
  lemma ExecuteStep(o: Oracle, n: nat, done: seq<Step>, s: Step, rest: seq<Step>)
    requires Execute(o, n, done) == Run(Calls(done), None)
    ensures var e := o(n + |done|, s.call).err;
            && (e.None? ==> Execute(o, n, done + [s]) == Run(Calls(done + [s]), None))
            && (e.Some? ==> Execute(o, n, done + [s] + rest) == Run(Calls(done + [s]), Some(Wrap(s.context, e.value))))
  {
    ExecuteAppend(o, n, done, [s]);
    ExecuteAppend(o, n, done + [s], rest);
    assert Execute(o, n + |done| + 1, []) == Run([], None);
    assert [s][1..] == [];
    assert Calls(done + [s]) == Calls(done) + [s.call];
  }

  /**
   * The first-error behaviour as seen on the trace: without an error every
   * call made succeeded; with one, the last call made failed and every
   * earlier one succeeded.
   */
  lemma ExecuteFirstError(o: Oracle, n: nat, plan: seq<Step>)
    ensures var r := Execute(o, n, plan);
            && (r.err.None? ==> r.calls == Calls(plan) && forall i :: 0 <= i < |r.calls| ==> o(n + i, r.calls[i]).err.None?)
            && (r.err.Some? ==>
                  && 1 <= |r.calls| && o(n + |r.calls| - 1, r.calls[|r.calls| - 1]).err.Some?
                  && forall i :: 0 <= i < |r.calls| - 1 ==> o(n + i, r.calls[i]).err.None?)
  {
    var r := Execute(o, n, plan);
    ExecuteSucceeds(o, n, plan);
    ExecuteFails(o, n, plan);
    if r.err.Some? {
      forall i | 0 <= i < |r.calls| ensures r.calls[i] == plan[i].call {
        assert r.calls[i] == Calls(plan[..|r.calls|])[i];
      }
    }
  }

  /** A plan that opens with step a: its run opens with a's call, and its calls are a's and then the rest's. */
  lemma ExecuteOpens(o: Oracle, n: nat, a: Step, rest: seq<Step>)
    ensures var r := Execute(o, n, [a] + rest);
            1 <= |r.calls| && r.calls[0] == a.call
    ensures Calls([a] + rest) == [a.call] + Calls(rest)
  {
    assert ([a] + rest)[0] == a;
    assert ([a] + rest)[1..] == rest;
  }
}

/**
 * The bot's commands and event handlers (commands.go): short decision chains
 * over one merge request's Request, each stopping at the first error, and
 * the table that binds them to their command and event names.
 */
module Commands {
  import opened Wrappers
  import opened Strings
  import opened Provider
  import opened Checkers
  import opened Requests
  import opened Webhooks
  import opened Bot

  /** The functions init binds. */
  datatype Command =
    | MergeCmd
    | CheckCmd
    | UpdateBranchCmd
    | RerunPipeline
    | NewMR
    | MergeEvent
    | UpdateEvent

  /** The seven names init binds, in order. */
  function Names(): seq<string> {
    ["!merge", "!check", "!update", "!rerun", OnNewMR, OnMerge, OnUpdate]
  }

  /** The functions bound to them, in the same order. */
  function Functions(): seq<Command> {
    [MergeCmd, CheckCmd, UpdateBranchCmd, Command.RerunPipeline, NewMR, MergeEvent, UpdateEvent]
  }

  /**
   * The seven names differ pairwise (the commands in their second letter,
   * the events from the commands in their first), so no binding of init
   * replaces another.
   */
  lemma NamesDistinct()
    ensures |Names()| == |Functions()| == 7
    ensures forall i, j :: 0 <= i < j < |Names()| ==> Names()[i] != Names()[j]
    ensures forall i, j :: 0 <= i < j < |Functions()| ==> Functions()[i] != Functions()[j]
  {
    var ns := Names();
    assert ns[0][1] == 'm' && ns[1][1] == 'c' && ns[2][1] == 'u' && ns[3][1] == 'r';
    assert ns[4][1] == 'n' && ns[5][1] == 'm' && ns[6][1] == 'u';
    assert ns[0][0] == '!' && ns[1][0] == '!' && ns[2][0] == '!' && ns[3][0] == '!';
    assert ns[4][0] == '\U{7}' && ns[5][0] == '\U{7}' && ns[6][0] == '\U{7}';
  }

  /**
   * init: bind the four "!" commands and the three events. Afterwards name i
   * is bound to function i and every other binding is as it was.
   */
  method Init(bot: Bot<Command>)
    modifies bot
    ensures forall i :: 0 <= i < |Names()| ==> Names()[i] in bot.handlerFuncs && bot.handlerFuncs[Names()[i]] == Functions()[i]
    ensures forall k :: k !in Names() ==> (k in bot.handlerFuncs <==> k in old(bot.handlerFuncs))
    ensures forall k :: k in old(bot.handlerFuncs) && k !in Names() ==> bot.handlerFuncs[k] == old(bot.handlerFuncs)[k]
    ensures bot.effects == old(bot.effects)
  {
    NamesDistinct();
    bot.Handle("!merge", MergeCmd);
    bot.Handle("!check", CheckCmd);
    bot.Handle("!update", UpdateBranchCmd);
    bot.Handle("!rerun", Command.RerunPipeline);
    bot.Handle(OnNewMR, NewMR);
    bot.Handle(OnMerge, MergeEvent);
    bot.Handle(OnUpdate, UpdateEvent);
  }

  /** fmt.Errorf("<context>: %w", err) for a non-nil error. */
  function Errorf(context: string, e: Option<Error>): (r: Option<Error>)
    ensures r.None? <==> e.None?
    ensures e.Some? ==> r.value.Wrapped? && r.value.inner == e.value
  {
    if e.Some? then Some(Wrapped(context, e.value)) else None
  }

  // --------------------------------------------------------------- !update

  const UpdateFailedComment: string := "\U{274C} i couldn't update the branch from the destination"

  /**
   * The conflict instructions, the template's four %s filled in order with
   * the destination, the destination, the source and the destination branch.
   */
  function ConflictComment(destination: string, source: string): string {
    Join(["",
          "\U{1F6E0}\U{FE0F} I failed to merge " + destination + " into your branch, you have to resolve conflicts manually",
          "",
          "<details>",
          "<summary>",
          "How to merge branch manually:",
          "</summary>",
          "<pre><code>git checkout " + destination,
          "git pull origin",
          "git checkout " + source,
          "git merge " + destination,
          "# resolve conflicts",
          "git push origin</code></pre>",
          "",
          "</details>",
          ""], "\n")
  }

  /** The comment for a failed update: conflict instructions for a MergeError (found through any wrapping), else the generic one. */
  function UpdateFailure(e: Error): string {
    match AsConflict(e)
    case Some((source, destination)) => ConflictComment(destination, source)
    case None => UpdateFailedComment
  }

  /** UpdateBranchCmd against replies o from trace index n. */
  function UpdateBranchRun(o: Oracle, n: nat, info: MrInfo): Run {
    var update := UpdateFromMaster(info.projectId, info.id);
    var e := o(n, update).err;
    if e.None? then Run([update], None)
    else
      var comment := LeaveComment(info.projectId, info.id, UpdateFailure(e.value));
      Run([update, comment], o(n + 1, comment).err)
  }

  method UpdateBranch(command: Request) returns (err: Option<Error>)
    requires command.info.Some?
    modifies command.provider
    ensures var r := UpdateBranchRun(command.provider.replies, |old(command.provider.calls)|, command.info.value);
            command.provider.calls == old(command.provider.calls) + r.calls && err == r.err
  {
    var e := command.UpdateFromMaster();
    match e {
      case Some(failure) =>
        match AsConflict(failure) {
          case Some((source, destination)) =>
            err := command.LeaveComment(ConflictComment(destination, source));
          case None =>
            err := command.LeaveComment(UpdateFailedComment);
        }
      case None =>
        err := None;
    }
  }

  /** A successful update leaves no comment and returns nil. */
  lemma UpdateBranchSucceeds(o: Oracle, n: nat, info: MrInfo)
    ensures var update := UpdateFromMaster(info.projectId, info.id);
            o(n, update).err.None? <==> UpdateBranchRun(o, n, info) == Run([update], None)
  {
  }

  /**
   * A failed update leaves exactly one comment and returns that comment's
   * own error: the conflict instructions when the error is a MergeError,
   * the generic comment for any other unwrapped error.
   */
  lemma UpdateBranchFails(o: Oracle, n: nat, info: MrInfo)
    requires o(n, UpdateFromMaster(info.projectId, info.id)).err.Some?
    ensures var r := UpdateBranchRun(o, n, info);
            var update := UpdateFromMaster(info.projectId, info.id);
            var e := o(n, update).err.value;
            && |r.calls| == 2 && r.calls[0] == update && r.err == o(n + 1, r.calls[1]).err
            && (e.Conflict? ==>
                  r.calls[1] == LeaveComment(info.projectId, info.id, ConflictComment(e.destinationBranch, e.sourceBranch)))
            && (e.Sentinel? || e.Plain? || e.Message? ==>
                  r.calls[1] == LeaveComment(info.projectId, info.id, UpdateFailedComment))
  {
  }

  /** A MergeError fails the update the same way whether or not it has been wrapped. */
  lemma WrappedConflictSameComment(context: string, e: Error)
    ensures UpdateFailure(Wrapped(context, e)) == UpdateFailure(e)
  {
  }

  // ---------------------------------------------------------------- !merge

  /** MergeCmd against replies o from trace index n, when IsValid's verdict is `verdict`. */
  function MergeCmdRun(o: Oracle, n: nat, config: Config, info: MrInfo, verdict: (bool, string)): Run {
    var m := MergeRun(o, n, config, info, verdict);
    if m.err.Some? then Run(m.calls, Errorf("command.Merge returns err", m.err))
    else if !m.ok then
      var comment := LeaveComment(info.projectId, info.id, m.text);
      Run(m.calls + [comment], o(n + |m.calls|, comment).err)
    else Run(m.calls, None)
  }

  method MergeCommand(command: Request, engine: RegexEngine) returns (err: Option<Error>)
    requires command.Loaded()
    modifies command.provider
    ensures var r := MergeCmdRun(command.provider.replies, |old(command.provider.calls)|, command.config.value,
                                 command.info.value, Verdict(engine, command.config.value, command.info.value));
            command.provider.calls == old(command.provider.calls) + r.calls && err == r.err
  {
    ghost var calls0 := command.provider.calls;
    var ok, text, e := command.Merge(engine);
    ghost var calls1 := command.provider.calls;
    if e.Some? {
      err := Some(Wrapped("command.Merge returns err", e.value));
    } else if !ok {
      err := command.LeaveComment(text);
    } else {
      err := None;
    }
    MergeCmdTrace(command.provider.replies, command.config.value, command.info.value,
                  Verdict(engine, command.config.value, command.info.value), calls0, calls1, ok, text, e, command.provider.calls, err);
  }

  /** The trace MergeCmd leaves, given what Merge returned and which branch followed. */
  lemma MergeCmdTrace(o: Oracle, config: Config, info: MrInfo, verdict: (bool, string), calls0: seq<Call>, calls1: seq<Call>,
                      ok: bool, text: string, e: Option<Error>, calls: seq<Call>, err: Option<Error>)
    requires var m := MergeRun(o, |calls0|, config, info, verdict);
             calls1 == calls0 + m.calls && ok == m.ok && text == m.text && e == m.err
    requires e.Some? ==> calls == calls1 && err == Some(Wrapped("command.Merge returns err", e.value))
    requires e.None? && !ok ==> var comment := LeaveComment(info.projectId, info.id, text);
                                calls == calls1 + [comment] && err == o(|calls1|, comment).err
    requires e.None? && ok ==> calls == calls1 && err == None
    ensures var r := MergeCmdRun(o, |calls0|, config, info, verdict);
            calls == calls0 + r.calls && err == r.err
  {
    var m := MergeRun(o, |calls0|, config, info, verdict);
    if e.None? && !ok {
      Concat3(calls0, m.calls, [LeaveComment(info.projectId, info.id, text)]);
    }
  }

  predicate IsComment(c: Call) { c.LeaveComment? }

  /**
   * A failing Merge is returned wrapped and leaves no comment; a merge
   * request that is not ready gets exactly one comment, the report, as the
   * last call and nothing is merged; a merged one gets no comment.
   */
  lemma MergeCmdOutcome(o: Oracle, n: nat, config: Config, info: MrInfo, verdict: (bool, string))
    ensures var m := MergeRun(o, n, config, info, verdict);
            var r := MergeCmdRun(o, n, config, info, verdict);
            && (m.err.Some? ==> r.err.Some? && r.err.value == Wrapped("command.Merge returns err", m.err.value)
                                && forall i :: 0 <= i < |r.calls| ==> !IsComment(r.calls[i]))
            && (m.err.None? && !m.ok ==>
                  && r.calls == m.calls + [LeaveComment(info.projectId, info.id, m.text)]
                  && !verdict.0 && m.text == verdict.1
                  && forall i :: 0 <= i < |r.calls| ==> !IsMergeCall(r.calls[i]))
            && (m.ok ==> r.err.None? && forall i :: 0 <= i < |r.calls| ==> !IsComment(r.calls[i]))
  {
    var m := MergeRun(o, n, config, info, verdict);
    MergeDecision(o, n, config, info, verdict);
    assert forall i :: 0 <= i < |m.calls| ==> m.calls[i].UpdateFromMaster? || m.calls[i].Merge?;
  }

  // ---------------------------------------------------------------- !check

  /** CheckCmd: the report is posted as a note whether or not the checks pass. */
  method CheckCommand(command: Request, engine: RegexEngine) returns (err: Option<Error>)
    requires command.Loaded()
    modifies command.provider
    ensures var note := LeaveNote(command.info.value.projectId, command.info.value.id,
                                  Verdict(engine, command.config.value, command.info.value).1);
            && command.provider.calls == old(command.provider.calls) + [note]
            && err == command.provider.replies(|old(command.provider.calls)|, note).err
  {
    var _, text, e := command.IsValid(engine);
    match e {
      case Some(failure) =>
        return Some(Wrapped("command.IsValid returns err", failure));
      case None =>
    }
    err := command.LeaveNote(text);
  }

  // ----------------------------------------------------------------- NewMR

  /** NewMR: the greeting, its error wrapped. */
  method NewMRCommand(command: Request, render: Renderer) returns (err: Option<Error>)
    requires command.Loaded()
    modifies command.provider
    ensures !command.config.value.greetings.enabled ==>
              err.None? && command.provider.calls == old(command.provider.calls)
    ensures command.config.value.greetings.enabled ==>
              match render(command.config.value.greetings.template, command.config.value.rules)
              case Failure(e) => err == Some(Wrapped("command.Greetings returns err", e)) && command.provider.calls == old(command.provider.calls)
              case Success(text) =>
                var c := LeaveComment(command.info.value.projectId, command.info.value.id, text);
                && command.provider.calls == old(command.provider.calls) + [c]
                && err == Errorf("command.Greetings returns err", command.provider.replies(|old(command.provider.calls)|, c).err)
  {
    var e := command.Greetings(render);
    match e {
      case Some(failure) =>
        return Some(Wrapped("command.Greetings returns err", failure));
      case None =>
        return None;
    }
  }

  // ------------------------------------------------------------ MergeEvent

  /** The contexts MergeEvent wraps its steps' errors with. */
  const CreateLabelsFailed: string := "command.CreateLabels returns err"
  const UpdateBranchesFailed: string := "command.UpdateBranchesWithLabel returns err"
  const DeleteStaleBranchesFailed: string := "command.DeleteStaleBranches returns err"

  /**
   * MergeEvent: create the labels, then submit the branch updates, then the
   * stale clean-up, each failure returned wrapped and ending the chain.
   */
  method MergeEventCommand(command: Request, limiters: Limiters) returns (err: Option<Error>)
    requires command.Loaded() && limiters.Valid()
    modifies command.provider, limiters.updateBranch, limiters.deleteStaleBranches
    ensures limiters.Valid()
    ensures var o := command.provider.replies;
            var n := |old(command.provider.calls)|;
            var info := command.info.value;
            var labels := Execute(o, n, CreateLabelsPlan(info.projectId));
            var find := FindMergeRequests(info.projectId, info.targetBranch, AutoUpdateLabel);
            var found := o(n + |labels.calls|, find);
            && (labels.err.Some? ==>
                  && command.provider.calls == old(command.provider.calls) + labels.calls
                  && err == Errorf(CreateLabelsFailed, labels.err)
                  && limiters.updateBranch.counters == old(limiters.updateBranch.counters)
                  && limiters.updateBranch.spawned == old(limiters.updateBranch.spawned))
            && (labels.err.None? ==>
                  command.provider.calls == old(command.provider.calls) + labels.calls + [find])
            && (labels.err.None? && found.err.Some? ==>
                  && err == Errorf(UpdateBranchesFailed, found.err)
                  && limiters.updateBranch.counters == old(limiters.updateBranch.counters)
                  && limiters.updateBranch.spawned == old(limiters.updateBranch.spawned))
            && (labels.err.None? && found.err.None? ==>
                  && err.None?
                  && var (t, accepted) := SubmitAll(old(limiters.updateBranch.counters), 2, UpdateTasks(info.projectId, found.mrs));
                     limiters.updateBranch.counters == t && limiters.updateBranch.spawned == old(limiters.updateBranch.spawned) + accepted)
            && (err.Some? || !command.config.value.staleBranchesDeletion.enabled ==>
                  && limiters.deleteStaleBranches.counters == old(limiters.deleteStaleBranches.counters)
                  && limiters.deleteStaleBranches.spawned == old(limiters.deleteStaleBranches.spawned))
            && (err.None? && command.config.value.staleBranchesDeletion.enabled ==>
                  var (t, accepted) := SubmitAll(old(limiters.deleteStaleBranches.counters), 1, CleanupTasks(info.projectId));
                  limiters.deleteStaleBranches.counters == t && limiters.deleteStaleBranches.spawned == old(limiters.deleteStaleBranches.spawned) + accepted)
  {
    var e := command.CreateLabels();
    match e {
      case Some(failure) =>
        return Some(Wrapped(CreateLabelsFailed, failure));
      case None =>
    }
    e := command.UpdateBranches(limiters);
    match e {
      case Some(failure) =>
        return Some(Wrapped(UpdateBranchesFailed, failure));
      case None =>
    }
    e := command.DeleteStaleBranches(limiters);
    match e {
      case Some(failure) =>
        return Some(Wrapped(DeleteStaleBranchesFailed, failure));
      case None =>
    }
    err := None;
  }

  // ----------------------------------------------------------- UpdateEvent

  /** The layout UpdateEvent hands to time.Parse. */
  const UpdateTimeLayout: string := "2006-01-02 15:04:05 UTC"

  /** time.Parse(layout, value), which the model does not implement: the instant, or the parse error. */
  type TimeParser = (string, string) -> Result<int, Error>

  /** UpdateEvent against replies o from trace index n. */
  function UpdateEventRun(o: Oracle, n: nat, config: Config, info: MrInfo, parse: TimeParser, args: string): Run {
    var unresolve := UnresolveDiscussion(info.projectId, info.id);
    var e := o(n, unresolve).err;
    if e.Some? then Run([unresolve], e)
    else match parse(UpdateTimeLayout, args)
      case Failure(pe) => Run([unresolve], Some(Wrapped("time.Parse returns err", pe)))
      case Success(t) =>
        if !config.rules.resetApprovalsOnPush.enabled then Run([unresolve], None)
        else
          var reset := ResetApprovals(info.projectId, info.id, t, config.rules.resetApprovalsOnPush);
          Run([unresolve, reset], Errorf("command.ResetApprovals returns err", o(n + 1, reset).err))
  }

  method UpdateEventCommand(command: Request, args: string, parse: TimeParser) returns (err: Option<Error>)
    requires command.Loaded()
    modifies command.provider
    ensures var r := UpdateEventRun(command.provider.replies, |old(command.provider.calls)|, command.config.value,
                                    command.info.value, parse, args);
            command.provider.calls == old(command.provider.calls) + r.calls && err == r.err
  {
    err := command.UnresolveDiscussion();
    if err.Some? {
      return;
    }
    match parse(UpdateTimeLayout, args) {
      case Failure(pe) =>
        return Some(Wrapped("time.Parse returns err", pe));
      case Success(parsedTime) =>
        var e := command.ResetApprovals(parsedTime);
        match e {
          case Some(failure) =>
            return Some(Wrapped("command.ResetApprovals returns err", failure));
          case None =>
            return None;
        }
    }
  }

  /**
   * An UnresolveDiscussion error is returned as is, before the time is
   * parsed or approvals are reset; after it, approvals are reset only for a
   * parsed time with reset-on-push enabled, at the parsed instant.
   */
  lemma UpdateEventOrder(o: Oracle, n: nat, config: Config, info: MrInfo, parse: TimeParser, args: string)
    ensures var r := UpdateEventRun(o, n, config, info, parse, args);
            var unresolve := UnresolveDiscussion(info.projectId, info.id);
            && 1 <= |r.calls| <= 2 && r.calls[0] == unresolve
            && (o(n, unresolve).err.Some? ==> r == Run([unresolve], o(n, unresolve).err))
            && (|r.calls| == 2 <==>
                  o(n, unresolve).err.None? && parse(UpdateTimeLayout, args).Success? && config.rules.resetApprovalsOnPush.enabled)
            && (|r.calls| == 2 ==>
                  r.calls[1] == ResetApprovals(info.projectId, info.id, parse(UpdateTimeLayout, args).value, config.rules.resetApprovalsOnPush))
  {
  }

  // ---------------------------------------------------------------- !rerun

  const InvalidPipelineComment: string := "> [!important]\n> Pipeline ID is invalid or wrong"
  const PipelineNotFoundComment: string := "> [!important]\n> Provided pipeline was not found"
  const PipelineSyntaxComment: string := "> [!important]\n> Validate your pipeline syntax"
  const WrongUrlComment: string := "> [!important]\n> pipeline created, but provided url is wrong"

  /** url.Parse(raw), which the model does not implement: the URL's path, or the parse error. */
  type UrlParser = string -> Result<string, Error>

  /** The pipeline id of the arguments: one leading '#' dropped, the rest read by strconv.Atoi. */
  function PipelineId(args: string): Option<int> {
    Atoi(TrimPrefix(args, "#"))
  }

  function PipelineLink(path: string, url: string): string {
    "\U{1F916} pipeline created: [" + PathBase(path) + "](" + url + ")"
  }

  /** The comment RerunPipeline leaves for the rerun's reply. */
  function RerunComment(reply: Reply, parseUrl: UrlParser): string {
    if reply.err.Some? then
      if Is(reply.err.value, NotFoundError) then PipelineNotFoundComment else PipelineSyntaxComment
    else match parseUrl(reply.text)
      case Failure(_) => WrongUrlComment
      case Success(path) => PipelineLink(path, reply.text)
  }

  /** RerunPipeline against replies o from trace index n: always exactly one comment, last. */
  function RerunRun(o: Oracle, n: nat, info: MrInfo, args: string, parseUrl: UrlParser): Run {
    match PipelineId(args)
    case None =>
      var comment := LeaveComment(info.projectId, info.id, InvalidPipelineComment);
      Run([comment], o(n, comment).err)
    case Some(id) =>
      var rerun := Provider.RerunPipeline(info.projectId, id, info.sourceBranch);
      var comment := LeaveComment(info.projectId, info.id, RerunComment(o(n, rerun), parseUrl));
      Run([rerun, comment], o(n + 1, comment).err)
  }

  method RerunPipelineCommand(command: Request, args: string, parseUrl: UrlParser) returns (err: Option<Error>)
    requires command.info.Some?
    modifies command.provider
    ensures var r := RerunRun(command.provider.replies, |old(command.provider.calls)|, command.info.value, args, parseUrl);
            command.provider.calls == old(command.provider.calls) + r.calls && err == r.err
  {
    var arg := TrimPrefix(args, "#");
    var pipelineId := Atoi(arg);
    if pipelineId.None? {
      err := command.LeaveComment(InvalidPipelineComment);
      return;
    }
    var pipelineUrl, e := command.RerunPipeline(pipelineId.value);
    if e.Some? {
      if Is(e.value, NotFoundError) {
        err := command.LeaveComment(PipelineNotFoundComment);
        return;
      }
      err := command.LeaveComment(PipelineSyntaxComment);
      return;
    }
    match parseUrl(pipelineUrl) {
      case Failure(_) =>
        err := command.LeaveComment(WrongUrlComment);
      case Success(path) =>
        err := command.LeaveComment(PipelineLink(path, pipelineUrl));
    }
  }

  /**
   * "#<n>" and "<n>" name pipeline n; only one '#' is dropped. An id that
   * does not read leaves the "invalid" comment and reruns nothing.
   */
  lemma PipelineIdRule(o: Oracle, n: nat, info: MrInfo, args: string, parseUrl: UrlParser, id: int)
    requires MinInt64 <= id <= MaxInt64
    ensures PipelineId("#" + IntToString(id)) == Some(id)
    ensures PipelineId(IntToString(id)) == Some(id)
    ensures PipelineId("##" + IntToString(id)) == None
    ensures PipelineId(args).None? ==>
              RerunRun(o, n, info, args, parseUrl).calls == [LeaveComment(info.projectId, info.id, InvalidPipelineComment)]
  {
    AtoiIntToString(id);
    IntToStringSign(id);
    assert HasPrefix("#" + IntToString(id), "#");
    assert TrimPrefix("#" + IntToString(id), "#") == IntToString(id);
    assert !HasPrefix(IntToString(id), "#");
    var s := "##" + IntToString(id);
    assert TrimPrefix(s, "#") == "#" + IntToString(id);
  }

  /**
   * A rerun that fails with a NotFoundError (through any wrapping) gets the
   * "not found" comment, any other failure the pipeline syntax comment; a
   * rerun whose URL has path "<dir>/<id>" gets the link "[<id>](<url>)".
   */
  lemma RerunCommentRule(reply: Reply, parseUrl: UrlParser, dir: string, segment: string)
    ensures reply.err.Some? && Is(reply.err.value, NotFoundError) ==> RerunComment(reply, parseUrl) == PipelineNotFoundComment
    ensures reply.err.Some? && !Is(reply.err.value, NotFoundError) ==> RerunComment(reply, parseUrl) == PipelineSyntaxComment
    ensures reply.err.None? && parseUrl(reply.text).Failure? ==> RerunComment(reply, parseUrl) == WrongUrlComment
    ensures reply.err.None? && parseUrl(reply.text) == Success(dir + "/" + segment) && segment != "" && '/' !in segment ==>
              RerunComment(reply, parseUrl) == "\U{1F916} pipeline created: [" + segment + "](" + reply.text + ")"
  {
    if segment != "" && '/' !in segment {
      PathBaseLastSegment(dir, segment);
    }
  }
}

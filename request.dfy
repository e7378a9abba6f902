/**
 * handlers.Request: one merge request as the bot sees it (its provider, the
 * loaded information and configuration) and the decisions made on it —
 * the merge-readiness report, merging, greeting, label creation, secret
 * validation, and the submission of background work to the keyed limiters.
 */
module Requests {
  import opened Wrappers
  import opened Strings
  import opened Provider
  import opened Checkers
  import Semaphore

  const ConfigPath: string := ".mrbot.yaml"
  const AutoUpdateLabel: string := "merge-bot:auto-update"
  const AutoUpdateLabelColor: string := "#6699cc"
  const StaleLabel: string := "merge-bot:stale"
  const StaleLabelColor: string := "#cccccc"
  const MergeBotSecret: string := "MERGE_BOT_SECRET"
  const MergedBySuffix: string := "\nMerged by MergeApproveBot"
  const ApproversMissing: string :=
    "> [!important]\n> **Approvers configuration missing**\n> \n> Please configure `rules.approvers` in your merge bot config:\n> - For specific approvers: `rules.approvers: [\"user1\", \"user2\"]`\n> - For no specific approvers: `rules.approvers: []`"

  // ---------------------------------------------------------- configuration

  const DefaultGreetingsTemplate: string :=
    "Requirements:\n - Min approvals: {{ .MinApprovals }}\n - Title regex: {{ .TitleRegex }}\n\nOnce you've done, send **!merge** command and i will merge it!"

  /** The configuration ParseConfig starts from. */
  function DefaultConfig(): Config {
    Config(
      Rules(1, None, true, true, ".*", true,
            ResetApprovalsOnPush(false, true, "MERGE_BOT_RESET_APPROVAL_TOKEN")),
      Greetings(false, false, DefaultGreetingsTemplate),
      false,
      StaleBranchesDeletion(false, false, 90, 5, 1),
      None)
  }

  /**
   * yaml.Unmarshal(content, &config), which the model does not implement:
   * the configuration overlaid with what the document sets, or the decoding error.
   */
  type YamlDecoder = (string, Config) -> Result<Config, Error>

  /** ParseConfig: the defaults overlaid with the document; an empty document sets nothing. */
  function ParseConfig(decode: YamlDecoder, content: string): (r: Result<Config, Error>)
    ensures content == "" ==> r == Success(DefaultConfig())
    ensures content != "" ==> r == decode(content, DefaultConfig())
  {
    if content == "" then Success(DefaultConfig()) else decode(content, DefaultConfig())
  }

  /**
   * The defaults: one approval, failing pipelines and tests allowed, any
   * title, empty descriptions allowed, no approvers list (nil, not empty),
   * reset-on-push off (issuing a token from MERGE_BOT_RESET_APPROVAL_TOKEN),
   * greetings off, no automatic master merge, and stale deletion off with
   * 90 days, batches of 5 and 1 day of grace.
   */
  lemma DefaultsOfEmptyConfig(decode: YamlDecoder)
    ensures ParseConfig(decode, "").Success?
    ensures var c := ParseConfig(decode, "").value;
            && c.rules.minApprovals == 1
            && c.rules.approvers.None?
            && c.rules.allowFailingPipelines && c.rules.allowFailingTests
            && c.rules.titleRegex == ".*"
            && c.rules.allowEmptyDescription
            && c.rules.resetApprovalsOnPush == ResetApprovalsOnPush(false, true, "MERGE_BOT_RESET_APPROVAL_TOKEN")
            && !c.greetings.enabled
            && !c.autoMasterMerge
            && !c.staleBranchesDeletion.enabled
            && c.staleBranchesDeletion.days == 90
            && c.staleBranchesDeletion.batchSize == 5
            && c.staleBranchesDeletion.waitDays == 1
  {
  }

  /** html/template Parse and Execute of a greetings template over the rules, which the model does not implement. */
  type Renderer = (string, Rules) -> Result<string, Error>

  // ------------------------------------------------- the readiness report

  const CheckMark: string := " \U{2705}"
  const CrossMark: string := " \U{274C}"

  /** A report slot: empty for a check that is not required, otherwise its label and a mark. */
  function Mark(r: CheckResult): string {
    if !r.required then "" else if r.passed then r.message + CheckMark else r.message + CrossMark
  }

  /** The table's checks run in order, each result carrying its entry's label. */
  function ResultsOf(checkers: seq<Checker>, engine: RegexEngine, config: Config, info: MrInfo): (rs: seq<CheckResult>)
    ensures |rs| == |checkers|
  {
    seq(|checkers|, i requires 0 <= i < |checkers| => RunChecker(checkers[i], engine, config, info))
  }

  function Results(engine: RegexEngine, config: Config, info: MrInfo): (rs: seq<CheckResult>)
    ensures |rs| == |Table()|
  {
    ResultsOf(Table(), engine, config, info)
  }

  /** One slot per check result. */
  function Marks(rs: seq<CheckResult>): (s: seq<string>)
    ensures |s| == |rs|
  {
    seq(|rs|, i requires 0 <= i < |rs| => Mark(rs[i]))
  }

  /** Every required check among the results passed. */
  predicate Passes(rs: seq<CheckResult>) {
    forall i :: 0 <= i < |rs| ==> rs[i].required ==> rs[i].passed
  }

  /** The len(checkers)+1 slots: one per check, then the approvers warning slot. */
  function Slots(engine: RegexEngine, config: Config, info: MrInfo): (s: seq<string>)
    ensures |s| == |Table()| + 1
  {
    Marks(Results(engine, config, info)) + [if config.rules.approvers.None? then ApproversMissing else ""]
  }

  /** Every required check passed. */
  predicate RequiredPass(engine: RegexEngine, config: Config, info: MrInfo) {
    Passes(Results(engine, config, info))
  }

  /** IsValid's (ok, text). */
  function Verdict(engine: RegexEngine, config: Config, info: MrInfo): (bool, string) {
    if !info.isValid then (false, KindText(ValidError))
    else (RequiredPass(engine, config, info) && config.rules.approvers.Some?,
          Join(Slots(engine, config, info), "\n\n"))
  }

  /**
   * The verdict is ok exactly when the merge request is in a valid state, an
   * approvers list is configured (possibly empty), and each required check passed:
   * the title matches, the approvals suffice, and whichever of description,
   * approvers, pipelines and tests is required passed.
   */
  lemma VerdictOk(engine: RegexEngine, config: Config, info: MrInfo)
    ensures Verdict(engine, config, info).0 <==>
              && info.isValid
              && config.rules.approvers.Some?
              && MatchString(engine, config.rules.titleRegex, info.title)
              && (!config.rules.allowEmptyDescription ==> info.description != "")
              && |info.approvals| >= config.rules.minApprovals
              && (config.rules.approvers.Some? && config.rules.approvers.value != [] ==>
                    forall a :: a in config.rules.approvers.value ==> a in info.approvals)
              && (!config.rules.allowFailingPipelines ==> info.failedPipelines == 0)
              && (!config.rules.allowFailingTests ==> info.failedTests == 0)
  {
    var rs := Results(engine, config, info);
    assert rs[0] == RunChecker(Table()[0], engine, config, info);
    assert rs[1] == RunChecker(Table()[1], engine, config, info);
    assert rs[2] == RunChecker(Table()[2], engine, config, info);
    assert rs[3] == RunChecker(Table()[3], engine, config, info);
    assert rs[4] == RunChecker(Table()[4], engine, config, info);
    assert rs[5] == RunChecker(Table()[5], engine, config, info);
  }

  /** An MR in an invalid state is reported with ValidError's text, whatever the checks say. */
  lemma InvalidStateShortCircuits(engine: RegexEngine, config: Config, info: MrInfo)
    requires !info.isValid
    ensures Verdict(engine, config, info) == (false, "Your request can't be merged, because either it has conflicts or state is not opened")
  {
  }

  /**
   * The report's slots follow the table: a check that is not required leaves
   * its slot empty, a required one writes its label with ✅ or ❌; the
   * last slot carries the approvers warning exactly when no list is configured.
   */
  lemma ReportSlots(engine: RegexEngine, config: Config, info: MrInfo, i: int)
    requires 0 <= i < |Table()|
    ensures var s := Slots(engine, config, info);
            var o := Evaluate(Table()[i].rule, engine, config, info);
            && (!o.required ==> s[i] == "")
            && (o.required && o.passed ==> s[i] == Table()[i].text + " \U{2705}")
            && (o.required && !o.passed ==> s[i] == Table()[i].text + " \U{274C}")
            && (s[|Table()|] == ApproversMissing <==> config.rules.approvers.None?)
            && (config.rules.approvers.Some? ==> s[|Table()|] == "")
  {
    TableShape();
  }

  /**
   * The loop of IsValid: a slot per checker in table order, marked when the
   * check is required, then the warning slot when no approvers list is
   * configured; ok stays true while every required check passes and the list exists.
   */
  method FillReport(checkers: seq<Checker>, engine: RegexEngine, cfg: Config, inf: MrInfo, warning: string)
    returns (ok: bool, report: seq<string>)
    ensures report == Marks(ResultsOf(checkers, engine, cfg, inf)) + [if cfg.rules.approvers.None? then warning else ""]
    ensures ok <==> Passes(ResultsOf(checkers, engine, cfg, inf)) && cfg.rules.approvers.Some?
  {
    ghost var rs := ResultsOf(checkers, engine, cfg, inf);
    var result := new string[|checkers| + 1](_ => "");
    ok := true;
    for i := 0 to |checkers|
      invariant forall j :: 0 <= j < i ==> result[j] == Mark(rs[j])
      invariant forall j :: i <= j < result.Length ==> result[j] == ""
      invariant ok <==> forall j :: 0 <= j < i ==> rs[j].required ==> rs[j].passed
    {
      var r := RunChecker(checkers[i], engine, cfg, inf);
      assert r == rs[i];
      if !r.required {
        continue;
      }
      if r.passed {
        result[i] := r.message + CheckMark;
      } else {
        result[i] := r.message + CrossMark;
        ok := false;
      }
    }
    if cfg.rules.approvers.None? {
      result[|checkers|] := warning;
      ok := false;
    }
    assert result[..] == Marks(rs) + [if cfg.rules.approvers.None? then warning else ""];
    report := result[..];
  }

  // ----------------------------------------------------- background work

  /** The closures handed to the limiters, by what they run. */
  datatype Job =
    | CleanStaleMergeRequestsJob(projectId: int)
    | CleanStaleBranchesJob(projectId: int)
    | UpdateBranchJob(projectId: int, mergeId: int)

  function CleanStaleMergeRequestsKey(projectId: int): string {
    "clean_stale_merge_requests_" + IntToString(projectId)
  }

  function CleanStaleBranchesKey(projectId: int): string {
    "clean_stale_branches_" + IntToString(projectId)
  }

  function UpdateBranchKey(projectId: int, mergeId: int): string {
    "update_branch_" + IntToString(projectId) + "_" + IntToString(mergeId)
  }

  /** "<prefix><%d>" determines the number. */
  lemma PrefixedNumberInjective(prefix: string, a: int, b: int)
    ensures prefix + IntToString(a) == prefix + IntToString(b) ==> a == b
  {
    if prefix + IntToString(a) == prefix + IntToString(b) {
      assert (prefix + IntToString(a))[|prefix|..] == IntToString(a);
      assert (prefix + IntToString(b))[|prefix|..] == IntToString(b);
      IntToStringInjective(a, b);
    }
  }

  /**
   * The two clean-up keys of a project never collide with each other, and
   * each names its project: distinct projects get distinct keys.
   */
  lemma CleanupKeysDistinct(p: int, q: int)
    ensures CleanStaleMergeRequestsKey(p) != CleanStaleBranchesKey(q)
    ensures CleanStaleMergeRequestsKey(p) == CleanStaleMergeRequestsKey(q) ==> p == q
    ensures CleanStaleBranchesKey(p) == CleanStaleBranchesKey(q) ==> p == q
  {
    assert CleanStaleMergeRequestsKey(p)[12] == 'm';
    assert CleanStaleBranchesKey(q)[12] == 'b';
    PrefixedNumberInjective("clean_stale_merge_requests_", p, q);
    PrefixedNumberInjective("clean_stale_branches_", p, q);
  }

  /** A rendered number holds no '_'. */
  lemma NoUnderscore(i: int)
    ensures '_' !in IntToString(i)
  {
    IntToStringChars(i);
  }

  /** "<x>_<y>" with no '_' in x determines x and y. */
  lemma UnderscorePairInjective(x1: string, y1: string, x2: string, y2: string)
    requires '_' !in x1 && '_' !in x2
    ensures x1 + "_" + y1 == x2 + "_" + y2 ==> x1 == x2 && y1 == y2
  {
    CutAfterHead(x1, y1, '_');
    CutAfterHead(x2, y2, '_');
  }

  /** "update_branch_<x>_<y>" with no '_' in x determines x and y. */
  lemma UpdateBranchTextInjective(x1: string, y1: string, x2: string, y2: string)
    requires '_' !in x1 && '_' !in x2
    ensures "update_branch_" + x1 + "_" + y1 == "update_branch_" + x2 + "_" + y2 ==> x1 == x2 && y1 == y2
  {
    var prefix := "update_branch_";
    if prefix + x1 + "_" + y1 == prefix + x2 + "_" + y2 {
      assert prefix + x1 + "_" + y1 == prefix + (x1 + "_" + y1);
      assert prefix + x2 + "_" + y2 == prefix + (x2 + "_" + y2);
      assert (prefix + (x1 + "_" + y1))[|prefix|..] == x1 + "_" + y1;
      assert (prefix + (x2 + "_" + y2))[|prefix|..] == x2 + "_" + y2;
      UnderscorePairInjective(x1, y1, x2, y2);
    }
  }

  /** "update_branch_<pid>_<mrid>" determines both numbers. */
  lemma UpdateBranchKeyInjective(p: int, m: int, q: int, k: int)
    ensures UpdateBranchKey(p, m) == UpdateBranchKey(q, k) ==> p == q && m == k
  {
    NoUnderscore(p);
    NoUnderscore(q);
    UpdateBranchTextInjective(IntToString(p), IntToString(m), IntToString(q), IntToString(k));
    IntToStringInjective(p, q);
    IntToStringInjective(m, k);
  }

  /** The limiter bookkeeping for tasks submitted in order: the final table and the tasks accepted. */
  function SubmitAll(t: Semaphore.Table, max: int, tasks: seq<(string, Job)>): (Semaphore.Table, seq<(string, Job)>)
    decreases |tasks|
  {
    if tasks == [] then (t, [])
    else
      var (t1, accepted) := SubmitAll(t, max, tasks[..|tasks| - 1]);
      var x := tasks[|tasks| - 1];
      var (ok, t2) := Semaphore.Admit(t1, max, x.0);
      (t2, if ok then accepted + [x] else accepted)
  }

  /** The update tasks for the merge requests found, in order. */
  function UpdateTasks(projectId: int, mrs: seq<MR>): (ts: seq<(string, Job)>)
    ensures |ts| == |mrs|
    ensures forall i :: 0 <= i < |mrs| ==>
              ts[i] == (UpdateBranchKey(projectId, mrs[i].id), UpdateBranchJob(projectId, mrs[i].id))
  {
    seq(|mrs|, i requires 0 <= i < |mrs| =>
      (UpdateBranchKey(projectId, mrs[i].id), UpdateBranchJob(projectId, mrs[i].id)))
  }

  /**
   * Tasks under distinct keys that are all idle are all accepted, and each
   * key ends up with exactly one running task.
   */
  lemma {:induction false} SubmitAllFresh(t: Semaphore.Table, max: int, tasks: seq<(string, Job)>)
    requires forall i :: 0 <= i < |tasks| ==> tasks[i].0 !in t
    requires forall i, j :: 0 <= i < j < |tasks| ==> tasks[i].0 != tasks[j].0
    ensures SubmitAll(t, max, tasks).1 == tasks
    ensures forall i :: 0 <= i < |tasks| ==> Semaphore.Count(SubmitAll(t, max, tasks).0, tasks[i].0) == 1
    ensures forall k :: k !in t && (forall i :: 0 <= i < |tasks| ==> tasks[i].0 != k) ==> k !in SubmitAll(t, max, tasks).0
    ensures forall k :: k in t ==> k in SubmitAll(t, max, tasks).0 && SubmitAll(t, max, tasks).0[k] == t[k]
    decreases |tasks|
  {
    if tasks != [] {
      var init := tasks[..|tasks| - 1];
      SubmitAllFresh(t, max, init);
      var t1 := SubmitAll(t, max, init).0;
      var x := tasks[|tasks| - 1];
      assert x.0 !in t1 by {
        forall i | 0 <= i < |init| ensures init[i].0 != x.0 {
          assert init[i] == tasks[i];
        }
      }
      forall i | 0 <= i < |tasks| - 1 ensures Semaphore.Count(SubmitAll(t, max, tasks).0, tasks[i].0) == 1 {
        assert init[i] == tasks[i];
      }
      assert init + [x] == tasks;
    }
  }

  // ------------------------------------------------------------ the merge

  datatype MergeResult = MergeResult(ok: bool, text: string, err: Option<Error>, calls: seq<Call>)

  function MergeMessage(title: string): string {
    title + MergedBySuffix
  }

  /**
   * Request.Merge against provider replies o, starting at trace index n, for
   * the merge request `info` under `config`, whose IsValid verdict is `verdict`.
   */
  function MergeRun(o: Oracle, n: nat, config: Config, info: MrInfo, verdict: (bool, string)): MergeResult {
    var update := UpdateFromMaster(info.projectId, info.id);
    var pre := if config.autoMasterMerge then [update] else [];
    if config.autoMasterMerge && o(n, update).err.Some? then MergeResult(false, "", o(n, update).err, pre)
    else if verdict.0 then
      var merge := Merge(info.projectId, info.id, MergeMessage(info.title));
      var e := o(n + |pre|, merge).err;
      if e.Some? then MergeResult(false, "", e, pre + [merge]) else MergeResult(true, "", None, pre + [merge])
    else MergeResult(false, verdict.1, None, pre)
  }

  predicate IsMergeCall(c: Call) { c.Merge? }

  /**
   * Merging: with AutoMasterMerge a failed update from master returns its
   * error before any merge; otherwise exactly one merge call is made, with
   * the message title + "\nMerged by MergeApproveBot", iff the verdict is ok,
   * right after the update (if any), and the merge call's error is returned;
   * a verdict that is not ok returns its report without a merge call.
   */
  lemma MergeDecision(o: Oracle, n: nat, config: Config, info: MrInfo, verdict: (bool, string))
    ensures var r := MergeRun(o, n, config, info, verdict);
            var update := UpdateFromMaster(info.projectId, info.id);
            var merge := Merge(info.projectId, info.id, info.title + "\nMerged by MergeApproveBot");
            var updateFailed := config.autoMasterMerge && o(n, update).err.Some?;
            && (config.autoMasterMerge <==> |r.calls| >= 1 && r.calls[0] == update)
            && (updateFailed ==> r == MergeResult(false, "", o(n, update).err, [update]))
            && (!updateFailed && verdict.0 ==>
                  && r.calls == (if config.autoMasterMerge then [update, merge] else [merge])
                  && r.err == o(n + |r.calls| - 1, merge).err
                  && r.text == "")
            && (!updateFailed && !verdict.0 ==> r.calls == (if config.autoMasterMerge then [update] else []))
            && (!verdict.0 || updateFailed ==> forall i :: 0 <= i < |r.calls| ==> !IsMergeCall(r.calls[i]))
            && (!updateFailed && !verdict.0 ==> r.ok == false && r.text == verdict.1 && r.err.None?)
            && (r.ok <==> !updateFailed && verdict.0 && r.err.None?)
  {
  }

  // ----------------------------------------------- the stale-label plan

  /** CreateLabels: the stale label, then the auto-update label, stopping at the first error. */
  function CreateLabelsPlan(projectId: int): seq<Step> {
    [ Step(CreateLabel(projectId, StaleLabel, StaleLabelColor), None),
      Step(CreateLabel(projectId, AutoUpdateLabel, AutoUpdateLabelColor), None) ]
  }

  /**
   * CreateLabels creates the stale label first; its error is returned as is
   * and the auto-update label is then not created.
   */
  lemma CreateLabelsOrder(o: Oracle, n: nat, projectId: int)
    ensures var r := Execute(o, n, CreateLabelsPlan(projectId));
            var first := CreateLabel(projectId, "merge-bot:stale", "#cccccc");
            var second := CreateLabel(projectId, "merge-bot:auto-update", "#6699cc");
            && (o(n, first).err.Some? ==> r == Run([first], o(n, first).err))
            && (o(n, first).err.None? ==> r == Run([first, second], o(n + 1, second).err))
  {
    var plan := CreateLabelsPlan(projectId);
    assert plan[1..][1..] == [];
    assert Execute(o, n + 2, plan[1..][1..]) == Run([], None);
  }

  /** The two clean-up tasks DeleteStaleBranches submits, merge requests first. */
  function CleanupTasks(projectId: int): seq<(string, Job)> {
    [(CleanStaleMergeRequestsKey(projectId), CleanStaleMergeRequestsJob(projectId)),
     (CleanStaleBranchesKey(projectId), CleanStaleBranchesJob(projectId))]
  }

  /** The submission loop: each task to the limiter in order, as Add decides. */
  method SubmitTasks(lim: Semaphore.KeyedSemaphore<Job>, tasks: seq<(string, Job)>)
    requires lim.Valid()
    modifies lim
    ensures lim.Valid()
    ensures lim.counters == SubmitAll(old(lim.counters), lim.maxPerKey, tasks).0
    ensures lim.spawned == old(lim.spawned) + SubmitAll(old(lim.counters), lim.maxPerKey, tasks).1
  {
    ghost var t0 := lim.counters;
    ghost var s0 := lim.spawned;
    for i := 0 to |tasks|
      invariant lim.Valid()
      invariant lim.counters == SubmitAll(t0, lim.maxPerKey, tasks[..i]).0
      invariant lim.spawned == s0 + SubmitAll(t0, lim.maxPerKey, tasks[..i]).1
    {
      assert tasks[..i + 1][..i] == tasks[..i];
      var _ := lim.Add(tasks[i].0, tasks[i].1);
    }
    assert tasks[..|tasks|] == tasks;
  }

  // ---------------------------------------------------------- the object

  /** The limiters the requests submit to (package variables in the source). */
  class Limiters {
    const deleteStaleBranches: Semaphore.KeyedSemaphore<Job>
    const updateBranch: Semaphore.KeyedSemaphore<Job>

    ghost predicate Valid()
      reads this, deleteStaleBranches, updateBranch
    {
      && deleteStaleBranches != updateBranch
      && deleteStaleBranches.maxPerKey == 1 && deleteStaleBranches.Valid()
      && updateBranch.maxPerKey == 2 && updateBranch.Valid()
    }

    constructor()
      ensures Valid()
      ensures fresh(deleteStaleBranches) && fresh(updateBranch)
      ensures deleteStaleBranches.counters == map[] && deleteStaleBranches.spawned == []
      ensures updateBranch.counters == map[] && updateBranch.spawned == []
    {
      deleteStaleBranches := new Semaphore.KeyedSemaphore(1);
      updateBranch := new Semaphore.KeyedSemaphore(2);
    }
  }

  class Request {
    const provider: RequestProvider
    var info: Option<MrInfo>
    var config: Option<Config>

    /** &Request{provider: provider}: nothing loaded yet. */
    constructor(provider: RequestProvider)
      ensures this.provider == provider && info.None? && config.None?
    {
      this.provider := provider;
      info := None;
      config := None;
    }

    predicate Loaded()
      reads this
    {
      info.Some? && config.Some?
    }

    /**
     * LoadInfoAndConfig: fetch the MR information with the configuration
     * file, then parse it. A fetch error leaves no information and the
     * configuration untouched; a parse error leaves no configuration.
     */
    method LoadInfoAndConfig(decode: YamlDecoder, projectId: int, id: int) returns (err: Option<Error>)
      modifies this, provider
      ensures provider.calls == old(provider.calls) + [GetMRInfo(projectId, id, ConfigPath)]
      ensures var reply := provider.replies(|old(provider.calls)|, GetMRInfo(projectId, id, ConfigPath));
              if reply.err.Some? then
                err == reply.err && info.None? && config == old(config)
              else
                && info == Some(reply.info)
                && match ParseConfig(decode, reply.info.configContent)
                   case Failure(e) => err == Some(e) && config.None?
                   case Success(c) => err.None? && config == Some(c)
    {
      var reply := provider.Invoke(GetMRInfo(projectId, id, ConfigPath));
      if reply.err.Some? {
        info := None;
        return reply.err;
      }
      info := Some(reply.info);
      match ParseConfig(decode, reply.info.configContent)
      case Failure(e) =>
        config := None;
        err := Some(e);
      case Success(c) =>
        config := Some(c);
        err := None;
    }

    /** IsValid: fill the report slot by slot and fold the verdict. */
    method IsValid(engine: RegexEngine) returns (ok: bool, text: string, err: Option<Error>)
      requires Loaded()
      ensures (ok, text) == Verdict(engine, config.value, info.value)
      ensures err.None?
    {
      var cfg := config.value;
      var inf := info.value;
      err := None;
      if !inf.isValid {
        return false, KindText(ValidError), None;
      }
      var report;
      ok, report := FillReport(Table(), engine, cfg, inf, ApproversMissing);
      text := Join(report, "\n\n");
    }

    /** Merge: optional update from master, then the verdict, then at most one merge call. */
    method Merge(engine: RegexEngine) returns (ok: bool, text: string, err: Option<Error>)
      requires Loaded()
      modifies provider
      ensures var r := MergeRun(provider.replies, |old(provider.calls)|, config.value, info.value, Verdict(engine, config.value, info.value));
              && provider.calls == old(provider.calls) + r.calls
              && ok == r.ok && text == r.text && err == r.err
    {
      var pid := info.value.projectId;
      var id := info.value.id;
      if config.value.autoMasterMerge {
        var reply := provider.Invoke(Provider.UpdateFromMaster(pid, id));
        if reply.err.Some? {
          return false, "", reply.err;
        }
      }
      var valid, report, e := IsValid(engine);
      if valid {
        var reply := provider.Invoke(Provider.Merge(pid, id, MergeMessage(info.value.title)));
        if reply.err.Some? {
          return false, "", reply.err;
        }
        return true, "", None;
      } else {
        return false, report, e;
      }
    }

    /** LeaveComment on this merge request. */
    method LeaveComment(message: string) returns (err: Option<Error>)
      requires info.Some?
      modifies provider
      ensures provider.calls == old(provider.calls) + [Provider.LeaveComment(info.value.projectId, info.value.id, message)]
      ensures err == provider.replies(|old(provider.calls)|, Provider.LeaveComment(info.value.projectId, info.value.id, message)).err
    {
      var reply := provider.Invoke(Provider.LeaveComment(info.value.projectId, info.value.id, message));
      err := reply.err;
    }

    /** LeaveNote on this merge request. */
    method LeaveNote(message: string) returns (err: Option<Error>)
      requires info.Some?
      modifies provider
      ensures provider.calls == old(provider.calls) + [Provider.LeaveNote(info.value.projectId, info.value.id, message)]
      ensures err == provider.replies(|old(provider.calls)|, Provider.LeaveNote(info.value.projectId, info.value.id, message)).err
    {
      var reply := provider.Invoke(Provider.LeaveNote(info.value.projectId, info.value.id, message));
      err := reply.err;
    }

    /** UnresolveDiscussion of this merge request. */
    method UnresolveDiscussion() returns (err: Option<Error>)
      requires info.Some?
      modifies provider
      ensures provider.calls == old(provider.calls) + [Provider.UnresolveDiscussion(info.value.projectId, info.value.id)]
      ensures err == provider.replies(|old(provider.calls)|, Provider.UnresolveDiscussion(info.value.projectId, info.value.id)).err
    {
      var reply := provider.Invoke(Provider.UnresolveDiscussion(info.value.projectId, info.value.id));
      err := reply.err;
    }

    /** UpdateFromMaster of this merge request's branch. */
    method UpdateFromMaster() returns (err: Option<Error>)
      requires info.Some?
      modifies provider
      ensures provider.calls == old(provider.calls) + [Provider.UpdateFromMaster(info.value.projectId, info.value.id)]
      ensures err == provider.replies(|old(provider.calls)|, Provider.UpdateFromMaster(info.value.projectId, info.value.id)).err
    {
      var reply := provider.Invoke(Provider.UpdateFromMaster(info.value.projectId, info.value.id));
      err := reply.err;
    }

    /** Greetings: nothing when disabled; otherwise the rendered template as a comment. */
    method Greetings(render: Renderer) returns (err: Option<Error>)
      requires Loaded()
      modifies provider
      ensures !config.value.greetings.enabled ==> err.None? && provider.calls == old(provider.calls)
      ensures config.value.greetings.enabled ==>
                match render(config.value.greetings.template, config.value.rules)
                case Failure(e) => err == Some(e) && provider.calls == old(provider.calls)
                case Success(text) =>
                  var c := Provider.LeaveComment(info.value.projectId, info.value.id, text);
                  provider.calls == old(provider.calls) + [c] && err == provider.replies(|old(provider.calls)|, c).err
    {
      if !config.value.greetings.enabled {
        return None;
      }
      match render(config.value.greetings.template, config.value.rules)
      case Failure(e) =>
        err := Some(e);
      case Success(text) =>
        err := LeaveComment(text);
    }

    /** ResetApprovals: nothing when disabled; otherwise one provider call with the reset settings. */
    method ResetApprovals(updatedAt: int) returns (err: Option<Error>)
      requires Loaded()
      modifies provider
      ensures !config.value.rules.resetApprovalsOnPush.enabled ==> err.None? && provider.calls == old(provider.calls)
      ensures config.value.rules.resetApprovalsOnPush.enabled ==>
                var c := Provider.ResetApprovals(info.value.projectId, info.value.id, updatedAt, config.value.rules.resetApprovalsOnPush);
                provider.calls == old(provider.calls) + [c] && err == provider.replies(|old(provider.calls)|, c).err
    {
      if !config.value.rules.resetApprovalsOnPush.enabled {
        return None;
      }
      var reply := provider.Invoke(Provider.ResetApprovals(info.value.projectId, info.value.id, updatedAt, config.value.rules.resetApprovalsOnPush));
      err := reply.err;
    }

    /** ValidateSecret: the project's MERGE_BOT_SECRET variable equals the secret exactly; a lookup error gives false. */
    method ValidateSecret(secret: string) returns (valid: bool)
      requires info.Some?
      modifies provider
      ensures var c := GetVar(info.value.projectId, "MERGE_BOT_SECRET");
              var reply := provider.replies(|old(provider.calls)|, c);
              && provider.calls == old(provider.calls) + [c]
              && (valid <==> reply.err.None? && reply.text == secret)
    {
      var reply := provider.Invoke(GetVar(info.value.projectId, MergeBotSecret));
      if reply.err.Some? {
        return false;
      }
      valid := reply.text == secret;
    }

    /** RerunPipeline on this merge request's source branch. */
    method RerunPipeline(pipelineId: int) returns (url: string, err: Option<Error>)
      requires info.Some?
      modifies provider
      ensures var c := Provider.RerunPipeline(info.value.projectId, pipelineId, info.value.sourceBranch);
              && provider.calls == old(provider.calls) + [c]
              && url == provider.replies(|old(provider.calls)|, c).text
              && err == provider.replies(|old(provider.calls)|, c).err
    {
      var reply := provider.Invoke(Provider.RerunPipeline(info.value.projectId, pipelineId, info.value.sourceBranch));
      url, err := reply.text, reply.err;
    }

    /** CreateLabels: both bot labels in order, stopping at the first error. */
    method CreateLabels() returns (err: Option<Error>)
      requires info.Some?
      modifies provider
      ensures var r := Execute(provider.replies, |old(provider.calls)|, CreateLabelsPlan(info.value.projectId));
              provider.calls == old(provider.calls) + r.calls && err == r.err
    {
      err := provider.Perform(CreateLabelsPlan(info.value.projectId));
    }

    /**
     * DeleteStaleBranches: when enabled, submit the two clean-up tasks to the
     * max-1 limiter under the project's keys; never an error, never a provider call.
     */
    method DeleteStaleBranches(limiters: Limiters) returns (err: Option<Error>)
      requires Loaded() && limiters.Valid()
      modifies limiters.deleteStaleBranches
      ensures limiters.Valid()
      ensures err.None?
      ensures !config.value.staleBranchesDeletion.enabled ==>
                limiters.deleteStaleBranches.counters == old(limiters.deleteStaleBranches.counters) &&
                limiters.deleteStaleBranches.spawned == old(limiters.deleteStaleBranches.spawned)
      ensures config.value.staleBranchesDeletion.enabled ==>
                var (t, accepted) := SubmitAll(old(limiters.deleteStaleBranches.counters), 1, CleanupTasks(info.value.projectId));
                limiters.deleteStaleBranches.counters == t &&
                limiters.deleteStaleBranches.spawned == old(limiters.deleteStaleBranches.spawned) + accepted
    {
      if !config.value.staleBranchesDeletion.enabled {
        return None;
      }
      var pid := info.value.projectId;
      var lim := limiters.deleteStaleBranches;
      ghost var tasks := CleanupTasks(pid);
      ghost var t0 := lim.counters;
      ghost var s0 := lim.spawned;
      assert tasks[..1][..0] == [];
      assert tasks[..|tasks| - 1] == tasks[..1];
      var _ := lim.Add(CleanStaleMergeRequestsKey(pid), CleanStaleMergeRequestsJob(pid));
      assert lim.counters == SubmitAll(t0, 1, tasks[..1]).0;
      assert lim.spawned == s0 + SubmitAll(t0, 1, tasks[..1]).1;
      var _ := lim.Add(CleanStaleBranchesKey(pid), CleanStaleBranchesJob(pid));
      err := None;
    }

    /**
     * UpdateBranches: find the open MRs targeting this MR's target branch
     * with the auto-update label, and submit one update task per MR to the
     * max-2 limiter. A lookup error is returned before anything is submitted.
     */
    method UpdateBranches(limiters: Limiters) returns (err: Option<Error>)
      requires Loaded() && limiters.Valid()
      modifies provider, limiters.updateBranch
      ensures limiters.Valid()
      ensures var c := FindMergeRequests(info.value.projectId, info.value.targetBranch, "merge-bot:auto-update");
              var reply := provider.replies(|old(provider.calls)|, c);
              && provider.calls == old(provider.calls) + [c]
              && err == reply.err
              && (reply.err.Some? ==>
                    limiters.updateBranch.counters == old(limiters.updateBranch.counters) &&
                    limiters.updateBranch.spawned == old(limiters.updateBranch.spawned))
              && (reply.err.None? ==>
                    var (t, accepted) := SubmitAll(old(limiters.updateBranch.counters), 2, UpdateTasks(info.value.projectId, reply.mrs));
                    limiters.updateBranch.counters == t &&
                    limiters.updateBranch.spawned == old(limiters.updateBranch.spawned) + accepted)
    {
      var pid := info.value.projectId;
      var reply := provider.Invoke(FindMergeRequests(pid, info.value.targetBranch, AutoUpdateLabel));
      if reply.err.Some? {
        return reply.err;
      }
      SubmitTasks(limiters.updateBranch, UpdateTasks(pid, reply.mrs));
      err := None;
    }
  }

  /**
   * UpdateBranches on an idle limiter, for MRs with distinct ids: every MR
   * gets its task, in order, and each key holds exactly one running task.
   */
  lemma UpdateTasksAllAccepted(t: Semaphore.Table, projectId: int, mrs: seq<MR>)
    requires forall i :: 0 <= i < |mrs| ==> UpdateBranchKey(projectId, mrs[i].id) !in t
    requires forall i, j :: 0 <= i < j < |mrs| ==> mrs[i].id != mrs[j].id
    ensures SubmitAll(t, 2, UpdateTasks(projectId, mrs)).1 == UpdateTasks(projectId, mrs)
    ensures forall i :: 0 <= i < |mrs| ==> Semaphore.Count(SubmitAll(t, 2, UpdateTasks(projectId, mrs)).0, UpdateBranchKey(projectId, mrs[i].id)) == 1
  {
    var tasks := UpdateTasks(projectId, mrs);
    forall i, j | 0 <= i < j < |tasks| ensures tasks[i].0 != tasks[j].0 {
      UpdateBranchKeyInjective(projectId, mrs[i].id, projectId, mrs[j].id);
    }
    SubmitAllFresh(t, 2, tasks);
  }

  /**
   * DeleteStaleBranches on a project with no clean-up running submits both
   * tasks, merge requests first.
   */
  lemma CleanupTasksAccepted(t: Semaphore.Table, projectId: int)
    requires CleanStaleMergeRequestsKey(projectId) !in t && CleanStaleBranchesKey(projectId) !in t
    ensures SubmitAll(t, 1, CleanupTasks(projectId)).1 == CleanupTasks(projectId)
  {
    CleanupKeysDistinct(projectId, projectId);
    SubmitAllFresh(t, 1, CleanupTasks(projectId));
  }

  // ------------------------------------------------------ the registry

  /** The registered provider constructors: None stands for a constructor that returns nil. */
  class Providers {
    var providers: map<string, Option<Oracle>>

    constructor()
      ensures providers == map[]
    {
      providers := map[];
    }

    /** Register: store the constructor, replacing any earlier one under the name. */
    method Register(name: string, make: Option<Oracle>)
      modifies this
      ensures providers == old(providers)[name := make]
    {
      providers := providers[name := make];
    }

    /**
     * New: an unregistered name or a constructor returning nil fails with
     * "Provider can't be nil"; otherwise a request around a fresh provider,
     * with nothing loaded.
     */
    method New(name: string) returns (r: Request?, err: Option<Error>)
      ensures name !in providers || providers[name].None? ==>
                r == null && err == Some(Plain("Provider can't be nil"))
      ensures name in providers && providers[name].Some? ==>
                && r != null && fresh(r) && fresh(r.provider) && err.None?
                && r.provider.replies == providers[name].value && r.provider.calls == []
                && r.info.None? && r.config.None?
    {
      if name !in providers || providers[name].None? {
        return null, Some(Plain("Provider can't be nil"));
      }
      var p := new RequestProvider(providers[name].value);
      r := new Request(p);
      err := None;
    }
  }
}

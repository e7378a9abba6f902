/**
 * The merge-readiness rules: six fixed checks over the configuration and the
 * merge request information, each answering whether it passed and whether it
 * is required, and the ordered table that labels them.
 */
module Checkers {
  import opened Wrappers
  import opened Provider

  /**
   * Go's regexp.MatchString, which the model does not implement:
   * Some(b) is the match result, None a pattern that does not compile.
   */
  type RegexEngine = (string, string) -> Option<bool>

  /** `match, _ := regexp.MatchString(pattern, s)`: a malformed pattern gives false. */
  predicate MatchString(engine: RegexEngine, pattern: string, s: string) {
    engine(pattern, s) == Some(true)
  }

  /** What a check function returns: (passed, required). */
  datatype Outcome = Outcome(passed: bool, required: bool)

  /** The title must match the configured expression; this check is always required. */
  function CheckTitle(engine: RegexEngine, config: Config, info: MrInfo): (r: Outcome)
    ensures r.required
    ensures r.passed <==> engine(config.rules.titleRegex, info.title) == Some(true)
    ensures engine(config.rules.titleRegex, info.title).None? ==> !r.passed
  {
    Outcome(MatchString(engine, config.rules.titleRegex, info.title), true)
  }

  /** A description must be present, unless empty descriptions are allowed. */
  function CheckDescription(config: Config, info: MrInfo): (r: Outcome)
    ensures r.passed <==> info.description != ""
    ensures r.required <==> !config.rules.allowEmptyDescription
  {
    Outcome(|info.description| > 0, !config.rules.allowEmptyDescription)
  }

  /** At least MinApprovals distinct users approved; always required. */
  function CheckApprovals(config: Config, info: MrInfo): (r: Outcome)
    ensures r.required
    ensures r.passed <==> |info.approvals| >= config.rules.minApprovals
  {
    Outcome(|info.approvals| >= config.rules.minApprovals, true)
  }

  /** The loop of checkApprovers: every listed approver is among the approvals. */
  function AllApproved(approvers: seq<string>, approvals: set<string>): (b: bool)
    ensures b <==> forall a :: a in approvers ==> a in approvals
  {
    if approvers == [] then true
    else if approvers[0] !in approvals then false
    else AllApproved(approvers[1..], approvals)
  }

  /**
   * With a non-empty approvers list, every listed user must have approved.
   * A missing or empty list makes the check pass and not required.
   */
  function CheckApprovers(config: Config, info: MrInfo): (r: Outcome)
    ensures config.rules.approvers.Some? && config.rules.approvers.value != [] ==>
              r.required && (r.passed <==> forall a :: a in config.rules.approvers.value ==> a in info.approvals)
    ensures config.rules.approvers.None? || config.rules.approvers.value == [] ==>
              r == Outcome(true, false)
  {
    var list := if config.rules.approvers.Some? then config.rules.approvers.value else [];
    if |list| > 0 then Outcome(AllApproved(list, info.approvals), true)
    else Outcome(true, false)
  }

  /** No failed pipeline, unless failing pipelines are allowed. */
  function CheckPipelines(config: Config, info: MrInfo): (r: Outcome)
    ensures r.passed <==> info.failedPipelines == 0
    ensures r.required <==> !config.rules.allowFailingPipelines
  {
    Outcome(info.failedPipelines == 0, !config.rules.allowFailingPipelines)
  }

  /** No failed test, unless failing tests are allowed. */
  function CheckTests(config: Config, info: MrInfo): (r: Outcome)
    ensures r.passed <==> info.failedTests == 0
    ensures r.required <==> !config.rules.allowFailingTests
  {
    Outcome(info.failedTests == 0, !config.rules.allowFailingTests)
  }

  // ------------------------------------------------------------- the table

  datatype Rule = TitleRule | DescriptionRule | ApprovalsRule | ApproversRule | PipelinesRule | TestsRule

  /** One entry of the `checkers` table: its label and its check function. */
  datatype Checker = Checker(text: string, rule: Rule)

  function Evaluate(rule: Rule, engine: RegexEngine, config: Config, info: MrInfo): Outcome {
    match rule
    case TitleRule => CheckTitle(engine, config, info)
    case DescriptionRule => CheckDescription(config, info)
    case ApprovalsRule => CheckApprovals(config, info)
    case ApproversRule => CheckApprovers(config, info)
    case PipelinesRule => CheckPipelines(config, info)
    case TestsRule => CheckTests(config, info)
  }

  /** The ordered `checkers` table. */
  function Table(): seq<Checker> {
    [ Checker("Title meets rules", TitleRule),
      Checker("Description meets rules", DescriptionRule),
      Checker("Number of approvals (mr author is ignored)", ApprovalsRule),
      Checker("Required approvers (mr author is ignored)", ApproversRule),
      Checker("Pipeline didn't fail ", PipelinesRule),
      Checker("Tests", TestsRule) ]
  }

  /** The table holds each of the six checks exactly once, in this order, each under its own label. */
  lemma TableShape()
    ensures |Table()| == 6
    ensures Table()[0].rule == TitleRule && Table()[1].rule == DescriptionRule
    ensures Table()[2].rule == ApprovalsRule && Table()[3].rule == ApproversRule
    ensures Table()[4].rule == PipelinesRule && Table()[5].rule == TestsRule
    ensures forall i, j :: 0 <= i < j < |Table()| ==> Table()[i].rule != Table()[j].rule && Table()[i].text != Table()[j].text
    ensures forall i :: 0 <= i < |Table()| ==> Table()[i].text != ""
  {
  }

  /**
   * The result record the report is built from, uniting the check's
   * (passed, required) with the label of its table entry.
   */
  datatype CheckResult = CheckResult(passed: bool, required: bool, message: string)

  function RunChecker(c: Checker, engine: RegexEngine, config: Config, info: MrInfo): (r: CheckResult)
    ensures r.message == c.text
    ensures Outcome(r.passed, r.required) == Evaluate(c.rule, engine, config, info)
  {
    var o := Evaluate(c.rule, engine, config, info);
    CheckResult(o.passed, o.required, c.text)
  }
}

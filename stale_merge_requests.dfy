/**
 * cleanStaleMergeRequests: list a batch of open merge requests, then for each
 * one, in order, delete the branch of a stale-labelled request past its grace
 * period and label and comment a request idle past the stale threshold. The
 * first failing call ends the pass with its error, wrapped.
 */
module StaleMergeRequests {
  import opened Wrappers
  import opened Strings
  import opened Provider
  import opened Clock
  import opened Requests

  /** The comment left on a request that has just been labelled stale. */
  function StaleComment(days: int, coolDays: int): string {
    "This MR is stale because it has been open " + IntToString(days)
      + " days with no activity. Remove stale label othewise this will be closed in "
      + IntToString(coolDays) + " days."
  }

  /** Idle for longer than the grace period, and already labelled stale. */
  predicate PastGrace(s: StaleBranchesDeletion, now: int, mr: MR) {
    StaleLabel in mr.labels && Sub(now, mr.lastUpdated) > DaysDuration(s.waitDays)
  }

  /** Idle for longer than the stale threshold. */
  predicate IsStale(s: StaleBranchesDeletion, now: int, mr: MR) {
    Sub(now, mr.lastUpdated) > DaysDuration(s.days)
  }

  /** The calls the loop makes for one candidate, with the context of each error. */
  function Steps(projectId: int, s: StaleBranchesDeletion, now: int, message: string, mr: MR): seq<Step> {
    (if PastGrace(s, now, mr) then [Step(DeleteBranch(projectId, mr.branch), Some("DeleteBranch returns error"))] else [])
    + (if IsStale(s, now, mr) then
         [ Step(AssignLabel(projectId, mr.id, StaleLabel, StaleLabelColor), Some("AssignLabel returns error")),
           Step(LeaveComment(projectId, mr.id, message), Some("LeaveComment returns error")) ]
       else [])
  }

  /** The steps of all candidates, in candidate order. */
  function Sweep(projectId: int, s: StaleBranchesDeletion, now: int, message: string, mrs: seq<MR>): seq<Step>
    decreases |mrs|
  {
    if mrs == [] then [] else Steps(projectId, s, now, message, mrs[0]) + Sweep(projectId, s, now, message, mrs[1..])
  }

  function ListStep(projectId: int, s: StaleBranchesDeletion): Step {
    Step(ListMergeRequests(projectId, s.batchSize), Some("ListMergeRequests returns error"))
  }

  /**
   * The whole pass against provider replies o, from trace index n, commenting
   * with `message`: the listing, then the sweep over the candidates it returns.
   */
  function Plan(o: Oracle, n: nat, projectId: int, s: StaleBranchesDeletion, now: int, message: string): seq<Step> {
    [ListStep(projectId, s)] + Sweep(projectId, s, now, message, o(n, ListMergeRequests(projectId, s.batchSize)).mrs)
  }

  function Clean(o: Oracle, n: nat, projectId: int, s: StaleBranchesDeletion, now: int, message: string): Run {
    Execute(o, n, Plan(o, n, projectId, s, now, message))
  }

  /** cleanStaleMergeRequests: the comment text depends on the configuration only, and is built once. */
  method CleanStaleMergeRequests(r: Request, now: int) returns (err: Option<Error>)
    requires r.Loaded()
    modifies r.provider
    ensures var sbd := r.config.value.staleBranchesDeletion;
            var run := Clean(r.provider.replies, |old(r.provider.calls)|, r.info.value.projectId, sbd, now,
                             StaleComment(sbd.days, sbd.waitDays));
            r.provider.calls == old(r.provider.calls) + run.calls && err == run.err
  {
    var sbd := r.config.value.staleBranchesDeletion;
    var message := StaleComment(sbd.days, sbd.waitDays);
    err := CleanWith(r, now, message);
  }

  /** The listing and the loop over the candidates, stopping at the first error. */
  method CleanWith(r: Request, now: int, message: string) returns (err: Option<Error>)
    requires r.Loaded()
    modifies r.provider
    ensures var run := Clean(r.provider.replies, |old(r.provider.calls)|, r.info.value.projectId,
                             r.config.value.staleBranchesDeletion, now, message);
            r.provider.calls == old(r.provider.calls) + run.calls && err == run.err
  {
    var p := r.provider;
    var pid := r.info.value.projectId;
    var sbd := r.config.value.staleBranchesDeletion;
    ghost var base := p.calls;
    ghost var plan := Plan(p.replies, |base|, pid, sbd, now, message);
    ProgressEnds(p.replies, base, p.calls, plan);
    var reply;
    reply, err := p.TryAt(ListStep(pid, sbd), base, plan, 0);
    if err.Some? {
      FinishedTrace(p.replies, base, p.calls, plan, err);
      return;
    }
    assert plan[1..] == Sweep(pid, sbd, now, message, reply.mrs);
    err := CleanAll(p, pid, sbd, now, message, reply.mrs, base, plan, 1);
    FinishedTrace(p.replies, base, p.calls, plan, err);
  }

  /** The loop over the listed merge requests, issuing the rest of the plan from step k on. */
  method CleanAll(p: RequestProvider, pid: int, sbd: StaleBranchesDeletion, now: int, message: string, candidates: seq<MR>,
                  ghost base: seq<Call>, ghost plan: seq<Step>, ghost k0: nat) returns (err: Option<Error>)
    requires Progress(p.replies, base, p.calls, plan, k0)
    requires k0 <= |plan| && plan[k0..] == Sweep(pid, sbd, now, message, candidates)
    modifies p
    ensures Finished(p.replies, base, p.calls, plan, err)
  {
    ghost var k: nat := k0;
    assert candidates[0..] == candidates;
    for i := 0 to |candidates|
      invariant Progress(p.replies, base, p.calls, plan, k)
      invariant k <= |plan|
      invariant plan[k..] == Sweep(pid, sbd, now, message, candidates[i..])
    {
      SweepNext(pid, sbd, now, message, candidates, i, plan, k);
      err := CleanOne(p, pid, sbd, now, message, candidates[i], base, plan, k);
      if err.Some? {
        return;
      }
      k := k + |Steps(pid, sbd, now, message, candidates[i])|;
    }
    ProgressEnds(p.replies, base, p.calls, plan);
    err := None;
  }

  /** The plan from step k on is candidate i's steps, then the sweep over the candidates after it. */
  lemma SweepNext(pid: int, sbd: StaleBranchesDeletion, now: int, message: string, candidates: seq<MR>, i: nat,
                  plan: seq<Step>, k: nat)
    requires i < |candidates| && k <= |plan| && plan[k..] == Sweep(pid, sbd, now, message, candidates[i..])
    ensures var steps := Steps(pid, sbd, now, message, candidates[i]);
            && k + |steps| <= |plan|
            && plan[k..k + |steps|] == steps
            && plan[k + |steps|..] == Sweep(pid, sbd, now, message, candidates[i + 1..])
  {
    assert candidates[i..][1..] == candidates[i + 1..];
    var steps := Steps(pid, sbd, now, message, candidates[i]);
    assert plan[k..][..|steps|] == steps;
    assert plan[k..][|steps|..] == plan[k + |steps|..];
  }

  /** The body of the loop for one candidate: its steps, issued as steps k.. of the plan. */
  method CleanOne(p: RequestProvider, pid: int, sbd: StaleBranchesDeletion, now: int, message: string, mr: MR,
                  ghost base: seq<Call>, ghost plan: seq<Step>, ghost k: nat) returns (err: Option<Error>)
    requires Progress(p.replies, base, p.calls, plan, k)
    requires var steps := Steps(pid, sbd, now, message, mr);
             k + |steps| <= |plan| && plan[k..k + |steps|] == steps
    modifies p
    ensures var steps := Steps(pid, sbd, now, message, mr);
            && (err.None? ==> Progress(p.replies, base, p.calls, plan, k + |steps|))
            && (err.Some? ==> Finished(p.replies, base, p.calls, plan, err))
  {
    ghost var steps := Steps(pid, sbd, now, message, mr);
    ghost var j := k;
    var days := sbd.days;
    var coolDays := sbd.waitDays;
    var span := Sub(now, mr.lastUpdated);
    var reply;
    if StaleLabel in mr.labels {
      if span > DaysDuration(coolDays) {
        assert plan[j] == steps[0];
        reply, err := p.TryAt(Step(DeleteBranch(pid, mr.branch), Some("DeleteBranch returns error")), base, plan, j);
        if err.Some? {
          return;
        }
        j := j + 1;
      }
    }
    if span > DaysDuration(days) {
      assert plan[j] == steps[j - k];
      reply, err := p.TryAt(Step(AssignLabel(pid, mr.id, StaleLabel, StaleLabelColor), Some("AssignLabel returns error")), base, plan, j);
      if err.Some? {
        return;
      }
      j := j + 1;
      assert plan[j] == steps[j - k];
      reply, err := p.TryAt(Step(LeaveComment(pid, mr.id, message), Some("LeaveComment returns error")), base, plan, j);
      if err.Some? {
        return;
      }
      j := j + 1;
    }
    assert j == k + |steps|;
    err := None;
  }

  // ------------------------------------------------------------ the rules

  /**
   * Per candidate: its branch is deleted iff it carries the stale label and
   * has been idle strictly longer than WaitDays; it is labelled and commented
   * iff idle strictly longer than Days; the delete comes first, then the
   * label, then the comment, whose text names both day counts.
   */
  lemma StepsRule(projectId: int, s: StaleBranchesDeletion, now: int, message: string, mr: MR)
    ensures var cs := Calls(Steps(projectId, s, now, message, mr));
            var span := Sub(now, mr.lastUpdated);
            var delete := DeleteBranch(projectId, mr.branch);
            var assign := AssignLabel(projectId, mr.id, "merge-bot:stale", "#cccccc");
            var comment := LeaveComment(projectId, mr.id, message);
            && (delete in cs <==> "merge-bot:stale" in mr.labels && span > DaysDuration(s.waitDays))
            && (assign in cs <==> span > DaysDuration(s.days))
            && (assign in cs <==> comment in cs)
            && (delete in cs ==> cs[0] == delete)
            && (assign in cs ==> cs[|cs| - 2] == assign && cs[|cs| - 1] == comment)
            && |cs| <= 3
  {
    var d := Step(DeleteBranch(projectId, mr.branch), Some("DeleteBranch returns error"));
    var a := Step(AssignLabel(projectId, mr.id, StaleLabel, StaleLabelColor), Some("AssignLabel returns error"));
    var c := Step(LeaveComment(projectId, mr.id, message), Some("LeaveComment returns error"));
    var steps := Steps(projectId, s, now, message, mr);
    var cs := Calls(steps);
    if PastGrace(s, now, mr) && IsStale(s, now, mr) {
      assert steps == [d, a, c];
      assert cs == [d.call, a.call, c.call];
    } else if PastGrace(s, now, mr) {
      assert steps == [d];
      assert cs == [d.call];
    } else if IsStale(s, now, mr) {
      assert steps == [a, c];
      assert cs == [a.call, c.call];
    } else {
      assert cs == [];
    }
  }

  /** The thresholds are strict: a request idle exactly Days (or WaitDays) days is not touched for that rule. */
  lemma ThresholdsStrict(projectId: int, s: StaleBranchesDeletion, now: int, mr: MR)
    ensures Sub(now, mr.lastUpdated) == s.days * 24 * Hour ==> !IsStale(s, now, mr)
    ensures Sub(now, mr.lastUpdated) == s.waitDays * 24 * Hour ==> !PastGrace(s, now, mr)
    ensures Sub(now, mr.lastUpdated) > s.days * 24 * Hour ==> IsStale(s, now, mr)
  {
  }

  /** A request neither past grace nor stale contributes no call. */
  lemma FreshUntouched(projectId: int, s: StaleBranchesDeletion, now: int, message: string, mr: MR)
    requires !PastGrace(s, now, mr) && !IsStale(s, now, mr)
    ensures Steps(projectId, s, now, message, mr) == []
  {
  }

  /** The sweep is the candidates' steps back to back, in order. */
  lemma {:induction false} SweepSplit(projectId: int, s: StaleBranchesDeletion, now: int, message: string, a: seq<MR>, b: seq<MR>)
    ensures Sweep(projectId, s, now, message, a + b) == Sweep(projectId, s, now, message, a) + Sweep(projectId, s, now, message, b)
    decreases |a|
  {
    if a == [] {
      assert a + b == b;
    } else {
      assert (a + b)[0] == a[0];
      assert (a + b)[1..] == a[1..] + b;
      SweepSplit(projectId, s, now, message, a[1..], b);
    }
  }

  /** A listing error is returned wrapped, and nothing else is called. */
  lemma ListingErrorStops(o: Oracle, n: nat, projectId: int, s: StaleBranchesDeletion, now: int, message: string)
    requires o(n, ListMergeRequests(projectId, s.batchSize)).err.Some?
    ensures Clean(o, n, projectId, s, now, message) ==
              Run([ListMergeRequests(projectId, s.batchSize)],
                  Some(Wrapped("ListMergeRequests returns error", o(n, ListMergeRequests(projectId, s.batchSize)).err.value)))
  {
  }

  /**
   * The pass opens with the listing. Without an error, the listing and every
   * planned call were made and all succeeded; with one, the failing call is
   * the last one made and every earlier one succeeded: the first failure
   * ends the pass.
   */
  lemma CleanFirstError(o: Oracle, n: nat, projectId: int, s: StaleBranchesDeletion, now: int, message: string)
    ensures var r := Clean(o, n, projectId, s, now, message);
            var list := ListMergeRequests(projectId, s.batchSize);
            && 1 <= |r.calls| && r.calls[0] == list
            && (r.err.None? ==>
                  && r.calls == [list] + Calls(Sweep(projectId, s, now, message, o(n, list).mrs))
                  && forall i :: 0 <= i < |r.calls| ==> o(n + i, r.calls[i]).err.None?)
            && (r.err.Some? ==>
                  && o(n + |r.calls| - 1, r.calls[|r.calls| - 1]).err.Some?
                  && forall i :: 0 <= i < |r.calls| - 1 ==> o(n + i, r.calls[i]).err.None?)
  {
    var rest := Sweep(projectId, s, now, message, o(n, ListMergeRequests(projectId, s.batchSize)).mrs);
    ExecuteFirstError(o, n, [ListStep(projectId, s)] + rest);
    ExecuteOpens(o, n, ListStep(projectId, s), rest);
  }
}

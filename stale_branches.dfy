/**
 * cleanStaleBranches: list the project's branches that no merge request
 * uses, then delete, in order, each one whose last commit is older than the
 * stale threshold. The clock is read afresh for every candidate; the first
 * failing call ends the pass with its error, wrapped.
 */
module StaleBranches {
  import opened Wrappers
  import opened Provider
  import opened Clock
  import opened Requests

  /** The successive readings of time.Now: reading i is taken for candidate i. */
  type Readings = nat -> int

  /** Idle strictly longer than Days*24h at instant `now`. */
  predicate IsStale(days: int, now: int, b: StaleBranch) {
    Sub(now, b.lastUpdated) > DaysDuration(days)
  }

  function DeleteStep(projectId: int, b: StaleBranch): Step {
    Step(DeleteBranch(projectId, b.name), Some("DeleteBranch returns error"))
  }

  /** The deletions for candidates i, i+1, ... (the list `bs`), in order. */
  function Sweep(projectId: int, days: int, clock: Readings, i: nat, bs: seq<StaleBranch>): seq<Step>
    decreases |bs|
  {
    if bs == [] then []
    else (if IsStale(days, clock(i), bs[0]) then [DeleteStep(projectId, bs[0])] else [])
         + Sweep(projectId, days, clock, i + 1, bs[1..])
  }

  function ListStep(projectId: int, s: StaleBranchesDeletion): Step {
    Step(ListBranches(projectId, s.batchSize), Some("ListBranches returns error"))
  }

  /** The whole pass against provider replies o from trace index n: the listing, then the sweep. */
  function Plan(o: Oracle, n: nat, projectId: int, s: StaleBranchesDeletion, clock: Readings): seq<Step> {
    [ListStep(projectId, s)] + Sweep(projectId, s.days, clock, 0, o(n, ListBranches(projectId, s.batchSize)).branches)
  }

  function Clean(o: Oracle, n: nat, projectId: int, s: StaleBranchesDeletion, clock: Readings): Run {
    Execute(o, n, Plan(o, n, projectId, s, clock))
  }

  /** cleanStaleBranches(projectId), with the configuration the request has loaded. */
  method CleanStaleBranches(r: Request, projectId: int, clock: Readings) returns (err: Option<Error>)
    requires r.config.Some?
    modifies r.provider
    ensures var run := Clean(r.provider.replies, |old(r.provider.calls)|, projectId, r.config.value.staleBranchesDeletion, clock);
            r.provider.calls == old(r.provider.calls) + run.calls && err == run.err
  {
    var p := r.provider;
    var sbd := r.config.value.staleBranchesDeletion;
    ghost var base := p.calls;
    ghost var plan := Plan(p.replies, |base|, projectId, sbd, clock);
    ProgressEnds(p.replies, base, p.calls, plan);
    var reply;
    reply, err := p.TryAt(ListStep(projectId, sbd), base, plan, 0);
    if err.Some? {
      FinishedTrace(p.replies, base, p.calls, plan, err);
      return;
    }
    assert plan[1..] == Sweep(projectId, sbd.days, clock, 0, reply.branches);
    err := DeleteAll(p, projectId, sbd.days, clock, reply.branches, base, plan, 1);
    FinishedTrace(p.replies, base, p.calls, plan, err);
  }

  /** The loop over the candidates, issuing the rest of the plan from step k0 on. */
  method DeleteAll(p: RequestProvider, projectId: int, days: int, clock: Readings, candidates: seq<StaleBranch>,
                   ghost base: seq<Call>, ghost plan: seq<Step>, ghost k0: nat) returns (err: Option<Error>)
    requires Progress(p.replies, base, p.calls, plan, k0)
    requires k0 <= |plan| && plan[k0..] == Sweep(projectId, days, clock, 0, candidates)
    modifies p
    ensures Finished(p.replies, base, p.calls, plan, err)
  {
    ghost var k: nat := k0;
    assert candidates[0..] == candidates;
    for i := 0 to |candidates|
      invariant Progress(p.replies, base, p.calls, plan, k)
      invariant k <= |plan|
      invariant plan[k..] == Sweep(projectId, days, clock, i, candidates[i..])
    {
      SweepNext(projectId, days, clock, candidates, i, plan, k);
      var now := clock(i);
      var span := Sub(now, candidates[i].lastUpdated);
      if span > DaysDuration(days) {
        var reply;
        reply, err := p.TryAt(Step(DeleteBranch(projectId, candidates[i].name), Some("DeleteBranch returns error")), base, plan, k);
        if err.Some? {
          return;
        }
        k := k + 1;
      }
    }
    ProgressEnds(p.replies, base, p.calls, plan);
    err := None;
  }

  /** The plan from step k on is candidate i's deletion, if it is stale, then the sweep over the rest. */
  lemma SweepNext(projectId: int, days: int, clock: Readings, candidates: seq<StaleBranch>, i: nat, plan: seq<Step>, k: nat)
    requires i < |candidates| && k <= |plan| && plan[k..] == Sweep(projectId, days, clock, i, candidates[i..])
    ensures IsStale(days, clock(i), candidates[i]) ==>
              && k < |plan| && plan[k] == DeleteStep(projectId, candidates[i])
              && plan[k + 1..] == Sweep(projectId, days, clock, i + 1, candidates[i + 1..])
    ensures !IsStale(days, clock(i), candidates[i]) ==>
              plan[k..] == Sweep(projectId, days, clock, i + 1, candidates[i + 1..])
  {
    assert candidates[i..][0] == candidates[i];
    assert candidates[i..][1..] == candidates[i + 1..];
    if IsStale(days, clock(i), candidates[i]) {
      assert plan[k..][0] == plan[k];
      assert plan[k..][1..] == plan[k + 1..];
    }
  }

  // ------------------------------------------------------------ the rules

  /** Candidate i's part of the sweep, and the part after it. */
  lemma SweepUnfold(projectId: int, days: int, clock: Readings, i: nat, bs: seq<StaleBranch>)
    requires bs != []
    ensures var head := if IsStale(days, clock(i), bs[0]) then [DeleteBranch(projectId, bs[0].name)] else [];
            Calls(Sweep(projectId, days, clock, i, bs)) == head + Calls(Sweep(projectId, days, clock, i + 1, bs[1..]))
  {
    var head := if IsStale(days, clock(i), bs[0]) then [DeleteStep(projectId, bs[0])] else [];
    CallsAppend(head, Sweep(projectId, days, clock, i + 1, bs[1..]));
  }

  /** A sweep makes only deletions in the project, at most one per candidate. */
  lemma {:induction false} SweepOnlyDeletes(projectId: int, days: int, clock: Readings, i: nat, bs: seq<StaleBranch>)
    ensures var cs := Calls(Sweep(projectId, days, clock, i, bs));
            && |cs| <= |bs|
            && forall c :: c in cs ==> c.DeleteBranch? && c.projectId == projectId
    decreases |bs|
  {
    if bs != [] {
      SweepUnfold(projectId, days, clock, i, bs);
      SweepOnlyDeletes(projectId, days, clock, i + 1, bs[1..]);
    }
  }

  /** Every candidate stale at the reading taken for it has its branch deleted. */
  lemma {:induction false} SweepDeletesStale(projectId: int, days: int, clock: Readings, i: nat, bs: seq<StaleBranch>, j: nat)
    requires j < |bs| && IsStale(days, clock(i + j), bs[j])
    ensures DeleteBranch(projectId, bs[j].name) in Calls(Sweep(projectId, days, clock, i, bs))
    decreases j
  {
    SweepUnfold(projectId, days, clock, i, bs);
    if j > 0 {
      assert bs[1..][j - 1] == bs[j];
      assert i + 1 + (j - 1) == i + j;
      SweepDeletesStale(projectId, days, clock, i + 1, bs[1..], j - 1);
    }
  }

  /** Only a branch some stale candidate carries is deleted: the others are never touched. */
  lemma {:induction false} SweepSparesFresh(projectId: int, days: int, clock: Readings, i: nat, bs: seq<StaleBranch>, name: string)
    requires DeleteBranch(projectId, name) in Calls(Sweep(projectId, days, clock, i, bs))
    ensures exists j :: 0 <= j < |bs| && bs[j].name == name && IsStale(days, clock(i + j), bs[j])
    decreases |bs|
  {
    if bs == [] {
      assert false;
    } else {
      SweepUnfold(projectId, days, clock, i, bs);
      if bs[0].name == name && IsStale(days, clock(i), bs[0]) {
        assert i + 0 == i;
      } else {
        SweepSparesFresh(projectId, days, clock, i + 1, bs[1..], name);
        var j :| 0 <= j < |bs[1..]| && bs[1..][j].name == name && IsStale(days, clock(i + 1 + j), bs[1..][j]);
        assert bs[j + 1].name == name && i + (j + 1) == i + 1 + j;
      }
    }
  }

  /** The deletions follow candidate order: the sweep of a + b is the sweep of a, then that of b. */
  lemma {:induction false} SweepSplit(projectId: int, days: int, clock: Readings, i: nat, a: seq<StaleBranch>, b: seq<StaleBranch>)
    ensures Sweep(projectId, days, clock, i, a + b)
            == Sweep(projectId, days, clock, i, a) + Sweep(projectId, days, clock, i + |a|, b)
    decreases |a|
  {
    if a == [] {
      assert a + b == b;
    } else {
      var head := if IsStale(days, clock(i), a[0]) then [DeleteStep(projectId, a[0])] else [];
      assert (a + b)[0] == a[0];
      assert (a + b)[1..] == a[1..] + b;
      SweepSplit(projectId, days, clock, i + 1, a[1..], b);
      assert i + 1 + |a[1..]| == i + |a|;
      Concat3(head, Sweep(projectId, days, clock, i + 1, a[1..]), Sweep(projectId, days, clock, i + |a|, b));
    }
  }

  /** The comparison is strict: a branch idle exactly Days days is kept. */
  lemma ThresholdStrict(days: int, now: int, b: StaleBranch)
    ensures Sub(now, b.lastUpdated) == days * 24 * Hour ==> !IsStale(days, now, b)
    ensures Sub(now, b.lastUpdated) > days * 24 * Hour ==> IsStale(days, now, b)
  {
  }

  /**
   * With a clock that does not go back, a stale verdict carries over to any
   * later reading and to any branch whose last commit is no newer.
   */
  lemma StaleMonotone(days: int, now: int, later: int, b: StaleBranch, older: StaleBranch)
    requires now <= later && older.lastUpdated <= b.lastUpdated
    ensures IsStale(days, now, b) ==> IsStale(days, later, older)
  {
  }

  /** A listing error is returned wrapped, and nothing is deleted. */
  lemma ListingErrorStops(o: Oracle, n: nat, projectId: int, s: StaleBranchesDeletion, clock: Readings)
    requires o(n, ListBranches(projectId, s.batchSize)).err.Some?
    ensures Clean(o, n, projectId, s, clock) ==
              Run([ListBranches(projectId, s.batchSize)],
                  Some(Wrapped("ListBranches returns error", o(n, ListBranches(projectId, s.batchSize)).err.value)))
  {
  }

  /**
   * The pass opens with the listing. Without an error, every planned
   * deletion was made and all calls succeeded; with one, the failing call is
   * the last one made and every earlier one succeeded.
   */
  lemma CleanFirstError(o: Oracle, n: nat, projectId: int, s: StaleBranchesDeletion, clock: Readings)
    ensures var r := Clean(o, n, projectId, s, clock);
            var list := ListBranches(projectId, s.batchSize);
            && 1 <= |r.calls| && r.calls[0] == list
            && (r.err.None? ==>
                  && r.calls == [list] + Calls(Sweep(projectId, s.days, clock, 0, o(n, list).branches))
                  && forall i :: 0 <= i < |r.calls| ==> o(n + i, r.calls[i]).err.None?)
            && (r.err.Some? ==>
                  && o(n + |r.calls| - 1, r.calls[|r.calls| - 1]).err.Some?
                  && forall i :: 0 <= i < |r.calls| - 1 ==> o(n + i, r.calls[i]).err.None?)
  {
    var rest := Sweep(projectId, s.days, clock, 0, o(n, ListBranches(projectId, s.batchSize)).branches);
    ExecuteFirstError(o, n, [ListStep(projectId, s)] + rest);
    ExecuteOpens(o, n, ListStep(projectId, s), rest);
  }
}

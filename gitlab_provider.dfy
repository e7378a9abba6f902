/**
 * The GitLab implementation of the provider (handlers/gitlab): which API
 * calls it makes and what it makes of their replies — the approvals fold
 * over a merge request's notes, the validity test, the discussion the bot
 * edits, the stale-branch and merge-request listings, idempotent labels,
 * and the note that decides whether a push resets the approvals.
 *
 * Every API call goes through the `Client` trace of GitlabApi; each
 * operation is a method proved against a function of the client's replies,
 * and the rules are lemmas about those functions.
 */
module GitlabHandlers {
  import opened Wrappers
  import opened Strings
  import opened Provider
  import opened GitlabApi
  import opened Pagination

  const FindMRSize: int := 10
  const GetApprovalsSize: int := 10

  /** The reset comment, spelled as the source spells it (the UTF-8 bytes of a sparkle read as Windows-1252). */
  const ApprovalsResetMessage: string := "\U{E2}\U{153}\U{A8} approvals were reset"
  const ApprovedBody: string := "approved this merge request"
  const UnapprovedBody: string := "unapproved this merge request"
  const SuccessStatus: string := "success"
  const OpenedState: string := "opened"

  /** The calls an operation made and the error it returned. */
  datatype ApiRun = ApiRun(err: Option<Error>, calls: seq<ApiCall>)

  // ------------------------------------------------------------- listings

  /** listBranches: page `page` of the branches, twice `size` per page. */
  function BranchesRequest(projectId: int, size: int): int -> ApiCall {
    page => ApiCall.ListBranches(projectId, page, size * 2)
  }

  /** listMergeRequests: the options with their ListOptions overwritten for page `page`. */
  function MergeRequestsRequest(projectId: int, size: int, options: MrListOptions): int -> ApiCall {
    page => ListProjectMergeRequests(projectId, options.(page := page, perPage := size * 2))
  }

  /** listMergeRequestNotes, assumed to page like the two listings above. */
  function NotesRequest(projectId: int, mergeId: int, size: int): int -> ApiCall {
    page => ListMergeRequestNotes(projectId, mergeId, page, size * 2)
  }

  function BranchItems(r: ApiReply): seq<Branch> { r.branches }
  function MrItems(r: ApiReply): seq<BasicMR> { r.mrs }
  function NoteItems(r: ApiReply): seq<Note> { r.notes }

  /**
   * Every page request of a merge request listing carries the caller's
   * filters unchanged, with only the page and its size replaced.
   */
  lemma MergeRequestsRequestKeepsFilters(projectId: int, size: int, options: MrListOptions, page: int)
    ensures var c := MergeRequestsRequest(projectId, size, options)(page);
            && c == ListProjectMergeRequests(projectId, c.options)
            && c.options.page == page && c.options.perPage == size * 2
            && c.options.(page := options.page, perPage := options.perPage) == options
  {
  }

  // ------------------------------------------------------------ approvals

  /** A note by someone other than the author whose body is the reset comment. */
  predicate IsReset(authorId: int, n: Note) {
    n.author.id != authorId && n.body == ApprovalsResetMessage
  }

  predicate HasReset(authorId: int, notes: seq<Note>) {
    exists i :: 0 <= i < |notes| && IsReset(authorId, notes[i])
  }

  /** What one counted note does: a system "approved" adds its author, a system "unapproved" removes it. */
  function Tally(approvals: set<string>, n: Note): set<string> {
    if !n.system then approvals
    else if n.body == ApprovedBody then approvals + {n.author.username}
    else if n.body == UnapprovedBody then approvals - {n.author.username}
    else approvals
  }

  /**
   * The approvals after `notes`, taken in order from `acc`: the author's
   * notes are skipped, and the first reset by anyone else ends the count.
   */
  function Fold(authorId: int, acc: set<string>, notes: seq<Note>): set<string>
    decreases |notes|
  {
    if notes == [] then acc
    else if notes[0].author.id == authorId then Fold(authorId, acc, notes[1..])
    else if notes[0].body == ApprovalsResetMessage then acc
    else Fold(authorId, Tally(acc, notes[0]), notes[1..])
  }

  /** The body of GetApprovals' range loop. */
  function ApprovalsConsumer(authorId: int): Consumer<set<string>, Note> {
    (s: set<string>, n: Note, k: nat) =>
      if n.author.id == authorId then Consumed(s, None, true)
      else if n.body == ApprovalsResetMessage then Consumed(s, None, false)
      else Consumed(Tally(s, n), None, true)
  }

  /** A note counted by someone who is not the author approves (or unapproves) for user u. */
  predicate Approves(authorId: int, n: Note, u: string) {
    n.author.id != authorId && n.system && n.body == ApprovedBody && n.author.username == u
  }

  predicate Unapproves(authorId: int, n: Note, u: string) {
    n.author.id != authorId && n.system && n.body == UnapprovedBody && n.author.username == u
  }

  /** Before any reset, one more note acts on the count as its own rule says. */
  lemma {:induction false} FoldSnoc(authorId: int, acc: set<string>, notes: seq<Note>, n: Note)
    requires !HasReset(authorId, notes)
    ensures Fold(authorId, acc, notes + [n]) ==
            if n.author.id == authorId || n.body == ApprovalsResetMessage then Fold(authorId, acc, notes)
            else Tally(Fold(authorId, acc, notes), n)
    decreases |notes|
  {
    if notes == [] {
      assert [] + [n] == [n];
      assert [n][1..] == [];
    } else {
      assert (notes + [n])[0] == notes[0];
      assert (notes + [n])[1..] == notes[1..] + [n];
      assert !IsReset(authorId, notes[0]);
      assert !HasReset(authorId, notes[1..]) by {
        forall i | 0 <= i < |notes[1..]| ensures !IsReset(authorId, notes[1..][i]) {
          assert notes[1..][i] == notes[i + 1];
        }
      }
      if notes[0].author.id == authorId {
        FoldSnoc(authorId, acc, notes[1..], n);
      } else {
        FoldSnoc(authorId, Tally(acc, notes[0]), notes[1..], n);
      }
    }
  }

  /** Nothing after the first reset counts. */
  lemma {:induction false} FoldStopsAtReset(authorId: int, acc: set<string>, notes: seq<Note>, i: nat)
    requires i < |notes| && IsReset(authorId, notes[i]) && !HasReset(authorId, notes[..i])
    ensures Fold(authorId, acc, notes) == Fold(authorId, acc, notes[..i])
    decreases i
  {
    if i == 0 {
      assert notes[..0] == [];
    } else {
      assert notes[..i][0] == notes[0];
      assert !IsReset(authorId, notes[0]);
      var rest := notes[1..][..i - 1];
      assert rest == notes[..i][1..];
      assert !HasReset(authorId, rest) by {
        forall j | 0 <= j < |rest| ensures !IsReset(authorId, rest[j]) {
          assert rest[j] == notes[..i][j + 1];
        }
      }
      var acc' := if notes[0].author.id == authorId then acc else Tally(acc, notes[0]);
      FoldStopsAtReset(authorId, acc', notes[1..], i - 1);
    }
  }

  /**
   * What the count means: before any reset, user u is among the approvals
   * iff some counted note approves for u and no later counted note
   * unapproves for u.
   */
  lemma {:induction false} ApprovalMeaning(authorId: int, notes: seq<Note>, u: string)
    requires !HasReset(authorId, notes)
    ensures u in Fold(authorId, {}, notes) <==>
            exists i :: 0 <= i < |notes| && Approves(authorId, notes[i], u) &&
                        forall j :: i < j < |notes| ==> !Unapproves(authorId, notes[j], u)
    decreases |notes|
  {
    if notes != [] {
      var init := notes[..|notes| - 1];
      var last := notes[|notes| - 1];
      assert notes == init + [last];
      assert !HasReset(authorId, init) by {
        forall i | 0 <= i < |init| ensures !IsReset(authorId, init[i]) {
          assert init[i] == notes[i];
        }
      }
      assert !IsReset(authorId, last);
      FoldSnoc(authorId, {}, init, last);
      ApprovalMeaning(authorId, init, u);
      if Approves(authorId, last, u) {
        assert u in Fold(authorId, {}, notes);
      } else if Unapproves(authorId, last, u) {
        assert u !in Fold(authorId, {}, notes);
        forall i | 0 <= i < |notes| && Approves(authorId, notes[i], u)
          ensures exists j :: i < j < |notes| && Unapproves(authorId, notes[j], u)
        {
          assert i < |notes| - 1;
        }
      } else {
        assert (u in Fold(authorId, {}, notes)) == (u in Fold(authorId, {}, init));
        if u in Fold(authorId, {}, init) {
          var i :| 0 <= i < |init| && Approves(authorId, init[i], u) &&
                   forall j :: i < j < |init| ==> !Unapproves(authorId, init[j], u);
          assert notes[i] == init[i];
          forall j | i < j < |notes| ensures !Unapproves(authorId, notes[j], u) {
            if j < |init| { assert notes[j] == init[j]; }
          }
        } else {
          forall i | 0 <= i < |notes| && Approves(authorId, notes[i], u)
            ensures exists j :: i < j < |notes| && Unapproves(authorId, notes[j], u)
          {
            assert i < |init| && init[i] == notes[i];
            var j :| i < j < |init| && Unapproves(authorId, init[j], u);
            assert notes[j] == init[j];
          }
        }
      }
    }
  }

  function ApprovalsSoFar(authorId: int): (set<string>, seq<Note>) -> bool {
    (s: set<string>, ys: seq<Note>) => !HasReset(authorId, ys) && s == Fold(authorId, {}, ys)
  }

  function ApprovalsFinal(authorId: int): (set<string>, seq<Note>) -> bool {
    (s: set<string>, ys: seq<Note>) => s == Fold(authorId, {}, ys)
  }

  /** The loop body keeps the count equal to the fold of the notes handed over so far. */
  lemma ApprovalsConsumerKeeps(authorId: int)
    ensures Keeps(ApprovalsConsumer(authorId), ApprovalsSoFar(authorId), ApprovalsFinal(authorId))
  {
    var consume := ApprovalsConsumer(authorId);
    var P := ApprovalsSoFar(authorId);
    var Q := ApprovalsFinal(authorId);
    forall s, ys, x, k | P(s, ys)
      ensures var c := consume(s, x, k);
              (c.more ==> P(c.state, ys + [x])) && (!c.more ==> Q(c.state, ys + [x]))
    {
      FoldSnoc(authorId, {}, ys, x);
      if !IsReset(authorId, x) {
        forall i | 0 <= i < |ys + [x]| ensures !IsReset(authorId, (ys + [x])[i]) {
          if i < |ys| { assert (ys + [x])[i] == ys[i]; }
        }
      }
    }
  }

  /** The notes listing GetApprovals runs, from trace index n. */
  function ApprovalsRun(o: ApiOracle, n: nat, projectId: int, mergeId: int, authorId: int, fuel: nat): Paged<set<string>, Note> {
    Follow(o, n, NotesRequest(projectId, mergeId, GetApprovalsSize), NoteItems, ApprovalsConsumer(authorId), 1, {}, fuel)
  }

  /** GetApprovals yields exactly the fold of the notes the listing handed over. */
  lemma ApprovalsRunIsFold(o: ApiOracle, n: nat, projectId: int, mergeId: int, authorId: int, fuel: nat)
    ensures var r := ApprovalsRun(o, n, projectId, mergeId, authorId, fuel);
            r.state == Fold(authorId, {}, r.yielded)
  {
    ApprovalsConsumerKeeps(authorId);
    FollowKeeps(o, n, NotesRequest(projectId, mergeId, GetApprovalsSize), NoteItems, ApprovalsConsumer(authorId),
                1, {}, fuel, [], ApprovalsSoFar(authorId), ApprovalsFinal(authorId));
    var r := ApprovalsRun(o, n, projectId, mergeId, authorId, fuel);
    assert [] + r.yielded == r.yielded;
  }

  // --------------------------------------------------------- merge request

  /** GetFailedPipelines: one failure iff there is a head pipeline and it did not succeed. */
  function FailedPipelines(m: MergeRequest): (n: int)
    ensures n == 0 || n == 1
    ensures n == 1 <==> m.headPipeline.Some? && m.headPipeline.value.status != SuccessStatus
  {
    if m.headPipeline.Some? && m.headPipeline.value.status != SuccessStatus then 1 else 0
  }

  /** GetFile: the project's default branch, then the file at it; its decoded content, or "" with the error. */
  function FileRun(o: ApiOracle, n: nat, projectId: int, path: string): (r: (string, ApiRun)) {
    var project := o(n, GetProject(projectId));
    if project.err.Some? then ("", ApiRun(project.err, [GetProject(projectId)]))
    else
      var file := o(n + 1, ApiCall.GetFile(projectId, path, project.text));
      var calls := [GetProject(projectId), ApiCall.GetFile(projectId, path, project.text)];
      if file.err.Some? then ("", ApiRun(file.err, calls)) else (file.text, ApiRun(None, calls))
  }

  /** The test report of the head pipeline: 0 without one, 1 when the report cannot be fetched. */
  function TestsRun(o: ApiOracle, n: nat, projectId: int, m: MergeRequest): (int, seq<ApiCall>) {
    if m.headPipeline.None? then (0, [])
    else
      var call := GetPipelineTestReport(projectId, m.headPipeline.value.iid);
      var report := o(n, call);
      (if report.err.Some? then 1 else report.failedCount, [call])
  }

  /** GetMRInfo's result and calls. */
  datatype InfoRun = InfoRun(info: Option<MrInfo>, err: Option<Error>, calls: seq<ApiCall>)

  function MrInfoRun(o: ApiOracle, n: nat, projectId: int, mergeId: int, path: string, fuel: nat): InfoRun {
    var first := o(n, GetMergeRequest(projectId, mergeId));
    if first.err.Some? then InfoRun(None, first.err, [GetMergeRequest(projectId, mergeId)])
    else
      var rest := GatherRun(o, n + 1, projectId, mergeId, path, first.mr, fuel);
      InfoRun(rest.info, None, [GetMergeRequest(projectId, mergeId)] + rest.calls)
  }

  /** Everything GetMRInfo gathers once the merge request m is loaded. */
  function GatherRun(o: ApiOracle, n: nat, projectId: int, mergeId: int, path: string, m: MergeRequest, fuel: nat): InfoRun {
    var file := FileRun(o, n, projectId, path);
    var n2 := n + |file.1.calls|;
    var a := ApprovalsRun(o, n2, projectId, mergeId, m.author.id, fuel);
    var tests := TestsRun(o, n2 + |a.calls|, projectId, m);
    var info := MrInfo(projectId, mergeId, m.labels, m.targetBranch, m.sourceBranch, a.state, m.author.username,
                       FailedPipelines(m), tests.0, m.title, m.description, file.0,
                       m.state == OpenedState && !m.hasConflicts);
    InfoRun(Some(info), None, file.1.calls + a.calls + tests.1)
  }

  /**
   * GetMRInfo fails only when the merge request cannot be loaded. A missing
   * configuration file leaves its content empty; the approvals are the fold
   * of the notes handed over; the pipeline and validity fields follow the
   * merge request; a test report that cannot be fetched counts as one
   * failure, and no head pipeline as none.
   */
  lemma MrInfoTolerance(o: ApiOracle, n: nat, projectId: int, mergeId: int, path: string, fuel: nat)
    ensures var r := MrInfoRun(o, n, projectId, mergeId, path, fuel);
            var first := o(n, GetMergeRequest(projectId, mergeId));
            && |r.calls| >= 1 && r.calls[0] == GetMergeRequest(projectId, mergeId)
            && (first.err.Some? <==> r.err.Some?)
            && (first.err.Some? ==> r.info.None? && r.err == first.err && |r.calls| == 1)
            && (first.err.None? ==>
                  var m := first.mr;
                  var i := r.info.value;
                  var file := FileRun(o, n + 1, projectId, path);
                  var a := ApprovalsRun(o, n + 1 + |file.1.calls|, projectId, mergeId, m.author.id, fuel);
                  && r.info.Some?
                  && (i.isValid <==> m.state == OpenedState && !m.hasConflicts)
                  && (file.1.err.Some? ==> i.configContent == "")
                  && i.approvals == Fold(m.author.id, {}, a.yielded)
                  && i.failedPipelines == FailedPipelines(m)
                  && (m.headPipeline.None? ==> i.failedTests == 0)
                  && (m.headPipeline.Some? ==>
                        var report := o(n + 1 + |file.1.calls| + |a.calls|, GetPipelineTestReport(projectId, m.headPipeline.value.iid));
                        && r.calls[|r.calls| - 1] == GetPipelineTestReport(projectId, m.headPipeline.value.iid)
                        && i.failedTests == if report.err.Some? then 1 else report.failedCount))
  {
    var first := o(n, GetMergeRequest(projectId, mergeId));
    if first.err.None? {
      var file := FileRun(o, n + 1, projectId, path);
      ApprovalsRunIsFold(o, n + 1 + |file.1.calls|, projectId, mergeId, first.mr.author.id, fuel);
    }
  }

  // ------------------------------------------------------------ discussions

  /** A discussion the bot opened and that can be resolved: its first note is resolvable and by the current user. */
  predicate OwnResolvable(d: Discussion, userId: int) {
    |d.notes| > 0 && d.notes[0].resolvable && d.notes[0].author.id == userId
  }

  /** The index of the first such discussion. */
  function FirstOwn(ds: seq<Discussion>, userId: int): (i: Option<nat>)
    ensures i.Some? ==> i.value < |ds| && OwnResolvable(ds[i.value], userId)
    ensures i.Some? ==> forall j :: 0 <= j < i.value ==> !OwnResolvable(ds[j], userId)
    ensures i.None? ==> forall j :: 0 <= j < |ds| ==> !OwnResolvable(ds[j], userId)
    decreases |ds|
  {
    if ds == [] then None
    else if OwnResolvable(ds[0], userId) then Some(0)
    else
      match FirstOwn(ds[1..], userId)
      case None =>
        assert forall j :: 1 <= j < |ds| ==> ds[j] == ds[1..][j - 1];
        None
      case Some(i) =>
        assert forall j :: 1 <= j < i + 1 ==> ds[j] == ds[1..][j - 1];
        Some(i + 1)
  }

  /** findDiscussion's error when no discussion qualifies. */
  function NoDiscussion(projectId: int, mergeId: int): Error {
    Message("could not find resolvable discussion for merge request " + IntToString(mergeId) +
            " in project " + IntToString(projectId))
  }

  /** A found discussion: its id, its first note's body and that note's id. */
  datatype Found = Found(discussionId: string, body: string, noteId: int)

  /** findDiscussion: the discussions, then the current user, then the first own resolvable discussion. */
  function FindRun(o: ApiOracle, n: nat, projectId: int, mergeId: int): (Result<Found, Error>, seq<ApiCall>) {
    var list := o(n, ListDiscussions(projectId, mergeId));
    if list.err.Some? then (Failure(list.err.value), [ListDiscussions(projectId, mergeId)])
    else
      var me := o(n + 1, CurrentUser);
      var calls := [ListDiscussions(projectId, mergeId), CurrentUser];
      if me.err.Some? then (Failure(me.err.value), calls)
      else
        match FirstOwn(list.discussions, me.user.id)
        case None => (Failure(NoDiscussion(projectId, mergeId)), calls)
        case Some(i) =>
          var d := list.discussions[i];
          (Success(Found(d.id, d.notes[0].body, d.notes[0].id)), calls)
  }

  /** UpdateDiscussion: rewrite the found note's body, unless it already reads `message`. */
  function UpdateDiscussionRun(o: ApiOracle, n: nat, projectId: int, mergeId: int, message: string): ApiRun {
    var (found, calls) := FindRun(o, n, projectId, mergeId);
    match found
    case Failure(e) => ApiRun(Some(e), calls)
    case Success(f) =>
      if f.body == message then ApiRun(None, calls)
      else
        var update := UpdateDiscussionNote(projectId, mergeId, f.discussionId, f.noteId, Some(message), None);
        ApiRun(o(n + |calls|, update).err, calls + [update])
  }

  /** UnresolveDiscussion: mark the found note unresolved. */
  function UnresolveDiscussionRun(o: ApiOracle, n: nat, projectId: int, mergeId: int): ApiRun {
    var (found, calls) := FindRun(o, n, projectId, mergeId);
    match found
    case Failure(e) => ApiRun(Some(e), calls)
    case Success(f) =>
      var update := UpdateDiscussionNote(projectId, mergeId, f.discussionId, f.noteId, None, Some(false));
      ApiRun(o(n + |calls|, update).err, calls + [update])
  }

  /**
   * A note already reading the message is left alone: no update call is
   * made; otherwise exactly one update, of the first own resolvable
   * discussion's first note, ends the run. Without such a discussion the
   * run fails after the two listing calls.
   */
  lemma UpdateDiscussionRule(o: ApiOracle, n: nat, projectId: int, mergeId: int, message: string)
    ensures var (found, calls) := FindRun(o, n, projectId, mergeId);
            var r := UpdateDiscussionRun(o, n, projectId, mergeId, message);
            && (found.Failure? ==> r == ApiRun(Some(found.error), calls))
            && (found.Success? && found.value.body == message ==> r == ApiRun(None, calls))
            && (found.Success? && found.value.body != message ==>
                  && |r.calls| == |calls| + 1
                  && r.calls[|calls|] == UpdateDiscussionNote(projectId, mergeId, found.value.discussionId,
                                                               found.value.noteId, Some(message), None))
    ensures var list := o(n, ListDiscussions(projectId, mergeId));
            var me := o(n + 1, CurrentUser);
            list.err.None? && me.err.None? && FirstOwn(list.discussions, me.user.id).None? ==>
              FindRun(o, n, projectId, mergeId).0 == Failure(NoDiscussion(projectId, mergeId))
  {
  }

  /**
   * UnresolveDiscussion returns a listing error or the current user's error
   * with no update call, and fails with NoDiscussion when no discussion is
   * the bot's own and resolvable; otherwise it makes exactly one call after
   * the two listings, marking the first note of the first own resolvable
   * discussion unresolved and leaving its body alone, and returns that
   * call's error.
   */
  lemma UnresolveDiscussionRule(o: ApiOracle, n: nat, projectId: int, mergeId: int)
    ensures var list := o(n, ListDiscussions(projectId, mergeId));
            var me := o(n + 1, CurrentUser);
            var r := UnresolveDiscussionRun(o, n, projectId, mergeId);
            && (list.err.Some? ==> r == ApiRun(list.err, [ListDiscussions(projectId, mergeId)]))
            && (list.err.None? && me.err.Some? ==> r == ApiRun(me.err, [ListDiscussions(projectId, mergeId), CurrentUser]))
            && (list.err.None? && me.err.None? && FirstOwn(list.discussions, me.user.id).None? ==>
                  r == ApiRun(Some(NoDiscussion(projectId, mergeId)), [ListDiscussions(projectId, mergeId), CurrentUser]))
            && (list.err.None? && me.err.None? && FirstOwn(list.discussions, me.user.id).Some? ==>
                  var d := list.discussions[FirstOwn(list.discussions, me.user.id).value];
                  var update := UpdateDiscussionNote(projectId, mergeId, d.id, d.notes[0].id, None, Some(false));
                  && r.calls == [ListDiscussions(projectId, mergeId), CurrentUser, update]
                  && r.err == o(n + 2, update).err)
  {
  }

  // ---------------------------------------------------------------- labels

  /** CreateLabel: search the labels by name and create it only if no label has exactly that name. */
  function CreateLabelRun(o: ApiOracle, n: nat, projectId: int, name: string, color: string): ApiRun {
    var list := o(n, ListLabels(projectId, name));
    if list.err.Some? then ApiRun(Some(Wrapped("listLabels failed to search", list.err.value)), [ListLabels(projectId, name)])
    else if name in list.labels then ApiRun(None, [ListLabels(projectId, name)])
    else
      var made := o(n + 1, ApiCall.CreateLabel(projectId, name, color));
      ApiRun(if made.err.Some? then Some(Wrapped("could't create label", made.err.value)) else None,
             [ListLabels(projectId, name), ApiCall.CreateLabel(projectId, name, color)])
  }

  /** AssignLabel: nothing to do when the merge request carries the label; else make sure it exists, then add it. */
  function AssignLabelRun(o: ApiOracle, n: nat, projectId: int, mergeId: int, name: string, color: string): ApiRun {
    var got := o(n, GetMergeRequest(projectId, mergeId));
    if got.err.Some? then ApiRun(Some(Wrapped("could't get merge request", got.err.value)), [GetMergeRequest(projectId, mergeId)])
    else if name in got.mr.labels then ApiRun(None, [GetMergeRequest(projectId, mergeId)])
    else
      var made := CreateLabelRun(o, n + 1, projectId, name, color);
      var calls := [GetMergeRequest(projectId, mergeId)] + made.calls;
      if made.err.Some? then ApiRun(made.err, calls)
      else
        var add := o(n + |calls|, AddLabel(projectId, mergeId, name));
        ApiRun(if add.err.Some? then Some(Wrapped("could't update mergeRequest", add.err.value)) else None,
               calls + [AddLabel(projectId, mergeId, name)])
  }

  /**
   * Labels are idempotent: CreateLabel makes a create call iff the search
   * succeeded and listed no label of exactly that name; AssignLabel adds
   * the label iff the merge request did not carry it and the label could be
   * made sure of, and never calls anything after a failure.
   */
  lemma LabelsIdempotent(o: ApiOracle, n: nat, projectId: int, mergeId: int, name: string, color: string)
    ensures var list := o(n, ListLabels(projectId, name));
            var r := CreateLabelRun(o, n, projectId, name, color);
            (ApiCall.CreateLabel(projectId, name, color) in r.calls) <==> list.err.None? && name !in list.labels
    ensures var got := o(n, GetMergeRequest(projectId, mergeId));
            var r := AssignLabelRun(o, n, projectId, mergeId, name, color);
            && (got.err.Some? || name in got.mr.labels ==> r.calls == [GetMergeRequest(projectId, mergeId)])
            && ((AddLabel(projectId, mergeId, name) in r.calls) <==>
                  got.err.None? && name !in got.mr.labels && CreateLabelRun(o, n + 1, projectId, name, color).err.None?)
  {
    var got := o(n, GetMergeRequest(projectId, mergeId));
    if got.err.None? && name !in got.mr.labels {
      var made := CreateLabelRun(o, n + 1, projectId, name, color);
      assert AddLabel(projectId, mergeId, name) !in made.calls;
    }
  }

  /** The labelFound loop of CreateLabel. */
  method LabelFound(labels: seq<string>, name: string) returns (found: bool)
    ensures found <==> name in labels
  {
    found := false;
    for i := 0 to |labels|
      invariant found <==> name in labels[..i]
    {
      assert labels[..i + 1] == labels[..i] + [labels[i]];
      if labels[i] == name {
        found := true;
      }
    }
    assert labels[..|labels|] == labels;
  }

  // -------------------------------------------------------- stale branches

  /** What ListBranches keeps of a branch. */
  function AsStale(b: Branch): StaleBranch {
    StaleBranch(b.name, b.committedAt, b.protected)
  }

  /** The listing of every merge request, in any state, whose source is the branch. */
  function FromBranch(branch: string): MrListOptions {
    MrListOptions(None, None, None, Some(branch), 0, 0)
  }

  /**
   * ListBranches' loop state: the branches kept so far and the error that
   * ended the loop, with, for the specification, the trace index at which
   * each merge request lookup was answered.
   */
  datatype BranchScan = BranchScan(kept: seq<StaleBranch>, lookups: seq<nat>, err: Option<Error>)

  /** The lookup of every merge request whose source is the branch. */
  function Lookup(projectId: int, b: Branch): ApiCall {
    ListProjectMergeRequests(projectId, FromBranch(b.name))
  }

  /** The body of ListBranches' range loop, reading each branch's merge request listing from the replies. */
  function BranchConsumer(o: ApiOracle, projectId: int, size: int): Consumer<BranchScan, Branch> {
    (s: BranchScan, b: Branch, k: nat) =>
      if b.isDefault then Consumed(s, None, true)
      else
        var call := Lookup(projectId, b);
        var reply := o(k, call);
        if reply.err.Some? then Consumed(BranchScan(s.kept, s.lookups + [k], reply.err), Some(call), false)
        else if |reply.mrs| > 0 then Consumed(BranchScan(s.kept, s.lookups + [k], s.err), Some(call), true)
        else
          var kept := s.kept + [AsStale(b)];
          Consumed(BranchScan(kept, s.lookups + [k], None), Some(call), |kept| != size)
  }

  function BranchesRun(o: ApiOracle, n: nat, projectId: int, size: int, fuel: nat): Paged<BranchScan, Branch> {
    Follow(o, n, BranchesRequest(projectId, size), BranchItems, BranchConsumer(o, projectId, size), 1, BranchScan([], [], None), fuel)
  }

  /**
   * One branch: a default branch is skipped without a call; any other is
   * looked up by one merge request listing, answered at index k, whose
   * error ends the loop, and it is kept iff no merge request has it as
   * source; keeping the size-th branch ends the loop.
   */
  lemma BranchStep(o: ApiOracle, projectId: int, size: int, s: BranchScan, b: Branch, k: nat)
    ensures var c := BranchConsumer(o, projectId, size)(s, b, k);
            && (b.isDefault ==> c == Consumed(s, None, true))
            && (!b.isDefault ==>
                  var reply := o(k, Lookup(projectId, b));
                  && c.call == Some(Lookup(projectId, b))
                  && c.state.lookups == s.lookups + [k]
                  && (reply.err.Some? ==> !c.more && c.state.err == reply.err)
                  && (reply.err.None? && |reply.mrs| > 0 ==> c.more && c.state.kept == s.kept && c.state.err == s.err)
                  && (reply.err.None? && |reply.mrs| == 0 ==>
                        c.state.kept == s.kept + [AsStale(b)] && (c.more <==> |s.kept| + 1 != size)))
  {
  }

  /** The non-default branches among `ys`, in order: the ones ListBranches looks up. */
  function NonDefault(ys: seq<Branch>): (bs: seq<Branch>)
    ensures |bs| <= |ys|
    ensures forall b :: b in bs <==> b in ys && !b.isDefault
  {
    if ys == [] then []
    else NonDefault(ys[..|ys| - 1]) + (if ys[|ys| - 1].isDefault then [] else [ys[|ys| - 1]])
  }

  /**
   * Reference: the stale records of exactly those branches of `bs` whose
   * lookup, answered at the matching index of `at`, listed no merge
   * request, in order.
   */
  function StaleAmong(o: ApiOracle, projectId: int, bs: seq<Branch>, at: seq<nat>): seq<StaleBranch>
    requires |at| == |bs|
  {
    if bs == [] then []
    else
      var b := bs[|bs| - 1];
      StaleAmong(o, projectId, bs[..|bs| - 1], at[..|at| - 1])
        + (if |o(at[|at| - 1], Lookup(projectId, b)).mrs| == 0 then [AsStale(b)] else [])
  }

  /** Every lookup of `bs`, answered at the matching index of `at`, succeeded. */
  predicate LookupsSucceeded(o: ApiOracle, projectId: int, bs: seq<Branch>, at: seq<nat>)
    requires |at| == |bs|
  {
    forall j :: 0 <= j < |bs| ==> o(at[j], Lookup(projectId, bs[j])).err.None?
  }

  /**
   * `kept` is drawn, in order, from the non-default branches of `ys`: a
   * subsequence of their stale records.
   */
  predicate Picked(kept: seq<StaleBranch>, ys: seq<Branch>)
    decreases |ys|
  {
    if ys == [] then kept == []
    else
      var last := ys[|ys| - 1];
      || Picked(kept, ys[..|ys| - 1])
      || (&& kept != [] && !last.isDefault && kept[|kept| - 1] == AsStale(last)
          && Picked(kept[..|kept| - 1], ys[..|ys| - 1]))
  }

  lemma PickedSnoc(kept: seq<StaleBranch>, ys: seq<Branch>, b: Branch)
    requires Picked(kept, ys)
    ensures Picked(kept, ys + [b])
    ensures !b.isDefault ==> Picked(kept + [AsStale(b)], ys + [b])
  {
    assert (ys + [b])[..|ys|] == ys;
    assert (kept + [AsStale(b)])[..|kept|] == kept;
  }

  /** The record is the stale record of a non-default branch among `ys`. */
  predicate DrawnFrom(st: StaleBranch, ys: seq<Branch>) {
    exists j :: 0 <= j < |ys| && !ys[j].isDefault && st == AsStale(ys[j])
  }

  /** Every picked record is the stale record of a non-default branch handed over, and there are no more of them than branches. */
  lemma {:induction false} PickedMeans(kept: seq<StaleBranch>, ys: seq<Branch>)
    requires Picked(kept, ys)
    ensures |kept| <= |ys|
    ensures forall i :: 0 <= i < |kept| ==> DrawnFrom(kept[i], ys)
    decreases |ys|
  {
    if ys != [] {
      var init := ys[..|ys| - 1];
      if Picked(kept, init) {
        PickedMeans(kept, init);
        forall i | 0 <= i < |kept| ensures DrawnFrom(kept[i], ys) {
          assert DrawnFrom(kept[i], init);
          var j :| 0 <= j < |init| && !init[j].isDefault && kept[i] == AsStale(init[j]);
          assert ys[j] == init[j];
        }
      } else {
        var front := kept[..|kept| - 1];
        PickedMeans(front, init);
        forall i | 0 <= i < |kept| ensures DrawnFrom(kept[i], ys) {
          if i == |kept| - 1 {
            assert !ys[|ys| - 1].isDefault && kept[i] == AsStale(ys[|ys| - 1]);
          } else {
            assert kept[i] == front[i];
            assert DrawnFrom(front[i], init);
            var j :| 0 <= j < |init| && !init[j].isDefault && front[i] == AsStale(init[j]);
            assert ys[j] == init[j];
          }
        }
      }
    }
  }

  lemma NonDefaultSnoc(ys: seq<Branch>, b: Branch)
    ensures NonDefault(ys + [b]) == NonDefault(ys) + (if b.isDefault then [] else [b])
  {
    assert (ys + [b])[..|ys|] == ys;
  }

  lemma StaleAmongSnoc(o: ApiOracle, projectId: int, bs: seq<Branch>, at: seq<nat>, b: Branch, k: nat)
    requires |at| == |bs|
    ensures StaleAmong(o, projectId, bs + [b], at + [k])
            == StaleAmong(o, projectId, bs, at) + (if |o(k, Lookup(projectId, b)).mrs| == 0 then [AsStale(b)] else [])
  {
    assert (bs + [b])[..|bs|] == bs;
    assert (at + [k])[..|at|] == at;
  }

  /**
   * The loop state accounts for the branches handed over: one lookup per
   * non-default branch, each successful, and the kept records are exactly
   * the reference's.
   */
  predicate Accounted(o: ApiOracle, projectId: int, s: BranchScan, ys: seq<Branch>) {
    var bs := NonDefault(ys);
    && Picked(s.kept, ys)
    && |s.lookups| == |bs|
    && LookupsSucceeded(o, projectId, bs, s.lookups)
    && s.kept == StaleAmong(o, projectId, bs, s.lookups)
  }

  /** While the loop runs: no error, the account kept, and fewer than `size` kept. */
  predicate ScanSoFar(o: ApiOracle, projectId: int, size: int, s: BranchScan, ys: seq<Branch>) {
    s.err.None? && Accounted(o, projectId, s, ys) && (size >= 1 ==> |s.kept| < size)
  }

  /** Once it ended: without an error, the account kept and at most `size` kept. */
  predicate ScanFinal(o: ApiOracle, projectId: int, size: int, s: BranchScan, ys: seq<Branch>) {
    s.err.None? ==> Accounted(o, projectId, s, ys) && (size >= 1 ==> |s.kept| <= size)
  }

  function BranchesSoFar(o: ApiOracle, projectId: int, size: int): (BranchScan, seq<Branch>) -> bool {
    (s: BranchScan, ys: seq<Branch>) => ScanSoFar(o, projectId, size, s, ys)
  }

  function BranchesFinal(o: ApiOracle, projectId: int, size: int): (BranchScan, seq<Branch>) -> bool {
    (s: BranchScan, ys: seq<Branch>) => ScanFinal(o, projectId, size, s, ys)
  }

  lemma LookupsSucceededSnoc(o: ApiOracle, projectId: int, bs: seq<Branch>, at: seq<nat>, b: Branch, k: nat)
    requires |at| == |bs| && LookupsSucceeded(o, projectId, bs, at)
    requires o(k, Lookup(projectId, b)).err.None?
    ensures LookupsSucceeded(o, projectId, bs + [b], at + [k])
  {
    forall j | 0 <= j < |bs| + 1
      ensures o((at + [k])[j], Lookup(projectId, (bs + [b])[j])).err.None?
    {
      if j < |bs| {
        assert (at + [k])[j] == at[j] && (bs + [b])[j] == bs[j];
      }
    }
  }

  /** One branch keeps the account when its lookup succeeds. */
  lemma AccountedStep(o: ApiOracle, projectId: int, size: int, s: BranchScan, ys: seq<Branch>, b: Branch, k: nat)
    requires s.err.None? && Accounted(o, projectId, s, ys)
    ensures var c := BranchConsumer(o, projectId, size)(s, b, k);
            c.state.err.None? ==> Accounted(o, projectId, c.state, ys + [b])
  {
    var c := BranchConsumer(o, projectId, size)(s, b, k);
    var bs := NonDefault(ys);
    BranchStep(o, projectId, size, s, b, k);
    NonDefaultSnoc(ys, b);
    PickedSnoc(s.kept, ys, b);
    if b.isDefault {
      assert c.state == s;
      assert NonDefault(ys + [b]) == bs;
    } else {
      var reply := o(k, Lookup(projectId, b));
      if reply.err.None? {
        assert NonDefault(ys + [b]) == bs + [b];
        assert c.state.lookups == s.lookups + [k];
        StaleAmongSnoc(o, projectId, bs, s.lookups, b, k);
        LookupsSucceededSnoc(o, projectId, bs, s.lookups, b, k);
        if |reply.mrs| > 0 {
          assert c.state.kept == s.kept;
          assert StaleAmong(o, projectId, bs + [b], s.lookups + [k]) == s.kept + [];
        } else {
          assert c.state.kept == s.kept + [AsStale(b)];
        }
      }
    }
  }

  lemma BranchConsumerKeeps(o: ApiOracle, projectId: int, size: int)
    ensures Keeps(BranchConsumer(o, projectId, size), BranchesSoFar(o, projectId, size), BranchesFinal(o, projectId, size))
  {
    var consume := BranchConsumer(o, projectId, size);
    var P := BranchesSoFar(o, projectId, size);
    var Q := BranchesFinal(o, projectId, size);
    forall s, ys, b, k | P(s, ys)
      ensures var c := consume(s, b, k);
              (c.more ==> P(c.state, ys + [b])) && (!c.more ==> Q(c.state, ys + [b]))
    {
      BranchKeepStep(o, projectId, size, s, ys, b, k);
    }
  }

  lemma BranchKeepStep(o: ApiOracle, projectId: int, size: int, s: BranchScan, ys: seq<Branch>, b: Branch, k: nat)
    requires ScanSoFar(o, projectId, size, s, ys)
    ensures var c := BranchConsumer(o, projectId, size)(s, b, k);
            && (c.more ==> ScanSoFar(o, projectId, size, c.state, ys + [b]))
            && (!c.more ==> ScanFinal(o, projectId, size, c.state, ys + [b]))
  {
    var c := BranchConsumer(o, projectId, size)(s, b, k);
    BranchStep(o, projectId, size, s, b, k);
    AccountedStep(o, projectId, size, s, ys, b, k);
    if !b.isDefault {
      var reply := o(k, Lookup(projectId, b));
      if reply.err.None? && |reply.mrs| == 0 {
        assert c.state.kept == s.kept + [AsStale(b)] && (c.more <==> |s.kept| + 1 != size);
      }
    }
  }

  /**
   * ListBranches, when no lookup failed, made one successful lookup for
   * each non-default branch handed over, and keeps the records of exactly
   * those whose lookup listed no merge request, in order: as many as there
   * are, up to `size` when `size` is positive, for the loop ends at the
   * size-th. Its first request asks for page 1 with twice `size` per page.
   */
  lemma ListBranchesRule(o: ApiOracle, n: nat, projectId: int, size: int, fuel: nat)
    ensures var r := BranchesRun(o, n, projectId, size, fuel);
            var bs := NonDefault(r.yielded);
            r.state.err.None? ==>
              && |r.state.lookups| == |bs|
              && LookupsSucceeded(o, projectId, bs, r.state.lookups)
              && r.state.kept == StaleAmong(o, projectId, bs, r.state.lookups)
              && (size >= 1 ==> |r.state.kept| <= size)
              && forall i :: 0 <= i < |r.state.kept| ==> DrawnFrom(r.state.kept[i], r.yielded)
    ensures var r := BranchesRun(o, n, projectId, size, fuel);
            fuel >= 1 ==> |r.calls| >= 1 && r.calls[0] == ApiCall.ListBranches(projectId, 1, size * 2)
  {
    var r := BranchesRun(o, n, projectId, size, fuel);
    BranchConsumerKeeps(o, projectId, size);
    FollowKeeps(o, n, BranchesRequest(projectId, size), BranchItems, BranchConsumer(o, projectId, size),
                1, BranchScan([], [], None), fuel, [], BranchesSoFar(o, projectId, size), BranchesFinal(o, projectId, size));
    assert [] + r.yielded == r.yielded;
    if r.state.err.None? {
      PickedMeans(r.state.kept, r.yielded);
    }
    if fuel >= 1 {
      FollowRules(o, n, BranchesRequest(projectId, size), BranchItems, BranchConsumer(o, projectId, size),
                  1, BranchScan([], [], None), fuel);
    }
  }

  // -------------------------------------------------- merge request listings

  /** What the listings keep of a merge request. */
  function AsMR(m: BasicMR): MR {
    MR(m.iid, m.sourceBranch, m.labels, m.updatedAt)
  }

  function AsMRs(ms: seq<BasicMR>): (r: seq<MR>)
    ensures |r| == |ms| && forall i :: 0 <= i < |ms| ==> r[i] == AsMR(ms[i])
  {
    seq(|ms|, i requires 0 <= i < |ms| => AsMR(ms[i]))
  }

  /** ListMergeRequests' filter: open merge requests. */
  function OpenedOptions(): MrListOptions {
    MrListOptions(Some(OpenedState), None, None, None, 0, 0)
  }

  /** FindMergeRequests' filter: open merge requests with the label, into the target branch. */
  function FindOptions(targetBranch: string, labelName: string): MrListOptions {
    MrListOptions(Some(OpenedState), Some([labelName]), Some(targetBranch), None, 0, 0)
  }

  /** ListMergeRequests' loop body: collect, and stop once `size` are collected. */
  function CappedConsumer(size: int): Consumer<seq<MR>, BasicMR> {
    (s: seq<MR>, m: BasicMR, k: nat) => Consumed(s + [AsMR(m)], None, |s| + 1 != size)
  }

  /** FindMergeRequests' loop body: collect everything. */
  function CollectConsumer(): Consumer<seq<MR>, BasicMR> {
    (s: seq<MR>, m: BasicMR, k: nat) => Consumed(s + [AsMR(m)], None, true)
  }

  function ListMergeRequestsRun(o: ApiOracle, n: nat, projectId: int, size: int, fuel: nat): Paged<seq<MR>, BasicMR> {
    Follow(o, n, MergeRequestsRequest(projectId, size, OpenedOptions()), MrItems, CappedConsumer(size), 1, [], fuel)
  }

  function FindMergeRequestsRun(o: ApiOracle, n: nat, projectId: int, targetBranch: string, labelName: string, fuel: nat)
    : Paged<seq<MR>, BasicMR>
  {
    Follow(o, n, MergeRequestsRequest(projectId, FindMRSize, FindOptions(targetBranch, labelName)), MrItems, CollectConsumer(), 1, [], fuel)
  }

  function MrsSoFar(size: int): (seq<MR>, seq<BasicMR>) -> bool {
    (s: seq<MR>, ys: seq<BasicMR>) => s == AsMRs(ys) && (size >= 1 ==> |s| < size)
  }

  function MrsFinal(size: int): (seq<MR>, seq<BasicMR>) -> bool {
    (s: seq<MR>, ys: seq<BasicMR>) => s == AsMRs(ys) && (size >= 1 ==> |s| <= size)
  }

  lemma AsMRsSnoc(ys: seq<BasicMR>, m: BasicMR)
    ensures AsMRs(ys + [m]) == AsMRs(ys) + [AsMR(m)]
  {
    assert forall i :: 0 <= i < |ys| ==> (ys + [m])[i] == ys[i];
  }

  /**
   * ListMergeRequests returns the open merge requests handed over, in
   * listing order, and at most `size` of them when `size` is positive;
   * FindMergeRequests returns every one handed over.
   */
  lemma ListMergeRequestsRule(o: ApiOracle, n: nat, projectId: int, size: int, targetBranch: string, labelName: string, fuel: nat)
    ensures var r := ListMergeRequestsRun(o, n, projectId, size, fuel);
            r.state == AsMRs(r.yielded) && (size >= 1 ==> |r.state| <= size)
    ensures var r := FindMergeRequestsRun(o, n, projectId, targetBranch, labelName, fuel);
            r.state == AsMRs(r.yielded)
  {
    forall s, ys, m, k | MrsSoFar(size)(s, ys)
      ensures var c := CappedConsumer(size)(s, m, k);
              (c.more ==> MrsSoFar(size)(c.state, ys + [m])) && (!c.more ==> MrsFinal(size)(c.state, ys + [m]))
    {
      AsMRsSnoc(ys, m);
    }
    FollowKeeps(o, n, MergeRequestsRequest(projectId, size, OpenedOptions()), MrItems, CappedConsumer(size),
                1, [], fuel, [], MrsSoFar(size), MrsFinal(size));
    var r := ListMergeRequestsRun(o, n, projectId, size, fuel);
    assert [] + r.yielded == r.yielded;
    forall s, ys, m, k | MrsFinal(0)(s, ys)
      ensures var c := CollectConsumer()(s, m, k);
              (c.more ==> MrsFinal(0)(c.state, ys + [m])) && (!c.more ==> MrsFinal(0)(c.state, ys + [m]))
    {
      AsMRsSnoc(ys, m);
    }
    FollowKeeps(o, n, MergeRequestsRequest(projectId, FindMRSize, FindOptions(targetBranch, labelName)), MrItems, CollectConsumer(),
                1, [], fuel, [], MrsFinal(0), MrsFinal(0));
    var f := FindMergeRequestsRun(o, n, projectId, targetBranch, labelName, fuel);
    assert [] + f.yielded == f.yielded;
  }

  // ------------------------------------------------------ approval resets

  /** A note ResetApprovals looks at: a system note not newer than the push. */
  predicate Eligible(updatedAt: int, n: Note) {
    n.system && n.updatedAt <= updatedAt
  }

  /** The first eligible note. */
  function FirstEligible(updatedAt: int, notes: seq<Note>): (r: Option<Note>)
    ensures r.Some? ==> exists i :: 0 <= i < |notes| && notes[i] == r.value && Eligible(updatedAt, notes[i]) &&
                                    forall j :: 0 <= j < i ==> !Eligible(updatedAt, notes[j])
    ensures r.None? ==> forall j :: 0 <= j < |notes| ==> !Eligible(updatedAt, notes[j])
    decreases |notes|
  {
    if notes == [] then None
    else if Eligible(updatedAt, notes[0]) then
      assert notes[0] == notes[0];
      Some(notes[0])
    else
      var r := FirstEligible(updatedAt, notes[1..]);
      assert forall j :: 1 <= j < |notes| ==> notes[j] == notes[1..][j - 1];
      if r.Some? then
        var i :| 0 <= i < |notes[1..]| && notes[1..][i] == r.value && Eligible(updatedAt, notes[1..][i]) &&
                 forall j :: 0 <= j < i ==> !Eligible(updatedAt, notes[1..][j]);
        assert notes[i + 1] == r.value;
        r
      else r
  }

  lemma {:induction false} FirstEligibleSnoc(updatedAt: int, notes: seq<Note>, n: Note)
    requires FirstEligible(updatedAt, notes).None?
    ensures FirstEligible(updatedAt, notes + [n]) == if Eligible(updatedAt, n) then Some(n) else None
    decreases |notes|
  {
    if notes == [] {
      assert [] + [n] == [n];
    } else {
      assert (notes + [n])[0] == notes[0];
      assert (notes + [n])[1..] == notes[1..] + [n];
      FirstEligibleSnoc(updatedAt, notes[1..], n);
    }
  }

  /** ResetApprovals' loop body: skip until the first eligible note, take it and stop. */
  function SelectConsumer(updatedAt: int): Consumer<Option<Note>, Note> {
    (s: Option<Note>, n: Note, k: nat) =>
      if Eligible(updatedAt, n) then Consumed(Some(n), None, false) else Consumed(s, None, true)
  }

  function SelectSoFar(updatedAt: int): (Option<Note>, seq<Note>) -> bool {
    (s: Option<Note>, ys: seq<Note>) => s.None? && FirstEligible(updatedAt, ys).None?
  }

  function SelectFinal(updatedAt: int): (Option<Note>, seq<Note>) -> bool {
    (s: Option<Note>, ys: seq<Note>) => s == FirstEligible(updatedAt, ys)
  }

  function SelectRun(o: ApiOracle, n: nat, projectId: int, mergeId: int, updatedAt: int, fuel: nat): Paged<Option<Note>, Note> {
    Follow(o, n, NotesRequest(projectId, mergeId, GetApprovalsSize), NoteItems, SelectConsumer(updatedAt), 1, None, fuel)
  }

  /** The note ResetApprovals decides by is the first eligible note handed over. */
  lemma SelectRunIsFirstEligible(o: ApiOracle, n: nat, projectId: int, mergeId: int, updatedAt: int, fuel: nat)
    ensures var r := SelectRun(o, n, projectId, mergeId, updatedAt, fuel);
            r.state == FirstEligible(updatedAt, r.yielded)
  {
    forall s, ys, x, k | SelectSoFar(updatedAt)(s, ys)
      ensures var c := SelectConsumer(updatedAt)(s, x, k);
              (c.more ==> SelectSoFar(updatedAt)(c.state, ys + [x])) && (!c.more ==> SelectFinal(updatedAt)(c.state, ys + [x]))
    {
      FirstEligibleSnoc(updatedAt, ys, x);
    }
    FollowKeeps(o, n, NotesRequest(projectId, mergeId, GetApprovalsSize), NoteItems, SelectConsumer(updatedAt),
                1, None, fuel, [], SelectSoFar(updatedAt), SelectFinal(updatedAt));
    var r := SelectRun(o, n, projectId, mergeId, updatedAt, fuel);
    assert [] + r.yielded == r.yielded;
  }

  /** What follows the choice of note: reset and comment iff the note mentions "commit". */
  function CommitReset(o: ApiOracle, n: nat, projectId: int, mergeId: int, chosen: Option<Note>): ApiRun {
    if chosen.None? || !Contains(chosen.value.body, "commit") then ApiRun(None, [])
    else
      var reset := o(n, ResetApprovalsOfMergeRequest(projectId, mergeId));
      if reset.err.Some? then ApiRun(reset.err, [ResetApprovalsOfMergeRequest(projectId, mergeId)])
      else
        var note := o(n + 1, CreateNote(projectId, mergeId, ApprovalsResetMessage));
        ApiRun(note.err, [ResetApprovalsOfMergeRequest(projectId, mergeId), CreateNote(projectId, mergeId, ApprovalsResetMessage)])
  }

  /** ResetApprovals after the optional token issuance. */
  function ResetAfterToken(o: ApiOracle, n: nat, projectId: int, mergeId: int, updatedAt: int, fuel: nat): ApiRun {
    var r := SelectRun(o, n, projectId, mergeId, updatedAt, fuel);
    var d := CommitReset(o, n + |r.calls|, projectId, mergeId, r.state);
    ApiRun(d.err, r.calls + d.calls)
  }

  function ResetApprovalsRun(o: ApiOracle, n: nat, projectId: int, mergeId: int, updatedAt: int,
                             config: ResetApprovalsOnPush, fuel: nat): ApiRun {
    var token := IssueToken(projectId, config.projectVarName);
    if config.issueToken && o(n, token).err.Some? then ApiRun(o(n, token).err, [token])
    else
      var head := if config.issueToken then [token] else [];
      var rest := ResetAfterToken(o, n + |head|, projectId, mergeId, updatedAt, fuel);
      ApiRun(rest.err, head + rest.calls)
  }

  /**
   * Only the first system note not newer than the push decides: the
   * approvals are reset, and then the reset comment left, iff that note
   * mentions "commit"; without such a note nothing is reset.
   */
  lemma ResetApprovalsRule(o: ApiOracle, n: nat, projectId: int, mergeId: int, updatedAt: int, fuel: nat)
    ensures var r := SelectRun(o, n, projectId, mergeId, updatedAt, fuel);
            var chosen := FirstEligible(updatedAt, r.yielded);
            var run := ResetAfterToken(o, n, projectId, mergeId, updatedAt, fuel);
            && run.calls[..|r.calls|] == r.calls
            && (chosen.Some? && Contains(chosen.value.body, "commit") <==> |run.calls| > |r.calls|)
            && (|run.calls| > |r.calls| ==> run.calls[|r.calls|] == ResetApprovalsOfMergeRequest(projectId, mergeId))
            && (|run.calls| > |r.calls| + 1 ==>
                  && o(n + |r.calls|, ResetApprovalsOfMergeRequest(projectId, mergeId)).err.None?
                  && run.calls[|r.calls| + 1] == CreateNote(projectId, mergeId, ApprovalsResetMessage))
  {
    SelectRunIsFirstEligible(o, n, projectId, mergeId, updatedAt, fuel);
  }

  // ------------------------------------------------------------ the provider

  /** GitlabProvider: its client, and the merge request IsValid loaded last. */
  class GitlabProvider {
    const client: Client
    var mr: Option<MergeRequest>

    constructor(client: Client)
      ensures this.client == client && mr.None?
    {
      this.client := client;
      mr := None;
    }

    /** IsValid: load the merge request and remember it; valid iff opened without conflicts. */
    method IsValid(projectId: int, mergeId: int) returns (valid: bool, err: Option<Error>)
      modifies this, client
      ensures client.calls == old(client.calls) + [GetMergeRequest(projectId, mergeId)]
      ensures var reply := client.replies(|old(client.calls)|, GetMergeRequest(projectId, mergeId));
              if reply.err.Some? then !valid && err == reply.err && mr == old(mr)
              else err.None? && mr == Some(reply.mr) && (valid <==> reply.mr.state == OpenedState && !reply.mr.hasConflicts)
    {
      var reply := client.Invoke(GetMergeRequest(projectId, mergeId));
      if reply.err.Some? {
        return false, reply.err;
      }
      mr := Some(reply.mr);
      if reply.mr.state != OpenedState {
        return false, None;
      }
      return !reply.mr.hasConflicts, None;
    }

    /** GetFailedPipelines, on the loaded merge request. */
    function GetFailedPipelines(): (n: int)
      reads this
      requires mr.Some?
      ensures n == FailedPipelines(mr.value)
    {
      FailedPipelines(mr.value)
    }

    method GetFile(projectId: int, path: string) returns (content: string, err: Option<Error>)
      modifies client
      ensures var (c, r) := FileRun(client.replies, |old(client.calls)|, projectId, path);
              client.calls == old(client.calls) + r.calls && content == c && err == r.err
    {
      var project := client.Invoke(GetProject(projectId));
      if project.err.Some? {
        return "", project.err;
      }
      var file := client.Invoke(ApiCall.GetFile(projectId, path, project.text));
      if file.err.Some? {
        return "", file.err;
      }
      return file.text, None;
    }

    /** GetApprovals: fold the notes in listing order (its error result is always nil). */
    method GetApprovals(projectId: int, mergeId: int, fuel: nat) returns (approvals: set<string>)
      requires mr.Some?
      modifies client
      ensures var r := ApprovalsRun(client.replies, |old(client.calls)|, projectId, mergeId, mr.value.author.id, fuel);
              client.calls == old(client.calls) + r.calls && approvals == r.state
    {
      var pager := new Pager(client, NotesRequest(projectId, mergeId, GetApprovalsSize), NoteItems);
      approvals := pager.Run(ApprovalsConsumer(mr.value.author.id), {}, fuel);
    }

    /** GetMRInfo: the merge request, the configuration file, the approvals and the pipeline results. */
    method GetMRInfo(projectId: int, mergeId: int, configPath: string, fuel: nat) returns (info: Option<MrInfo>, err: Option<Error>)
      modifies this, client
      ensures var r := MrInfoRun(client.replies, old(|client.calls|), projectId, mergeId, configPath, fuel);
              client.calls == old(client.calls) + r.calls && info == r.info && err == r.err
    {
      ghost var start := client.calls;
      var valid;
      valid, err := IsValid(projectId, mergeId);
      if err.Some? {
        return None, err;
      }
      ghost var loaded := client.calls;
      info := Gather(projectId, mergeId, configPath, mr.value, valid, fuel);
      Concat3(start, [GetMergeRequest(projectId, mergeId)],
                 GatherRun(client.replies, |loaded|, projectId, mergeId, configPath, mr.value, fuel).calls);
    }

    /** The configuration file, the approvals and the pipeline results of the loaded merge request m. */
    method Gather(projectId: int, mergeId: int, configPath: string, m: MergeRequest, valid: bool, fuel: nat)
      returns (info: Option<MrInfo>)
      requires mr == Some(m) && valid == (m.state == OpenedState && !m.hasConflicts)
      modifies client
      ensures var r := GatherRun(client.replies, old(|client.calls|), projectId, mergeId, configPath, m, fuel);
              client.calls == old(client.calls) + r.calls && info == r.info
    {
      ghost var o := client.replies;
      ghost var start := client.calls;
      var content, _ := GetFile(projectId, configPath);
      ghost var file := FileRun(o, |start|, projectId, configPath);
      ghost var calls1 := client.calls;
      var approvals := GetApprovals(projectId, mergeId, fuel);
      ghost var a := ApprovalsRun(o, |calls1|, projectId, mergeId, m.author.id, fuel);
      ghost var calls2 := client.calls;
      var failedPipelines := GetFailedPipelines();
      var failedTests := FailedTests(projectId, m);
      ghost var tests := TestsRun(o, |calls2|, projectId, m);
      info := Some(MrInfo(projectId, mergeId, m.labels, m.targetBranch, m.sourceBranch, approvals, m.author.username,
                          failedPipelines, failedTests, m.title, m.description, content, valid));
      Concat3(start, file.1.calls, a.calls);
      Concat3(start, file.1.calls + a.calls, tests.1);
    }

    /** The head pipeline's failed tests, a report that cannot be fetched counting as one failure. */
    method FailedTests(projectId: int, m: MergeRequest) returns (failed: int)
      modifies client
      ensures var (n, calls) := TestsRun(client.replies, |old(client.calls)|, projectId, m);
              client.calls == old(client.calls) + calls && failed == n
    {
      failed := 0;
      if m.headPipeline.Some? {
        var report := client.Invoke(GetPipelineTestReport(projectId, m.headPipeline.value.iid));
        failed := if report.err.Some? then 1 else report.failedCount;
      }
    }

    /** findDiscussion: list the discussions and the current user, then search. */
    method FindDiscussion(projectId: int, mergeId: int) returns (found: Result<Found, Error>)
      modifies client
      ensures var (f, calls) := FindRun(client.replies, |old(client.calls)|, projectId, mergeId);
              client.calls == old(client.calls) + calls && found == f
    {
      var list := client.Invoke(ListDiscussions(projectId, mergeId));
      if list.err.Some? {
        return Failure(list.err.value);
      }
      var me := client.Invoke(CurrentUser);
      if me.err.Some? {
        return Failure(me.err.value);
      }
      var ds := list.discussions;
      var i := 0;
      while i < |ds|
        invariant 0 <= i <= |ds|
        invariant forall j :: 0 <= j < i ==> !OwnResolvable(ds[j], me.user.id)
      {
        if |ds[i].notes| > 0 && ds[i].notes[0].resolvable && ds[i].notes[0].author.id == me.user.id {
          var first := FirstOwn(ds, me.user.id);
          assert first == Some(i);
          return Success(Found(ds[i].id, ds[i].notes[0].body, ds[i].notes[0].id));
        }
        i := i + 1;
      }
      assert FirstOwn(ds, me.user.id).None?;
      return Failure(NoDiscussion(projectId, mergeId));
    }

    method UpdateDiscussion(projectId: int, mergeId: int, message: string) returns (err: Option<Error>)
      modifies client
      ensures var r := UpdateDiscussionRun(client.replies, |old(client.calls)|, projectId, mergeId, message);
              client.calls == old(client.calls) + r.calls && err == r.err
    {
      ghost var n := |client.calls|;
      var found := FindDiscussion(projectId, mergeId);
      if found.Failure? {
        return Some(found.error);
      }
      var f := found.value;
      if f.body == message {
        return None;
      }
      var reply := client.Invoke(UpdateDiscussionNote(projectId, mergeId, f.discussionId, f.noteId, Some(message), None));
      err := reply.err;
    }

    method UnresolveDiscussion(projectId: int, mergeId: int) returns (err: Option<Error>)
      modifies client
      ensures var r := UnresolveDiscussionRun(client.replies, |old(client.calls)|, projectId, mergeId);
              client.calls == old(client.calls) + r.calls && err == r.err
    {
      var found := FindDiscussion(projectId, mergeId);
      if found.Failure? {
        return Some(found.error);
      }
      var f := found.value;
      var reply := client.Invoke(UpdateDiscussionNote(projectId, mergeId, f.discussionId, f.noteId, None, Some(false)));
      err := reply.err;
    }

    /** ListBranches: candidates for deletion, at most `size` of them; nil and the error if a lookup fails. */
    method ListBranches(projectId: int, size: int, fuel: nat) returns (branches: seq<StaleBranch>, err: Option<Error>)
      modifies client
      ensures var r := BranchesRun(client.replies, |old(client.calls)|, projectId, size, fuel);
              && client.calls == old(client.calls) + r.calls
              && (r.state.err.Some? ==> branches == [] && err == r.state.err)
              && (r.state.err.None? ==> branches == r.state.kept && err.None?)
    {
      var pager := new Pager(client, BranchesRequest(projectId, size), BranchItems);
      var s := pager.Run(BranchConsumer(client.replies, projectId, size), BranchScan([], [], None), fuel);
      if s.err.Some? {
        return [], s.err;
      }
      return s.kept, None;
    }

    /** ListMergeRequests: open merge requests, at most `size` of them (its error result is always nil). */
    method ListMergeRequests(projectId: int, size: int, fuel: nat) returns (mrs: seq<MR>)
      modifies client
      ensures var r := ListMergeRequestsRun(client.replies, |old(client.calls)|, projectId, size, fuel);
              client.calls == old(client.calls) + r.calls && mrs == r.state
    {
      var pager := new Pager(client, MergeRequestsRequest(projectId, size, OpenedOptions()), MrItems);
      mrs := pager.Run(CappedConsumer(size), [], fuel);
    }

    /** FindMergeRequests: every open merge request with the label into the target branch. */
    method FindMergeRequests(projectId: int, targetBranch: string, labelName: string, fuel: nat) returns (mrs: seq<MR>)
      modifies client
      ensures var r := FindMergeRequestsRun(client.replies, |old(client.calls)|, projectId, targetBranch, labelName, fuel);
              client.calls == old(client.calls) + r.calls && mrs == r.state
    {
      var pager := new Pager(client, MergeRequestsRequest(projectId, FindMRSize, FindOptions(targetBranch, labelName)), MrItems);
      mrs := pager.Run(CollectConsumer(), [], fuel);
    }

    method CreateLabel(projectId: int, name: string, color: string) returns (err: Option<Error>)
      modifies client
      ensures var r := CreateLabelRun(client.replies, |old(client.calls)|, projectId, name, color);
              client.calls == old(client.calls) + r.calls && err == r.err
    {
      var list := client.Invoke(ListLabels(projectId, name));
      if list.err.Some? {
        return Some(Wrapped("listLabels failed to search", list.err.value));
      }
      var labelFound := LabelFound(list.labels, name);
      if !labelFound {
        var made := client.Invoke(ApiCall.CreateLabel(projectId, name, color));
        if made.err.Some? {
          return Some(Wrapped("could't create label", made.err.value));
        }
      }
      return None;
    }

    method AssignLabel(projectId: int, mergeId: int, name: string, color: string) returns (err: Option<Error>)
      modifies client
      ensures var r := AssignLabelRun(client.replies, |old(client.calls)|, projectId, mergeId, name, color);
              client.calls == old(client.calls) + r.calls && err == r.err
    {
      var got := client.Invoke(GetMergeRequest(projectId, mergeId));
      if got.err.Some? {
        return Some(Wrapped("could't get merge request", got.err.value));
      }
      if name in got.mr.labels {
        return None;
      }
      err := this.CreateLabel(projectId, name, color);
      if err.Some? {
        return;
      }
      var add := client.Invoke(AddLabel(projectId, mergeId, name));
      if add.err.Some? {
        return Some(Wrapped("could't update mergeRequest", add.err.value));
      }
      return None;
    }

    /** ResetApprovals: optionally issue a token, then act on the first eligible note. */
    method ResetApprovals(projectId: int, mergeId: int, updatedAt: int, config: ResetApprovalsOnPush, fuel: nat)
      returns (err: Option<Error>)
      modifies client
      ensures var r := ResetApprovalsRun(client.replies, |old(client.calls)|, projectId, mergeId, updatedAt, config, fuel);
              client.calls == old(client.calls) + r.calls && err == r.err
    {
      ghost var o := client.replies;
      ghost var start := client.calls;
      if config.issueToken {
        var token := client.Invoke(IssueToken(projectId, config.projectVarName));
        if token.err.Some? {
          return token.err;
        }
      }
      ghost var head := if config.issueToken then [IssueToken(projectId, config.projectVarName)] else [];
      assert client.calls == start + head;
      ghost var rest := ResetAfterToken(o, |start| + |head|, projectId, mergeId, updatedAt, fuel);
      assert ResetApprovalsRun(o, |start|, projectId, mergeId, updatedAt, config, fuel) == ApiRun(rest.err, head + rest.calls);
      err := ResetFromNotes(projectId, mergeId, updatedAt, fuel);
      Concat3(start, head, rest.calls);
    }

    /** The notes run choosing the deciding note, then the reset it calls for. */
    method ResetFromNotes(projectId: int, mergeId: int, updatedAt: int, fuel: nat) returns (err: Option<Error>)
      modifies client
      ensures var r := ResetAfterToken(client.replies, |old(client.calls)|, projectId, mergeId, updatedAt, fuel);
              client.calls == old(client.calls) + r.calls && err == r.err
    {
      ghost var start := client.calls;
      ghost var r := SelectRun(client.replies, |start|, projectId, mergeId, updatedAt, fuel);
      var pager := new Pager(client, NotesRequest(projectId, mergeId, GetApprovalsSize), NoteItems);
      var chosen := pager.Run(SelectConsumer(updatedAt), None, fuel);
      ghost var mid := client.calls;
      assert chosen == r.state && mid == start + r.calls;
      err := ResetOnCommit(projectId, mergeId, chosen);
      Concat3(start, r.calls, CommitReset(client.replies, |mid|, projectId, mergeId, chosen).calls);
    }

    /** The reset, and the comment announcing it, when the chosen note mentions "commit". */
    method ResetOnCommit(projectId: int, mergeId: int, chosen: Option<Note>) returns (err: Option<Error>)
      modifies client
      ensures var d := CommitReset(client.replies, |old(client.calls)|, projectId, mergeId, chosen);
              client.calls == old(client.calls) + d.calls && err == d.err
    {
      if chosen.Some? && Contains(chosen.value.body, "commit") {
        var reset := client.Invoke(ResetApprovalsOfMergeRequest(projectId, mergeId));
        if reset.err.Some? {
          return reset.err;
        }
        var note := client.Invoke(CreateNote(projectId, mergeId, ApprovalsResetMessage));
        return note.err;
      }
      return None;
    }
  }
}

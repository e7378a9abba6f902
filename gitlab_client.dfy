/**
 * The GitLab API as the GitLab provider uses it, kept abstract like the
 * handlers-level provider: the reply to the k-th client call is
 * `replies(k, call)`, and every call is appended to the client's trace.
 * Only the fields the provider reads are kept in the records.
 */
module GitlabApi {
  import opened Wrappers
  import opened Provider

  datatype User = User(id: int, username: string)

  /** A merge request note; `updatedAt` is an instant as an integer. */
  datatype Note = Note(id: int, author: User, body: string, system: bool, resolvable: bool, updatedAt: int)

  datatype Discussion = Discussion(id: string, notes: seq<Note>)

  /** A repository branch; `committedAt` is the creation time of its head commit. */
  datatype Branch = Branch(name: string, isDefault: bool, protected: bool, committedAt: int)

  /** An entry of a merge request listing. */
  datatype BasicMR = BasicMR(iid: int, labels: seq<string>, sourceBranch: string, updatedAt: int)

  datatype Pipeline = Pipeline(iid: int, status: string)

  /** A merge request as GetMergeRequest returns it. */
  datatype MergeRequest = MergeRequest(
    author: User,
    state: string,
    hasConflicts: bool,
    labels: seq<string>,
    targetBranch: string,
    sourceBranch: string,
    title: string,
    description: string,
    headPipeline: Option<Pipeline>)

  /** ListProjectMergeRequestsOptions: the filters, and the page the listing asks for. */
  datatype MrListOptions = MrListOptions(
    state: Option<string>,
    labels: Option<seq<string>>,
    targetBranch: Option<string>,
    sourceBranch: Option<string>,
    page: int,
    perPage: int)

  /** The client calls the provider makes. */
  datatype ApiCall =
    | GetMergeRequest(projectId: int, mergeId: int)
    | ListBranches(projectId: int, page: int, perPage: int)
    | ListProjectMergeRequests(projectId: int, options: MrListOptions)
    | ListMergeRequestNotes(projectId: int, mergeId: int, page: int, perPage: int)
    | ListDiscussions(projectId: int, mergeId: int)
    | CurrentUser
    | UpdateDiscussionNote(projectId: int, mergeId: int, discussionId: string, noteId: int,
                           body: Option<string>, resolved: Option<bool>)
    | ListLabels(projectId: int, search: string)
    | CreateLabel(projectId: int, name: string, color: string)
    | AddLabel(projectId: int, mergeId: int, name: string)
    | ResetApprovalsOfMergeRequest(projectId: int, mergeId: int)
    | CreateNote(projectId: int, mergeId: int, text: string)
    | GetProject(projectId: int)
    | GetFile(projectId: int, path: string, ref: string)
    | GetPipelineTestReport(projectId: int, pipelineIid: int)
    | IssueToken(projectId: int, varName: string)

  /**
   * A reply: the error (None for nil), the next page of a listing (0 for
   * none), and whichever result the call has. `text` is a project's default
   * branch, a file's decoded content or an issued token; `failedCount` a
   * test report's failures.
   */
  datatype ApiReply = ApiReply(
    err: Option<Error>,
    nextPage: int,
    mr: MergeRequest,
    branches: seq<Branch>,
    mrs: seq<BasicMR>,
    notes: seq<Note>,
    discussions: seq<Discussion>,
    user: User,
    labels: seq<string>,
    text: string,
    failedCount: int)

  type ApiOracle = (nat, ApiCall) -> ApiReply

  /** A gitlab.Client: its replies and the calls made through it so far. */
  class Client {
    const replies: ApiOracle
    var calls: seq<ApiCall>

    constructor(replies: ApiOracle)
      ensures this.replies == replies && calls == []
    {
      this.replies := replies;
      calls := [];
    }

    /** Make one call: it is appended to the trace and answered by the oracle. */
    method Invoke(c: ApiCall) returns (r: ApiReply)
      modifies this
      ensures calls == old(calls) + [c]
      ensures r == replies(|old(calls)|, c)
    {
      r := replies(|calls|, c);
      calls := calls + [c];
    }
  }
}

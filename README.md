# Merge bot core, modelled in Dafny

This project models the decision logic of a GitLab merge bot. The bot
receives GitLab webhooks and routes comments such as `!merge`, `!check`,
`!update` and `!rerun`, plus merge-request events, to commands. It decides
whether a merge request may be merged. It keeps branches up to date and
cleans up stale branches and merge requests. It loads plugins from
manifests.

The model covers these parts of the bot:

- **Rule engine.** The six checks over `(Config, MrInfo)` and their ordered
  table (`Checkers`). `IsValid`'s verdict and report, `ParseConfig`'s
  defaults, and the request-level decision chains (`Requests`).
- **Limiter tables.** The keyed counting tables behind the two task
  limiters (`Semaphore`, `SemaphoreQ`).
- **Stale clean-up passes.** The stale-branch and stale-merge-request
  passes (`StaleBranches`, `StaleMergeRequests`).
- **Routing.** The provider and webhook registries (`Provider`,
  `Webhooks`), GitLab webhook parsing (`GitlabWebhook`), command
  dispatch (`Bot`) and the command handlers (`Commands`).
- **GitLab provider.** The GitLab provider's folds and selections
  (`GitlabHandlers`) over the page-following listings (`Pagination`).
- **Plugin loading.** Plugin manifest URL rewriting and plugin-list
  loading in the plugin package (`Plugins`) and in the main package
  (`MainPlugins`).

The bot talks to an SCM provider and to the GitLab API. Both are modelled
the same way:

- A class holds an oracle `(trace index, call) -> reply` and the trace of
  calls made so far (`Provider.RequestProvider`, `GitlabApi.Client`).
- Every call appends one entry to the trace, and the oracle answers it.
  This means any sequence of replies can be expressed.
- Each method is specified by a function. The function gives the calls it
  appends and its result for every possible reply sequence.

The straight-line `if err := call(); err != nil { return … }` chains share
one specification, `Provider.Execute`. The "first error stops the rest"
lemmas are proved about it once.

Some foreign code is passed in as parameters:

| Foreign code | Modelled as |
|---|---|
| Regular expressions | a function that returns `None` for a malformed pattern |
| YAML decoding | a decoder that overlays the defaults |
| Greeting templates, `time.Parse`, `url.Parse`, GitLab webhook payload decoding | functions passed in |
| The clock (`time.Now`) | integer readings |
| Plugin fetching, manifest decoding and the WASM engines | functions passed in |

Strings are `seq<char>`. The string functions of Go's standard library
that the bot relies on are modelled in `Strings`, with their meaning
proved:

- `strings.Replace(…, 1)`, `Index`, `TrimPrefix`, `TrimSpace`,
  `SplitSeq` and `SplitN(…, 2)`;
- `strconv.Atoi`, `%d` and `path.Base`.

## Model

| member | source | states |
|---|---|---|
| Checkers.CheckTitle | handlers/checkers.go:10-13 | always required; passes iff the title regex matches the title, and a malformed pattern fails |
| Checkers.CheckDescription | handlers/checkers.go:15-17 | passes iff the description is non-empty; required iff empty descriptions are not allowed |
| Checkers.CheckApprovals | handlers/checkers.go:19-21 | always required; passes iff the number of distinct approvers reaches MinApprovals |
| Checkers.AllApproved | handlers/checkers.go:25-30 | the approvers loop returns true iff every listed approver is among the approvals |
| Checkers.CheckApprovers | handlers/checkers.go:23-33 | a non-empty list is required and passes iff every listed user approved; a nil or empty list gives (passed, not required) |
| Checkers.CheckPipelines | handlers/checkers.go:35-37 | passes iff no pipeline failed; required iff failing pipelines are not allowed |
| Checkers.CheckTests | handlers/checkers.go:39-41 | passes iff no test failed; required iff failing tests are not allowed |
| Checkers.TableShape | handlers/checkers.go:43-69 | the table has six entries in the fixed order title, description, approvals, approvers, pipelines, tests; rules and labels are pairwise distinct and every label is non-empty |
| Checkers.RunChecker | handlers/checkers.go:5-8 | running a table entry gives its rule's outcome with the entry's label as message |
| Clock.Sub | handlers/stalebranches.go:24 | `now.Sub(t)` is the exact difference whenever it fits the Duration range, and is clamped to that range otherwise |
| Provider.KindText | handlers/provider.go:15-21 | every sentinel error has a non-empty text |
| Provider.AsConflict | commands.go:48-59 | `errors.As` finds the branches of a MergeError and nothing in any other error |
| Provider.Wrap | commands.go:61 | wrapping with `%w` keeps every `errors.Is` answer and the `errors.As` answer |
| Provider.SentinelsDistinct | handlers/provider.go:15-29 | Error.Error returns its text; the six sentinels are distinct, and `errors.Is` matches a sentinel only against itself |
| Provider.PlainIsNoSentinel | handlers/provider.go:23-29 | a fresh error with a sentinel's text is not that sentinel |
| Provider.RequestProvider.constructor | handlers/provider.go:53-92 | a new provider has an empty trace and the given replies |
| Provider.RequestProvider.Invoke | handlers/provider.go:53-92 | one call is appended to the trace and answered by the replies at its index |
| Provider.RequestProvider.Try | handlers/request.go:212-215 | one `if err := call(); err != nil { return err }` step: the call is appended and its error returned wrapped in its context |
| Provider.RequestProvider.Perform | handlers/request.go:207-216 | a chain of calls appends exactly the calls and returns exactly the error of `Execute` |
| Provider.ExecutePrefix | handlers/request.go:207-216 | the calls made are a prefix of the plan, in plan order |
| Provider.ExecuteSucceeds | handlers/request.go:207-216 | without an error every planned call was made and every one succeeded |
| Provider.ExecuteFails | handlers/request.go:207-216 | with an error, the calls stop at the first failing one, every earlier one succeeded, and the error is that call's, wrapped |
| Provider.ExecuteAppend | commands.go:96-109 | running two chains back to back is running their concatenation when the first succeeds, and only the first when it fails |
| Provider.ExecuteFirstError | handlers/stalebranches.go:14-34 | on the trace: without an error all calls succeeded; with one, the last call failed and all earlier ones succeeded |
| Requests.ParseConfig | handlers/request.go:78-117 | an empty document gives exactly the defaults; otherwise the decoder's overlay of the defaults, or its error |
| Requests.DefaultsOfEmptyConfig | handlers/request.go:78-112 | the defaults: one approval, failing pipelines and tests allowed, title ".*", empty descriptions allowed, nil approvers, reset-on-push off with its token variable, greetings, auto master merge and stale deletion off, 90 days, batch 5, wait 1 day |
| Requests.VerdictOk | handlers/request.go:50-76 | the verdict is ok iff the MR is in a valid state, an approvers list is configured (possibly empty) and every required check passed, spelled out check by check |
| Requests.InvalidStateShortCircuits | handlers/request.go:51-53 | an MR in an invalid state gets ValidError's text, whatever the checks say |
| Requests.ReportSlots | handlers/request.go:55-75 | a check that is not required leaves its slot empty and a required one writes its label with ✅ or ❌; the last slot holds the approvers warning iff the list is nil |
| Requests.FillReport | handlers/request.go:55-73 | the loop builds one slot per checker in order and then the warning slot; ok holds iff every required check passed and the approvers list is non-nil |
| Requests.CleanupKeysDistinct | handlers/request.go:141-162 | the two clean-up limiter keys never collide with each other, and each names its project |
| Requests.UpdateBranchKeyInjective | handlers/request.go:189-205 | "update_branch_<pid>_<mrid>" determines both numbers |
| Requests.UpdateTasks | handlers/request.go:189-205 | one update task per merge request found, in order, under its own key |
| Requests.SubmitAllFresh | handlers/request.go:141-205 | idle tasks under distinct keys are all accepted, each key ends with one running task, and no other key changes |
| Requests.MergeDecision | handlers/request.go:164-180 | with auto master merge, a failed update returns its error before any merge; otherwise exactly one merge call with title + "\nMerged by MergeApproveBot" is made iff the verdict is ok, right after the update if there is one, and the merge reply's error is returned; a failed verdict returns its report with no merge call |
| Requests.CreateLabelsOrder | handlers/request.go:207-216 | the stale label is created first; its error is returned as is and the auto-update label is then not created |
| Requests.SubmitTasks | handlers/request.go:152-161 | the submission loop leaves the limiter table and the spawned tasks that submitting the tasks in order gives |
| Requests.UpdateTasksAllAccepted | handlers/request.go:189-205 | on an idle limiter, MRs with distinct ids all get their update task, in order, each key holding one running task |
| Requests.CleanupTasksAccepted | handlers/request.go:141-162 | with no clean-up running in the project, both clean-up tasks are submitted, merge requests first |
| Requests.Limiters.constructor | handlers/request.go:24-27 | both limiter tables start empty |
| Requests.Request.constructor | handlers/provider.go:146 | a new request holds its provider and has no info or configuration loaded |
| Requests.Request.LoadInfoAndConfig | handlers/request.go:35-48 | one GetMRInfo call; a fetch error leaves no info and the configuration untouched; a parse error leaves no configuration; otherwise both are set |
| Requests.Request.IsValid | handlers/request.go:50-76 | the verdict and report are the specified Verdict, and there is never an error |
| Requests.Request.Merge | handlers/request.go:164-180 | the calls and result are exactly those of MergeRun |
| Requests.Request.LeaveComment | handlers/request.go:119-121 | exactly one LeaveComment call on this MR, and its error is returned |
| Requests.Request.LeaveNote | commands.go:79-86 | exactly one LeaveNote call on this MR, and its error is returned (the method's body is not in the modelled files) |
| Requests.Request.UnresolveDiscussion | commands.go:111-125 | exactly one call to the provider's UnresolveDiscussion on this MR, and its error is returned (the method's body is not in the modelled files) |
| Requests.Request.UpdateFromMaster | handlers/request.go:182-187 | exactly one UpdateFromMaster call on this MR, and its error is returned |
| Requests.Request.Greetings | handlers/request.go:123-139 | disabled: no call and no error; a template error is returned with no call; otherwise the rendered text is left as one comment |
| Requests.Request.ResetApprovals | handlers/request.go:223-228 | disabled: no call and no error; otherwise one ResetApprovals call with the reset settings |
| Requests.Request.ValidateSecret | handlers/request.go:230-240 | one GetVar call for MERGE_BOT_SECRET; valid iff it succeeds and equals the secret exactly |
| Requests.Request.RerunPipeline | handlers/request.go:218-221 | one rerun call on the MR's source branch, returning its URL and error |
| Requests.Request.CreateLabels | handlers/request.go:207-216 | the calls and error are those of the two-step label chain |
| Requests.Request.DeleteStaleBranches | handlers/request.go:141-162 | disabled: the limiter is untouched; enabled: both clean-up tasks are submitted to the max-1 limiter in order; never an error, never a provider call |
| Requests.Request.UpdateBranches | handlers/request.go:189-205 | one FindMergeRequests call; its error is returned with the limiter untouched; otherwise one task per MR is submitted to the max-2 limiter |
| Requests.Providers.constructor | handlers/provider.go:31-35 | the registry starts empty |
| Requests.Providers.Register | handlers/provider.go:31-35 | the constructor is stored under its name, replacing any earlier one |
| Requests.Providers.New | handlers/provider.go:132-147 | an unregistered name or a nil constructor fails with "Provider can't be nil"; otherwise a fresh request around a fresh provider with nothing loaded |
| Semaphore.AdmitOnlyTouchesKey | semaphore/semaphore.go:38-55 | Add never changes another key's entry |
| Semaphore.ReleaseOnlyTouchesKey | semaphore/semaphore.go:57-78 | completion never changes another key's entry |
| Semaphore.AdmitBounded | semaphore/semaphore.go:38-55 | an absent key starts at 1, a key at the cap is rejected with the table unchanged, any other key goes up by one; counts stay within [1, max] |
| Semaphore.ReleaseBounded | semaphore/semaphore.go:57-78 | completion lowers the key's count by one, deletes the key exactly at zero, and keeps the counts bounded |
| Semaphore.AdmitThenRelease | semaphore/semaphore.go:38-78 | completing a task right after admitting it restores the table |
| Semaphore.AdmitManyCount | semaphore/semaphore.go:38-55 | n submissions under one key accept exactly as many as the cap leaves room for (all of them with no positive cap) |
| Semaphore.ReleaseManyCount | semaphore/semaphore.go:57-78 | m completions lower the count by m, and the key is gone once all complete |
| Semaphore.AcceptedThenAllComplete | semaphore/semaphore.go:38-78 | for a new key, n submissions accept min(n, max), and the key is absent again once they all complete |
| Semaphore.KeyedSemaphore.constructor | semaphore/semaphore.go:20-25 | an empty table with the given cap |
| Semaphore.KeyedSemaphore.Add | semaphore/semaphore.go:38-55 | the decision and the new table are Admit's; an accepted task is spawned once, a rejected one is dropped |
| Semaphore.KeyedSemaphore.Clean | semaphore/semaphore.go:57-66 | the key is deleted iff its count is zero |
| Semaphore.KeyedSemaphore.Complete | semaphore/semaphore.go:68-78 | the deferred decrement then clean: the table becomes Release's, still bounded |
| SemaphoreQ.Q.constructor | semaphore/q.go:19-24 | an empty table with the given cap |
| SemaphoreQ.Q.Add | semaphore/q.go:37-54 | the same decision and table as the keyed semaphore's Admit |
| SemaphoreQ.Q.Clean | semaphore/q.go:56-65 | the key is deleted iff its count is zero |
| SemaphoreQ.Q.Complete | semaphore/q.go:67-77 | decrement then clean, as Release |
| StaleBranches.CleanStaleBranches | handlers/stalebranches.go:14-34 | the calls and error are those of the listing followed by the sweep |
| StaleBranches.DeleteAll | handlers/stalebranches.go:21-32 | the loop issues the sweep's deletions up to the first error |
| StaleBranches.SweepOnlyDeletes | handlers/stalebranches.go:21-32 | the sweep only deletes branches of the project, at most one per candidate |
| StaleBranches.SweepDeletesStale | handlers/stalebranches.go:24-28 | every candidate stale at its reading has its branch deleted |
| StaleBranches.SweepSparesFresh | handlers/stalebranches.go:24-28 | only branches of stale candidates are deleted |
| StaleBranches.SweepSplit | handlers/stalebranches.go:21-32 | deletions follow candidate order |
| StaleBranches.ThresholdStrict | handlers/stalebranches.go:24 | a branch idle exactly Days days is kept; one idle longer is stale |
| StaleBranches.StaleMonotone | handlers/stalebranches.go:22-24 | with a clock that does not go back, a stale verdict carries over to later readings and older branches |
| StaleBranches.ListingErrorStops | handlers/stalebranches.go:15-18 | a listing error is returned wrapped and nothing is deleted |
| StaleBranches.CleanFirstError | handlers/stalebranches.go:14-34 | the pass opens with the listing; without an error every planned deletion was made; with one, the failing call is the last one made |
| StaleMergeRequests.CleanStaleMergeRequests | handlers/stalemergerequests.go:26-64 | the calls and error are those of the listing and sweep, with the comment built once from Days and WaitDays |
| StaleMergeRequests.CleanWith | handlers/stalemergerequests.go:34-61 | the listing and loop issue exactly the specified calls |
| StaleMergeRequests.CleanAll | handlers/stalemergerequests.go:39-61 | the loop over candidates issues the sweep up to the first error |
| StaleMergeRequests.CleanOne | handlers/stalemergerequests.go:41-60 | one candidate's steps are issued in order, stopping at the first error |
| StaleMergeRequests.StepsRule | handlers/stalemergerequests.go:41-60 | the branch is deleted iff the MR is labelled stale and idle longer than WaitDays; it is labelled and commented iff idle longer than Days; delete first, label then comment last |
| StaleMergeRequests.ThresholdsStrict | handlers/stalemergerequests.go:42-49 | both thresholds are strict |
| StaleMergeRequests.FreshUntouched | handlers/stalemergerequests.go:41-60 | an MR under both thresholds gets no call |
| StaleMergeRequests.SweepSplit | handlers/stalemergerequests.go:39-61 | the sweep is the candidates' steps back to back, in order |
| StaleMergeRequests.ListingErrorStops | handlers/stalemergerequests.go:34-37 | a listing error is returned wrapped and nothing else is called |
| StaleMergeRequests.CleanFirstError | handlers/stalemergerequests.go:26-64 | the pass opens with the listing; without an error all planned calls were made; with one, the failing call is the last |
| Commands.NamesDistinct | commands.go:17-25 | init binds seven pairwise distinct names to seven distinct functions |
| Commands.Init | commands.go:17-25 | after init, each of the seven names is bound to its function and every other binding is as it was |
| Commands.Errorf | commands.go:61-62 | a nil error stays nil; a non-nil one is wrapped around the original |
| Commands.UpdateBranch | commands.go:27-65 | the calls and error are those of UpdateBranchRun |
| Commands.UpdateBranchSucceeds | commands.go:46-47 | a successful update leaves no comment and returns nil |
| Commands.UpdateBranchFails | commands.go:48-64 | a failed update leaves exactly one comment and returns its error: the conflict instructions for a MergeError, the generic text otherwise |
| Commands.WrappedConflictSameComment | commands.go:48-59 | a wrapped MergeError gets the same comment as an unwrapped one |
| Commands.MergeCommand | commands.go:67-77 | the calls and error are those of MergeCmdRun |
| Commands.MergeCmdOutcome | commands.go:67-77 | a failing Merge is returned wrapped with no comment; an MR that is not ready gets the report as one final comment and no merge; a merged one gets no comment |
| Commands.CheckCommand | commands.go:79-86 | the report is posted as one note whether or not the checks pass |
| Commands.NewMRCommand | commands.go:88-94 | the greeting: disabled does nothing; a template error or a comment error is returned wrapped |
| Commands.MergeEventCommand | commands.go:96-109 | labels, then branch updates, then the stale clean-up, each failure returned wrapped and ending the chain, with the limiters untouched after a failure |
| Commands.UpdateEventCommand | commands.go:111-125 | the calls and error are those of UpdateEventRun |
| Commands.UpdateEventOrder | commands.go:111-125 | an UnresolveDiscussion error is returned before parsing or resetting; approvals are reset iff the time parses and reset-on-push is on |
| Commands.RerunPipelineCommand | commands.go:127-151 | the calls and error are those of RerunRun |
| Commands.PipelineIdRule | commands.go:128-133 | "#<n>" and "<n>" name pipeline n, "##<n>" does not; an id that does not read leaves only the "invalid" comment |
| Commands.RerunCommentRule | commands.go:137-150 | NotFoundError gives the "not found" comment and other errors the syntax comment; an unparsable URL gives the URL comment; otherwise the link names the URL path's last segment |
| Bot.Bot.constructor | bot.go:54-57 | no bindings and nothing done yet |
| Bot.Bot.Handle | bot.go:97-104 | the function is bound to the event name, replacing any earlier binding |
| Bot.Bot.Handler | bot.go:60-95 | 201 comes first; an unknown or nil provider or a parse failure returns its error with nothing dispatched; otherwise a bound event is spawned exactly once and an unbound one not at all |
| Webhooks.HookText | webhook/webhook.go:31-38 | Error.Error returns its text |
| Webhooks.Header | webhook/gitlab/gitlab.go:41 | an absent header reads as "" |
| Webhooks.HookProvider.constructor | webhook/webhook.go:110 | a fresh provider reports zero values |
| Webhooks.HookProvider.ParseRequest | webhook/webhook.go:40-47 | the provider's state and error are its parse function's |
| Webhooks.FieldsSplit | webhook/webhook.go:81-89 | a command with a space: the event is the text before the first space and the arguments are the trimmed rest |
| Webhooks.FieldsWhole | webhook/webhook.go:81-92 | a command with no space is all event, and the arguments stay as they were |
| Webhooks.Webhook.constructor | webhook/webhook.go:115 | a new webhook has empty event and arguments and note 0 |
| Webhooks.Webhook.ParseRequest | webhook/webhook.go:72-95 | a missing request fails before the provider is consulted; a provider error is returned with the fields unchanged; otherwise the fields follow the command split |
| Webhooks.Hooks.constructor | webhook/webhook.go:17-19 | the registry starts empty |
| Webhooks.Hooks.Register | webhook/webhook.go:25-29 | the constructor is stored under its name, replacing any earlier one |
| Webhooks.Hooks.New | webhook/webhook.go:97-116 | "Provider is not registered", "Provider is nil", or a fresh webhook around a fresh provider |
| Webhooks.EventNamesDistinct | webhook/webhook.go:9-15 | the three event names are distinct and none is a "!" command |
| GitlabWebhook.GetCmd | webhook/gitlab/gitlab.go:76-92 | the merge event for action "merge", the new-MR event for "open" (the action checked before the note), else a note starting with "!" verbatim, else "" |
| GitlabWebhook.GitlabProvider.constructor | webhook/gitlab/gitlab.go:27-29 | all fields zero |
| GitlabWebhook.GitlabProvider.ParseRequest | webhook/gitlab/gitlab.go:35-74 | the new fields and error are Parse's |
| GitlabWebhook.BlankHeaderIsAuthError | webhook/gitlab/gitlab.go:41-44 | a blank event header is AuthError and changes nothing |
| GitlabWebhook.BadBodyIsPayloadError | webhook/gitlab/gitlab.go:48-56 | an unreadable, empty or undecodable body is PayloadError |
| GitlabWebhook.DecodedEventFields | webhook/gitlab/gitlab.go:58-73 | every decoded event succeeds with the secret from X-Gitlab-Token; a note event fills project, iid and note, a merge event project, iid and action, any other event none |
| GitlabApi.Client.constructor | handlers/gitlab/gitlab.go:617-622 | a new client has an empty trace and the given replies |
| GitlabApi.Client.Invoke | handlers/gitlab/gitlab.go:617-622 | one API call is appended to the trace and answered by the replies at its index |
| Pagination.Pager.constructor | handlers/gitlab/pagination.go:11 | the page counter starts at 1 |
| Pagination.Pager.Run | handlers/gitlab/pagination.go:14-38 | one iteration of the returned sequence appends the calls, leaves the state and the page counter of Follow from the captured page |
| Pagination.Pager.Yield | handlers/gitlab/pagination.go:26-30 | the inner loop hands the page's items to the consumer as Drain says |
| Pagination.DrainPrefix | handlers/gitlab/pagination.go:26-30 | a page is handed over from its first item without gaps, all of it unless the consumer stopped at an item |
| Pagination.FollowRules | handlers/gitlab/pagination.go:15-36 | the first request asks for the captured page; a failed request ends the run silently; a stopped consumer or NextPage 0 ends it after the page |
| Pagination.FollowNextPage | handlers/gitlab/pagination.go:32-36 | otherwise the next request asks for NextPage, after the whole page was handed over |
| Pagination.ConsumerStopEndsRun | handlers/gitlab/pagination.go:27-29 | a false from the consumer ends the run at that item with no further request |
| Pagination.FollowEndsAtRequestedPage | handlers/gitlab/pagination.go:11-36 | the counter a run ends with is a page it requested, so a second run resumes there |
| Pagination.DrainKeeps | handlers/gitlab/pagination.go:26-30 | an invariant kept by the consumer holds over one page |
| Pagination.FollowKeeps | handlers/gitlab/pagination.go:14-38 | an invariant kept by the consumer holds of the final state and everything handed over |
| GitlabHandlers.MergeRequestsRequestKeepsFilters | handlers/gitlab/pagination.go:41-70 | each merge request page request keeps the caller's filters, with only page and size replaced |
| GitlabHandlers.FoldStopsAtReset | handlers/gitlab/gitlab.go:207-214 | nothing after the first reset note by someone other than the author counts |
| GitlabHandlers.ApprovalMeaning | handlers/gitlab/gitlab.go:204-226 | before any reset, a user is approved iff some counted note approves for them and no later counted note unapproves |
| GitlabHandlers.ApprovalsConsumerKeeps | handlers/gitlab/gitlab.go:207-223 | the loop body keeps the set equal to the fold of the notes handed over |
| GitlabHandlers.ApprovalsRunIsFold | handlers/gitlab/gitlab.go:204-226 | GetApprovals yields exactly the fold of the notes the listing handed over |
| GitlabHandlers.FailedPipelines | handlers/gitlab/gitlab.go:228-234 | one failure iff there is a head pipeline and it did not succeed, else 0 |
| GitlabHandlers.MrInfoTolerance | handlers/gitlab/gitlab.go:266-312 | fails only when the MR cannot be loaded; validity is opened without conflicts; a missing file leaves the content empty; approvals are the fold; no head pipeline gives 0 failed tests and an unfetchable report gives 1 |
| GitlabHandlers.FirstOwn | handlers/gitlab/gitlab.go:105-120 | the index of the first discussion whose first note is resolvable and by the current user, or none |
| GitlabHandlers.UnresolveDiscussionRule | handlers/gitlab/gitlab.go:91-167 | a listing or current-user error is returned with no update; with no own resolvable discussion the run fails with the "could not find resolvable discussion" error; otherwise exactly one call follows the two listings: it marks the first note of the first own resolvable discussion (FirstOwn) unresolved without touching its body, and its error is returned |
| GitlabHandlers.UpdateDiscussionRule | handlers/gitlab/gitlab.go:91-147 | a search error is returned; a note already reading the message is left alone; otherwise one update of the found note ends the run; no qualifying discussion is an error |
| GitlabHandlers.LabelsIdempotent | handlers/gitlab/gitlab.go:411-455 | CreateLabel creates iff the search succeeded and listed no label of that exact name; AssignLabel does nothing when the MR carries the label and adds it iff it does not and creation succeeded |
| GitlabHandlers.LabelFound | handlers/gitlab/gitlab.go:417-422 | found iff the name is among the listed labels |
| GitlabHandlers.BranchStep | handlers/gitlab/gitlab.go:331-352 | a default branch is skipped without a call; any other is looked up once, at the trace index handed to the loop body, and kept iff its lookup lists no merge request; a lookup error ends the loop; keeping the size-th branch ends it too |
| GitlabHandlers.PickedMeans | handlers/gitlab/gitlab.go:331-352 | every branch kept is the record of a non-default branch handed over, in order |
| GitlabHandlers.ListBranchesRule | handlers/gitlab/gitlab.go:328-357 | without a lookup error, every non-default branch handed over was looked up successfully, and the kept records are exactly StaleAmong: those whose lookup listed no merge request, in order, at most size of them; the first request asks for page 1 with twice the size |
| GitlabHandlers.AsMRs | handlers/gitlab/gitlab.go:372-381 | each listed merge request keeps its own record, in order |
| GitlabHandlers.ListMergeRequestsRule | handlers/gitlab/gitlab.go:364-409 | ListMergeRequests returns the MRs handed over in order, at most size; FindMergeRequests returns every one handed over |
| GitlabHandlers.FirstEligible | handlers/gitlab/gitlab.go:567-575 | the first system note not newer than the push, or none |
| GitlabHandlers.SelectRunIsFirstEligible | handlers/gitlab/gitlab.go:567-587 | the note ResetApprovals decides by is the first eligible note handed over |
| GitlabHandlers.ResetApprovalsRule | handlers/gitlab/gitlab.go:557-590 | approvals are reset, then the reset comment left, iff the deciding note mentions "commit" |
| GitlabHandlers.GitlabProvider.constructor | handlers/gitlab/gitlab.go:617-622 | a new provider around the client, with no merge request loaded |
| GitlabHandlers.GitlabProvider.IsValid | handlers/gitlab/gitlab.go:236-249 | one load; an error leaves it invalid; otherwise the MR is remembered and valid iff opened without conflicts |
| GitlabHandlers.GitlabProvider.GetFailedPipelines | handlers/gitlab/gitlab.go:228-234 | the count for the loaded MR |
| GitlabHandlers.GitlabProvider.GetFile | handlers/gitlab/gitlab.go:251-264 | the calls, content and error of FileRun |
| GitlabHandlers.GitlabProvider.GetApprovals | handlers/gitlab/gitlab.go:204-226 | the calls of the notes listing, and the fold as the result |
| GitlabHandlers.GitlabProvider.GetMRInfo | handlers/gitlab/gitlab.go:266-312 | the calls, info and error of MrInfoRun |
| GitlabHandlers.GitlabProvider.Gather | handlers/gitlab/gitlab.go:278-311 | the calls and info of GatherRun |
| GitlabHandlers.GitlabProvider.FailedTests | handlers/gitlab/gitlab.go:301-309 | the calls and count of TestsRun |
| GitlabHandlers.GitlabProvider.FindDiscussion | handlers/gitlab/gitlab.go:91-122 | the calls and result of FindRun |
| GitlabHandlers.GitlabProvider.UpdateDiscussion | handlers/gitlab/gitlab.go:124-147 | the calls and error of UpdateDiscussionRun |
| GitlabHandlers.GitlabProvider.UnresolveDiscussion | handlers/gitlab/gitlab.go:149-167 | the calls and error of UnresolveDiscussionRun, whose rule UnresolveDiscussionRule states |
| GitlabHandlers.GitlabProvider.ListBranches | handlers/gitlab/gitlab.go:328-357 | the branches kept, or nothing and the error when a lookup failed |
| GitlabHandlers.GitlabProvider.ListMergeRequests | handlers/gitlab/gitlab.go:364-386 | the open MRs collected, at most size |
| GitlabHandlers.GitlabProvider.FindMergeRequests | handlers/gitlab/gitlab.go:388-409 | every open MR with the label into the target branch |
| GitlabHandlers.GitlabProvider.CreateLabel | handlers/gitlab/gitlab.go:411-432 | the calls and error of CreateLabelRun |
| GitlabHandlers.GitlabProvider.AssignLabel | handlers/gitlab/gitlab.go:434-455 | the calls and error of AssignLabelRun |
| GitlabHandlers.GitlabProvider.ResetApprovals | handlers/gitlab/gitlab.go:557-590 | the calls and error of ResetApprovalsRun |
| GitlabHandlers.GitlabProvider.ResetFromNotes | handlers/gitlab/gitlab.go:567-587 | the notes run, then the reset it calls for |
| GitlabHandlers.GitlabProvider.ResetOnCommit | handlers/gitlab/gitlab.go:576-585 | the reset and its comment when the chosen note mentions "commit" |
| Plugins.GithubManifestPath | plugins/plugins.go:75-77 | a GitHub URL is fetched from raw.githubusercontent.com with its first "blob/" after the host dropped, and downloaded |
| Plugins.GitlabManifestPath | plugins/plugins.go:79-80 | a GitLab URL keeps its host and its first "-/blob/" becomes "-/raw/", and is downloaded |
| Plugins.OtherManifestPath | plugins/plugins.go:72-90 | any other path is fetched as it is |
| Plugins.LoadEntrySkips | plugins/plugins.go:99-137 | an entry is skipped iff it is blank, its manifest cannot be fetched or parsed, its runtime has no engine or the engine fails; otherwise it yields the manifest with its handler |
| Plugins.BuiltAppend | plugins/plugins.go:99-137 | entries load independently: the plugins of a + b are those of a, then those of b |
| Plugins.BuiltFromEntries | plugins/plugins.go:99-137 | every plugin comes from one of the entries, and there are no more plugins than entries |
| Plugins.Yielded | plugins/plugins.go:133-137 | the plugins handed over are a prefix, up to and including the first one the consumer declines |
| Plugins.YieldedAfterAccepted | plugins/plugins.go:133-137 | handing over continues past a prefix the consumer accepted |
| Plugins.EmptyListLoadsNothing | plugins/plugins.go:95-97 | an empty list loads nothing, and its early return changes nothing |
| Plugins.Engines.constructor | plugins/plugins.go:22-26 | no engines registered |
| Plugins.Engines.Register | plugins/plugins.go:41-45 | the runtime now builds with the given engine, replacing any earlier one |
| Plugins.Engines.Load | plugins/plugins.go:92-141 | the plugins handed over are the loadable ones, in list order, up to the consumer's stop |
| MainPlugins.AsWrittenGluesOwnerToHost | plugins.go:75-77 | as written, a GitHub URL is sent to a host whose name has the owner's first character glued on, never to raw.githubusercontent.com/ |
| MainPlugins.AsWrittenExample | plugins.go:75-77 | "https://github.com/o/r/blob/main/p.yaml" is fetched from host "raw.githubusercontent.como" |
| MainPlugins.GithubManifestPath | plugins.go:75-77 | as intended, a GitHub URL is fetched from raw.githubusercontent.com/ with the first "blob" turned into "refs/heads", and downloaded |
| MainPlugins.RewritesAgreeOffGithub | plugins.go:74-82 | away from GitHub the written and intended rewrites agree with each other and with the plugin package's |
| MainPlugins.LoadEntrySkips | plugins.go:101-125 | an entry is skipped iff it is blank, its manifest cannot be fetched or parsed, or no handler can be built; otherwise it binds the manifest's command to the handler |
| MainPlugins.Loads | plugins.go:101-106 | one outcome per entry, in list order |
| MainPlugins.RegisteredDomain | plugins.go:108-125 | a command is bound after loading iff it was bound before or some entry binds it |
| MainPlugins.RegisteredUntouched | plugins.go:108-125 | a command no entry binds keeps its function |
| MainPlugins.RegisteredLastWins | plugins.go:108-125 | the last entry binding a command decides its function |
| MainPlugins.LoadPlugins | plugins.go:96-127 | the bindings become those of loading the comma-separated entries in order, unchanged for an empty list; manifests are fetched through the corrected GitHub rewrite |
| Strings.TrimPrefix | commands.go:128 | one leading copy of the prefix is dropped if there is one, else the text is unchanged |
| Strings.Index | plugins.go:76-77 | the first occurrence, or none |
| Strings.ReplaceFirstMeaning | plugins.go:76-80 | with no occurrence the text is unchanged; otherwise exactly the first occurrence is replaced |
| Strings.TrimSpace | webhook/webhook.go:88 | the result has no leading or trailing space, is the input when that has none, and is empty iff the input is all space |
| Strings.Split | plugins.go:101 | at least one piece, none containing the separator |
| Strings.SplitJoin | plugins.go:101 | joining the pieces with the separator gives the input back |
| Strings.Cut | webhook/webhook.go:82 | the text before the first separator, and what follows it iff there is one |
| Strings.Atoi | commands.go:129 | a value within 64 bits |
| Strings.AtoiIntToString | commands.go:129 | Atoi reads back what %d prints for every 64-bit integer |
| Strings.AtoiSyntax | commands.go:129 | Atoi accepts only an optional sign followed by decimal digits |
| Strings.IntToStringInjective | handlers/request.go:189-205 | %d never prints the same text for two numbers |
| Strings.PathBase | commands.go:150 | the base is non-empty, and contains a slash only when it is "/" |
| Strings.PathBaseLastSegment | commands.go:150 | the base of "dir/segment" is the segment |

## Left out

- handlers/merge.go: the git clone, merge and push work and its file system handling are left out. `MergeError` appears only as the `Conflict` error variant that carries the source and destination branches.
- Concurrency: goroutines, the per-key mutexes and the RWMutex guards on the registries are left out. The limiter tables are modelled sequentially, and a spawned task is recorded in `spawned`, not run.
- Metrics, logging, flag parsing, version and start-up plumbing are left out. So are the echo HTTP context, the health check and handlers/plugins.go (`RunWithContext`, a JSON wrapper over the WASM runtime).
- Foreign code is passed in as parameters, as described at the top: regular expressions, YAML, templates, `time.Parse`, `url.Parse`, webhook payload decoding, base64 decoding of files, plugin fetching, manifest decoding and the WASM engines.
- GitLab token issuance (`getToken`, `deleteToken`, `validateToken`, `newGitlabClient`) is one `IssueToken` call in the trace, whose error ends ResetApprovals.
- Some GitLab provider operations are not modelled at the GitLab client level. At the request level each is one provider call, and the reply, error included, is left to the replies the request is given:
  - `Merge`, `DeleteBranch`, `CreateDiscussion` and `LeaveComment` forward to one API call.
  - `UpdateFromMaster` (handlers/gitlab/gitlab.go:59-89) loads the merge request and the project statistics, and parses the configured maximum repository size. It returns `RepoSizeError` when the repository is larger, and only then runs the git merge from the target branch. The git work is in handlers/merge.go, which is left out.
  - `GetVar` (handlers/gitlab/gitlab.go:314-326) reads a 404 as the empty value with no error, and wraps any other error as "couldn't get variable …". So with MERGE_BOT_SECRET unset, `ValidateSecret` compares the secret with "".
  - `RerunPipeline` (handlers/gitlab/gitlab.go:457-477) reads the pipeline's variables, then creates a pipeline on the ref with copies of them and returns its web URL. Either call's error is returned with an empty URL.
  - `AwardEmoji`, `CreateThreadInLine` and `GetRawDiffs` are only declared by the provider interface (handlers/provider.go:60, 66 and 77). Their GitLab definitions are not part of this model.
- `listMergeRequestNotes` is not part of this model. Its definition is not among the files modelled, so the model assumes it pages like `listBranches`.
- Pagination.Pager.Run: the page-following loops are `for` loops without a bound. The model runs at most `fuel` page requests, so a listing that never returns NextPage 0 is cut off after `fuel` pages.
- GitlabHandlers.ListBranchesRule: with `size` 0 the source never reaches its cap, because the count is compared after the append (handlers/gitlab/gitlab.go:348-351). The model states the bound only for a positive size. A negative size makes the source panic when it allocates the result (handlers/gitlab/gitlab.go:329). The model has no panic: `ListBranches` and `BranchesRun` then list without a cap.
- GitlabHandlers.ListBranchesRule: the lookup indices are the trace indices the listing hands to the loop body, recorded in the loop state (`BranchScan.lookups`). Drain and Follow hand the loop body the index its call gets, so each one is where its lookup sits in the trace. That holds by the definitions; no lemma states it for the whole run.
- Clock.DaysDuration: `time.Duration(days)*24*time.Hour` is exact. Its 64-bit wrap-around for more than 106751 days is not modelled.
- Webhooks.Webhook: the getters `GetSecret`, `GetCmd`, `GetID` and `GetProjectID` are plain reads of the provider's state and carry no contract.
- Bot.Bot.Handle: the closure that `handle` wraps around the function is not modelled. The bound function is stored as it is.
- MainPlugins.LoadPlugins: the manifest's configuration map and its environment lookup are not interpreted. They go to the build function unchanged.
- MainPlugins.LoadPlugins: the loader fetches each manifest through the corrected GitHub rewrite (`ManifestPath`), not the rewrite at plugins.go:76-77 as written. For a GitHub entry it therefore models the intended program. The written rewrite is kept as `ManifestPathAsWritten`, and its effect is stated by AsWrittenGluesOwnerToHost and AsWrittenExample (see "## Findings"). Away from GitHub the two agree (RewritesAgreeOffGithub).
- Requests.Request.LeaveNote, Requests.Request.UnresolveDiscussion: the bodies of these request methods are not in the modelled files; only their callers are (commands.go:85 and commands.go:112). The provider interface declares `UnresolveDiscussion` (handlers/provider.go:65) but no `LeaveNote`. Each is modelled as one provider call on the merge request, whose error is returned.
- Version differences between files: the non-test code is followed where it disagrees with the description or the tests.
  - `IsValid` reads `Required`, `Passed` and `Message` from each check, while the checks return two booleans and the table holds the label. Both are unified as one `CheckResult` whose message is the table label.
  - `cleanStaleBranches` calls `ListBranches` without a size. The model passes the configured batch size.
  - `Handler` in bot.go never calls `ValidateSecret`. The model follows the code, so Handler only dispatches.
  - The checks test at handlers/checkers_test.go:40-49 expects the title check not to be required, while the code always requires it. The model follows the code.
- The checks read nothing but their two arguments, so the same configuration and information always give the same result. This holds by construction in the model, since every check is a function.

## Findings

| source | as written | input that shows it | evidently intended | confidence | as-written member | corrected member |
|---|---|---|---|---|---|---|
| plugins.go:76-77 | the GitHub prefix "https://github.com/" is replaced by "https://raw.githubusercontent.com" with no trailing slash, so the owner is glued to the host name | "https://github.com/o/r/blob/main/p.yaml" is fetched from host "raw.githubusercontent.como" | the raw host with its slash, "https://raw.githubusercontent.com/", as plugins/plugins.go:76 writes it | high, not executed | MainPlugins.AsWrittenGluesOwnerToHost | MainPlugins.GithubManifestPath |

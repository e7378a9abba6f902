/**
 * The GitLab webhook provider: it authenticates nothing itself, reads the
 * event header and the body, lets the GitLab library decode the payload, and
 * keeps the fields of a note event or a merge request event. Its command is
 * the merge or new-MR event for those actions, or a note that starts with "!".
 */
module GitlabWebhook {
  import opened Wrappers
  import opened Strings
  import opened Webhooks

  /** What gitlab.ParseWebhook decodes, as far as the provider looks at it. */
  datatype Event =
    | MergeCommentEvent(projectId: int, iid: int, note: string)
    | MergeEvent(projectId: int, iid: int, action: string)
    | OtherEvent

  /** gitlab.ParseWebhook(eventType, payload), which the model does not implement: None for a decoding error. */
  type WebhookDecoder = (string, string) -> Option<Event>

  /** The provider's fields. */
  datatype Fields = Fields(payload: string, note: string, action: string, projectId: int, id: int, secret: string)

  /**
   * ParseRequest on fields f: AuthError for a blank X-Gitlab-Event header
   * (before the body is read); PayloadError for a body that fails to read or
   * is empty, or that does not decode; otherwise the secret from
   * X-Gitlab-Token and, for a note or merge request event, its project, iid
   * and note or action.
   */
  function Parse(f: Fields, request: HttpRequest, decode: WebhookDecoder): (Fields, Option<HookError>) {
    var eventHeader := Header(request, "X-Gitlab-Event");
    if TrimSpace(eventHeader) == "" then (f, Some(AuthError))
    else
      var f1 := f.(payload := request.body.data);
      if request.body.readError || |f1.payload| == 0 then (f1, Some(PayloadError))
      else match decode(eventHeader, f1.payload)
        case None => (f1, Some(PayloadError))
        case Some(event) =>
          var f2 := f1.(secret := Header(request, "X-Gitlab-Token"));
          match event
          case MergeCommentEvent(pid, iid, note) => (f2.(projectId := pid, id := iid, note := note), None)
          case MergeEvent(pid, iid, action) => (f2.(projectId := pid, id := iid, action := action), None)
          case OtherEvent => (f2, None)
  }

  /**
   * GetCmd: the merge event for action "merge", the new-MR event for action
   * "open" (the action is looked at before the note), else a note that
   * starts with "!", else nothing.
   */
  function GetCmd(action: string, note: string): (cmd: string)
    ensures cmd == OnMerge <==> action == "merge"
    ensures cmd == OnNewMR <==> action == "open"
    ensures HasPrefix(cmd, "!") <==> action != "merge" && action != "open" && HasPrefix(note, "!")
    ensures HasPrefix(cmd, "!") ==> cmd == note
    ensures cmd == "" <==> action != "merge" && action != "open" && !HasPrefix(note, "!")
  {
    EventNamesDistinct();
    if action == "merge" then OnMerge
    else if action == "open" then OnNewMR
    else if HasPrefix(note, "!") then
      assert note[0] == '!';
      note
    else ""
  }

  class GitlabProvider {
    var payload: string
    var note: string
    var action: string
    var projectId: int
    var id: int
    var secret: string

    function State(): Fields
      reads this
    {
      Fields(payload, note, action, projectId, id, secret)
    }

    /** New: all fields zero. */
    constructor()
      ensures State() == Fields("", "", "", 0, 0, "")
    {
      payload, note, action := "", "", "";
      projectId, id := 0, 0;
      secret := "";
    }

    /** ParseRequest, field by field, as Parse says. */
    method ParseRequest(request: HttpRequest, decode: WebhookDecoder) returns (err: Option<HookError>)
      modifies this
      ensures (State(), err) == Parse(old(State()), request, decode)
    {
      var eventHeader := Header(request, "X-Gitlab-Event");
      if TrimSpace(eventHeader) == "" {
        return Some(AuthError);
      }
      payload := request.body.data;
      if request.body.readError || |payload| == 0 {
        return Some(PayloadError);
      }
      var event := decode(eventHeader, payload);
      if event.None? {
        return Some(PayloadError);
      }
      secret := Header(request, "X-Gitlab-Token");
      match event.value {
        case MergeCommentEvent(pid, iid, n) =>
          projectId := pid;
          id := iid;
          note := n;
          return None;
        case MergeEvent(pid, iid, a) =>
          projectId := pid;
          id := iid;
          action := a;
        case OtherEvent =>
      }
      err := None;
    }
  }

  /** A blank or whitespace-only event header is AuthError whatever the body, and changes nothing. */
  lemma BlankHeaderIsAuthError(f: Fields, request: HttpRequest, decode: WebhookDecoder)
    requires TrimSpace(Header(request, "X-Gitlab-Event")) == ""
    ensures Parse(f, request, decode) == (f, Some(AuthError))
  {
  }

  /**
   * With an event header, an unreadable, empty or undecodable body is
   * PayloadError, and no field but the payload changes.
   */
  lemma BadBodyIsPayloadError(f: Fields, request: HttpRequest, decode: WebhookDecoder)
    requires TrimSpace(Header(request, "X-Gitlab-Event")) != ""
    requires request.body.readError || request.body.data == ""
             || decode(Header(request, "X-Gitlab-Event"), request.body.data).None?
    ensures Parse(f, request, decode) == (f.(payload := request.body.data), Some(PayloadError))
  {
  }

  /**
   * Every decoded event succeeds and takes the secret from X-Gitlab-Token; a
   * note event fills project, iid and note, a merge request event project,
   * iid and action, and any other event none of them.
   */
  lemma DecodedEventFields(f: Fields, request: HttpRequest, decode: WebhookDecoder, event: Event)
    requires TrimSpace(Header(request, "X-Gitlab-Event")) != ""
    requires !request.body.readError && request.body.data != ""
    requires decode(Header(request, "X-Gitlab-Event"), request.body.data) == Some(event)
    ensures var (g, err) := Parse(f, request, decode);
            && err.None?
            && g.secret == Header(request, "X-Gitlab-Token") && g.payload == request.body.data
            && (event.MergeCommentEvent? ==>
                  g.projectId == event.projectId && g.id == event.iid && g.note == event.note && g.action == f.action)
            && (event.MergeEvent? ==>
                  g.projectId == event.projectId && g.id == event.iid && g.action == event.action && g.note == f.note)
            && (event.OtherEvent? ==> g.projectId == f.projectId && g.id == f.id && g.note == f.note && g.action == f.action)
  {
  }
}

/**
 * The webhook package: a registry of webhook providers by name, and the
 * Webhook wrapper that asks its provider to parse an incoming request and
 * splits the provider's command into an event name and its arguments.
 */
module Webhooks {
  import opened Wrappers
  import opened Strings

  /** The internal event names; each starts with the BEL character, which no note can contain first. */
  const OnNewMR: string := "\U{7}newMREvent"
  const OnMerge: string := "\U{7}mergeEvent"
  const OnUpdate: string := "\U{7}updateEvent"
  const OnCommit: string := "\U{7}commitEvent"

  /** The package's `*Error` values: the two sentinels the providers return, and fresh ones. */
  datatype HookError =
    | AuthError
    | PayloadError
    | HookFailure(text: string)

  function HookText(e: HookError): (t: string)
    ensures e.HookFailure? ==> t == e.text
  {
    match e
    case AuthError => "credentials or headers are wrong"
    case PayloadError => "post body is wrong"
    case HookFailure(text) => text
  }

  /** What io.ReadAll returns for a request body: the bytes read, and whether reading failed. */
  datatype Body = Body(data: string, readError: bool)

  /** An HTTP request as the providers read it: its headers and its body. */
  datatype HttpRequest = HttpRequest(headers: map<string, string>, body: Body)

  /** request.Header.Get: the empty string for an absent header. */
  function Header(r: HttpRequest, name: string): (v: string)
    ensures name !in r.headers ==> v == ""
  {
    if name in r.headers then r.headers[name] else ""
  }

  /** What a provider's getters return: GetCmd, GetID, GetProjectID, GetSecret and GetNoteID. */
  datatype View = View(cmd: string, id: int, projectId: int, secret: string, noteId: int)

  /** The zero values a freshly constructed provider reports. */
  function Blank(): View {
    View("", 0, 0, "", 0)
  }

  /**
   * A provider's ParseRequest, which the model does not implement: from what
   * the provider reported before and the request, what it reports after and
   * the error it returns.
   */
  type ParseFn = (View, HttpRequest) -> (View, Option<HookError>)

  /** A webhook.Provider: its parsing behaviour and what its getters currently return. */
  class HookProvider {
    const parse: ParseFn
    var view: View

    constructor(parse: ParseFn)
      ensures this.parse == parse && view == Blank()
    {
      this.parse := parse;
      view := Blank();
    }

    method ParseRequest(request: HttpRequest) returns (err: Option<HookError>)
      modifies this
      ensures (view, err) == parse(old(view), request)
    {
      var r := parse(view, request);
      view := r.0;
      err := r.1;
    }
  }

  /**
   * The fields ParseRequest sets from a non-empty command: the text before
   * the first space is the event; the trimmed text after it, if there is a
   * space, the arguments (otherwise the arguments keep their value); and the
   * note id.
   */
  function Fields(cmd: string, noteId: int, event: string, args: string, oldNoteId: int): (string, string, int) {
    if cmd == "" then (event, args, oldNoteId)
    else
      var (head, tail) := Cut(cmd, ' ');
      (head, if tail.Some? then TrimSpace(tail.value) else args, noteId)
  }

  /** A command split at its first space: the event has no space, and the arguments are trimmed. */
  lemma FieldsSplit(head: string, tail: string, noteId: int, event: string, args: string, oldNoteId: int)
    requires ' ' !in head
    ensures Fields(head + " " + tail, noteId, event, args, oldNoteId) == (head, TrimSpace(tail), noteId)
  {
    CutAfterHead(head, tail, ' ');
    assert head + " " + tail == head + [' '] + tail;
  }

  /** A command with no space is all event, and leaves the arguments as they were. */
  lemma FieldsWhole(cmd: string, noteId: int, event: string, args: string, oldNoteId: int)
    requires cmd != "" && ' ' !in cmd
    ensures Fields(cmd, noteId, event, args, oldNoteId) == (cmd, args, noteId)
  {
  }

  /** The webhook.Webhook wrapper. */
  class Webhook {
    const provider: HookProvider
    var event: string
    var args: string
    var noteId: int

    /** &Webhook{provider: p} */
    constructor(p: HookProvider)
      ensures provider == p && event == "" && args == "" && noteId == 0
    {
      provider := p;
      event := "";
      args := "";
      noteId := 0;
    }

    function GetSecret(): string
      reads this, provider
    {
      provider.view.secret
    }

    function GetCmd(): string
      reads this, provider
    {
      provider.view.cmd
    }

    function GetID(): int
      reads this, provider
    {
      provider.view.id
    }

    function GetProjectID(): int
      reads this, provider
    {
      provider.view.projectId
    }

    /**
     * ParseRequest: a missing request fails before the provider is consulted;
     * a provider error is returned as is with the fields left alone; on
     * success the fields follow the provider's command (an empty command sets
     * nothing).
     */
    method ParseRequest(request: Option<HttpRequest>) returns (err: Option<HookError>)
      modifies this, provider
      ensures request.None? ==>
                err == Some(HookFailure("Request is not provided")) &&
                provider.view == old(provider.view) && event == old(event) && args == old(args) && noteId == old(noteId)
      ensures request.Some? ==>
                var (v, e) := provider.parse(old(provider.view), request.value);
                && provider.view == v
                && (e.Some? ==> err == e && event == old(event) && args == old(args) && noteId == old(noteId))
                && (e.None? ==> err.None? && (event, args, noteId) == Fields(v.cmd, v.noteId, old(event), old(args), old(noteId)))
    {
      if request.None? {
        return Some(HookFailure("Request is not provided"));
      }
      err := provider.ParseRequest(request.value);
      if err.Some? {
        return;
      }
      var cmd := provider.view.cmd;
      if cmd != "" {
        var (head, tail) := Cut(cmd, ' ');
        event := head;
        if tail.Some? {
          args := TrimSpace(tail.value);
        }
        noteId := provider.view.noteId;
      }
    }
  }

  /** The registered provider constructors: None stands for a constructor that returns nil. */
  class Hooks {
    var providers: map<string, Option<ParseFn>>

    constructor()
      ensures providers == map[]
    {
      providers := map[];
    }

    /** Register: store the constructor, replacing any earlier one under the name. */
    method Register(name: string, make: Option<ParseFn>)
      modifies this
      ensures providers == old(providers)[name := make]
    {
      providers := providers[name := make];
    }

    /**
     * New: "Provider is not registered" for an unknown name, "Provider is nil"
     * for a constructor returning nil, otherwise a fresh webhook around a
     * fresh provider.
     */
    method New(name: string) returns (w: Webhook?, err: Option<HookError>)
      ensures name !in providers ==> w == null && err == Some(HookFailure("Provider is not registered"))
      ensures name in providers && providers[name].None? ==> w == null && err == Some(HookFailure("Provider is nil"))
      ensures name in providers && providers[name].Some? ==>
                && w != null && fresh(w) && fresh(w.provider) && err.None?
                && w.provider.parse == providers[name].value && w.provider.view == Blank()
                && w.event == "" && w.args == "" && w.noteId == 0
    {
      if name !in providers {
        return null, Some(HookFailure("Provider is not registered"));
      }
      if providers[name].None? {
        return null, Some(HookFailure("Provider is nil"));
      }
      var p := new HookProvider(providers[name].value);
      w := new Webhook(p);
      err := None;
    }
  }

  /** The internal event names are distinct, and none of them is a "!" command. */
  lemma EventNamesDistinct()
    ensures OnNewMR != OnMerge && OnNewMR != OnUpdate && OnMerge != OnUpdate
    ensures !HasPrefix(OnNewMR, "!") && !HasPrefix(OnMerge, "!") && !HasPrefix(OnUpdate, "!")
  {
    assert OnNewMR[1] == 'n' && OnMerge[1] == 'm' && OnUpdate[1] == 'u';
    assert OnNewMR[0] == '\U{7}' && OnMerge[0] == '\U{7}' && OnUpdate[0] == '\U{7}';
  }
}

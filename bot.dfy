/**
 * The HTTP entry point: the handlerFuncs registry from event names to
 * command functions, and Handler, which answers 201 at once, then builds the
 * webhook for the provider named in the URL, parses the request, and hands
 * the event's function, if one is bound, to a goroutine of its own.
 */
module Bot {
  import opened Wrappers
  import opened Webhooks

  /** What Handler makes happen, in order: the HTTP response, and each goroutine started for a bound event. */
  datatype Effect<F> =
    | Responded(status: int)
    | Spawned(providerName: string, handler: F, hook: Webhook)

  /** handlerFuncs, with the effects Handler has had. */
  class Bot<F> {
    var handlerFuncs: map<string, F>
    var effects: seq<Effect<F>>

    constructor()
      ensures handlerFuncs == map[] && effects == []
    {
      handlerFuncs := map[];
      effects := [];
    }

    /** handle: bind the function to the event name, replacing any earlier binding. */
    method Handle(onEvent: string, f: F)
      modifies this
      ensures handlerFuncs == old(handlerFuncs)[onEvent := f]
      ensures effects == old(effects)
    {
      handlerFuncs := handlerFuncs[onEvent := f];
    }

    /**
     * Handler: respond 201 first; an unknown provider or a parse failure is
     * returned with nothing dispatched; otherwise a bound event spawns its
     * function exactly once, and an unbound one nothing, and the result is
     * nil. What the spawned function does, or whether its Request can be
     * built, never reaches the result.
     */
    method Handler(hooks: Hooks, providerName: string, request: Option<HttpRequest>)
      returns (err: Option<HookError>, hook: Webhook?)
      modifies this
      ensures handlerFuncs == old(handlerFuncs)
      ensures providerName !in hooks.providers ==>
                err == Some(HookFailure("Provider is not registered")) && effects == old(effects) + [Responded(201)]
      ensures providerName in hooks.providers && hooks.providers[providerName].None? ==>
                err == Some(HookFailure("Provider is nil")) && effects == old(effects) + [Responded(201)]
      ensures providerName in hooks.providers && hooks.providers[providerName].Some? && request.None? ==>
                err == Some(HookFailure("Request is not provided")) && effects == old(effects) + [Responded(201)]
      ensures providerName in hooks.providers && hooks.providers[providerName].Some? && request.Some? ==>
                var (v, e) := hooks.providers[providerName].value(Blank(), request.value);
                && hook != null && fresh(hook) && hook.provider.view == v
                && (e.Some? ==> err == e && effects == old(effects) + [Responded(201)])
                && (e.None? ==>
                      && err.None?
                      && (hook.event, hook.args, hook.noteId) == Fields(v.cmd, v.noteId, "", "", 0)
                      && effects == old(effects) + [Responded(201)]
                                   + (if hook.event in handlerFuncs then [Spawned(providerName, handlerFuncs[hook.event], hook)] else []))
    {
      effects := effects + [Responded(201)];
      var e;
      hook, e := hooks.New(providerName);
      if e.Some? {
        return e, hook;
      }
      err := hook.ParseRequest(request);
      if err.Some? {
        return;
      }
      if hook.event in handlerFuncs {
        effects := effects + [Spawned(providerName, handlerFuncs[hook.event], hook)];
      }
      err := None;
    }
  }
}

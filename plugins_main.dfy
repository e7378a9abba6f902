/**
 * The plugin loader of the main package (plugins.go): the same list
 * handling and URL rewrite as the plugins package, for WebAssembly
 * manifests, whose handlers are bound on the bot under the manifest's
 * command.
 *
 * Its GitHub rewrite exchanges the host for one without the trailing
 * slash, so the owner's name is glued onto the host. The rewrite as written
 * is kept beside the intended one, which the loader uses.
 */
module MainPlugins {
  import opened Wrappers
  import opened Strings
  import opened Bot
  import Plugins

  /** The host prefix exactly as getManifest spells it: no trailing slash. */
  const RawGithubHost: string := "https://raw.githubusercontent.com"

  datatype PluginConfig = PluginConfig(exportedFunction: string, path: string, envVars: seq<string>, allowedHosts: seq<string>)

  /** A manifest as the YAML gives it. */
  datatype Manifest = Manifest(name: string, command: string, config: PluginConfig)

  /** getManifest's rewrite as written. */
  function ManifestPathAsWritten(path: string): string {
    if HasPrefix(path, Plugins.GithubUrl) then
      ReplaceFirst(ReplaceFirst(path, Plugins.GithubUrl, RawGithubHost), "blob", "refs/heads")
    else if HasPrefix(path, Plugins.GitlabUrl) then ReplaceFirst(path, "-/blob/", "-/raw/")
    else path
  }

  /** getManifest's rewrite as intended: the raw host keeps its slash. */
  function ManifestPath(path: string): string {
    if HasPrefix(path, Plugins.GithubUrl) then
      ReplaceFirst(ReplaceFirst(path, Plugins.GithubUrl, Plugins.RawGithubUrl), "blob", "refs/heads")
    else if HasPrefix(path, Plugins.GitlabUrl) then ReplaceFirst(path, "-/blob/", "-/raw/")
    else path
  }

  /**
   * As written, a GitHub URL whose owner does not start with "blob" is sent
   * to a host named after "raw.githubusercontent.com" with the owner's
   * first character glued on: the result never starts with the raw host
   * followed by a slash.
   */
  lemma AsWrittenGluesOwnerToHost(path: string)
    requires HasPrefix(path, Plugins.GithubUrl) && |path| > |Plugins.GithubUrl|
    requires path[|Plugins.GithubUrl|] != '/' && !OccursAt(path[|Plugins.GithubUrl|..], "blob", 0)
    ensures var r := ManifestPathAsWritten(path);
            && |r| > |RawGithubHost| && r[..|RawGithubHost|] == RawGithubHost
            && r[|RawGithubHost|] == path[|Plugins.GithubUrl|]
            && !HasPrefix(r, Plugins.RawGithubUrl)
  {
    var rest := path[|Plugins.GithubUrl|..];
    ReplacePrefix(path, Plugins.GithubUrl, RawGithubHost);
    NoOccurrenceInHeadByPair(RawGithubHost, rest, "blob");
    ReplaceFirstSkipsHead(RawGithubHost, rest, "blob", "refs/heads");
    var tail := ReplaceFirst(rest, "blob", "refs/heads");
    assert |tail| > 0 && tail[0] == rest[0] by {
      match Index(rest, "blob")
      case None =>
      case Some(k) =>
        ReplaceFirstAt(rest, "blob", "refs/heads", k);
        assert k != 0;
        assert tail == rest[..k] + "refs/heads" + rest[k + 4..];
    }
    var r := ManifestPathAsWritten(path);
    assert r == RawGithubHost + tail;
    assert r[|RawGithubHost|] == tail[0];
    assert Plugins.RawGithubUrl[|RawGithubHost|] == '/';
  }

  /** A concrete case: "https://github.com/o/r/blob/main/p.yaml" is fetched from host "raw.githubusercontent.como". */
  lemma AsWrittenExample()
    ensures var r := ManifestPathAsWritten("https://github.com/o/r/blob/main/p.yaml");
            r[..|RawGithubHost| + 1] == "https://raw.githubusercontent.como" && !HasPrefix(r, Plugins.RawGithubUrl)
  {
    var path := "https://github.com/o/r/blob/main/p.yaml";
    assert HasPrefix(path, Plugins.GithubUrl);
    assert path[|Plugins.GithubUrl|..][0] == 'o';
    AsWrittenGluesOwnerToHost(path);
    var r := ManifestPathAsWritten(path);
    TakeOneMore(r, |RawGithubHost|);
    assert RawGithubHost + ['o'] == "https://raw.githubusercontent.como";
  }

  /**
   * As intended, a GitHub URL is fetched from raw.githubusercontent.com,
   * with the path after the host kept and its first "blob" turned into
   * "refs/heads".
   */
  lemma GithubManifestPath(path: string)
    requires HasPrefix(path, Plugins.GithubUrl)
    ensures ManifestPath(path) == Plugins.RawGithubUrl + ReplaceFirst(path[|Plugins.GithubUrl|..], "blob", "refs/heads")
    ensures HasPrefix(ManifestPath(path), Plugins.RawGithubUrl)
    ensures Plugins.FileSource(ManifestPath(path)) == Plugins.Download(ManifestPath(path))
  {
    var rest := path[|Plugins.GithubUrl|..];
    var tail := ReplaceFirst(rest, "blob", "refs/heads");
    assert ManifestPath(path) == Plugins.RawGithubUrl + tail by {
      ReplacePrefix(path, Plugins.GithubUrl, Plugins.RawGithubUrl);
      NoOccurrenceInHeadByPair(Plugins.RawGithubUrl, rest, "blob");
      ReplaceFirstSkipsHead(Plugins.RawGithubUrl, rest, "blob", "refs/heads");
    }
    PrefixOfConcat(Plugins.RawGithubUrl, tail, Plugins.RawGithubUrl);
    assert HasPrefix(Plugins.RawGithubUrl, Plugins.Https);
    PrefixOfConcat(Plugins.RawGithubUrl, tail, Plugins.Https);
  }

  /** Away from GitHub the two packages rewrite alike, and the slash is the only difference. */
  lemma RewritesAgreeOffGithub(path: string)
    requires !HasPrefix(path, Plugins.GithubUrl)
    ensures ManifestPath(path) == ManifestPathAsWritten(path) == Plugins.ManifestPath(path)
  {
  }

  /** buildWasmPlugin: a handler for the manifest, or None for its error. */
  type Build<F> = Manifest -> Option<F>
  type Decode = string -> Option<Manifest>

  /** getManifest: the rewritten path fetched, then decoded; None for either error. */
  function GetManifest(fetch: Plugins.Fetch, decode: Decode, path: string): Option<Manifest> {
    match fetch(Plugins.FileSource(ManifestPath(path)))
    case None => None
    case Some(file) => decode(file)
  }

  /**
   * The body of loadPlugins' loop for one entry: the command and handler it
   * binds, or None when the trimmed entry is empty, getManifest fails or the
   * build fails, each of which skips the entry.
   */
  function LoadEntry<F>(fetch: Plugins.Fetch, decode: Decode, build: Build<F>, raw: string): Option<(string, F)> {
    var url := TrimSpace(raw);
    if url == "" then None
    else
      match GetManifest(fetch, decode, url)
      case None => None
      case Some(manifest) =>
        match build(manifest)
        case None => None
        case Some(handler) => Some((manifest.command, handler))
  }

  /**
   * An entry is skipped iff it is blank, its manifest cannot be fetched or
   * parsed, or no handler can be built from it; otherwise it binds the
   * manifest's command to the handler built from that manifest.
   */
  lemma LoadEntrySkips<F>(fetch: Plugins.Fetch, decode: Decode, build: Build<F>, raw: string)
    ensures var url := TrimSpace(raw);
            var file := fetch(Plugins.FileSource(ManifestPath(url)));
            var ok := && url != "" && file.Some? && decode(file.value).Some?
                      && build(decode(file.value).value).Some?;
            && (LoadEntry(fetch, decode, build, raw).None? <==> !ok)
            && (ok ==> LoadEntry(fetch, decode, build, raw) ==
                         Some((decode(file.value).value.command, build(decode(file.value).value).value)))
  {
  }

  /** Each entry's outcome, in list order. */
  function Loads<F>(fetch: Plugins.Fetch, decode: Decode, build: Build<F>, entries: seq<string>): (r: seq<Option<(string, F)>>)
    ensures |r| == |entries|
    ensures forall i :: 0 <= i < |entries| ==> r[i] == LoadEntry(fetch, decode, build, entries[i])
  {
    seq(|entries|, i requires 0 <= i < |entries| => LoadEntry(fetch, decode, build, entries[i]))
  }

  /** The outcome binds command c. */
  predicate Binds<F>(loaded: Option<(string, F)>, c: string) {
    loaded.Some? && loaded.value.0 == c
  }

  /** The bindings after the outcomes, each loaded entry binding its command in turn. */
  function Registered<F>(m: map<string, F>, loads: seq<Option<(string, F)>>): map<string, F>
    decreases |loads|
  {
    if loads == [] then m
    else
      var before := Registered(m, loads[..|loads| - 1]);
      match loads[|loads| - 1]
      case None => before
      case Some((c, h)) => before[c := h]
  }

  /** The last outcome either leaves command c alone or binds it to its handler. */
  lemma RegisteredLast<F>(m: map<string, F>, loads: seq<Option<(string, F)>>, c: string)
    requires loads != []
    ensures var r := Registered(m, loads);
            var ri := Registered(m, loads[..|loads| - 1]);
            var e := loads[|loads| - 1];
            && (c in r <==> c in ri || Binds(e, c))
            && (Binds(e, c) ==> r[c] == e.value.1)
            && (!Binds(e, c) && c in ri ==> r[c] == ri[c])
  {
  }

  /** Some outcome binds command c. */
  predicate SomeBinds<F>(loads: seq<Option<(string, F)>>, c: string) {
    exists j :: 0 <= j < |loads| && Binds(loads[j], c)
  }

  lemma SomeBindsLast<F>(loads: seq<Option<(string, F)>>, c: string)
    requires loads != []
    ensures SomeBinds(loads, c) <==> SomeBinds(loads[..|loads| - 1], c) || Binds(loads[|loads| - 1], c)
  {
    var init := loads[..|loads| - 1];
    if SomeBinds(loads, c) {
      var j :| 0 <= j < |loads| && Binds(loads[j], c);
      if j < |init| {
        assert init[j] == loads[j];
      }
    }
    if SomeBinds(init, c) {
      var j :| 0 <= j < |init| && Binds(init[j], c);
      assert loads[j] == init[j];
    }
  }

  /** Command c is bound after loading iff it was bound before or some entry binds it. */
  lemma {:induction false} RegisteredDomain<F>(m: map<string, F>, loads: seq<Option<(string, F)>>, c: string)
    ensures c in Registered(m, loads) <==> c in m || SomeBinds(loads, c)
    decreases |loads|
  {
    if loads != [] {
      RegisteredDomain(m, loads[..|loads| - 1], c);
      RegisteredLast(m, loads, c);
      SomeBindsLast(loads, c);
    }
  }

  /** A command that no entry binds keeps the function it had. */
  lemma {:induction false} RegisteredUntouched<F>(m: map<string, F>, loads: seq<Option<(string, F)>>, c: string)
    requires c in m
    requires forall j :: 0 <= j < |loads| ==> !Binds(loads[j], c)
    ensures c in Registered(m, loads) && Registered(m, loads)[c] == m[c]
    decreases |loads|
  {
    if loads != [] {
      var init := loads[..|loads| - 1];
      assert forall j :: 0 <= j < |init| ==> init[j] == loads[j];
      RegisteredUntouched(m, init, c);
      RegisteredLast(m, loads, c);
    }
  }

  /** The last entry that binds command c decides its function. */
  lemma {:induction false} RegisteredLastWins<F>(m: map<string, F>, loads: seq<Option<(string, F)>>, c: string, j: nat)
    requires j < |loads| && Binds(loads[j], c)
    requires forall k :: j < k < |loads| ==> !Binds(loads[k], c)
    ensures c in Registered(m, loads) && Registered(m, loads)[c] == loads[j].value.1
    decreases |loads|
  {
    var init := loads[..|loads| - 1];
    RegisteredLast(m, loads, c);
    if j < |init| {
      assert forall k :: j < k < |init| ==> init[k] == loads[k];
      assert init[j] == loads[j];
      RegisteredLastWins(m, init, c, j);
    }
  }

  /** loadPlugins' effect on the bindings: none for an empty list, else the entries' bindings in order. */
  function LoadedBindings<F>(fetch: Plugins.Fetch, decode: Decode, build: Build<F>, m: map<string, F>, plugins: string): map<string, F> {
    if plugins == "" then m else Registered(m, Loads(fetch, decode, build, Split(plugins, ',')))
  }

  lemma RegisteredStep<F>(m: map<string, F>, loads: seq<Option<(string, F)>>, i: nat)
    requires i < |loads|
    ensures Registered(m, loads[..i + 1]) ==
            match loads[i]
            case None => Registered(m, loads[..i])
            case Some((c, h)) => Registered(m, loads[..i])[c := h]
  {
    assert loads[..i + 1][..i] == loads[..i];
    assert loads[..i + 1][i] == loads[i];
  }

  /** loadPlugins: bind each plugin that could be fetched, parsed and built under its command. */
  method LoadPlugins<F>(bot: Bot<F>, plugins: string, fetch: Plugins.Fetch, decode: Decode, build: Build<F>)
    modifies bot
    ensures bot.handlerFuncs == LoadedBindings(fetch, decode, build, old(bot.handlerFuncs), plugins)
    ensures bot.effects == old(bot.effects)
  {
    if plugins == "" {
      return;
    }
    var entries := Split(plugins, ',');
    ghost var loads := Loads(fetch, decode, build, entries);
    var i := 0;
    while i < |entries|
      invariant 0 <= i <= |entries|
      invariant bot.handlerFuncs == Registered(old(bot.handlerFuncs), loads[..i])
      invariant bot.effects == old(bot.effects)
    {
      var loaded := LoadEntry(fetch, decode, build, entries[i]);
      assert loaded == loads[i];
      RegisteredStep(old(bot.handlerFuncs), loads, i);
      if loaded.Some? {
        bot.Handle(loaded.value.0, loaded.value.1);
      }
      i := i + 1;
    }
    assert loads[..|entries|] == loads;
  }
}

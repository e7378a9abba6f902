/**
 * The plugin loader of the plugins package (plugins/plugins.go): the
 * rewrite of a GitHub or GitLab page URL into the URL of the raw file,
 * where a manifest's bytes come from, the registry of runtime engines, and
 * Load, which hands over, in list order, every plugin of the
 * comma-separated list that could be fetched, parsed and built.
 *
 * Downloading, reading files, YAML parsing and the engines' constructors
 * are parameters of the model.
 */
module Plugins {
  import opened Wrappers
  import opened Strings

  const GithubUrl: string := "https://github.com/"
  const GitlabUrl: string := "https://gitlab.com/"
  const RawGithubUrl: string := "https://raw.githubusercontent.com/"
  const Https: string := "https://"

  /** Where getFile takes a file from. */
  datatype Source = Download(url: string) | ReadFile(path: string)

  /** getFile: an "https://" path is downloaded, anything else is read from disk. */
  function FileSource(path: string): Source {
    if HasPrefix(path, Https) then Download(path) else ReadFile(path)
  }

  /** getManifest's rewrite of the path before fetching it. */
  function ManifestPath(path: string): string {
    if HasPrefix(path, GithubUrl) then ReplaceFirst(ReplaceFirst(path, GithubUrl, RawGithubUrl), "blob/", "")
    else if HasPrefix(path, GitlabUrl) then ReplaceFirst(path, "-/blob/", "-/raw/")
    else path
  }

  /** No "blob/" starts inside the raw host prefix: its only 'b' is followed by 'u'. */
  lemma NoBlobInRawGithubUrl(tail: string)
    ensures forall j :: 0 <= j < |RawGithubUrl| ==> !OccursAt(RawGithubUrl + tail, "blob/", j)
  {
    NoOccurrenceInHeadByPair(RawGithubUrl, tail, "blob/");
  }

  /**
   * A GitHub page URL is fetched from raw.githubusercontent.com: the host
   * is exchanged, and the first "blob/" after it is dropped.
   */
  lemma GithubManifestPath(path: string)
    requires HasPrefix(path, GithubUrl)
    ensures ManifestPath(path) == RawGithubUrl + ReplaceFirst(path[|GithubUrl|..], "blob/", "")
    ensures HasPrefix(ManifestPath(path), RawGithubUrl)
    ensures FileSource(ManifestPath(path)) == Download(ManifestPath(path))
  {
    var rest := path[|GithubUrl|..];
    var tail := ReplaceFirst(rest, "blob/", "");
    assert ManifestPath(path) == RawGithubUrl + tail by {
      ReplacePrefix(path, GithubUrl, RawGithubUrl);
      NoBlobInRawGithubUrl(rest);
      ReplaceFirstSkipsHead(RawGithubUrl, rest, "blob/", "");
    }
    PrefixOfConcat(RawGithubUrl, tail, RawGithubUrl);
    assert HasPrefix(RawGithubUrl, Https);
    PrefixOfConcat(RawGithubUrl, tail, Https);
  }

  /** A GitLab page URL keeps its host; its first "-/blob/" becomes "-/raw/". */
  lemma GitlabManifestPath(path: string)
    requires HasPrefix(path, GitlabUrl)
    ensures ManifestPath(path) == GitlabUrl + ReplaceFirst(path[|GitlabUrl|..], "-/blob/", "-/raw/")
    ensures FileSource(ManifestPath(path)) == Download(ManifestPath(path))
  {
    var rest := path[|GitlabUrl|..];
    var tail := ReplaceFirst(rest, "-/blob/", "-/raw/");
    assert ManifestPath(path) == GitlabUrl + tail by {
      assert path == GitlabUrl + rest;
      assert !HasPrefix(path, GithubUrl) by {
        assert path[8] == 'g' && GithubUrl[8] == 'g';
        assert path[9] == 'i' && GithubUrl[9] == 'i';
        assert path[10] == 't' && GithubUrl[10] == 't';
        assert path[11] == 'l' != GithubUrl[11];
      }
      NoOccurrenceInHead(GitlabUrl, rest, "-/blob/");
      ReplaceFirstSkipsHead(GitlabUrl, rest, "-/blob/", "-/raw/");
    }
    assert HasPrefix(GitlabUrl, Https);
    PrefixOfConcat(GitlabUrl, tail, Https);
  }

  /** Any other path is fetched as it is. */
  lemma OtherManifestPath(path: string)
    requires !HasPrefix(path, GithubUrl) && !HasPrefix(path, GitlabUrl)
    ensures ManifestPath(path) == path
  {
  }

  /** A manifest as the YAML gives it. */
  datatype Manifest = Manifest(name: string, command: string, runtime: string)

  /** A loaded plugin: its manifest, with the handler its engine built. */
  datatype Plugin<H> = Plugin(manifest: Manifest, handler: H)

  /** An engine's constructor: from the manifest file, a handler, or None for its error. */
  type Constructor<H> = string -> Option<H>

  /** Fetching a file (None for an error) and parsing a manifest (None for a YAML error). */
  type Fetch = Source -> Option<string>
  type Decode = string -> Option<Manifest>

  /** One entry of the list: the plugin it yields, or None when it is skipped. */
  function LoadEntry<H>(fetch: Fetch, decode: Decode, engines: map<string, Constructor<H>>, raw: string): Option<Plugin<H>> {
    var url := TrimSpace(raw);
    if url == "" then None
    else
      match fetch(FileSource(ManifestPath(url)))
      case None => None
      case Some(file) =>
        match decode(file)
        case None => None
        case Some(manifest) =>
          if manifest.runtime !in engines then None
          else
            match engines[manifest.runtime](file)
            case None => None
            case Some(handler) => Some(Plugin(manifest, handler))
  }

  /**
   * An entry is skipped iff it is blank, its manifest cannot be fetched or
   * parsed, its runtime has no engine, or the engine fails to build it;
   * otherwise it yields the parsed manifest with the handler built from
   * the same file.
   */
  lemma LoadEntrySkips<H>(fetch: Fetch, decode: Decode, engines: map<string, Constructor<H>>, raw: string)
    ensures var url := TrimSpace(raw);
            var file := fetch(FileSource(ManifestPath(url)));
            var ok := && url != "" && file.Some? && decode(file.value).Some?
                      && decode(file.value).value.runtime in engines
                      && engines[decode(file.value).value.runtime](file.value).Some?;
            && (LoadEntry(fetch, decode, engines, raw).None? <==> !ok)
            && (ok ==> LoadEntry(fetch, decode, engines, raw) ==
                         Some(Plugin(decode(file.value).value, engines[decode(file.value).value.runtime](file.value).value)))
  {
  }

  /** The plugins of the entries, in entry order, skipped entries left out. */
  function Built<H>(fetch: Fetch, decode: Decode, engines: map<string, Constructor<H>>, entries: seq<string>): seq<Plugin<H>>
    decreases |entries|
  {
    if entries == [] then []
    else
      var init := Built(fetch, decode, engines, entries[..|entries| - 1]);
      match LoadEntry(fetch, decode, engines, entries[|entries| - 1])
      case None => init
      case Some(p) => init + [p]
  }

  /** Entries are loaded independently of one another: the plugins of a + b are those of a, then those of b. */
  lemma {:induction false} BuiltAppend<H>(fetch: Fetch, decode: Decode, engines: map<string, Constructor<H>>,
                                         a: seq<string>, b: seq<string>)
    ensures Built(fetch, decode, engines, a + b) == Built(fetch, decode, engines, a) + Built(fetch, decode, engines, b)
    decreases |b|
  {
    if b == [] {
      assert a + b == a;
    } else {
      var b' := b[..|b| - 1];
      assert (a + b)[..|a + b| - 1] == a + b';
      assert (a + b)[|a + b| - 1] == b[|b| - 1];
      BuiltAppend(fetch, decode, engines, a, b');
    }
  }

  /** The plugins of one more entry. */
  lemma BuiltStep<H>(fetch: Fetch, decode: Decode, engines: map<string, Constructor<H>>, entries: seq<string>, i: nat)
    requires i < |entries|
    ensures Built(fetch, decode, engines, entries[..i + 1]) ==
            Built(fetch, decode, engines, entries[..i]) +
            (match LoadEntry(fetch, decode, engines, entries[i]) case None => [] case Some(p) => [p])
  {
    assert entries[..i + 1][..i] == entries[..i];
    assert entries[..i + 1][i] == entries[i];
  }

  /** Every plugin built comes from one of the entries, and there are no more plugins than entries. */
  lemma {:induction false} BuiltFromEntries<H>(fetch: Fetch, decode: Decode, engines: map<string, Constructor<H>>,
                                              entries: seq<string>)
    ensures |Built(fetch, decode, engines, entries)| <= |entries|
    ensures forall k :: 0 <= k < |Built(fetch, decode, engines, entries)| ==>
              exists j :: 0 <= j < |entries| && LoadEntry(fetch, decode, engines, entries[j]) == Some(Built(fetch, decode, engines, entries)[k])
    decreases |entries|
  {
    if entries != [] {
      var init := entries[..|entries| - 1];
      BuiltFromEntries(fetch, decode, engines, init);
      var b := Built(fetch, decode, engines, entries);
      var bi := Built(fetch, decode, engines, init);
      forall k | 0 <= k < |b|
        ensures exists j :: 0 <= j < |entries| && LoadEntry(fetch, decode, engines, entries[j]) == Some(b[k])
      {
        if k < |bi| {
          assert b[k] == bi[k];
          var j :| 0 <= j < |init| && LoadEntry(fetch, decode, engines, init[j]) == Some(bi[k]);
          assert entries[j] == init[j];
        } else {
          assert LoadEntry(fetch, decode, engines, entries[|entries| - 1]) == Some(b[k]);
        }
      }
    }
  }

  /** What a list of plugins hands over to a consumer that may stop: up to and including the first it declines to continue after. */
  function Yielded<H>(ps: seq<Plugin<H>>, more: Plugin<H> -> bool): (ys: seq<Plugin<H>>)
    ensures |ys| <= |ps| && ys == ps[..|ys|]
    ensures forall k :: 0 <= k < |ys| - 1 ==> more(ys[k])
    ensures |ys| < |ps| ==> |ys| > 0 && !more(ys[|ys| - 1])
    ensures (forall k :: 0 <= k < |ps| ==> more(ps[k])) ==> ys == ps
    decreases |ps|
  {
    if ps == [] then []
    else if !more(ps[0]) then [ps[0]]
    else
      var rest := Yielded(ps[1..], more);
      assert forall k :: 1 <= k < |ps| ==> ps[k] == ps[1..][k - 1];
      [ps[0]] + rest
  }

  /** Handing over continues past a prefix the consumer accepted in full. */
  lemma {:induction false} YieldedAfterAccepted<H>(xs: seq<Plugin<H>>, ys: seq<Plugin<H>>, more: Plugin<H> -> bool)
    requires forall k :: 0 <= k < |xs| ==> more(xs[k])
    ensures Yielded(xs + ys, more) == xs + Yielded(ys, more)
    decreases |xs|
  {
    if xs == [] {
      assert xs + ys == ys;
    } else {
      assert (xs + ys)[0] == xs[0];
      assert (xs + ys)[1..] == xs[1..] + ys;
      YieldedAfterAccepted(xs[1..], ys, more);
      assert [xs[0]] + xs[1..] == xs;
    }
  }

  lemma BuiltSplit<H>(fetch: Fetch, decode: Decode, engines: map<string, Constructor<H>>, entries: seq<string>, i: nat)
    requires i <= |entries|
    ensures Built(fetch, decode, engines, entries) ==
            Built(fetch, decode, engines, entries[..i]) + Built(fetch, decode, engines, entries[i..])
  {
    assert entries[..i] + entries[i..] == entries;
    BuiltAppend(fetch, decode, engines, entries[..i], entries[i..]);
  }

  /** Stopping after entry i's plugin p hands over exactly what Yielded does. */
  lemma YieldedRest<H>(fetch: Fetch, decode: Decode, engines: map<string, Constructor<H>>, entries: seq<string>, i: nat,
                       before: seq<Plugin<H>>, p: Plugin<H>, more: Plugin<H> -> bool)
    requires i < |entries|
    requires before + [p] == Built(fetch, decode, engines, entries[..i + 1])
    requires forall k :: 0 <= k < |before| ==> more(before[k])
    requires !more(p)
    ensures Yielded(Built(fetch, decode, engines, entries), more) == before + [p]
  {
    var rest := Built(fetch, decode, engines, entries[i + 1..]);
    var all := Built(fetch, decode, engines, entries);
    BuiltSplit(fetch, decode, engines, entries, i + 1);
    Concat3(before, [p], rest);
    assert Yielded([p] + rest, more) == [p] by {
      assert ([p] + rest)[0] == p;
    }
    assert Yielded(all, more) == before + Yielded([p] + rest, more) by {
      YieldedAfterAccepted(before, [p] + rest, more);
    }
  }

  /** Load's whole sequence: nothing for an empty list, else the plugins of the comma-separated entries. */
  function Loadable<H>(plugins: string, fetch: Fetch, decode: Decode, engines: map<string, Constructor<H>>): seq<Plugin<H>> {
    if plugins == "" then [] else Built(fetch, decode, engines, Split(plugins, ','))
  }

  /** The early return on an empty list changes nothing: its one entry is blank. */
  lemma EmptyListLoadsNothing<H>(fetch: Fetch, decode: Decode, engines: map<string, Constructor<H>>)
    ensures Built(fetch, decode, engines, Split("", ',')) == []
    ensures Loadable("", fetch, decode, engines) == []
  {
    assert Split("", ',') == [""];
    assert [""][..0] == [];
  }

  /** The engines registry: runtime name to constructor. */
  class Engines<H> {
    var engines: map<string, Constructor<H>>

    constructor()
      ensures engines == map[]
    {
      engines := map[];
    }

    /** Register: the named runtime now builds with `build`, replacing any earlier engine of that name. */
    method Register(name: string, build: Constructor<H>)
      modifies this
      ensures engines == old(engines)[name := build]
    {
      engines := engines[name := build];
    }

    /** Load with `more` as the consumer (yield's result): the plugins handed over, in order. */
    method Load(plugins: string, fetch: Fetch, decode: Decode, more: Plugin<H> -> bool) returns (yielded: seq<Plugin<H>>)
      ensures yielded == Yielded(Loadable(plugins, fetch, decode, engines), more)
    {
      yielded := [];
      if plugins == "" {
        return;
      }
      var entries := Split(plugins, ',');
      var i := 0;
      while i < |entries|
        invariant 0 <= i <= |entries|
        invariant yielded == Built(fetch, decode, engines, entries[..i])
        invariant forall k :: 0 <= k < |yielded| ==> more(yielded[k])
      {
        BuiltStep(fetch, decode, engines, entries, i);
        var url := TrimSpace(entries[i]);
        var loaded: Option<Plugin<H>> := None;
        if url != "" {
          var file := fetch(FileSource(ManifestPath(url)));
          if file.Some? {
            var manifest := decode(file.value);
            if manifest.Some? && manifest.value.runtime in engines {
              var handler := engines[manifest.value.runtime](file.value);
              if handler.Some? {
                loaded := Some(Plugin(manifest.value, handler.value));
              }
            }
          }
        }
        assert loaded == LoadEntry(fetch, decode, engines, entries[i]);
        if loaded.Some? {
          ghost var before := yielded;
          yielded := yielded + [loaded.value];
          if !more(loaded.value) {
            YieldedRest(fetch, decode, engines, entries, i, before, loaded.value, more);
            return;
          }
        }
        i := i + 1;
      }
      assert entries[..|entries|] == entries;
    }
  }
}

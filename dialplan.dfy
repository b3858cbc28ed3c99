/** The dialplan assembler and the translator service around it: the text of
    a context list (a header per context, a line per extension followed by
    the compiled script when one is attached), the loading of the full
    scripts, and the single cache field that holds the last dialplan
    assembled without failure. */
module Dialplan {
  import opened Graph
  import opened BranchCompiler

  // ---------------------------------------------------------------------
  // Partial texts

  /** Two partial texts, one after the other; the first failure wins, as the
      first exception ends the translation. */
  function Join(a: Result<string>, b: Result<string>): Result<string>
  {
    match a
    case Err(e) => Err(e)
    case Ok(x) =>
      match b
      case Err(e) => Err(e)
      case Ok(y) => Ok(x + y)
  }

  lemma JoinAssoc(a: Result<string>, b: Result<string>, c: Result<string>)
    ensures Join(Join(a, b), c) == Join(a, Join(b, c))
  {
    if a.Ok? && b.Ok? && c.Ok? {
      assert (a.value + b.value) + c.value == a.value + (b.value + c.value);
    }
  }

  lemma JoinOk(p: string, q: string, x: Result<string>)
    ensures Join(Ok(p), Join(Ok(q), x)) == Join(Ok(p + q), x)
  {
    if x.Ok? {
      assert p + (q + x.value) == (p + q) + x.value;
    }
  }

  lemma JoinEmpty(x: Result<string>)
    ensures Join(Ok(""), x) == x && Join(x, Ok("")) == x
  {
    if x.Ok? {
      assert "" + x.value == x.value && x.value + "" == x.value;
    }
  }

  // ---------------------------------------------------------------------
  // The text of a context list

  function ContextHeader(c: Context): string
  {
    "[" + c.name + "]\n"
  }

  function ExtensionHeader(e: Extension): string
  {
    "exten = " + e.name + ",1,NoOp()\n"
  }

  /** The compiled script of an extension; nothing when none is attached. */
  function Attached(e: Extension, renderer: Renderer, host: string): Result<string>
  {
    match e.script
    case None => Ok("")
    case Some(s) => ScriptText(s, renderer, host)
  }

  /** An extension whose attached script cannot be compiled. */
  ghost predicate CompileFails(e: Extension, renderer: Renderer, host: string)
  {
    Attached(e, renderer, host).Err?
  }

  function ExtensionText(e: Extension, renderer: Renderer, host: string): Result<string>
  {
    Join(Ok(ExtensionHeader(e)), Attached(e, renderer, host))
  }

  /** The extensions of one context, in order. */
  function ExtensionsText(es: seq<Extension>, renderer: Renderer, host: string): Result<string>
    decreases |es|
  {
    if es == [] then Ok("")
    else Join(ExtensionText(es[0], renderer, host), ExtensionsText(es[1..], renderer, host))
  }

  /** The extensions translate unless an attached script fails to compile,
      and then the first such script's error is the result. */
  lemma {:induction false} ExtensionsTextFails(es: seq<Extension>, renderer: Renderer, host: string)
    ensures ExtensionsText(es, renderer, host).Ok? <==> forall k :: 0 <= k < |es| ==> !CompileFails(es[k], renderer, host)
    ensures ExtensionsText(es, renderer, host).Err? ==> exists k ::
      && 0 <= k < |es|
      && Attached(es[k], renderer, host) == Err(ExtensionsText(es, renderer, host).error)
      && forall j :: 0 <= j < k ==> !CompileFails(es[j], renderer, host)
    decreases |es|
  {
    if es != [] {
      ExtensionsTextFails(es[1..], renderer, host);
      assert forall k :: 1 <= k < |es| ==> es[k] == es[1..][k - 1];
      var r := ExtensionsText(es, renderer, host);
      if r.Err? && !CompileFails(es[0], renderer, host) {
        var k :| 0 <= k < |es[1..]| && Attached(es[1..][k], renderer, host) == Err(r.error)
          && forall j :: 0 <= j < k ==> !CompileFails(es[1..][j], renderer, host);
        assert Attached(es[k + 1], renderer, host) == Err(r.error);
      }
    }
  }

  function ContextText(c: Context, renderer: Renderer, host: string): Result<string>
  {
    Join(Ok(ContextHeader(c)), ExtensionsText(c.extensions, renderer, host))
  }

  /** `translateContexts`: the contexts in order; the first broken script
      ends the translation with its error. */
  function ContextsText(cs: seq<Context>, renderer: Renderer, host: string): Result<string>
    decreases |cs|
  {
    if cs == [] then Ok("")
    else Join(ContextText(cs[0], renderer, host), ContextsText(cs[1..], renderer, host))
  }

  /** The contexts translate unless the extensions of one of them fail to,
      and then the first such context's error is the result. */
  lemma {:induction false} ContextsTextFails(cs: seq<Context>, renderer: Renderer, host: string)
    ensures ContextsText(cs, renderer, host).Ok? <==>
      forall i :: 0 <= i < |cs| ==> ExtensionsText(cs[i].extensions, renderer, host).Ok?
    ensures ContextsText(cs, renderer, host).Err? ==> exists i ::
      && 0 <= i < |cs|
      && ExtensionsText(cs[i].extensions, renderer, host) == Err(ContextsText(cs, renderer, host).error)
      && forall j :: 0 <= j < i ==> ExtensionsText(cs[j].extensions, renderer, host).Ok?
    decreases |cs|
  {
    if cs != [] {
      ContextsTextFails(cs[1..], renderer, host);
      assert forall i :: 1 <= i < |cs| ==> cs[i] == cs[1..][i - 1];
      var r := ContextsText(cs, renderer, host);
      if r.Err? && ExtensionsText(cs[0].extensions, renderer, host).Ok? {
        var i :| 0 <= i < |cs[1..]| && ExtensionsText(cs[1..][i].extensions, renderer, host) == Err(r.error)
          && forall j :: 0 <= j < i ==> ExtensionsText(cs[1..][j].extensions, renderer, host).Ok?;
        assert ExtensionsText(cs[i + 1].extensions, renderer, host) == Err(r.error);
      }
    }
  }

  /** Translating two lists of contexts one after the other is translating
      their concatenation. */
  lemma {:induction false} ContextsConcat(cs1: seq<Context>, cs2: seq<Context>, renderer: Renderer, host: string)
    ensures ContextsText(cs1 + cs2, renderer, host) ==
      Join(ContextsText(cs1, renderer, host), ContextsText(cs2, renderer, host))
    decreases |cs1|
  {
    if cs1 == [] {
      assert cs1 + cs2 == cs2;
      JoinEmpty(ContextsText(cs2, renderer, host));
    } else {
      assert (cs1 + cs2)[0] == cs1[0];
      assert (cs1 + cs2)[1..] == cs1[1..] + cs2;
      ContextsConcat(cs1[1..], cs2, renderer, host);
      JoinAssoc(ContextText(cs1[0], renderer, host), ContextsText(cs1[1..], renderer, host), ContextsText(cs2, renderer, host));
    }
  }

  /** A context whose extensions have no scripts attached translates to its
      header followed by one line per extension. */
  lemma {:induction false} ScriptlessContext(c: Context, renderer: Renderer, host: string)
    requires forall k :: 0 <= k < |c.extensions| ==> c.extensions[k].script.None?
    ensures ContextText(c, renderer, host) == Ok(ContextHeader(c) + HeaderLines(c.extensions))
  {
    ScriptlessExtensions(c.extensions, renderer, host);
  }

  /** The extension lines of a list of extensions. */
  function HeaderLines(es: seq<Extension>): string
    decreases |es|
  {
    if es == [] then "" else ExtensionHeader(es[0]) + HeaderLines(es[1..])
  }

  lemma {:induction false} ScriptlessExtensions(es: seq<Extension>, renderer: Renderer, host: string)
    requires forall k :: 0 <= k < |es| ==> es[k].script.None?
    ensures ExtensionsText(es, renderer, host) == Ok(HeaderLines(es))
    decreases |es|
  {
    if es != [] {
      assert es[0].script.None?;
      assert ExtensionHeader(es[0]) + "" == ExtensionHeader(es[0]);
      ScriptlessExtensions(es[1..], renderer, host);
    }
  }

  /** `translateContexts`, appending to its buffer in two nested loops. */
  method TranslateContexts(cs: seq<Context>, renderer: Renderer, host: string) returns (r: Result<string>)
    ensures r == ContextsText(cs, renderer, host)
  {
    var result := "";
    JoinEmpty(ContextsText(cs, renderer, host));
    for i := 0 to |cs|
      invariant ContextsText(cs, renderer, host) == Join(Ok(result), ContextsText(cs[i..], renderer, host))
    {
      var context := cs[i];
      var es := context.extensions;
      ghost var rest := ContextsText(cs[i + 1..], renderer, host);
      assert cs[i..][0] == context && cs[i..][1..] == cs[i + 1..];
      JoinAssoc(Ok(ContextHeader(context)), ExtensionsText(es, renderer, host), rest);
      JoinOk(result, ContextHeader(context), Join(ExtensionsText(es, renderer, host), rest));
      result := result + ContextHeader(context);
      assert es[0..] == es;
      for j := 0 to |es|
        invariant ContextsText(cs, renderer, host) ==
          Join(Ok(result), Join(ExtensionsText(es[j..], renderer, host), rest))
      {
        var extension := es[j];
        ghost var later := ExtensionsText(es[j + 1..], renderer, host);
        assert es[j..][0] == extension && es[j..][1..] == es[j + 1..];
        JoinAssoc(ExtensionText(extension, renderer, host), later, rest);
        JoinAssoc(Ok(ExtensionHeader(extension)), Attached(extension, renderer, host), Join(later, rest));
        JoinOk(result, ExtensionHeader(extension), Join(Attached(extension, renderer, host), Join(later, rest)));
        result := result + ExtensionHeader(extension);
        if extension.script.Some? {
          var text := BuildScript(extension.script.value, renderer, host);
          if text.Err? {
            return Err(text.error);
          }
          JoinOk(result, text.value, Join(later, rest));
          result := result + text.value;
        } else {
          JoinEmpty(Join(later, rest));
        }
      }
      assert es[|es|..] == [];
      JoinEmpty(rest);
    }
    assert cs[|cs|..] == [];
    assert result + "" == result;
    return Ok(result);
  }

  // ---------------------------------------------------------------------
  // Loading the full scripts

  /** `loadScript` of the persistence layer: the full script with the given
      id, or `None` where it fails with a `ServiceException`. */
  type Loader = int -> Option<Script>

  /** An attached script that cannot be loaded. */
  ghost predicate LoadFails(e: Extension, loader: Loader)
  {
    e.script.Some? && loader(e.scriptId).None?
  }

  /** One extension with its stub replaced by the full script. */
  function Reload(e: Extension, loader: Loader): (r: Option<Extension>)
    ensures r.None? <==> LoadFails(e, loader)
    ensures r.Some? ==> r.value.name == e.name && r.value.scriptId == e.scriptId
    ensures r.Some? && e.script.None? ==> r.value == e
    ensures r.Some? && e.script.Some? ==> r.value.script == loader(e.scriptId)
  {
    match e.script
    case None => Some(e)
    case Some(_) =>
      match loader(e.scriptId)
      case None => None
      case Some(s) => Some(e.(script := Some(s)))
  }

  function ReloadAll(es: seq<Extension>, loader: Loader): Option<seq<Extension>>
    decreases |es|
  {
    if es == [] then Some([])
    else
      match Reload(es[0], loader)
      case None => None
      case Some(e) =>
        match ReloadAll(es[1..], loader)
        case None => None
        case Some(rest) => Some([e] + rest)
  }

  /** Reloading keeps the extensions in order, each replaced by its reload,
      and fails exactly when one attached script fails to load. */
  lemma {:induction false} ReloadAllSpec(es: seq<Extension>, loader: Loader)
    ensures ReloadAll(es, loader).Some? ==>
      && |ReloadAll(es, loader).value| == |es|
      && forall k :: 0 <= k < |es| ==> Reload(es[k], loader) == Some(ReloadAll(es, loader).value[k])
    ensures ReloadAll(es, loader).None? <==> exists k :: 0 <= k < |es| && LoadFails(es[k], loader)
    decreases |es|
  {
    if es != [] {
      ReloadAllSpec(es[1..], loader);
      assert forall k :: 1 <= k < |es| ==> es[k] == es[1..][k - 1];
      if Reload(es[0], loader).Some? && ReloadAll(es[1..], loader).None? {
        var k :| 0 <= k < |es[1..]| && LoadFails(es[1..][k], loader);
        assert LoadFails(es[k + 1], loader);
      }
    }
  }

  /** The loading loop of `cacheContexts`: every context with the stubs of
      its attached scripts replaced by the full scripts; `None` when any of
      them fails to load. */
  function LoadContexts(cs: seq<Context>, loader: Loader): Option<seq<Context>>
    decreases |cs|
  {
    if cs == [] then Some([])
    else
      match ReloadAll(cs[0].extensions, loader)
      case None => None
      case Some(es) =>
        match LoadContexts(cs[1..], loader)
        case None => None
        case Some(rest) => Some([cs[0].(extensions := es)] + rest)
  }

  /** Loading keeps the contexts in order under their names, each with its
      extensions reloaded, and fails exactly when reloading the extensions
      of one of them fails. */
  lemma {:induction false} LoadContextsSpec(cs: seq<Context>, loader: Loader)
    ensures LoadContexts(cs, loader).Some? ==>
      && |LoadContexts(cs, loader).value| == |cs|
      && forall i :: 0 <= i < |cs| ==>
        && LoadContexts(cs, loader).value[i].name == cs[i].name
        && ReloadAll(cs[i].extensions, loader) == Some(LoadContexts(cs, loader).value[i].extensions)
    ensures LoadContexts(cs, loader).None? <==> exists i :: 0 <= i < |cs| && ReloadAll(cs[i].extensions, loader).None?
    decreases |cs|
  {
    if cs != [] {
      LoadContextsSpec(cs[1..], loader);
      assert forall i :: 1 <= i < |cs| ==> cs[i] == cs[1..][i - 1];
      if ReloadAll(cs[0].extensions, loader).Some? && LoadContexts(cs[1..], loader).None? {
        var i :| 0 <= i < |cs[1..]| && ReloadAll(cs[1..][i].extensions, loader).None?;
        assert cs[1..][i] == cs[i + 1];
      }
    }
  }

  function PrependAll<T>(prefix: seq<T>, rest: Option<seq<T>>): Option<seq<T>>
  {
    match rest
    case None => None
    case Some(s) => Some(prefix + s)
  }

  /** The inner loading loop of `cacheContexts`, over the extensions of one
      context. */
  method LoadExtensions(es: seq<Extension>, loader: Loader) returns (r: Option<seq<Extension>>)
    ensures r == ReloadAll(es, loader)
  {
    var extensions: seq<Extension> := [];
    assert es[0..] == es;
    assert ReloadAll(es, loader).Some? ==> extensions + ReloadAll(es, loader).value == ReloadAll(es, loader).value;
    for j := 0 to |es|
      invariant ReloadAll(es, loader) == PrependAll(extensions, ReloadAll(es[j..], loader))
    {
      var extension := es[j];
      assert es[j..][0] == extension && es[j..][1..] == es[j + 1..];
      if extension.script.Some? {
        var full := loader(extension.scriptId);
        if full.None? {
          return None;
        }
        extension := extension.(script := full);
      }
      ghost var rest := ReloadAll(es[j + 1..], loader);
      if rest.Some? {
        assert extensions + ([extension] + rest.value) == (extensions + [extension]) + rest.value;
      }
      extensions := extensions + [extension];
    }
    assert es[|es|..] == [];
    assert extensions + [] == extensions;
    return Some(extensions);
  }

  /** The loading loops of `cacheContexts`. */
  method LoadScripts(cs: seq<Context>, loader: Loader) returns (r: Option<seq<Context>>)
    ensures r == LoadContexts(cs, loader)
  {
    var loaded: seq<Context> := [];
    assert cs[0..] == cs;
    assert LoadContexts(cs, loader).Some? ==> loaded + LoadContexts(cs, loader).value == LoadContexts(cs, loader).value;
    for i := 0 to |cs|
      invariant LoadContexts(cs, loader) == PrependAll(loaded, LoadContexts(cs[i..], loader))
    {
      var context := cs[i];
      assert cs[i..][0] == context && cs[i..][1..] == cs[i + 1..];
      var extensions := LoadExtensions(context.extensions, loader);
      if extensions.None? {
        return None;
      }
      ghost var rest := LoadContexts(cs[i + 1..], loader);
      var loadedContext := context.(extensions := extensions.value);
      if rest.Some? {
        assert loaded + ([loadedContext] + rest.value) == (loaded + [loadedContext]) + rest.value;
      }
      loaded := loaded + [loadedContext];
    }
    assert cs[|cs|..] == [];
    assert loaded + [] == loaded;
    return Some(loaded);
  }

  // ---------------------------------------------------------------------
  // The cache

  /** What one refresh of the cache comes to. */
  datatype Refresh =
    | Refreshed(text: string)    // every script loaded and compiled
    | LoadFailure                // a `ServiceException`: the list or a script could not be loaded
    | Broken(error: Error)       // a script that loaded but could not be compiled

  /** `cacheContexts` for a context list (`None` when it cannot be loaded):
      first every attached script is loaded, then the list is translated. */
  function RefreshOf(all: Option<seq<Context>>, loader: Loader, renderer: Renderer, host: string): Refresh
  {
    match all
    case None => LoadFailure
    case Some(cs) =>
      match LoadContexts(cs, loader)
      case None => LoadFailure
      case Some(full) =>
        match ContextsText(full, renderer, host)
        case Ok(t) => Refreshed(t)
        case Err(e) => Broken(e)
  }

  /** Loading fails exactly when one attached script of one context fails
      to load. */
  lemma LoadContextsFails(cs: seq<Context>, loader: Loader)
    ensures LoadContexts(cs, loader).None? <==>
      exists i, k :: 0 <= i < |cs| && 0 <= k < |cs[i].extensions| && LoadFails(cs[i].extensions[k], loader)
  {
    LoadContextsSpec(cs, loader);
    if LoadContexts(cs, loader).None? {
      var i :| 0 <= i < |cs| && ReloadAll(cs[i].extensions, loader).None?;
      ReloadAllSpec(cs[i].extensions, loader);
      var k :| 0 <= k < |cs[i].extensions| && LoadFails(cs[i].extensions[k], loader);
    } else {
      forall i, k | 0 <= i < |cs| && 0 <= k < |cs[i].extensions|
        ensures !LoadFails(cs[i].extensions[k], loader)
      {
        ReloadAllSpec(cs[i].extensions, loader);
        assert ReloadAll(cs[i].extensions, loader).Some?;
      }
    }
  }

  /** Any load failure, of the list or of one attached script, makes the
      refresh a load failure, whatever the scripts would compile to; when
      everything loads, a failed refresh carries the compile error of one of
      the loaded scripts. */
  lemma RefreshCases(all: Option<seq<Context>>, loader: Loader, renderer: Renderer, host: string)
    ensures RefreshOf(all, loader, renderer, host) == LoadFailure <==>
      all.None? || exists i, k :: 0 <= i < |all.value| && 0 <= k < |all.value[i].extensions| && LoadFails(all.value[i].extensions[k], loader)
    ensures RefreshOf(all, loader, renderer, host).Broken? ==>
      exists i, k :: 0 <= i < |all.value| && 0 <= k < |all.value[i].extensions|
        && all.value[i].extensions[k].script.Some?
        && ScriptText(loader(all.value[i].extensions[k].scriptId).value, renderer, host) == Err(RefreshOf(all, loader, renderer, host).error)
  {
    if all.Some? {
      var cs := all.value;
      LoadContextsFails(cs, loader);
      if LoadContexts(cs, loader).Some? {
        var full := LoadContexts(cs, loader).value;
        if ContextsText(full, renderer, host).Err? {
          var e := ContextsText(full, renderer, host).error;
          ContextsTextFails(full, renderer, host);
          var i :| 0 <= i < |full| && ExtensionsText(full[i].extensions, renderer, host) == Err(e);
          ExtensionsTextFails(full[i].extensions, renderer, host);
          var k :| 0 <= k < |full[i].extensions| && Attached(full[i].extensions[k], renderer, host) == Err(e);
          LoadContextsSpec(cs, loader);
          ReloadAllSpec(cs[i].extensions, loader);
          assert Reload(cs[i].extensions[k], loader) == Some(full[i].extensions[k]);
        }
      }
    }
  }

  const Warning := "; WARNING! Could not load dialplan. The cache is used.\n\n"

  /** The cache after a refresh: replaced only by a complete new text. */
  function NewCache(cache: string, o: Refresh): string
  {
    if o.Refreshed? then o.text else cache
  }

  /** The dialplan served after a refresh, before the summary footer.  A
      load failure is answered from the cache behind a warning line.
      Whether a compile failure is caught the same way depends on the class
      hierarchy of `BlockNotFoundException`, which is not part of this
      model, so `fallback` says which: caught, or escaping with its error. */
  function Response(cache: string, o: Refresh, fallback: bool): Result<string>
  {
    match o
    case Refreshed(t) => Ok(t)
    case LoadFailure => Ok(Warning + cache)
    case Broken(e) => if fallback then Ok(Warning + cache) else Err(e)
  }

  /** Every dialplan served ends with the cache as the refresh left it,
      behind the warning line exactly when the refresh did not succeed; a
      refresh that did not succeed leaves the cache as it was. */
  lemma ResponseShowsCache(cache: string, o: Refresh, fallback: bool)
    ensures !o.Refreshed? ==> NewCache(cache, o) == cache
    ensures Response(cache, o, fallback).Ok? ==>
      Response(cache, o, fallback).value == (if o.Refreshed? then "" else Warning) + NewCache(cache, o)
    ensures Response(cache, o, fallback).Err? <==> o.Broken? && !fallback
  {
    assert "" + NewCache(cache, o) == NewCache(cache, o);
  }

  /** The cache after a series of refreshes. */
  function CacheAfter(cache: string, rs: seq<Refresh>): string
    decreases |rs|
  {
    if rs == [] then cache else CacheAfter(NewCache(cache, rs[0]), rs[1..])
  }

  /** The text of the latest refresh that succeeded. */
  function LastRefreshed(rs: seq<Refresh>): Option<string>
    decreases |rs|
  {
    if rs == [] then None
    else if rs[|rs| - 1].Refreshed? then Some(rs[|rs| - 1].text)
    else LastRefreshed(rs[..|rs| - 1])
  }

  lemma {:induction false} CacheAfterSnoc(cache: string, rs: seq<Refresh>, o: Refresh)
    ensures CacheAfter(cache, rs + [o]) == NewCache(CacheAfter(cache, rs), o)
    decreases |rs|
  {
    if rs == [] {
      assert rs + [o] == [o];
      assert [o][1..] == [];
    } else {
      assert (rs + [o])[0] == rs[0];
      assert (rs + [o])[1..] == rs[1..] + [o];
      CacheAfterSnoc(NewCache(cache, rs[0]), rs[1..], o);
    }
  }

  /** Whatever happened in between, the cache holds the text of the latest
      refresh that succeeded, or its initial value when none did. */
  lemma {:induction false} CacheIsLastSuccess(cache: string, rs: seq<Refresh>)
    ensures CacheAfter(cache, rs) == if LastRefreshed(rs).Some? then LastRefreshed(rs).value else cache
    decreases |rs|
  {
    if rs != [] {
      var front := rs[..|rs| - 1];
      assert rs == front + [rs[|rs| - 1]];
      CacheAfterSnoc(cache, front, rs[|rs| - 1]);
      CacheIsLastSuccess(cache, front);
    }
  }

  /** The translator service with its one field that outlives a request. */
  class TranslatorService {
    /** Whether the fallback of `getTranslatedDialplan` catches compile
        failures too (see `Response`). */
    const fallbackOnCompileError: bool
    var cachedContexts: string

    constructor(fallbackOnCompileError: bool)
      ensures this.fallbackOnCompileError == fallbackOnCompileError
      ensures cachedContexts == ""
    {
      this.fallbackOnCompileError := fallbackOnCompileError;
      cachedContexts := "";
    }

    /** `cacheContexts`: load, translate, and overwrite the cache only when
        everything succeeded. */
    method CacheContexts(all: Option<seq<Context>>, loader: Loader, renderer: Renderer, host: string) returns (o: Refresh)
      modifies this
      ensures o == RefreshOf(all, loader, renderer, host)
      ensures cachedContexts == NewCache(old(cachedContexts), o)
    {
      if all.None? {
        return LoadFailure;
      }
      var full := LoadScripts(all.value, loader);
      if full.None? {
        return LoadFailure;
      }
      var text := TranslateContexts(full.value, renderer, host);
      if text.Err? {
        return Broken(text.error);
      }
      cachedContexts := text.value;
      return Refreshed(text.value);
    }

    /** `getTranslatedDialplan` without its footer. */
    method GetTranslatedDialplan(all: Option<seq<Context>>, loader: Loader, renderer: Renderer, host: string)
      returns (r: Result<string>)
      modifies this
      ensures r == Response(old(cachedContexts), RefreshOf(all, loader, renderer, host), fallbackOnCompileError)
      ensures cachedContexts == NewCache(old(cachedContexts), RefreshOf(all, loader, renderer, host))
    {
      var o := CacheContexts(all, loader, renderer, host);
      if o.Broken? && !fallbackOnCompileError {
        return Err(o.error);
      }
      var result := "";
      if !o.Refreshed? {
        result := Warning;
      }
      assert "" + cachedContexts == cachedContexts;
      return Ok(result + cachedContexts);
    }

    /** `getTranslatedScript`: load one script by id and compile it; a load
        failure is passed on to the caller. */
    method GetTranslatedScript(id: int, loader: Loader, renderer: Renderer, host: string) returns (r: Result<string>)
      ensures loader(id).None? ==> r == Err(LoadFailed)
      ensures loader(id).Some? ==> r == ScriptText(loader(id).value, renderer, host)
    {
      var script := loader(id);
      if script.None? {
        return Err(LoadFailed);
      }
      r := BuildScript(script.value, renderer, host);
    }
  }
}

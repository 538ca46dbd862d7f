/**
 * Properties of the resolution engine that relate several calls: the
 * loading order, the coverage of the localizer cache, and the fallback of
 * lookups to the default language.
 */
module I18nProperties {
  import opened Wrappers
  import opened I18n

  // ---------------------------------------------------------------------
  // Catalog loading
  // ---------------------------------------------------------------------

  /** The j-th file loaded from position from on is the catalog of the
      language at position from + j, which loaded and parsed. */
  lemma {:induction false} LoadedFileAt(cfg: BundleCfg, tags: seq<string>, from: nat, j: nat)
    requires from <= |tags| && j < |LoadCatalogsFrom(cfg, tags, from).loaded|
    ensures from + j < |tags|
    ensures LoadFile(cfg, PathOf(cfg, tags[from + j])) == Success(LoadCatalogsFrom(cfg, tags, from).loaded[j])
    decreases j
  {
    var r := LoadCatalogsFrom(cfg, tags, from);
    assert from < |tags|;
    var first := LoadFile(cfg, PathOf(cfg, tags[from]));
    assert first.Success?;
    if j > 0 {
      var rest := LoadCatalogsFrom(cfg, tags, from + 1);
      assert r.loaded == [first.value] + rest.loaded;
      LoadedFileAt(cfg, tags, from + 1, j - 1);
      assert from + j == (from + 1) + (j - 1);
    }
  }

  /** When loading from position from on stops with an error, the error is
      the one raised by the catalog right after the files that loaded. */
  lemma {:induction false} StopsAtFailingFile(cfg: BundleCfg, tags: seq<string>, from: nat)
    requires from <= |tags| && LoadCatalogsFrom(cfg, tags, from).failure.Some?
    ensures var r := LoadCatalogsFrom(cfg, tags, from);
      from + |r.loaded| < |tags| &&
      LoadFile(cfg, PathOf(cfg, tags[from + |r.loaded|])) == Failure(r.failure.value)
    decreases |tags| - from
  {
    var first := LoadFile(cfg, PathOf(cfg, tags[from]));
    if first.Success? {
      var r := LoadCatalogsFrom(cfg, tags, from);
      var rest := LoadCatalogsFrom(cfg, tags, from + 1);
      assert r == Prefixed([first.value], rest);
      StopsAtFailingFile(cfg, tags, from + 1);
      assert from + |r.loaded| == (from + 1) + |rest.loaded|;
    }
  }

  /** Loading tries the accepted languages in order: the j-th file loaded is
      the catalog of the j-th language, and when loading stops with an
      error, that error is the one the next language's catalog raised. */
  lemma LoadCatalogsAbortsOnFirstError(cfg: BundleCfg, tags: seq<string>)
    ensures var r := LoadCatalogs(cfg, tags);
      && (forall j :: 0 <= j < |r.loaded| ==>
            r.loaded[j].path == PathOf(cfg, tags[j]) &&
            LoadFile(cfg, PathOf(cfg, tags[j])) == Success(r.loaded[j]))
      && (r.failure.Some? ==>
            |r.loaded| < |tags| &&
            LoadFile(cfg, PathOf(cfg, tags[|r.loaded|])) == Failure(r.failure.value))
  {
    var r := LoadCatalogs(cfg, tags);
    forall j | 0 <= j < |r.loaded|
      ensures r.loaded[j].path == PathOf(cfg, tags[j])
      ensures LoadFile(cfg, PathOf(cfg, tags[j])) == Success(r.loaded[j])
    {
      LoadedFileAt(cfg, tags, 0, j);
    }
    if r.failure.Some? {
      StopsAtFailingFile(cfg, tags, 0);
    }
  }

  /** Loading succeeds exactly when every accepted language's catalog loads
      and parses; a single failing catalog makes the whole load fail. */
  lemma LoadCatalogsSucceedsIffAllLoad(cfg: BundleCfg, tags: seq<string>)
    ensures LoadCatalogs(cfg, tags).failure.None? <==>
      forall j :: 0 <= j < |tags| ==> LoadFile(cfg, PathOf(cfg, tags[j])).Success?
  {
    LoadCatalogsAbortsOnFirstError(cfg, tags);
  }

  /** A catalog path ends with "." and the format, and what comes before
      that suffix is the root joined with the language tag. */
  lemma CatalogPathShape(root: string, tag: string, format: string)
    ensures var p := CatalogPath(root, tag, format);
      && |p| > |format|
      && p[|p| - |format| - 1..] == "." + format
      && p[..|p| - |format| - 1] == JoinPath(root, tag)
  {
  }

  /** Distinct languages have distinct catalog paths under the same root and
      format, so every loaded file belongs to exactly one language. */
  lemma CatalogPathInjective(root: string, tag1: string, tag2: string, format: string)
    requires CatalogPath(root, tag1, format) == CatalogPath(root, tag2, format)
    ensures tag1 == tag2
  {
    CatalogPathShape(root, tag1, format);
    CatalogPathShape(root, tag2, format);
    var joined := JoinPath(root, tag1);
    assert joined == JoinPath(root, tag2);
    if root != "" && tag1 != "" && tag2 != "" {
      assert tag1 == joined[|root| + 1..];
      assert tag2 == joined[|root| + 1..];
    }
  }

  /** Only accepted languages have their catalogs loaded: when the default
      language is not accepted, no loaded file has its catalog path, and the
      catalog whose failure stops the loading is not its catalog either. */
  lemma DefaultCatalogLoadedOnlyIfAccepted(cfg: BundleCfg)
    requires cfg.defaultLanguage !in cfg.acceptLanguage
    ensures var r := LoadCatalogs(cfg, cfg.acceptLanguage);
      && (forall f :: f in r.loaded ==> f.path != PathOf(cfg, cfg.defaultLanguage))
      && (r.failure.Some? ==>
            |r.loaded| < |cfg.acceptLanguage| &&
            PathOf(cfg, cfg.acceptLanguage[|r.loaded|]) != PathOf(cfg, cfg.defaultLanguage))
  {
    var tags := cfg.acceptLanguage;
    var r := LoadCatalogs(cfg, tags);
    LoadCatalogsAbortsOnFirstError(cfg, tags);
    forall f | f in r.loaded
      ensures f.path != PathOf(cfg, cfg.defaultLanguage)
    {
      var j :| 0 <= j < |r.loaded| && r.loaded[j] == f;
      if f.path == PathOf(cfg, cfg.defaultLanguage) {
        CatalogPathInjective(cfg.rootPath, tags[j], cfg.defaultLanguage, cfg.formatBundleFile);
        assert false;
      }
    }
    if r.failure.Some? && PathOf(cfg, tags[|r.loaded|]) == PathOf(cfg, cfg.defaultLanguage) {
      CatalogPathInjective(cfg.rootPath, tags[|r.loaded|], cfg.defaultLanguage, cfg.formatBundleFile);
      assert false;
    }
  }

  // ---------------------------------------------------------------------
  // The localizer cache
  // ---------------------------------------------------------------------

  /** The cache holds exactly the accepted languages and the default
      language: nothing from an earlier configuration survives. */
  lemma LocalizerMapKeys(b: Bundle, accept: seq<string>, lngDefault: string)
    ensures forall t :: t in accept ==> t in LocalizerMap(b, accept, lngDefault)
    ensures lngDefault in LocalizerMap(b, accept, lngDefault)
    ensures forall k :: k in LocalizerMap(b, accept, lngDefault) ==> k in accept || k == lngDefault
  {
  }

  /** Every cached localizer reads the given bundle, tries its own language
      first and the default language last, and has no repeated language. */
  lemma LocalizerMapEntries(b: Bundle, accept: seq<string>, lngDefault: string, k: string)
    requires k in LocalizerMap(b, accept, lngDefault)
    ensures var l := LocalizerMap(b, accept, lngDefault)[k];
      && l.bundle == b
      && l.tags[0] == k && l.tags[|l.tags| - 1] == lngDefault
      && (|l.tags| == 1 <==> k == lngDefault)
      && (forall i, j :: 0 <= i < j < |l.tags| ==> l.tags[i] != l.tags[j])
  {
  }

  /** After the cache is built, a lookup of any string succeeds: an accepted
      language gets its own localizer, anything else the default language's. */
  lemma LookupAfterBuild(g: GinI18nImpl, accept: seq<string>, lng: string)
    requires g.bundle.Some?
    requires g.localizerByLng == LocalizerMap(g.bundle.value, accept, g.defaultLanguage)
    ensures g.Ready()
    ensures g.GetLocalizerByLng(lng) ==
      Some(Localizer(g.bundle.value,
        if lng in accept then Candidates(lng, g.defaultLanguage) else [g.defaultLanguage]))
  {
  }

  /** A language that was not accepted is answered exactly as the default
      language would be. */
  lemma UnknownLanguageFallsBack(g: GinI18nImpl, accept: seq<string>, localize: LocalizeFn,
                                 lng: string, param: Param)
    requires g.bundle.Some?
    requires g.localizerByLng == LocalizerMap(g.bundle.value, accept, g.defaultLanguage)
    requires lng !in accept
    ensures g.Ready()
    ensures g.GetMessage(localize, lng, param) == g.GetMessage(localize, g.defaultLanguage, param)
  {
    LookupAfterBuild(g, accept, lng);
    LookupAfterBuild(g, accept, g.defaultLanguage);
  }

  // ---------------------------------------------------------------------
  // Lookup parameters
  // ---------------------------------------------------------------------

  /** A bare message id is looked up exactly as a config holding only that
      id would be. */
  lemma BareIdIsPlainConfig(g: GinI18nImpl, localize: LocalizeFn, lng: string, id: string)
    requires g.GetLocalizerByLng(lng).Some?
    ensures GetLocalizeConfig(Str(id)) == GetLocalizeConfig(Config(LocalizeConfig(id, map[], None)))
    ensures g.GetMessage(localize, lng, Str(id)) ==
      g.GetMessage(localize, lng, Config(LocalizeConfig(id, map[], None)))
  {
  }

  /** The "must" variant and the error-returning variant agree whenever
      the latter succeeds, and the former is "" exactly when the latter
      fails or localizes to "". */
  lemma MustGetMessageAgrees(g: GinI18nImpl, localize: LocalizeFn, lng: string, param: Param)
    requires param.Other? || g.GetLocalizerByLng(lng).Some?
    ensures g.MustGetMessage(localize, lng, param) == "" <==>
      g.GetMessage(localize, lng, param).err.Some? || g.GetMessage(localize, lng, param).message == ""
  {
  }
}

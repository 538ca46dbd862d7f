/**
 * The language-resolution engine of the gin i18n middleware (ginI18n.go).
 *
 * A GinI18nImpl holds a go-i18n bundle with the catalogs of the accepted
 * languages, the default language, and a cache from language string to
 * localizer. Each request supplies a language string and a lookup parameter;
 * the engine picks the cached localizer (falling back to the default
 * language's) and asks go-i18n to localize the message.
 *
 * go-i18n itself (Localize, ParseMessageFileBytes) and the catalog loader are
 * foreign code: they are parameters of the model, never looked into.
 */
module I18n {
  import opened Wrappers

  type Bytes = seq<bv8>

  /** The errors the engine returns. Errors raised by the loader, the parser
      or go-i18n are carried through unchanged as Raised. */
  datatype Error =
    | Raised(msg: string)
    | UnsupportedParam(repr: string)
  {
    /** The text of the error, as Error() would give it. */
    function Text(): string
    {
      match this
      case Raised(msg) => msg
      case UnsupportedParam(repr) => "un supported localize param: " + repr
    }
  }

  /** go-i18n's LocalizeConfig, reduced to the fields a lookup fills in. */
  datatype LocalizeConfig = LocalizeConfig(
    messageID: string,
    templateData: map<string, string>,
    pluralCount: Option<int>)

  /** The untyped parameter of GetMessage: a bare message id, a
      *LocalizeConfig, or any other value (kept as its %v rendering). */
  datatype Param = Str(s: string) | Config(c: LocalizeConfig) | Other(repr: string)

  /** One catalog file that the bundle has parsed. */
  datatype CatalogFile = CatalogFile(path: string, content: Bytes)

  /** go-i18n's Bundle: its default language, the file format whose
      unmarshal function is registered, and the catalog files parsed into it,
      in the order they were parsed. */
  datatype Bundle = Bundle(defaultLanguage: string, format: string, files: seq<CatalogFile>)

  /** A go-i18n Localizer: the bundle it reads and its ordered candidate languages. */
  datatype Localizer = Localizer(bundle: Bundle, tags: seq<string>)

  /** Loader.LoadMessage: the bytes stored at a path, or a load error. */
  type LoadFn = string -> Result<Bytes, Error>

  /** Bundle.ParseMessageFileBytes with the configured unmarshal function:
      None when the bytes parse, the parse error otherwise. */
  type ParseFn = (Bytes, string) -> Option<Error>

  /** Localizer.Localize: a message and an error, as go-i18n returns them. */
  type LocalizeFn = (Localizer, LocalizeConfig) -> (string, Option<Error>)

  /** BundleCfg: where the catalogs are, which languages to accept, the
      default language, and the foreign loader and parser. */
  datatype BundleCfg = BundleCfg(
    rootPath: string,
    acceptLanguage: seq<string>,
    formatBundleFile: string,
    defaultLanguage: string,
    parse: ParseFn,
    loader: LoadFn)

  /** The (string, error) pair that GetMessage returns. */
  datatype Reply = Reply(message: string, err: Option<Error>)

  /** What loading a list of catalogs produced: the files parsed, in order,
      and the error that stopped the loading, if any. */
  datatype LoadReport = LoadReport(loaded: seq<CatalogFile>, failure: Option<Error>)

  // ---------------------------------------------------------------------
  // Specification functions
  // ---------------------------------------------------------------------

  /** The candidate languages of the localizer for lng: lng first, then the
      default language unless it is lng itself. */
  function Candidates(lng: string, lngDefault: string): (r: seq<string>)
    ensures 1 <= |r| <= 2
    ensures r[0] == lng && r[|r| - 1] == lngDefault
    ensures |r| == 1 <==> lng == lngDefault
    ensures forall i, j :: 0 <= i < j < |r| ==> r[i] != r[j]
  {
    if lng == lngDefault then [lng] else [lng, lngDefault]
  }

  /** filepath.Join of two elements, without the lexical cleaning:
      empty elements are dropped and the rest are joined by a separator. */
  function JoinPath(root: string, elem: string): string
  {
    if root == "" then elem
    else if elem == "" then root
    else root + "/" + elem
  }

  /** The path of the catalog of one language: RootPath/<tag>.<format>. */
  function CatalogPath(root: string, tag: string, format: string): string
  {
    JoinPath(root, tag) + "." + format
  }

  /** The path loadMessageFiles composes for an accepted language. */
  function PathOf(cfg: BundleCfg, tag: string): string
  {
    CatalogPath(cfg.rootPath, tag, cfg.formatBundleFile)
  }

  /** loadMessageFile as a value: the file succeeds exactly when the loader
      reads it and the parser accepts its bytes; a load error is reported
      whatever the parser would say of any bytes. */
  function LoadFile(cfg: BundleCfg, path: string): (r: Result<CatalogFile, Error>)
    ensures r.Success? <==>
      cfg.loader(path).Success? && cfg.parse(cfg.loader(path).value, path).None?
    ensures r.Success? ==> r.value == CatalogFile(path, cfg.loader(path).value)
    ensures cfg.loader(path).Failure? ==> r == Failure(cfg.loader(path).error)
    ensures cfg.loader(path).Success? && cfg.parse(cfg.loader(path).value, path).Some? ==>
      r == Failure(cfg.parse(cfg.loader(path).value, path).value)
  {
    match cfg.loader(path)
    case Failure(e) => Failure(e)
    case Success(buf) =>
      match cfg.parse(buf, path)
      case Some(e) => Failure(e)
      case None => Success(CatalogFile(path, buf))
  }

  /** loadMessageFiles as a value: the catalogs of tags[from..], loaded one
      by one in order until the first one that fails. */
  function LoadCatalogsFrom(cfg: BundleCfg, tags: seq<string>, from: nat): (r: LoadReport)
    requires from <= |tags|
    ensures |r.loaded| <= |tags| - from
    ensures r.failure.None? ==> |r.loaded| == |tags| - from
    decreases |tags| - from
  {
    if from == |tags| then LoadReport([], None)
    else
      match LoadFile(cfg, PathOf(cfg, tags[from]))
      case Failure(e) => LoadReport([], Some(e))
      case Success(f) => Prefixed([f], LoadCatalogsFrom(cfg, tags, from + 1))
  }

  /** The catalogs of all of tags, loaded in order until the first failure. */
  function LoadCatalogs(cfg: BundleCfg, tags: seq<string>): LoadReport
  {
    LoadCatalogsFrom(cfg, tags, 0)
  }

  /** A load report with files already loaded put in front of its own. */
  function Prefixed(added: seq<CatalogFile>, r: LoadReport): LoadReport
  {
    LoadReport(added + r.loaded, r.failure)
  }

  /** One step of loadMessageFiles: the catalog at position n either loads
      and joins the files before it, or its error ends the loading. */
  lemma LoadCatalogsFromStep(cfg: BundleCfg, tags: seq<string>, n: nat, added: seq<CatalogFile>)
    requires n < |tags|
    ensures var r := LoadFile(cfg, PathOf(cfg, tags[n]));
      Prefixed(added, LoadCatalogsFrom(cfg, tags, n)) ==
        if r.Success? then Prefixed(added + [r.value], LoadCatalogsFrom(cfg, tags, n + 1))
        else LoadReport(added, Some(r.error))
  {
    var r := LoadFile(cfg, PathOf(cfg, tags[n]));
    if r.Success? {
      var rest := LoadCatalogsFrom(cfg, tags, n + 1);
      assert added + ([r.value] + rest.loaded) == (added + [r.value]) + rest.loaded;
    } else {
      assert added + [] == added;
    }
  }

  /** The languages listed in a sequence, as a set. */
  function Elems(s: seq<string>): set<string>
  {
    set t | t in s
  }

  /** A cache holding, for each key, the localizer of that key over b. */
  function LocalizersFor(b: Bundle, keys: set<string>, lngDefault: string): map<string, Localizer>
  {
    map k | k in keys :: Localizer(b, Candidates(k, lngDefault))
  }

  /** The localizer cache that setLocalizerByLng builds: one entry for each
      accepted language and one for the default language. */
  function LocalizerMap(b: Bundle, accept: seq<string>, lngDefault: string): map<string, Localizer>
  {
    LocalizersFor(b, Elems(accept) + {lngDefault}, lngDefault)
  }

  /** Inserting the localizer of one more key into such a cache. */
  lemma LocalizersForInsert(b: Bundle, keys: set<string>, lngDefault: string, k: string)
    ensures LocalizersFor(b, keys, lngDefault)[k := Localizer(b, Candidates(k, lngDefault))]
         == LocalizersFor(b, keys + {k}, lngDefault)
  {
  }

  /** getLocalizeConfig: a bare string becomes a config holding only that
      message id, a config is passed through, anything else is an error. */
  function GetLocalizeConfig(param: Param): (r: Result<LocalizeConfig, Error>)
    ensures r.Success? <==> !param.Other?
    ensures param.Str? ==>
      r.Success? && r.value.messageID == param.s &&
      r.value.templateData == map[] && r.value.pluralCount == None
    ensures param.Config? ==> r == Success(param.c)
    ensures param.Other? ==> r == Failure(UnsupportedParam(param.repr))
  {
    match param
    case Str(s) => Success(LocalizeConfig(s, map[], None))
    case Config(c) => Success(c)
    case Other(repr) => Failure(UnsupportedParam(repr))
  }

  // ---------------------------------------------------------------------
  // The engine
  // ---------------------------------------------------------------------

  class GinI18nImpl {
    var bundle: Option<Bundle>
    var localizerByLng: map<string, Localizer>
    var defaultLanguage: string

    /** The zero value of the struct: no bundle, no cache, and the zero
        language tag, which prints as "und". */
    constructor ()
      ensures bundle == None && localizerByLng == map[] && defaultLanguage == "und"
    {
      bundle := None;
      localizerByLng := map[];
      defaultLanguage := "und";
    }

    /** The state SetBundle leaves behind when loading succeeds: a bundle,
        an entry for the default language, and every entry the localizer of
        its own key over that bundle. */
    ghost predicate Ready()
      reads this
    {
      && bundle.Some?
      && defaultLanguage in localizerByLng
      && forall k :: k in localizerByLng ==>
           localizerByLng[k] == Localizer(bundle.value, Candidates(k, defaultLanguage))
    }

    /** newLocalizer: the candidate list is [lng], with the default language
        appended when it differs from lng. */
    method NewLocalizer(lng: string) returns (l: Localizer)
      requires bundle.Some?
      ensures l == Localizer(bundle.value, Candidates(lng, defaultLanguage))
    {
      var lngDefault := defaultLanguage;
      var lngs := [lng];
      if lng != lngDefault {
        lngs := lngs + [lngDefault];
      }
      l := Localizer(bundle.value, lngs);
    }

    /** setLocalizerByLng: rebuilds the cache from empty, one entry per
        accepted language, then adds the default language if missing. */
    method SetLocalizerByLng(acceptLanguage: seq<string>)
      requires bundle.Some?
      modifies this`localizerByLng
      ensures localizerByLng == LocalizerMap(bundle.value, acceptLanguage, defaultLanguage)
      ensures Ready()
    {
      ghost var b := bundle.value;
      localizerByLng := map[];
      assert localizerByLng == LocalizersFor(b, {}, defaultLanguage);
      for n := 0 to |acceptLanguage|
        invariant localizerByLng == LocalizersFor(b, Elems(acceptLanguage[..n]), defaultLanguage)
      {
        var lngStr := acceptLanguage[n];
        var l := NewLocalizer(lngStr);
        LocalizersForInsert(b, Elems(acceptLanguage[..n]), defaultLanguage, lngStr);
        assert Elems(acceptLanguage[..n + 1]) == Elems(acceptLanguage[..n]) + {lngStr} by {
          assert acceptLanguage[..n + 1] == acceptLanguage[..n] + [lngStr];
        }
        localizerByLng := localizerByLng[lngStr := l];
      }
      assert acceptLanguage[..|acceptLanguage|] == acceptLanguage;
      ghost var accepted := Elems(acceptLanguage);

      var lngDefault := defaultLanguage;
      if lngDefault !in localizerByLng {
        var l := NewLocalizer(lngDefault);
        LocalizersForInsert(b, accepted, lngDefault, lngDefault);
        localizerByLng := localizerByLng[lngDefault := l];
      } else {
        assert accepted + {lngDefault} == accepted;
      }
    }

    /** loadMessageFile: loads the bytes at path and parses them into the
        bundle; the first error is returned and leaves the bundle as it was. */
    method LoadMessageFile(cfg: BundleCfg, path: string) returns (err: Option<Error>)
      requires bundle.Some?
      modifies this`bundle
      ensures var r := LoadFile(cfg, path);
        if r.Success? then
          err == None && bundle == Some(old(bundle.value).(files := old(bundle.value).files + [r.value]))
        else
          err == Some(r.error) && bundle == old(bundle)
    {
      var buf := cfg.loader(path);
      if buf.Failure? {
        return Some(buf.error);
      }
      err := cfg.parse(buf.value, path);
      if err.Some? {
        return;
      }
      var b := bundle.value;
      bundle := Some(b.(files := b.files + [CatalogFile(path, buf.value)]));
    }

    /** loadMessageFiles: one catalog per accepted language, in order; the
        first failure stops the loading (a panic in the Go code, returned
        here as the error). */
    method LoadMessageFiles(cfg: BundleCfg) returns (err: Option<Error>)
      requires bundle.Some?
      modifies this`bundle
      ensures var report := LoadCatalogs(cfg, cfg.acceptLanguage);
        && err == report.failure
        && bundle == Some(old(bundle.value).(files := old(bundle.value).files + report.loaded))
    {
      var tags := cfg.acceptLanguage;
      ghost var start := bundle.value;
      ghost var added: seq<CatalogFile> := [];
      assert start.files + added == start.files;
      for n := 0 to |tags|
        invariant bundle == Some(start.(files := start.files + added))
        invariant LoadCatalogs(cfg, tags) == Prefixed(added, LoadCatalogsFrom(cfg, tags, n))
      {
        LoadCatalogsFromStep(cfg, tags, n, added);
        err := LoadMessageFile(cfg, PathOf(cfg, tags[n]));
        if err.Some? {
          return;
        }
        ghost var f := LoadFile(cfg, PathOf(cfg, tags[n])).value;
        assert (start.files + added) + [f] == start.files + (added + [f]);
        added := added + [f];
      }
      assert added + [] == added;
      err := None;
    }

    /** SetBundle: creates the bundle, records the default language, loads
        the catalogs and, when they all load, rebuilds the localizer cache. */
    method SetBundle(cfg: BundleCfg) returns (err: Option<Error>)
      modifies this
      ensures defaultLanguage == cfg.defaultLanguage
      ensures var report := LoadCatalogs(cfg, cfg.acceptLanguage);
        && bundle == Some(Bundle(cfg.defaultLanguage, cfg.formatBundleFile, report.loaded))
        && err == report.failure
      ensures err.None? ==>
        localizerByLng == LocalizerMap(bundle.value, cfg.acceptLanguage, cfg.defaultLanguage) && Ready()
      ensures err.Some? ==> localizerByLng == old(localizerByLng)
    {
      bundle := Some(Bundle(cfg.defaultLanguage, cfg.formatBundleFile, []));
      defaultLanguage := cfg.defaultLanguage;

      err := LoadMessageFiles(cfg);
      assert [] + LoadCatalogs(cfg, cfg.acceptLanguage).loaded == LoadCatalogs(cfg, cfg.acceptLanguage).loaded;
      if err.Some? {
        return;
      }
      SetLocalizerByLng(cfg.acceptLanguage);
    }

    /** getLocalizerByLng: the cached localizer of lng, else the default
        language's; None only when even that is missing (a nil localizer). */
    function GetLocalizerByLng(lng: string): (r: Option<Localizer>)
      reads this
      ensures lng in localizerByLng ==> r == Some(localizerByLng[lng])
      ensures lng !in localizerByLng ==>
        r == if defaultLanguage in localizerByLng then Some(localizerByLng[defaultLanguage]) else None
      ensures Ready() ==>
        r.Some? && r.value.bundle == bundle.value &&
        r.value.tags == if lng in localizerByLng then Candidates(lng, defaultLanguage) else [defaultLanguage]
    {
      if lng in localizerByLng then Some(localizerByLng[lng])
      else if defaultLanguage in localizerByLng then Some(localizerByLng[defaultLanguage])
      else None
    }

    /** GetMessage, with the language the request handler extracted passed
        in as lng: "" and the error when the parameter is not supported or
        localization fails, the message otherwise. A supported parameter
        with no localizer to hand it to (no SetBundle yet) is a nil
        dereference in the Go code, so callers must not reach it. */
    function GetMessage(localize: LocalizeFn, lng: string, param: Param): (r: Reply)
      reads this
      requires param.Other? || GetLocalizerByLng(lng).Some?
      ensures r.err.Some? ==> r.message == ""
      ensures param.Other? ==> r == Reply("", Some(UnsupportedParam(param.repr)))
      ensures !param.Other? ==>
        var out := localize(GetLocalizerByLng(lng).value, GetLocalizeConfig(param).value);
        r == if out.1.Some? then Reply("", out.1) else Reply(out.0, None)
      ensures Ready() && !param.Other? ==>
        var tags := if lng in localizerByLng then Candidates(lng, defaultLanguage) else [defaultLanguage];
        var out := localize(Localizer(bundle.value, tags), GetLocalizeConfig(param).value);
        r == if out.1.Some? then Reply("", out.1) else Reply(out.0, None)
    {
      match GetLocalizeConfig(param)
      case Failure(e) => Reply("", Some(e))
      case Success(config) =>
        var localizer := GetLocalizerByLng(lng);
        var (message, e) := localize(localizer.value, config);
        if e.Some? then Reply("", e) else Reply(message, None)
    }

    /** MustGetMessage: GetMessage with every error collapsed to "". */
    function MustGetMessage(localize: LocalizeFn, lng: string, param: Param): (r: string)
      reads this
      requires param.Other? || GetLocalizerByLng(lng).Some?
      ensures GetMessage(localize, lng, param).err.Some? ==> r == ""
      ensures GetMessage(localize, lng, param).err.None? ==> r == GetMessage(localize, lng, param).message
      ensures param.Other? ==> r == ""
    {
      GetMessage(localize, lng, param).message
    }
  }
}

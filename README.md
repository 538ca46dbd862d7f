# Language resolution of the gin i18n middleware, in Dafny

This project models the engine in `ginI18n.go` that turns a request's language
string into a localized message. The engine has four parts:

- **Catalog loading** (`SetBundle`, `loadMessageFiles`, `loadMessageFile`). One
  catalog is read for each accepted language, from `RootPath/<tag>.<format>`,
  in the configured order. Each catalog is parsed into the go-i18n bundle, and
  the first load or parse error stops the loading.
- **The localizer cache** (`setLocalizerByLng`, `newLocalizer`). The cache is
  rebuilt from empty. It maps every accepted language, and always the default
  language, to a localizer. A localizer's candidate languages are the key
  followed by the default language, or the key alone when the key is the
  default language.
- **Cache lookup** (`getLocalizerByLng`). An exact key returns its own
  localizer. Any other string returns the default language's localizer.
- **Message lookup** (`getLocalizeConfig`, `GetMessage`, `MustGetMessage`). A
  bare string becomes a config holding only that message id. A config is
  passed through unchanged. Any other parameter is an error. Every error
  surfaces as `("", err)`, and `MustGetMessage` turns every error into `""`.

Files:

- `wrappers.dfy` defines `Option` and `Result`.
- `i18n.dfy` (module `I18n`) holds the data model, the specification functions
  and the class `GinI18nImpl`. The class has the struct's `bundle`,
  `localizerByLng` and `defaultLanguage` fields. Its methods update those
  fields as the Go methods do, with loops where the source has loops.
- `i18n_properties.dfy` (module `I18nProperties`) holds the lemmas that relate
  several calls.

Foreign code is passed in as function parameters and is never looked into:

- `BundleCfg.loader` stands for `Loader.LoadMessage`.
- `BundleCfg.parse` stands for `Bundle.ParseMessageFileBytes` with the
  configured unmarshal function registered.
- The `localize` argument stands for `Localizer.Localize`.

Errors from these functions are carried through unchanged.

Only the accepted languages' catalogs are loaded (`ginI18n.go:69`), so the
default language's catalog is loaded only when the default language is also
accepted. `DefaultCatalogLoadedOnlyIfAccepted` proves that, when the default
language is not accepted, neither a loaded file nor the catalog whose failure
stops the loading has the default language's catalog path.

## Model

| member | source | states |
|---|---|---|
| `I18n.Candidates` | ginI18n.go:105-113 | The candidate list starts with the requested language and ends with the default language. It has one entry when the two are equal and two otherwise, and it never repeats a language. |
| `I18n.LoadFile` | ginI18n.go:77-87 | Loading one file succeeds exactly when the loader reads the bytes and the parser accepts them. On success the file holds the loaded bytes. A load error is returned whatever the parser would say, and a parse error is returned as given. |
| `I18n.LoadCatalogsFrom` | ginI18n.go:68-75 | Loading the languages from a position on never yields more files than there are languages left. When no error stops it, it yields exactly one file per language left. |
| `I18n.GetLocalizeConfig` | ginI18n.go:132-145 | A string yields a config with that message id and no template data or plural count. A config is returned unchanged. Any other parameter yields the "un supported localize param" error, and only that case fails. |
| `I18n.GinI18nImpl.constructor` | ginI18n.go:16-22 | The zero value of the struct: no bundle, an empty cache, and the zero language tag "und". |
| `I18n.GinI18nImpl.NewLocalizer` | ginI18n.go:105-120 | The localizer built by the conditional append reads the current bundle, and its candidate list is `Candidates(lng, default)`. |
| `I18n.GinI18nImpl.SetLocalizerByLng` | ginI18n.go:90-102 | After the loop and the conditional insert of the default entry, the cache is exactly `LocalizerMap(bundle, accepted, default)`, whatever it held before. The cache invariant `Ready` then holds. |
| `I18n.GinI18nImpl.LoadMessageFile` | ginI18n.go:77-87 | On success the parsed file is appended to the bundle. On failure the error is returned and the bundle is unchanged. |
| `I18n.GinI18nImpl.LoadMessageFiles` | ginI18n.go:68-75 | The loop appends to the bundle exactly the files `LoadCatalogs` yields for the accepted languages, in order. It returns the error that stopped it, if any. |
| `I18n.GinI18nImpl.SetBundle` | ginI18n.go:52-61 | The call assigns a fresh bundle with the loaded catalogs and records the default language. If every catalog loads, it rebuilds the cache and establishes `Ready`. If a catalog fails, it returns that error and leaves the cache as it was. |
| `I18n.GinI18nImpl.GetLocalizerByLng` | ginI18n.go:123-130 | An exact key returns its own entry. Any other string returns the default language's entry, or none when that entry is missing. Under `Ready` the lookup is total, and the localizer it returns tries the key (or only the default language) before the default language. |
| `I18n.GinI18nImpl.GetMessage` | ginI18n.go:25-40 | Every error comes with an empty message. An unsupported parameter yields its error. Otherwise the reply is go-i18n's message, or `""` with go-i18n's error, for the localizer of the request's language (or of the default language) and the dispatched config. |
| `I18n.GinI18nImpl.MustGetMessage` | ginI18n.go:43-46 | The result is `""` whenever `GetMessage` reports an error, and `GetMessage`'s message otherwise. |
| `I18nProperties.LoadedFileAt` | ginI18n.go:69-73 | The j-th file loaded from a position on is the catalog at the path of the language j places further on, and that catalog loaded and parsed. |
| `I18nProperties.StopsAtFailingFile` | ginI18n.go:69-73 | When loading stops with an error, that error is the one raised by the catalog of the language right after the files that loaded. |
| `I18nProperties.LoadCatalogsAbortsOnFirstError` | ginI18n.go:68-75 | The j-th loaded file is the catalog at the j-th accepted language's path. When loading stops, the error is the one raised by the next language's catalog, and no later catalog's file is in the result. |
| `I18nProperties.LoadCatalogsSucceedsIffAllLoad` | ginI18n.go:68-75 | Loading succeeds exactly when every accepted language's catalog loads and parses. |
| `I18nProperties.CatalogPathShape` | ginI18n.go:70 | A catalog path ends with "." followed by the format, and the root joined with the tag comes before that suffix. |
| `I18nProperties.CatalogPathInjective` | ginI18n.go:70 | Under the same root and format, distinct languages have distinct catalog paths. |
| `I18nProperties.DefaultCatalogLoadedOnlyIfAccepted` | ginI18n.go:68-75 | When the default language is not accepted, no loaded file has its catalog path, and the catalog whose failure stops the loading does not have it either. |
| `I18nProperties.LocalizerMapKeys` | ginI18n.go:91-101 | The cache's keys are exactly the accepted languages plus the default language. |
| `I18nProperties.LocalizerMapEntries` | ginI18n.go:94-100 | Every cached localizer reads the bundle, tries its key first and the default language last, and has no repeated language. |
| `I18nProperties.LookupAfterBuild` | ginI18n.go:123-130 | After the cache is built, a lookup of any string succeeds. An accepted language gets its own candidate list, and any other string gets `[default]`. |
| `I18nProperties.UnknownLanguageFallsBack` | ginI18n.go:25-40 | After the cache is built, `GetMessage` for a language that was not accepted returns exactly what it returns for the default language. |
| `I18nProperties.BareIdIsPlainConfig` | ginI18n.go:132-140 | A bare message id is looked up exactly as a config holding only that id. |
| `I18nProperties.MustGetMessageAgrees` | ginI18n.go:43-46 | `MustGetMessage` is `""` exactly when `GetMessage` fails or localizes to `""`. |

## Left out

- go-i18n's `Localizer.Localize` (plural-category selection, template substitution, the search across candidate languages) is foreign code. It is the `localize` parameter, a function of the localizer and the config.
- `Loader.LoadMessage`, `Bundle.ParseMessageFileBytes` and `RegisterUnmarshalFunc` are I/O and a foreign parser. They are the `loader` and `parse` fields of `BundleCfg`. The bundle records the format, and the parse function stands for the registered unmarshal function. go-i18n's reading of the language tag from the file name is not modelled.
- Normalization of `language.Tag` values is not modelled: tags are plain strings. `filepath.Join` is modelled without its lexical cleaning (no collapsing of `..`, `.` or doubled separators).
- `SetCurrentContext`, the `currentContext` field, `SetGetLngHandler` and the language-extraction handler are per-request glue shared across goroutines. `GetMessage` takes the extracted language as its `lng` argument instead.
- I18n.GinI18nImpl.LoadMessageFiles: the `panic` on the first failure is returned as an error, and `SetBundle` passes it on. The state left behind is the one Go leaves if the panic is recovered: the new bundle and default language are set, and the cache is unchanged.
- I18n.GinI18nImpl.GetMessage: a supported parameter with no localizer to use (before the first `SetBundle`) is a nil dereference in go-i18n. The model excludes that case through its precondition.
- I18n.GinI18nImpl.MustGetMessage: it has the same precondition as `GetMessage`, which excludes the same nil dereference.
- go-i18n's `LocalizeConfig` is reduced to the fields a lookup fills in. `DefaultMessage` and `Funcs` are dropped. The `interface{}` fields `TemplateData` and `PluralCount` are modelled as `map<string, string>` and `Option<int>`.
- A `Localizer` holds a copy of the bundle value, where Go holds the shared `*i18n.Bundle` pointer. The difference cannot be observed here, because localizers are built only after loading has finished.
- A typed nil `*LocalizeConfig` is not modelled: `Param.Config` always holds a config value.
- Concurrent calls are not modelled. Every lookup is a function of the engine's state and its own arguments, so calls cannot share per-request state.

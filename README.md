# Kenguru localization layer, modelled in Dafny

This project models the localization layer of a small static campervan-rental website. It covers both managers:

- `I18nManager` (i18n.js) loads translation files only. When a file fails, it tries the default language once.
- `I18nManagerEmbedded` (i18n-embedded.js) falls back to tables bundled with the page.

It also models the local-storage consent notice (storage-notice.js), which asks the manager for its strings.

Each manager keeps the following page-wide state:

- a store of nested translation tables, by language;
- the current language (`null` until `init`);
- the fixed default language `"en"`;
- an append-only list of language-change callbacks.

It persists one preference, `userLanguage`, in local storage.

Modules:

- `Strings` (strings.dfy): JavaScript's `split` with a one-character separator, its inverse `join`, and the primary subtag of a browser language tag (`tag.split('-')[0]`, section 2.2.1 of RFC 5646).
- `Tables` (tables.dfy): translation values (`Leaf` string or nested `Table`), JavaScript truthiness, and the dot-path walk of `translate`. `Walk` is the loop; `Lookup` is its specification.
- `Dom` (dom.dfy): the page as a class `Page`. Its fields are:
  - local storage;
  - the document's elements, each an attribute map plus text;
  - the two language selectors;
  - the storage-notice element;
  - `navigator.language`;
  - the translation files the origin delivers;
  - a log of the files requested.

  The module also holds the `updatePageTranslations` and `updateLanguageSelector` loops that both managers share.
- `Locale` (locale.dfy): the preference key, the default language, the start-up language choice, and callback registration and dispatch.
- `I18n` (i18n.dfy) and `I18nEmbedded` (i18n_embedded.dfy): the two manager classes. The second one holds the bundled tables, copied entry for entry.
- `Consent` (storage_notice.dfy): the `StorageNotice` class and the localized-string fallback rule.
- `Scenarios` (scenarios.dfy): whole-page runs. They cover the offline Slovak start, a saved unsupported language, callback order, an ignored unsupported switch, the preference surviving a reload, attribute versus text routing, and the consent flow.

A fetch is modelled by `Page.served`, a map from language to parsed table. A language missing from it stands for a failed fetch: a network error, a non-ok status or malformed JSON. Each callback is an id, and each call is recorded in the manager's `invocations` log.

Three behaviours of the code shape the model:

- A saved preference is used verbatim, even when it is not a supported language.
- `loadLanguage` fetches again even when a table is already loaded. Only `changeLanguage` skips loaded languages.
- Callbacks are run in a plain loop, so one that throws is not isolated from the rest.

The model also shows one consequence of i18n.js as written (`I18n.FailedLoadLeavesLanguageAbsent`). Suppose the file for `sk` fails. Then `changeLanguage("sk")` loads `en`, but it still makes `sk` current. Every lookup then returns its key, so the English fallback is never displayed.

## Model

| member | source | states |
|---|---|---|
| Strings.Split | i18n.js:117 | `key.split('.')`: at least one part, no part contains the separator, and joining the parts gives back the key |
| Strings.SplitOfJoin | i18n.js:117 | Split undoes Join when no part contains the separator (the other half of the round trip) |
| Strings.PrimarySubtag | i18n.js:22 | `navigator.language.split('-')[0]` is the prefix of the tag that runs up to the first '-' or to the end |
| Strings.PrimarySubtagOf | i18n-embedded.js:70 | a tag `code` or `code-REGION` has primary subtag `code` |
| Strings.LowerChar | i18n.js:146 | ASCII lowercase of one character: 'A'..'Z' move to 'a'..'z', every other character is kept, and no upper-case letter results |
| Strings.AsciiLowercase | i18n.js:146 | the name `setAttribute` stores: same length, each character lowercased, no ASCII upper-case letter left |
| Strings.AsciiLowercaseFixes | i18n.js:146 | a name already free of upper-case letters is stored unchanged |
| Tables.Walk | i18n.js:115-131 | the cursor loop of `translate` returns exactly `Lookup`: the node at the end of the dot path (a string or a whole subtree), or the key as soon as the cursor is falsy or a segment is undefined |
| Tables.Truthy | i18n.js:122 | a value is truthy exactly when it is not the empty string |
| Tables.Child | i18n.js:122 | `n[seg] !== undefined` holds exactly when `n` is an object with own entry `seg`, and then yields that entry |
| Tables.Member | storage-notice.js:118 | optional chaining: an undefined or null base gives undefined; otherwise it is a property access |
| Tables.Resolve | i18n.js:121-128 | the empty path leaves the cursor; a step succeeds only from an object that has the segment |
| Tables.Lookup | i18n.js:115-131 | `translate` returns something other than its key only when the current table is an object |
| Tables.ToText | i18n.js:146-148 | `String(value)`: a string is itself, an object is "[object Object]", and the text is empty exactly for a falsy value |
| Tables.LookupWithoutTable | i18n-embedded.js:134-145 | with no table for the current language, every key comes back unchanged |
| Tables.LookupPath | i18n.js:115-131 | looking up the dot-joined form of a dot-free path walks exactly that path, and returns the key on a miss |
| Tables.LookupOneLevel | i18n-embedded.js:134-148 | a one-segment key returns its entry, including a nested object |
| Tables.LookupTwoLevels | i18n.js:115-131 | `outer.inner` returns the entry `inner` of the entry `outer` |
| Tables.LookupTwoLevelsMissing | i18n.js:121-127 | `outer.inner` with `inner` missing returns the key |
| Dom.TargetAttribute | i18n.js:144-145 | `data-i18n-attr` counts exactly when present and non-empty, and then names that value |
| Dom.WrittenAttribute | i18n.js:146 | the attribute written is the `data-i18n-attr` value in ASCII lowercase, and exists exactly when that value counts |
| Dom.Translated | i18n.js:139-149 | an unmarked element is unchanged; a marked one changes either its text or its attributes, never both, and loses no attribute |
| Dom.TranslatedAll | i18n.js:137-150 | every element, in order, is replaced by its translated form; unmarked elements are unchanged |
| Dom.TranslatedRouting | i18n.js:136-151 | a marked element with a non-empty `data-i18n-attr` gets the translation in that attribute (its name lowercased) only, and its text is untouched; otherwise it gets it as text only; unmarked elements are untouched |
| Dom.TranslatedAllIdempotent | i18n-embedded.js:150-163 | re-running the update with the same table changes nothing more, unless an element targets a marker attribute in any letter case |
| Dom.UpperCaseTargetOverwritesKey | i18n.js:144-146 | `data-i18n-attr="DATA-I18N"` overwrites the element's own `data-i18n` key with the translation and adds no new attribute |
| Dom.UpdateMarkedElements | i18n-embedded.js:150-163 | the loop over elements leaves each element exactly as one translation step makes it |
| Dom.Synced | i18n.js:158-167 | a selector that exists shows the language; a missing one stays missing |
| Dom.SyncSelectors | i18n-embedded.js:165-175 | each selector that exists shows the given language, and a missing one stays missing |
| Locale.InitialLanguage | i18n.js:17-33 | the start-up language is the saved preference, a supported language or the default |
| Locale.GetItem | i18n.js:18 | `localStorage.getItem(key)` is null exactly when the key is not stored, and otherwise the stored string |
| Locale.InitialLanguageSources | i18n.js:18-33 | a non-empty saved preference is used verbatim; otherwise the language is the browser's primary subtag if supported, else the default, and it is then a supported language or the default |
| Locale.InitialLanguageFromBrowser | i18n-embedded.js:67-75 | with nothing saved, browser language `code-REGION` selects a supported `code` |
| Locale.PreferenceRoundTrip | i18n.js:98 | once `userLanguage` holds a non-empty language, the next start-up picks it without consulting the browser |
| Locale.Registered | i18n.js:173-177 | a function is appended at the end and the earlier callbacks keep their order; a non-function leaves the list unchanged |
| Locale.Notifications | i18n.js:107 | one call per registered callback, in registration order, each with the new language |
| Locale.InvokeAll | i18n.js:107 | every registered callback is called exactly once, in registration order, with the new language |
| I18n.IsLanguageSupported | i18n.js:50-52 | true exactly for "en" and "sk" |
| I18n.AfterLoad | i18n.js:63-77 | a loaded file is stored under its language and nothing else changes; a failed load of a non-default language is exactly a load of the default, and a failed load of the default changes nothing; no table is ever removed |
| I18n.Fetches | i18n.js:63-77 | the requested file comes first; after a failure, a non-default language is followed by exactly one request for the default |
| I18n.NeedsLoad | i18n.js:90 | a language needs loading exactly when it has no table or its table is the empty string |
| I18n.I18nManager.constructor | i18n.js:6-11 | no tables, no current language, default "en", no callbacks |
| I18n.I18nManager.CurrentTable | i18n.js:118 | `this.translations[this.currentLanguage]` is undefined exactly when there is no current language or it has no table, and otherwise that table |
| I18n.I18nManager.Init | i18n.js:16-45 | picks the start-up language, loads it if it is supported, then updates the page and the selectors; only supported languages ever get tables |
| I18n.I18nManager.LoadLanguage | i18n.js:57-78 | an unsupported code changes nothing; otherwise it requests and stores as `AfterLoad` and `Fetches` say, and the recursion into the default ends |
| I18n.I18nManager.ChangeLanguage | i18n.js:83-110 | an unsupported code changes no state at all; otherwise it loads the language only if it has no truthy table, then (even if loading failed) sets it current, saves it, updates the page and selectors, and calls every callback in order |
| I18n.I18nManager.Translate | i18n.js:115-131 | the lookup in the current language's table |
| I18n.I18nManager.UpdatePageTranslations | i18n.js:136-151 | every element is translated with the current table |
| I18n.I18nManager.UpdateLanguageSelector | i18n.js:156-168 | both existing selectors show the current language |
| I18n.I18nManager.OnLanguageChange | i18n.js:173-177 | only functions are appended, in order |
| I18n.FailedLoadLeavesLanguageAbsent | i18n.js:70-77 | a failed non-default load leaves that language without a table, so with it current every key is echoed |
| I18nEmbedded.IsLanguageSupported | i18n-embedded.js:93-95 | true exactly for "en", "sk" and "hu" |
| I18nEmbedded.NeedsLoad | i18n-embedded.js:122 | a language needs loading exactly when its slot is missing, null or the empty string |
| I18nEmbedded.NavAndHero | i18n-embedded.js:16-59 | a bundled table is an object with exactly `nav` (five labels) and `hero` (title, subtitle, call to action) |
| I18nEmbedded.EmbeddedTables | i18n-embedded.js:16-59 | there is a bundled table for exactly en, sk and hu, each an object with `nav` and `hero` |
| I18nEmbedded.LoadedTable | i18n-embedded.js:103-113 | the fetched table when the file loads, the bundled table for that language otherwise |
| I18nEmbedded.I18nManagerEmbedded.constructor | i18n-embedded.js:7-64 | a null slot for each of en, sk and hu, no current language, default "en", no callbacks |
| I18nEmbedded.I18nManagerEmbedded.CurrentTable | i18n-embedded.js:136 | the current slot's table; none exactly when there is no current language, it has no slot, or its slot is null |
| I18nEmbedded.I18nManagerEmbedded.Init | i18n-embedded.js:66-91 | picks the start-up language verbatim from a saved preference (e.g. "fr") or from the browser; a supported one gets a table, an unsupported one changes no table |
| I18nEmbedded.I18nManagerEmbedded.LoadLanguage | i18n-embedded.js:97-114 | an unsupported code changes nothing; otherwise exactly one request is made, and the language's slot gets the file or the bundled table, with the default never retried |
| I18nEmbedded.I18nManagerEmbedded.ChangeLanguage | i18n-embedded.js:116-132 | as for i18n.js; in addition, a supported language always has a table afterwards |
| I18nEmbedded.I18nManagerEmbedded.Translate | i18n-embedded.js:134-148 | the lookup in the current language's table |
| I18nEmbedded.I18nManagerEmbedded.UpdatePageTranslations | i18n-embedded.js:150-163 | every element is translated with the current table |
| I18nEmbedded.I18nManagerEmbedded.UpdateLanguageSelector | i18n-embedded.js:165-175 | both existing selectors show the current language |
| I18nEmbedded.I18nManagerEmbedded.OnLanguageChange | i18n-embedded.js:177-181 | only functions are appended, in order |
| I18nEmbedded.NavAndHeroShape | i18n-embedded.js:16-59 | in a bundled table, `nav.home` is the home label, `nav.missing` echoes its key, and `nav` is an object |
| I18nEmbedded.EmbeddedNavHome | i18n-embedded.js:16-59 | every bundled table answers `nav.home` with a non-empty string |
| I18nEmbedded.OfflineSlovakHome | i18n-embedded.js:31-44 | when the Slovak file fails, `nav.home` is "Domov" |
| I18nEmbedded.EmbeddedMissesAndSubtrees | i18n-embedded.js:134-148 | in every bundled table, `nav.missing` returns "nav.missing" and `nav` returns the whole `nav` object |
| Consent.NoticeEntryTranslates | storage-notice.js:118-119 | when the optional chain finds a truthy entry, `translate` on the dotted key returns that entry |
| Consent.HasNoticeEntry | storage-notice.js:118 | the optional chain finds an entry exactly when the manager exists, its current table is an object with a `storage_notice` object, and the entry is a non-empty string or an object |
| Consent.LocalizedMessage | storage-notice.js:114-129 | the table's truthy `storage_notice.message`; otherwise the Slovak text exactly when the primary subtag is "sk", and the English text in every other case |
| Consent.LocalizedButtonText | storage-notice.js:131-146 | the same rule for `storage_notice.accept`, with "Prijať" / "Accept" |
| Consent.NoticeElements | storage-notice.js:61-81 | exactly two elements: the message paragraph marked `storage_notice.message` and the button marked `storage_notice.accept`, with the localized texts, neither of them empty |
| Consent.StorageNotice.constructor | storage-notice.js:7-11 | the notice starts not shown |
| Consent.StorageNotice.HasUserAccepted | storage-notice.js:28-30 | true exactly when the stored `storageConsentAccepted` value is "true" |
| Consent.StorageNotice.Init | storage-notice.js:13-26 | with consent given, nothing is created or scheduled; otherwise the notice is created hidden and showing it is scheduled |
| Consent.StorageNotice.CreateNotice | storage-notice.js:32-91 | adds the marked message and button elements with the localized texts, and a hidden notice if none exists |
| Consent.StorageNotice.ShowNotice | storage-notice.js:93-99 | displays the notice and sets `noticeShown` only if the notice exists |
| Consent.StorageNotice.HideNotice | storage-notice.js:101-107 | hides the notice and clears `noticeShown` only if the notice exists |
| Consent.StorageNotice.AcceptConsent | storage-notice.js:109-112 | consent is then recorded as "true"; if the notice exists it is hidden and `noticeShown` is false |
| Scenarios.OfflineSlovakStart | i18n-embedded.js:66-91 | offline, nothing saved, browser "sk-SK": the language is "sk" and `nav.home` is "Domov" |
| Scenarios.SavedUnsupportedStart | i18n-embedded.js:66-82 | saved "fr": current language "fr", nothing requested, every key echoed |
| Scenarios.SubscribersNotifiedInOrder | i18n-embedded.js:126-130 | two callbacks are called once each, in order, with "hu"; a non-function is ignored; "hu" is saved |
| Scenarios.UnsupportedSwitchIgnored | i18n.js:83-87 | switching to "fr" leaves the language, storage and callback log as they were |
| Scenarios.ChangedLanguageTranslates | i18n.js:83-131 | after `changeLanguage(lang)` on a fresh manager whose file loads, `translate("outer.inner")` returns the entry stored in that file |
| Scenarios.PreferenceSurvivesReload | i18n.js:95-98 | after `changeLanguage(lang)`, a fresh manager starts in `lang` |
| Scenarios.HeroTitleRouting | i18n.js:144-149 | `hero.title` becomes the text of a plain element, and the `alt` attribute (not the text) of an element targeting "alt" |
| Scenarios.ConsentFlow | storage-notice.js:13-26 | the first visit creates and schedules the notice; after acceptance it is not shown, and a later visit does neither |

## Left out

- Fetching and JSON parsing are replaced by `Page.served`, which is fixed for the page's lifetime. A file that loads on one request and fails on the next is not modelled.
- JSON values other than strings and objects (numbers, booleans, null, arrays) are not modelled. A leaf string has no properties: JavaScript's character indexing and `length` on strings are left out. So are inherited object members such as `constructor`, which a path or language code could name.
- async/await interleaving of overlapping `init`/`changeLanguage` calls is left out. Each call is one atomic step.
- All `console.*` logging is left out.
- Local storage access is assumed never to throw. Blocked storage would make `getItem`/`setItem` throw. At i18n.js:98 (i18n-embedded.js:127), that throw comes after `currentLanguage` is set, so the page update, selector sync and callbacks would be skipped. At i18n.js:18 (i18n-embedded.js:67) it would abort `init`, and at storage-notice.js:29 and 110 it would abort the notice.
- The `DOMContentLoaded` handlers and the selectors' `change` listeners are left out. So are the `setTimeout` delays: `StorageNotice.Init` returns whether showing the notice was scheduled.
- The inline styles and element creation of `createNotice` are left out. Its `innerHTML` assignment is treated as plain text.
- Nesting of elements is left out. Assigning `innerText` removes child elements, but the model treats marked elements as independent.
- `setAttribute` throwing on an invalid attribute name is left out.
- Only HTML elements in an HTML document are modelled, where `setAttribute` lowercases the name. The attribute names already on an element are assumed to be in lower case, as the HTML parser stores them. So `getAttribute` is an exact map lookup.
- A `select` element's value is modelled as the string assigned to it, without matching it against the element's options.
- Callbacks are modelled as effect-free ids that never throw. A throwing callback would stop the remaining ones; that is not modelled.
- The `catch` branch of `I18nManagerEmbedded.init` is not modelled. It cannot be reached because `loadLanguage` catches every fetch failure itself.
- The notice reaches the manager through the global `i18n`. Here it gets a `Localizer` value instead: either undefined, or the manager's current table.
- I18n.I18nManager.UpdateLanguageSelector: requires a current language to be set. Both callers in the source set one first, so the null case is left out.
- I18nEmbedded.I18nManagerEmbedded.UpdateLanguageSelector: requires a current language, for the same reason.
- script.js (menu toggle, footer year) and server.js (static file server) are not part of this model.

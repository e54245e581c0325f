/** `I18nManager`: the variant that only loads translation files, falling
    back to the default language when a file cannot be loaded. */
module I18n {
  import opened Strings
  import opened Tables
  import opened Dom
  import opened Locale

  /** The languages `isLanguageSupported` accepts. */
  const Supported: set<string> := {"en", "sk"}

  /** `['en', 'sk'].includes(lang)`. */
  function IsLanguageSupported(lang: string): (supported: bool)
    ensures supported <==> lang == "en" || lang == "sk"
    ensures supported <==> lang in Supported
  {
    lang in ["en", "sk"]
  }

  /** The store after `loadLanguage(lang)` for a supported `lang`: the file
      for `lang` when it loads, otherwise (for a language other than the
      default) the file for the default when that one loads. */
  function AfterLoad(translations: map<string, Node>, lang: string, served: map<string, Node>): (r: map<string, Node>)
    ensures lang in served ==> r == translations[lang := served[lang]]
    ensures lang !in served ==> (lang in r <==> lang in translations)
    ensures forall l :: l != lang && l != DefaultLanguage ==>
      (l in r <==> l in translations) && (l in r ==> r[l] == translations[l])
    ensures translations.Keys <= r.Keys <= translations.Keys + {lang, DefaultLanguage}
    ensures lang !in served ==>
      r == if lang != DefaultLanguage then AfterLoad(translations, DefaultLanguage, served) else translations
    decreases if lang == DefaultLanguage then 0 else 1
  {
    if lang in served then translations[lang := served[lang]]
    else if lang != DefaultLanguage && DefaultLanguage in served then
      translations[DefaultLanguage := served[DefaultLanguage]]
    else translations
  }

  /** The files `loadLanguage(lang)` requests for a supported `lang`: that
      of `lang`, then the default's exactly once if the first failed. */
  function Fetches(lang: string, served: map<string, Node>): (r: seq<string>)
    ensures 1 <= |r| <= 2 && r[0] == lang
    ensures |r| == 2 <==> lang !in served && lang != DefaultLanguage
    ensures |r| == 2 ==> r[1] == DefaultLanguage
  {
    if lang in served || lang == DefaultLanguage then [lang] else [lang, DefaultLanguage]
  }

  /** `!this.translations[lang]`: no table yet, or a falsy one. */
  predicate NeedsLoad(translations: map<string, Node>, lang: string)
    ensures NeedsLoad(translations, lang) <==> lang !in translations || translations[lang] == Leaf("")
  {
    lang !in translations || !Truthy(translations[lang])
  }

  class I18nManager {
    /** `this.translations`: the loaded tables, by language. */
    var translations: map<string, Node>
    /** `this.currentLanguage`: None stands for the initial `null`. */
    var currentLanguage: Option<string>
    const defaultLanguage: string := DefaultLanguage
    /** `this.languageChangeCallbacks`. */
    var languageChangeCallbacks: seq<nat>
    /** The callback invocations made so far, in order. */
    var invocations: seq<Call>

    /** Only supported languages ever get a table. */
    ghost predicate Valid()
      reads this
    {
      forall lang :: lang in translations ==> IsLanguageSupported(lang)
    }

    constructor()
      ensures Valid()
      ensures translations == map[] && currentLanguage == None
      ensures languageChangeCallbacks == [] && invocations == []
    {
      translations := map[];
      currentLanguage := None;
      languageChangeCallbacks := [];
      invocations := [];
    }

    /** `this.translations[this.currentLanguage]`. */
    function CurrentTable(): (t: Option<Node>)
      reads this
      ensures t.None? <==> currentLanguage.None? || currentLanguage.value !in translations
      ensures t.Some? ==> t.value == translations[currentLanguage.value]
    {
      if currentLanguage.Some? && currentLanguage.value in translations then
        Some(translations[currentLanguage.value])
      else None
    }

    method Init(page: Page)
      requires Valid()
      modifies this`currentLanguage, this`translations, page`requests, page`elements,
               page`desktopSelector, page`mobileSelector
      ensures Valid()
      ensures currentLanguage == Some(InitialLanguage(Supported, page.storage, page.language))
      ensures var lang := currentLanguage.value;
        && (IsLanguageSupported(lang) ==>
              translations == AfterLoad(old(translations), lang, page.served)
              && page.requests == old(page.requests) + Fetches(lang, page.served))
        && (!IsLanguageSupported(lang) ==>
              translations == old(translations) && page.requests == old(page.requests))
      ensures page.elements == TranslatedAll(old(page.elements), CurrentTable())
      ensures page.desktopSelector == Synced(old(page.desktopSelector), currentLanguage.value)
      ensures page.mobileSelector == Synced(old(page.mobileSelector), currentLanguage.value)
    {
      var savedLanguage := GetItem(page.storage, PreferenceKey);
      if savedLanguage.None? || savedLanguage.value == "" {
        var browserLang := PrimarySubtag(page.language);
        if IsLanguageSupported(browserLang) {
          currentLanguage := Some(browserLang);
        } else {
          currentLanguage := Some(defaultLanguage);
        }
      } else {
        currentLanguage := savedLanguage;
      }
      LoadLanguage(currentLanguage.value, page);
      UpdatePageTranslations(page);
      UpdateLanguageSelector(page);
    }

    /** The recursion ends because the default language never recurses. */
    method LoadLanguage(lang: string, page: Page)
      requires Valid()
      modifies this`translations, page`requests
      ensures Valid()
      ensures IsLanguageSupported(lang) ==>
        translations == AfterLoad(old(translations), lang, page.served)
        && page.requests == old(page.requests) + Fetches(lang, page.served)
      ensures !IsLanguageSupported(lang) ==>
        translations == old(translations) && page.requests == old(page.requests)
      decreases if lang == defaultLanguage then 0 else 1
    {
      if !IsLanguageSupported(lang) {
        return;
      }
      page.requests := page.requests + [lang];
      if lang in page.served {
        translations := translations[lang := page.served[lang]];
      } else if lang != defaultLanguage {
        LoadLanguage(defaultLanguage, page);
      }
    }

    method ChangeLanguage(lang: string, page: Page)
      requires Valid()
      modifies this`currentLanguage, this`translations, this`invocations, page`storage,
               page`requests, page`elements, page`desktopSelector, page`mobileSelector
      ensures Valid()
      ensures !IsLanguageSupported(lang) ==>
        && currentLanguage == old(currentLanguage) && translations == old(translations)
        && invocations == old(invocations)
        && page.storage == old(page.storage) && page.requests == old(page.requests)
        && page.elements == old(page.elements)
        && page.desktopSelector == old(page.desktopSelector) && page.mobileSelector == old(page.mobileSelector)
      ensures IsLanguageSupported(lang) ==>
        && (NeedsLoad(old(translations), lang) ==>
              translations == AfterLoad(old(translations), lang, page.served)
              && page.requests == old(page.requests) + Fetches(lang, page.served))
        && (!NeedsLoad(old(translations), lang) ==>
              translations == old(translations) && page.requests == old(page.requests))
        && currentLanguage == Some(lang)
        && page.storage == old(page.storage)[PreferenceKey := lang]
        && page.elements == TranslatedAll(old(page.elements), CurrentTable())
        && page.desktopSelector == Synced(old(page.desktopSelector), lang)
        && page.mobileSelector == Synced(old(page.mobileSelector), lang)
        && invocations == old(invocations) + Notifications(languageChangeCallbacks, lang)
    {
      if !IsLanguageSupported(lang) {
        return;
      }
      if NeedsLoad(translations, lang) {
        LoadLanguage(lang, page);
      }
      currentLanguage := Some(lang);
      page.storage := page.storage[PreferenceKey := lang];
      UpdatePageTranslations(page);
      UpdateLanguageSelector(page);
      var calls := InvokeAll(languageChangeCallbacks, lang);
      invocations := invocations + calls;
    }

    method Translate(key: string) returns (r: Node)
      ensures r == Lookup(CurrentTable(), key)
    {
      r := Walk(CurrentTable(), key);
    }

    method UpdatePageTranslations(page: Page)
      modifies page`elements
      ensures page.elements == TranslatedAll(old(page.elements), CurrentTable())
    {
      UpdateMarkedElements(page, CurrentTable());
    }

    /** Only called once a current language is set. */
    method UpdateLanguageSelector(page: Page)
      requires currentLanguage.Some?
      modifies page`desktopSelector, page`mobileSelector
      ensures page.desktopSelector == Synced(old(page.desktopSelector), currentLanguage.value)
      ensures page.mobileSelector == Synced(old(page.mobileSelector), currentLanguage.value)
    {
      SyncSelectors(page, currentLanguage.value);
    }

    method OnLanguageChange(callback: Listener)
      modifies this`languageChangeCallbacks
      ensures languageChangeCallbacks == Registered(old(languageChangeCallbacks), callback)
    {
      if callback.Callback? {
        languageChangeCallbacks := languageChangeCallbacks + [callback.id];
      }
    }
  }

  /** A failed load of a non-default language leaves that language without
      a table even though the default may have been loaded, so with that
      language current every lookup echoes its key. */
  lemma FailedLoadLeavesLanguageAbsent(translations: map<string, Node>, lang: string, served: map<string, Node>, key: string)
    requires lang !in translations && lang !in served && lang != DefaultLanguage
    ensures var after := AfterLoad(translations, lang, served);
      && lang !in after
      && Lookup(if lang in after then Some(after[lang]) else None, key) == Leaf(key)
  {
    LookupWithoutTable(key);
  }
}

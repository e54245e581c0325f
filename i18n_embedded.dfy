/** `I18nManagerEmbedded`: the variant that falls back to tables bundled
    with the page when a translation file cannot be loaded. */
module I18nEmbedded {
  import opened Strings
  import opened Tables
  import opened Dom
  import opened Locale

  /** The languages `isLanguageSupported` accepts. */
  const Supported: set<string> := {"en", "sk", "hu"}

  /** `['en', 'sk', 'hu'].includes(lang)`. */
  function IsLanguageSupported(lang: string): (supported: bool)
    ensures supported <==> lang == "en" || lang == "sk" || lang == "hu"
    ensures supported <==> lang in Supported
  {
    lang in ["en", "sk", "hu"]
  }

  function NavAndHero(home: string, ourRvs: string, caravanning: string, pricing: string, contact: string,
                      title: string, subtitle: string, cta: string): (t: Node)
    ensures t.Table? && t.entries.Keys == {"nav", "hero"}
    ensures t.entries["nav"].Table? && t.entries["nav"].entries.Keys == {"home", "our_rvs", "caravanning", "pricing", "contact"}
    ensures t.entries["hero"].Table? && t.entries["hero"].entries.Keys == {"title", "subtitle", "cta"}
  {
    Table(map[
      "nav" := Table(map[
        "home" := Leaf(home),
        "our_rvs" := Leaf(ourRvs),
        "caravanning" := Leaf(caravanning),
        "pricing" := Leaf(pricing),
        "contact" := Leaf(contact)]),
      "hero" := Table(map[
        "title" := Leaf(title),
        "subtitle" := Leaf(subtitle),
        "cta" := Leaf(cta)])])
  }

  const HungarianSubtitle := "Az Ön partnere az utakon. Béreljen modern és teljesen felszerelt lakókocsit, és éljen át felejthetetlen kalandokat Szlovákiában és egész Európában."
  const SlovakSubtitle := "Sme vaším partnerom na cestách. Prenajmite si moderný a plne vybavený karavan a zažite nezabudnuteľné dobrodružstvo na Slovensku a v celej Európe."
  const EnglishSubtitle := "Your partner on the road. Rent a modern and fully equipped RV and experience unforgettable adventures in Slovakia and throughout Europe."

  /** `this.embeddedTranslations`: the bundled partial tables. */
  const EmbeddedTranslations: map<string, Node> := map[
    "hu" := NavAndHero("Főoldal", "Ford Siena 395 F", "Lakókocsizás", "Árlista", "Kapcsolat",
      "Üdvözöljük a Kenguru Campers-nél!",
      HungarianSubtitle,
      "Ford Siena 395 F megtekintése"),
    "sk" := NavAndHero("Domov", "Ford Siena 395 F", "Karavánovanie", "Cenník", "Kontakt",
      "Vitajte v Kenguru Campers!",
      SlovakSubtitle,
      "Pozrieť Ford Siena 395 F"),
    "en" := NavAndHero("Home", "Our RVs", "Caravanning", "Pricing", "Contact",
      "Welcome to Kenguru Campers!",
      EnglishSubtitle,
      "View Ford Siena 395 F")]

  /** The table `loadLanguage(lang)` stores for a supported `lang`: the file
      when it loads, the bundled table otherwise. */
  function LoadedTable(lang: string, served: map<string, Node>): (t: Node)
    requires IsLanguageSupported(lang)
    ensures lang in served ==> t == served[lang]
    ensures lang !in served ==> t == EmbeddedTranslations[lang]
  {
    if lang in served then served[lang] else EmbeddedTranslations[lang]
  }

  /** `!this.translations[lang]`: still null, or a falsy table. */
  predicate NeedsLoad(translations: map<string, Option<Node>>, lang: string)
    ensures NeedsLoad(translations, lang) <==>
      lang !in translations || translations[lang] == None || translations[lang] == Some(Leaf(""))
  {
    lang !in translations || translations[lang].None? || !Truthy(translations[lang].value)
  }

  class I18nManagerEmbedded {
    /** `this.translations`: a slot per supported language, None for `null`. */
    var translations: map<string, Option<Node>>
    /** `this.currentLanguage`: None stands for the initial `null`. */
    var currentLanguage: Option<string>
    const defaultLanguage: string := DefaultLanguage
    /** `this.embeddedTranslations`. */
    const embeddedTranslations: map<string, Node> := EmbeddedTranslations
    /** `this.languageChangeCallbacks`. */
    var languageChangeCallbacks: seq<nat>
    /** The callback invocations made so far, in order. */
    var invocations: seq<Call>

    /** The store has exactly one slot per supported language. */
    ghost predicate Valid()
      reads this
    {
      translations.Keys == Supported
    }

    constructor()
      ensures Valid()
      ensures translations == map["en" := None, "sk" := None, "hu" := None]
      ensures currentLanguage == None && defaultLanguage == "en"
      ensures languageChangeCallbacks == [] && invocations == []
    {
      translations := map["en" := None, "sk" := None, "hu" := None];
      currentLanguage := None;
      languageChangeCallbacks := [];
      invocations := [];
    }

    /** `this.translations[this.currentLanguage]`. */
    function CurrentTable(): (t: Option<Node>)
      reads this
      ensures t.None? <==>
        currentLanguage.None? || currentLanguage.value !in translations || translations[currentLanguage.value].None?
      ensures t.Some? ==> translations[currentLanguage.value] == t
    {
      if currentLanguage.Some? && currentLanguage.value in translations then
        translations[currentLanguage.value]
      else None
    }

    /** The `catch` around `loadLanguage` is not modelled: `loadLanguage`
        handles every failure of the fetch itself. */
    method Init(page: Page)
      requires Valid()
      modifies this`currentLanguage, this`translations, page`requests, page`elements,
               page`desktopSelector, page`mobileSelector
      ensures Valid()
      ensures currentLanguage == Some(InitialLanguage(Supported, page.storage, page.language))
      ensures var lang := currentLanguage.value;
        && (IsLanguageSupported(lang) ==>
              translations == old(translations)[lang := Some(LoadedTable(lang, page.served))]
              && page.requests == old(page.requests) + [lang])
        && (!IsLanguageSupported(lang) ==>
              translations == old(translations) && page.requests == old(page.requests))
      ensures page.elements == TranslatedAll(old(page.elements), CurrentTable())
      ensures page.desktopSelector == Synced(old(page.desktopSelector), currentLanguage.value)
      ensures page.mobileSelector == Synced(old(page.mobileSelector), currentLanguage.value)
    {
      var savedLanguage := GetItem(page.storage, PreferenceKey);
      if savedLanguage.None? || savedLanguage.value == "" {
        var browserLang := PrimarySubtag(page.language);
        if IsLanguageSupported(browserLang) {
          currentLanguage := Some(browserLang);
        } else {
          currentLanguage := Some(defaultLanguage);
        }
      } else {
        currentLanguage := savedLanguage;
      }
      LoadLanguage(currentLanguage.value, page);
      UpdatePageTranslations(page);
      UpdateLanguageSelector(page);
    }

    /** One request at most: the default language is never tried instead. */
    method LoadLanguage(lang: string, page: Page)
      requires Valid()
      modifies this`translations, page`requests
      ensures Valid()
      ensures IsLanguageSupported(lang) ==>
        translations == old(translations)[lang := Some(LoadedTable(lang, page.served))]
        && page.requests == old(page.requests) + [lang]
      ensures !IsLanguageSupported(lang) ==>
        translations == old(translations) && page.requests == old(page.requests)
    {
      if !IsLanguageSupported(lang) {
        return;
      }
      page.requests := page.requests + [lang];
      if lang in page.served {
        translations := translations[lang := Some(page.served[lang])];
      } else {
        translations := translations[lang := Some(embeddedTranslations[lang])];
      }
    }

    method ChangeLanguage(lang: string, page: Page)
      requires Valid()
      modifies this`currentLanguage, this`translations, this`invocations, page`storage,
               page`requests, page`elements, page`desktopSelector, page`mobileSelector
      ensures Valid()
      ensures !IsLanguageSupported(lang) ==>
        && currentLanguage == old(currentLanguage) && translations == old(translations)
        && invocations == old(invocations)
        && page.storage == old(page.storage) && page.requests == old(page.requests)
        && page.elements == old(page.elements)
        && page.desktopSelector == old(page.desktopSelector) && page.mobileSelector == old(page.mobileSelector)
      ensures IsLanguageSupported(lang) ==>
        && (NeedsLoad(old(translations), lang) ==>
              translations == old(translations)[lang := Some(LoadedTable(lang, page.served))]
              && page.requests == old(page.requests) + [lang])
        && (!NeedsLoad(old(translations), lang) ==>
              translations == old(translations) && page.requests == old(page.requests))
        && currentLanguage == Some(lang)
        && CurrentTable().Some?
        && page.storage == old(page.storage)[PreferenceKey := lang]
        && page.elements == TranslatedAll(old(page.elements), CurrentTable())
        && page.desktopSelector == Synced(old(page.desktopSelector), lang)
        && page.mobileSelector == Synced(old(page.mobileSelector), lang)
        && invocations == old(invocations) + Notifications(languageChangeCallbacks, lang)
    {
      if !IsLanguageSupported(lang) {
        return;
      }
      if NeedsLoad(translations, lang) {
        LoadLanguage(lang, page);
      }
      currentLanguage := Some(lang);
      page.storage := page.storage[PreferenceKey := lang];
      UpdatePageTranslations(page);
      UpdateLanguageSelector(page);
      var calls := InvokeAll(languageChangeCallbacks, lang);
      invocations := invocations + calls;
    }

    method Translate(key: string) returns (r: Node)
      ensures r == Lookup(CurrentTable(), key)
    {
      r := Walk(CurrentTable(), key);
    }

    method UpdatePageTranslations(page: Page)
      modifies page`elements
      ensures page.elements == TranslatedAll(old(page.elements), CurrentTable())
    {
      UpdateMarkedElements(page, CurrentTable());
    }

    /** Only called once a current language is set. */
    method UpdateLanguageSelector(page: Page)
      requires currentLanguage.Some?
      modifies page`desktopSelector, page`mobileSelector
      ensures page.desktopSelector == Synced(old(page.desktopSelector), currentLanguage.value)
      ensures page.mobileSelector == Synced(old(page.mobileSelector), currentLanguage.value)
    {
      SyncSelectors(page, currentLanguage.value);
    }

    method OnLanguageChange(callback: Listener)
      modifies this`languageChangeCallbacks
      ensures languageChangeCallbacks == Registered(old(languageChangeCallbacks), callback)
    {
      if callback.Callback? {
        languageChangeCallbacks := languageChangeCallbacks + [callback.id];
      }
    }
  }

  /** The entries of a bundled table that the lemmas below rely on. */
  lemma NavAndHeroShape(home: string, ourRvs: string, caravanning: string, pricing: string, contact: string,
                        title: string, subtitle: string, cta: string)
    ensures var t := NavAndHero(home, ourRvs, caravanning, pricing, contact, title, subtitle, cta);
      && Lookup(Some(t), "nav.home") == Leaf(home)
      && Lookup(Some(t), "nav.missing") == Leaf("nav.missing")
      && Lookup(Some(t), "nav") == t.entries["nav"]
      && t.entries["nav"].Table?
  {
    var t := NavAndHero(home, ourRvs, caravanning, pricing, contact, title, subtitle, cta);
    assert "nav" in t.entries;
    assert "home" in t.entries["nav"].entries && "missing" !in t.entries["nav"].entries;
    LookupTwoLevels(t.entries, "nav", "home");
    LookupTwoLevelsMissing(t.entries, "nav", "missing");
    LookupOneLevel(t.entries, "nav");
  }

  /** There is a bundled table for exactly the supported languages, and each
      is an object holding `nav` and `hero`. */
  lemma EmbeddedTables()
    ensures EmbeddedTranslations.Keys == Supported
    ensures forall lang :: lang in EmbeddedTranslations ==>
      EmbeddedTranslations[lang].Table? && EmbeddedTranslations[lang].entries.Keys == {"nav", "hero"}
  {
  }

  /** Every bundled table answers `nav.home` with a non-empty string, so the
      page is usable offline in each supported language. */
  lemma EmbeddedNavHome(lang: string)
    requires IsLanguageSupported(lang)
    ensures Lookup(Some(EmbeddedTranslations[lang]), "nav.home").Leaf?
    ensures Lookup(Some(EmbeddedTranslations[lang]), "nav.home").text != ""
  {
    if lang == "en" {
      NavAndHeroShape("Home", "Our RVs", "Caravanning", "Pricing", "Contact",
        "Welcome to Kenguru Campers!", EnglishSubtitle, "View Ford Siena 395 F");
    } else if lang == "sk" {
      NavAndHeroShape("Domov", "Ford Siena 395 F", "Karavánovanie", "Cenník", "Kontakt",
        "Vitajte v Kenguru Campers!", SlovakSubtitle, "Pozrieť Ford Siena 395 F");
    } else {
      NavAndHeroShape("Főoldal", "Ford Siena 395 F", "Lakókocsizás", "Árlista", "Kapcsolat",
        "Üdvözöljük a Kenguru Campers-nél!", HungarianSubtitle, "Ford Siena 395 F megtekintése");
    }
  }

  /** Offline in Slovak: with the file for "sk" unavailable, `nav.home` is
      "Domov". */
  lemma OfflineSlovakHome(served: map<string, Node>)
    requires "sk" !in served
    ensures Lookup(Some(LoadedTable("sk", served)), "nav.home") == Leaf("Domov")
  {
    NavAndHeroShape("Domov", "Ford Siena 395 F", "Karavánovanie", "Cenník", "Kontakt",
      "Vitajte v Kenguru Campers!", SlovakSubtitle, "Pozrieť Ford Siena 395 F");
  }

  /** In the bundled tables a missing entry under `nav` echoes its key, and
      `nav` alone yields the whole `nav` object. */
  lemma EmbeddedMissesAndSubtrees(lang: string)
    requires IsLanguageSupported(lang)
    ensures Lookup(Some(EmbeddedTranslations[lang]), "nav.missing") == Leaf("nav.missing")
    ensures Lookup(Some(EmbeddedTranslations[lang]), "nav") == EmbeddedTranslations[lang].entries["nav"]
    ensures Lookup(Some(EmbeddedTranslations[lang]), "nav").Table?
  {
    if lang == "en" {
      NavAndHeroShape("Home", "Our RVs", "Caravanning", "Pricing", "Contact",
        "Welcome to Kenguru Campers!", EnglishSubtitle, "View Ford Siena 395 F");
    } else if lang == "sk" {
      NavAndHeroShape("Domov", "Ford Siena 395 F", "Karavánovanie", "Cenník", "Kontakt",
        "Vitajte v Kenguru Campers!", SlovakSubtitle, "Pozrieť Ford Siena 395 F");
    } else {
      NavAndHeroShape("Főoldal", "Ford Siena 395 F", "Lakókocsizás", "Árlista", "Kapcsolat",
        "Üdvözöljük a Kenguru Campers-nél!", HungarianSubtitle, "Ford Siena 395 F megtekintése");
    }
  }
}

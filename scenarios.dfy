/** Whole-page runs of the managers, as a page would drive them. */
module Scenarios {
  import opened Strings
  import opened Tables
  import opened Dom
  import opened Locale
  import I18n
  import I18nEmbedded
  import Consent

  /** Offline start in Slovakia: no file loads, nothing saved, browser
      language "sk-SK". The embedded manager starts in Slovak and `nav.home`
      reads "Domov". */
  method OfflineSlovakStart() returns (lang: Option<string>, home: Node)
    ensures lang == Some("sk")
    ensures home == Leaf("Domov")
  {
    var page := new Page("sk-SK", map[], map[], [], Missing, Missing);
    var i18n := new I18nEmbedded.I18nManagerEmbedded();
    assert "sk" + "-SK" == "sk-SK";
    InitialLanguageFromBrowser(I18nEmbedded.Supported, map[], "sk", "-SK");
    i18n.Init(page);
    I18nEmbedded.OfflineSlovakHome(page.served);
    lang := i18n.currentLanguage;
    home := i18n.Translate("nav.home");
  }

  /** A saved but unsupported preference "fr" is taken verbatim; nothing is
      loaded, and every key comes back unchanged. */
  method SavedUnsupportedStart(key: string) returns (lang: Option<string>, requests: seq<string>, r: Node)
    ensures lang == Some("fr")
    ensures requests == []
    ensures r == Leaf(key)
  {
    var page := new Page("en-US", map[], map[PreferenceKey := "fr"], [], Missing, Missing);
    var i18n := new I18nEmbedded.I18nManagerEmbedded();
    i18n.Init(page);
    lang := i18n.currentLanguage;
    requests := page.requests;
    LookupWithoutTable(key);
    r := i18n.Translate(key);
  }

  /** Two callbacks registered (and one non-function ignored), then a switch
      to Hungarian: each callback is called once, in registration order, with
      "hu". */
  method SubscribersNotifiedInOrder() returns (calls: seq<Call>, saved: string)
    ensures calls == [Call(1, "hu"), Call(2, "hu")]
    ensures saved == "hu"
  {
    var page := new Page("en-US", map[], map[], [], Select("en"), Missing);
    var i18n := new I18nEmbedded.I18nManagerEmbedded();
    i18n.OnLanguageChange(Callback(1));
    i18n.OnLanguageChange(NotCallable);
    i18n.OnLanguageChange(Callback(2));
    i18n.ChangeLanguage("hu", page);
    calls := i18n.invocations;
    saved := page.storage[PreferenceKey];
  }

  /** After a switch to English, a switch to the unsupported "fr" touches
      neither the current language nor storage nor the callbacks. */
  method UnsupportedSwitchIgnored() returns (lang: Option<string>, storage: map<string, string>, calls: seq<Call>)
    ensures lang == Some("en")
    ensures storage == map[PreferenceKey := "en"]
    ensures calls == [Call(7, "en")]
  {
    var page := new Page("en-US", map[], map[], [], Missing, Missing);
    var i18n := new I18n.I18nManager();
    i18n.OnLanguageChange(Callback(7));
    i18n.ChangeLanguage("en", page);
    i18n.ChangeLanguage("fr", page);
    lang := i18n.currentLanguage;
    storage := page.storage;
    calls := i18n.invocations;
  }

  /** The choice made with `changeLanguage` is the language of the next
      page load, whatever the browser language. */
  method PreferenceSurvivesReload(lang: string, page: Page) returns (reloaded: Option<string>)
    requires I18n.IsLanguageSupported(lang)
    modifies page
    ensures reloaded == Some(lang)
  {
    var before := new I18n.I18nManager();
    before.ChangeLanguage(lang, page);
    PreferenceRoundTrip(I18n.Supported, old(page.storage), lang, page.language);
    var after := new I18n.I18nManager();
    after.Init(page);
    reloaded := after.currentLanguage;
  }

  /** After `changeLanguage(lang)` on a fresh manager, whose file loads,
      `translate("outer.inner")` returns the entry stored in that file. */
  method ChangedLanguageTranslates(lang: string, outer: string, inner: string, page: Page) returns (r: Node)
    requires I18n.IsLanguageSupported(lang) && lang in page.served
    requires '.' !in outer && '.' !in inner
    requires page.served[lang].Table? && outer in page.served[lang].entries
    requires page.served[lang].entries[outer].Table? && inner in page.served[lang].entries[outer].entries
    modifies page
    ensures r == page.served[lang].entries[outer].entries[inner]
  {
    var i18n := new I18n.I18nManager();
    i18n.ChangeLanguage(lang, page);
    assert i18n.CurrentTable() == Some(Table(page.served[lang].entries));
    LookupTwoLevels(page.served[lang].entries, outer, inner);
    r := i18n.Translate(outer + "." + inner);
  }

  /** `hero.title` on a plain element becomes its text; on an element whose
      `data-i18n-attr` is "alt" it becomes the `alt` attribute and the text
      stays. */
  method HeroTitleRouting() returns (plain: Element, image: Element)
    ensures plain.text == "Welcome to Kenguru Campers!"
    ensures image.text == "photo" && "alt" in image.attributes && image.attributes["alt"] == "Welcome to Kenguru Campers!"
  {
    AsciiLowercaseFixes("alt");
    var text := Element(map[KeyMarker := "hero.title"], "");
    var alt := Element(map[KeyMarker := "hero.title", TargetMarker := "alt"], "photo");
    assert WrittenAttribute(alt) == Some("alt");
    var page := new Page("en-US", map[], map[], [text, alt], Missing, Missing);
    var i18n := new I18nEmbedded.I18nManagerEmbedded();
    i18n.ChangeLanguage("en", page);
    var en := I18nEmbedded.EmbeddedTranslations["en"];
    assert i18n.CurrentTable() == Some(en);
    LookupTwoLevels(en.entries, "hero", "title");
    assert "hero" + "." + "title" == "hero.title";
    plain := page.elements[0];
    image := page.elements[1];
  }

  /** A first visit creates the notice (its two marked elements) and
      schedules it; accepting hides it and records consent, after which a
      later visit neither creates nor schedules it. */
  method ConsentFlow() returns (firstScheduled: bool, shownAfterAccept: bool, laterScheduled: bool, marked: nat)
    ensures firstScheduled && !shownAfterAccept && !laterScheduled
    ensures marked == 2
  {
    var page := new Page("sk-SK", map[], map[], [], Missing, Missing);
    var notice := new Consent.StorageNotice();
    firstScheduled := notice.Init(page, Consent.NoLocalizer);
    notice.ShowNotice(page);
    notice.AcceptConsent(page);
    shownAfterAccept := notice.noticeShown;
    var later := new Consent.StorageNotice();
    laterScheduled := later.Init(page, Consent.NoLocalizer);
    marked := |page.elements|;
  }
}

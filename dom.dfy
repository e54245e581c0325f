/** The page the localization code runs in, reduced to what it reads and
    writes: local storage, the marked elements, the two language selectors,
    the storage notice, the browser language, and the translation files the
    origin can deliver. */
module Dom {
  import opened Strings
  import opened Tables

  /** Attribute holding an element's dot-path key. */
  const KeyMarker := "data-i18n"
  /** Attribute naming the attribute that receives the translation. */
  const TargetMarker := "data-i18n-attr"

  /** An element: its attributes, named in lower case as the HTML parser
      and `setAttribute` store them, and its visible text. */
  datatype Element = Element(attributes: map<string, string>, text: string)

  /** A language selector: absent from the page, or present with a value. */
  datatype Selector = Missing | Select(value: string)

  /** The storage notice element: absent, or present and shown or hidden. */
  datatype NoticeElement = Absent | Present(displayed: bool)

  /** The attribute `getAttribute('data-i18n-attr')` names when it is truthy. */
  function TargetAttribute(e: Element): (attr: Option<string>)
    ensures attr.Some? <==> TargetMarker in e.attributes && e.attributes[TargetMarker] != ""
    ensures attr.Some? ==> attr.value == e.attributes[TargetMarker] && attr.value != ""
  {
    if TargetMarker in e.attributes && e.attributes[TargetMarker] != "" then
      Some(e.attributes[TargetMarker])
    else None
  }

  /** The attribute `setAttribute(attr, ...)` writes: the name given in
      `data-i18n-attr`, in ASCII lowercase. */
  function WrittenAttribute(e: Element): (name: Option<string>)
    ensures name.Some? <==> TargetAttribute(e).Some?
    ensures name.Some? ==> name.value == AsciiLowercase(TargetAttribute(e).value)
  {
    match TargetAttribute(e)
    case Some(attr) => Some(AsciiLowercase(attr))
    case None => None
  }

  /** One step of `updatePageTranslations`: a marked element gets the
      translation of its key in the named attribute, or else as its text. */
  function Translated(e: Element, table: Option<Node>): (r: Element)
    ensures KeyMarker !in e.attributes ==> r == e
    ensures r.text == e.text || r.attributes == e.attributes
    ensures e.attributes.Keys <= r.attributes.Keys
  {
    if KeyMarker !in e.attributes then e
    else
      var translation := ToText(Lookup(table, e.attributes[KeyMarker]));
      match WrittenAttribute(e)
      case Some(attr) => e.(attributes := e.attributes[attr := translation])
      case None => e.(text := translation)
  }

  /** Every element after `updatePageTranslations`. */
  function TranslatedAll(elements: seq<Element>, table: Option<Node>): (r: seq<Element>)
    ensures |r| == |elements|
    ensures forall i :: 0 <= i < |r| && KeyMarker !in elements[i].attributes ==> r[i] == elements[i]
    ensures forall i :: 0 <= i < |r| ==> r[i] == Translated(elements[i], table)
  {
    seq(|elements|, i requires 0 <= i < |elements| => Translated(elements[i], table))
  }

  /** The translation goes to exactly one place: the named attribute, in
      lower case, when `data-i18n-attr` is set and non-empty (text
      untouched), the text otherwise (attributes untouched); unmarked
      elements are left alone. */
  lemma TranslatedRouting(e: Element, table: Option<Node>)
    ensures KeyMarker !in e.attributes ==> Translated(e, table) == e
    ensures KeyMarker in e.attributes && TargetAttribute(e).Some? ==>
      var attr := AsciiLowercase(TargetAttribute(e).value);
      && Translated(e, table).text == e.text
      && Translated(e, table).attributes.Keys == e.attributes.Keys + {attr}
      && Translated(e, table).attributes[attr] == ToText(Lookup(table, e.attributes[KeyMarker]))
      && (forall a :: a in e.attributes && a != attr ==> Translated(e, table).attributes[a] == e.attributes[a])
    ensures KeyMarker in e.attributes && TargetAttribute(e).None? ==>
      && Translated(e, table).attributes == e.attributes
      && Translated(e, table).text == ToText(Lookup(table, e.attributes[KeyMarker]))
  {
  }

  /** Re-applying the same table changes nothing more, as long as no element
      redirects its translation into one of the two marker attributes (in
      any letter case, since the written name is lowercased). */
  lemma {:induction false} TranslatedAllIdempotent(elements: seq<Element>, table: Option<Node>)
    requires forall i :: 0 <= i < |elements| ==>
      WrittenAttribute(elements[i]) != Some(KeyMarker) && WrittenAttribute(elements[i]) != Some(TargetMarker)
    ensures TranslatedAll(TranslatedAll(elements, table), table) == TranslatedAll(elements, table)
  {
    var once := TranslatedAll(elements, table);
    forall i | 0 <= i < |elements|
      ensures Translated(once[i], table) == once[i]
    {
      var e := elements[i];
      if KeyMarker in e.attributes && WrittenAttribute(e).Some? {
        var attr := WrittenAttribute(e).value;
        assert once[i].attributes[KeyMarker] == e.attributes[KeyMarker];
        assert once[i].attributes[TargetMarker] == e.attributes[TargetMarker];
        assert once[i].attributes[attr := once[i].attributes[attr]] == once[i].attributes;
      }
    }
  }

  /** `data-i18n-attr="DATA-I18N"` makes `setAttribute` overwrite the
      element's own key with the translation, so a later update looks up
      the translated text as a key. */
  lemma UpperCaseTargetOverwritesKey(key: string, table: Option<Node>)
    ensures var e := Element(map[KeyMarker := key, TargetMarker := "DATA-I18N"], "");
      && Translated(e, table).attributes[KeyMarker] == ToText(Lookup(table, key))
      && Translated(e, table).attributes.Keys == {KeyMarker, TargetMarker}
  {
    assert AsciiLowercase("DATA-I18N") == KeyMarker;
  }

  class Page {
    /** `navigator.language`. */
    const language: string
    /** The translation files `fetch('translations/<lang>.json')` delivers and
        parses; a language outside it fails (network error, non-ok status or
        malformed JSON). */
    const served: map<string, Node>
    /** `localStorage`. */
    var storage: map<string, string>
    /** The elements of the document, in document order. */
    var elements: seq<Element>
    /** `#language-selector`. */
    var desktopSelector: Selector
    /** `#mobile-language-selector`. */
    var mobileSelector: Selector
    /** The languages whose translation file was requested, in order. */
    var requests: seq<string>
    /** `#storage-notice`. */
    var notice: NoticeElement

    constructor(language: string, served: map<string, Node>, storage: map<string, string>,
                elements: seq<Element>, desktopSelector: Selector, mobileSelector: Selector)
      ensures this.language == language && this.served == served && this.storage == storage
      ensures this.elements == elements
      ensures this.desktopSelector == desktopSelector && this.mobileSelector == mobileSelector
      ensures requests == [] && notice == Absent
    {
      this.language := language;
      this.served := served;
      this.storage := storage;
      this.elements := elements;
      this.desktopSelector := desktopSelector;
      this.mobileSelector := mobileSelector;
      requests := [];
      notice := Absent;
    }
  }

  /** `updatePageTranslations`: the `forEach` over the marked elements. */
  method UpdateMarkedElements(page: Page, table: Option<Node>)
    modifies page`elements
    ensures page.elements == TranslatedAll(old(page.elements), table)
  {
    var i := 0;
    while i < |page.elements|
      invariant 0 <= i <= |page.elements| == |old(page.elements)|
      invariant forall j :: 0 <= j < i ==> page.elements[j] == Translated(old(page.elements)[j], table)
      invariant forall j :: i <= j < |page.elements| ==> page.elements[j] == old(page.elements)[j]
    {
      page.elements := page.elements[i := Translated(page.elements[i], table)];
      i := i + 1;
    }
  }

  /** A selector after `selector.value = lang`, when it exists. */
  function Synced(s: Selector, lang: string): (r: Selector)
    ensures r.Select? <==> s.Select?
    ensures r.Select? ==> r.value == lang
  {
    if s.Select? then Select(lang) else Missing
  }

  /** `updateLanguageSelector`: both selectors that exist show `lang`. */
  method SyncSelectors(page: Page, lang: string)
    modifies page`desktopSelector, page`mobileSelector
    ensures page.desktopSelector == Synced(old(page.desktopSelector), lang)
    ensures page.mobileSelector == Synced(old(page.mobileSelector), lang)
  {
    if page.desktopSelector.Select? {
      page.desktopSelector := Select(lang);
    }
    if page.mobileSelector.Select? {
      page.mobileSelector := Select(lang);
    }
  }
}

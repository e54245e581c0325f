/** `StorageNotice`: the local-storage consent notice and the localized
    strings it shows. */
module Consent {
  import opened Strings
  import opened Tables
  import opened Dom

  const MessageSk := "Táto webová stránka používa lokálne úložisko na zlepšenie vašich skúseností, napríklad na zapamätanie jazyka a status návštevníka."
  const MessageEn := "This website uses local storage to improve your experience, such as remembering your language preference and visitor status."
  const AcceptSk := "Prijať"
  const AcceptEn := "Accept"

  /** The global `i18n` as the notice sees it: undefined, or a manager whose
      current table (`i18n.translations[i18n.currentLanguage]`) is given. */
  datatype Localizer = NoLocalizer | Localizer(table: Option<Node>)

  /** `i18n.translations[i18n.currentLanguage]?.storage_notice?.[entry]`
      is truthy. */
  predicate HasNoticeEntry(loc: Localizer, entry: string)
    ensures HasNoticeEntry(loc, entry) <==>
      && loc.Localizer? && loc.table.Some? && loc.table.value.Table?
      && "storage_notice" in loc.table.value.entries
      && loc.table.value.entries["storage_notice"].Table?
      && entry in loc.table.value.entries["storage_notice"].entries
      && loc.table.value.entries["storage_notice"].entries[entry] != Leaf("")
  {
    loc.Localizer?
    && var v := Member(Member(loc.table, "storage_notice"), entry);
    v.Some? && Truthy(v.value)
  }

  /** When the optional chain finds a truthy entry, `translate` on the
      dotted key returns that same entry. */
  lemma NoticeEntryTranslates(loc: Localizer, entry: string)
    requires '.' !in entry
    requires HasNoticeEntry(loc, entry)
    ensures Lookup(loc.table, "storage_notice." + entry)
         == Member(Member(loc.table, "storage_notice"), entry).value
  {
    var t := loc.table.value;
    assert t.Table?;
    var notice := t.entries["storage_notice"];
    assert notice.Table? && entry in notice.entries;
    assert Member(Member(loc.table, "storage_notice"), entry) == Some(notice.entries[entry]);
    assert Table(t.entries) == t;
    assert "storage_notice" + "." == "storage_notice.";
    LookupTwoLevels(t.entries, "storage_notice", entry);
  }

  /** `getLocalizedMessage`: the translated `storage_notice.message` when
      the current table has a truthy one; otherwise the Slovak text exactly
      when the browser's primary language subtag is "sk", else English. */
  function LocalizedMessage(loc: Localizer, browserLanguage: string): (r: Node)
    ensures HasNoticeEntry(loc, "message") ==>
      r == Member(Member(loc.table, "storage_notice"), "message").value
    ensures !HasNoticeEntry(loc, "message") ==>
      (r == Leaf(MessageSk) <==> PrimarySubtag(browserLanguage) == "sk")
      && (r == Leaf(MessageSk) || r == Leaf(MessageEn))
  {
    if HasNoticeEntry(loc, "message") then
      NoticeEntryTranslates(loc, "message");
      assert "storage_notice." + "message" == "storage_notice.message";
      Lookup(loc.table, "storage_notice.message")
    else if PrimarySubtag(browserLanguage) == "sk" then Leaf(MessageSk)
    else Leaf(MessageEn)
  }

  /** `getLocalizedButtonText`: the same rule for `storage_notice.accept`,
      with "Prijať" and "Accept" as the fallbacks. */
  function LocalizedButtonText(loc: Localizer, browserLanguage: string): (r: Node)
    ensures HasNoticeEntry(loc, "accept") ==>
      r == Member(Member(loc.table, "storage_notice"), "accept").value
    ensures !HasNoticeEntry(loc, "accept") ==>
      (r == Leaf(AcceptSk) <==> PrimarySubtag(browserLanguage) == "sk")
      && (r == Leaf(AcceptSk) || r == Leaf(AcceptEn))
  {
    if HasNoticeEntry(loc, "accept") then
      NoticeEntryTranslates(loc, "accept");
      assert "storage_notice." + "accept" == "storage_notice.accept";
      Lookup(loc.table, "storage_notice.accept")
    else if PrimarySubtag(browserLanguage) == "sk" then Leaf(AcceptSk)
    else Leaf(AcceptEn)
  }

  /** The two marked elements `createNotice` adds: the message paragraph and
      the accept button. */
  function NoticeElements(loc: Localizer, browserLanguage: string): (es: seq<Element>)
    ensures |es| == 2
    ensures es[0].attributes == map[KeyMarker := "storage_notice.message"]
    ensures es[1].attributes == map[KeyMarker := "storage_notice.accept"]
    ensures es[0].text == ToText(LocalizedMessage(loc, browserLanguage))
    ensures es[1].text == ToText(LocalizedButtonText(loc, browserLanguage))
    ensures es[0].text != "" && es[1].text != ""
  {
    [ Element(map[KeyMarker := "storage_notice.message"], ToText(LocalizedMessage(loc, browserLanguage))),
      Element(map[KeyMarker := "storage_notice.accept"], ToText(LocalizedButtonText(loc, browserLanguage))) ]
  }

  class StorageNotice {
    const storageKey: string := "storageConsentAccepted"
    const noticeId: string := "storage-notice"
    var noticeShown: bool

    constructor()
      ensures !noticeShown
    {
      noticeShown := false;
    }

    /** `localStorage.getItem(storageKey) === 'true'`. */
    predicate HasUserAccepted(page: Page)
      reads page
      ensures HasUserAccepted(page) <==> storageKey in page.storage && page.storage[storageKey] == "true"
    {
      var item := if storageKey in page.storage then Some(page.storage[storageKey]) else None;
      item == Some("true")
    }

    /** Returns whether showing the notice was scheduled; the delay itself
        is not modelled. */
    method Init(page: Page, loc: Localizer) returns (showScheduled: bool)
      modifies page`elements, page`notice
      ensures showScheduled <==> !HasUserAccepted(page)
      ensures HasUserAccepted(page) ==>
        page.elements == old(page.elements) && page.notice == old(page.notice)
      ensures !HasUserAccepted(page) ==>
        && page.elements == old(page.elements) + NoticeElements(loc, page.language)
        && page.notice.Present?
        && (old(page.notice).Present? ==> page.notice == old(page.notice))
        && (old(page.notice).Absent? ==> !page.notice.displayed)
    {
      if HasUserAccepted(page) {
        return false;
      }
      CreateNotice(page, loc);
      showScheduled := true;
    }

    /** A notice that already exists keeps its state: `getElementById` finds
        the first one. */
    method CreateNotice(page: Page, loc: Localizer)
      modifies page`elements, page`notice
      ensures page.elements == old(page.elements) + NoticeElements(loc, page.language)
      ensures page.notice == if old(page.notice).Absent? then Present(false) else old(page.notice)
    {
      var message := Element(map[KeyMarker := "storage_notice.message"], ToText(LocalizedMessage(loc, page.language)));
      var acceptButton := Element(map[KeyMarker := "storage_notice.accept"], ToText(LocalizedButtonText(loc, page.language)));
      page.elements := page.elements + [message, acceptButton];
      if page.notice.Absent? {
        page.notice := Present(false);
      }
    }

    method ShowNotice(page: Page)
      modifies this`noticeShown, page`notice
      ensures old(page.notice).Present? ==> page.notice == Present(true) && noticeShown
      ensures old(page.notice).Absent? ==> page.notice == Absent && noticeShown == old(noticeShown)
    {
      if page.notice.Present? {
        page.notice := Present(true);
        noticeShown := true;
      }
    }

    method HideNotice(page: Page)
      modifies this`noticeShown, page`notice
      ensures old(page.notice).Present? ==> page.notice == Present(false) && !noticeShown
      ensures old(page.notice).Absent? ==> page.notice == Absent && noticeShown == old(noticeShown)
    {
      if page.notice.Present? {
        page.notice := Present(false);
        noticeShown := false;
      }
    }

    method AcceptConsent(page: Page)
      modifies this`noticeShown, page`notice, page`storage
      ensures page.storage == old(page.storage)[storageKey := "true"]
      ensures HasUserAccepted(page)
      ensures old(page.notice).Present? ==> page.notice == Present(false) && !noticeShown
      ensures old(page.notice).Absent? ==> page.notice == Absent && noticeShown == old(noticeShown)
    {
      page.storage := page.storage[storageKey := "true"];
      HideNotice(page);
    }
  }
}

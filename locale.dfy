/** What the two localization managers share: the persisted preference,
    the default language, the language chosen at start-up, and the
    language-change callbacks. */
module Locale {
  import opened Strings
  import opened Tables

  /** The `localStorage` key of the user's language choice. */
  const PreferenceKey := "userLanguage"
  /** `defaultLanguage`, the fallback of last resort. */
  const DefaultLanguage := "en"

  /** `localStorage.getItem(key)`: None stands for `null`. */
  function GetItem(storage: map<string, string>, key: string): (item: Option<string>)
    ensures item.Some? <==> key in storage
    ensures item.Some? ==> item.value == storage[key]
  {
    if key in storage then Some(storage[key]) else None
  }

  /** The language `init` picks: a truthy saved preference verbatim, else the
      primary subtag of the browser language when supported, else the
      default. */
  function InitialLanguage(supported: set<string>, storage: map<string, string>, browserLanguage: string): (lang: string)
    ensures GetItem(storage, PreferenceKey) == Some(lang) || lang in supported || lang == DefaultLanguage
  {
    var saved := GetItem(storage, PreferenceKey);
    if saved.None? || saved.value == "" then
      var browserLang := PrimarySubtag(browserLanguage);
      if browserLang in supported then browserLang else DefaultLanguage
    else saved.value
  }

  /** Which of the three sources `init` takes its language from. */
  lemma InitialLanguageSources(supported: set<string>, storage: map<string, string>, browserLanguage: string)
    ensures var lang := InitialLanguage(supported, storage, browserLanguage);
      var saved := GetItem(storage, PreferenceKey);
      && (saved.Some? && saved.value != "" ==> lang == saved.value)
      && (saved.None? || saved.value == "" ==>
            && '-' !in lang
            && (PrimarySubtag(browserLanguage) in supported ==> lang == PrimarySubtag(browserLanguage))
            && (PrimarySubtag(browserLanguage) !in supported ==> lang == DefaultLanguage))
  {
  }

  /** A browser language `code-REGION` (or just `code`) selects `code` when
      nothing is saved and `code` is supported. */
  lemma {:induction false} InitialLanguageFromBrowser(supported: set<string>, storage: map<string, string>, code: string, region: string)
    requires PreferenceKey !in storage || storage[PreferenceKey] == ""
    requires '-' !in code && code in supported
    requires region == [] || region[0] == '-'
    ensures InitialLanguage(supported, storage, code + region) == code
  {
    PrimarySubtagOf(code, region);
  }

  /** A stored choice survives a reload: once `changeLanguage(lang)` has
      written `lang`, the next `init` starts in `lang` without consulting the
      browser language. */
  lemma PreferenceRoundTrip(supported: set<string>, storage: map<string, string>, lang: string, browserLanguage: string)
    requires lang != ""
    ensures InitialLanguage(supported, storage[PreferenceKey := lang], browserLanguage) == lang
  {
  }

  /** The argument of `onLanguageChange`: a function (named by an id) or any
      other value. */
  datatype Listener = Callback(id: nat) | NotCallable

  /** One invocation `callback(lang)`. */
  datatype Call = Call(callback: nat, lang: string)

  /** The list after `onLanguageChange(listener)`: functions are appended,
      anything else is ignored. */
  function Registered(callbacks: seq<nat>, listener: Listener): (r: seq<nat>)
    ensures listener.Callback? ==> |r| == |callbacks| + 1 && r[|callbacks|] == listener.id
    ensures listener.NotCallable? ==> r == callbacks
    ensures r[..|callbacks|] == callbacks
  {
    if listener.Callback? then callbacks + [listener.id] else callbacks
  }

  /** The calls made by `callbacks.forEach(callback => callback(lang))`. */
  function Notifications(callbacks: seq<nat>, lang: string): (calls: seq<Call>)
    ensures |calls| == |callbacks|
    ensures forall c :: c in calls ==> c.lang == lang
    ensures forall i :: 0 <= i < |calls| ==> calls[i].callback == callbacks[i]
  {
    seq(|callbacks|, i requires 0 <= i < |callbacks| => Call(callbacks[i], lang))
  }

  /** The `forEach` over the registered callbacks: every callback is called
      once, in registration order, with `lang`. */
  method InvokeAll(callbacks: seq<nat>, lang: string) returns (calls: seq<Call>)
    ensures |calls| == |callbacks|
    ensures forall i :: 0 <= i < |calls| ==> calls[i] == Call(callbacks[i], lang)
    ensures calls == Notifications(callbacks, lang)
  {
    calls := [];
    for i := 0 to |callbacks|
      invariant |calls| == i
      invariant forall j :: 0 <= j < i ==> calls[j] == Call(callbacks[j], lang)
    {
      calls := calls + [Call(callbacks[i], lang)];
    }
  }
}

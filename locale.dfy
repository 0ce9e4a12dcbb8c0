/** Choice of the interface language at start-up: a locale remembered in
    local storage wins, otherwise the browser's language decides, and any
    failure along the way leaves English. */
module Locale {
  import opened Wrappers
  import opened Text

  /** The outcome of reading a host value that may throw (storage that is
      disabled, a `navigator` that is missing). */
  datatype Read<T> = Throws | Returns(value: T)

  /** The two supported locales. */
  predicate IsSupported(l: string) {
    l == "en" || l == "zh"
  }

  /** The browser language names Chinese: lower-cased, it starts with "zh". */
  predicate IsChinese(language: string) {
    StartsWith(ToLower(language), "zh")
  }

  /** The initial locale.
      `stored` is the outcome of `localStorage.getItem("locale")` (`None` when
      nothing is stored); `browser` is the outcome of reading
      `navigator.language` (`None` when it is undefined, so that lower-casing
      it throws). */
  function InitialLocale(stored: Read<Option<string>>, browser: Read<Option<string>>): (r: string)
    ensures IsSupported(r)
    ensures stored.Returns? && stored.value.Some? && IsSupported(stored.value.value) ==> r == stored.value.value
    ensures r == "zh" ==> stored.Returns? && (stored.value == Some("zh") || (browser.Returns? && browser.value.Some?))
  {
    match stored
    case Throws => "en"
    case Returns(saved) =>
      if saved.Some? && IsSupported(saved.value) then saved.value
      else
        match browser
        case Throws => "en"
        case Returns(None) => "en"
        case Returns(Some(language)) => if IsChinese(language) then "zh" else "en"
  }

  /** A stored locale that is not "en" or "zh" (none, "", "fr") is ignored: the
      result is the one browser detection gives, and "zh" exactly when the
      browser language starts with "zh" in any case. */
  lemma UnsupportedStoredFallsThrough(stored: Option<string>, language: string)
    requires stored.None? || !IsSupported(stored.value)
    ensures InitialLocale(Returns(stored), Returns(Some(language))) == InitialLocale(Returns(None), Returns(Some(language)))
    ensures InitialLocale(Returns(stored), Returns(Some(language))) == "zh" <==> IsChinese(language)
  {
  }

  /** A supported stored locale is used whatever the browser says, even when
      reading the browser language would throw. */
  lemma StoredLocaleWins(l: string, browser: Read<Option<string>>)
    requires IsSupported(l)
    ensures InitialLocale(Returns(Some(l)), browser) == l
  {
  }

  /** Every failure leaves the default, English. */
  lemma FailureGivesEnglish(stored: Read<Option<string>>, browser: Read<Option<string>>)
    requires stored.Throws? || ((stored.value.None? || !IsSupported(stored.value.value)) && (browser.Throws? || browser.value.None?))
    ensures InitialLocale(stored, browser) == "en"
  {
  }

  /** Lower-casing never turns a non-letter into one; so "zh" is recognised
      in upper or mixed case, and only then. */
  lemma {:induction false} IsChineseIgnoresCase(language: string)
    ensures IsChinese(ToLower(language)) <==> IsChinese(language)
    ensures IsChinese(language) <==> 2 <= |language| && LowerChar(language[0]) == 'z' && LowerChar(language[1]) == 'h'
  {
    ToLowerIdempotent(language);
    var l := ToLower(language);
    if 2 <= |language| {
      assert l[..2] == [l[0], l[1]];
    }
  }

  /** Detection does not depend on the case of the browser language. */
  lemma DetectionIgnoresCase(stored: Read<Option<string>>, language: string)
    ensures InitialLocale(stored, Returns(Some(ToLower(language)))) == InitialLocale(stored, Returns(Some(language)))
  {
    IsChineseIgnoresCase(language);
  }

  /** Typical browser languages. */
  lemma DetectionExamples()
    ensures InitialLocale(Returns(None), Returns(Some("zh-CN"))) == "zh"
    ensures InitialLocale(Returns(None), Returns(Some("ZH-tw"))) == "zh"
    ensures InitialLocale(Returns(Some("fr")), Returns(Some("en-US"))) == "en"
    ensures InitialLocale(Returns(None), Returns(Some("z"))) == "en"
  {
    IsChineseIgnoresCase("zh-CN");
    IsChineseIgnoresCase("ZH-tw");
    IsChineseIgnoresCase("en-US");
    IsChineseIgnoresCase("z");
  }
}

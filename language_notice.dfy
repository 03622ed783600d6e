/**
 * The language notice (src/components/LanguageNotification.tsx): a banner
 * offering to switch language, shown when the browser's language differs
 * from the page's, and on the first visit.
 *
 * `navigator.language` is the parameter `browser`; the i18n language and
 * `localStorage` are fields. The effect depends on the i18n language, so it
 * runs on mount and again whenever the language changes.
 */
module LanguageNotice {
  import opened Text

  const ShownKey: string := "languageNotificationShown"

  /** `supportedLangs`. */
  const Supported: seq<string> := ["es", "en"]

  /** `navigator.language.split('-')[0]`: the primary subtag. */
  function PrimaryTag(browser: string): string {
    Split(browser, '-')[0]
  }

  /** The primary subtag is the longest prefix without a `-`. */
  lemma PrimaryTagPrefix(browser: string)
    ensures var p := PrimaryTag(browser);
      && |p| <= |browser| && browser[..|p|] == p
      && '-' !in p
      && (|p| < |browser| ==> browser[|p|] == '-')
  {
    SplitHead(browser, '-');
  }

  /** `detectedLang`: the primary subtag when supported, else `en`. */
  function Detect(browser: string): (r: string)
    ensures r in Supported
    ensures r == "es" <==> PrimaryTag(browser) == "es"
  {
    if PrimaryTag(browser) in Supported then PrimaryTag(browser) else "en"
  }

  /** A Spanish browser locale, with or without a region, is detected as Spanish. */
  lemma DetectSpanish(region: string)
    ensures Detect("es") == "es"
    ensures Detect("es-" + region) == "es"
  {
    SplitConcat("es", region, '-');
    assert "es-" + region == "es" + ['-'] + region;
  }

  /** Whether the first-visit flag is missing, as `!hasShownNotification` reads it. */
  predicate FirstVisit(storage: map<string, string>) {
    ShownKey !in storage || storage[ShownKey] == ""
  }

  /** The banner's state, the i18n language and the storage. */
  class Notice {
    var show: bool
    /** `i18n.language`. */
    var language: string
    var storage: map<string, string>

    constructor (saved: map<string, string>, currentLanguage: string)
      ensures !show && language == currentLanguage && storage == saved
    {
      show := false;
      language := currentLanguage;
      storage := saved;
    }

    /**
     * The effect: show the banner when the detected language differs or on
     * the first visit, and record the visit. It never hides the banner.
     */
    method Effect(browser: string)
      modifies this
      ensures show == (old(show) || Detect(browser) != language || FirstVisit(old(storage)))
      ensures FirstVisit(old(storage)) ==> storage == old(storage)[ShownKey := "true"]
      ensures !FirstVisit(old(storage)) ==> storage == old(storage)
      ensures !FirstVisit(storage)
      ensures language == old(language)
    {
      var detected := Detect(browser);
      if detected != language {
        show := true;
      }
      if FirstVisit(storage) {
        show := true;
        storage := storage[ShownKey := "true"];
      }
    }

    /**
     * `handleChangeLanguage`: switch language and hide the banner. A real
     * change of language re-runs the effect, which shows the banner again
     * when the new language is not the detected one.
     */
    method ChangeLanguage(lang: string, browser: string)
      modifies this
      ensures language == lang
      ensures lang == old(language) ==> !show && storage == old(storage)
      ensures lang != old(language) ==> show == (Detect(browser) != lang || FirstVisit(old(storage)))
      ensures lang != old(language) && FirstVisit(old(storage)) ==> storage == old(storage)[ShownKey := "true"]
      ensures !FirstVisit(old(storage)) ==> storage == old(storage)
    {
      var changed := lang != language;
      language := lang;
      show := false;
      if changed {
        Effect(browser);
      }
    }

    /** The close button. */
    method Close()
      modifies this
      ensures !show && language == old(language) && storage == old(storage)
    {
      show := false;
    }
  }
}

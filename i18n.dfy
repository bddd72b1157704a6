/**
 * The request locale of `i18n/request.ts`: a non-empty `locale` cookie is
 * used as it is; otherwise the first entry of the Accept-Language header,
 * cut at its first '-', picks Sinhala when it is exactly "si" and English
 * in every other case. Quality values are not parsed.
 */
module I18n {
  import opened Common
  import opened JsText

  /** `header.split(",")[0]?.split("-")[0] || "en"`. */
  function PreferredLanguage(header: string): (p: string)
    ensures p != ""
  {
    var first := Split(Split(header, ',')[0], '-')[0];
    if first == "" then "en" else first
  }

  /** The locale the request is served in. */
  function ChooseLocale(cookieLocale: Option<string>, acceptLanguage: Option<string>): (locale: string)
    ensures cookieLocale.Some? && cookieLocale.value != "" ==> locale == cookieLocale.value
    ensures cookieLocale.None? || cookieLocale.value == "" ==>
              && (locale == "si" || locale == "en")
              && (locale == "si" <==> PreferredLanguage(acceptLanguage.GetOr("")) == "si")
  {
    if cookieLocale.Some? && cookieLocale.value != "" then cookieLocale.value
    else if PreferredLanguage(acceptLanguage.GetOr("")) == "si" then "si"
    else "en"
  }

  /** Without a cookie and without a header the locale is English. */
  lemma NoHeaderIsEnglish()
    ensures ChooseLocale(None, None) == "en"
    ensures ChooseLocale(Some(""), Some("")) == "en"
  {
    assert Split("", ',')[0] == "";
    assert Split("", '-')[0] == "";
  }

  /**
   * A header whose first language tag `lang` (no ',' or '-' in it) is
   * followed by nothing, by a region ("-…") or by further entries (",…")
   * is decided by `lang` alone.
   */
  lemma {:induction false} FirstTagDecides(lang: string, suffix: string)
    requires ',' !in lang && '-' !in lang && lang != ""
    requires suffix == [] || suffix[0] == ',' || suffix[0] == '-'
    ensures ChooseLocale(None, Some(lang + suffix)) == (if lang == "si" then "si" else "en")
  {
    var h := lang + suffix;
    var first := Split(h, ',')[0];
    SplitFirstIsPrefix(h, ',');
    SplitPartsFree(h, ',');
    assert |first| >= |lang| by {
      assert forall i :: 0 <= i < |lang| ==> h[i] == lang[i];
    }
    assert first[..|lang|] == lang by {
      assert first[..|lang|] == h[..|first|][..|lang|] == h[..|lang|];
    }
    if |first| > |lang| {
      assert first[|lang|] == h[|lang|] == suffix[0];
      assert suffix[0] != ',';
    }
    SplitFirst(first, '-', |lang|);
  }

  /** Quality values are not stripped: "si;q=0.9,en" chooses English. */
  lemma QualityValuesNotStripped()
    ensures ChooseLocale(None, Some("si;q=0.9,en")) == "en"
  {
    assert "si;q=0.9,en" == "si;q=0.9" + ",en";
    FirstTagDecides("si;q=0.9", ",en");
  }

  /** "si-LK,en;q=0.8" chooses Sinhala, and a non-empty cookie overrides any header. */
  lemma SinhalaExamples(header: Option<string>)
    ensures ChooseLocale(None, Some("si-LK,en;q=0.8")) == "si"
    ensures ChooseLocale(Some("si"), header) == "si"
    ensures ChooseLocale(Some("en"), Some("si")) == "en"
  {
    assert "si-LK,en;q=0.8" == "si" + "-LK,en;q=0.8";
    FirstTagDecides("si", "-LK,en;q=0.8");
  }
}

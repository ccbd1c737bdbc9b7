/**
 * The choice of interface language (`get_active_language` in
 * app/core/localization.py). The saved setting and the system locale are
 * inputs: the first is what `load_language` returns, the second what
 * `locale.getdefaultlocale()` gives for the language, or the error it raises.
 */
module Localization {
  import opened Wrappers
  import opened Strings

  /**
   * The saved language when there is a non-empty one; otherwise the language
   * part of the system locale (before the first `_`) when it is known and
   * non-empty; otherwise nothing.
   */
  function ActiveLanguage(saved: Option<string>, locale: Result<Option<string>, string>): (r: Option<seq<string>>)
    ensures r.Some? ==> |r.value| == 1
  {
    if saved.Some? && saved.value != "" then Some([saved.value])
    else match locale
      case Failure(_) => None
      case Success(systemLanguage) =>
        if systemLanguage.Some? && systemLanguage.value != "" then Some([Split(systemLanguage.value, '_')[0]])
        else None
  }

  /** A saved language wins, whatever the system locale would say. */
  lemma SavedLanguageWins(saved: string, locale: Result<Option<string>, string>)
    requires saved != ""
    ensures ActiveLanguage(Some(saved), locale) == Some([saved])
  {
  }

  /**
   * Without one, a known locale gives its language part: the longest prefix
   * of the locale without `_`, which is the whole locale or stops at a `_`.
   */
  lemma LocaleLanguage(saved: Option<string>, systemLanguage: string)
    requires saved.None? || saved.value == ""
    requires systemLanguage != ""
    ensures var r := ActiveLanguage(saved, Success(Some(systemLanguage)));
      r.Some? && |r.value| == 1
      && var lang := r.value[0];
      '_' !in lang && StartsWith(systemLanguage, lang)
      && (lang == systemLanguage || systemLanguage[|lang|] == '_')
  {
    SplitHead(systemLanguage, '_');
  }

  /** A locale lookup that raises, or that knows no language, gives nothing. */
  lemma NoLanguage(saved: Option<string>, locale: Result<Option<string>, string>)
    requires saved.None? || saved.value == ""
    requires locale.Failure? || locale.value.None? || locale.value.value == ""
    ensures ActiveLanguage(saved, locale) == None
  {
  }

  /** A result is only ever absent when neither source knows a language. */
  lemma LanguageFound(saved: Option<string>, locale: Result<Option<string>, string>)
    ensures ActiveLanguage(saved, locale).Some? <==>
      (saved.Some? && saved.value != "") || (locale.Success? && locale.value.Some? && locale.value.value != "")
  {
  }

  lemma ActiveLanguageExamples()
    ensures ActiveLanguage(Some(EN_US), Success(Some(RU_RU))) == Some([EN_US])
    ensures ActiveLanguage(None, Success(Some(RU_RU))) == Some(["ru"])
    ensures ActiveLanguage(None, Failure("Locale error")) == None
    ensures ActiveLanguage(None, Success(None)) == None
  {
    assert RU_RU == "ru" + ['_'] + "RU";
    SplitConcat("ru", "RU", '_');
    SplitWithoutSeparator("ru", '_');
  }

  const EN_US: string := "en_US"
  const RU_RU: string := "ru_RU"
}

/**
 * Language selection and translation lookup (internal/i18n/i18n.go). The
 * translations are given as a map from language code to its texts; reading
 * them from disk is not modelled.
 */
module I18n {
  import Keys

  /** The texts of one language, by text key. */
  type Texts = map<string, string>

  /** The loaded translations, by language code. */
  type Translations = map<string, Texts>

  const SupportedLanguages: set<string> := {"en", "ru"}

  const DefaultLanguage: string := "en"

  /** The `lang` query value when it names a supported language, and English otherwise. */
  function DetectLanguage(langParam: string): (lang: string)
    ensures lang in SupportedLanguages
    ensures lang == langParam <==> langParam in SupportedLanguages
    ensures langParam !in SupportedLanguages ==> lang == DefaultLanguage
  {
    if langParam != "" && langParam in SupportedLanguages then langParam else DefaultLanguage
  }

  /** Detecting twice is detecting once: a detected language is kept as it is. */
  lemma DetectLanguageIdempotent(langParam: string)
    ensures DetectLanguage(DetectLanguage(langParam)) == DetectLanguage(langParam)
  {
  }

  /**
   * The texts of the requested language when it is loaded; otherwise the
   * English texts when those are loaded; otherwise no texts at all.
   */
  function GetTexts(translations: Translations, language: string): (texts: Texts)
    ensures language in translations ==> texts == translations[language]
    ensures language !in translations && DefaultLanguage in translations ==>
              texts == translations[DefaultLanguage]
    ensures language !in translations && DefaultLanguage !in translations ==> texts == map[]
  {
    if language in translations then translations[language]
    else if DefaultLanguage in translations then translations[DefaultLanguage]
    else map[]
  }

  /**
   * Whenever the requested language or English is loaded, the texts are
   * those of a loaded language, preferring the requested one.
   */
  lemma GetTextsChoosesLoaded(translations: Translations, language: string)
    requires language in translations || DefaultLanguage in translations
    ensures exists l :: l in translations && (l == language || l == DefaultLanguage)
                        && GetTexts(translations, language) == translations[l]
  {
    if language in translations {
      assert GetTexts(translations, language) == translations[language];
    } else {
      assert GetTexts(translations, language) == translations[DefaultLanguage];
    }
  }

  /**
   * With both supported languages loaded, a page gets the texts of the
   * `lang` it asked for, and English for anything else.
   */
  lemma TextsForRequest(translations: Translations, langParam: string)
    requires SupportedLanguages <= translations.Keys
    ensures GetTexts(translations, DetectLanguage(langParam))
            == translations[if langParam in SupportedLanguages then langParam else DefaultLanguage]
  {
  }

  /** Every loaded language code, once each, in no particular order. */
  method GetSupportedLanguages(translations: Translations) returns (languages: seq<string>)
    ensures forall l :: l in languages <==> l in translations
    ensures Keys.NoDuplicates(languages)
  {
    languages := Keys.ListKeys(translations);
  }
}

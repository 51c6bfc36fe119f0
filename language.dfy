/**
 * The interface language: the six supported languages, the lookup of a translated string with
 * its two fallbacks, and the provider that remembers the choice in local storage.
 */
module Language {
  import opened Wrappers
  import opened Text

  datatype Language = Language(code: string, name: string, nativeName: string, rtl: bool)

  const English := Language("en", "English", "English", false)
  const Hindi := Language("hi", "Hindi", "\U{939}\U{93F}\U{928}\U{94D}\U{926}\U{940}", false)
  const Portuguese := Language("pt", "Portuguese", "Portugu\U{EA}s", false)
  const French := Language("fr", "French", "Fran\U{E7}ais", false)
  const Yoruba := Language("yo", "Yoruba", "Yor\U{F9}b\U{E1}", false)
  const Telugu := Language("te", "Telugu", "\U{C24}\U{C46}\U{C32}\U{C41}\U{C17}\U{C41}", false)

  const SupportedLanguages := [English, Hindi, Portuguese, French, Yoruba, Telugu]

  /** The local-storage key holding the chosen language code. */
  const StorageKey := "justicegpt_language"

  /** The string tables, language code to key to text. */
  type Translations = map<string, map<string, string>>

  /** No supported language is written right to left. */
  lemma AllLeftToRight()
    ensures forall k | 0 <= k < |SupportedLanguages| :: !SupportedLanguages[k].rtl
  {
  }

  /** The six codes are pairwise different, so a code names one language. */
  lemma CodesDistinct()
    ensures forall i, j | 0 <= i < j < |SupportedLanguages| ::
              SupportedLanguages[i].code != SupportedLanguages[j].code
  {
    assert English.code[0] == 'e' && Hindi.code[0] == 'h' && Portuguese.code[0] == 'p';
    assert French.code[0] == 'f' && Yoruba.code[0] == 'y' && Telugu.code[0] == 't';
  }

  /** `supportedLanguages.find(lang => lang.code === code)`. */
  function FindLanguage(languages: seq<Language>, code: string): (r: Option<Language>)
    ensures r.None? <==> forall k | 0 <= k < |languages| :: languages[k].code != code
    ensures r.Some? ==> r.value in languages && r.value.code == code
  {
    Find(languages, (l: Language) => l.code == code)
  }

  /** A supported language is found again from its own code. */
  lemma FindOwnCode(language: Language)
    requires language in SupportedLanguages
    ensures FindLanguage(SupportedLanguages, language.code) == Some(language)
  {
    CodesDistinct();
  }

  /** The text direction written to the document. */
  function Direction(language: Language): (r: string)
    ensures r == "rtl" <==> language.rtl
    ensures r == "ltr" <==> !language.rtl
  {
    if language.rtl then "rtl" else "ltr"
  }

  /** `table[code]?.[key]`, with a missing entry read as the empty string, which is falsy as well. */
  function Entry(table: Translations, code: string, key: string): string {
    if code in table && key in table[code] then table[code][key] else ""
  }

  /**
   * `translate(key)`: the current language's text, else the English text, else the key itself;
   * an empty text counts as missing.
   */
  function Translate(table: Translations, code: string, key: string): (r: string)
    ensures Entry(table, code, key) != "" ==> r == table[code][key]
    ensures Entry(table, code, key) == "" && Entry(table, "en", key) != "" ==> r == table["en"][key]
    ensures Entry(table, code, key) == "" && Entry(table, "en", key) == "" ==> r == key
  {
    OrElse(OrElse(Entry(table, code, key), Entry(table, "en", key)), key)
  }

  /** A non-empty key never translates to the empty string. */
  lemma TranslateNonEmpty(table: Translations, code: string, key: string)
    requires key != ""
    ensures Translate(table, code, key) != ""
  {
  }

  /** A key that no table holds is shown as it is. */
  lemma TranslateMissing(table: Translations, code: string, key: string)
    requires forall c | c in table :: key !in table[c]
    ensures Translate(table, code, key) == key
  {
  }

  /** A language without a table of its own reads the English table. */
  lemma TranslateUnknownLanguage(table: Translations, code: string, key: string)
    requires code !in table
    ensures Translate(table, code, key) == Translate(table, "en", key)
  {
  }

  /** `LanguageProvider`: the current language, the document's `lang` and `dir`, and the stored code. */
  class LanguageProvider {
    var currentLanguage: Language
    var documentLang: string
    var documentDir: string
    var saved: Option<string>

    /** The first render, before the mount effect: English, with the page and storage as they were. */
    constructor(documentLang: string, documentDir: string, saved: Option<string>)
      ensures currentLanguage == SupportedLanguages[0]
      ensures this.documentLang == documentLang && this.documentDir == documentDir && this.saved == saved
    {
      currentLanguage := SupportedLanguages[0];
      this.documentLang := documentLang;
      this.documentDir := documentDir;
      this.saved := saved;
    }

    function Translation(table: Translations, key: string): string
      reads this
    {
      Translate(table, currentLanguage.code, key)
    }

    /** `setLanguage`: switch, update the document and remember the code. */
    method SetLanguage(language: Language)
      modifies this
      ensures currentLanguage == language && documentLang == language.code
      ensures documentDir == Direction(language) && saved == Some(language.code)
    {
      currentLanguage := language;
      documentLang := language.code;
      documentDir := Direction(language);
      saved := Some(language.code);
    }

    /** The mount effect: a stored code that names a supported language is taken up; storage is left as it is. */
    method RestoreSavedLanguage()
      modifies this
      ensures saved == old(saved)
      ensures var found := if old(saved).Some? && old(saved).value != "" then FindLanguage(SupportedLanguages, old(saved).value) else None;
              if found.Some? then
                currentLanguage == found.value && documentLang == found.value.code && documentDir == "ltr"
              else
                currentLanguage == old(currentLanguage) && documentLang == old(documentLang) && documentDir == old(documentDir)
    {
      if saved.Some? && saved.value != "" {
        var language := FindLanguage(SupportedLanguages, saved.value);
        if language.Some? {
          AllLeftToRight();
          currentLanguage := language.value;
          documentLang := language.value.code;
          documentDir := Direction(language.value);
        }
      }
    }
  }

  /** Choosing a supported language and reloading the page comes back to that language. */
  method ChooseThenReload(language: Language, documentLang: string, documentDir: string)
    returns (restored: Language)
    requires language in SupportedLanguages
    ensures restored == language
  {
    var before := new LanguageProvider(documentLang, documentDir, None);
    before.SetLanguage(language);
    var after := new LanguageProvider(documentLang, documentDir, before.saved);
    FindOwnCode(language);
    after.RestoreSavedLanguage();
    restored := after.currentLanguage;
  }
}

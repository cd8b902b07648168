/**
 * The language context: the supported languages, the translation lookup
 * `t(key)` with its two-level fallback, and the provider that holds the
 * current language and persists it under the local-storage key
 * "selectedLanguage".
 */
module LanguageContext {
  import opened Basics

  /** The `LanguageCode` union. */
  datatype LanguageCode = En | Hi | Te | Ta | Kn | Ml | Mr | Gu | Bn | Pa | Or

  function Code(l: LanguageCode): string {
    match l
    case En => "en"
    case Hi => "hi"
    case Te => "te"
    case Ta => "ta"
    case Kn => "kn"
    case Ml => "ml"
    case Mr => "mr"
    case Gu => "gu"
    case Bn => "bn"
    case Pa => "pa"
    case Or => "or"
  }

  /** The code a string names, if it names one. */
  function ParseCode(s: string): (r: Option<LanguageCode>)
    ensures r.Some? ==> Code(r.value) == s
  {
    match s
    case "en" => Some(En)
    case "hi" => Some(Hi)
    case "te" => Some(Te)
    case "ta" => Some(Ta)
    case "kn" => Some(Kn)
    case "ml" => Some(Ml)
    case "mr" => Some(Mr)
    case "gu" => Some(Gu)
    case "bn" => Some(Bn)
    case "pa" => Some(Pa)
    case "or" => Some(Or)
    case _ => None
  }

  /** Every code is recognised again from its string: the two functions are inverse. */
  lemma ParseCodeInverse(l: LanguageCode)
    ensures ParseCode(Code(l)) == Some(l)
  {
  }

  datatype LanguageInfo = LanguageInfo(code: LanguageCode, name: string, nativeName: string)

  /** The `languages` table offered to the language selector. */
  const Languages: seq<LanguageInfo> := [
    LanguageInfo(En, "English", "English"),
    LanguageInfo(Hi, "Hindi", "हिंदी"),
    LanguageInfo(Te, "Telugu", "తెలుగు"),
    LanguageInfo(Ta, "Tamil", "தமிழ்"),
    LanguageInfo(Kn, "Kannada", "ಕನ್ನಡ"),
    LanguageInfo(Ml, "Malayalam", "മലയാളം"),
    LanguageInfo(Mr, "Marathi", "मराठी"),
    LanguageInfo(Gu, "Gujarati", "ગુજરાતી"),
    LanguageInfo(Bn, "Bengali", "বাংলা"),
    LanguageInfo(Pa, "Punjabi", "ਪੰਜਾਬੀ"),
    LanguageInfo(Or, "Odia", "ଓଡ଼ିଆ")
  ]

  /** `languages.some(l => l.code === s)`. */
  predicate IsListed(s: string) {
    exists i :: 0 <= i < |Languages| && Code(Languages[i].code) == s
  }

  /** Where each code stands in `Languages`. */
  function Position(l: LanguageCode): (i: nat)
    ensures i < |Languages| && Languages[i].code == l
  {
    match l
    case En => 0 case Hi => 1 case Te => 2 case Ta => 3 case Kn => 4 case Ml => 5
    case Mr => 6 case Gu => 7 case Bn => 8 case Pa => 9 case Or => 10
  }

  /** The table lists every code of the union exactly once, and nothing else. */
  lemma LanguagesTable()
    ensures |Languages| == 11
    ensures forall i :: 0 <= i < |Languages| ==> Position(Languages[i].code) == i
    ensures forall i, j :: 0 <= i < j < |Languages| ==> Code(Languages[i].code) != Code(Languages[j].code)
  {
  }

  /** A string is listed exactly when it is the code of some `LanguageCode`. */
  lemma ListedIffParses(s: string)
    ensures IsListed(s) <==> ParseCode(s).Some?
  {
    if ParseCode(s).Some? {
      var i := Position(ParseCode(s).value);
      assert Code(Languages[i].code) == s;
    }
    if IsListed(s) {
      var i :| 0 <= i < |Languages| && Code(Languages[i].code) == s;
      ParseCodeInverse(Languages[i].code);
    }
  }

  /** One language's translations, from key to text. */
  type Table = map<string, string>

  /** The translation data: language code to table. Not every language need have one. */
  type Translations = map<string, Table>

  /** `tables?.[key]`, with `undefined` as `None`. */
  function Entry(tables: Translations, language: string, key: string): Option<string> {
    if language in tables && key in tables[language] then Some(tables[language][key]) else None
  }

  /** JavaScript's `a || b` where `a` is a string or `undefined`. */
  function OrElse(a: Option<string>, b: string): string {
    if a.Some? && a.value != "" then a.value else b
  }

  /**
   * `t(key)`: the active language's entry when it is present and non-empty,
   * else the English entry when that is present and non-empty, else `key`.
   */
  function Translate(tables: Translations, language: string, key: string): (r: string)
    ensures Entry(tables, language, key).Some? && Entry(tables, language, key).value != "" ==>
              r == Entry(tables, language, key).value
    ensures (Entry(tables, language, key).None? || Entry(tables, language, key).value == "") &&
            Entry(tables, "en", key).Some? && Entry(tables, "en", key).value != "" ==>
              r == Entry(tables, "en", key).value
    ensures (Entry(tables, language, key).None? || Entry(tables, language, key).value == "") &&
            (Entry(tables, "en", key).None? || Entry(tables, "en", key).value == "") ==>
              r == key
    ensures r != "" || key == ""
  {
    OrElse(Entry(tables, language, key), OrElse(Entry(tables, "en", key), key))
  }

  /** The `useState` initializer: the stored string if it is truthy, unchecked, else "en". */
  function InitialLanguage(stored: Option<string>): (r: string)
    ensures stored.Some? && stored.value != "" ==> r == stored.value
    ensures stored.None? || stored.value == "" ==> r == "en"
  {
    OrElse(stored, "en")
  }

  /** A language change survives a reload: the initializer recovers every code it stored. */
  lemma ReloadRecoversCode(l: LanguageCode)
    ensures InitialLanguage(Some(Code(l))) == Code(l)
    ensures IsListed(Code(l))
  {
    ListedIffParses(Code(l));
  }

  /**
   * The mount effect does not repair an unlisted stored value: the
   * initializer has already adopted it and the effect leaves it in place.
   */
  lemma UnlistedStoredCodeSurvivesStartup(s: string)
    requires s != "" && ParseCode(s).None?
    ensures InitialLanguage(Some(s)) == s
    ensures !IsListed(s)
  {
  }

  /** The provider's state: the current language and the stored selection. */
  class LanguageProvider {
    /** The `language` state; a string, since startup does not validate it. */
    var language: string
    /** The local-storage entry "selectedLanguage". */
    var stored: Option<string>

    constructor (stored: Option<string>)
      ensures this.stored == stored
      ensures language == InitialLanguage(stored)
    {
      this.stored := stored;
      language := OrElse(stored, "en");
    }

    /** The mount effect: adopt the stored value only when it is a listed code. */
    method Mount()
      modifies this`language
      ensures stored.Some? && stored.value != "" && IsListed(stored.value) ==> language == stored.value
      ensures !(stored.Some? && IsListed(stored.value)) ==> language == old(language)
    {
      if stored.Some? && stored.value != "" && ParseCode(stored.value).Some? {
        ListedIffParses(stored.value);
        language := stored.value;
      } else if stored.Some? {
        ListedIffParses(stored.value);
      }
    }

    /** `setLanguage(l)`: switch to `l` and store exactly its code. */
    method SetLanguage(l: LanguageCode)
      modifies this
      ensures language == Code(l)
      ensures stored == Some(Code(l))
    {
      language := Code(l);
      stored := Some(Code(l));
    }

    /**
     * `t` as the provider hands it out: bound to the current language, and
     * falling back to exactly what an English provider would answer.
     */
    function T(tables: Translations, key: string): (r: string)
      reads this
      ensures Entry(tables, language, key).Some? && Entry(tables, language, key).value != "" ==>
                r == Entry(tables, language, key).value
      ensures Entry(tables, language, key).None? || Entry(tables, language, key).value == "" ==>
                r == Translate(tables, "en", key)
      ensures r != "" || key == ""
    {
      Translate(tables, language, key)
    }
  }

  /**
   * Choosing a language, reloading the page and mounting the provider again
   * yields the chosen language.
   */
  method SelectThenReload(initial: Option<string>, l: LanguageCode) returns (restored: string)
    ensures restored == Code(l)
  {
    var before := new LanguageProvider(initial);
    before.Mount();
    before.SetLanguage(l);
    var after := new LanguageProvider(before.stored);
    ReloadRecoversCode(l);
    after.Mount();
    restored := after.language;
  }
}

/** The site's two display languages, their codes, and the text direction each one takes. */
module Languages {
  import opened Wrappers

  /** `'en' | 'ar'`: the only values the language state can hold. */
  datatype Language = En | Ar

  datatype Direction = Ltr | Rtl

  /** The language code, as stored and as written to the document's `lang` attribute. */
  function Code(language: Language): (s: string)
    ensures s == "en" || s == "ar"
    ensures s == "ar" <==> language == Ar
  {
    match language
    case En => "en"
    case Ar => "ar"
  }

  /** The guard `lang === 'en' || lang === 'ar'`: exactly the two codes are accepted, each
      as the language it names. */
  function ParseLanguage(s: string): (r: Option<Language>)
    ensures r.Some? <==> s == "en" || s == "ar"
    ensures r.Some? ==> Code(r.value) == s
  {
    if s == "en" then Some(En)
    else if s == "ar" then Some(Ar)
    else None
  }

  /** Parsing inverts `Code`. */
  lemma {:induction false} ParseCode(language: Language)
    ensures ParseLanguage(Code(language)) == Some(language)
  {
    assert Code(En) != Code(Ar) by {
      assert Code(En)[0] != Code(Ar)[0];
    }
  }

  /** `language === 'ar' ? 'rtl' : 'ltr'`. */
  function DirectionOf(language: Language): (d: Direction)
    ensures d == Rtl <==> language == Ar
  {
    if language == Ar then Rtl else Ltr
  }

  /** The value written to the document's `dir` attribute. */
  function DirectionCode(d: Direction): (s: string)
    ensures s == "rtl" <==> d == Rtl
  {
    match d
    case Ltr => "ltr"
    case Rtl => "rtl"
  }

  /** The toggle button's request: the code of the other language. */
  function ToggleCode(language: Language): (s: string)
    ensures ParseLanguage(s).Some? && ParseLanguage(s).value != language
  {
    if language == En then "ar" else "en"
  }

  /** Toggling twice comes back to the same language. */
  lemma ToggleTwice(language: Language)
    ensures ParseLanguage(ToggleCode(ParseLanguage(ToggleCode(language)).value)) == Some(language)
  {
  }
}

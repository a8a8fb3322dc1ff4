/** The language state shared by the site's components: the current language, whether the
    provider has mounted, and the two places the language is mirrored to once it has (the
    persisted preference and the document element's `lang`/`dir` attributes). */
module LanguageContext {
  import opened Wrappers
  import opened Languages
  import I18n

  /** `t`, the context's translation function for the given current language: the language's
      entry for the key, or the key itself when the table declares none (the lookup is by
      property name, so a key the table does not declare comes back unchanged).  Only the
      table's own properties are modelled; names an object inherits are treated as absent. */
  function Translate(language: Language, key: string): (r: string)
    ensures (forall k :: I18n.KeyName(k) != key) ==> r == key
    ensures (exists k :: I18n.KeyName(k) == key) ==>
      exists k :: I18n.KeyName(k) == key && r == I18n.Translation(language, k)
  {
    match I18n.Lookup(language, key)
    case None => key
    case Some(text) => if text == "" then key else text
  }

  class LanguageProvider {
    /** The current language; the type admits only the two languages. */
    var language: Language
    /** Whether the mount effect has run. */
    var mounted: bool
    /** The persisted preference under the key "language"; `None` when there is none. */
    var storage: Option<string>
    /** The document element's `lang` attribute; `None` until first written. */
    var documentLang: Option<string>
    /** The document element's `dir` attribute; `None` until first written. */
    var documentDir: Option<string>

    /** The stored preference and the document's attributes show the current language. */
    predicate Mirrored()
      reads this
    {
      && storage == Some(Code(language))
      && documentLang == Some(Code(language))
      && documentDir == Some(DirectionCode(DirectionOf(language)))
    }

    /** Once mounted, every language change has been mirrored. */
    predicate Valid()
      reads this
    {
      mounted ==> Mirrored()
    }

    /** The first render: English, not yet mounted, whatever preference was stored before. */
    constructor(stored: Option<string>)
      ensures language == En && !mounted
      ensures storage == stored && documentLang == None && documentDir == None
      ensures Valid()
    {
      language := En;
      mounted := false;
      storage := stored;
      documentLang := None;
      documentDir := None;
    }

    /** The second effect, run whenever `language` or `mounted` changes: once mounted, it
        writes the language to storage and to the document's `dir` and `lang`. */
    method Sync()
      modifies this
      ensures language == old(language) && mounted == old(mounted)
      ensures mounted ==> Mirrored()
      ensures !mounted ==>
        storage == old(storage) && documentLang == old(documentLang) && documentDir == old(documentDir)
    {
      if mounted {
        storage := Some(Code(language));
        documentDir := Some(DirectionCode(DirectionOf(language)));
        documentLang := Some(Code(language));
      }
    }

    /** The mount effect: a stored "en" or "ar" is adopted; anything else (nothing stored
        included) is overwritten with "en" and the language is kept.  Mounting then triggers
        the second effect. */
    method Mount()
      requires !mounted
      modifies this
      ensures mounted && Valid()
      ensures old(storage).Some? && ParseLanguage(old(storage).value).Some? ==>
        language == ParseLanguage(old(storage).value).value
      ensures !(old(storage).Some? && ParseLanguage(old(storage).value).Some?) ==>
        language == old(language)
    {
      var saved := storage;
      if saved.Some? && ParseLanguage(saved.value).Some? {
        language := ParseLanguage(saved.value).value;
      } else {
        storage := Some("en");
      }
      mounted := true;
      Sync();
    }

    /** `handleSetLanguage`: only "en" and "ar" change the language; any other string is
        ignored.  A change re-runs the second effect. */
    method SetLanguage(lang: string)
      requires Valid()
      modifies this
      ensures Valid() && mounted == old(mounted)
      ensures ParseLanguage(lang).Some? ==> language == ParseLanguage(lang).value
      ensures ParseLanguage(lang).None? ==> language == old(language)
      ensures !mounted ==>
        storage == old(storage) && documentLang == old(documentLang) && documentDir == old(documentDir)
    {
      var parsed := ParseLanguage(lang);
      if parsed.Some? && parsed.value != language {
        language := parsed.value;
        Sync();
      }
    }

    /** The header's toggle button: asks for the other language, which is always accepted. */
    method Toggle()
      requires Valid()
      modifies this
      ensures Valid() && mounted == old(mounted)
      ensures language != old(language)
      ensures !mounted ==>
        storage == old(storage) && documentLang == old(documentLang) && documentDir == old(documentDir)
    {
      SetLanguage(ToggleCode(language));
    }

    /** `dir`: right-to-left exactly for Arabic. */
    function Dir(): (d: Direction)
      reads this
      ensures d == Rtl <==> language == Ar
    {
      DirectionOf(language)
    }
  }

  /** Keys the chat widget and the skills section ask for but the table does not declare
      come back unchanged, in either language. */
  lemma UndeclaredKeysComeBack(language: Language)
    ensures Translate(language, "chatbot.welcome") == "chatbot.welcome"
    ensures Translate(language, "skillsDescription") == "skillsDescription"
  {
    I18n.ChatbotWelcomeUndeclared();
    I18n.SkillsDescriptionUndeclared();
  }

  /** The provider's first render followed by its mount effect: a valid stored preference
      wins; otherwise the page stays in English and "en" is what ends up stored. */
  method FirstMount(stored: Option<string>) returns (provider: LanguageProvider)
    ensures fresh(provider) && provider.mounted && provider.Valid()
    ensures stored.Some? && ParseLanguage(stored.value).Some? ==>
      provider.language == ParseLanguage(stored.value).value
    ensures !(stored.Some? && ParseLanguage(stored.value).Some?) ==>
      provider.language == En && provider.storage == Some("en")
  {
    provider := new LanguageProvider(stored);
    provider.Mount();
  }
}

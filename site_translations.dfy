/** The second, smaller translation table and its typed accessor `getTranslation`. */
module SiteTranslations {
  import opened Languages

  /** The seventeen keys of this table, in declaration order; their property names are
      the dotted forms (`navigation.home`, `contact.form.submit`, ...). */
  datatype TranslationKey =
      NavigationHome | NavigationAbout | NavigationProjects | NavigationContact | HeroGreeting
    | HeroTitle | HeroSubtitle | AboutTitle | AboutDescription | ProjectsTitle
    | ProjectsSubtitle | ContactTitle | ContactSubtitle | ContactFormName | ContactFormEmail
    | ContactFormMessage | ContactFormSubmit

  /** The property name of each key, as the string-literal union type spells it. */
  function KeyName(key: TranslationKey): string {
    match key
    case NavigationHome => "navigation.home"
    case NavigationAbout => "navigation.about"
    case NavigationProjects => "navigation.projects"
    case NavigationContact => "navigation.contact"
    case HeroGreeting => "hero.greeting"
    case HeroTitle => "hero.title"
    case HeroSubtitle => "hero.subtitle"
    case AboutTitle => "about.title"
    case AboutDescription => "about.description"
    case ProjectsTitle => "projects.title"
    case ProjectsSubtitle => "projects.subtitle"
    case ContactTitle => "contact.title"
    case ContactSubtitle => "contact.subtitle"
    case ContactFormName => "contact.form.name"
    case ContactFormEmail => "contact.form.email"
    case ContactFormMessage => "contact.form.message"
    case ContactFormSubmit => "contact.form.submit"
  }

  /** The seventeen members of the union are seventeen different strings, so each property
      name picks out one key. */
  lemma KeyNamesDistinct(a: TranslationKey, b: TranslationKey)
    requires KeyName(a) == KeyName(b)
    ensures a == b
  {
  }

  /** The `en` record. */
  function English(key: TranslationKey): (r: string)
    ensures r != ""
  {
    match key
    case NavigationHome => "Home"
    case NavigationAbout => "About"
    case NavigationProjects => "Projects"
    case NavigationContact => "Contact"
    case HeroGreeting => "Hi, I'm"
    case HeroTitle => "Full Stack Developer"
    case HeroSubtitle => "I build accessible,"
                       + " responsive and"
                       + " user-friendly web"
                       + " applications"
    case AboutTitle => "About Me"
    case AboutDescription => "I'm passionate about"
                           + " creating intuitive"
                           + " and responsive web"
                           + " applications that"
                           + " solve real-world"
                           + " problems."
    case ProjectsTitle => "Projects"
    case ProjectsSubtitle => "Some of my recent"
                           + " work"
    case ContactTitle => "Contact Me"
    case ContactSubtitle => "Feel free to reach"
                          + " out if you have any"
                          + " questions or want"
                          + " to work together."
    case ContactFormName => "Name"
    case ContactFormEmail => "Email"
    case ContactFormMessage => "Message"
    case ContactFormSubmit => "Send Message"
  }

  /** The `ar` record. */
  function Arabic(key: TranslationKey): (r: string)
    ensures r != ""
  {
    match key
    case NavigationHome => "الرئيسية"
    case NavigationAbout => "عني"
    case NavigationProjects => "المشاريع"
    case NavigationContact => "اتصل بي"
    case HeroGreeting => "مرحباً، أنا"
    case HeroTitle => "مطور ويب متكامل"
    case HeroSubtitle => "أبني تطبيقات ويب"
                       + " سهلة الوصول"
                       + " ومتجاوبة وسهلة"
                       + " الاستخدام"
    case AboutTitle => "عني"
    case AboutDescription => "أنا شغوف بإنشاء"
                           + " تطبيقات ويب بديهية"
                           + " وسريعة الاستجابة"
                           + " تحل مشكلات العالم"
                           + " الحقيقي."
    case ProjectsTitle => "المشاريع"
    case ProjectsSubtitle => "بعض أعمالي الحديثة"
    case ContactTitle => "اتصل بي"
    case ContactSubtitle => "لا تتردد في التواصل"
                          + " إذا كان لديك أي"
                          + " أسئلة أو ترغب في"
                          + " العمل معًا."
    case ContactFormName => "الاسم"
    case ContactFormEmail => "البريد الإلكتروني"
    case ContactFormMessage => "الرسالة"
    case ContactFormSubmit => "إرسال الرسالة"
  }

  /** `getTranslation(key, language)`, that is `translations[language][key]`: the table has a
      record for each language and each record an entry for every key, so the accessor is
      total and never yields an empty string. */
  function GetTranslation(key: TranslationKey, language: Language): (r: string)
    ensures r != ""
  {
    match language
    case En => English(key)
    case Ar => Arabic(key)
  }
}

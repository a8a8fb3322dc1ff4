/** The translation table behind the language context's `t`: one record per language, each
    with an entry for every declared key. */
module I18n {
  import opened Wrappers
  import opened Languages

  /** The declared keys (`TranslationKeys`), in declaration order. */
  datatype TranslationKey =
      Home | About | Projects | Contact | Skills | Experience | Education | DownloadCv | Name
    | Email | Message | Send | Welcome | WelcomeDescription | AboutMe | AboutDescription
    | ViewProject | GetInTouch | HeroTitle | HeroSubtitle | HeroContactMe | HeroViewProjects
    | SkillsTitle | SkillsSubtitle | ProjectsTitle | ProjectsSubtitle | ProjectsView
    | ProjectsGithub | ContactTitle | ContactSubtitle | ContactSubmit | WebsiteMetadataTitle
    | WebsiteMetadataDescription | EduTitle | EduDegree | EduDepartment | EduLocation
    | ExpTitle | ExpPosition | ExpYears | ExpSpecialization | LangTitle | LangEnglish
    | LangArabic | LangGerman | TabsEducation | TabsExperience | TabsLanguages

  /** The property name of each key. */
  function KeyName(key: TranslationKey): string {
    match key
    case Home => "home"
    case About => "about"
    case Projects => "projects"
    case Contact => "contact"
    case Skills => "skills"
    case Experience => "experience"
    case Education => "education"
    case DownloadCv => "download_cv"
    case Name => "name"
    case Email => "email"
    case Message => "message"
    case Send => "send"
    case Welcome => "welcome"
    case WelcomeDescription => "welcome_description"
    case AboutMe => "about_me"
    case AboutDescription => "about_description"
    case ViewProject => "view_project"
    case GetInTouch => "get_in_touch"
    case HeroTitle => "hero.title"
    case HeroSubtitle => "hero.subtitle"
    case HeroContactMe => "hero.contact_me"
    case HeroViewProjects => "hero.view_projects"
    case SkillsTitle => "skills.title"
    case SkillsSubtitle => "skills.subtitle"
    case ProjectsTitle => "projects.title"
    case ProjectsSubtitle => "projects.subtitle"
    case ProjectsView => "projects.view"
    case ProjectsGithub => "projects.github"
    case ContactTitle => "contact.title"
    case ContactSubtitle => "contact.subtitle"
    case ContactSubmit => "contact.submit"
    case WebsiteMetadataTitle => "websiteMetadata.title"
    case WebsiteMetadataDescription => "websiteMetadata.description"
    case EduTitle => "edu.title"
    case EduDegree => "edu.degree"
    case EduDepartment => "edu.department"
    case EduLocation => "edu.location"
    case ExpTitle => "exp.title"
    case ExpPosition => "exp.position"
    case ExpYears => "exp.years"
    case ExpSpecialization => "exp.specialization"
    case LangTitle => "lang.title"
    case LangEnglish => "lang.english"
    case LangArabic => "lang.arabic"
    case LangGerman => "lang.german"
    case TabsEducation => "tabs.education"
    case TabsExperience => "tabs.experience"
    case TabsLanguages => "tabs.languages"
  }

  /** The `en` record. */
  function English(key: TranslationKey): (r: string)
    ensures r != ""
  {
    match key
    case Home => "Home"
    case About => "About"
    case Projects => "Projects"
    case Contact => "Contact"
    case Skills => "Skills"
    case Experience => "Experience"
    case Education => "Education"
    case DownloadCv => "Download CV"
    case Name => "Name"
    case Email => "Email"
    case Message => "Message"
    case Send => "Send"
    case Welcome => "Welcome to my"
                  + " portfolio"
    case WelcomeDescription => "I build responsive"
                             + " and accessible web"
                             + " applications"
    case AboutMe => "About Me"
    case AboutDescription => "I am a passionate"
                           + " developer focused"
                           + " on creating"
                           + " beautiful,"
                           + " functional websites"
                           + " and applications."
    case ViewProject => "View Project"
    case GetInTouch => "Get in touch"
    case HeroTitle => "Full Stack Developer"
    case HeroSubtitle => "With 8 years of"
                       + " experience in web"
                       + " and mobile"
                       + " development, I"
                       + " specialize in"
                       + " creating"
                       + " performant,"
                       + " accessible, and"
                       + " user-friendly"
                       + " applications."
    case HeroContactMe => "Contact Me"
    case HeroViewProjects => "View Projects"
    case SkillsTitle => "Technical Skills"
    case SkillsSubtitle => "Technologies I work"
                         + " with"
    case ProjectsTitle => "Projects"
    case ProjectsSubtitle => "Some of my recent"
                           + " work"
    case ProjectsView => "View Project"
    case ProjectsGithub => "GitHub"
    case ContactTitle => "Get In Touch"
    case ContactSubtitle => "I'm currently"
                          + " available for"
                          + " freelance work."
                          + " Feel free to reach"
                          + " out if you have a"
                          + " project in mind!"
    case ContactSubmit => "Send Message"
    case WebsiteMetadataTitle => "My Portfolio"
    case WebsiteMetadataDescription => "My personal"
                                     + " portfolio website"
    case EduTitle => "Education"
    case EduDegree => "Bachelor of Applied"
                    + " Science"
    case EduDepartment => "Computer Technology"
                        + " Department,"
                        + " Tishreen University"
    case EduLocation => "Latakia, Syria"
    case ExpTitle => "Experience"
    case ExpPosition => "Freelance Full Stack"
                      + " Developer"
    case ExpYears => "8+ years of"
                   + " experience"
    case ExpSpecialization => "Specialized in"
                            + " developing web"
                            + " applications using"
                            + " JavaScript,"
                            + " Node.js, React.js,"
                            + " and various"
                            + " databases."
    case LangTitle => "Languages"
    case LangEnglish => "English"
    case LangArabic => "Arabic"
    case LangGerman => "German"
    case TabsEducation => "Education"
    case TabsExperience => "Experience"
    case TabsLanguages => "Languages"
  }

  /** The `ar` record. */
  function Arabic(key: TranslationKey): (r: string)
    ensures r != ""
  {
    match key
    case Home => "الرئيسية"
    case About => "نبذة عني"
    case Projects => "المشاريع"
    case Contact => "اتصل بي"
    case Skills => "المهارات"
    case Experience => "الخبرة"
    case Education => "التعليم"
    case DownloadCv => "تحميل السيرة الذاتية"
    case Name => "الاسم"
    case Email => "البريد الإلكتروني"
    case Message => "الرسالة"
    case Send => "إرسال"
    case Welcome => "مرحبا بك في ملف"
                  + " أعمالي"
    case WelcomeDescription => "أقوم ببناء تطبيقات"
                             + " ويب متجاوبة وسهلة"
                             + " الوصول"
    case AboutMe => "نبذة عني"
    case AboutDescription => "أنا مطور متحمس يركز"
                           + " على إنشاء مواقع"
                           + " وتطبيقات جميلة"
                           + " وعملية."
    case ViewProject => "عرض المشروع"
    case GetInTouch => "تواصل معي"
    case HeroTitle => "مطور ويب متكامل"
    case HeroSubtitle => "مع 8 سنوات من الخبرة"
                       + " في تطوير الويب"
                       + " والموبايل، أنا"
                       + " متخصص في إنشاء"
                       + " تطبيقات سريعة وسهلة"
                       + " الاستخدام."
    case HeroContactMe => "اتصل بي"
    case HeroViewProjects => "عرض المشاريع"
    case SkillsTitle => "المهارات التقنية"
    case SkillsSubtitle => "التقنيات التي أعمل"
                         + " بها"
    case ProjectsTitle => "المشاريع"
    case ProjectsSubtitle => "بعض أعمالي الحديثة"
    case ProjectsView => "عرض المشروع"
    case ProjectsGithub => "Github"
    case ContactTitle => "تواصل معي"
    case ContactSubtitle => "أنا متاح حاليًا"
                          + " للعمل الحر. لا"
                          + " تتردد في التواصل"
                          + " إذا كان لديك مشروع"
                          + " في ذهنك!"
    case ContactSubmit => "إرسال الرسالة"
    case WebsiteMetadataTitle => "معرض أعمالي"
    case WebsiteMetadataDescription => "موقع معرض أعمالي"
                                     + " الشخصي"
    case EduTitle => "التعليم"
    case EduDegree => "بكالوريوس في العلوم"
                    + " التطبيقية"
    case EduDepartment => "الكلية التطبيقية،"
                        + " قسم تقنيات الحاسوب،"
                        + " جامعة تشرين"
    case EduLocation => "اللاذقية، سوريا"
    case ExpTitle => "الخبرة"
    case ExpPosition => "مطور ويب متكامل -"
                      + " عمل حر"
    case ExpYears => "+8 سنوات من الخبرة"
    case ExpSpecialization => "متخصص في تطوير"
                            + " تطبيقات الويب"
                            + " باستخدام"
                            + " جافاسكريبت، نود جي"
                            + " إس، رياكت، وقواعد"
                            + " بيانات متنوعة."
    case LangTitle => "اللغات"
    case LangEnglish => "الإنجليزية"
    case LangArabic => "العربية"
    case LangGerman => "الألمانية"
    case TabsEducation => "التعليم"
    case TabsExperience => "الخبرة"
    case TabsLanguages => "اللغات"
  }

  /** `translations[language][key]` for a declared key: the table has a record for each of
      the two languages and every record an entry for every key, so the lookup is total, and
      no entry is empty. */
  function Translation(language: Language, key: TranslationKey): (r: string)
    ensures r != ""
  {
    match language
    case En => English(key)
    case Ar => Arabic(key)
  }

  /** How many keys are declared. */
  const KeyCount := 48

  /** The position of each key in the declaration order. */
  function Ordinal(key: TranslationKey): (i: nat)
    ensures i < KeyCount && KeyAt(i) == key
  {
    match key
    case Home => 0
    case About => 1
    case Projects => 2
    case Contact => 3
    case Skills => 4
    case Experience => 5
    case Education => 6
    case DownloadCv => 7
    case Name => 8
    case Email => 9
    case Message => 10
    case Send => 11
    case Welcome => 12
    case WelcomeDescription => 13
    case AboutMe => 14
    case AboutDescription => 15
    case ViewProject => 16
    case GetInTouch => 17
    case HeroTitle => 18
    case HeroSubtitle => 19
    case HeroContactMe => 20
    case HeroViewProjects => 21
    case SkillsTitle => 22
    case SkillsSubtitle => 23
    case ProjectsTitle => 24
    case ProjectsSubtitle => 25
    case ProjectsView => 26
    case ProjectsGithub => 27
    case ContactTitle => 28
    case ContactSubtitle => 29
    case ContactSubmit => 30
    case WebsiteMetadataTitle => 31
    case WebsiteMetadataDescription => 32
    case EduTitle => 33
    case EduDegree => 34
    case EduDepartment => 35
    case EduLocation => 36
    case ExpTitle => 37
    case ExpPosition => 38
    case ExpYears => 39
    case ExpSpecialization => 40
    case LangTitle => 41
    case LangEnglish => 42
    case LangArabic => 43
    case LangGerman => 44
    case TabsEducation => 45
    case TabsExperience => 46
    case TabsLanguages => 47
  }

  /** The key declared at position `i`. */
  function KeyAt(i: nat): TranslationKey
    requires i < KeyCount
  {
    if i == 0 then Home
    else if i == 1 then About
    else if i == 2 then Projects
    else if i == 3 then Contact
    else if i == 4 then Skills
    else if i == 5 then Experience
    else if i == 6 then Education
    else if i == 7 then DownloadCv
    else if i == 8 then Name
    else if i == 9 then Email
    else if i == 10 then Message
    else if i == 11 then Send
    else if i == 12 then Welcome
    else if i == 13 then WelcomeDescription
    else if i == 14 then AboutMe
    else if i == 15 then AboutDescription
    else if i == 16 then ViewProject
    else if i == 17 then GetInTouch
    else if i == 18 then HeroTitle
    else if i == 19 then HeroSubtitle
    else if i == 20 then HeroContactMe
    else if i == 21 then HeroViewProjects
    else if i == 22 then SkillsTitle
    else if i == 23 then SkillsSubtitle
    else if i == 24 then ProjectsTitle
    else if i == 25 then ProjectsSubtitle
    else if i == 26 then ProjectsView
    else if i == 27 then ProjectsGithub
    else if i == 28 then ContactTitle
    else if i == 29 then ContactSubtitle
    else if i == 30 then ContactSubmit
    else if i == 31 then WebsiteMetadataTitle
    else if i == 32 then WebsiteMetadataDescription
    else if i == 33 then EduTitle
    else if i == 34 then EduDegree
    else if i == 35 then EduDepartment
    else if i == 36 then EduLocation
    else if i == 37 then ExpTitle
    else if i == 38 then ExpPosition
    else if i == 39 then ExpYears
    else if i == 40 then ExpSpecialization
    else if i == 41 then LangTitle
    else if i == 42 then LangEnglish
    else if i == 43 then LangArabic
    else if i == 44 then LangGerman
    else if i == 45 then TabsEducation
    else if i == 46 then TabsExperience
    else TabsLanguages
  }

  /** Every declared key, in declaration order. */
  function AllKeys(): (keys: seq<TranslationKey>)
    ensures forall key :: key in keys
  {
    var keys := seq(KeyCount, i requires 0 <= i < KeyCount => KeyAt(i));
    assert forall key :: key in keys by {
      forall key
        ensures key in keys
      {
        assert keys[Ordinal(key)] == key;
      }
    }
    keys
  }

  /** Searches `keys` for one with the property name `name`. */
  function FindKey(name: string, keys: seq<TranslationKey>): (r: Option<TranslationKey>)
    ensures r.Some? ==> KeyName(r.value) == name
    ensures r.None? ==> forall key :: key in keys ==> KeyName(key) != name
  {
    if keys == [] then None
    else if KeyName(keys[0]) == name then Some(keys[0])
    else FindKey(name, keys[1..])
  }

  /** `translations[language][name]` over the table's own properties: the entry of the key
      with that name, or nothing (`undefined`) when no key has it.  Names every object
      inherits (such as "constructor" or "toString") are treated as absent. */
  function Lookup(language: Language, name: string): (r: Option<string>)
    ensures r.None? <==> forall key :: KeyName(key) != name
    ensures r.Some? ==> exists key :: KeyName(key) == name && r.value == Translation(language, key)
  {
    match FindKey(name, AllKeys())
    case Some(key) => Some(Translation(language, key))
    case None => None
  }

  /** No declared key is named "chatbot.welcome". */
  lemma ChatbotWelcomeUndeclared()
    ensures forall key :: KeyName(key) != "chatbot.welcome"
  {
  }

  /** No declared key is named "skillsDescription". */
  lemma SkillsDescriptionUndeclared()
    ensures forall key :: KeyName(key) != "skillsDescription"
  {
  }

  /** Keys the chat widget and the skills section ask for but the table does not declare
      have no entry in either language. */
  lemma UndeclaredKeysHaveNoEntry(language: Language)
    ensures Lookup(language, "chatbot.welcome") == None
    ensures Lookup(language, "skillsDescription") == None
  {
    ChatbotWelcomeUndeclared();
    SkillsDescriptionUndeclared();
  }
}

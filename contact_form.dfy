/** The contact form: the checks run on submission, the email pattern, the form's status
    and the submit button's label. */
module ContactForm {
  import opened Wrappers
  import opened Text
  import opened Languages

  datatype FormStatus = Idle | Submitting | Success | Error

  /** The error shown under each field; `None` where the field passed. */
  datatype FormErrors = FormErrors(name: Option<string>, email: Option<string>, message: Option<string>)

  const NoErrors := FormErrors(None, None, None)

  /** What can be wrong with a submission. */
  datatype Problem = NameRequired | EmailRequired | EmailInvalid | MessageRequired

  /** The text shown for a problem: English for "en", Arabic otherwise. */
  function ProblemText(problem: Problem, language: Language): (s: string)
    ensures s != ""
  {
    match problem
    case NameRequired => if language == En then "Name is required" else "الاسم مطلوب"
    case EmailRequired =>
      if language == En then "Email is required" else "البريد الإلكتروني مطلوب"
    case EmailInvalid =>
      if language == En then "Invalid email address" else "عنوان البريد الإلكتروني غير صالح"
    case MessageRequired => if language == En then "Message is required" else "الرسالة مطلوبة"
  }

  /** Every code unit is ASCII; the English texts are, the Arabic ones are not. */
  predicate IsAscii(s: string) {
    forall i :: 0 <= i < |s| ==> s[i] < 128 as char
  }

  /** Problems are reported in English exactly when the language is English. */
  lemma ProblemTextInEnglishIffEn(problem: Problem, language: Language)
    ensures IsAscii(ProblemText(problem, language)) <==> language == En
  {
    if language == Ar {
      assert !(ProblemText(problem, language)[0] < 128 as char);
    }
  }

  /** In each language the four problems read differently; in particular the two email
      errors can be told apart. */
  lemma ProblemTextsDistinct(language: Language, p: Problem, q: Problem)
    requires p != q
    ensures ProblemText(p, language) != ProblemText(q, language)
  {
  }

  /** `!value || value.trim() === ""`: the field is absent, empty or only white space. */
  predicate Missing(value: Option<string>) {
    value.None? || Trim(value.value) == ""
  }

  predicate IsLetter(c: char) {
    'A' <= c <= 'Z' || 'a' <= c <= 'z'
  }

  predicate IsDigit(c: char) {
    '0' <= c <= '9'
  }

  /** `[A-Z0-9._%+-]` under the `i` flag. */
  predicate LocalChar(c: char) {
    IsLetter(c) || IsDigit(c) || c == '.' || c == '_' || c == '%' || c == '+' || c == '-'
  }

  /** `[A-Z0-9.-]` under the `i` flag. */
  predicate DomainChar(c: char) {
    IsLetter(c) || IsDigit(c) || c == '.' || c == '-'
  }

  /** `s` splits at `at` and `dot` as the email pattern requires: one or more local-part
      characters, `@`, one or more domain characters, `.`, two or more letters, and nothing
      else. */
  predicate SplitsAt(s: string, at: nat, dot: nat) {
    && 0 < at && at + 1 < dot && dot + 2 < |s|
    && s[at] == '@' && s[dot] == '.'
    && (forall i :: 0 <= i < at ==> LocalChar(s[i]))
    && (forall i :: at < i < dot ==> DomainChar(s[i]))
    && (forall i :: dot < i < |s| ==> IsLetter(s[i]))
  }

  /** The whole string matches `^[A-Z0-9._%+-]+@[A-Z0-9.-]+\.[A-Z]{2,}$` with the `i` flag. */
  ghost predicate EmailShaped(s: string) {
    exists at: nat, dot: nat :: SplitsAt(s, at, dot)
  }

  /** The index of the first `c` in `s`, or `|s|` when there is none. */
  function FirstIndexOf(s: string, c: char): (r: nat)
    ensures r <= |s| && (r < |s| ==> s[r] == c)
    ensures forall i :: 0 <= i < r ==> s[i] != c
  {
    if s == [] then 0
    else if s[0] == c then 0
    else 1 + FirstIndexOf(s[1..], c)
  }

  /** The index of the last `c` in `s`, or `-1` when there is none. */
  function LastIndexOf(s: string, c: char): (r: int)
    ensures -1 <= r < |s| && (0 <= r ==> s[r] == c)
    ensures forall i :: r < i < |s| ==> s[i] != c
  {
    if s == [] then -1
    else if s[|s| - 1] == c then |s| - 1
    else LastIndexOf(s[..|s| - 1], c)
  }

  /** Any split the pattern accepts is at the first `@` and the last `.`: the local part
      holds no `@` and the top-level domain no `.`. */
  lemma {:induction false} SplitIsCanonical(s: string, at: nat, dot: nat)
    requires SplitsAt(s, at, dot)
    ensures at == FirstIndexOf(s, '@') && dot == LastIndexOf(s, '.')
  {
  }

  /** So the pattern matches exactly when the split at the first `@` and the last `.` is
      one it accepts. */
  lemma ShapedIffCanonicalSplit(s: string)
    ensures EmailShaped(s) <==>
      0 <= LastIndexOf(s, '.') && SplitsAt(s, FirstIndexOf(s, '@'), LastIndexOf(s, '.'))
  {
    if EmailShaped(s) {
      var at: nat, dot: nat :| SplitsAt(s, at, dot);
      SplitIsCanonical(s, at, dot);
    }
  }

  /** The pattern test, decided by splitting at the first `@` and the last `.`. */
  function IsValidEmail(s: string): (b: bool)
    ensures b <==> EmailShaped(s)
  {
    ShapedIffCanonicalSplit(s);
    var dot := LastIndexOf(s, '.');
    0 <= dot && SplitsAt(s, FirstIndexOf(s, '@'), dot)
  }

  /** An address the pattern accepts starts with a local-part character, so it is never
      blank. */
  lemma ShapedIsNotMissing(email: Option<string>)
    ensures email.Some? && EmailShaped(email.value) ==> !Missing(email)
  {
    if email.Some? && EmailShaped(email.value) {
      var s := email.value;
      var at: nat, dot: nat :| SplitsAt(s, at, dot);
      assert LocalChar(s[0]);
      TrimEmptyIffBlank(s);
    }
  }

  /** The checks of the submit handler, field by field; the email is tested as typed,
      without trimming. */
  function Validate(language: Language, name: Option<string>, email: Option<string>,
                    message: Option<string>): (e: FormErrors)
    ensures e.name.Some? <==> Missing(name)
    ensures e.name.Some? ==> e.name.value == ProblemText(NameRequired, language)
    ensures e.email == Some(ProblemText(EmailRequired, language)) <==> Missing(email)
    ensures e.email == Some(ProblemText(EmailInvalid, language)) <==>
      !Missing(email) && !EmailShaped(email.value)
    ensures e.email.None? <==> email.Some? && EmailShaped(email.value)
    ensures e.message.Some? <==> Missing(message)
    ensures e.message.Some? ==> e.message.value == ProblemText(MessageRequired, language)
  {
    ProblemTextsDistinct(language, EmailRequired, EmailInvalid);
    ShapedIsNotMissing(email);
    FormErrors(
      if Missing(name) then Some(ProblemText(NameRequired, language)) else None,
      if Missing(email) then Some(ProblemText(EmailRequired, language))
      else if !IsValidEmail(email.value) then Some(ProblemText(EmailInvalid, language))
      else None,
      if Missing(message) then Some(ProblemText(MessageRequired, language)) else None)
  }

  /** The submit button's label for each status, in English for "en" and Arabic otherwise. */
  function ButtonText(status: FormStatus, language: Language): (s: string)
    ensures s != ""
  {
    match status
    case Submitting => if language == En then "Sending..." else "جاري الإرسال..."
    case Success => if language == En then "Sent Successfully!" else "تم الإرسال بنجاح!"
    case Error => if language == En then "Failed to Send" else "فشل الإرسال"
    case Idle => if language == En then "Send Message" else "إرسال الرسالة"
  }

  /** The label is in English exactly when the language is English. */
  lemma ButtonTextInEnglishIffEn(status: FormStatus, language: Language)
    ensures IsAscii(ButtonText(status, language)) <==> language == En
  {
    if language == Ar {
      assert !(ButtonText(status, language)[0] < 128 as char);
    }
  }

  /** In each language the four statuses have four different labels. */
  lemma ButtonTextsDistinct(language: Language, s: FormStatus, t: FormStatus)
    requires s != t
    ensures ButtonText(s, language) != ButtonText(t, language)
  {
  }

  /** The form's state: its status and the errors on display. */
  class Form {
    var status: FormStatus
    var errors: FormErrors

    constructor()
      ensures status == Idle && errors == NoErrors
    {
      status := Idle;
      errors := NoErrors;
    }

    /** The submit handler up to the send: it collects one error per failed field; with
        any error it shows them and stops, leaving the status alone; otherwise it clears
        the errors, moves to `Submitting` and reports that the form is to be sent. */
    method Submit(language: Language, name: Option<string>, email: Option<string>,
                  message: Option<string>) returns (send: bool)
      modifies this
      ensures send <==> Validate(language, name, email, message) == NoErrors
      ensures !send ==> errors == Validate(language, name, email, message) && status == old(status)
      ensures send ==> errors == NoErrors && status == Submitting
    {
      var found := NoErrors;
      if Missing(name) {
        found := found.(name := Some(ProblemText(NameRequired, language)));
      }
      if Missing(email) {
        found := found.(email := Some(ProblemText(EmailRequired, language)));
      } else if !IsValidEmail(email.value) {
        found := found.(email := Some(ProblemText(EmailInvalid, language)));
      }
      if Missing(message) {
        found := found.(message := Some(ProblemText(MessageRequired, language)));
      }
      if found.name.Some? || found.email.Some? || found.message.Some? {
        errors := found;
        return false;
      }
      errors := NoErrors;
      status := Submitting;
      return true;
    }

    /** The send settles: an accepted response shows success; a rejected one, or a
        failed request, shows the error. */
    method Settle(accepted: bool)
      modifies this
      ensures status == (if accepted then Success else Error)
      ensures errors == old(errors)
    {
      if accepted {
        status := Success;
      } else {
        status := Error;
      }
    }

    /** Five seconds after success or failure the form returns to idle. */
    method TimerElapsed()
      modifies this
      ensures status == Idle && errors == old(errors)
    {
      status := Idle;
    }
  }
}

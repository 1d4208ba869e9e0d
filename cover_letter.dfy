/**
 * The cover-letter generator: four fixed templates, filled with the job title,
 * the company name and four phrases that the generator's extractors return,
 * then joined with blank lines.
 */
module CoverLetter {
  import opened Text

  /** The replacement-field names that occur in the templates. */
  datatype FieldName =
    | Role | Company | KeyRequirementsField | MatchingExperienceField
    | InterestingAspect | RelevantBackgroundField
  {
    /** How the name is spelled between the braces of a template. */
    function Spelling(): string {
      match this
      case Role => "role"
      case Company => "company"
      case KeyRequirementsField => "key_requirements"
      case MatchingExperienceField => "matching_experience"
      case InterestingAspect => "interesting_aspect"
      case RelevantBackgroundField => "relevant_background"
    }
  }

  /**
   * A format string split at its replacement fields: literal text, a `{name}`
   * field, and so on to the end.
   */
  datatype Template =
    | Done
    | Lit(text: string, next: Template)
    | Slot(name: FieldName, next: Template)

  /** Every replacement field of `t` has an argument (otherwise `str.format` raises KeyError). */
  predicate Bound(t: Template, args: map<FieldName, string>) {
    match t
    case Done => true
    case Lit(_, next) => Bound(next, args)
    case Slot(name, next) => name in args && Bound(next, args)
  }

  /** `template.format(**args)`: each field is replaced by its argument, surplus arguments are ignored. */
  function Fill(t: Template, args: map<FieldName, string>): string
    requires Bound(t, args)
  {
    match t
    case Done => ""
    case Lit(s, next) => s + Fill(next, args)
    case Slot(name, next) => args[name] + Fill(next, args)
  }

  /** The source text of a template, with each field written back as `{name}`. */
  function Source(t: Template): string {
    match t
    case Done => ""
    case Lit(s, next) => s + Source(next)
    case Slot(name, next) => "{" + name.Spelling() + "}" + Source(next)
  }

  /** Filling every field with its own `{name}` spelling gives back the template's text. */
  lemma {:induction false} FillWithOwnNames(t: Template, args: map<FieldName, string>)
    requires forall n :: n in args ==> args[n] == "{" + n.Spelling() + "}"
    requires Bound(t, args)
    ensures Fill(t, args) == Source(t)
  {
    match t
    case Done =>
    case Lit(_, next) => FillWithOwnNames(next, args);
    case Slot(_, next) => FillWithOwnNames(next, args);
  }

  const Separator := "\n\n"

  const IntroLead := "I am writing to express my strong interest in the "
  const IntroMid := " position at "
  const IntroTail := ". With over 8 years of experience leading marketing and growth initiatives in tech companies, including significant experience in the Web3 space, I believe I would be an excellent fit for this role."

  const IntroTemplate: Template :=
    Lit(IntroLead, Slot(Role, Lit(IntroMid, Slot(Company, Lit(IntroTail, Done)))))

  /** The experience template is appended as it stands, without `format`. */
  const ExperienceText := "Most recently, as Head of Web3 Marketing at Immunefi, I led marketing initiatives that resulted in over $150M in available bug bounties and achieved 10x growth. I built and managed a team of 6 marketers while establishing comprehensive business development and partnership programs."

  const AlignLead := "Your need for "
  const AlignAfterRequirements := " aligns perfectly with my experience in "
  const AlignAfterExperience := ". I'm particularly excited about "
  const AlignAfterCompany := "'s "
  const AlignAfterAspect := " and believe my background in "
  const AlignTail := " would allow me to make immediate contributions."

  const AlignmentTemplate: Template :=
    Lit(AlignLead, Slot(KeyRequirementsField, Lit(AlignAfterRequirements, Slot(MatchingExperienceField,
    Lit(AlignAfterExperience, Slot(Company, Lit(AlignAfterCompany, Slot(InterestingAspect,
    Lit(AlignAfterAspect, Slot(RelevantBackgroundField, Lit(AlignTail, Done)))))))))))

  const ClosingLead := "I would welcome the opportunity to discuss how my background and skills would benefit "
  const ClosingTail := ". Thank you for considering my application."

  const ClosingTemplate: Template := Lit(ClosingLead, Slot(Company, Lit(ClosingTail, Done)))

  const KeyRequirements := "strategic marketing leadership and team management"
  const CompanyFocus := "innovative approach to market challenges"
  const MatchingExperience := "leading high-performance marketing teams and driving significant growth"
  const RelevantBackground := "Web3 marketing and team leadership"

  /** Requirement extraction is a stub: the same phrase for every description. */
  function ExtractKeyRequirements(jobDescription: string): string {
    KeyRequirements
  }

  /** Company-focus extraction is a stub: the same phrase for every description. */
  function ExtractCompanyFocus(jobDescription: string): string {
    CompanyFocus
  }

  /** Experience matching is a stub: the same phrase for every requirement. */
  function MatchExperience(requirements: string): string {
    MatchingExperience
  }

  /** Background selection is a stub: the same phrase for every description. */
  function GetRelevantBackground(jobDescription: string): string {
    RelevantBackground
  }

  /** The four extractors are stubs: each returns the same phrase whatever it is given. */
  lemma ExtractorsIgnoreInput(d1: string, d2: string)
    ensures ExtractKeyRequirements(d1) == ExtractKeyRequirements(d2)
    ensures ExtractCompanyFocus(d1) == ExtractCompanyFocus(d2)
    ensures MatchExperience(d1) == MatchExperience(d2)
    ensures GetRelevantBackground(d1) == GetRelevantBackground(d2)
  {
  }

  // Filling templates of the shapes used here, stated over variables so that
  // no literal is unfolded.

  /** Filling a template that starts with literal text. */
  lemma FillLit(s: string, next: Template, args: map<FieldName, string>)
    requires Bound(next, args)
    ensures Bound(Lit(s, next), args) && Fill(Lit(s, next), args) == s + Fill(next, args)
  {
  }

  /** Filling a template that starts with a field. */
  lemma FillSlot(name: FieldName, next: Template, args: map<FieldName, string>)
    requires name in args && Bound(next, args)
    ensures Bound(Slot(name, next), args) && Fill(Slot(name, next), args) == args[name] + Fill(next, args)
  {
  }

  /** Filling a template that is one literal text. */
  lemma FillLast(s: string, args: map<FieldName, string>)
    ensures Bound(Lit(s, Done), args) && Fill(Lit(s, Done), args) == s
  {
    assert s + "" == s;
  }

  /** Filling a template of a literal, a field, a literal, a field and a literal. */
  lemma FillFive(a: string, n1: FieldName, b: string, n2: FieldName, c: string, args: map<FieldName, string>)
    requires n1 in args && n2 in args
    ensures Bound(Lit(a, Slot(n1, Lit(b, Slot(n2, Lit(c, Done))))), args)
    ensures Fill(Lit(a, Slot(n1, Lit(b, Slot(n2, Lit(c, Done))))), args) == a + args[n1] + b + args[n2] + c
  {
    FillLast(c, args);
    FillSlot(n2, Lit(c, Done), args);
    FillLit(b, Slot(n2, Lit(c, Done)), args);
    FillSlot(n1, Lit(b, Slot(n2, Lit(c, Done))), args);
    FillLit(a, Slot(n1, Lit(b, Slot(n2, Lit(c, Done)))), args);
  }

  /** Filling a template of a literal, a field and a literal. */
  lemma FillThree(a: string, n: FieldName, b: string, args: map<FieldName, string>)
    requires n in args
    ensures Bound(Lit(a, Slot(n, Lit(b, Done))), args)
    ensures Fill(Lit(a, Slot(n, Lit(b, Done))), args) == a + args[n] + b
  {
    FillLast(b, args);
    FillSlot(n, Lit(b, Done), args);
    FillLit(a, Slot(n, Lit(b, Done)), args);
  }

  /** Filling a template of six literals around five fields, grouped around the third field. */
  lemma FillEleven(a0: string, n1: FieldName, a1: string, n2: FieldName, a2: string, n3: FieldName,
                   a3: string, n4: FieldName, a4: string, n5: FieldName, a5: string, args: map<FieldName, string>)
    requires n1 in args && n2 in args && n3 in args && n4 in args && n5 in args
    ensures Bound(Lit(a0, Slot(n1, Lit(a1, Slot(n2, Lit(a2, Slot(n3,
                  Lit(a3, Slot(n4, Lit(a4, Slot(n5, Lit(a5, Done))))))))))), args)
    ensures Fill(Lit(a0, Slot(n1, Lit(a1, Slot(n2, Lit(a2, Slot(n3,
                  Lit(a3, Slot(n4, Lit(a4, Slot(n5, Lit(a5, Done))))))))))), args)
         == (a0 + args[n1] + a1 + args[n2] + a2) + args[n3] + (a3 + args[n4] + a4 + args[n5] + a5)
  {
    var t5 := Lit(a5, Done);
    var t4 := Lit(a4, Slot(n5, t5));
    var t3 := Lit(a3, Slot(n4, t4));
    var t2 := Lit(a2, Slot(n3, t3));
    var t1 := Lit(a1, Slot(n2, t2));
    var t0 := Lit(a0, Slot(n1, t1));
    FillLast(a5, args);
    FillSlot(n5, t5, args);
    FillLit(a4, Slot(n5, t5), args);
    FillSlot(n4, t4, args);
    FillLit(a3, Slot(n4, t4), args);
    FillSlot(n3, t3, args);
    FillLit(a2, Slot(n3, t3), args);
    FillSlot(n2, t2, args);
    FillLit(a1, Slot(n2, t2), args);
    FillSlot(n1, t1, args);
    FillLit(a0, Slot(n1, t1), args);
    RegroupAroundThird(a0, args[n1], a1, args[n2], a2, args[n3], a3, args[n4], a4, args[n5], a5);
  }

  /** Concatenation regrouped around its sixth part. */
  lemma RegroupAroundThird(a: string, b: string, c: string, d: string, e: string, x: string,
                           f: string, g: string, h: string, i: string, j: string)
    ensures a + (b + (c + (d + (e + (x + (f + (g + (h + (i + j)))))))))
         == (a + b + c + d + e) + x + (f + g + h + i + j)
  {
  }

  /** The letter's last two sections flattened. */
  lemma FlattenSections(p: string, q: string, x: string, r: string, s: string, u: string, w: string)
    ensures p + (q + x + r) + s + (u + x + w) == p + q + x + r + s + u + x + w
  {
  }

  /** `format` of the intro template puts the title and the company between its fixed texts. */
  lemma FillIntro(jobTitle: string, companyName: string)
    ensures Bound(IntroTemplate, map[Role := jobTitle, Company := companyName])
    ensures Fill(IntroTemplate, map[Role := jobTitle, Company := companyName])
         == IntroLead + jobTitle + IntroMid + companyName + IntroTail
  {
    FillFive(IntroLead, Role, IntroMid, Company, IntroTail, map[Role := jobTitle, Company := companyName]);
  }

  /** `format` of the alignment template, given the four extracted phrases. */
  lemma FillAlignment(companyName: string)
    ensures Bound(AlignmentTemplate, AlignmentArgs(companyName))
    ensures Fill(AlignmentTemplate, AlignmentArgs(companyName)) == AlignmentHead() + companyName + AlignmentRest()
  {
    FillEleven(AlignLead, KeyRequirementsField, AlignAfterRequirements, MatchingExperienceField,
      AlignAfterExperience, Company, AlignAfterCompany, InterestingAspect, AlignAfterAspect,
      RelevantBackgroundField, AlignTail, AlignmentArgs(companyName));
  }

  /** `format` of the closing template puts the company between its fixed texts. */
  lemma FillClosing(companyName: string)
    ensures Bound(ClosingTemplate, map[Company := companyName])
    ensures Fill(ClosingTemplate, map[Company := companyName]) == ClosingLead + companyName + ClosingTail
  {
    FillThree(ClosingLead, Company, ClosingTail, map[Company := companyName]);
  }

  /** The arguments `generate` passes to the alignment template. */
  function AlignmentArgs(companyName: string): map<FieldName, string> {
    map[
      KeyRequirementsField := KeyRequirements,
      MatchingExperienceField := MatchingExperience,
      Company := companyName,
      InterestingAspect := CompanyFocus,
      RelevantBackgroundField := RelevantBackground]
  }

  /** The alignment section up to the company, with the extracted phrases in place. */
  function AlignmentHead(): string {
    AlignLead + KeyRequirements + AlignAfterRequirements + MatchingExperience + AlignAfterExperience
  }

  /** The alignment section after the company, with the extracted phrases in place. */
  function AlignmentRest(): string {
    AlignAfterCompany + CompanyFocus + AlignAfterAspect + RelevantBackground + AlignTail
  }

  /** The shape of every letter: the eleven parts of `Generate`'s result, title `t` and company `x`. */
  function Shape(il: string, t: string, im: string, x: string, it: string, sep: string, exp: string,
                 ah: string, ar: string, cl: string, ct: string): string {
    il + t + im + x + it + sep + exp + sep + ah + x + ar + sep + cl + x + ct
  }

  /**
   * `generate`: the intro, experience, alignment and closing sections, in
   * that order, joined with blank lines. Written out, the letter has the
   * title and the company in the intro, the experience text verbatim, the
   * company in the alignment and in the closing.
   */
  function Generate(jobTitle: string, companyName: string, jobDescription: string): (letter: string)
    ensures letter == Shape(IntroLead, jobTitle, IntroMid, companyName, IntroTail, Separator, ExperienceText,
                            AlignmentHead(), AlignmentRest(), ClosingLead, ClosingTail)
  {
    var keyRequirements := ExtractKeyRequirements(jobDescription);
    var interestingAspect := ExtractCompanyFocus(jobDescription);
    var matchingExperience := MatchExperience(keyRequirements);
    var relevantBackground := GetRelevantBackground(jobDescription);
    var args := map[
      KeyRequirementsField := keyRequirements,
      MatchingExperienceField := matchingExperience,
      Company := companyName,
      InterestingAspect := interestingAspect,
      RelevantBackgroundField := relevantBackground];
    assert args == AlignmentArgs(companyName);
    FillIntro(jobTitle, companyName);
    FillAlignment(companyName);
    FillClosing(companyName);
    var intro := Fill(IntroTemplate, map[Role := jobTitle, Company := companyName]);
    var alignment := Fill(AlignmentTemplate, args);
    var closing := Fill(ClosingTemplate, map[Company := companyName]);
    JoinFour(intro, ExperienceText, alignment, closing, Separator);
    FlattenSections(intro + Separator + ExperienceText + Separator, AlignmentHead(), companyName, AlignmentRest(),
      Separator, ClosingLead, ClosingTail);
    Join([intro, ExperienceText, alignment, closing], Separator)
  }

  // Facts about any string of the letter's shape.

  /** The first company slot of the letter's shape. */
  lemma FirstSlot(il: string, t: string, im: string, x: string, it: string, sep: string, exp: string,
                  ah: string, ar: string, cl: string, ct: string)
    ensures OccursAt(Shape(il, t, im, x, it, sep, exp, ah, ar, cl, ct), x, |il + t + im|)
  {
    var a1 := il + t + im;
    var b1 := it + sep + exp + sep + ah + x + ar + sep + cl + x + ct;
    assert Shape(il, t, im, x, it, sep, exp, ah, ar, cl, ct) == a1 + x + b1;
    OccursBetween(a1, x, b1);
  }

  /** The second company slot of the letter's shape. */
  lemma SecondSlot(il: string, t: string, im: string, x: string, it: string, sep: string, exp: string,
                   ah: string, ar: string, cl: string, ct: string)
    ensures OccursAt(Shape(il, t, im, x, it, sep, exp, ah, ar, cl, ct), x,
                     |il + t + im + x + it + sep + exp + sep + ah|)
  {
    var a2 := il + t + im + x + it + sep + exp + sep + ah;
    var b2 := ar + sep + cl + x + ct;
    assert Shape(il, t, im, x, it, sep, exp, ah, ar, cl, ct) == a2 + x + b2;
    OccursBetween(a2, x, b2);
  }

  /** The third company slot of the letter's shape. */
  lemma ThirdSlot(il: string, t: string, im: string, x: string, it: string, sep: string, exp: string,
                  ah: string, ar: string, cl: string, ct: string)
    ensures OccursAt(Shape(il, t, im, x, it, sep, exp, ah, ar, cl, ct), x,
                     |il + t + im + x + it + sep + exp + sep + ah + x + ar + sep + cl|)
  {
    var a3 := il + t + im + x + it + sep + exp + sep + ah + x + ar + sep + cl;
    OccursBetween(a3, x, ct);
  }

  /** The company slots of the letter's shape: three occurrences, in order, none overlapping. */
  lemma CompanySlots(il: string, t: string, im: string, x: string, it: string, sep: string, exp: string,
                     ah: string, ar: string, cl: string, ct: string) returns (i: nat, j: nat, k: nat)
    ensures OccursAt(Shape(il, t, im, x, it, sep, exp, ah, ar, cl, ct), x, i)
    ensures OccursAt(Shape(il, t, im, x, it, sep, exp, ah, ar, cl, ct), x, j)
    ensures OccursAt(Shape(il, t, im, x, it, sep, exp, ah, ar, cl, ct), x, k)
    ensures i + |x| <= j && j + |x| <= k
  {
    FirstSlot(il, t, im, x, it, sep, exp, ah, ar, cl, ct);
    SecondSlot(il, t, im, x, it, sep, exp, ah, ar, cl, ct);
    ThirdSlot(il, t, im, x, it, sep, exp, ah, ar, cl, ct);
    i := |il + t + im|;
    j := |il + t + im + x + it + sep + exp + sep + ah|;
    k := |il + t + im + x + it + sep + exp + sep + ah + x + ar + sep + cl|;
  }

  /** The letter's shape opens with the intro, and the experience text follows one separator later. */
  lemma ExperienceSlot(il: string, t: string, im: string, x: string, it: string, sep: string, exp: string,
                       ah: string, ar: string, cl: string, ct: string)
    ensures il + t + im + x + it <= Shape(il, t, im, x, it, sep, exp, ah, ar, cl, ct)
    ensures OccursAt(Shape(il, t, im, x, it, sep, exp, ah, ar, cl, ct), exp, |il + t + im + x + it + sep|)
  {
    var a4 := il + t + im + x + it + sep;
    var b4 := sep + ah + x + ar + sep + cl + x + ct;
    assert Shape(il, t, im, x, it, sep, exp, ah, ar, cl, ct) == a4 + exp + b4;
    OccursBetween(a4, exp, b4);
  }

  /** Where the title sits in the letter's shape. */
  lemma TitleAt(il: string, t: string, im: string, x: string, it: string, sep: string, exp: string,
                ah: string, ar: string, cl: string, ct: string)
    ensures OccursAt(Shape(il, t, im, x, it, sep, exp, ah, ar, cl, ct), t, |il|)
  {
    var a1 := il + t + im;
    var b1 := it + sep + exp + sep + ah + x + ar + sep + cl + x + ct;
    assert Shape(il, t, im, x, it, sep, exp, ah, ar, cl, ct) == a1 + x + b1;
    OccursBetween(il, t, im);
    OccursInLonger(a1, x, t, |il|);
    OccursInLonger(a1 + x, b1, t, |il|);
  }

  /** Two letters of the same shape with the same company have the same title. */
  lemma TitleSlot(il: string, t1: string, t2: string, im: string, x: string, it: string, sep: string, exp: string,
                  ah: string, ar: string, cl: string, ct: string)
    requires Shape(il, t1, im, x, it, sep, exp, ah, ar, cl, ct) == Shape(il, t2, im, x, it, sep, exp, ah, ar, cl, ct)
    ensures t1 == t2
  {
    TitleAt(il, t1, im, x, it, sep, exp, ah, ar, cl, ct);
    TitleAt(il, t2, im, x, it, sep, exp, ah, ar, cl, ct);
    assert |t1| == |t2|;
  }

  // Facts about the letter itself.

  /** The company name is written into the intro, the alignment and the closing: three separate occurrences. */
  lemma CompanyNamedThrice(jobTitle: string, companyName: string, jobDescription: string) returns (i: nat, j: nat, k: nat)
    ensures OccursAt(Generate(jobTitle, companyName, jobDescription), companyName, i)
    ensures OccursAt(Generate(jobTitle, companyName, jobDescription), companyName, j)
    ensures OccursAt(Generate(jobTitle, companyName, jobDescription), companyName, k)
    ensures i + |companyName| <= j && j + |companyName| <= k
  {
    i, j, k := CompanySlots(IntroLead, jobTitle, IntroMid, companyName, IntroTail, Separator, ExperienceText,
      AlignmentHead(), AlignmentRest(), ClosingLead, ClosingTail);
  }

  /**
   * The letter opens with the intro template filled with the title and the
   * company, and the experience text follows it verbatim after one separator.
   */
  lemma IntroThenExperience(jobTitle: string, companyName: string, jobDescription: string)
    ensures Bound(IntroTemplate, map[Role := jobTitle, Company := companyName])
    ensures var intro := Fill(IntroTemplate, map[Role := jobTitle, Company := companyName]);
      && intro <= Generate(jobTitle, companyName, jobDescription)
      && OccursAt(Generate(jobTitle, companyName, jobDescription), ExperienceText, |intro + Separator|)
  {
    FillIntro(jobTitle, companyName);
    ExperienceSlot(IntroLead, jobTitle, IntroMid, companyName, IntroTail, Separator, ExperienceText,
      AlignmentHead(), AlignmentRest(), ClosingLead, ClosingTail);
  }

  /** The extractors ignore the description, so the letter does not depend on it. */
  lemma IgnoresDescription(jobTitle: string, companyName: string, d1: string, d2: string)
    ensures Generate(jobTitle, companyName, d1) == Generate(jobTitle, companyName, d2)
  {
  }

  /** For a fixed company, the letter determines the job title it was written for. */
  lemma TitleRecoverable(t1: string, t2: string, companyName: string, d1: string, d2: string)
    requires Generate(t1, companyName, d1) == Generate(t2, companyName, d2)
    ensures t1 == t2
  {
    TitleSlot(IntroLead, t1, t2, IntroMid, companyName, IntroTail, Separator, ExperienceText,
      AlignmentHead(), AlignmentRest(), ClosingLead, ClosingTail);
  }
}

/**
 * The video lawyers: the four personas, choosing one by specialization or by language, and
 * the consultation script read out in English, Spanish or Hindi.
 */
module Tavus {
  import opened Wrappers
  import opened Text

  datatype Persona = Persona(
    id: string,
    name: string,
    description: string,
    specialization: seq<string>,
    language: string,
    avatarUrl: string)

  const CorporateLawyer := Persona("corporate_lawyer", "Sarah Chen", "Corporate Law Specialist",
    ["Corporate Law", "Business Contracts", "Mergers & Acquisitions"], "en",
    "https://images.pexels.com/photos/774909/pexels-photo-774909.jpeg")
  const FamilyLawyer := Persona("family_lawyer", "Maria Rodriguez", "Family Law Expert",
    ["Family Law", "Divorce", "Child Custody"], "es",
    "https://images.pexels.com/photos/1239291/pexels-photo-1239291.jpeg")
  const CriminalLawyer := Persona("criminal_lawyer", "James Wilson", "Criminal Defense Attorney",
    ["Criminal Law", "Defense", "Civil Rights"], "en",
    "https://images.pexels.com/photos/1222271/pexels-photo-1222271.jpeg")
  const ImmigrationLawyer := Persona("immigration_lawyer", "Priya Patel", "Immigration Law Specialist",
    ["Immigration", "Visa Applications", "Citizenship"], "hi",
    "https://images.pexels.com/photos/1181686/pexels-photo-1181686.jpeg")

  /** `LEGAL_PERSONAS`. */
  const LegalPersonas := [CorporateLawyer, FamilyLawyer, CriminalLawyer, ImmigrationLawyer]

  /** One of the persona's specializations contains the wanted one, ignoring case. */
  predicate Matches(persona: Persona, wanted: string) {
    exists k | 0 <= k < |persona.specialization| :: Contains(Lower(persona.specialization[k]), Lower(wanted))
  }

  function FirstMatch(personas: seq<Persona>, wanted: string): (r: Option<nat>)
    ensures r.None? ==> forall k | 0 <= k < |personas| :: !Matches(personas[k], wanted)
    ensures r.Some? ==> r.value < |personas| && Matches(personas[r.value], wanted)
                        && forall k | 0 <= k < r.value :: !Matches(personas[k], wanted)
  {
    if personas == [] then None
    else if Matches(personas[0], wanted) then Some(0)
    else
      var r := FirstMatch(personas[1..], wanted);
      assert forall k | 1 <= k < |personas| :: personas[k] == personas[1..][k - 1];
      if r.Some? then Some(r.value + 1) else None
  }

  /**
   * `getPersonaBySpecialization`: the first persona one of whose specializations contains the
   * wanted text, ignoring case, and the corporate lawyer when none does; never `null`.
   */
  function PersonaBySpecialization(wanted: string): (r: Persona)
    ensures r in LegalPersonas
    ensures (forall k | 0 <= k < |LegalPersonas| :: !Matches(LegalPersonas[k], wanted)) ==> r == LegalPersonas[0]
    ensures (exists k | 0 <= k < |LegalPersonas| :: Matches(LegalPersonas[k], wanted)) ==>
              exists k | 0 <= k < |LegalPersonas| :: r == LegalPersonas[k] && Matches(r, wanted)
                && forall i | 0 <= i < k :: !Matches(LegalPersonas[i], wanted)
  {
    var m := FirstMatch(LegalPersonas, wanted);
    if m.Some? then LegalPersonas[m.value] else LegalPersonas[0]
  }

  /** `personas.filter(p => p.language === language)`. */
  function WithLanguage(personas: seq<Persona>, language: string): (r: seq<Persona>)
    ensures |r| <= |personas|
    ensures forall p :: p in r <==> p in personas && p.language == language
  {
    if personas == [] then []
    else
      var rest := WithLanguage(personas[1..], language);
      assert personas == [personas[0]] + personas[1..];
      if personas[0].language == language then [personas[0]] + rest else rest
  }

  /** `getPersonaByLanguage`. */
  function PersonaByLanguage(language: string): seq<Persona> {
    WithLanguage(LegalPersonas, language)
  }

  function Keep(p: Persona, language: string): seq<Persona> {
    if p.language == language then [p] else []
  }

  lemma WithLanguageOfFour(a: Persona, b: Persona, c: Persona, d: Persona, language: string)
    ensures WithLanguage([a, b, c, d], language)
            == Keep(a, language) + Keep(b, language) + Keep(c, language) + Keep(d, language)
  {
    WithLanguageOne(a, language);
    WithLanguageOne(b, language);
    WithLanguageOne(c, language);
    WithLanguageOne(d, language);
    WithLanguageAppend([a], [b], language);
    WithLanguageAppend([a, b], [c], language);
    WithLanguageAppend([a, b, c], [d], language);
    assert [a] + [b] == [a, b] && [a, b] + [c] == [a, b, c] && [a, b, c] + [d] == [a, b, c, d];
  }

  lemma WithLanguageOne(p: Persona, language: string)
    ensures WithLanguage([p], language) == Keep(p, language)
  {
    assert [p][1..] == [];
  }

  /** Filtering a concatenation filters each part. */
  lemma {:induction false} WithLanguageAppend(a: seq<Persona>, b: seq<Persona>, language: string)
    ensures WithLanguage(a + b, language) == WithLanguage(a, language) + WithLanguage(b, language)
  {
    if a == [] {
      assert a + b == b;
    } else {
      assert (a + b)[1..] == a[1..] + b;
      WithLanguageAppend(a[1..], b, language);
    }
  }

  lemma WithLanguageOfTable(language: string)
    ensures PersonaByLanguage(language)
            == Keep(CorporateLawyer, language) + Keep(FamilyLawyer, language)
               + Keep(CriminalLawyer, language) + Keep(ImmigrationLawyer, language)
  {
    WithLanguageOfFour(CorporateLawyer, FamilyLawyer, CriminalLawyer, ImmigrationLawyer, language);
  }

  /** The personas by language, in table order: two speak English, one Spanish, one Hindi, none anything else. */
  lemma PersonasByLanguage(language: string)
    ensures PersonaByLanguage("en") == [CorporateLawyer, CriminalLawyer]
    ensures PersonaByLanguage("es") == [FamilyLawyer]
    ensures PersonaByLanguage("hi") == [ImmigrationLawyer]
    ensures language != "en" && language != "es" && language != "hi" ==> PersonaByLanguage(language) == []
  {
    WithLanguageOfTable("en");
    WithLanguageOfTable("es");
    WithLanguageOfTable("hi");
    WithLanguageOfTable(language);
  }

  /**
   * A script: five fixed pieces around the jurisdiction, the question, the analysis and the
   * jurisdiction again.
   */
  datatype Template = Template(opening: string, afterJurisdiction: string, afterQuestion: string,
                               afterAnalysis: string, closing: string)

  function Fill(t: Template, question: string, analysis: string, jurisdiction: string): string {
    t.opening + jurisdiction + t.afterJurisdiction + question + t.afterQuestion + analysis
    + t.afterAnalysis + jurisdiction + t.closing
  }

  const English0 := "Hello! I'm here to help you with your legal question about "
  const English1 := " law.\n\nBased on your inquiry: \""
  const English2 := "\"\n\nHere's my analysis: "
  const English3 := "\n\nPlease remember that this is general legal information and not specific legal advice. For your particular situation, I recommend consulting with a qualified attorney in "
  const English4 := " who can provide personalized guidance.\n\nIs there anything specific about this analysis you'd like me to clarify?"
  const EnglishScript := Template(English0, English1, English2, English3, English4)

  const Spanish0 := "\U{A1}Hola! Estoy aqu\U{ED} para ayudarte con tu pregunta legal sobre las leyes de "
  const Spanish1 := ".\n\nBasado en tu consulta: \""
  const Spanish2 := "\"\n\nAqu\U{ED} est\U{E1} mi an\U{E1}lisis: "
  const Spanish3 := "\n\nPor favor recuerda que esta es informaci\U{F3}n legal general y no consejo legal espec\U{ED}fico. Para tu situaci\U{F3}n particular, recomiendo consultar con un abogado calificado en "
  const Spanish4 := " que pueda proporcionar orientaci\U{F3}n personalizada.\n\n\U{BF}Hay algo espec\U{ED}fico sobre este an\U{E1}lisis que te gustar\U{ED}a que aclare?"
  const SpanishScript := Template(Spanish0, Spanish1, Spanish2, Spanish3, Spanish4)

  const Hindi0 := "\U{928}\U{92E}\U{938}\U{94D}\U{924}\U{947}! \U{92E}\U{948}\U{902} "
  const Hindi1 := " \U{915}\U{93E}\U{928}\U{942}\U{928} \U{915}\U{947} \U{92C}\U{93E}\U{930}\U{947} \U{92E}\U{947}\U{902} \U{906}\U{92A}\U{915}\U{947} \U{915}\U{93E}\U{928}\U{942}\U{928}\U{940} \U{92A}\U{94D}\U{930}\U{936}\U{94D}\U{928} \U{92E}\U{947}\U{902} \U{906}\U{92A}\U{915}\U{940} \U{938}\U{939}\U{93E}\U{92F}\U{924}\U{93E} \U{915}\U{947} \U{932}\U{93F}\U{90F} \U{92F}\U{939}\U{93E}\U{901} \U{939}\U{942}\U{901}\U{964}\n\n\U{906}\U{92A}\U{915}\U{940} \U{92A}\U{942}\U{91B}\U{924}\U{93E}\U{91B} \U{915}\U{947} \U{906}\U{927}\U{93E}\U{930} \U{92A}\U{930}: \""
  const Hindi2 := "\"\n\n\U{92F}\U{939}\U{93E}\U{901} \U{92E}\U{947}\U{930}\U{93E} \U{935}\U{93F}\U{936}\U{94D}\U{932}\U{947}\U{937}\U{923} \U{939}\U{948}: "
  const Hindi3 := "\n\n\U{915}\U{943}\U{92A}\U{92F}\U{93E} \U{92F}\U{93E}\U{926} \U{930}\U{916}\U{947}\U{902} \U{915}\U{93F} \U{92F}\U{939} \U{938}\U{93E}\U{92E}\U{93E}\U{928}\U{94D}\U{92F} \U{915}\U{93E}\U{928}\U{942}\U{928}\U{940} \U{91C}\U{93E}\U{928}\U{915}\U{93E}\U{930}\U{940} \U{939}\U{948} \U{914}\U{930} \U{935}\U{93F}\U{936}\U{93F}\U{937}\U{94D}\U{91F} \U{915}\U{93E}\U{928}\U{942}\U{928}\U{940} \U{938}\U{932}\U{93E}\U{939} \U{928}\U{939}\U{940}\U{902} \U{939}\U{948}\U{964} \U{906}\U{92A}\U{915}\U{940} \U{935}\U{93F}\U{936}\U{947}\U{937} \U{938}\U{94D}\U{925}\U{93F}\U{924}\U{93F} \U{915}\U{947} \U{932}\U{93F}\U{90F}, \U{92E}\U{948}\U{902} "
  const Hindi4 := " \U{92E}\U{947}\U{902} \U{90F}\U{915} \U{92F}\U{94B}\U{917}\U{94D}\U{92F} \U{935}\U{915}\U{940}\U{932} \U{938}\U{947} \U{938}\U{932}\U{93E}\U{939} \U{932}\U{947}\U{928}\U{947} \U{915}\U{940} \U{938}\U{93F}\U{92B}\U{93E}\U{930}\U{93F}\U{936} \U{915}\U{930}\U{924}\U{93E} \U{939}\U{942}\U{901} \U{91C}\U{94B} \U{935}\U{94D}\U{92F}\U{915}\U{94D}\U{924}\U{93F}\U{917}\U{924} \U{92E}\U{93E}\U{930}\U{94D}\U{917}\U{926}\U{930}\U{94D}\U{936}\U{928} \U{92A}\U{94D}\U{930}\U{926}\U{93E}\U{928} \U{915}\U{930} \U{938}\U{915}\U{924}\U{93E} \U{939}\U{948}\U{964}\n\n\U{915}\U{94D}\U{92F}\U{93E} \U{907}\U{938} \U{935}\U{93F}\U{936}\U{94D}\U{932}\U{947}\U{937}\U{923} \U{915}\U{947} \U{92C}\U{93E}\U{930}\U{947} \U{92E}\U{947}\U{902} \U{915}\U{941}\U{91B} \U{935}\U{93F}\U{936}\U{93F}\U{937}\U{94D}\U{91F} \U{939}\U{948} \U{91C}\U{93F}\U{938}\U{947} \U{906}\U{92A} \U{91A}\U{93E}\U{939}\U{924}\U{947} \U{939}\U{948}\U{902} \U{915}\U{93F} \U{92E}\U{948}\U{902} \U{938}\U{94D}\U{92A}\U{937}\U{94D}\U{91F} \U{915}\U{930}\U{942}\U{901}?"
  const HindiScript := Template(Hindi0, Hindi1, Hindi2, Hindi3, Hindi4)

  /** `scripts[language] || scripts.en`: only `es` and `hi` have their own text. */
  function ScriptTemplate(language: string): Template {
    if language == "es" then SpanishScript
    else if language == "hi" then HindiScript
    else EnglishScript
  }

  /** `generateLegalConsultationScript`. */
  function ConsultationScript(question: string, analysis: string, jurisdiction: string, language: string): string {
    Fill(ScriptTemplate(language), question, analysis, jurisdiction)
  }

  /** Any language but Spanish and Hindi is read the English script. */
  lemma OtherLanguagesEnglish(question: string, analysis: string, jurisdiction: string, language: string)
    requires language != "es" && language != "hi"
    ensures ConsultationScript(question, analysis, jurisdiction, language)
            == ConsultationScript(question, analysis, jurisdiction, "en")
  {
  }

  /** A filled template quotes the question, the analysis and the jurisdiction word for word. */
  lemma FillQuotes(t: Template, question: string, analysis: string, jurisdiction: string)
    ensures var s := Fill(t, question, analysis, jurisdiction);
            Contains(s, question) && Contains(s, analysis) && Contains(s, jurisdiction)
  {
    var s1 := t.opening + jurisdiction;
    ContainsSuffix(t.opening, jurisdiction);
    var s2 := s1 + t.afterJurisdiction + question;
    ContainsExtend(s1, jurisdiction, t.afterJurisdiction);
    ContainsExtend(s1 + t.afterJurisdiction, jurisdiction, question);
    ContainsSuffix(s1 + t.afterJurisdiction, question);
    var s3 := s2 + t.afterQuestion + analysis;
    ContainsExtend(s2, jurisdiction, t.afterQuestion);
    ContainsExtend(s2 + t.afterQuestion, jurisdiction, analysis);
    ContainsExtend(s2, question, t.afterQuestion);
    ContainsExtend(s2 + t.afterQuestion, question, analysis);
    ContainsSuffix(s2 + t.afterQuestion, analysis);
    var rest := t.afterAnalysis + jurisdiction + t.closing;
    ContainsExtend(s3, jurisdiction, rest);
    ContainsExtend(s3, question, rest);
    ContainsExtend(s3, analysis, rest);
    assert Fill(t, question, analysis, jurisdiction) == s3 + rest;
  }

  /** The script quotes the question, the analysis and the jurisdiction word for word, in every language. */
  lemma ScriptQuotes(question: string, analysis: string, jurisdiction: string, language: string)
    ensures var s := ConsultationScript(question, analysis, jurisdiction, language);
            Contains(s, question) && Contains(s, analysis) && Contains(s, jurisdiction)
  {
    FillQuotes(ScriptTemplate(language), question, analysis, jurisdiction);
  }
}

/** The triage engine: a first-match-wins cascade of case-insensitive keyword tests
    that maps a SOAP note to an urgency score and a triage category. */
module Triage {
  import opened Models
  import opened TextUtil

  const CriticalKeywords: seq<string> := ["suicide", "harm", "abuse", "emergency", "chest pain", "stroke", "heart attack"]
  const HighKeywords: seq<string> := ["severe pain", "high fever", "shortness of breath", "fainting"]
  const ModerateKeywords: seq<string> := ["pain", "infection", "vomiting", "diarrhea", "rash", "fever"]

  /** `any(k in text for k in keywords)`. */
  predicate MentionsAny(text: string, keywords: seq<string>)
  {
    exists k | k in keywords :: Contains(text, k)
  }

  /** Some risk flag, lower-cased, holds a critical keyword. */
  predicate CriticalFlag(flags: seq<string>)
  {
    exists f | f in flags :: MentionsAny(Lower(f), CriticalKeywords)
  }

  function Subjective(note: SoapNote): string { Lower(Section(note, "subjective")) }

  function Assessment(note: SoapNote): string { Lower(Section(note, "assessment")) }

  /** `TriageService.calculate_urgency`: the patient profile is taken but never read. */
  function CalculateUrgency(note: SoapNote, profile: PatientProfile): (r: (int, TriageCategory))
    ensures r in {(95, CRITICAL), (90, CRITICAL), (75, HIGH), (50, MODERATE), (20, LOW)}
    ensures 0 <= r.0 <= 100
  {
    if CriticalFlag(Flags(note)) then (95, CRITICAL)
    else if MentionsAny(Subjective(note), CriticalKeywords) || MentionsAny(Assessment(note), CriticalKeywords) then (90, CRITICAL)
    else if MentionsAny(Subjective(note), HighKeywords) then (75, HIGH)
    else if MentionsAny(Subjective(note), ModerateKeywords) then (50, MODERATE)
    else (20, LOW)
  }

  /** Priority of a category, CRITICAL highest. */
  function Rank(c: TriageCategory): nat
  {
    match c
    case CRITICAL => 3
    case HIGH => 2
    case MODERATE => 1
    case LOW => 0
  }

  /** Each outcome of the cascade, and the condition under which it is reached. */
  lemma Cascade(note: SoapNote, profile: PatientProfile)
    ensures var r := CalculateUrgency(note, profile);
      var critFlag := CriticalFlag(Flags(note));
      var critText := MentionsAny(Subjective(note), CriticalKeywords) || MentionsAny(Assessment(note), CriticalKeywords);
      && (r == (95, CRITICAL) <==> critFlag)
      && (r == (90, CRITICAL) <==> !critFlag && critText)
      && (r == (75, HIGH) <==> !critFlag && !critText && MentionsAny(Subjective(note), HighKeywords))
      && (r == (50, MODERATE) <==> !critFlag && !critText && !MentionsAny(Subjective(note), HighKeywords)
                                   && MentionsAny(Subjective(note), ModerateKeywords))
      && (r == (20, LOW) <==> !critFlag && !critText && !MentionsAny(Subjective(note), HighKeywords)
                              && !MentionsAny(Subjective(note), ModerateKeywords))
  {
  }

  /** A higher score never comes with a lower category. */
  lemma ScoreOrdersCategory(a: SoapNote, b: SoapNote, pa: PatientProfile, pb: PatientProfile)
    requires CalculateUrgency(a, pa).0 <= CalculateUrgency(b, pb).0
    ensures Rank(CalculateUrgency(a, pa).1) <= Rank(CalculateUrgency(b, pb).1)
  {
  }

  /** The profile does not influence the result. */
  lemma ProfileIgnored(note: SoapNote, p: PatientProfile, q: PatientProfile)
    ensures CalculateUrgency(note, p) == CalculateUrgency(note, q)
  {
  }

  /** A note with no sections and no flags, or with their empty forms, is routine. */
  lemma MissingFieldsAreEmpty(profile: PatientProfile)
    ensures CalculateUrgency(SoapNote(None, None), profile) == (20, LOW)
    ensures CalculateUrgency(SoapNote(Some(map[]), Some([])), profile) == (20, LOW)
  {
    NoKeywordInEmpty(CriticalKeywords);
    NoKeywordInEmpty(HighKeywords);
    NoKeywordInEmpty(ModerateKeywords);
  }

  /** A missing soap_json is read as an empty dict, whatever the flags say. */
  lemma MissingSectionsAreEmpty(flags: Option<seq<string>>, profile: PatientProfile)
    ensures CalculateUrgency(SoapNote(None, flags), profile) == CalculateUrgency(SoapNote(Some(map[]), flags), profile)
  {
  }

  /** Missing risk_flags are read as an empty list, whatever the sections say. */
  lemma MissingFlagsAreEmpty(sections: Option<map<string, string>>, profile: PatientProfile)
    ensures CalculateUrgency(SoapNote(sections, None), profile) == CalculateUrgency(SoapNote(sections, Some([])), profile)
  {
  }

  /** A section key that is absent is read as the empty text. */
  lemma MissingKeyIsEmpty(m: map<string, string>, flags: Option<seq<string>>, key: string, profile: PatientProfile)
    requires key !in m
    ensures CalculateUrgency(SoapNote(Some(m), flags), profile) == CalculateUrgency(SoapNote(Some(m[key := ""]), flags), profile)
  {
    var a, b := SoapNote(Some(m), flags), SoapNote(Some(m[key := ""]), flags);
    assert Subjective(a) == Subjective(b);
    assert Assessment(a) == Assessment(b);
  }

  lemma NoKeywordInEmpty(keywords: seq<string>)
    requires forall k | k in keywords :: |k| > 0
    ensures !MentionsAny(Lower(""), keywords)
  {
    forall k | k in keywords ensures !Contains(Lower(""), k) {
      NothingInEmpty(k);
    }
  }

  /** A note whose section `key` is replaced by `text`. */
  function WithSection(note: SoapNote, key: string, text: string): SoapNote
  {
    var m := if note.soapJson.Some? then note.soapJson.value else map[];
    SoapNote(Some(m[key := text]), note.riskFlags)
  }

  lemma MentionsAnyExtended(s: string, t: string, keywords: seq<string>)
    requires MentionsAny(s, keywords)
    ensures MentionsAny(s + t, keywords)
  {
    var k :| k in keywords && Contains(s, k);
    ContainsInLeft(s, t, k);
  }

  /** Appending text to the subjective section never lowers the score. */
  lemma SubjectiveExtensionNeverLowers(note: SoapNote, profile: PatientProfile, extra: string)
    ensures var longer := WithSection(note, "subjective", Section(note, "subjective") + extra);
      CalculateUrgency(longer, profile).0 >= CalculateUrgency(note, profile).0
  {
    var s := Section(note, "subjective");
    var longer := WithSection(note, "subjective", s + extra);
    LowerAppend(s, extra);
    assert Subjective(longer) == Subjective(note) + Lower(extra);
    assert Assessment(longer) == Assessment(note);
    assert Flags(longer) == Flags(note);
    if MentionsAny(Subjective(note), CriticalKeywords) {
      MentionsAnyExtended(Subjective(note), Lower(extra), CriticalKeywords);
    }
    if MentionsAny(Subjective(note), HighKeywords) {
      MentionsAnyExtended(Subjective(note), Lower(extra), HighKeywords);
    }
    if MentionsAny(Subjective(note), ModerateKeywords) {
      MentionsAnyExtended(Subjective(note), Lower(extra), ModerateKeywords);
    }
  }

  /** Adding a risk flag never lowers the score. */
  lemma ExtraFlagNeverLowers(note: SoapNote, profile: PatientProfile, flag: string)
    ensures var flagged := SoapNote(note.soapJson, Some(Flags(note) + [flag]));
      CalculateUrgency(flagged, profile).0 >= CalculateUrgency(note, profile).0
  {
    var flagged := SoapNote(note.soapJson, Some(Flags(note) + [flag]));
    if CriticalFlag(Flags(note)) {
      var f :| f in Flags(note) && MentionsAny(Lower(f), CriticalKeywords);
      assert f in Flags(flagged);
    }
  }

  /** Outside the critical tier the assessment is never read: replacing it by another text
      without a critical keyword leaves the result unchanged. */
  lemma AssessmentOnlyMattersWhenCritical(note: SoapNote, profile: PatientProfile, text: string)
    requires !MentionsAny(Assessment(note), CriticalKeywords)
    requires !MentionsAny(Lower(text), CriticalKeywords)
    ensures CalculateUrgency(WithSection(note, "assessment", text), profile) == CalculateUrgency(note, profile)
  {
    var other := WithSection(note, "assessment", text);
    assert Subjective(other) == Subjective(note);
    assert Assessment(other) == Lower(text);
  }

  /** Matching ignores case: texts that lower-case alike give the same result. */
  lemma CaseInsensitive(a: SoapNote, b: SoapNote, profile: PatientProfile)
    requires Subjective(a) == Subjective(b) && Assessment(a) == Assessment(b)
    requires |Flags(a)| == |Flags(b)|
    requires forall i | 0 <= i < |Flags(a)| :: Lower(Flags(a)[i]) == Lower(Flags(b)[i])
    ensures CalculateUrgency(a, profile) == CalculateUrgency(b, profile)
  {
    if CriticalFlag(Flags(a)) {
      var f :| f in Flags(a) && MentionsAny(Lower(f), CriticalKeywords);
      var i :| 0 <= i < |Flags(a)| && Flags(a)[i] == f;
      assert Flags(b)[i] in Flags(b);
    }
    if CriticalFlag(Flags(b)) {
      var f :| f in Flags(b) && MentionsAny(Lower(f), CriticalKeywords);
      var i :| 0 <= i < |Flags(b)| && Flags(b)[i] == f;
      assert Flags(a)[i] in Flags(a);
    }
  }

  /** Tier order wins over keyword overlap: "severe pain" makes a note HIGH although "pain" is a moderate keyword. */
  lemma SeverePainIsHigh(note: SoapNote, profile: PatientProfile)
    requires Contains(Subjective(note), "severe pain")
    requires !CriticalFlag(Flags(note))
    requires !MentionsAny(Subjective(note), CriticalKeywords) && !MentionsAny(Assessment(note), CriticalKeywords)
    ensures MentionsAny(Subjective(note), ModerateKeywords)
    ensures CalculateUrgency(note, profile) == (75, HIGH)
  {
    var i :| 0 <= i <= |Subjective(note)| - 11 && OccursAt(Subjective(note), "severe pain", i);
    assert Subjective(note)[i + 7..i + 11] == "severe pain"[7..11] == "pain";
    assert OccursAt(Subjective(note), "pain", i + 7);
    assert "pain" in ModerateKeywords;
    assert "severe pain" in HighKeywords;
  }

  /** A flag "Suicide Risk" makes the note CRITICAL with score 95, whatever the text. */
  lemma SuicideRiskFlagExample(sections: Option<map<string, string>>, profile: PatientProfile)
    ensures CalculateUrgency(SoapNote(sections, Some(["Suicide Risk"])), profile) == (95, CRITICAL)
  {
    assert OccursAt(Lower("Suicide Risk"), "suicide", 0);
    assert "suicide" in CriticalKeywords;
  }

  /** Python lower-cases the Kelvin sign to 'k', so "STRO\U{212A}E" in the subjective text
      reads as "stroke" and makes the note CRITICAL. */
  lemma KelvinSignStrokeExample(profile: PatientProfile)
    ensures CalculateUrgency(SoapNote(Some(map["subjective" := "STRO\U{212A}E"]), None), profile) == (90, CRITICAL)
  {
    var note := SoapNote(Some(map["subjective" := "STRO\U{212A}E"]), None);
    assert Subjective(note) == Lower("STRO\U{212A}E") == "stroke";
    assert OccursAt(Subjective(note), "stroke", 0);
    assert "stroke" in CriticalKeywords;
  }

  const RoutineStart: string := "Follow up for blood "
  const RoutineEnd: string := "pressure check. Feel fine."
  const RoutineSubjective: string := RoutineStart + RoutineEnd

  /** "Follow up for blood pressure check. Feel fine." with assessment "Stable HTN" and no flags is LOW. */
  lemma RoutineFollowUpExample(profile: PatientProfile)
    ensures var note := SoapNote(Some(map["subjective" := RoutineSubjective, "assessment" := "Stable HTN"]), Some([]));
      CalculateUrgency(note, profile) == (20, LOW)
  {
    var note := SoapNote(Some(map["subjective" := RoutineSubjective, "assessment" := "Stable HTN"]), Some([]));
    assert Subjective(note) == Lower(RoutineSubjective);
    assert Assessment(note) == Lower("Stable HTN");
    RoutineHasNoCriticalKeyword();
    RoutineHasNoOtherKeyword();
    StableHasNoCriticalKeyword();
  }

  lemma RoutineLowered()
    ensures Lower(RoutineSubjective) == "follow up for blood " + "pressure check. feel fine."
  {
    LowerAppend(RoutineStart, RoutineEnd);
    assert Lower(RoutineStart) == "follow up for blood ";
    assert Lower(RoutineEnd) == "pressure check. feel fine.";
  }

  lemma RoutineLetters()
    ensures var s := Lower(RoutineSubjective); 'a' !in s && 't' !in s && 'g' !in s && 'v' !in s
  {
    RoutineLowered();
    StartLetters();
    EndLettersAT();
    EndLettersGV();
  }

  lemma StartLetters()
    ensures var x := "follow up for blood "; 'a' !in x && 't' !in x && 'g' !in x && 'v' !in x
  {
  }

  lemma EndLettersAT()
    ensures var y := "pressure check. feel fine."; 'a' !in y && 't' !in y
  {
  }

  lemma EndLettersGV()
    ensures var y := "pressure check. feel fine."; 'g' !in y && 'v' !in y
  {
  }

  lemma RoutineLacksUI()
    ensures NoPair(Lower(RoutineSubjective), 'u', 'i')
  {
    RoutineLowered();
    var x, y := "follow up for blood ", "pressure check. feel fine.";
    assert NoPair(x, 'u', 'i');
    assert NoPair(y, 'u', 'i');
    NoPairAppend(x, y, 'u', 'i');
  }

  lemma RoutineHasNoCriticalKeyword()
    ensures !MentionsAny(Lower(RoutineSubjective), CriticalKeywords)
  {
    var s := Lower(RoutineSubjective);
    RoutineLetters();
    RoutineLacksUI();
    AbsentPair(s, "suicide", 1);
    AbsentChar(s, "harm", 1);
    AbsentChar(s, "abuse", 0);
    AbsentChar(s, "emergency", 4);
    AbsentChar(s, "chest pain", 4);
    AbsentChar(s, "stroke", 1);
    AbsentChar(s, "heart attack", 2);
  }

  lemma RoutineHasNoOtherKeyword()
    ensures !MentionsAny(Lower(RoutineSubjective), HighKeywords)
    ensures !MentionsAny(Lower(RoutineSubjective), ModerateKeywords)
  {
    var s := Lower(RoutineSubjective);
    RoutineLetters();
    AbsentChar(s, "severe pain", 2);
    AbsentChar(s, "high fever", 2);
    AbsentChar(s, "shortness of breath", 4);
    AbsentChar(s, "fainting", 1);
    AbsentChar(s, "pain", 1);
    AbsentChar(s, "infection", 5);
    AbsentChar(s, "vomiting", 0);
    AbsentChar(s, "diarrhea", 2);
    AbsentChar(s, "rash", 1);
    AbsentChar(s, "fever", 2);
  }

  lemma StableLetters()
    ensures var a := Lower("Stable HTN"); 'u' !in a && 'r' !in a && 'm' !in a && 'c' !in a
  {
    assert Lower("Stable HTN") == "stable htn";
  }

  lemma StableHasNoCriticalKeyword()
    ensures !MentionsAny(Lower("Stable HTN"), CriticalKeywords)
  {
    var a := Lower("Stable HTN");
    StableLetters();
    AbsentChar(a, "suicide", 1);
    AbsentChar(a, "harm", 2);
    AbsentChar(a, "abuse", 2);
    AbsentChar(a, "emergency", 1);
    AbsentChar(a, "chest pain", 0);
    AbsentChar(a, "stroke", 2);
    AbsentChar(a, "heart attack", 3);
  }
}

/** The drug-interaction checker: every entry of a fixed knowledge base whose drug
    keyword occurs in the lower-cased plan and whose condition keyword occurs in the
    lower-cased medical history yields one warning, in table order. */
module Safety {
  import opened Models
  import opened TextUtil

  /** One knowledge-base entry: drug keyword, condition keyword, warning message. */
  datatype Interaction = Interaction(drug: string, condition: string, message: string)

  const Cross: string := "\U{274C}"
  const Caution: string := "\U{26A0}\U{FE0F}"

  const AspirinUlcerMessage: string :=
    Cross + " CONTRAINDICATION: Aspirin " + "specified in plan but patient " + "has history of Ulcers " + "(Risk of bleeding)."
  const AspirinBleedingMessage: string :=
    Cross + " CONTRAINDICATION: Aspirin " + "specified in plan but patient " + "has history of Bleeding " + "disorders."
  const PenicillinMessage: string :=
    Cross + " CONTRAINDICATION: Penicillin " + "specified in plan but patient " + "has reported Allergies."
  const IbuprofenMessage: string :=
    Caution + " CAUTION: Ibuprofen may be " + "risky for patients with " + "Kidney issues."
  const BetaBlockerMessage: string :=
    Caution + " CAUTION: Beta blockes may " + "exacerbate Asthma."

  /** The knowledge base, in the order it is scanned. */
  const Interactions: seq<Interaction> := [
    Interaction("aspirin", "ulcer", AspirinUlcerMessage),
    Interaction("aspirin", "bleeding", AspirinBleedingMessage),
    Interaction("penicillin", "allergy", PenicillinMessage),
    Interaction("ibuprofen", "kidney", IbuprofenMessage),
    Interaction("beta blocker", "asthma", BetaBlockerMessage)
  ]

  /** `soap_json.get("plan", "").lower()`. */
  function Plan(note: SoapNote): string { Lower(Section(note, "plan")) }

  /** `(medical_history or "").lower()`. */
  function History(profile: PatientProfile): string
  {
    Lower(if profile.medicalHistory.Some? then profile.medicalHistory.value else "")
  }

  predicate Matches(e: Interaction, plan: string, history: string)
  {
    Contains(plan, e.drug) && Contains(history, e.condition)
  }

  /** The warning type is decided by the cross mark in the message. */
  function WarningKind(message: string): (kind: string)
    ensures kind == "CONTRAINDICATION" <==> Contains(message, Cross)
    ensures kind == "CAUTION" <==> !Contains(message, Cross)
  {
    if Contains(message, Cross) then "CONTRAINDICATION" else "CAUTION"
  }

  function ToWarning(e: Interaction): Warning
  {
    Warning(WarningKind(e.message), e.message, e.drug, e.condition)
  }

  /** The warnings the scan of `table` produces, as a specification: the last entry's
      warning, if any, comes after those of the entries before it. */
  function Scan(table: seq<Interaction>, plan: string, history: string): (r: seq<Warning>)
    ensures |r| <= |table|
    decreases |table|
  {
    if table == [] then []
    else
      var last := table[|table| - 1];
      Scan(table[..|table| - 1], plan, history) + (if Matches(last, plan, history) then [ToWarning(last)] else [])
  }

  /** `SafetyService.check_drug_interactions`. */
  method CheckDrugInteractions(note: SoapNote, profile: PatientProfile) returns (warnings: seq<Warning>)
    ensures warnings == Scan(Interactions, Plan(note), History(profile))
  {
    warnings := [];
    var plan := Plan(note);
    var history := History(profile);
    for i := 0 to |Interactions|
      invariant warnings == Scan(Interactions[..i], plan, history)
    {
      var e := Interactions[i];
      assert Interactions[..i + 1][..i] == Interactions[..i];
      if Contains(plan, e.drug) && Contains(history, e.condition) {
        warnings := warnings + [ToWarning(e)];
      }
    }
    assert Interactions[..|Interactions|] == Interactions;
  }

  /** A warning is produced exactly for the entries whose drug is in the plan and whose
      condition is in the history. */
  lemma {:induction false} ScanMembership(table: seq<Interaction>, plan: string, history: string, w: Warning)
    ensures w in Scan(table, plan, history) <==> exists e | e in table :: Matches(e, plan, history) && w == ToWarning(e)
    decreases |table|
  {
    if table != [] {
      var init := table[..|table| - 1];
      var last := table[|table| - 1];
      ScanMembership(init, plan, history, w);
      assert table == init + [last];
      if exists e | e in table :: Matches(e, plan, history) && w == ToWarning(e) {
        var e :| e in table && Matches(e, plan, history) && w == ToWarning(e);
        if e != last {
          assert e in init;
        }
      }
    }
  }

  /** Warnings keep the table order: scanning a split table scans each part in turn. */
  lemma {:induction false} ScanAppend(a: seq<Interaction>, b: seq<Interaction>, plan: string, history: string)
    ensures Scan(a + b, plan, history) == Scan(a, plan, history) + Scan(b, plan, history)
    decreases |b|
  {
    if b == [] {
      assert a + b == a;
    } else {
      var init := b[..|b| - 1];
      assert (a + b)[..|a + b| - 1] == a + init;
      ScanAppend(a, init, plan, history);
    }
  }

  /** Two matching entries at the head of a table give the first two warnings, in order. */
  lemma ScanTwoMatching(e0: Interaction, e1: Interaction, rest: seq<Interaction>, plan: string, history: string)
    requires Matches(e0, plan, history) && Matches(e1, plan, history)
    ensures var r := Scan([e0, e1] + rest, plan, history);
      |r| >= 2 && r[0] == ToWarning(e0) && r[1] == ToWarning(e1)
  {
    ScanAppend([e0, e1], rest, plan, history);
    assert [e0, e1][..1] == [e0] && [e0][..0] == [];
  }

  /** There is no deduplication: an aspirin plan for a patient with a history of both ulcers
      and bleeding gets both aspirin warnings, ulcer first. */
  lemma AspirinUlcerAndBleeding(plan: string, history: string)
    requires Contains(plan, "aspirin") && Contains(history, "ulcer") && Contains(history, "bleeding")
    ensures var r := Scan(Interactions, plan, history);
      |r| >= 2 && r[0] == ToWarning(Interactions[0]) && r[1] == ToWarning(Interactions[1])
  {
    assert Interactions == [Interactions[0], Interactions[1]] + Interactions[2..];
    ScanTwoMatching(Interactions[0], Interactions[1], Interactions[2..], plan, history);
  }

  /** No entry matching means no warning. */
  lemma {:induction false} ScanNoMatch(table: seq<Interaction>, plan: string, history: string)
    requires forall e | e in table :: !Matches(e, plan, history)
    ensures Scan(table, plan, history) == []
    decreases |table|
  {
    if table != [] {
      assert forall e | e in table[..|table| - 1] :: e in table;
      ScanNoMatch(table[..|table| - 1], plan, history);
    }
  }

  /** A plan naming none of the table's drugs gets no warning, whatever the history. */
  lemma NoDrugNoWarning(plan: string, history: string)
    requires !Contains(plan, "aspirin") && !Contains(plan, "penicillin")
    requires !Contains(plan, "ibuprofen") && !Contains(plan, "beta blocker")
    ensures Scan(Interactions, plan, history) == []
  {
    forall e | e in Interactions ensures !Matches(e, plan, history) {
      assert e.drug in ["aspirin", "penicillin", "ibuprofen", "beta blocker"];
    }
    ScanNoMatch(Interactions, plan, history);
  }

  /** A note without a plan, or a patient without a medical history, gets no warning. */
  lemma EmptyPlanOrHistory(note: SoapNote, profile: PatientProfile)
    requires Section(note, "plan") == "" || profile.medicalHistory.None? || profile.medicalHistory == Some("")
    ensures Scan(Interactions, Plan(note), History(profile)) == []
  {
    forall e | e in Interactions ensures !Matches(e, Plan(note), History(profile)) {
      NothingInEmpty(e.drug);
      NothingInEmpty(e.condition);
    }
    ScanNoMatch(Interactions, Plan(note), History(profile));
  }

  lemma CrossOpensContraindications()
    ensures forall i | 0 <= i < 3 :: OccursAt(Interactions[i].message, Cross, 0)
  {
    assert AspirinUlcerMessage[0] == AspirinBleedingMessage[0] == PenicillinMessage[0] == Cross[0];
  }

  lemma IbuprofenMessageLacksCross()
    ensures Cross[0] !in IbuprofenMessage
  {
    var c := Cross[0];
    assert c !in Caution && c !in " CAUTION: Ibuprofen may be ";
    assert c !in "risky for patients with " && c !in "Kidney issues.";
  }

  lemma BetaBlockerMessageLacksCross()
    ensures Cross[0] !in BetaBlockerMessage
  {
    var c := Cross[0];
    assert c !in Caution && c !in " CAUTION: Beta blockes may " && c !in "exacerbate Asthma.";
  }

  lemma CautionMessagesLackCross()
    ensures forall i | 3 <= i < 5 :: Cross[0] !in Interactions[i].message
  {
    IbuprofenMessageLacksCross();
    BetaBlockerMessageLacksCross();
  }

  /** The first three entries are contraindications, the last two cautions. */
  lemma TableKinds()
    ensures forall i | 0 <= i < |Interactions| ::
      WarningKind(Interactions[i].message) == if i < 3 then "CONTRAINDICATION" else "CAUTION"
  {
    CrossOpensContraindications();
    CautionMessagesLackCross();
    forall i | 3 <= i < 5 ensures !Contains(Interactions[i].message, Cross) {
      AbsentChar(Interactions[i].message, Cross, 0);
    }
  }

  const AspirinPlan: string := "Prescribe Aspirin 81mg " + "daily for heart health."
  const UlcerHistory: string := "History of stomach ulcers."

  lemma AspirinPlanNamesAspirin()
    ensures Contains(Lower(AspirinPlan), "aspirin")
  {
    AspirinPlanLowered();
    assert OccursAt(AspirinStart, "aspirin", 10);
    ContainsInLeft(AspirinStart, AspirinEnd, "aspirin");
  }

  const AspirinStart: string := "prescribe aspirin 81mg "
  const AspirinEnd: string := "daily for heart health."

  lemma AspirinPlanLowered()
    ensures Lower(AspirinPlan) == AspirinStart + AspirinEnd
  {
    LowerAppend("Prescribe Aspirin 81mg ", "daily for heart health.");
    assert Lower("Prescribe Aspirin 81mg ") == AspirinStart;
    assert Lower("daily for heart health.") == AspirinEnd;
  }

  lemma AspirinStartLetters()
    ensures NoPair(AspirinStart, 'p', 'e') && 'u' !in AspirinStart && 'k' !in AspirinStart
  {
  }

  lemma AspirinEndLetters()
    ensures NoPair(AspirinEnd, 'p', 'e') && 'u' !in AspirinEnd && 'k' !in AspirinEnd
  {
  }

  lemma AspirinPlanLetters()
    ensures NoPair(Lower(AspirinPlan), 'p', 'e') && 'u' !in Lower(AspirinPlan) && 'k' !in Lower(AspirinPlan)
  {
    AspirinPlanLowered();
    AspirinStartLetters();
    AspirinEndLetters();
    NoPairAppend(AspirinStart, AspirinEnd, 'p', 'e');
  }

  lemma UlcerHistoryLowered()
    ensures Lower(UlcerHistory) == "history of stomach ulcers."
  {
  }

  lemma UlcerHistoryLetters()
    ensures var h := Lower(UlcerHistory);
      OccursAt(h, "ulcer", 19) && 'b' !in h && 'g' !in h && 'k' !in h
  {
    UlcerHistoryLowered();
  }

  /** Aspirin in the plan against a history of stomach ulcers gives exactly the
      aspirin/ulcer contraindication. */
  lemma AspirinUlcerExample()
    ensures Scan(Interactions, Lower(AspirinPlan), Lower(UlcerHistory)) == [ToWarning(Interactions[0])]
    ensures ToWarning(Interactions[0]).kind == "CONTRAINDICATION"
  {
    var p, h := Lower(AspirinPlan), Lower(UlcerHistory);
    AspirinPlanNamesAspirin();
    AspirinPlanLetters();
    UlcerHistoryLetters();
    assert Matches(Interactions[0], p, h);
    AbsentChar(h, "bleeding", 0);
    AbsentPair(p, "penicillin", 0);
    AbsentChar(p, "ibuprofen", 2);
    AbsentChar(p, "beta blocker", 9);
    ScanNoMatch(Interactions[1..], p, h);
    ScanAppend(Interactions[..1], Interactions[1..], p, h);
    assert Interactions == Interactions[..1] + Interactions[1..];
    TableKinds();
  }

  const TylenolPlan: string := "Prescribe Tylenol " + "(Acetaminophen) for pain."

  const TylenolStart: string := "prescribe tylenol "
  const TylenolEnd: string := "(acetaminophen) for pain."

  lemma TylenolPlanLowered()
    ensures Lower(TylenolPlan) == TylenolStart + TylenolEnd
  {
    LowerAppend("Prescribe Tylenol ", "(Acetaminophen) for pain.");
    assert Lower("Prescribe Tylenol ") == TylenolStart;
    assert Lower("(Acetaminophen) for pain.") == TylenolEnd;
  }

  lemma TylenolStartLetters()
    ensures NoPair(TylenolStart, 'a', 's') && NoPair(TylenolStart, 'p', 'e')
    ensures 'u' !in TylenolStart && 'k' !in TylenolStart
  {
  }

  lemma TylenolEndLetters()
    ensures NoPair(TylenolEnd, 'a', 's') && NoPair(TylenolEnd, 'p', 'e')
    ensures 'u' !in TylenolEnd && 'k' !in TylenolEnd
  {
  }

  lemma TylenolPlanLetters()
    ensures var p := Lower(TylenolPlan);
      NoPair(p, 'a', 's') && NoPair(p, 'p', 'e') && 'u' !in p && 'k' !in p
  {
    TylenolPlanLowered();
    TylenolStartLetters();
    TylenolEndLetters();
    NoPairAppend(TylenolStart, TylenolEnd, 'a', 's');
    NoPairAppend(TylenolStart, TylenolEnd, 'p', 'e');
  }

  lemma TylenolPlanLacksAspirinPenicillin()
    ensures !Contains(Lower(TylenolPlan), "aspirin") && !Contains(Lower(TylenolPlan), "penicillin")
  {
    TylenolPlanLetters();
    AbsentPair(Lower(TylenolPlan), "aspirin", 0);
    AbsentPair(Lower(TylenolPlan), "penicillin", 0);
  }

  lemma TylenolPlanLacksIbuprofenBetaBlocker()
    ensures !Contains(Lower(TylenolPlan), "ibuprofen") && !Contains(Lower(TylenolPlan), "beta blocker")
  {
    TylenolPlanLetters();
    AbsentChar(Lower(TylenolPlan), "ibuprofen", 2);
    AbsentChar(Lower(TylenolPlan), "beta blocker", 9);
  }

  /** A plan prescribing only Tylenol triggers no warning, whatever the history. */
  lemma TylenolExample(history: string)
    ensures Scan(Interactions, Lower(TylenolPlan), history) == []
  {
    TylenolPlanLacksAspirinPenicillin();
    TylenolPlanLacksIbuprofenBetaBlocker();
    NoDrugNoWarning(Lower(TylenolPlan), history);
  }
}

/** The rows and enumerations shared by the services and the dashboard. */
module Models {

  datatype Option<T> = None | Some(value: T)

  /** The triage categories, CRITICAL being the most urgent. */
  datatype TriageCategory = CRITICAL | HIGH | MODERATE | LOW

  datatype ConsultationStatus = SCHEDULED | IN_PROGRESS | COMPLETED | FAILED | CANCELLED

  /** One safety warning: its type ("CONTRAINDICATION" or "CAUTION"), message, drug and condition. */
  datatype Warning = Warning(kind: string, message: string, drug: string, condition: string)

  /** A SOAP note as the triage and safety services read it: the section texts by key
      (`soap_json`, possibly null) and the risk flags (possibly null). */
  datatype SoapNote = SoapNote(soapJson: Option<map<string, string>>, riskFlags: Option<seq<string>>)

  /** A patient profile; `userId` links it to the consultations of that patient. */
  datatype PatientProfile = PatientProfile(userId: string, firstName: string, lastName: string,
                                           medicalHistory: Option<string>)

  /** A consultation row. Timestamps are whole seconds. */
  datatype Consultation = Consultation(
    id: string,
    patientId: string,
    status: ConsultationStatus,
    urgencyScore: Option<int>,
    triageCategory: Option<TriageCategory>,
    safetyWarnings: Option<seq<Warning>>,
    requiresManualReview: bool,
    createdAt: Option<int>)

  /** `soap_json.get(key, "")` on a note whose `soap_json` may be null. */
  function Section(note: SoapNote, key: string): string
  {
    match note.soapJson
    case Some(m) => if key in m then m[key] else ""
    case None => ""
  }

  /** `note.risk_flags or []`. */
  function Flags(note: SoapNote): seq<string>
  {
    match note.riskFlags
    case Some(f) => f
    case None => []
  }
}

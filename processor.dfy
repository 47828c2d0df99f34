/** The consultation processing pipeline: a state machine over a consultation row, its
    audio file and the SOAP-note table, driven through a database session whose pending
    writes become visible, as one batch, when it commits. The transcriber and the SOAP
    generator are oracles that may fail (`None` stands for a raised exception). */
module Processor {
  import opened Models

  datatype AudioFile = AudioFile(consultationId: string, fileUrl: string, transcription: Option<string>)

  /** What the SOAP generator returns: the note sections and the risk value. */
  datatype Generated = Generated(sections: map<string, string>, risk: map<string, string>)

  /** A stored SOAP-note row. */
  datatype SoapNoteRow = SoapNoteRow(consultationId: string, soapJson: map<string, string>,
                                     riskFlags: map<string, string>, confidence: real, generatedByAi: bool)

  /** A change staged in the session. */
  datatype Write =
    | StatusWrite(id: string, status: ConsultationStatus)
    | TranscriptionWrite(audioIndex: nat, text: string)
    | NoteInsert(note: SoapNoteRow)

  /** The committed tables. */
  datatype Tables = Tables(consultations: map<string, Consultation>, audioFiles: seq<AudioFile>,
                           soapNotes: seq<SoapNoteRow>)

  /** The committed tables together with the log of committed batches. */
  datatype DbState = DbState(tables: Tables, commits: seq<seq<Write>>)

  function ApplyWrite(t: Tables, w: Write): Tables
  {
    match w
    case StatusWrite(id, status) =>
      if id in t.consultations then t.(consultations := t.consultations[id := t.consultations[id].(status := status)])
      else t
    case TranscriptionWrite(k, text) =>
      if k < |t.audioFiles| then t.(audioFiles := t.audioFiles[k := t.audioFiles[k].(transcription := Some(text))])
      else t
    case NoteInsert(note) => t.(soapNotes := t.soapNotes + [note])
  }

  /** The tables after applying a batch of writes in the order they were staged. */
  function ApplyAll(t: Tables, ws: seq<Write>): Tables
    decreases |ws|
  {
    if ws == [] then t else ApplyAll(ApplyWrite(t, ws[0]), ws[1..])
  }

  /** Committing a batch: apply it and log it. */
  function Run(s: DbState, batch: seq<Write>): (r: DbState)
    ensures r.commits == s.commits + [batch]
  {
    DbState(ApplyAll(s.tables, batch), s.commits + [batch])
  }

  /** The first audio file of the consultation in table order, as `.first()` returns it. */
  function FirstAudio(files: seq<AudioFile>, id: string): (r: Option<nat>)
    ensures r.Some? ==> r.value < |files| && files[r.value].consultationId == id
    ensures r.Some? ==> forall j | 0 <= j < r.value :: files[j].consultationId != id
    ensures r.None? ==> forall j | 0 <= j < |files| :: files[j].consultationId != id
  {
    FirstAudioFrom(files, id, 0)
  }

  function FirstAudioFrom(files: seq<AudioFile>, id: string, from: nat): (r: Option<nat>)
    requires from <= |files|
    ensures r.Some? ==> from <= r.value < |files| && files[r.value].consultationId == id
    ensures r.Some? ==> forall j | from <= j < r.value :: files[j].consultationId != id
    ensures r.None? ==> forall j | from <= j < |files| :: files[j].consultationId != id
    decreases |files| - from
  {
    if from == |files| then None
    else if files[from].consultationId == id then Some(from)
    else FirstAudioFrom(files, id, from + 1)
  }

  const Confidence: real := 0.95

  /** The note row created from the generator's output. */
  function NoteFor(id: string, g: Generated): SoapNoteRow
  {
    SoapNoteRow(id, g.sections, g.risk, Confidence, true)
  }

  /** `process_consultation_flow`, as a function of the state before the run. */
  function Flow(s: DbState, id: string, transcribe: string -> Option<string>, generate: string -> Option<Generated>): (r: DbState)
    ensures id !in s.tables.consultations ==> r == s
    ensures id in s.tables.consultations ==>
      |s.commits| + 2 <= |r.commits| <= |s.commits| + 3 && r.commits[..|s.commits|] == s.commits
  {
    if id !in s.tables.consultations then s
    else AfterMark(Run(s, [StatusWrite(id, IN_PROGRESS)]), id, transcribe, generate)
  }

  /** The run once the status is committed: look up the audio file and transcribe it. */
  function AfterMark(s: DbState, id: string, transcribe: string -> Option<string>, generate: string -> Option<Generated>): (r: DbState)
    ensures |s.commits| + 1 <= |r.commits| <= |s.commits| + 2 && r.commits[..|s.commits|] == s.commits
    ensures var batch := r.commits[|r.commits| - 1]; |batch| >= 1 && batch[|batch| - 1] == StatusWrite(id, IN_PROGRESS)
  {
    match FirstAudio(s.tables.audioFiles, id)
    case None => Run(s, [StatusWrite(id, IN_PROGRESS)])
    case Some(k) =>
      match transcribe(s.tables.audioFiles[k].fileUrl)
      case None => Run(s, [StatusWrite(id, IN_PROGRESS)])
      case Some(t) => AfterTranscript(Run(s, [TranscriptionWrite(k, t), StatusWrite(id, IN_PROGRESS)]), id, t, generate)
  }

  /** The run once the transcript is committed: generate the note and insert it. */
  function AfterTranscript(s: DbState, id: string, transcript: string, generate: string -> Option<Generated>): (r: DbState)
    ensures |r.commits| == |s.commits| + 1 && r.commits[..|s.commits|] == s.commits
    ensures var batch := r.commits[|s.commits|]; |batch| >= 1 && batch[|batch| - 1] == StatusWrite(id, IN_PROGRESS)
  {
    match generate(transcript)
    case None => Run(s, [StatusWrite(id, IN_PROGRESS)])
    case Some(g) => Run(s, [NoteInsert(NoteFor(id, g)), StatusWrite(id, IN_PROGRESS)])
  }

  /** The consultation marked IN_PROGRESS. */
  function Marked(t: Tables, id: string): Tables
    requires id in t.consultations
  {
    t.(consultations := t.consultations[id := t.consultations[id].(status := IN_PROGRESS)])
  }

  lemma RunMark(s: DbState, id: string)
    requires id in s.tables.consultations
    ensures Run(s, [StatusWrite(id, IN_PROGRESS)]) == DbState(Marked(s.tables, id), s.commits + [[StatusWrite(id, IN_PROGRESS)]])
  {
    var w := StatusWrite(id, IN_PROGRESS);
    assert [w][1..] == [];
    assert ApplyAll(s.tables, [w]) == ApplyAll(ApplyWrite(s.tables, w), []);
  }

  lemma RunTranscript(s: DbState, id: string, k: nat, t: string)
    requires id in s.tables.consultations && k < |s.tables.audioFiles|
    ensures var batch := [TranscriptionWrite(k, t), StatusWrite(id, IN_PROGRESS)];
      var files := s.tables.audioFiles[k := s.tables.audioFiles[k].(transcription := Some(t))];
      Run(s, batch) == DbState(Marked(s.tables, id).(audioFiles := files), s.commits + [batch])
  {
    var batch := [TranscriptionWrite(k, t), StatusWrite(id, IN_PROGRESS)];
    assert batch[1..] == [StatusWrite(id, IN_PROGRESS)];
    assert batch[1..][1..] == [];
    var t1 := ApplyWrite(s.tables, batch[0]);
    assert ApplyAll(s.tables, batch) == ApplyAll(t1, batch[1..]);
    assert ApplyAll(t1, batch[1..]) == ApplyAll(ApplyWrite(t1, batch[1]), []);
  }

  lemma RunNote(s: DbState, id: string, g: Generated)
    requires id in s.tables.consultations
    ensures var batch := [NoteInsert(NoteFor(id, g)), StatusWrite(id, IN_PROGRESS)];
      Run(s, batch) == DbState(Marked(s.tables, id).(soapNotes := s.tables.soapNotes + [NoteFor(id, g)]), s.commits + [batch])
  {
    var batch := [NoteInsert(NoteFor(id, g)), StatusWrite(id, IN_PROGRESS)];
    assert batch[1..] == [StatusWrite(id, IN_PROGRESS)];
    assert batch[1..][1..] == [];
    var t1 := ApplyWrite(s.tables, batch[0]);
    assert ApplyAll(s.tables, batch) == ApplyAll(t1, batch[1..]);
    assert ApplyAll(t1, batch[1..]) == ApplyAll(ApplyWrite(t1, batch[1]), []);
  }

  /** An unknown consultation id leaves the database and the commit log untouched. */
  lemma UnknownConsultationUntouched(s: DbState, id: string, transcribe: string -> Option<string>, generate: string -> Option<Generated>)
    requires id !in s.tables.consultations
    ensures Flow(s, id, transcribe, generate) == s
  {
  }

  /** Without an audio file the run commits the status twice and changes nothing else. */
  lemma MissingAudio(s: DbState, id: string, transcribe: string -> Option<string>, generate: string -> Option<Generated>)
    requires id in s.tables.consultations
    requires FirstAudio(s.tables.audioFiles, id).None?
    ensures var r := Flow(s, id, transcribe, generate);
      && r.tables == Marked(s.tables, id)
      && r.commits == s.commits + [[StatusWrite(id, IN_PROGRESS)], [StatusWrite(id, IN_PROGRESS)]]
  {
    RunMark(s, id);
    RunMark(Run(s, [StatusWrite(id, IN_PROGRESS)]), id);
  }

  /** When the transcriber fails, the status is committed again and nothing is stored. */
  lemma TranscriptionFails(s: DbState, id: string, transcribe: string -> Option<string>, generate: string -> Option<Generated>)
    requires id in s.tables.consultations
    requires FirstAudio(s.tables.audioFiles, id).Some?
    requires transcribe(s.tables.audioFiles[FirstAudio(s.tables.audioFiles, id).value].fileUrl).None?
    ensures var r := Flow(s, id, transcribe, generate);
      && r.tables == Marked(s.tables, id)
      && r.commits == s.commits + [[StatusWrite(id, IN_PROGRESS)], [StatusWrite(id, IN_PROGRESS)]]
  {
    RunMark(s, id);
    RunMark(Run(s, [StatusWrite(id, IN_PROGRESS)]), id);
  }

  /** When the generator fails after a transcript was committed, the transcript stays stored
      and no note is created. */
  lemma GenerationFails(s: DbState, id: string, transcribe: string -> Option<string>, generate: string -> Option<Generated>)
    requires id in s.tables.consultations
    requires FirstAudio(s.tables.audioFiles, id).Some?
    requires var k := FirstAudio(s.tables.audioFiles, id).value;
      transcribe(s.tables.audioFiles[k].fileUrl).Some? && generate(transcribe(s.tables.audioFiles[k].fileUrl).value).None?
    ensures var k := FirstAudio(s.tables.audioFiles, id).value;
      var t := transcribe(s.tables.audioFiles[k].fileUrl).value;
      var r := Flow(s, id, transcribe, generate);
      && r.tables == Marked(s.tables, id).(audioFiles := s.tables.audioFiles[k := s.tables.audioFiles[k].(transcription := Some(t))])
      && r.commits == s.commits + [[StatusWrite(id, IN_PROGRESS)], [TranscriptionWrite(k, t), StatusWrite(id, IN_PROGRESS)],
                                   [StatusWrite(id, IN_PROGRESS)]]
  {
    var k := FirstAudio(s.tables.audioFiles, id).value;
    var t := transcribe(s.tables.audioFiles[k].fileUrl).value;
    RunMark(s, id);
    var s1 := Run(s, [StatusWrite(id, IN_PROGRESS)]);
    RunTranscript(s1, id, k, t);
    RunMark(Run(s1, [TranscriptionWrite(k, t), StatusWrite(id, IN_PROGRESS)]), id);
  }

  /** A successful run stores the transcript on the first audio file, then, in a later
      commit, inserts exactly one AI-generated note with confidence 0.95 holding the
      generator's sections and risk value unchanged. */
  lemma SuccessfulRun(s: DbState, id: string, transcribe: string -> Option<string>, generate: string -> Option<Generated>)
    requires id in s.tables.consultations
    requires FirstAudio(s.tables.audioFiles, id).Some?
    requires var k := FirstAudio(s.tables.audioFiles, id).value;
      transcribe(s.tables.audioFiles[k].fileUrl).Some? && generate(transcribe(s.tables.audioFiles[k].fileUrl).value).Some?
    ensures var k := FirstAudio(s.tables.audioFiles, id).value;
      var t := transcribe(s.tables.audioFiles[k].fileUrl).value;
      var g := generate(t).value;
      var r := Flow(s, id, transcribe, generate);
      && r.tables.audioFiles == s.tables.audioFiles[k := s.tables.audioFiles[k].(transcription := Some(t))]
      && r.tables.soapNotes == s.tables.soapNotes + [SoapNoteRow(id, g.sections, g.risk, 0.95, true)]
      && r.tables.consultations == Marked(s.tables, id).consultations
      && r.commits == s.commits + [[StatusWrite(id, IN_PROGRESS)], [TranscriptionWrite(k, t), StatusWrite(id, IN_PROGRESS)],
                                   [NoteInsert(NoteFor(id, g)), StatusWrite(id, IN_PROGRESS)]]
  {
    var k := FirstAudio(s.tables.audioFiles, id).value;
    var t := transcribe(s.tables.audioFiles[k].fileUrl).value;
    var g := generate(t).value;
    RunMark(s, id);
    var s1 := Run(s, [StatusWrite(id, IN_PROGRESS)]);
    RunTranscript(s1, id, k, t);
    RunNote(Run(s1, [TranscriptionWrite(k, t), StatusWrite(id, IN_PROGRESS)]), id, g);
  }

  /** Every status write in the batches sets consultation `id` to IN_PROGRESS. */
  predicate OnlyInProgress(batches: seq<seq<Write>>, id: string)
  {
    forall i, j | 0 <= i < |batches| && 0 <= j < |batches[i]| ::
      batches[i][j].StatusWrite? ==> batches[i][j] == StatusWrite(id, IN_PROGRESS)
  }

  /** Whatever the oracles do, a run on a known consultation leaves it IN_PROGRESS, leaves
      every other consultation as it was, never writes another status (COMPLETED or FAILED
      in particular), and adds at most one note, for this consultation. */
  lemma AlwaysInProgress(s: DbState, id: string, transcribe: string -> Option<string>, generate: string -> Option<Generated>)
    requires id in s.tables.consultations
    ensures var r := Flow(s, id, transcribe, generate);
      && r.tables.consultations == Marked(s.tables, id).consultations
      && r.tables.consultations[id].status == IN_PROGRESS
      && (forall other | other in s.tables.consultations && other != id ::
            r.tables.consultations[other] == s.tables.consultations[other])
      && |s.commits| + 2 <= |r.commits| <= |s.commits| + 3
      && r.commits[..|s.commits|] == s.commits
      && OnlyInProgress(r.commits[|s.commits|..], id)
      && |s.tables.soapNotes| <= |r.tables.soapNotes| <= |s.tables.soapNotes| + 1
      && r.tables.soapNotes[..|s.tables.soapNotes|] == s.tables.soapNotes
      && (forall i | |s.tables.soapNotes| <= i < |r.tables.soapNotes| :: r.tables.soapNotes[i].consultationId == id)
  {
    var r := Flow(s, id, transcribe, generate);
    var audio := FirstAudio(s.tables.audioFiles, id);
    if audio.None? {
      MissingAudio(s, id, transcribe, generate);
    } else {
      var url := s.tables.audioFiles[audio.value].fileUrl;
      if transcribe(url).None? {
        TranscriptionFails(s, id, transcribe, generate);
      } else if generate(transcribe(url).value).None? {
        GenerationFails(s, id, transcribe, generate);
      } else {
        SuccessfulRun(s, id, transcribe, generate);
      }
    }
    assert r.commits[..|s.commits|] == s.commits;
  }

  /** A note is only ever inserted in a commit that follows the commit storing the transcript
      it was generated from. */
  lemma TranscriptBeforeNote(s: DbState, id: string, transcribe: string -> Option<string>, generate: string -> Option<Generated>, i: nat, j: nat)
    requires id in s.tables.consultations
    requires var r := Flow(s, id, transcribe, generate);
      |s.commits| <= i < |r.commits| && j < |r.commits[i]| && r.commits[i][j].NoteInsert?
    ensures var r := Flow(s, id, transcribe, generate);
      exists h, k, t | |s.commits| <= h < i ::
        TranscriptionWrite(k, t) in r.commits[h] && generate(t) == Some(Generated(r.commits[i][j].note.soapJson, r.commits[i][j].note.riskFlags))
  {
    var r := Flow(s, id, transcribe, generate);
    var audio := FirstAudio(s.tables.audioFiles, id);
    if audio.None? {
      MissingAudio(s, id, transcribe, generate);
    } else {
      var k := audio.value;
      var url := s.tables.audioFiles[k].fileUrl;
      if transcribe(url).None? {
        TranscriptionFails(s, id, transcribe, generate);
      } else if generate(transcribe(url).value).None? {
        GenerationFails(s, id, transcribe, generate);
      } else {
        SuccessfulRun(s, id, transcribe, generate);
        var t := transcribe(url).value;
        assert i == |s.commits| + 2 && j == 0;
        assert TranscriptionWrite(k, t) in r.commits[|s.commits| + 1];
      }
    }
  }

  /** Nothing guards against an existing note: two successful runs insert two notes. */
  lemma RepeatedRunsAddNotes(s: DbState, id: string, transcribe: string -> Option<string>, generate: string -> Option<Generated>)
    requires id in s.tables.consultations
    requires FirstAudio(s.tables.audioFiles, id).Some?
    requires var k := FirstAudio(s.tables.audioFiles, id).value;
      transcribe(s.tables.audioFiles[k].fileUrl).Some? && generate(transcribe(s.tables.audioFiles[k].fileUrl).value).Some?
    ensures var k := FirstAudio(s.tables.audioFiles, id).value;
      var g := generate(transcribe(s.tables.audioFiles[k].fileUrl).value).value;
      Flow(Flow(s, id, transcribe, generate), id, transcribe, generate).tables.soapNotes
        == s.tables.soapNotes + [NoteFor(id, g), NoteFor(id, g)]
  {
    var k := FirstAudio(s.tables.audioFiles, id).value;
    SuccessfulRun(s, id, transcribe, generate);
    var r := Flow(s, id, transcribe, generate);
    assert forall j | 0 <= j < |r.tables.audioFiles| ::
      r.tables.audioFiles[j].consultationId == s.tables.audioFiles[j].consultationId
      && r.tables.audioFiles[j].fileUrl == s.tables.audioFiles[j].fileUrl;
    FirstAudioDependsOnIds(s.tables.audioFiles, r.tables.audioFiles, id, 0);
    SuccessfulRun(r, id, transcribe, generate);
  }

  lemma {:induction false} FirstAudioDependsOnIds(a: seq<AudioFile>, b: seq<AudioFile>, id: string, from: nat)
    requires |a| == |b| && from <= |a|
    requires forall j | 0 <= j < |a| :: a[j].consultationId == b[j].consultationId
    ensures FirstAudioFrom(a, id, from) == FirstAudioFrom(b, id, from)
    decreases |a| - from
  {
    if from < |a| {
      FirstAudioDependsOnIds(a, b, id, from + 1);
    }
  }

  /** The transcript the stand-in transcriber returns for any file. */
  const MockTranscript: string :=
    "Patient complains of severe headache " + "and nausea for past 2 days. " + "No history of migraine."

  /** The sections and risk value the stand-in generator returns for any text. */
  const MockSections: map<string, string> := map[
    "Subjective" := "Patient reports headache " + "and nausea.",
    "Objective" := "Patient appears distressed.",
    "Assessment" := "Possible tension headache " + "or viral illness.",
    "Plan" := "Prescribe analgesics and rest."]
  const MockRisk: map<string, string> := map["flag" := "High Pain", "severity" := "Medium"]

  function TranscribeMock(filePath: string): Option<string> { Some(MockTranscript) }

  function GenerateMock(text: string): Option<Generated> { Some(Generated(MockSections, MockRisk)) }

  /** With the stand-in services and an audio file present, a run stores the fixed transcript
      and inserts the fixed note. */
  lemma MockRun(s: DbState, id: string)
    requires id in s.tables.consultations && FirstAudio(s.tables.audioFiles, id).Some?
    ensures var k := FirstAudio(s.tables.audioFiles, id).value;
      var r := Flow(s, id, TranscribeMock, GenerateMock);
      && r.tables.audioFiles == s.tables.audioFiles[k := s.tables.audioFiles[k].(transcription := Some(MockTranscript))]
      && r.tables.soapNotes == s.tables.soapNotes + [SoapNoteRow(id, MockSections, MockRisk, 0.95, true)]
  {
    SuccessfulRun(s, id, TranscribeMock, GenerateMock);
  }

  /** The database as one session sees it: committed tables, staged writes, commit log. */
  class Database {
    var consultations: map<string, Consultation>
    var audioFiles: seq<AudioFile>
    var soapNotes: seq<SoapNoteRow>
    var pending: seq<Write>
    var commits: seq<seq<Write>>

    constructor (consultations: map<string, Consultation>, audioFiles: seq<AudioFile>, soapNotes: seq<SoapNoteRow>)
      ensures this.consultations == consultations && this.audioFiles == audioFiles && this.soapNotes == soapNotes
      ensures pending == [] && commits == []
    {
      this.consultations := consultations;
      this.audioFiles := audioFiles;
      this.soapNotes := soapNotes;
      pending := [];
      commits := [];
    }

    function Committed(): Tables
      reads this
    {
      Tables(consultations, audioFiles, soapNotes)
    }

    function State(): DbState
      reads this
    {
      DbState(Committed(), commits)
    }

    /** `session.add`: stage a write. */
    method Add(w: Write)
      modifies this
      ensures pending == old(pending) + [w]
      ensures State() == old(State())
    {
      pending := pending + [w];
    }

    /** `session.commit`: apply the staged writes in order and log them as one batch. */
    method Commit()
      modifies this
      ensures State() == Run(old(State()), old(pending))
      ensures pending == []
    {
      var t := ApplyAll(Committed(), pending);
      consultations, audioFiles, soapNotes := t.consultations, t.audioFiles, t.soapNotes;
      commits := commits + [pending];
      pending := [];
    }

    /** Stage and commit `consultation.status = IN_PROGRESS`. */
    method MarkInProgress(id: string)
      requires pending == []
      modifies this
      ensures State() == Run(old(State()), [StatusWrite(id, IN_PROGRESS)])
      ensures pending == []
    {
      Add(StatusWrite(id, IN_PROGRESS));
      assert pending == [StatusWrite(id, IN_PROGRESS)];
      Commit();
    }

    /** `process_consultation_flow(consultation_id)` in a fresh session. */
    method ProcessConsultationFlow(id: string, transcribe: string -> Option<string>, generate: string -> Option<Generated>)
      requires pending == []
      modifies this
      ensures State() == Flow(old(State()), id, transcribe, generate)
      ensures pending == []
    {
      if id !in consultations {
        return;
      }
      MarkInProgress(id);
      ghost var s1 := State();
      var audio := FirstAudio(audioFiles, id);
      if audio.None? {
        MarkInProgress(id);
        return;
      }
      var k := audio.value;
      var transcript := transcribe(audioFiles[k].fileUrl);
      if transcript.None? {
        MarkInProgress(id);
        return;
      }
      Add(TranscriptionWrite(k, transcript.value));
      Add(StatusWrite(id, IN_PROGRESS));
      assert pending == [TranscriptionWrite(k, transcript.value), StatusWrite(id, IN_PROGRESS)];
      Commit();
      assert State() == Run(s1, [TranscriptionWrite(k, transcript.value), StatusWrite(id, IN_PROGRESS)]);
      var generated := generate(transcript.value);
      if generated.None? {
        MarkInProgress(id);
        return;
      }
      Add(NoteInsert(NoteFor(id, generated.value)));
      Add(StatusWrite(id, IN_PROGRESS));
      assert pending == [NoteInsert(NoteFor(id, generated.value)), StatusWrite(id, IN_PROGRESS)];
      Commit();
    }
  }
}

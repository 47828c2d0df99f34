/** The doctor dashboard queues: a join of consultations with patient profiles, a filter,
    an ORDER BY, and a per-row projection. Timestamps are whole seconds; `now` stands for
    the clock reading taken when the request is served. */
module Dashboard {
  import opened Models

  /** One row of the join: a consultation and the profile whose user id is its patient id. */
  datatype Row = Row(consultation: Consultation, profile: PatientProfile)

  /** The two queries: the priority queue and the failed (manual review) queue. */
  datatype QueueKind = PatientQueue | FailedQueue

  /** The WHERE clause of each query. */
  predicate Keeps(kind: QueueKind, c: Consultation)
  {
    match kind
    case PatientQueue => c.status == COMPLETED
    case FailedQueue => c.requiresManualReview
  }

  // ---------------------------------------------------------------- join

  /** The rows pairing `c` with each profile of its patient, in profile order. */
  function ProfileRows(c: Consultation, ps: seq<PatientProfile>): (r: seq<Row>)
    ensures forall row | row in r :: row.consultation == c && row.profile in ps && row.profile.userId == c.patientId
    decreases |ps|
  {
    if ps == [] then []
    else
      var p := ps[|ps| - 1];
      ProfileRows(c, ps[..|ps| - 1]) + (if p.userId == c.patientId then [Row(c, p)] else [])
  }

  /** The inner join of `cs` with `ps` on patient id, restricted by the query's WHERE clause. */
  function JoinRows(kind: QueueKind, cs: seq<Consultation>, ps: seq<PatientProfile>): (r: seq<Row>)
    ensures forall row | row in r :: row.consultation in cs && Keeps(kind, row.consultation)
    decreases |cs|
  {
    if cs == [] then []
    else
      var c := cs[|cs| - 1];
      JoinRows(kind, cs[..|cs| - 1], ps) + (if Keeps(kind, c) then ProfileRows(c, ps) else [])
  }

  lemma {:induction false} ProfileRowsComplete(c: Consultation, ps: seq<PatientProfile>, p: PatientProfile)
    requires p in ps && p.userId == c.patientId
    ensures Row(c, p) in ProfileRows(c, ps)
    decreases |ps|
  {
    if ps[|ps| - 1] != p {
      assert p in ps[..|ps| - 1] by {
        var i :| 0 <= i < |ps| && ps[i] == p;
        assert i < |ps| - 1;
        assert ps[..|ps| - 1][i] == p;
      }
      ProfileRowsComplete(c, ps[..|ps| - 1], p);
    }
  }

  /** A row is in the join exactly when its consultation passes the WHERE clause and its
      profile belongs to the consultation's patient. */
  lemma {:induction false} JoinMembership(kind: QueueKind, cs: seq<Consultation>, ps: seq<PatientProfile>, c: Consultation, p: PatientProfile)
    ensures Row(c, p) in JoinRows(kind, cs, ps) <==> c in cs && p in ps && Keeps(kind, c) && c.patientId == p.userId
    decreases |cs|
  {
    if cs != [] {
      var init := cs[..|cs| - 1];
      JoinMembership(kind, init, ps, c, p);
      assert cs == init + [cs[|cs| - 1]];
      if c in cs && p in ps && Keeps(kind, c) && c.patientId == p.userId && c == cs[|cs| - 1] {
        ProfileRowsComplete(c, ps, p);
      }
    }
  }

  // ---------------------------------------------------------------- ORDER BY

  /** SQL's order on a nullable column, NULL lowest (as SQLite orders it). */
  predicate NullableLeq(a: Option<int>, b: Option<int>)
  {
    a.None? || (b.Some? && a.value <= b.value)
  }

  /** `a` may come before `b` in the query's ORDER BY:
      urgency_score DESC, created_at ASC for the priority queue; created_at DESC for the
      failed queue. */
  predicate Before(kind: QueueKind, a: Row, b: Row)
  {
    match kind
    case PatientQueue =>
      var sa, sb := a.consultation.urgencyScore, b.consultation.urgencyScore;
      if sa == sb then NullableLeq(a.consultation.createdAt, b.consultation.createdAt)
      else NullableLeq(sb, sa)
    case FailedQueue => NullableLeq(b.consultation.createdAt, a.consultation.createdAt)
  }

  /** Each ORDER BY is a total preorder. */
  lemma BeforeTotal(kind: QueueKind, a: Row, b: Row)
    ensures Before(kind, a, b) || Before(kind, b, a)
  {
  }

  lemma BeforeTransitive(kind: QueueKind, a: Row, b: Row, c: Row)
    requires Before(kind, a, b) && Before(kind, b, c)
    ensures Before(kind, a, c)
  {
  }

  predicate Sorted(kind: QueueKind, s: seq<Row>)
  {
    forall i, j | 0 <= i < j < |s| :: Before(kind, s[i], s[j])
  }

  function Insert(kind: QueueKind, x: Row, s: seq<Row>): (r: seq<Row>)
    ensures multiset(r) == multiset(s) + multiset{x}
    decreases |s|
  {
    if s == [] || Before(kind, x, s[0]) then [x] + s
    else
      assert s == [s[0]] + s[1..];
      [s[0]] + Insert(kind, x, s[1..])
  }

  /** The result rows of the query in ORDER BY order. SQL leaves the order of rows with
      equal keys open; this sort is one admissible choice. */
  function Sort(kind: QueueKind, s: seq<Row>): (r: seq<Row>)
    ensures multiset(r) == multiset(s)
    decreases |s|
  {
    if s == [] then []
    else
      assert s == [s[0]] + s[1..];
      Insert(kind, s[0], Sort(kind, s[1..]))
  }

  lemma {:induction false} InsertSorted(kind: QueueKind, x: Row, s: seq<Row>)
    requires Sorted(kind, s)
    ensures Sorted(kind, Insert(kind, x, s))
    decreases |s|
  {
    if s == [] || Before(kind, x, s[0]) {
      var r := [x] + s;
      forall i, j | 0 <= i < j < |r| ensures Before(kind, r[i], r[j]) {
        if i == 0 && j > 1 {
          BeforeTransitive(kind, x, s[0], s[j - 1]);
        }
      }
    } else {
      BeforeTotal(kind, x, s[0]);
      InsertSorted(kind, x, s[1..]);
      var tail := Insert(kind, x, s[1..]);
      var r := [s[0]] + tail;
      forall i, j | 0 <= i < j < |r| ensures Before(kind, r[i], r[j]) {
        if i == 0 {
          assert r[j] in multiset(tail);
          assert r[j] == x || r[j] in multiset(s[1..]);
          if r[j] != x {
            var k :| 0 <= k < |s[1..]| && s[1..][k] == r[j];
            assert s[k + 1] == r[j];
          }
        }
      }
    }
  }

  lemma {:induction false} SortSorted(kind: QueueKind, s: seq<Row>)
    ensures Sorted(kind, Sort(kind, s))
    decreases |s|
  {
    if s != [] {
      SortSorted(kind, s[1..]);
      InsertSorted(kind, s[0], Sort(kind, s[1..]));
    }
  }

  /** The rows a query returns, in order: a sorted permutation of the filtered join. */
  function QueryRows(kind: QueueKind, cs: seq<Consultation>, ps: seq<PatientProfile>): (r: seq<Row>)
    ensures Sorted(kind, r)
    ensures multiset(r) == multiset(JoinRows(kind, cs, ps))
  {
    SortSorted(kind, JoinRows(kind, cs, ps));
    Sort(kind, JoinRows(kind, cs, ps))
  }

  /** A consultation/profile pair is in the query result exactly when it passes the WHERE
      clause and the profile belongs to the consultation's patient. */
  lemma QueryMembership(kind: QueueKind, cs: seq<Consultation>, ps: seq<PatientProfile>, c: Consultation, p: PatientProfile)
    ensures Row(c, p) in QueryRows(kind, cs, ps) <==> c in cs && p in ps && Keeps(kind, c) && c.patientId == p.userId
  {
    JoinMembership(kind, cs, ps, c, p);
    assert Row(c, p) in QueryRows(kind, cs, ps) <==> Row(c, p) in multiset(QueryRows(kind, cs, ps));
  }

  /** In the priority queue a higher stored score comes first, and among equal scores the
      earlier creation time; a row without a score comes after every row with one. */
  lemma PatientQueueOrder(cs: seq<Consultation>, ps: seq<PatientProfile>, i: nat, j: nat)
    requires var rows := QueryRows(PatientQueue, cs, ps); i < j < |rows|
    ensures var rows := QueryRows(PatientQueue, cs, ps);
      var a, b := rows[i].consultation, rows[j].consultation;
      && (a.urgencyScore.Some? && b.urgencyScore.Some? ==> a.urgencyScore.value >= b.urgencyScore.value)
      && (b.urgencyScore.Some? ==> a.urgencyScore.Some?)
      && (a.urgencyScore == b.urgencyScore && a.createdAt.Some? && b.createdAt.Some? ==> a.createdAt.value <= b.createdAt.value)
  {
  }

  /** With no negative score stored, the reported scores (0 for a missing one) never increase
      along the queue. */
  lemma PatientQueueScoresNonIncreasing(cs: seq<Consultation>, ps: seq<PatientProfile>, now: int, i: nat, j: nat)
    requires forall c | c in cs :: c.urgencyScore.Some? ==> c.urgencyScore.value >= 0
    requires var rows := QueryRows(PatientQueue, cs, ps); i < j < |rows|
    ensures var rows := QueryRows(PatientQueue, cs, ps);
      PatientItem(rows[i], now).urgencyScore >= PatientItem(rows[j], now).urgencyScore
  {
    var rows := QueryRows(PatientQueue, cs, ps);
    assert rows[i] in multiset(JoinRows(PatientQueue, cs, ps));
    assert rows[j] in multiset(JoinRows(PatientQueue, cs, ps));
  }

  /** The failed queue lists the most recently created consultation first, and the rows
      without a creation time last. */
  lemma FailedQueueOrder(cs: seq<Consultation>, ps: seq<PatientProfile>, i: nat, j: nat)
    requires var rows := QueryRows(FailedQueue, cs, ps); i < j < |rows|
    ensures var rows := QueryRows(FailedQueue, cs, ps);
      var a, b := rows[i].consultation, rows[j].consultation;
      && (a.createdAt.Some? && b.createdAt.Some? ==> a.createdAt.value >= b.createdAt.value)
      && (b.createdAt.Some? ==> a.createdAt.Some?)
  {
  }

  // ---------------------------------------------------------------- wait time

  /** `int(seconds / 60)`: whole minutes, truncated toward zero. */
  function WholeMinutes(seconds: int): (m: int)
    ensures seconds >= 0 ==> m >= 0 && m * 60 <= seconds < m * 60 + 60
    ensures seconds < 0 ==> m <= 0 && m * 60 - 60 < seconds <= m * 60
  {
    if seconds >= 0 then seconds / 60 else -((-seconds) / 60)
  }

  // ---------------------------------------------------------------- decimal text

  function DigitChar(d: nat): char
    requires d < 10
  {
    (48 + d) as char
  }

  /** Python's `str` of a natural number. */
  function NatToString(n: nat): (s: string)
    ensures |s| >= 1 && forall c | c in s :: '0' <= c <= '9'
    ensures s[0] == '0' ==> n == 0
    decreases n
  {
    if n < 10 then [DigitChar(n)] else NatToString(n / 10) + [DigitChar(n % 10)]
  }

  /** Python's `str` of an integer. */
  function IntToString(n: int): string
  {
    if n < 0 then "-" + NatToString(-n) else NatToString(n)
  }

  /** The value of a string of decimal digits. */
  function ParseNat(s: string): nat
    decreases |s|
  {
    if s == [] then 0
    else
      var c := s[|s| - 1];
      ParseNat(s[..|s| - 1]) * 10 + (if '0' <= c <= '9' then (c as int) - 48 else 0)
  }

  /** The value of an optionally signed string of decimal digits. */
  function ParseInt(s: string): int
  {
    if |s| > 0 && s[0] == '-' then -(ParseNat(s[1..]) as int) else ParseNat(s)
  }

  lemma {:induction false} NatRoundTrip(n: nat)
    ensures ParseNat(NatToString(n)) == n
    decreases n
  {
    if n >= 10 {
      NatRoundTrip(n / 10);
      var s := NatToString(n);
      assert s[..|s| - 1] == NatToString(n / 10);
    }
  }

  /** Printing a number and reading it back gives the number. */
  lemma IntRoundTrip(n: int)
    ensures ParseInt(IntToString(n)) == n
  {
    if n < 0 {
      NatRoundTrip(-n);
      assert IntToString(n)[1..] == NatToString(-n);
    } else {
      NatRoundTrip(n);
      assert NatToString(n)[0] in NatToString(n);
    }
  }

  // ---------------------------------------------------------------- projection

  /** One entry of the priority queue. */
  datatype QueueItem = QueueItem(consultationId: string, patientName: string, urgencyScore: int,
                                 triageCategory: Option<TriageCategory>, waitTimeMinutes: int, safetyWarnings: nat)

  /** One entry of the failed queue. */
  datatype FailedItem = FailedItem(patientName: string, consultationId: string, reason: string,
                                   waitTime: string, status: string)

  const FailedReason: string := "AI Processing Failed " + "(Quota/Error)"

  function PatientName(p: PatientProfile): string
  {
    p.firstName + " " + p.lastName
  }

  /** The priority-queue projection of a row. */
  function PatientItem(row: Row, now: int): (item: QueueItem)
    ensures item.urgencyScore == (if row.consultation.urgencyScore.Some? then row.consultation.urgencyScore.value else 0)
    ensures item.safetyWarnings == (if row.consultation.safetyWarnings.Some? then |row.consultation.safetyWarnings.value| else 0)
    ensures row.consultation.createdAt.None? ==> item.waitTimeMinutes == 0
    ensures row.consultation.createdAt.Some? && now >= row.consultation.createdAt.value ==>
      0 <= item.waitTimeMinutes * 60 <= now - row.consultation.createdAt.value < item.waitTimeMinutes * 60 + 60
  {
    var c := row.consultation;
    QueueItem(
      c.id,
      PatientName(row.profile),
      if c.urgencyScore.Some? then c.urgencyScore.value else 0,
      c.triageCategory,
      if c.createdAt.Some? then WholeMinutes(now - c.createdAt.value) else 0,
      if c.safetyWarnings.Some? then |c.safetyWarnings.value| else 0)
  }

  /** The failed-queue projection of a row. */
  function FailedItemOf(row: Row, now: int): (item: FailedItem)
    ensures item.status == "REQUIRES_REVIEW" && item.reason == FailedReason
    ensures item.consultationId == row.consultation.id && item.patientName == PatientName(row.profile)
    ensures row.consultation.createdAt.None? <==> item.waitTime == "N/A"
  {
    var c := row.consultation;
    var wait := if c.createdAt.Some? then IntToString(WholeMinutes(now - c.createdAt.value)) + " min" else "N/A";
    assert c.createdAt.Some? ==> wait[|wait| - 1] == 'n';
    FailedItem(PatientName(row.profile), c.id, FailedReason, wait, "REQUIRES_REVIEW")
  }

  /** The failed queue's wait time, when set, reads back as the whole minutes waited. */
  lemma FailedWaitTimeReadsBack(row: Row, now: int)
    requires row.consultation.createdAt.Some?
    ensures var w := FailedItemOf(row, now).waitTime;
      |w| >= 4 && w[|w| - 4..] == " min"
      && ParseInt(w[..|w| - 4]) == WholeMinutes(now - row.consultation.createdAt.value)
  {
    var m := WholeMinutes(now - row.consultation.createdAt.value);
    var w := FailedItemOf(row, now).waitTime;
    assert w == IntToString(m) + " min";
    assert w[..|w| - 4] == IntToString(m);
    IntRoundTrip(m);
  }

  // ---------------------------------------------------------------- endpoints

  /** `get_patient_queue`: one item per result row, in result order. */
  method GetPatientQueue(cs: seq<Consultation>, ps: seq<PatientProfile>, now: int) returns (queue: seq<QueueItem>)
    ensures var rows := QueryRows(PatientQueue, cs, ps);
      |queue| == |rows| && forall i | 0 <= i < |rows| :: queue[i] == PatientItem(rows[i], now)
  {
    queue := PatientItems(QueryRows(PatientQueue, cs, ps), now);
  }

  /** The append loop over the result rows of the priority queue. */
  method PatientItems(rows: seq<Row>, now: int) returns (queue: seq<QueueItem>)
    ensures |queue| == |rows| && forall i | 0 <= i < |rows| :: queue[i] == PatientItem(rows[i], now)
  {
    queue := [];
    for i := 0 to |rows|
      invariant |queue| == i && forall j | 0 <= j < i :: queue[j] == PatientItem(rows[j], now)
    {
      queue := queue + [PatientItem(rows[i], now)];
    }
  }

  /** `get_failed_queue`: one item per result row, in result order. */
  method GetFailedQueue(cs: seq<Consultation>, ps: seq<PatientProfile>, now: int) returns (queue: seq<FailedItem>)
    ensures var rows := QueryRows(FailedQueue, cs, ps);
      |queue| == |rows| && forall i | 0 <= i < |rows| :: queue[i] == FailedItemOf(rows[i], now)
  {
    queue := FailedItems(QueryRows(FailedQueue, cs, ps), now);
  }

  /** The append loop over the result rows of the failed queue. */
  method FailedItems(rows: seq<Row>, now: int) returns (queue: seq<FailedItem>)
    ensures |queue| == |rows| && forall i | 0 <= i < |rows| :: queue[i] == FailedItemOf(rows[i], now)
  {
    queue := [];
    for i := 0 to |rows|
      invariant |queue| == i && forall j | 0 <= j < i :: queue[j] == FailedItemOf(rows[j], now)
    {
      queue := queue + [FailedItemOf(rows[i], now)];
    }
  }

  // ---------------------------------------------------------------- example

  function ExampleConsultation(id: string, patient: string, score: int, category: TriageCategory, created: int): Consultation
  {
    Consultation(id, patient, COMPLETED, Some(score), Some(category), None, false, Some(created))
  }

  const ExampleProfiles: seq<PatientProfile> := [
    PatientProfile("u1", "John", "Doe", Some("None")),
    PatientProfile("u2", "Jane", "Smith", Some("Asthma")),
    PatientProfile("u3", "Bob", "Jones", Some("Ulcers"))]

  function ExampleConsultations(now: int): seq<Consultation>
  {
    [ExampleConsultation("c1", "u1", 95, CRITICAL, now - 600),
     ExampleConsultation("c2", "u2", 20, LOW, now - 1800),
     ExampleConsultation("c3", "u3", 75, HIGH, now - 300)]
  }

  lemma ExampleProfileRows(c: Consultation, k: nat)
    requires k < 3 && c.patientId == ExampleProfiles[k].userId
    ensures ProfileRows(c, ExampleProfiles) == [Row(c, ExampleProfiles[k])]
  {
    var ps := ExampleProfiles;
    assert ps[..2] == [ps[0], ps[1]] && ps[..2][..1] == [ps[0]] && [ps[0]][..0] == [];
    assert ProfileRows(c, [ps[0]]) == ProfileRows(c, []) + (if k == 0 then [Row(c, ps[0])] else []);
    assert ProfileRows(c, [ps[0], ps[1]]) == ProfileRows(c, [ps[0]]) + (if k == 1 then [Row(c, ps[1])] else []);
  }

  lemma JoinOfThree(kind: QueueKind, cs: seq<Consultation>, ps: seq<PatientProfile>, rows: seq<Row>)
    requires |cs| == 3 && |rows| == 3
    requires forall k | 0 <= k < 3 :: Keeps(kind, cs[k]) && ProfileRows(cs[k], ps) == [rows[k]]
    ensures JoinRows(kind, cs, ps) == rows
  {
    assert cs[..2][..1] == [cs[0]] && [cs[0]][..0] == [];
    assert JoinRows(kind, [cs[0]], ps) == [rows[0]];
    assert cs[..2] == [cs[0], cs[1]];
    assert JoinRows(kind, cs[..2], ps) == [rows[0], rows[1]];
  }

  lemma ExampleJoin(now: int)
    ensures var cs, ps := ExampleConsultations(now), ExampleProfiles;
      JoinRows(PatientQueue, cs, ps) == [Row(cs[0], ps[0]), Row(cs[1], ps[1]), Row(cs[2], ps[2])]
  {
    var cs, ps := ExampleConsultations(now), ExampleProfiles;
    ExampleProfileRows(cs[0], 0);
    ExampleProfileRows(cs[1], 1);
    ExampleProfileRows(cs[2], 2);
    JoinOfThree(PatientQueue, cs, ps, [Row(cs[0], ps[0]), Row(cs[1], ps[1]), Row(cs[2], ps[2])]);
  }

  lemma InsertAfter(kind: QueueKind, x: Row, y: Row)
    requires !Before(kind, x, y)
    ensures Insert(kind, x, [y]) == [y, x]
  {
    assert [y][1..] == [];
    assert Insert(kind, x, []) == [x];
  }

  lemma SortSingle(kind: QueueKind, y: Row)
    ensures Sort(kind, [y]) == [y]
  {
    assert [y][1..] == [];
    assert Insert(kind, y, []) == [y];
  }

  lemma SortOfTwo(kind: QueueKind, b: Row, c: Row)
    requires !Before(kind, b, c)
    ensures Sort(kind, [b, c]) == [c, b]
  {
    SortCons(kind, b, [c]);
    assert [b] + [c] == [b, c];
    SortSingle(kind, c);
    InsertAfter(kind, b, c);
  }

  lemma SortCons(kind: QueueKind, a: Row, t: seq<Row>)
    ensures Sort(kind, [a] + t) == Insert(kind, a, Sort(kind, t))
  {
    assert ([a] + t)[1..] == t;
  }

  lemma InsertFront(kind: QueueKind, x: Row, s: seq<Row>)
    requires s != [] && Before(kind, x, s[0])
    ensures Insert(kind, x, s) == [x] + s
  {
  }

  lemma SortOfTriple(kind: QueueKind, a: Row, b: Row, c: Row)
    ensures Sort(kind, [a, b, c]) == Insert(kind, a, Sort(kind, [b, c]))
  {
    SortCons(kind, a, [b, c]);
    assert [a] + [b, c] == [a, b, c];
  }

  lemma InsertFrontOfPair(kind: QueueKind, x: Row, y: Row, z: Row)
    requires Before(kind, x, y)
    ensures Insert(kind, x, [y, z]) == [x, y, z]
  {
    InsertFront(kind, x, [y, z]);
    assert [x] + [y, z] == [x, y, z];
  }

  lemma SortOfThree(kind: QueueKind, a: Row, b: Row, c: Row)
    requires Before(kind, a, c) && !Before(kind, b, c)
    ensures Sort(kind, [a, b, c]) == [a, c, b]
  {
    SortOfTriple(kind, a, b, c);
    SortOfTwo(kind, b, c);
    InsertFrontOfPair(kind, a, c, b);
  }

  /** Three completed consultations scored 95, 20 and 75, created 10, 30 and 5 minutes ago:
      the queue lists them 95, 75, 20 (CRITICAL, HIGH, LOW), urgency before waiting time. */
  lemma ExampleQueueOrder(now: int)
    ensures var cs, ps := ExampleConsultations(now), ExampleProfiles;
      var rows := QueryRows(PatientQueue, cs, ps);
      && rows == [Row(cs[0], ps[0]), Row(cs[2], ps[2]), Row(cs[1], ps[1])]
      && [PatientItem(rows[0], now).triageCategory, PatientItem(rows[1], now).triageCategory,
          PatientItem(rows[2], now).triageCategory] == [Some(CRITICAL), Some(HIGH), Some(LOW)]
  {
    var cs, ps := ExampleConsultations(now), ExampleProfiles;
    ExampleJoin(now);
    SortOfThree(PatientQueue, Row(cs[0], ps[0]), Row(cs[1], ps[1]), Row(cs[2], ps[2]));
  }
}

/** server/controllers/healthReportController.js: a patient shares their latest health
    measurements with the doctor of a consultation, as a report plus a notification. */
module HealthReport {
  import opened Wrappers
  import opened Seqs
  import opened Db

  /** The JSON body. Each id goes through `!x`, so an absent or falsy id is None. */
  datatype ReportBody = ReportBody(patientId: Option<Id>, doctorId: Option<Id>, consultationId: Option<Id>)

  datatype ReportReply =
    | Sent(report: Report, measurements: seq<HealthMeasurement>)
    | Refused(status: nat, message: string)

  const IdsRequired := "Patient ID, Doctor ID, and Consultation ID are required"
  const NotTheirConsultation := "Consultation not found or does not belong to these users"
  const NoMeasurements := "No health measurements found for this patient"

  const ReportDiagnosis := "Health Measurement Report"
  const ReportNotes := "Automated report generated from patient health measurements"
  const ReportPlan := "Review measurements and provide recommendations"
  const ReportKind := "VIDEO_CALL_REQUEST"
  const ReportTitle := "New Health Report Available"

  function ReportContent(patientName: string): string {
    "Patient " + patientName + " has shared their health measurements with you"
  }

  /** How many measurements a report carries at most. */
  const ReportSize := 10

  /** The measurement query: the patient's measurements, newest first, at most ten. */
  function SelectRecent(ms: seq<HealthMeasurement>, patientId: Id): (r: seq<HealthMeasurement>)
    ensures |r| <= ReportSize
    ensures forall i | 0 <= i < |r| :: r[i].patientId == patientId && r[i] in ms
    ensures forall i, j | 0 <= i < j < |r| :: r[i].measuredAt >= r[j].measuredAt
    ensures r == [] <==> forall i | 0 <= i < |ms| :: ms[i].patientId != patientId
    ensures multiset(r) <= multiset(ms)
  {
    var p := (m: HealthMeasurement) => m.patientId == patientId;
    var mine := Filter(ms, p);
    var sorted := SortByKey(mine, (m: HealthMeasurement) => -m.measuredAt);
    var r := Take(sorted, ReportSize);
    assert multiset(r) <= multiset(ms) by {
      FilterMultiset(ms, p);
      assert multiset(r) <= multiset(sorted) && multiset(sorted) == multiset(mine);
    }
    assert forall i | 0 <= i < |r| :: r[i].patientId == patientId && r[i] in ms by {
      forall i | 0 <= i < |r| ensures r[i].patientId == patientId && r[i] in ms {
        assert r[i] in multiset(mine) && r[i] in multiset(ms);
      }
    }
    assert (forall i | 0 <= i < |ms| :: ms[i].patientId != patientId) ==> r == [];
    assert forall i | 0 <= i < |ms| && ms[i].patientId == patientId :: mine != [] && sorted != [];
    r
  }

  /** The selection is the newest: a measurement of the patient left out is no newer than
      any selected one, and fewer than ten are selected only when the patient has fewer. */
  lemma {:induction false} SelectRecentIsNewest(ms: seq<HealthMeasurement>, patientId: Id)
    ensures var r := SelectRecent(ms, patientId);
            && (forall m | m in multiset(ms) && m.patientId == patientId && multiset(r)[m] < multiset(ms)[m] ::
                  forall i | 0 <= i < |r| :: r[i].measuredAt >= m.measuredAt)
            && (|r| < ReportSize ==> forall m | m in multiset(ms) && m.patientId == patientId :: multiset(r)[m] == multiset(ms)[m])
  {
    var p := (m: HealthMeasurement) => m.patientId == patientId;
    var key := (m: HealthMeasurement) => -m.measuredAt;
    var mine := Filter(ms, p);
    FilterMultiset(ms, p);
    var sorted := SortByKey(mine, key);
    TakeKeepsSmallest(sorted, key, ReportSize);
  }

  /** The consultation named by the body exists and joins exactly this patient and doctor. */
  predicate ConsultationOf(t: Store, consultationId: Id, patientId: Id, doctorId: Id) {
    exists i :: 0 <= i < |t.consultations| && t.consultations[i].id == consultationId
                && t.consultations[i].patientId == patientId && t.consultations[i].doctorId == doctorId
  }

  /** `sendHealthReport`, for the authenticated user named `patientName`. */
  function SendHealthReportStep(t: Store, body: ReportBody, patientName: string): (r: (Store, ReportReply))
    ensures IdsBelow(t) ==> IdsBelow(r.0)
    ensures (body.patientId.None? || body.doctorId.None? || body.consultationId.None?) ==> r == (t, Refused(400, IdsRequired))
    ensures r.1.Refused? ==> r.0 == t
    ensures r.1.Sent? <==> (&& body.patientId.Some? && body.doctorId.Some? && body.consultationId.Some?
                            && ConsultationOf(t, body.consultationId.value, body.patientId.value, body.doctorId.value)
                            && SelectRecent(t.measurements, body.patientId.value) != [])
    ensures r.1.Sent? ==>
              var rep := Report(t.nextId, body.consultationId.value, body.patientId.value, body.doctorId.value,
                                ReportDiagnosis, ReportNotes, ReportPlan);
              && r.1 == Sent(rep, SelectRecent(t.measurements, body.patientId.value))
              && r.0 == t.(reports := t.reports + [rep],
                           notifications := t.notifications
                             + [Notification(t.nextId + 1, rep.doctorId, rep.consultationId, ReportKind, ReportTitle,
                                             ReportContent(patientName), false)],
                           nextId := t.nextId + 2)
  {
    if body.patientId.None? || body.doctorId.None? || body.consultationId.None? then
      (t, Refused(400, IdsRequired))
    else
      var patientId, doctorId, consultationId := body.patientId.value, body.doctorId.value, body.consultationId.value;
      if !ConsultationOf(t, consultationId, patientId, doctorId) then
        (t, Refused(404, NotTheirConsultation))
      else
        var ms := SelectRecent(t.measurements, patientId);
        if ms == [] then (t, Refused(404, NoMeasurements))
        else
          var (t1, rep) := AddReport(t, consultationId, patientId, doctorId, ReportDiagnosis, ReportNotes, ReportPlan);
          var (t2, _) := AddNotification(t1, doctorId, consultationId, ReportKind, ReportTitle, ReportContent(patientName), false);
          (t2, Sent(rep, ms))
  }

  /** The `sendHealthReport` handler over the live store. */
  method SendHealthReport(db: Database, body: ReportBody, patientName: string) returns (reply: ReportReply)
    modifies db
    ensures (db.State(), reply) == SendHealthReportStep(old(db.State()), body, patientName)
  {
    if body.patientId.None? || body.doctorId.None? || body.consultationId.None? {
      return Refused(400, IdsRequired);
    }
    var patientId, doctorId, consultationId := body.patientId.value, body.doctorId.value, body.consultationId.value;
    if !ConsultationOf(db.State(), consultationId, patientId, doctorId) {
      return Refused(404, NotTheirConsultation);
    }
    var ms := SelectRecent(db.measurements, patientId);
    if ms == [] {
      return Refused(404, NoMeasurements);
    }
    var rep := db.CreateReport(consultationId, patientId, doctorId, ReportDiagnosis, ReportNotes, ReportPlan);
    var _ := db.CreateNotification(doctorId, consultationId, ReportKind, ReportTitle, ReportContent(patientName), false);
    reply := Sent(rep, ms);
  }
}

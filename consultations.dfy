/** The consultation routes of server/routes/consultations.js: POST `/request`, by which a
    patient asks an active doctor for a video consultation, and GET `/getrequests`, the
    doctor's queue of pending requests. */
module Consultations {
  import opened Wrappers
  import opened Seqs
  import opened Db

  /** The JSON body of `/request`. An absent id is None. A present `patientId` is Some,
      even when it is `""` or names no user: Prisma then filters on that value, so it
      stands for an id that no user has. */
  datatype RequestBody = RequestBody(doctorId: Option<Id>, patientId: Option<Id>)

  datatype RequestReply =
    | Created(consultation: Consultation)
    | Refused(status: nat, message: string)

  const DoctorIdRequired := "Doctor ID is required"
  const DoctorUnavailable := "Doctor not found or not available"
  const RequestFailed := "Failed to create consultation request"
  const PatientIdRequired := "Patient ID is required"

  /** The notification a new request raises, addressed to the doctor. */
  const CallRequestKind := "VIDEO_CALL_REQUEST"
  const CallRequestTitle := "New Consultation Request"

  function CallRequestContent(requesterName: string): string {
    "You have a new consultation request from " + requesterName
  }

  /** `findUnique({id, role: "DOCTOR", isActive: true})` finds a record. */
  predicate AvailableDoctor(t: Store, id: Id) {
    exists i :: 0 <= i < |t.users| && t.users[i].id == id && t.users[i].role == Doctor && t.users[i].isActive
  }

  /** The consultation's `patientId` refers to an existing user, as its foreign key demands. */
  predicate KnownUser(t: Store, id: Id) {
    exists i :: 0 <= i < |t.users| && t.users[i].id == id
  }

  /** POST `/request` as written, at time `now`, for the authenticated user named
      `requesterName`. The pending consultations are cancelled before the new one is
      created, outside any transaction, and `patientId` is never checked: without it the
      cancellation reaches every patient and the create then fails. */
  function RequestStep(t: Store, body: RequestBody, now: int, requesterName: string): (r: (Store, RequestReply))
    ensures IdsBelow(t) ==> IdsBelow(r.0)
    ensures body.doctorId.None? ==> r == (t, Refused(400, DoctorIdRequired))
    ensures body.doctorId.Some? && !AvailableDoctor(t, body.doctorId.value) ==> r == (t, Refused(404, DoctorUnavailable))
    ensures |t.consultations| <= |r.0.consultations|
    // past the two checks, the cancellation happens whatever follows
    ensures body.doctorId.Some? && AvailableDoctor(t, body.doctorId.value) ==>
              r.0.consultations[..|t.consultations|] == CancelPending(t.consultations, body.patientId, now)
    ensures r.1.Refused? ==> r.0.users == t.users && r.0.notifications == t.notifications && r.0.nextId == t.nextId
    ensures r.1.Created? <==> (body.doctorId.Some? && AvailableDoctor(t, body.doctorId.value)
                               && body.patientId.Some? && KnownUser(t, body.patientId.value))
    ensures r.1.Created? ==>
              var c := r.1.consultation;
              && c == Consultation(t.nextId, body.patientId.value, body.doctorId.value, Requested, now, now)
              && r.0.consultations == CancelPending(t.consultations, body.patientId, now) + [c]
              && r.0.notifications == t.notifications
                   + [Notification(t.nextId + 1, c.doctorId, c.id, CallRequestKind, CallRequestTitle,
                                   CallRequestContent(requesterName), true)]
              && r.0.users == t.users && r.0.profiles == t.profiles && r.0.measurements == t.measurements
              && r.0.reports == t.reports && r.0.nextId == t.nextId + 2
  {
    if body.doctorId.None? then (t, Refused(400, DoctorIdRequired))
    else if !AvailableDoctor(t, body.doctorId.value) then (t, Refused(404, DoctorUnavailable))
    else
      var t1 := t.(consultations := CancelPending(t.consultations, body.patientId, now));
      if body.patientId.None? || !KnownUser(t1, body.patientId.value) then (t1, Refused(500, RequestFailed))
      else
        var (t2, c) := AddConsultation(t1, body.patientId.value, body.doctorId.value, now);
        var (t3, _) := AddNotification(t2, c.doctorId, c.id, CallRequestKind, CallRequestTitle,
                                       CallRequestContent(requesterName), true);
        (t3, Created(c))
  }

  /** After a successful request, the new consultation is its patient's only pending one,
      and no consultation of another patient changed. */
  lemma RequestLeavesOnePending(t: Store, body: RequestBody, now: int, requesterName: string)
    requires RequestStep(t, body, now, requesterName).1.Created?
    ensures var (t1, reply) := RequestStep(t, body, now, requesterName);
            && (forall i | 0 <= i < |t1.consultations| ::
                  (t1.consultations[i].patientId == reply.consultation.patientId && t1.consultations[i].status == Requested)
                  <==> t1.consultations[i] == reply.consultation)
            && (forall i | 0 <= i < |t.consultations| && t.consultations[i].patientId != body.patientId.value ::
                  t1.consultations[i] == t.consultations[i])
  {
    var (t1, reply) := RequestStep(t, body, now, requesterName);
    var c := reply.consultation;
    forall i | 0 <= i < |t1.consultations|
      ensures (t1.consultations[i].patientId == c.patientId && t1.consultations[i].status == Requested)
              <==> t1.consultations[i] == c
    {
      if i < |t.consultations| {
        assert !PendingFor(t1.consultations[i], body.patientId);
      }
    }
  }

  /** On a store whose ids all come from the counter, the doctor's new notification points
      at the new consultation and at no other consultation. */
  lemma RequestNotificationNamesNewConsultation(t: Store, body: RequestBody, now: int, requesterName: string)
    requires IdsBelow(t) && RequestStep(t, body, now, requesterName).1.Created?
    ensures var (t1, reply) := RequestStep(t, body, now, requesterName);
            && |t1.notifications| == |t.notifications| + 1
            && var n := t1.notifications[|t.notifications|];
            && n.recipientId == reply.consultation.doctorId && n.actionRequired
            && (forall i | 0 <= i < |t1.consultations| :: t1.consultations[i].id == n.consultationId <==> i == |t1.consultations| - 1)
  {
    var (t1, reply) := RequestStep(t, body, now, requesterName);
    var c := reply.consultation;
    var t0 := t.(consultations := CancelPending(t.consultations, body.patientId, now));
    CancelPendingKeepsIds(t, body.patientId, now);
    var (_, c') := AddConsultation(t0, body.patientId.value, body.doctorId.value, now);
    assert c' == c && FreshId(t0, c.id);
    assert t1.consultations == t0.consultations + [c];
    var n := t1.notifications[|t.notifications|];
    assert n.consultationId == c.id;
    forall i | 0 <= i < |t1.consultations|
      ensures t1.consultations[i].id == n.consultationId <==> i == |t1.consultations| - 1
    {
      if i < |t0.consultations| {
        assert t1.consultations[i] == t0.consultations[i];
      }
    }
  }

  /** The request as written, without a `patientId`: every pending consultation of every
      patient is cancelled, and then the request fails. */
  lemma MissingPatientCancelsEveryone(t: Store, doctorId: Id, now: int, requesterName: string)
    requires AvailableDoctor(t, doctorId)
    ensures var (t1, reply) := RequestStep(t, RequestBody(Some(doctorId), None), now, requesterName);
            && reply == Refused(500, RequestFailed)
            && |t1.consultations| == |t.consultations|
            && forall i | 0 <= i < |t.consultations| && t.consultations[i].status == Requested ::
                 t1.consultations[i].status == Cancelled
  {
  }

  /** A `patientId` that is present but names nobody, such as `""`, is kept in the
      cancellation filter: no consultation matches it, the store is unchanged and the create
      fails with 500. */
  lemma UnknownPatientChangesNothing(t: Store, doctorId: Id, patientId: Id, now: int, requesterName: string)
    requires AvailableDoctor(t, doctorId) && !KnownUser(t, patientId)
    requires forall i | 0 <= i < |t.consultations| :: t.consultations[i].patientId != patientId
    ensures RequestStep(t, RequestBody(Some(doctorId), Some(patientId)), now, requesterName)
            == (t, Refused(500, RequestFailed))
  {
    assert CancelPending(t.consultations, Some(patientId), now) == t.consultations;
  }

  /** A store holding one pending consultation of patient 2, with doctor 1 active. */
  const Witness := Store(
    [User(1, "Dr A", "9000000001", None, None, Hashed("d"), Doctor, true),
     User(2, "P", "9000000002", None, None, Hashed("p"), Patient, true),
     User(3, "Q", "9000000003", None, None, Hashed("q"), Patient, true)],
    [], [Consultation(4, 2, 1, Requested, 100, 100)], [], [], [], 5, true)

  /** Patient 3 posts `/request` for doctor 1 with no `patientId`: patient 2's pending
      consultation is cancelled and patient 3 gets a 500. */
  lemma MissingPatientWitness()
    ensures var (t1, reply) := RequestStep(Witness, RequestBody(Some(1), None), 200, "Q");
            && reply.Refused? && reply.status == 500
            && t1.consultations == [Consultation(4, 2, 1, Cancelled, 100, 200)]
  {
    assert AvailableDoctor(Witness, 1) by { assert Witness.users[0].id == 1; }
  }

  /** POST `/request` as evidently intended: both ids are checked before any write, and
      the patient must exist, so a refused request changes nothing. */
  function RequestStepChecked(t: Store, body: RequestBody, now: int, requesterName: string): (r: (Store, RequestReply))
    ensures IdsBelow(t) ==> IdsBelow(r.0)
    ensures r.1.Refused? ==> r.0 == t
    ensures r.1.Created? <==> (body.doctorId.Some? && AvailableDoctor(t, body.doctorId.value)
                               && body.patientId.Some? && KnownUser(t, body.patientId.value))
    ensures r.1.Created? ==> r == RequestStep(t, body, now, requesterName)
  {
    if body.doctorId.None? then (t, Refused(400, DoctorIdRequired))
    else if body.patientId.None? then (t, Refused(400, PatientIdRequired))
    else if !AvailableDoctor(t, body.doctorId.value) then (t, Refused(404, DoctorUnavailable))
    else if !KnownUser(t, body.patientId.value) then (t, Refused(500, RequestFailed))
    else RequestStep(t, body, now, requesterName)
  }

  /** With the checks in front, a request only ever touches consultations of its own
      patient. */
  lemma CheckedRequestTouchesOwnPatientOnly(t: Store, body: RequestBody, now: int, requesterName: string)
    ensures var (t1, _) := RequestStepChecked(t, body, now, requesterName);
            forall i | 0 <= i < |t.consultations| && t1.consultations[i] != t.consultations[i] ::
              body.patientId == Some(t.consultations[i].patientId)
  {
  }

  /** GET `/getrequests` for the authenticated doctor `doctorId`: that doctor's pending
      consultations, earliest request first. */
  function GetRequests(t: Store, doctorId: Id): (r: seq<Consultation>)
    ensures SortedBy(r, (c: Consultation) => c.requestTime)
    ensures forall i | 0 <= i < |r| :: r[i].status == Requested && r[i].doctorId == doctorId
    ensures forall c | c in multiset(t.consultations) && c.status == Requested && c.doctorId == doctorId ::
              multiset(r)[c] == multiset(t.consultations)[c]
    ensures multiset(r) <= multiset(t.consultations)
  {
    var pending := (c: Consultation) => c.status == Requested && c.doctorId == doctorId;
    var mine := Filter(t.consultations, pending);
    FilterMultiset(t.consultations, pending);
    var r := SortByKey(mine, (c: Consultation) => c.requestTime);
    assert forall i | 0 <= i < |r| :: r[i] in multiset(mine);
    r
  }

  /** The route handler over the live store. */
  method Request(db: Database, body: RequestBody, now: int, requesterName: string) returns (reply: RequestReply)
    modifies db
    ensures (db.State(), reply) == RequestStep(old(db.State()), body, now, requesterName)
  {
    if body.doctorId.None? {
      return Refused(400, DoctorIdRequired);
    }
    var doctorId := body.doctorId.value;
    if !AvailableDoctor(db.State(), doctorId) {
      return Refused(404, DoctorUnavailable);
    }
    db.CancelRequested(body.patientId, now);
    if body.patientId.None? || !KnownUser(db.State(), body.patientId.value) {
      return Refused(500, RequestFailed);
    }
    var c := db.CreateConsultation(body.patientId.value, doctorId, now);
    var _ := db.CreateNotification(doctorId, c.id, CallRequestKind, CallRequestTitle,
                                   CallRequestContent(requesterName), true);
    reply := Created(c);
  }
}

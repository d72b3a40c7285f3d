/** The relational tables the server controllers read and write through Prisma, held in
    memory: one sequence of records per table, in insertion order, and a counter that
    hands out record ids. Ids are opaque strings in the application; here they are
    numbers drawn from the counter, which keeps them distinct. bcrypt is idealised as an
    injective hash. */
module Db {
  import opened Wrappers

  type Id = nat

  datatype Role = Patient | Doctor

  /** `bcrypt.hash(plain, 10)`, idealised: the same password always compares equal and a
      different one never does. */
  datatype PasswordHash = Hashed(plain: string)

  datatype User = User(
    id: Id, name: string, phoneNumber: string, email: Option<string>, username: Option<string>,
    password: PasswordHash, role: Role, isActive: bool)

  datatype DoctorProfile = DoctorProfile(
    id: Id, userId: Id, licenseNumber: string, specialty: Option<string>,
    rating: Option<real>, bio: Option<string>)

  /** `Other` stands for every status that parts of the system outside this model set. */
  datatype Status = Requested | Cancelled | Other

  /** Times are milliseconds since the epoch, as `new Date()` gives them. */
  datatype Consultation = Consultation(
    id: Id, patientId: Id, doctorId: Id, status: Status, requestTime: int, updatedAt: int)

  datatype Notification = Notification(
    id: Id, recipientId: Id, consultationId: Id, kind: string, title: string, content: string,
    actionRequired: bool)

  datatype HealthMeasurement = HealthMeasurement(id: Id, patientId: Id, measuredAt: int)

  datatype Report = Report(
    id: Id, consultationId: Id, patientId: Id, doctorId: Id,
    diagnosis: string, notes: string, treatmentPlan: string)

  /** The whole store. `activeByDefault` is the `isActive` value the schema gives a user
      created without one. */
  datatype Store = Store(
    users: seq<User>, profiles: seq<DoctorProfile>, consultations: seq<Consultation>,
    notifications: seq<Notification>, measurements: seq<HealthMeasurement>, reports: seq<Report>,
    nextId: Id, activeByDefault: bool)

  /** Every record id was handed out by the counter. */
  predicate IdsBelow(t: Store) {
    && (forall i | 0 <= i < |t.users| :: t.users[i].id < t.nextId)
    && (forall i | 0 <= i < |t.profiles| :: t.profiles[i].id < t.nextId)
    && (forall i | 0 <= i < |t.consultations| :: t.consultations[i].id < t.nextId)
    && (forall i | 0 <= i < |t.notifications| :: t.notifications[i].id < t.nextId)
    && (forall i | 0 <= i < |t.measurements| :: t.measurements[i].id < t.nextId)
    && (forall i | 0 <= i < |t.reports| :: t.reports[i].id < t.nextId)
  }

  /** No record in any table has id `id`. */
  predicate FreshId(t: Store, id: Id) {
    && (forall i | 0 <= i < |t.users| :: t.users[i].id != id)
    && (forall i | 0 <= i < |t.profiles| :: t.profiles[i].id != id)
    && (forall i | 0 <= i < |t.consultations| :: t.consultations[i].id != id)
    && (forall i | 0 <= i < |t.notifications| :: t.notifications[i].id != id)
    && (forall i | 0 <= i < |t.measurements| :: t.measurements[i].id != id)
    && (forall i | 0 <= i < |t.reports| :: t.reports[i].id != id)
  }

  /** `prisma.user.create`: the user table gains one record at its end, with the given
      fields, and no other table changes. On a store whose ids all come from the counter,
      the new id is used by no record of any table, and the store stays that way. */
  function AddUser(t: Store, name: string, phoneNumber: string, email: Option<string>,
                   password: PasswordHash, role: Role): (r: (Store, User))
    ensures r.1.name == name && r.1.phoneNumber == phoneNumber && r.1.email == email && r.1.username.None?
    ensures r.1.password == password && r.1.role == role && r.1.isActive == t.activeByDefault
    ensures r.0.users == t.users + [r.1] && r.0.(users := t.users, nextId := t.nextId) == t && r.0.nextId > t.nextId
    ensures IdsBelow(t) ==> FreshId(t, r.1.id) && IdsBelow(r.0)
  {
    var u := User(t.nextId, name, phoneNumber, email, None, password, role, t.activeByDefault);
    (t.(users := t.users + [u], nextId := t.nextId + 1), u)
  }

  /** `prisma.doctorProfile.create`, with no rating and no biography. */
  function AddProfile(t: Store, userId: Id, licenseNumber: string, specialty: Option<string>): (r: (Store, DoctorProfile))
    ensures r.1.userId == userId && r.1.licenseNumber == licenseNumber && r.1.specialty == specialty
    ensures r.1.rating.None? && r.1.bio.None?
    ensures r.0.profiles == t.profiles + [r.1] && r.0.(profiles := t.profiles, nextId := t.nextId) == t && r.0.nextId > t.nextId
    ensures IdsBelow(t) ==> FreshId(t, r.1.id) && IdsBelow(r.0)
  {
    var p := DoctorProfile(t.nextId, userId, licenseNumber, specialty, None, None);
    (t.(profiles := t.profiles + [p], nextId := t.nextId + 1), p)
  }

  /** `prisma.consultation.create`: a REQUESTED consultation, requested and updated `now`. */
  function AddConsultation(t: Store, patientId: Id, doctorId: Id, now: int): (r: (Store, Consultation))
    ensures r.1.patientId == patientId && r.1.doctorId == doctorId && r.1.status == Requested
    ensures r.1.requestTime == now && r.1.updatedAt == now
    ensures r.0.consultations == t.consultations + [r.1] && r.0.(consultations := t.consultations, nextId := t.nextId) == t
    ensures r.0.nextId > t.nextId
    ensures IdsBelow(t) ==> FreshId(t, r.1.id) && IdsBelow(r.0)
  {
    var c := Consultation(t.nextId, patientId, doctorId, Requested, now, now);
    (t.(consultations := t.consultations + [c], nextId := t.nextId + 1), c)
  }

  /** `prisma.notification.create`. */
  function AddNotification(t: Store, recipientId: Id, consultationId: Id, kind: string, title: string,
                           content: string, actionRequired: bool): (r: (Store, Notification))
    ensures r.1.recipientId == recipientId && r.1.consultationId == consultationId && r.1.kind == kind
    ensures r.1.title == title && r.1.content == content && r.1.actionRequired == actionRequired
    ensures r.0.notifications == t.notifications + [r.1] && r.0.(notifications := t.notifications, nextId := t.nextId) == t
    ensures r.0.nextId > t.nextId
    ensures IdsBelow(t) ==> FreshId(t, r.1.id) && IdsBelow(r.0)
  {
    var n := Notification(t.nextId, recipientId, consultationId, kind, title, content, actionRequired);
    (t.(notifications := t.notifications + [n], nextId := t.nextId + 1), n)
  }

  /** `prisma.report.create`. */
  function AddReport(t: Store, consultationId: Id, patientId: Id, doctorId: Id,
                     diagnosis: string, notes: string, treatmentPlan: string): (r: (Store, Report))
    ensures r.1.consultationId == consultationId && r.1.patientId == patientId && r.1.doctorId == doctorId
    ensures r.1.diagnosis == diagnosis && r.1.notes == notes && r.1.treatmentPlan == treatmentPlan
    ensures r.0.reports == t.reports + [r.1] && r.0.(reports := t.reports, nextId := t.nextId) == t && r.0.nextId > t.nextId
    ensures IdsBelow(t) ==> FreshId(t, r.1.id) && IdsBelow(r.0)
  {
    var rep := Report(t.nextId, consultationId, patientId, doctorId, diagnosis, notes, treatmentPlan);
    (t.(reports := t.reports + [rep], nextId := t.nextId + 1), rep)
  }

  /** The `where` of `updateMany({patientId, status: "REQUESTED"})`: Prisma drops a field
      whose value is undefined, so a missing `patientId` leaves only the status test. */
  predicate PendingFor(c: Consultation, patientId: Option<Id>) {
    c.status == Requested && (patientId.None? || c.patientId == patientId.value)
  }

  /** The `updateMany` that cancels pending consultations at time `now`. */
  function CancelPending(cs: seq<Consultation>, patientId: Option<Id>, now: int): (r: seq<Consultation>)
    ensures |r| == |cs|
    ensures forall i | 0 <= i < |cs| :: !PendingFor(r[i], patientId)
    ensures forall i | 0 <= i < |cs| && !PendingFor(cs[i], patientId) :: r[i] == cs[i]
    ensures forall i | 0 <= i < |cs| && PendingFor(cs[i], patientId) ::
              r[i] == cs[i].(status := Cancelled, updatedAt := now)
  {
    if cs == [] then []
    else
      var c := cs[0];
      [if PendingFor(c, patientId) then c.(status := Cancelled, updatedAt := now) else c]
      + CancelPending(cs[1..], patientId, now)
  }

  /** Cancelling changes no id, so it keeps every id below the counter. */
  lemma CancelPendingKeepsIds(t: Store, patientId: Option<Id>, now: int)
    requires IdsBelow(t)
    ensures IdsBelow(t.(consultations := CancelPending(t.consultations, patientId, now)))
  {
  }

  /** Cancelling is idempotent: a second pass finds nothing left to cancel. */
  lemma {:induction false} CancelPendingIdempotent(cs: seq<Consultation>, patientId: Option<Id>, now: int, later: int)
    ensures CancelPending(CancelPending(cs, patientId, now), patientId, later) == CancelPending(cs, patientId, now)
  {
    var once := CancelPending(cs, patientId, now);
    var twice := CancelPending(once, patientId, later);
    assert forall i | 0 <= i < |once| :: twice[i] == once[i];
  }

  /** The store as the server process holds it. */
  class Database {
    var users: seq<User>
    var profiles: seq<DoctorProfile>
    var consultations: seq<Consultation>
    var notifications: seq<Notification>
    var measurements: seq<HealthMeasurement>
    var reports: seq<Report>
    var nextId: Id
    const activeByDefault: bool

    function State(): Store
      reads this
    {
      Store(users, profiles, consultations, notifications, measurements, reports, nextId, activeByDefault)
    }

    constructor (t: Store)
      ensures State() == t
    {
      users, profiles, consultations := t.users, t.profiles, t.consultations;
      notifications, measurements, reports := t.notifications, t.measurements, t.reports;
      nextId, activeByDefault := t.nextId, t.activeByDefault;
    }

    method CreateUser(name: string, phoneNumber: string, email: Option<string>, password: PasswordHash, role: Role)
      returns (u: User)
      modifies this
      ensures (State(), u) == AddUser(old(State()), name, phoneNumber, email, password, role)
    {
      u := User(nextId, name, phoneNumber, email, None, password, role, activeByDefault);
      users := users + [u];
      nextId := nextId + 1;
    }

    method CreateProfile(userId: Id, licenseNumber: string, specialty: Option<string>) returns (p: DoctorProfile)
      modifies this
      ensures (State(), p) == AddProfile(old(State()), userId, licenseNumber, specialty)
    {
      p := DoctorProfile(nextId, userId, licenseNumber, specialty, None, None);
      profiles := profiles + [p];
      nextId := nextId + 1;
    }

    method CreateConsultation(patientId: Id, doctorId: Id, now: int) returns (c: Consultation)
      modifies this
      ensures (State(), c) == AddConsultation(old(State()), patientId, doctorId, now)
    {
      c := Consultation(nextId, patientId, doctorId, Requested, now, now);
      consultations := consultations + [c];
      nextId := nextId + 1;
    }

    method CreateNotification(recipientId: Id, consultationId: Id, kind: string, title: string,
                              content: string, actionRequired: bool) returns (n: Notification)
      modifies this
      ensures (State(), n) == AddNotification(old(State()), recipientId, consultationId, kind, title, content, actionRequired)
    {
      n := Notification(nextId, recipientId, consultationId, kind, title, content, actionRequired);
      notifications := notifications + [n];
      nextId := nextId + 1;
    }

    method CreateReport(consultationId: Id, patientId: Id, doctorId: Id,
                        diagnosis: string, notes: string, treatmentPlan: string) returns (rep: Report)
      modifies this
      ensures (State(), rep) == AddReport(old(State()), consultationId, patientId, doctorId, diagnosis, notes, treatmentPlan)
    {
      rep := Report(nextId, consultationId, patientId, doctorId, diagnosis, notes, treatmentPlan);
      reports := reports + [rep];
      nextId := nextId + 1;
    }

    /** `updateMany` over the consultation table, one row at a time. */
    method CancelRequested(patientId: Option<Id>, now: int)
      modifies this
      ensures State() == old(State()).(consultations := CancelPending(old(consultations), patientId, now))
    {
      var i := 0;
      while i < |consultations|
        invariant 0 <= i <= |consultations| == |old(consultations)|
        invariant consultations[..i] == CancelPending(old(consultations), patientId, now)[..i]
        invariant consultations[i..] == old(consultations)[i..]
        invariant State() == old(State()).(consultations := consultations)
      {
        if PendingFor(consultations[i], patientId) {
          consultations := consultations[i := consultations[i].(status := Cancelled, updatedAt := now)];
        }
        i := i + 1;
      }
      assert consultations == consultations[..i];
    }
  }
}

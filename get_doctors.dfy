/** server/routes/getDoctors.js: GET `/active`, the list of doctors a patient can request,
    each with the profile fields shown on the selection page and their defaults. */
module GetDoctors {
  import opened Wrappers
  import opened Seqs
  import opened Db

  datatype CardUser = CardUser(id: Id, name: string, email: Option<string>)

  datatype DoctorCard = DoctorCard(
    id: Id, user: CardUser, specialty: string, rating: Option<real>, bio: Option<string>,
    licenseNumber: Option<string>)

  const DefaultSpecialty := "General Physician"

  /** `include: {doctorProfile: true}`: the profile whose `userId` is the doctor's id. */
  function ProfileOf(t: Store, userId: Id): (r: Option<DoctorProfile>)
    ensures r.Some? ==> r.value in t.profiles && r.value.userId == userId
    ensures r.None? <==> forall i | 0 <= i < |t.profiles| :: t.profiles[i].userId != userId
  {
    FindFirst(t.profiles, (p: DoctorProfile) => p.userId == userId)
  }

  /** The `findMany` filter: role DOCTOR and active, each row once and in table order. */
  function ActiveDoctors(t: Store): (r: seq<User>)
    ensures forall i | 0 <= i < |r| :: r[i].role == Doctor && r[i].isActive && r[i] in t.users
    ensures forall i | 0 <= i < |t.users| && t.users[i].role == Doctor && t.users[i].isActive :: t.users[i] in r
    ensures multiset(r) <= multiset(t.users)
    ensures forall u: User | u.role == Doctor && u.isActive :: multiset(r)[u] == multiset(t.users)[u]
    ensures Subsequence(r, t.users)
  {
    var p := (u: User) => u.role == Doctor && u.isActive;
    FilterMultiset(t.users, p);
    Filter(t.users, p)
  }

  /** One entry of `doctorsData`; every `||` replaces a falsy value (absent, empty string,
      zero) by its default. */
  function Card(profile: Option<DoctorProfile>, d: User): (c: DoctorCard)
    ensures c.id == d.id && c.user == CardUser(d.id, d.name, d.email)
    ensures c.specialty == (if profile.Some? && Truthy(profile.value.specialty) then profile.value.specialty.value
                            else DefaultSpecialty)
    ensures c.rating.Some? <==> profile.Some? && profile.value.rating.Some? && profile.value.rating.value != 0.0
    ensures c.rating.Some? ==> c.rating == profile.value.rating
    ensures c.bio.Some? <==> profile.Some? && Truthy(profile.value.bio)
    ensures c.bio.Some? ==> c.bio == profile.value.bio
    ensures c.licenseNumber.Some? <==> profile.Some? && profile.value.licenseNumber != ""
    ensures c.licenseNumber.Some? ==> c.licenseNumber == Some(profile.value.licenseNumber)
  {
    var specialty := if profile.Some? && Truthy(profile.value.specialty) then profile.value.specialty.value else DefaultSpecialty;
    var rating := if profile.Some? && profile.value.rating.Some? && profile.value.rating.value != 0.0 then profile.value.rating else None;
    var bio := if profile.Some? && Truthy(profile.value.bio) then profile.value.bio else None;
    var license := if profile.Some? && profile.value.licenseNumber != "" then Some(profile.value.licenseNumber) else None;
    DoctorCard(d.id, CardUser(d.id, d.name, d.email), specialty, rating, bio, license)
  }

  /** GET `/active`: one card per active doctor, in query order. */
  function GetActiveDoctors(t: Store): (r: seq<DoctorCard>)
    ensures |r| == |ActiveDoctors(t)|
    ensures forall i | 0 <= i < |r| :: r[i] == Card(ProfileOf(t, ActiveDoctors(t)[i].id), ActiveDoctors(t)[i])
  {
    var ds := ActiveDoctors(t);
    seq(|ds|, i requires 0 <= i < |ds| => Card(ProfileOf(t, ds[i].id), ds[i]))
  }

  /** `id` is the id of an active doctor. */
  predicate IsActiveDoctor(t: Store, id: Id) {
    exists j :: 0 <= j < |t.users| && t.users[j].id == id && t.users[j].role == Doctor && t.users[j].isActive
  }

  /** Every card belongs to an active doctor, under that doctor's id, and every active
      doctor has a card. */
  lemma ActiveDoctorsOnly(t: Store)
    ensures forall i | 0 <= i < |GetActiveDoctors(t)| :: IsActiveDoctor(t, GetActiveDoctors(t)[i].id)
    ensures forall j | 0 <= j < |t.users| && t.users[j].role == Doctor && t.users[j].isActive ::
              exists i :: 0 <= i < |GetActiveDoctors(t)| && GetActiveDoctors(t)[i].id == t.users[j].id
  {
    var ds := ActiveDoctors(t);
    var r := GetActiveDoctors(t);
    forall i | 0 <= i < |r|
      ensures IsActiveDoctor(t, r[i].id)
    {
      assert ds[i] in t.users;
      var j :| 0 <= j < |t.users| && t.users[j] == ds[i];
      assert t.users[j].id == r[i].id;
    }
    forall j | 0 <= j < |t.users| && t.users[j].role == Doctor && t.users[j].isActive
      ensures exists i :: 0 <= i < |r| && r[i].id == t.users[j].id
    {
      assert t.users[j] in ds;
      var i :| 0 <= i < |ds| && ds[i] == t.users[j];
      assert r[i].id == t.users[j].id;
    }
  }
}

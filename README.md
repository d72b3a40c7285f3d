# 5G health kiosk: call signalling and server rules in Dafny

This project models the logic at the core of a telehealth kiosk. A patient measures their vital signs at the kiosk, asks an available doctor for a video consultation, and shares a health report. The doctor sees the pending requests and joins a WebRTC call. The model has three parts.

- **Call signalling.**
  - `Relay` is the Socket.IO relay of the server, with its two routing maps, room membership and the messages it emits.
  - `Jsep` is the offer/answer state machine of a peer connection (section 3.2 of RFC 8829).
  - `PeerProvider` is the peer wrapper of the client.
  - `ConsultationRoom` holds the room page's handlers.
  - `CallFlow` combines them into the join order and the full handshake between doctor and patient.
- **Server rules over the database.**
  - `Db` holds the Prisma tables as in-memory sequences with an id counter.
  - `Consultations` covers the request and request-queue routes.
  - `Auth` covers patient signup, login and the two listings.
  - `Doctors` covers doctor registration.
  - `HealthReport` covers the health report.
  - `GetDoctors` covers the active-doctor listing.
  - Each route is a pure `...Step` function on the store. A method over the live `Db.Database` is proved equal to it.
- **Client-side rules.**
  - `LoginForms` covers the login pages.
  - `DoctorSignupForm` and `PatientSignupForm` cover the two registration pages.
  - `JsString` holds ECMAScript's `trim`, which the doctor registration page and the server's registration sanitizers share.
  - `Vitals` covers the oximeter and results pages.
  - `Bmi` covers the BMI panel of the two profile pages.

Stateful code is written as classes: `Relay.Server`, `PeerProvider.Peer`, `ConsultationRoom.Room`, `Db.Database` and the two signup `Page`s. Each method is proved against a pure step function, and the lemmas are stated about those functions.

The library and platform assumptions are these.

- A Prisma `where` field whose value is undefined is dropped, and `OR: []` matches nobody.
- `findFirst` returns the first matching row in table order.
- bcrypt is an injective hash (`Db.Hashed`). A JSON web token is its user id and role claims (`Auth.Token`); the issue time and expiry claims are left out.
- Every socket is in the room named by its own id. `socket.to(x)` and `socket.broadcast.to(x)` reach the members of room `x` except the members of the room named by the sender's id: the sender itself, and any socket that called `join-room` with that id as the room id. `to(undefined)` reaches nobody.
- Record ids are naturals handed out by a counter. An absent id in a request body is `None`. So is a falsy id of the health-report body and `doctorId` of `/request`, which are checked with `!x`. A present `patientId` of `/request`, even `""`, is `Some(k)` for a `k` that no user has, because Prisma filters on it.

Where the code and its comments or description differ, the model follows the code.

- The relay has no disconnect, ICE-candidate or end-call handler, so routing entries are only overwritten.
- `createAnswer` of the peer wrapper has no state guard of its own.
- The login endpoint ignores the `role` sent by the doctor login page. `LoginForms.DoctorPageAdmitsPatients` shows a patient signing in through that page.
- The generated pulse never exceeds 99, although the comment beside it says 60-100 bpm.
- The user and profile that doctor registration creates inside a transaction are written together. The cancel-then-create of a consultation request runs without one.

## Model

| member | source | states |
|---|---|---|
| Jsep.SetLocal | client/src/providers/Peer.jsx:19 | setting a local description succeeds exactly when the JSEP state machine has that edge, and on success the local description is the one given and the remote one is kept |
| Jsep.SetRemote | client/src/providers/Peer.jsx:24 | setting a remote description succeeds exactly when the state machine has that edge, and on success the remote description is the one given and the local one is kept |
| Jsep.TransitionTargets | client/src/providers/Peer.jsx:17-28 | every edge of the state machine ends in stable exactly for an answer and in have-local-offer exactly for a local offer |
| Jsep.CreateOfferStep | client/src/providers/Peer.jsx:17-21 | createOffer succeeds unless the peer is in have-remote-offer; on success it returns the offer it set as local description and the peer waits in have-local-offer; on failure nothing changes |
| Jsep.CreateAnswerStep | client/src/providers/Peer.jsx:23-28 | createAnswer, which has no guard of its own, succeeds exactly for an offer received outside have-local-offer; it ends stable with the offer as remote and the returned answer as local description; a failure after the first await leaves what that await did |
| Jsep.SetRemoteAnswerStep | client/src/providers/Peer.jsx:30-48 | setRemoteAnswer applies the answer only in have-local-offer; in stable and in any other state it changes nothing; a rejected apply is caught and changes nothing |
| Jsep.SetRemoteAnswerIdempotent | client/src/providers/Peer.jsx:33-41 | after a successful setRemoteAnswer a second one, with any payload, finds stable and changes nothing |
| Jsep.RoundTrip | client/src/providers/Peer.jsx:17-35 | offer, answer, apply answer from two stable peers leaves both stable, with the offer local at the caller and remote at the callee and the answer the other way round |
| Jsep.GlareIsRefused | client/src/providers/Peer.jsx:23-28 | an offer reaching a peer with an outstanding offer of its own is refused and leaves that peer unchanged |
| PeerProvider.AddTracks | client/src/providers/Peer.jsx:53-58 | the senders after addTrack over the tracks in order are the old ones followed by a prefix of the tracks, and all of them exactly when every call succeeded |
| PeerProvider.AddTracksFresh | client/src/providers/Peer.jsx:53-58 | a stream of distinct tracks none of which is sent yet is added completely, each track once, in stream order |
| PeerProvider.LatestStream | client/src/providers/Peer.jsx:60-63 | the remote stream after a track event is the event's first stream, absent when it carries none |
| PeerProvider.Peer.constructor | client/src/providers/Peer.jsx:8-15 | a new connection is stable with no descriptions, senders or remote stream |
| PeerProvider.Peer.SetLocalDescription | client/src/providers/Peer.jsx:19 | the connection's setLocalDescription behaves as Jsep.SetLocal and touches nothing else |
| PeerProvider.Peer.SetRemoteDescription | client/src/providers/Peer.jsx:24 | the connection's setRemoteDescription behaves as Jsep.SetRemote and touches nothing else |
| PeerProvider.Peer.GenerateAnswer | client/src/providers/Peer.jsx:25 | the connection produces an answer only in have-remote-offer |
| PeerProvider.Peer.AddTrack | client/src/providers/Peer.jsx:56 | addTrack appends a track that has no sender yet and refuses one that has |
| PeerProvider.Peer.CreateOffer | client/src/providers/Peer.jsx:17-21 | the wrapper's createOffer changes the peer and returns exactly as Jsep.CreateOfferStep says, leaving senders and remote stream alone |
| PeerProvider.Peer.CreateAnswer | client/src/providers/Peer.jsx:23-28 | the wrapper's createAnswer changes the peer and returns exactly as Jsep.CreateAnswerStep says |
| PeerProvider.Peer.SetRemoteAnswer | client/src/providers/Peer.jsx:30-48 | the wrapper's setRemoteAnswer changes the peer and logs exactly as Jsep.SetRemoteAnswerStep says |
| PeerProvider.Peer.SendStream | client/src/providers/Peer.jsx:53-58 | the loop over the stream's tracks leaves exactly the senders AddTracks describes and changes nothing else |
| PeerProvider.Peer.HandleTrackEvent | client/src/providers/Peer.jsx:60-63 | the remote stream becomes the latest event's first stream; the signalling state is untouched |
| Relay.Members | server/index.js:37-39 | a socket is a member of a room exactly when it has joined it |
| Relay.Emit | server/index.js:38-39 | an emit appends one delivery, or nothing when it reaches nobody |
| Relay.ConnectStep | server/index.js:30 | a new connection is a member of its own room and changes neither map nor the outbox |
| Relay.JoinRoomStep | server/index.js:32-40 | join-room maps the participant to the socket and the socket to the participant, overwriting only those entries, adds the socket to the room and acknowledges the joiner alone first; for a socket in its own room, it tells every member already in the room except the members of the room named by the joiner's socket id |
| Relay.SenderId | server/index.js:44 | the caller's participant id is the reverse map's entry for its socket, absent when the socket never joined |
| Relay.Targets | server/index.js:45-46 | a forwarded message reaches exactly the members of the target's room that are not in the room named by the sender's id, so never the sender, and nobody for an unknown participant |
| Relay.CallUserStep | server/index.js:42-47 | call-user changes neither map, delivers nothing for an unknown target, and otherwise appends at most one incoming-call carrying the caller's id and the offer |
| Relay.CallAcceptedStep | server/index.js:49-53 | call-accepted changes neither map, delivers nothing for an unknown target, and otherwise appends at most one call-accepted carrying the answer and no sender id |
| Relay.CallUserReachesTarget | server/index.js:42-47 | call-user to a joined participant on another socket delivers exactly one incoming-call, to that participant's socket alone, when neither socket's own room was joined by anyone else |
| Relay.CallAcceptedReachesTarget | server/index.js:49-53 | call-accepted to a joined participant on another socket delivers exactly one call-accepted, to that participant's socket alone, when neither socket's own room was joined by anyone else |
| Relay.RejoinBreaksInverse | server/index.js:35-36 | a second join of the same participant from another socket overwrites the forward entry but keeps the old reverse entry, so the maps stop being mutual inverses |
| Relay.RunOnlyGrows | server/index.js:27-54 | over any sequence of events, neither map loses an entry and no emitted message is taken back |
| Relay.HandleKeepsValid | server/index.js:30-54 | every handler keeps the maps and room membership about connected sockets, each socket in its own room |
| Relay.RunKeepsValid | server/index.js:30-54 | the same holds over any sequence of events |
| Relay.Server.constructor | server/index.js:27-28 | the relay starts with empty maps, no sockets and nothing emitted |
| Relay.Server.OnConnection | server/index.js:30 | the connection handler performs ConnectStep and keeps the relay valid |
| Relay.Server.OnJoinRoom | server/index.js:32-40 | the join-room handler performs JoinRoomStep and keeps the relay valid |
| Relay.Server.OnCallUser | server/index.js:42-47 | the call-user handler performs CallUserStep and keeps the relay valid |
| Relay.Server.OnCallAccepted | server/index.js:49-53 | the call-accepted handler performs CallAcceptedStep and keeps the relay valid |
| ConsultationRoom.MediaErrorAlert | client/src/patient/ConsultationRoom.jsx:110-118 | NotAllowedError gives the permissions message, NotFoundError the no-device message, and any other name the generic one; each message for exactly those names |
| ConsultationRoom.UserJoinedStep | client/src/patient/ConsultationRoom.jsx:18-27 | on user-joined the room offers and emits call-user addressed to the joiner with the offer just set as local description, unless createOffer rejects, in which case nothing is emitted and the peer is unchanged |
| ConsultationRoom.IncomingCallStep | client/src/patient/ConsultationRoom.jsx:35-44 | on incoming-call the room answers and emits call-accepted addressed to `from` with the answer, ending stable with the offer as remote description; it emits exactly when createAnswer succeeds, and the peer is always left as CreateAnswerStep leaves it, a failure included |
| ConsultationRoom.CallAcceptedStep | client/src/patient/ConsultationRoom.jsx:46-58 | setRemoteAnswer is called only in have-local-offer, and the answer is applied exactly when it is an answer arriving in that state; otherwise the peer is unchanged |
| ConsultationRoom.Room.constructor | client/src/patient/ConsultationRoom.jsx:12-14 | the first render holds no remote participant, no stream, no listeners and nothing emitted |
| ConsultationRoom.Room.Mount | client/src/patient/ConsultationRoom.jsx:68-70 | mounting registers the three socket handlers and the negotiation handler and nothing else |
| ConsultationRoom.Room.Unmount | client/src/patient/ConsultationRoom.jsx:72-76 | cleanup unregisters exactly what mounting registered |
| ConsultationRoom.Room.HandleUserJoined | client/src/patient/ConsultationRoom.jsx:18-27 | the handler changes the peer, the emitted messages and the remote participant exactly as UserJoinedStep says, the participant being the joiner; the peer's senders and remote stream stay as they were |
| ConsultationRoom.Room.HandleIncomingCall | client/src/patient/ConsultationRoom.jsx:35-44 | the handler changes the peer, the emitted messages and the remote participant exactly as IncomingCallStep says, the participant being `from`; the peer's senders and remote stream stay as they were |
| ConsultationRoom.Room.HandleCallAccepted | client/src/patient/ConsultationRoom.jsx:46-58 | the handler changes the peer exactly as CallAcceptedStep says; the peer's senders and remote stream stay as they were |
| ConsultationRoom.Room.HandleNegotiation | client/src/patient/ConsultationRoom.jsx:123-126 | as written: re-sends the current local description unchanged, addressed to the id captured at first render, without creating an offer |
| ConsultationRoom.Room.HandleNegotiationCorrected | client/src/patient/ConsultationRoom.jsx:123-126 | corrected: creates a new offer and sends it to the participant the room is connected to, and does nothing without one; the peer's senders and remote stream stay as they were |
| ConsultationRoom.Room.GetUserMediaStream | client/src/patient/ConsultationRoom.jsx:81-120 | a granted stream's tracks go to the peer and it becomes the room's stream; a rejected `getUserMedia` adds no track and shows the one alert for its error name; a rejected `enumerateDevices` after a grant shows that alert after the tracks were sent; the peer's signalling state and remote stream stay as they were |
| ConsultationRoom.StaleNegotiationWitness | client/src/patient/ConsultationRoom.jsx:123-126 | after offering to "pat1", the as-written renegotiation is addressed to nobody |
| ConsultationRoom.CorrectedNegotiationWitness | client/src/patient/ConsultationRoom.jsx:123-126 | in the same situation the corrected handler addresses "pat1" with a new offer |
| CallFlow.FirstJoin | server/index.js:32-40 | the first participant to join is acknowledged and nobody else is told |
| CallFlow.SecondJoin | server/index.js:32-40 | the second participant is acknowledged, and only the first is told that it joined |
| CallFlow.OwnRoomsAfterJoin | server/index.js:37 | joining a room named differently from every socket keeps each socket's own room to itself |
| CallFlow.JoinOrder | server/index.js:32-40 | after doctor then patient join, the outbox holds exactly two acknowledgements and one user-joined to the doctor, and the maps route each id to its socket and back |
| CallFlow.Handshake | client/src/patient/ConsultationRoom.jsx:18-58 | the doctor offers, the relay forwards the offer to the patient alone with the doctor's id, the patient answers to that id, the relay forwards the answer to the doctor alone, and the doctor applies it: both peers end stable holding each other's descriptions |
| Db.AddUser | server/controllers/authController.js:31-39 | the user table gains exactly the new record at its end, with the given fields and no username, and no other table changes; on a store whose ids all come from the counter the new id is used by no record of any table, and the store stays that way |
| Db.AddProfile | server/controllers/doctorController.js:55-61 | the profile table gains exactly the new record, for the given user with no rating or biography, and no other table changes; the new id is fresh in the whole store and ids stay below the counter |
| Db.AddConsultation | server/routes/consultations.js:50-61 | the consultation table gains exactly one REQUESTED record for the given patient and doctor, requested and updated now, and no other table changes; the new id is fresh in the whole store and ids stay below the counter |
| Db.AddNotification | server/routes/consultations.js:64-73 | the notification table gains exactly one record with the given fields, and no other table changes; the new id is fresh in the whole store and ids stay below the counter |
| Db.AddReport | server/controllers/healthReportController.js:51-60 | the report table gains exactly one record linking the three given ids, and no other table changes; the new id is fresh in the whole store and ids stay below the counter |
| Db.CancelPending | server/routes/consultations.js:38-47 | the update cancels, at the given time, exactly the REQUESTED consultations of the patient (of every patient when none is given) and leaves every other row as it was |
| Db.CancelPendingKeepsIds | server/routes/consultations.js:38-47 | the cancellation changes no id, so every id stays below the counter |
| Db.CancelPendingIdempotent | server/routes/consultations.js:38-47 | a second cancellation finds nothing left to cancel |
| Db.Database.constructor | server/routes/consultations.js:3 | the live store starts as the given tables |
| Db.Database.CreateUser | server/controllers/authController.js:31-39 | the insert changes the store exactly as AddUser says |
| Db.Database.CreateProfile | server/controllers/doctorController.js:55-61 | the insert changes the store exactly as AddProfile says |
| Db.Database.CreateConsultation | server/routes/consultations.js:50-61 | the insert changes the store exactly as AddConsultation says |
| Db.Database.CreateNotification | server/routes/consultations.js:64-73 | the insert changes the store exactly as AddNotification says |
| Db.Database.CreateReport | server/controllers/healthReportController.js:51-60 | the insert changes the store exactly as AddReport says |
| Db.Database.CancelRequested | server/routes/consultations.js:38-47 | the row-by-row update leaves exactly CancelPending of the old consultations and changes no other table |
| Consultations.RequestStep | server/routes/consultations.js:7-87 | a missing doctor id gives 400 and a doctor who is not an active DOCTOR gives 404, both changing nothing; past those checks pending consultations are cancelled; the request succeeds exactly when the patient id is given and known, creating one REQUESTED consultation and one notification to the doctor with action required; a store whose ids all come from the counter stays so |
| Consultations.RequestLeavesOnePending | server/routes/consultations.js:38-61 | after a successful request the new consultation is its patient's only pending one, and no consultation of another patient changed |
| Consultations.RequestNotificationNamesNewConsultation | server/routes/consultations.js:50-73 | on a store whose ids all come from the counter, the doctor's new notification, which requires action, points at the new consultation and at no other |
| Consultations.MissingPatientCancelsEveryone | server/routes/consultations.js:9-47 | as written: without a patient id every pending consultation of every patient is cancelled and then the request fails with 500 |
| Consultations.UnknownPatientChangesNothing | server/routes/consultations.js:38-61 | a present `patientId` that names no user, such as `""`, stays in the `updateMany` filter, so nothing is cancelled and the request fails with 500, leaving the store unchanged |
| Consultations.MissingPatientWitness | server/routes/consultations.js:9-47 | as written: another patient's pending consultation is cancelled by a request that then fails |
| Consultations.RequestStepChecked | server/routes/consultations.js:7-87 | corrected: both ids are checked before any write, so a refused request changes nothing and a successful one is the request as written; a store whose ids all come from the counter stays so |
| Consultations.CheckedRequestTouchesOwnPatientOnly | server/routes/consultations.js:38-47 | corrected: a request only ever changes consultations of its own patient |
| Consultations.GetRequests | server/routes/consultations.js:92-109 | the queue holds exactly the caller's REQUESTED consultations, with their multiplicity, earliest request first |
| Consultations.Request | server/routes/consultations.js:7-87 | the route handler changes the store and replies exactly as RequestStep says |
| Auth.FindUser | server/controllers/authController.js:60-68 | the lookup returns a stored user matching the query, and nothing exactly when no user matches |
| Auth.IdentityClauses | server/controllers/authController.js:10-17 | the duplicate query matches a user exactly when the phone number matches, or the email does when one is given |
| Auth.ConflictMessage | server/controllers/authController.js:21-23 | the conflict is about the phone number exactly when the found user's phone matches, and about the email otherwise |
| Auth.Public | server/controllers/authController.js:47 | the returned user keeps id, role, phone and email and has no password field |
| Auth.StoredEmail | server/controllers/authController.js:35 | an empty email is stored as absent and any other is stored as given |
| Auth.SignupStep | server/controllers/authController.js:5-53 | signup fails with 400 and changes nothing exactly when some user has the phone number, or the given email; otherwise it creates one PATIENT user and returns a token for it and the user without password; a store whose ids all come from the counter stays so |
| Auth.SignupKeepsPhoneUnique | server/controllers/authController.js:10-39 | after a successful signup the new user is the only one with that phone number |
| Auth.SignupTokenNamesNewUserOnly | server/controllers/authController.js:31-44 | on a store whose ids all come from the counter, the token a signup returns names the new patient and no other user |
| Auth.LoginClauses | server/controllers/authController.js:60-68 | the login query has a clause only for each identifier that is present and non-empty, and matches a user exactly when one of those matches |
| Auth.Login | server/controllers/authController.js:55-92 | login authenticates exactly when the first matching user's password compares equal, returning that user without password; an unknown user and a wrong password give the same 401 |
| Auth.LoginWithoutIdentifier | server/controllers/authController.js:60-72 | with no identifier, or only empty ones, the query matches nobody and login is refused |
| Auth.SignupThenLogin | server/controllers/authController.js:5-92 | signing up and then logging in with the same phone number and password authenticates the new patient |
| Auth.GetAllPatients | server/controllers/authController.js:110-123 | the listing holds exactly the users whose role is PATIENT, each table row once and in table order |
| Auth.GetPatientMeasurements | server/controllers/authController.js:125-140 | the listing holds exactly the measurements of the given patient, each table row once and in table order |
| Auth.Signup | server/controllers/authController.js:5-53 | the handler changes the store and replies exactly as SignupStep says |
| Doctors.DoctorSignupStep | server/controllers/doctorController.js:5-87 | a phone or email conflict is refused first, then a registered license; both give 400 and change nothing; otherwise one DOCTOR user and one profile for it are created together, and the reply carries a token with role DOCTOR and the user without password; a store whose ids all come from the counter stays so |
| Doctors.DoctorSignupKeepsProfiles | server/controllers/doctorController.js:42-64 | if every doctor had a profile before registration, every doctor still has one after it |
| Doctors.DoctorSignupThenLogin | server/controllers/doctorController.js:42-81 | registering and then logging in with the same phone number and password signs in the new doctor |
| Doctors.DoctorSignup | server/controllers/doctorController.js:5-87 | the handler changes the store and replies exactly as DoctorSignupStep says |
| Doctors.Sanitized | server/middleware/validateDoctorSignup.js:3-20 | the sanitizers trim the name, phone number, license number and specialty, and leave the email and password as sent |
| Doctors.SanitizedIdempotent | server/middleware/validateDoctorSignup.js:3-20 | sanitizing a sanitized body changes nothing |
| Doctors.SignupRoute | server/routes/doctorRoutes.js:6 | the mounted route registers exactly when the trimmed phone number (or the email) and the trimmed license number are unused; a refusal is a 400 that changes nothing; a registration stores the trimmed phone number and license number |
| HealthReport.SelectRecent | server/controllers/healthReportController.js:33-41 | the selection holds at most ten measurements, all of the patient's, newest first, and is empty exactly when the patient has none; it is a sub-multiset of the table, so no row is repeated |
| HealthReport.SelectRecentIsNewest | server/controllers/healthReportController.js:33-41 | a measurement of the patient left out of the selection is no newer than any selected one |
| HealthReport.SendHealthReportStep | server/controllers/healthReportController.js:4-82 | a missing id gives 400, a consultation not joining the three ids gives 404, no measurements gives 404, and none of these writes anything; otherwise one report linking the three ids and one notification without action required are created; a store whose ids all come from the counter stays so |
| HealthReport.SendHealthReport | server/controllers/healthReportController.js:4-82 | the handler changes the store and replies exactly as SendHealthReportStep says |
| GetDoctors.ProfileOf | server/routes/getDoctors.js:15-17 | the included profile is one whose user id is the doctor's, absent when there is none |
| GetDoctors.ActiveDoctors | server/routes/getDoctors.js:10-14 | the query holds exactly the active DOCTOR users, each table row once and in table order |
| GetDoctors.Card | server/routes/getDoctors.js:21-32 | an entry carries the doctor's id, name and email; specialty defaults to "General Physician" and rating, bio and license number to null whenever the profile or the value is absent or falsy, so a rating of 0 becomes null |
| GetDoctors.GetActiveDoctors | server/routes/getDoctors.js:21-32 | the listing has one entry per row of the query, in its order, so one per active doctor row in table order |
| GetDoctors.ActiveDoctorsOnly | server/routes/getDoctors.js:10-32 | every entry is under the id of an active doctor, and every active doctor has an entry |
| Vitals.GeneratedSpO2 | client/src/patient/Services/oximeter.jsx:34 | a generated SpO2 lies in 95..100 |
| Vitals.GeneratedPulse | client/src/patient/Services/oximeter.jsx:35 | a generated pulse lies in 60..99 |
| Vitals.GeneratedRangesAreCovered | client/src/patient/Services/oximeter.jsx:34-35 | every value of those ranges is generated by some random number |
| Vitals.SpO2Label | client/src/patient/Services/oximeter.jsx:154 | the SpO2 label is "Below Normal" exactly below 95 and "Normal" otherwise |
| Vitals.PulseLabel | client/src/patient/Services/oximeter.jsx:169-173 | the pulse label is "Low" exactly below 60, "High" exactly above 100, and "Normal" from 60 to 100 inclusive |
| Vitals.RedIffNotNormal | client/src/patient/Services/oximeter.jsx:150-167 | a label is red exactly when it is not "Normal" |
| Vitals.DemoReadingsAreNormal | client/src/patient/Services/oximeter.jsx:22-35 | generated readings and the initial 98 and 72 are both labelled Normal, so "High" never appears |
| Vitals.Shown | client/src/patient/Services/results.jsx:22-27 | the results page shows the route state when there is one and the sample values otherwise |
| Vitals.ResultsAgreeWithOximeter | client/src/patient/Services/results.jsx:132-148 | the results page flags a value exactly when the oximeter page labels it other than Normal, and the sample values raise no flag |
| Bmi.CategoryOf | client/src/pages/Profile.jsx:24-29 | below 18.5 is Underweight, 18.5 up to 24.9 Healthy, 24.9 up to 30 Overweight and from 30 Obesity, each exactly on its band |
| Bmi.CategoryMonotone | src/pages/Profile.jsx:11-16 | a larger BMI never falls in an earlier category |
| Bmi.BarWidth | client/src/pages/Profile.jsx:81-84 | the bar width is always within 0..100, is 0 up to 15, 100 from 45, and linear in between |
| Bmi.BarWidthMonotone | client/src/pages/Profile.jsx:81-84 | the bar grows with the BMI |
| Bmi.ColourAgreesWithCategory | src/pages/Profile.jsx:62-70 | the bar colour is the colour of the printed category, and two BMIs share a colour exactly when they share a category |
| Bmi.InitialIsHealthy | client/src/pages/Profile.jsx:20-22 | 76 kg at 182 cm is Healthy, and so is every value the one-decimal rounding can show |
| LoginForms.PatientPayload | client/src/patient/login.jsx:37-43 | the payload keeps the password and carries the identifier in exactly one field: phone number when it is non-empty ASCII digits, else email when it contains "@", else username |
| LoginForms.EmptyIdentifierIsRefused | client/src/patient/login.jsx:37-43 | `handleSubmit` called with an empty identifier sends an empty username, which the server drops, so the login is refused |
| LoginForms.DigitsLookUpPhone | client/src/patient/login.jsx:37-41 | a digits-only identifier looks users up by phone number alone |
| LoginForms.DoctorPayload | client/src/doctor/doctorLogin.jsx:39-55 | an empty field gives "Please fill in all fields" before any request; otherwise exactly one of email (input with "@") and phone number (input without) is set, with the password unchanged and role DOCTOR |
| LoginForms.LoginPagesAgree | client/src/doctor/doctorLogin.jsx:46-55 | the two login pages send the same request exactly when the identifier is digits-only or contains "@" |
| LoginForms.DoctorPageAdmitsPatients | client/src/doctor/doctorLogin.jsx:46-55 | the role the doctor page sends is ignored, so a patient's phone number and password sign in through it |
| JsString.TrimStart | client/src/doctor/doctorSignup.jsx:46 | leading JavaScript white space is removed and the rest kept |
| JsString.TrimEnd | client/src/doctor/doctorSignup.jsx:46 | trailing JavaScript white space is removed and the rest kept |
| JsString.BlankIffAllSpace | client/src/doctor/doctorSignup.jsx:46-56 | a value is blank after trimming exactly when every character is white space |
| JsString.TrimIdempotent | server/middleware/validateDoctorSignup.js:4-18 | a trimmed value neither starts nor ends with white space, so trimming it again changes nothing |
| DoctorSignupForm.Message | client/src/doctor/doctorSignup.jsx:46-56 | every field message is non-empty |
| DoctorSignupForm.ValidateForm | client/src/doctor/doctorSignup.jsx:43-60 | name, phone number, license number and specialty fail exactly when blank after trimming, the password exactly when empty, the confirmation exactly when it differs, and the email never |
| DoctorSignupForm.SignupRequest | client/src/doctor/doctorSignup.jsx:75-83 | the registration request carries the form's phone number, password, license number and specialty |
| DoctorSignupForm.FollowUpLogin | client/src/doctor/doctorSignup.jsx:93-100 | the follow-up login uses the phone number alone |
| DoctorSignupForm.ValidRegistrationThenLogin | client/src/doctor/doctorSignup.jsx:66-106 | as written, for a phone number without surrounding white space: a valid form that the registration route accepts is followed by a login that signs in the new doctor |
| DoctorSignupForm.NoFailureNoErrors | client/src/doctor/doctorSignup.jsx:43-60 | a form with no blank trimmed name, phone, license or specialty, a non-empty password and a matching confirmation has no errors |
| DoctorSignupForm.PaddedPhoneLoginRefused | client/src/doctor/doctorSignup.jsx:93-100 | as written, for a phone number with surrounding white space that no user has: the route stores the trimmed number and the follow-up login, sent with the number as typed, is refused with 401 |
| DoctorSignupForm.PaddedFormValid | client/src/doctor/doctorSignup.jsx:43-60 | a form whose phone number is " 9876543210" passes validation |
| DoctorSignupForm.PaddedPhoneWitness | client/src/doctor/doctorSignup.jsx:66-106 | as written: on an empty store that form registers the doctor under "9876543210" and its follow-up login is refused |
| DoctorSignupForm.FollowUpLoginCorrected | client/src/doctor/doctorSignup.jsx:93-100 | corrected: the follow-up login sends the trimmed phone number, and is the login as written whenever there is nothing to trim |
| DoctorSignupForm.CorrectedRegistrationThenLogin | client/src/doctor/doctorSignup.jsx:66-106 | corrected: every valid form that the registration route accepts is followed by a login that signs in the new doctor |
| DoctorSignupForm.Page.constructor | client/src/doctor/doctorSignup.jsx:6-16 | the page starts with every field empty, no errors and nothing sent |
| DoctorSignupForm.Page.HandleChange | client/src/doctor/doctorSignup.jsx:31-41 | only the named field changes, and only that field's error is cleared, when it has a non-empty one |
| DoctorSignupForm.Page.HandleSubmit | client/src/doctor/doctorSignup.jsx:62-84 | validation replaces the error map, and a request is sent exactly when it is empty |
| PatientSignupForm.BlankNamePasses | client/src/patient/signup.jsx:42 | the handler's check does not trim, so a name of white space passes where the doctor page would refuse it, and the handler never checks the email |
| PatientSignupForm.SignupRequest | client/src/patient/signup.jsx:49-53 | the registration request carries the form's phone number, password and email |
| PatientSignupForm.FollowUpLogin | client/src/patient/signup.jsx:61-68 | the follow-up login uses the same phone number and password |
| PatientSignupForm.RegistrationThenLogin | client/src/patient/signup.jsx:37-78 | a complete form accepted by the server is followed by a login that signs in the new patient, returning the same user and a token with the same user id |
| PatientSignupForm.Page.constructor | client/src/patient/signup.jsx:13-20 | the page starts with every field empty, no error, not loading and nothing sent |
| PatientSignupForm.Page.HandleInputChange | client/src/patient/signup.jsx:32-35 | only the named field changes |
| PatientSignupForm.Page.HandleSubmit | client/src/patient/signup.jsx:37-53 | an empty name, phone number or password sets the required-fields error, stops loading and sends nothing; otherwise the form is sent as it is and loading starts |

## Left out

- I/O, timers and the network are not modelled: HTTP transport, `fetch`, `localStorage`, navigation, `setTimeout`, `console` logging and `alert` beyond the message chosen. Awaited calls are treated as sequential steps with no interleaving.
- WebRTC media, ICE gathering and STUN are not modelled, nor Socket.IO's transport ordering. A peer is reduced to its signalling state, its descriptions, its senders and its remote stream.
- PDF generation, WhatsApp delivery and sensor acquisition are outside the modelled core. They are foreign libraries, hardware and network code.
- Page rendering, routing and role-based redirects are not modelled.
- LoginForms.EmptyIdentifierIsRefused, LoginForms.PatientPayload, LoginForms.DoctorPayload, PatientSignupForm.BlankNamePasses, PatientSignupForm.Page.HandleSubmit, DoctorSignupForm.ValidateForm and DoctorSignupForm.Page.HandleSubmit: the browser's constraint validation is not modelled. It runs before `onSubmit`, since no form sets `noValidate`. The `required` inputs of login.jsx, doctorLogin.jsx, signup.jsx and doctorSignup.jsx stop an empty field, and the `type="email"` inputs of signup.jsx and doctorSignup.jsx stop a non-empty malformed email. So these members describe the submit handlers on any input. Their empty-field branches and the unchecked email only arise when the handler is called without that validation.
- Jsep.GlareIsRefused, Jsep.CreateAnswerStep, ConsultationRoom.IncomingCallStep: the peer follows the state machine of section 3.2 of RFC 8829, with no rollback. The implicit rollback of the W3C WebRTC API is not modelled. In browsers that implement it, `setRemoteDescription(offer)` in have-local-offer first rolls back the peer's own offer and then answers. These members describe a connection without implicit rollback, where that offer is refused and the peer is left unchanged.
- The validators of server/middleware/validateDoctorSignup.js (`notEmpty`, `isMobilePhone`, `isEmail`, `isLength`) are not modelled: nothing reads their result, so they reject nothing. Its `.trim()` sanitizers are modelled by `Doctors.Sanitized`; a sanitizer run on a missing specialty is not modelled.
- ValidRegistrationThenLogin: covers only phone numbers without surrounding white space. For a padded one the page as written fails its follow-up login (see Findings), and CorrectedRegistrationThenLogin covers every valid form.
- Tokens carry only the user id and role. The `iat` and `exp` claims that `jwt.sign` adds with `expiresIn: '1d'` are not modelled, so a signup token and a later login token for the same user compare equal here although their times differ.
- Schema defaults and foreign keys are assumptions. The Prisma schema is not part of this model. A new user's `isActive` is the store's `activeByDefault`. A consultation whose `patientId` names no user fails its create with a foreign-key error, which the route reports as 500.
- Request bodies always carry the name, phone number and password the server reads. An absent one, which Prisma would reject, is not modelled, and neither is a login password left undefined.
- Consultations.GetRequests: the patient fields the query includes are not modelled. Among equal request times it states no particular order.
- HealthReport.SelectRecent: among equal measurement times it states no particular order.
- The BMI is taken as a given real number. Its float division and the `toFixed(1)` string are not modelled.
- Transaction isolation is not modelled. Concurrent requests and a failure between the cancellation and the create of a consultation request are left out. Each handler runs to completion as one step.
- The 500 replies for unexpected exceptions are not modelled. They cover database outages and hashing or signing failures, which the model has no source for.
- Ids are counter values. The application's opaque id strings and the `String(patientId)` conversion of the measurement listing are not modelled.

## Findings

| source | as written | input that shows it | evidently intended | confidence | as-written member | corrected member |
|---|---|---|---|---|---|---|
| server/routes/consultations.js:9-47 | `patientId` is never checked. When it is missing, Prisma drops it from the `updateMany` filter, which then cancels the REQUESTED consultations of every patient before the create fails | POST `/request` with `{doctorId: 1}` and no `patientId`, while patient 2 has a pending request with doctor 1: patient 2's request becomes CANCELLED and the caller gets 500 | reject a missing or unknown patient before any write, so a request only touches its own patient's consultations | not executed | Consultations.MissingPatientCancelsEveryone, Consultations.MissingPatientWitness | Consultations.RequestStepChecked, Consultations.CheckedRequestTouchesOwnPatientOnly |
| client/src/doctor/doctorSignup.jsx:93-100 | the registration route trims the phone number before storing it, but the follow-up login sends the number as typed | a doctor registers with phone " 9876543210": the account is stored under "9876543210" and the automatic login gets 401 | send the trimmed phone number in the follow-up login, so every accepted registration signs in | not executed | DoctorSignupForm.PaddedPhoneLoginRefused, DoctorSignupForm.PaddedPhoneWitness | DoctorSignupForm.FollowUpLoginCorrected, DoctorSignupForm.CorrectedRegistrationThenLogin |
| client/src/patient/ConsultationRoom.jsx:123-126 | `handleNegotiation` is memoised with no dependencies, so it keeps the `remoteuserId` of the first render, which is undefined. It re-sends the old local description instead of a new offer | the doctor offers to "pat1" after user-joined, then negotiationneeded fires: `call-user` goes out with `userId` undefined, which the relay routes to nobody | send a fresh offer to the participant the room is currently connected to | not executed | ConsultationRoom.Room.HandleNegotiation, ConsultationRoom.StaleNegotiationWitness | ConsultationRoom.Room.HandleNegotiationCorrected, ConsultationRoom.CorrectedNegotiationWitness |

/** The append-only intake handlers: consultations and appointments are
    created by anyone and listed only behind the admin gate. Ids and
    timestamps the database assigns are parameters. */
module Records {
  import opened Common
  import opened Store
  import opened Auth

  datatype ConsultBody = ConsultBody(
    name: Option<string>, email: Option<string>, phone: Option<string>,
    specialty: Option<string>, symptoms: Option<string>)

  datatype AppointmentBody = AppointmentBody(
    name: Option<string>, email: Option<string>, phone: Option<string>,
    doctor: Option<string>, date: Option<string>, time: Option<string>)

  datatype Reply<T> = Reply(db: Db, status: Status, item: Option<T>)

  predicate ConsultComplete(b: ConsultBody) {
    Truthy(b.name) && Truthy(b.email) && Truthy(b.phone) && Truthy(b.specialty) && Truthy(b.symptoms)
  }

  predicate AppointmentComplete(b: AppointmentBody) {
    Truthy(b.name) && Truthy(b.email) && Truthy(b.phone) && Truthy(b.doctor) && Truthy(b.date) && Truthy(b.time)
  }

  /** POST /api/consults: any missing or empty field gives 400 and stores
      nothing; otherwise the consultation is appended and returned with 201. */
  function CreateConsult(db: Db, body: ConsultBody, newId: string, now: int): (r: Reply<Consult>)
    ensures r.status == Created <==> ConsultComplete(body)
    ensures r.status != Created ==> r.status == BadRequest && r.db == db && r.item.None?
    ensures r.status == Created ==>
              && r.item.Some?
              && r.db == db.(consults := db.consults + [r.item.value])
              && r.item.value.id == newId && r.item.value.date == now
              && Some(r.item.value.name) == body.name && Some(r.item.value.email) == body.email
              && Some(r.item.value.phone) == body.phone && Some(r.item.value.specialty) == body.specialty
              && Some(r.item.value.symptoms) == body.symptoms
  {
    if !ConsultComplete(body) then Reply(db, BadRequest, None)
    else
      var c := Consult(newId, body.name.value, body.email.value, body.phone.value,
                       body.specialty.value, body.symptoms.value, now);
      Reply(db.(consults := db.consults + [c]), Created, Some(c))
  }

  /** POST /api/appointments: the same rule over its six fields. */
  function CreateAppointment(db: Db, body: AppointmentBody, newId: string, now: int): (r: Reply<Appointment>)
    ensures r.status == Created <==> AppointmentComplete(body)
    ensures r.status != Created ==> r.status == BadRequest && r.db == db && r.item.None?
    ensures r.status == Created ==>
              && r.item.Some?
              && r.db == db.(appointments := db.appointments + [r.item.value])
              && r.item.value.id == newId && r.item.value.createdAt == now
              && Some(r.item.value.name) == body.name && Some(r.item.value.email) == body.email
              && Some(r.item.value.phone) == body.phone && Some(r.item.value.doctor) == body.doctor
              && Some(r.item.value.date) == body.date && Some(r.item.value.time) == body.time
  {
    if !AppointmentComplete(body) then Reply(db, BadRequest, None)
    else
      var a := Appointment(newId, body.name.value, body.email.value, body.phone.value,
                           body.doctor.value, body.date.value, body.time.value, now);
      Reply(db.(appointments := db.appointments + [a]), Created, Some(a))
  }

  /** An empty symptoms field alone is enough to refuse a consultation. */
  lemma EmptySymptomsRefused(db: Db, body: ConsultBody, newId: string, now: int)
    requires body.symptoms == Some("")
    ensures CreateConsult(db, body, newId, now) == Reply(db, BadRequest, None)
  {
  }

  /** GET /api/consults and GET /api/appointments: the collection behind the admin gate. */
  function ListConsults(db: Db, header: Option<string>, verify: string -> Option<Principal>): (r: Result<seq<Consult>>)
    ensures r.Success? <==> AdminGate(header, verify).Success?
    ensures r.Failure? ==> r.status == AdminGate(header, verify).status
    ensures r.Success? ==> multiset(r.value) == multiset(db.consults)
  {
    Guarded(header, verify, db.consults)
  }

  function ListAppointments(db: Db, header: Option<string>, verify: string -> Option<Principal>): (r: Result<seq<Appointment>>)
    ensures r.Success? <==> AdminGate(header, verify).Success?
    ensures r.Failure? ==> r.status == AdminGate(header, verify).status
    ensures r.Success? ==> multiset(r.value) == multiset(db.appointments)
  {
    Guarded(header, verify, db.appointments)
  }

  /** A consultation that is accepted shows up, once more than before, in the
      next listing an administrator asks for; a refused one changes nothing. */
  lemma CreatedConsultIsListed(db: Db, body: ConsultBody, newId: string, now: int,
                               header: Option<string>, verify: string -> Option<Principal>)
    requires AdminGate(header, verify).Success?
    ensures var r := CreateConsult(db, body, newId, now);
            var l := ListConsults(r.db, header, verify);
            && l.Success?
            && (r.status == Created ==>
                  r.item.value in l.value && multiset(l.value) == multiset(db.consults) + multiset{r.item.value})
            && (r.status != Created ==> multiset(l.value) == multiset(db.consults))
  {
  }

  /** The same for appointments. */
  lemma CreatedAppointmentIsListed(db: Db, body: AppointmentBody, newId: string, now: int,
                                   header: Option<string>, verify: string -> Option<Principal>)
    requires AdminGate(header, verify).Success?
    ensures var r := CreateAppointment(db, body, newId, now);
            var l := ListAppointments(r.db, header, verify);
            && l.Success?
            && (r.status == Created ==>
                  r.item.value in l.value && multiset(l.value) == multiset(db.appointments) + multiset{r.item.value})
            && (r.status != Created ==> multiset(l.value) == multiset(db.appointments))
  {
  }
}

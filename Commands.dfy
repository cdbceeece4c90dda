/**
 * What each console command does to the session and the tables, as functions of the state
 * before it: the specification the imperative `App.Scheduler` is proved against, and the
 * object of the lemmas in `Properties`.
 */
module Commands {
  import opened Types
  import opened Password
  import opened Tokens
  import opened Store

  /** The two current-user fields. */
  datatype Session = Session(caregiver: Option<Account>, patient: Option<Account>)

  /** What the comment on the two fields promises: at most one of them is set. */
  predicate AtMostOneLoggedIn(s: Session) {
    s.caregiver.None? || s.patient.None?
  }

  predicate LoggedIn(s: Session) {
    s.caregiver.Some? || s.patient.Some?
  }

  datatype State = State(session: Session, tables: Tables)

  /** Continue: read the next line; Quit: `quit` returned from the loop; Crash: an uncaught exception ended it. */
  datatype Status = Continue | Quit | Crash

  /** The state after a command, the messages it printed, and whether the loop goes on. */
  datatype Effect = Effect(state: State, out: seq<Message>, status: Status)

  /** A line read from the console, with the salt `Util.generateSalt` would produce while it is handled. */
  datatype Input = Input(line: string, salt: Bytes)

  function Reply(st: State, out: seq<Message>): Effect {
    Effect(st, out, Continue)
  }

  function CreatePatient(env: Env, st: State, tokens: seq<string>, salt: Bytes): Effect {
    if |tokens| != 3 then Reply(st, [TryAgain])
    else if tokens[1] in st.tables.patients then Reply(st, [UsernameTaken])
    else if !StrongPassword(tokens[2]) then Reply(st, [WeakPassword])
    else
      var a := Account(tokens[1], salt, env.hash(tokens[2], salt));
      Reply(State(st.session.(patient := Some(a)),
                  st.tables.(patients := st.tables.patients[tokens[1] := a])),
            [PatientCreated])
  }

  function CreateCaregiver(env: Env, st: State, tokens: seq<string>, salt: Bytes): Effect {
    if |tokens| != 3 then Reply(st, [TryAgain])
    else if tokens[1] in st.tables.caregivers then Reply(st, [UsernameTaken])
    else if !StrongPassword(tokens[2]) then Reply(st, [WeakPassword])
    else
      var a := Account(tokens[1], salt, env.hash(tokens[2], salt));
      Reply(State(st.session.(caregiver := Some(a)),
                  st.tables.(caregivers := st.tables.caregivers[tokens[1] := a])),
            [CaregiverCreated])
  }

  function LoginPatient(env: Env, st: State, tokens: seq<string>): Effect {
    if LoggedIn(st.session) then Reply(st, [AlreadyLoggedIn])
    else if |tokens| != 3 then Reply(st, [TryAgain])
    else match Authenticate(st.tables.patients, env.hash, tokens[1], tokens[2])
      case None => Reply(st, [TryAgain])
      case Some(a) => Reply(st.(session := st.session.(patient := Some(a))), [PatientLoggedIn(tokens[1])])
  }

  function LoginCaregiver(env: Env, st: State, tokens: seq<string>): Effect {
    if LoggedIn(st.session) then Reply(st, [AlreadyLoggedIn])
    else if |tokens| != 3 then Reply(st, [TryAgain])
    else match Authenticate(st.tables.caregivers, env.hash, tokens[1], tokens[2])
      case None => Reply(st, [TryAgain])
      case Some(a) => Reply(st.(session := st.session.(caregiver := Some(a))), [CaregiverLoggedIn(tokens[1])])
  }

  /** A date that fails to parse is reported and then used as SQL NULL. */
  function DateComplaint(date: Option<Date>): seq<Message> {
    if date.None? then [BadDateFormat] else []
  }

  function SearchCaregiverSchedule(env: Env, st: State, tokens: seq<string>): Effect {
    if !LoggedIn(st.session) then Reply(st, [LoginFirst])
    else if |tokens| != 2 then Reply(st, [TryAgain])
    else Reply(st, DateComplaint(env.parseDate(tokens[1])) + [ScheduleListed])
  }

  /** The appointment `reserve` books from the first availability row on its date. */
  function Booking(st: State, slot: Slot, vaccine: string): Appointment
    requires st.session.patient.Some?
  {
    Appointment(MaxId(st.tables.appointments), slot.caregiver, vaccine,
                st.session.patient.value.username, slot.date)
  }

  /**
   * `reserve <date> <vaccine>`: books with the first availability row on the date, under id
   * MAX(id); then `removeAvailability` deletes with its two parameters bound the other way
   * round (the date's text as the username, the caregiver's name as the time).
   */
  function Reserve(env: Env, st: State, tokens: seq<string>): Effect {
    if st.session.patient.None? then Reply(st, [LoginAsPatientFirst])
    else if |tokens| != 3 then Reply(st, [TryAgain])
    else
      var time := env.parseDate(tokens[1]);
      var vaccine := tokens[2];
      if vaccine !in st.tables.vaccines then Reply(st, DateComplaint(time) + [VaccineUnavailable(vaccine)])
      else
        var rows := FirstSlotRows(st.tables.availabilities, time);
        if rows == [] then Reply(st, DateComplaint(time))
        else
          var slot := rows[0];
          var app := Booking(st, slot, vaccine);
          var booked := st.tables.(appointments := st.tables.appointments + [app]);
          var left := DeleteWhere(booked.availabilities, env.dateText(slot.date), slot.caregiver, env.dateText);
          Reply(st.(tables := booked.(availabilities := left)),
                DateComplaint(time) + [Reserved(slot.caregiver, app.id)])
  }

  function UploadAvailability(env: Env, st: State, tokens: seq<string>): Effect {
    if st.session.caregiver.None? then Reply(st, [LoginAsCaregiverFirst])
    else if |tokens| != 2 then Reply(st, [TryAgain])
    else match env.parseDate(tokens[1])
      case None => Reply(st, [InvalidDate])
      case Some(d) =>
        var slot := Slot(st.session.caregiver.value.username, d);
        if slot in st.tables.availabilities then Reply(st, [UploadFailed])
        else Reply(st.(tables := st.tables.(availabilities := st.tables.availabilities + [slot])),
                   [AvailabilityUploaded])
  }

  function Cancel(st: State): Effect {
    Reply(st, [CancelUnavailable])
  }

  /** The Vaccines table after `n` doses of `name` are added: a new row with `n`, or `n` more. */
  function AddDosesTo(vaccines: map<string, int>, name: string, n: int): map<string, int> {
    if name in vaccines then vaccines[name := vaccines[name] + n] else vaccines[name := n]
  }

  /** `add_doses <vaccine> <number>`; a number that does not parse ends the program. */
  function AddDoses(env: Env, st: State, tokens: seq<string>): Effect {
    if st.session.caregiver.None? then Reply(st, [LoginAsCaregiverFirst])
    else if |tokens| != 3 then Reply(st, [TryAgain])
    else match env.parseInt(tokens[2])
      case None => Effect(st, [], Crash)
      case Some(n) =>
        Reply(st.(tables := st.tables.(vaccines := AddDosesTo(st.tables.vaccines, tokens[1], n))), [DosesUpdated])
  }

  /** The appointments whose patient (or caregiver) column is `name`, in table order. */
  function AppointmentsFor(apps: seq<Appointment>, byPatient: bool, name: string): (r: seq<Appointment>)
    ensures forall a :: a in r <==> a in apps && (if byPatient then a.patient else a.caregiver) == name
    ensures |r| <= |apps|
  {
    if apps == [] then []
    else
      var rest := AppointmentsFor(apps[1..], byPatient, name);
      assert apps == [apps[0]] + apps[1..];
      if (if byPatient then apps[0].patient else apps[0].caregiver) == name then [apps[0]] + rest else rest
  }

  /**
   * `show_appointments`: the query selects only one of the two name columns but the loop
   * reads both, so the first row raises an SQL error that ends the program before anything
   * of it is printed; only an empty result lets the loop go on.
   */
  function ShowAppointments(st: State, tokens: seq<string>): Effect {
    if !LoggedIn(st.session) then Reply(st, [LoginFirst])
    else if |tokens| != 1 then Reply(st, [TryAgain])
    else
      var rows :=
        if st.session.patient.Some?
        then AppointmentsFor(st.tables.appointments, true, st.session.patient.value.username)
        else AppointmentsFor(st.tables.appointments, false, st.session.caregiver.value.username);
      if rows == [] then Reply(st, [NoAppointments]) else Effect(st, [], Crash)
  }

  function Logout(st: State): Effect {
    if st.session.caregiver.Some? then Reply(st.(session := st.session.(caregiver := None)), [LoggedOut])
    else if st.session.patient.Some? then Reply(st.(session := st.session.(patient := None)), [LoggedOut])
    else Reply(st, [AlreadyLoggedOut])
  }

  /** The handler the first token selects. */
  function Dispatch(env: Env, st: State, tokens: seq<string>, salt: Bytes): Effect
    requires |tokens| > 0
  {
    var op := tokens[0];
    if op == "create_patient" then CreatePatient(env, st, tokens, salt)
    else if op == "create_caregiver" then CreateCaregiver(env, st, tokens, salt)
    else if op == "login_patient" then LoginPatient(env, st, tokens)
    else if op == "login_caregiver" then LoginCaregiver(env, st, tokens)
    else if op == "search_caregiver_schedule" then SearchCaregiverSchedule(env, st, tokens)
    else if op == "reserve" then Reserve(env, st, tokens)
    else if op == "upload_availability" then UploadAvailability(env, st, tokens)
    else if op == "cancel" then Cancel(st)
    else if op == "add_doses" then AddDoses(env, st, tokens)
    else if op == "show_appointments" then ShowAppointments(st, tokens)
    else if op == "logout" then Logout(st)
    else if op == "quit" then Effect(st, [Bye], Quit)
    else Reply(st, [InvalidOperation])
  }

  /** One pass of the main loop: split the line, and complain about a line with no token. */
  function Step(env: Env, st: State, input: Input): Effect {
    var tokens := Split(input.line);
    if |tokens| == 0 then Reply(st, [TryAgain])
    else Dispatch(env, st, tokens, input.salt)
  }

  /** The main loop over the lines read, until `quit`, a crash, or the end of the input. */
  function Run(env: Env, st: State, inputs: seq<Input>): Effect
    decreases |inputs|
  {
    if inputs == [] then Reply(st, [])
    else
      var e := Step(env, st, inputs[0]);
      if e.status != Continue then e
      else
        var rest := Run(env, e.state, inputs[1..]);
        Effect(rest.state, e.out + rest.out, rest.status)
  }
}

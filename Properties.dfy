/** What the scheduler's commands guarantee, and where it does not keep its own promises. */
module Properties {
  import opened Types
  import opened Password
  import opened Tokens
  import opened Store
  import opened Commands

  const Operations: set<string> := {
    "create_patient", "create_caregiver", "login_patient", "login_caregiver",
    "search_caregiver_schedule", "reserve", "upload_availability", "cancel", "add_doses",
    "show_appointments", "logout", "quit"
  }

  // ---------------------------------------------------------------------------------------
  // Tokenising and dispatch

  /** A line of spaces only yields no token: "Please try again!", and nothing changes. */
  lemma BlankLineChangesNothing(env: Env, st: State, input: Input)
    requires input.line != "" && AllSpaces(input.line)
    ensures Step(env, st, input) == Reply(st, [TryAgain])
  {
    SplitEmptyIff(input.line);
  }

  /** The empty line is a single empty token, which names no operation. */
  lemma EmptyLineIsInvalidOperation(env: Env, st: State, salt: Bytes)
    ensures Step(env, st, Input("", salt)) == Reply(st, [InvalidOperation])
  {
    assert Split("") == [""];
  }

  /** A first token that names no command is reported and changes nothing. */
  lemma UnknownOperationChangesNothing(env: Env, st: State, input: Input)
    requires Split(input.line) != [] && Split(input.line)[0] !in Operations
    ensures Step(env, st, input) == Reply(st, [InvalidOperation])
  {
  }

  /** A doubled space adds an empty token, so a well-meant login fails the arity check. */
  lemma DoubledSpaceFailsArity(env: Env, st: State, user: string, password: string, salt: Bytes)
    requires !LoggedIn(st.session)
    requires ' ' !in user && ' ' !in password && password != ""
    ensures Step(env, st, Input("login_patient" + "  " + user + " " + password, salt)) == Reply(st, [TryAgain])
  {
    DoubledSpaceMakesEmptyToken("login_patient", user, password);
  }

  /** The commands that only print leave the session and the tables as they were. */
  lemma QueriesChangeNothing(env: Env, st: State, tokens: seq<string>)
    ensures SearchCaregiverSchedule(env, st, tokens).state == st
    ensures ShowAppointments(st, tokens).state == st
    ensures Cancel(st).state == st
  {
  }

  // ---------------------------------------------------------------------------------------
  // Accounts and login

  /**
   * `create_patient` adds an account only under a free username with a strong password,
   * never touches an existing account, and logs the new patient in without looking at who
   * is already logged in.
   */
  lemma CreatePatientEffect(env: Env, st: State, tokens: seq<string>, salt: Bytes)
    ensures var e := CreatePatient(env, st, tokens, salt);
      && e.status == Continue
      && e.state.tables == st.tables.(patients := e.state.tables.patients)
      && e.state.session.caregiver == st.session.caregiver
      && (forall u :: u in st.tables.patients ==> u in e.state.tables.patients && e.state.tables.patients[u] == st.tables.patients[u])
      && (e.state != st <==> |tokens| == 3 && tokens[1] !in st.tables.patients && StrongPassword(tokens[2]))
      && (e.state != st ==>
            var a := Account(tokens[1], salt, env.hash(tokens[2], salt));
            e.state.tables.patients == st.tables.patients[tokens[1] := a] && e.state.session.patient == Some(a))
  {
  }

  lemma CreateCaregiverEffect(env: Env, st: State, tokens: seq<string>, salt: Bytes)
    ensures var e := CreateCaregiver(env, st, tokens, salt);
      && e.status == Continue
      && e.state.tables == st.tables.(caregivers := e.state.tables.caregivers)
      && e.state.session.patient == st.session.patient
      && (forall u :: u in st.tables.caregivers ==> u in e.state.tables.caregivers && e.state.tables.caregivers[u] == st.tables.caregivers[u])
      && (e.state != st <==> |tokens| == 3 && tokens[1] !in st.tables.caregivers && StrongPassword(tokens[2]))
      && (e.state != st ==>
            var a := Account(tokens[1], salt, env.hash(tokens[2], salt));
            e.state.tables.caregivers == st.tables.caregivers[tokens[1] := a] && e.state.session.caregiver == Some(a))
  {
  }

  /**
   * `login_patient` checks "already logged in" before the token count, changes the session
   * only when nobody is logged in, there are exactly three tokens and the credentials match,
   * and then sets the patient field alone; the tables never change.
   */
  lemma LoginPatientGuards(env: Env, st: State, tokens: seq<string>)
    ensures var e := LoginPatient(env, st, tokens);
      && e.status == Continue
      && e.state.tables == st.tables
      && e.state.session.caregiver == st.session.caregiver
      && (LoggedIn(st.session) ==> e.state == st && e.out == [AlreadyLoggedIn])
      && (e.state.session != st.session <==>
            !LoggedIn(st.session) && |tokens| == 3 && Authenticate(st.tables.patients, env.hash, tokens[1], tokens[2]).Some?)
      && (e.state.session != st.session ==>
            e.state.session.patient == Authenticate(st.tables.patients, env.hash, tokens[1], tokens[2])
            && e.out == [PatientLoggedIn(tokens[1])])
  {
  }

  lemma LoginCaregiverGuards(env: Env, st: State, tokens: seq<string>)
    ensures var e := LoginCaregiver(env, st, tokens);
      && e.status == Continue
      && e.state.tables == st.tables
      && e.state.session.patient == st.session.patient
      && (LoggedIn(st.session) ==> e.state == st && e.out == [AlreadyLoggedIn])
      && (e.state.session != st.session <==>
            !LoggedIn(st.session) && |tokens| == 3 && Authenticate(st.tables.caregivers, env.hash, tokens[1], tokens[2]).Some?)
      && (e.state.session != st.session ==>
            e.state.session.caregiver == Authenticate(st.tables.caregivers, env.hash, tokens[1], tokens[2])
            && e.out == [CaregiverLoggedIn(tokens[1])])
  {
  }

  /** An account just created can be logged into with the same password after logging out. */
  lemma CreateLogoutLoginRoundTrip(env: Env, st: State, user: string, password: string, salt: Bytes)
    requires st.session.caregiver.None?
    requires user !in st.tables.patients && StrongPassword(password)
    ensures var e1 := CreatePatient(env, st, ["create_patient", user, password], salt);
            var e2 := Logout(e1.state);
            var e3 := LoginPatient(env, e2.state, ["login_patient", user, password]);
            && e3.state.session == Session(None, Some(Account(user, salt, env.hash(password, salt))))
            && e3.out == [PatientLoggedIn(user)]
  {
  }

  // ---------------------------------------------------------------------------------------
  // The session invariant

  /**
   * `logout` clears the caregiver field if set, else the patient field if set, else reports
   * the error; it never clears both, so with both fields set the patient stays logged in.
   */
  lemma LogoutClearsOneField(st: State)
    ensures var e := Logout(st);
      && e.status == Continue && e.state.tables == st.tables
      && !(e.state.session.caregiver != st.session.caregiver && e.state.session.patient != st.session.patient)
      && (st.session.caregiver.Some? ==> e.state.session == Session(None, st.session.patient) && e.out == [LoggedOut])
      && (st.session.caregiver.None? && st.session.patient.Some? ==> e.state.session == Session(None, None) && e.out == [LoggedOut])
      && (!LoggedIn(st.session) ==> e.state == st && e.out == [AlreadyLoggedOut])
      && (AtMostOneLoggedIn(st.session) ==> !LoggedIn(e.state.session))
  {
  }

  predicate IsCreate(input: Input) {
    var tokens := Split(input.line);
    tokens != [] && (tokens[0] == "create_patient" || tokens[0] == "create_caregiver")
  }

  /** Every command except the two create commands keeps at most one user logged in. */
  lemma StepKeepsAtMostOne(env: Env, st: State, input: Input)
    requires AtMostOneLoggedIn(st.session) && !IsCreate(input)
    ensures AtMostOneLoggedIn(Step(env, st, input).state.session)
  {
  }

  /** So does any run of the main loop in which no line is a create command. */
  lemma {:induction false} RunKeepsAtMostOne(env: Env, st: State, inputs: seq<Input>)
    requires AtMostOneLoggedIn(st.session)
    requires forall i :: 0 <= i < |inputs| ==> !IsCreate(inputs[i])
    ensures AtMostOneLoggedIn(Run(env, st, inputs).state.session)
    decreases |inputs|
  {
    if inputs != [] {
      StepKeepsAtMostOne(env, st, inputs[0]);
      var e := Step(env, st, inputs[0]);
      if e.status == Continue {
        RunKeepsAtMostOne(env, e.state, inputs[1..]);
      }
    }
  }

  /** `create_patient` while a caregiver is logged in leaves both fields set. */
  lemma CreatePatientBreaksAtMostOne(env: Env, st: State, tokens: seq<string>, salt: Bytes)
    requires st.session.caregiver.Some?
    requires |tokens| == 3 && tokens[1] !in st.tables.patients && StrongPassword(tokens[2])
    ensures !AtMostOneLoggedIn(CreatePatient(env, st, tokens, salt).state.session)
  {
  }

  /** `create_caregiver` while a patient is logged in leaves both fields set. */
  lemma CreateCaregiverBreaksAtMostOne(env: Env, st: State, tokens: seq<string>, salt: Bytes)
    requires st.session.patient.Some?
    requires |tokens| == 3 && tokens[1] !in st.tables.caregivers && StrongPassword(tokens[2])
    ensures !AtMostOneLoggedIn(CreateCaregiver(env, st, tokens, salt).state.session)
  {
  }

  /** Two lines of the main loop, when neither ends it. */
  lemma RunTwoLines(env: Env, st: State, first: Input, second: Input)
    requires Step(env, st, first).status == Continue
    requires Step(env, Step(env, st, first).state, second).status == Continue
    ensures Run(env, st, [first, second]).state == Step(env, Step(env, st, first).state, second).state
    ensures Run(env, st, [first, second]).status == Continue
  {
    var inputs := [first, second];
    var e1 := Step(env, st, first);
    var e2 := Step(env, e1.state, second);
    assert [second][1..] == [];
    assert Run(env, e1.state, [second]) == Effect(e2.state, e2.out + [], Continue);
    assert inputs[1..] == [second];
  }

  /** A line that splits into space-free words, the last one non-empty, runs their command. */
  lemma StepOnWords(env: Env, st: State, ws: seq<string>, salt: Bytes)
    requires |ws| >= 2 && NoSpaces(ws) && ws[|ws| - 1] != ""
    ensures Step(env, st, Input(Join(ws), salt)) == Dispatch(env, st, ws, salt)
  {
    SplitJoin(ws);
  }

  /**
   * The counterexample through the main loop: from a logged-out state, a caregiver logs in
   * and then creates a patient account; afterwards both current-user fields are set.
   */
  lemma LoginThenCreateBreaksAtMostOne(env: Env, st: State, caregiver: string, password: string,
                                       patient: string, salt1: Bytes, salt2: Bytes)
    requires !LoggedIn(st.session)
    requires caregiver in st.tables.caregivers
    requires env.hash(password, st.tables.caregivers[caregiver].salt) == st.tables.caregivers[caregiver].hash
    requires ' ' !in caregiver && ' ' !in password && password != "" && ' ' !in patient
    requires patient !in st.tables.patients
    ensures var e := Run(env, st, [Input("login_caregiver " + caregiver + " " + password, salt1),
                                   Input("create_patient " + patient + " " + "Vaccine1{", salt2)]);
            e.status == Continue && !AtMostOneLoggedIn(e.state.session)
  {
    var login := ["login_caregiver", caregiver, password];
    var create := ["create_patient", patient, "Vaccine1{"];
    assert Join(login) == "login_caregiver " + caregiver + " " + password by {
      assert Join(login[1..]) == caregiver + " " + password;
    }
    assert Join(create) == "create_patient " + patient + " " + "Vaccine1{" by {
      assert Join(create[1..]) == patient + " " + "Vaccine1{";
    }
    var first, second := Input(Join(login), salt1), Input(Join(create), salt2);
    StepOnWords(env, st, login, salt1);
    var e1 := LoginCaregiver(env, st, login);
    assert e1.state.session.caregiver.Some? && e1.state.tables == st.tables;
    StepOnWords(env, e1.state, create, salt2);
    BraceIsSpecialExample();
    CreatePatientBreaksAtMostOne(env, e1.state, create, salt2);
    RunTwoLines(env, st, first, second);
  }

  // ---------------------------------------------------------------------------------------
  // Reservations

  /** `reserve` never changes the session, the accounts or any dose count, and appends at most one appointment. */
  lemma ReserveBooksAtMostOne(env: Env, st: State, tokens: seq<string>)
    ensures var e := Reserve(env, st, tokens);
      && e.status == Continue
      && e.state.session == st.session
      && e.state.tables.vaccines == st.tables.vaccines
      && e.state.tables.patients == st.tables.patients
      && e.state.tables.caregivers == st.tables.caregivers
      && |st.tables.appointments| <= |e.state.tables.appointments| <= |st.tables.appointments| + 1
      && e.state.tables.appointments[..|st.tables.appointments|] == st.tables.appointments
  {
  }

  /**
   * `reserve` changes nothing when no patient is logged in, the token count is not 3, the
   * vaccine is unknown, or the date does not parse (a null date matches no row).
   */
  lemma ReserveRefusalsChangeNothing(env: Env, st: State, tokens: seq<string>)
    requires || st.session.patient.None?
             || |tokens| != 3
             || tokens[2] !in st.tables.vaccines
             || env.parseDate(tokens[1]).None?
    ensures Reserve(env, st, tokens).state == st
  {
  }

  /**
   * When the date parses and the vaccine is known, `reserve` books the first availability
   * row on that date, for the logged-in patient, under the id MAX(id) (0 for an empty table).
   */
  lemma ReserveBooksFirstSlot(env: Env, st: State, tokens: seq<string>, k: nat)
    requires st.session.patient.Some? && |tokens| == 3 && tokens[2] in st.tables.vaccines
    requires FirstSlotOn(st.tables.availabilities, env.parseDate(tokens[1])) == Some(k)
    ensures k < |st.tables.availabilities|
    ensures var e := Reserve(env, st, tokens);
            var s := st.tables.availabilities[k];
            var id := MaxId(st.tables.appointments);
            && e.state.tables.appointments == st.tables.appointments
                 + [Appointment(id, s.caregiver, tokens[2], st.session.patient.value.username, s.date)]
            && e.out == [Reserved(s.caregiver, id)]
  {
  }

  /** The id a booking gets is not new: it is the largest id already there, or 0. */
  lemma ReserveReusesId(env: Env, st: State, tokens: seq<string>)
    requires Reserve(env, st, tokens).state.tables.appointments != st.tables.appointments
    ensures var apps := st.tables.appointments;
            var booked := Reserve(env, st, tokens).state.tables.appointments;
            && |booked| == |apps| + 1
            && (apps == [] ==> booked[0].id == 0)
            && (apps != [] ==> exists j :: 0 <= j < |apps| && apps[j].id == booked[|apps|].id)
  {
    ReserveBooksAtMostOne(env, st, tokens);
  }

  predicate AllIdsZero(apps: seq<Appointment>) {
    forall k :: 0 <= k < |apps| ==> apps[k].id == 0
  }

  lemma StepKeepsIdsZero(env: Env, st: State, input: Input)
    requires AllIdsZero(st.tables.appointments)
    ensures AllIdsZero(Step(env, st, input).state.tables.appointments)
  {
    var tokens := Split(input.line);
    if tokens != [] && tokens[0] == "reserve" {
      var e := Reserve(env, st, tokens);
      ReserveBooksAtMostOne(env, st, tokens);
      if e.state.tables.appointments != st.tables.appointments {
        ReserveReusesId(env, st, tokens);
      }
    }
  }

  /** Since every id is MAX(id), a run that starts with no appointment only ever records id 0. */
  lemma {:induction false} RunKeepsIdsZero(env: Env, st: State, inputs: seq<Input>)
    requires AllIdsZero(st.tables.appointments)
    ensures AllIdsZero(Run(env, st, inputs).state.tables.appointments)
    decreases |inputs|
  {
    if inputs != [] {
      StepKeepsIdsZero(env, st, inputs[0]);
      var e := Step(env, st, inputs[0]);
      if e.status == Continue {
        RunKeepsIdsZero(env, e.state, inputs[1..]);
      }
    }
  }

  /**
   * The delete after a booking binds the date to the username column and the caregiver's
   * name to the time column, so the booked row stays unless the caregiver's username is the
   * date's own text.
   */
  lemma BookedSlotSurvivesDelete(env: Env, st: State, tokens: seq<string>, k: nat)
    requires st.session.patient.Some? && |tokens| == 3 && tokens[2] in st.tables.vaccines
    requires FirstSlotOn(st.tables.availabilities, env.parseDate(tokens[1])) == Some(k)
    ensures k < |st.tables.availabilities|
    ensures var s := st.tables.availabilities[k];
            s in Reserve(env, st, tokens).state.tables.availabilities <==> s.caregiver != env.dateText(s.date)
  {
  }

  /** A delete that misses the first row on a date leaves it the first row on that date. */
  lemma {:induction false} DeleteKeepsFirstSlot(rows: seq<Slot>, date: Option<Date>, user: string, time: string,
                                               dateText: Date -> string, k: nat)
    requires FirstSlotOn(rows, date) == Some(k)
    requires !DeleteHits(rows[k], user, time, dateText)
    ensures FirstSlotOn(DeleteWhere(rows, user, time, dateText), date).Some?
    ensures FirstSlotRows(DeleteWhere(rows, user, time, dateText), date) == [rows[k]]
  {
    var r := DeleteWhere(rows, user, time, dateText);
    var rest := DeleteWhere(rows[1..], user, time, dateText);
    if k == 0 {
      assert r == [rows[0]] + rest;
    } else {
      assert FirstSlotOn(rows[1..], date) == Some(k - 1);
      DeleteKeepsFirstSlot(rows[1..], date, user, time, dateText, k - 1);
      assert !SlotOn(rows[0], date);
      if !DeleteHits(rows[0], user, time, dateText) {
        assert r == [rows[0]] + rest;
        assert r[1..] == rest;
      }
    }
  }

  /** Appending an appointment whose id is the current maximum leaves the maximum as it was. */
  lemma MaxIdAfterBooking(apps: seq<Appointment>, a: Appointment)
    requires a.id == MaxId(apps)
    ensures MaxId(apps + [a]) == MaxId(apps)
  {
    var all := apps + [a];
    assert all[|apps|] == a;
    var j :| 0 <= j < |all| && all[j].id == MaxId(all);
    if j < |apps| {
      assert all[j] == apps[j];
    }
  }

  /**
   * Reserving the same date twice books the same availability row twice: the two
   * appointments are identical, id included, unless the caregiver's name is the date's text.
   */
  lemma ReserveTwiceDoubleBooks(env: Env, st: State, tokens: seq<string>, k: nat)
    requires st.session.patient.Some? && |tokens| == 3 && tokens[2] in st.tables.vaccines
    requires FirstSlotOn(st.tables.availabilities, env.parseDate(tokens[1])) == Some(k)
    requires st.tables.availabilities[k].caregiver != env.dateText(st.tables.availabilities[k].date)
    ensures var e1 := Reserve(env, st, tokens);
            var e2 := Reserve(env, e1.state, tokens);
            var app := Booking(st, st.tables.availabilities[k], tokens[2]);
            && e1.state.tables.appointments == st.tables.appointments + [app]
            && e2.state.tables.appointments == st.tables.appointments + [app, app]
  {
    var av := st.tables.availabilities;
    var s := av[k];
    var date := env.parseDate(tokens[1]);
    var app := Booking(st, s, tokens[2]);
    var e1 := Reserve(env, st, tokens);
    ReserveBooksFirstSlot(env, st, tokens, k);
    DeleteKeepsFirstSlot(av, date, env.dateText(s.date), s.caregiver, env.dateText, k);
    var k2 := FirstSlotOn(e1.state.tables.availabilities, date).value;
    ReserveBooksFirstSlot(env, e1.state, tokens, k2);
    MaxIdAfterBooking(st.tables.appointments, app);
    assert st.tables.appointments + [app] + [app] == st.tables.appointments + [app, app];
  }

  /** The (caregiver, date) pairs of the Availabilities table are pairwise distinct. */
  predicate DistinctSlots(rows: seq<Slot>) {
    forall i, j :: 0 <= i < j < |rows| ==> rows[i] != rows[j]
  }

  lemma {:induction false} DeleteKeepsDistinct(rows: seq<Slot>, user: string, time: string, dateText: Date -> string)
    requires DistinctSlots(rows)
    ensures DistinctSlots(DeleteWhere(rows, user, time, dateText))
  {
    if rows != [] {
      var rest := DeleteWhere(rows[1..], user, time, dateText);
      DeleteKeepsDistinct(rows[1..], user, time, dateText);
      assert rows[0] !in rows[1..];
      assert rows[0] !in rest;
      if !DeleteHits(rows[0], user, time, dateText) {
        var r := [rows[0]] + rest;
        forall i, j | 0 <= i < j < |r| ensures r[i] != r[j] {
          if i == 0 { assert r[j] == rest[j - 1]; assert r[j] in rest; }
          else { assert r[i] == rest[i - 1] && r[j] == rest[j - 1]; }
        }
      }
    }
  }

  /** An upload adds the logged-in caregiver's row for the date, unless that row already exists. */
  lemma UploadAvailabilityEffect(env: Env, st: State, tokens: seq<string>)
    requires st.session.caregiver.Some? && |tokens| == 2 && env.parseDate(tokens[1]).Some?
    ensures var e := UploadAvailability(env, st, tokens);
            var slot := Slot(st.session.caregiver.value.username, env.parseDate(tokens[1]).value);
            && e.state.session == st.session
            && e.state.tables == st.tables.(availabilities := e.state.tables.availabilities)
            && slot in e.state.tables.availabilities
            && e.state.tables.availabilities == (if slot in st.tables.availabilities then st.tables.availabilities
                                                else st.tables.availabilities + [slot])
            && e.out == (if slot in st.tables.availabilities then [UploadFailed] else [AvailabilityUploaded])
  {
  }

  /** No command ever stores the same (caregiver, date) pair twice. */
  lemma StepKeepsSlotsDistinct(env: Env, st: State, input: Input)
    requires DistinctSlots(st.tables.availabilities)
    ensures DistinctSlots(Step(env, st, input).state.tables.availabilities)
  {
    var tokens := Split(input.line);
    if tokens != [] && tokens[0] == "reserve" {
      var e := Reserve(env, st, tokens);
      if e.state.tables.availabilities != st.tables.availabilities {
        var time := env.parseDate(tokens[1]);
        var slot := FirstSlotRows(st.tables.availabilities, time)[0];
        DeleteKeepsDistinct(st.tables.availabilities, env.dateText(slot.date), slot.caregiver, env.dateText);
      }
    } else if tokens != [] && tokens[0] == "upload_availability" {
      var e := UploadAvailability(env, st, tokens);
      if e.state.tables.availabilities != st.tables.availabilities {
        var rows := e.state.tables.availabilities;
        var n := |st.tables.availabilities|;
        forall i, j | 0 <= i < j < |rows| ensures rows[i] != rows[j] {
          if j == n { assert rows[i] in st.tables.availabilities; }
        }
      }
    }
  }

  // ---------------------------------------------------------------------------------------
  // Doses

  /**
   * `add_doses` sets an unknown vaccine's count to the number given and adds the number to a
   * known one; nothing else changes.
   */
  lemma AddDosesEffect(env: Env, st: State, tokens: seq<string>)
    requires st.session.caregiver.Some? && |tokens| == 3 && env.parseInt(tokens[2]).Some?
    ensures var e := AddDoses(env, st, tokens);
            var n := env.parseInt(tokens[2]).value;
            var v := e.state.tables.vaccines;
            && e.status == Continue && e.out == [DosesUpdated]
            && e.state.session == st.session
            && e.state.tables == st.tables.(vaccines := v)
            && v.Keys == st.tables.vaccines.Keys + {tokens[1]}
            && v[tokens[1]] == (if tokens[1] in st.tables.vaccines then st.tables.vaccines[tokens[1]] + n else n)
            && forall name :: name in st.tables.vaccines && name != tokens[1] ==> v[name] == st.tables.vaccines[name]
  {
  }

  /** There is no sign check: a negative number makes a negative dose count. */
  lemma AddDosesAcceptsNegative(env: Env, st: State, tokens: seq<string>)
    requires st.session.caregiver.Some? && |tokens| == 3
    requires env.parseInt(tokens[2]).Some? && env.parseInt(tokens[2]).value < 0
    requires tokens[1] !in st.tables.vaccines
    ensures AddDoses(env, st, tokens).state.tables.vaccines[tokens[1]] < 0
  {
  }

  /** A number that does not parse ends the main loop with nothing changed. */
  lemma AddDosesBadNumberCrashes(env: Env, st: State, tokens: seq<string>)
    requires st.session.caregiver.Some? && |tokens| == 3 && env.parseInt(tokens[2]).None?
    ensures AddDoses(env, st, tokens) == Effect(st, [], Crash)
  {
  }

  // ---------------------------------------------------------------------------------------
  // Listing appointments

  /**
   * With a patient logged in, `show_appointments` carries on (saying there are none) exactly
   * when no appointment names that patient; otherwise the program ends. Either way nothing
   * changes.
   */
  lemma ShowAppointmentsForPatient(st: State, tokens: seq<string>)
    requires st.session.patient.Some? && |tokens| == 1
    ensures var e := ShowAppointments(st, tokens);
            var me := st.session.patient.value.username;
            && e.state == st
            && (e.status == Continue <==> forall a :: a in st.tables.appointments ==> a.patient != me)
            && (e.status == Continue ==> e.out == [NoAppointments])
            && (e.status != Continue ==> e.status == Crash)
  {
    var rows := AppointmentsFor(st.tables.appointments, true, st.session.patient.value.username);
    if rows != [] {
      assert rows[0] in rows;
    }
  }

  /** The same for a caregiver, when no patient is logged in. */
  lemma ShowAppointmentsForCaregiver(st: State, tokens: seq<string>)
    requires st.session.patient.None? && st.session.caregiver.Some? && |tokens| == 1
    ensures var e := ShowAppointments(st, tokens);
            var me := st.session.caregiver.value.username;
            && e.state == st
            && (e.status == Continue <==> forall a :: a in st.tables.appointments ==> a.caregiver != me)
            && (e.status == Continue ==> e.out == [NoAppointments])
            && (e.status != Continue ==> e.status == Crash)
  {
    var rows := AppointmentsFor(st.tables.appointments, false, st.session.caregiver.value.username);
    if rows != [] {
      assert rows[0] in rows;
    }
  }
}

/**
 * The command-line scheduler: the two current-user fields, updated in place by the command
 * handlers, over a database whose tables the handlers change with single statements. Every
 * handler is proved to do what its function in `Commands` says.
 */
module App {
  import opened Types
  import opened Password
  import opened Tokens
  import opened Store
  import Commands

  class Scheduler {
    var currentCaregiver: Option<Account>
    var currentPatient: Option<Account>
    const db: Database
    const env: Env

    /** The session fields and the tables, as a value. */
    function Snapshot(): Commands.State
      reads this, db
    {
      Commands.State(Commands.Session(currentCaregiver, currentPatient), db.Snapshot())
    }

    /** A fresh process: nobody logged in, over an existing database. */
    constructor (db: Database, env: Env)
      ensures this.db == db && this.env == env
      ensures Snapshot() == Commands.State(Commands.Session(None, None), db.Snapshot())
    {
      this.db := db;
      this.env := env;
      currentCaregiver := None;
      currentPatient := None;
    }

    method CreatePatient(tokens: seq<string>, salt: Bytes) returns (out: seq<Message>)
      modifies this, db
      ensures Commands.Reply(Snapshot(), out) == Commands.CreatePatient(env, old(Snapshot()), tokens, salt)
    {
      if |tokens| != 3 {
        return [TryAgain];
      }
      var username, password := tokens[1], tokens[2];
      var taken := db.UsernameExistsPatient(username);
      if taken {
        return [UsernameTaken];
      }
      if !StrongPassword(password) {
        return [WeakPassword];
      }
      var account := Account(username, salt, env.hash(password, salt));
      currentPatient := Some(account);
      db.SavePatient(account);
      out := [PatientCreated];
    }

    method CreateCaregiver(tokens: seq<string>, salt: Bytes) returns (out: seq<Message>)
      modifies this, db
      ensures Commands.Reply(Snapshot(), out) == Commands.CreateCaregiver(env, old(Snapshot()), tokens, salt)
    {
      if |tokens| != 3 {
        return [TryAgain];
      }
      var username, password := tokens[1], tokens[2];
      var taken := db.UsernameExistsCaregiver(username);
      if taken {
        return [UsernameTaken];
      }
      if !StrongPassword(password) {
        return [WeakPassword];
      }
      var account := Account(username, salt, env.hash(password, salt));
      currentCaregiver := Some(account);
      db.SaveCaregiver(account);
      out := [CaregiverCreated];
    }

    method LoginPatient(tokens: seq<string>) returns (out: seq<Message>)
      modifies this
      ensures Commands.Reply(Snapshot(), out) == Commands.LoginPatient(env, old(Snapshot()), tokens)
    {
      if currentCaregiver.Some? || currentPatient.Some? {
        return [AlreadyLoggedIn];
      }
      if |tokens| != 3 {
        return [TryAgain];
      }
      var patient := db.GetPatient(tokens[1], tokens[2], env.hash);
      if patient.None? {
        out := [TryAgain];
      } else {
        out := [PatientLoggedIn(tokens[1])];
        currentPatient := patient;
      }
    }

    method LoginCaregiver(tokens: seq<string>) returns (out: seq<Message>)
      modifies this
      ensures Commands.Reply(Snapshot(), out) == Commands.LoginCaregiver(env, old(Snapshot()), tokens)
    {
      if currentCaregiver.Some? || currentPatient.Some? {
        return [AlreadyLoggedIn];
      }
      if |tokens| != 3 {
        return [TryAgain];
      }
      var caregiver := db.GetCaregiver(tokens[1], tokens[2], env.hash);
      if caregiver.None? {
        out := [TryAgain];
      } else {
        out := [CaregiverLoggedIn(tokens[1])];
        currentCaregiver := caregiver;
      }
    }

    /** Only the guards and the date check; the listing itself is output. */
    method SearchCaregiverSchedule(tokens: seq<string>) returns (out: seq<Message>)
      ensures Commands.Reply(Snapshot(), out) == Commands.SearchCaregiverSchedule(env, Snapshot(), tokens)
    {
      if currentCaregiver.None? && currentPatient.None? {
        return [LoginFirst];
      }
      if |tokens| != 2 {
        return [TryAgain];
      }
      out := [];
      var time := env.parseDate(tokens[1]);
      if time.None? {
        out := [BadDateFormat];
      }
      out := out + [ScheduleListed];
    }

    method Reserve(tokens: seq<string>) returns (out: seq<Message>)
      modifies db
      ensures Commands.Reply(Snapshot(), out) == Commands.Reserve(env, old(Snapshot()), tokens)
    {
      if currentPatient.None? {
        return [LoginAsPatientFirst];
      }
      if |tokens| != 3 {
        return [TryAgain];
      }
      out := [];
      var time := env.parseDate(tokens[1]);
      if time.None? {
        out := [BadDateFormat];
      }
      var vaccine := tokens[2];
      var vax := db.GetVaccine(vaccine);
      if vax.None? {
        return out + [VaccineUnavailable(vaccine)];
      }
      var rsCaregiver := db.SelectFirstSlot(time);
      var maxId := db.SelectMaxId();
      ghost var before := db.Snapshot();
      var i := 0;
      while i < |rsCaregiver|
        invariant 0 <= i <= |rsCaregiver| <= 1
        invariant rsCaregiver == FirstSlotRows(before.availabilities, time)
        invariant i == 0 ==> db.Snapshot() == before && out == Commands.DateComplaint(time)
        invariant i == 1 ==> Commands.Reply(Snapshot(), out) == Commands.Reserve(env, old(Snapshot()), tokens)
      {
        var slot := rsCaregiver[i];
        var id := maxId;
        db.InsertAppointment(Appointment(id, slot.caregiver, vaccine, currentPatient.value.username, slot.date));
        db.DeleteAvailabilities(env.dateText(slot.date), slot.caregiver, env.dateText);
        out := out + [Reserved(slot.caregiver, id)];
        i := i + 1;
      }
    }

    method UploadAvailability(tokens: seq<string>) returns (out: seq<Message>)
      modifies db
      ensures Commands.Reply(Snapshot(), out) == Commands.UploadAvailability(env, old(Snapshot()), tokens)
    {
      if currentCaregiver.None? {
        return [LoginAsCaregiverFirst];
      }
      if |tokens| != 2 {
        return [TryAgain];
      }
      var d := env.parseDate(tokens[1]);
      if d.None? {
        return [InvalidDate];
      }
      var ok := db.InsertAvailability(Slot(currentCaregiver.value.username, d.value));
      out := if ok then [AvailabilityUploaded] else [UploadFailed];
    }

    method Cancel(tokens: seq<string>) returns (out: seq<Message>)
      ensures Commands.Reply(Snapshot(), out) == Commands.Cancel(Snapshot())
    {
      out := [CancelUnavailable];
    }

    method AddDoses(tokens: seq<string>) returns (out: seq<Message>, status: Commands.Status)
      modifies db
      ensures Commands.Effect(Snapshot(), out, status) == Commands.AddDoses(env, old(Snapshot()), tokens)
    {
      if currentCaregiver.None? {
        return [LoginAsCaregiverFirst], Commands.Continue;
      }
      if |tokens| != 3 {
        return [TryAgain], Commands.Continue;
      }
      var vaccineName := tokens[1];
      var doses := env.parseInt(tokens[2]);
      if doses.None? {
        return [], Commands.Crash;
      }
      var vaccine := db.GetVaccine(vaccineName);
      if vaccine.None? {
        db.SaveVaccine(vaccineName, doses.value);
      } else {
        db.IncreaseAvailableDoses(vaccineName, doses.value);
      }
      out, status := [DosesUpdated], Commands.Continue;
    }

    method ShowAppointments(tokens: seq<string>) returns (out: seq<Message>, status: Commands.Status)
      ensures Commands.Effect(Snapshot(), out, status) == Commands.ShowAppointments(Snapshot(), tokens)
    {
      if currentCaregiver.None? && currentPatient.None? {
        return [LoginFirst], Commands.Continue;
      }
      if |tokens| != 1 {
        return [TryAgain], Commands.Continue;
      }
      var rows;
      if currentPatient.Some? {
        rows := Commands.AppointmentsFor(db.appointments, true, currentPatient.value.username);
      } else {
        rows := Commands.AppointmentsFor(db.appointments, false, currentCaregiver.value.username);
      }
      if rows == [] {
        out, status := [NoAppointments], Commands.Continue;
      } else {
        out, status := [], Commands.Crash;
      }
    }

    method Logout(tokens: seq<string>) returns (out: seq<Message>)
      modifies this
      ensures Commands.Reply(Snapshot(), out) == Commands.Logout(old(Snapshot()))
    {
      if currentCaregiver.Some? {
        currentCaregiver := None;
        out := [LoggedOut];
      } else if currentPatient.Some? {
        currentPatient := None;
        out := [LoggedOut];
      } else {
        out := [AlreadyLoggedOut];
      }
    }

    /** One pass of the main loop on the line read. */
    method Step(input: Commands.Input) returns (out: seq<Message>, status: Commands.Status)
      modifies this, db
      ensures Commands.Effect(Snapshot(), out, status) == Commands.Step(env, old(Snapshot()), input)
    {
      var tokens := Split(input.line);
      status := Commands.Continue;
      if |tokens| == 0 {
        out := [TryAgain];
        return;
      }
      var operation := tokens[0];
      if operation == "create_patient" {
        out := CreatePatient(tokens, input.salt);
      } else if operation == "create_caregiver" {
        out := CreateCaregiver(tokens, input.salt);
      } else if operation == "login_patient" {
        out := LoginPatient(tokens);
      } else if operation == "login_caregiver" {
        out := LoginCaregiver(tokens);
      } else if operation == "search_caregiver_schedule" {
        out := SearchCaregiverSchedule(tokens);
      } else if operation == "reserve" {
        out := Reserve(tokens);
      } else if operation == "upload_availability" {
        out := UploadAvailability(tokens);
      } else if operation == "cancel" {
        out := Cancel(tokens);
      } else if operation == "add_doses" {
        out, status := AddDoses(tokens);
      } else if operation == "show_appointments" {
        out, status := ShowAppointments(tokens);
      } else if operation == "logout" {
        out := Logout(tokens);
      } else if operation == "quit" {
        out, status := [Bye], Commands.Quit;
      } else {
        out := [InvalidOperation];
      }
    }

    /** The main loop over the lines of the input, until `quit`, a crash or the end of the input. */
    method Run(inputs: seq<Commands.Input>) returns (out: seq<Message>, status: Commands.Status)
      modifies this, db
      ensures Commands.Effect(Snapshot(), out, status) == Commands.Run(env, old(Snapshot()), inputs)
    {
      out, status := [], Commands.Continue;
      var i := 0;
      while i < |inputs|
        invariant 0 <= i <= |inputs|
        invariant Commands.Run(env, old(Snapshot()), inputs) == After(out, Commands.Run(env, Snapshot(), inputs[i..]))
      {
        assert inputs[i..][1..] == inputs[i + 1..];
        var printed, s := Step(inputs[i]);
        out := out + printed;
        if s != Commands.Continue {
          status := s;
          return;
        }
        i := i + 1;
      }
    }

    /** An effect with `out` printed before its own messages. */
    static function After(out: seq<Message>, e: Commands.Effect): Commands.Effect {
      Commands.Effect(e.state, out + e.out, e.status)
    }
  }
}

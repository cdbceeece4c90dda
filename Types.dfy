/** Entities of the scheduler and the collaborators it calls but whose code is not modelled. */
module Types {

  datatype Option<+T> = None | Some(value: T)

  type Bytes = seq<bv8>

  /** A calendar date as `java.sql.Date` holds it; only equality of dates matters to the model. */
  datatype Date = Date(year: int, month: int, day: int)

  /** A row of the Patients or Caregivers table: the username with its salt and salted hash. */
  datatype Account = Account(username: string, salt: Bytes, hash: Bytes)

  /** A row of the Availabilities table. */
  datatype Slot = Slot(caregiver: string, date: Date)

  /** A row of the Appointments table, columns in insertion order. */
  datatype Appointment = Appointment(id: int, caregiver: string, vaccine: string, patient: string, date: Date)

  /**
   * Library code the scheduler calls, taken as given functions:
   *  - parseDate: `java.sql.Date.valueOf`, None where it throws IllegalArgumentException;
   *  - dateText: the text a date becomes when it is bound to a character-typed SQL parameter;
   *  - parseInt: `Integer.parseInt`, None where it throws NumberFormatException;
   *  - hash: `Util.generateHash(password, salt)`.
   */
  datatype Env = Env(
    parseDate: string -> Option<Date>,
    dateText: Date -> string,
    parseInt: string -> Option<int>,
    hash: (string, Bytes) -> Bytes)

  /** One kind of console message per distinct `println` the commands make (text and layout are not modelled). */
  datatype Message =
    | TryAgain                          // "Please try again!"
    | InvalidOperation                  // "Invalid operation name!"
    | Bye
    | UsernameTaken
    | WeakPassword
    | PatientCreated
    | CaregiverCreated
    | AlreadyLoggedIn
    | PatientLoggedIn(username: string)
    | CaregiverLoggedIn(username: string)
    | LoginFirst                        // "Please login first!"
    | LoginAsPatientFirst
    | LoginAsCaregiverFirst
    | BadDateFormat                     // search and reserve: "... The format should be YYYY-MM-DD."
    | InvalidDate                       // upload: "Please enter a valid date!"
    | ScheduleListed
    | VaccineUnavailable(vaccine: string)
    | Reserved(caregiver: string, id: int)
    | AvailabilityUploaded
    | UploadFailed
    | CancelUnavailable
    | DosesUpdated
    | NoAppointments
    | LoggedOut
    | AlreadyLoggedOut
}

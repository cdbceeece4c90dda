# Vaccine scheduler: a Dafny model of the console front end

The scheduler is a console program. It reads commands line by line, such as
`create_patient`, `login_caregiver`, `upload_availability`, `add_doses`, `reserve`,
`show_appointments`, `logout` and `quit`. It keeps the logged-in user in two static fields,
`currentCaregiver` and `currentPatient`. It works on five database tables: Patients,
Caregivers, Vaccines, Availabilities and Appointments.

The model has these parts:

- `Types`: the entities and the console messages. The JDK date and number parsers and the
  password hash are `Env` parameters.
- `Password`: `strongPassword`, the Java regular expression stated as lookahead semantics.
  The lemma `StrongPasswordIff` restates it as plain conditions.
- `Tokens`: `String.split(" ")`, with the round trip between a line and its tokens.
- `Store`: the tables as in-memory maps and row sequences, with each SQL statement the
  program issues as a method of the class `Database`.
- `Commands`: every command as a function from the state before it to the state after it,
  the messages printed, and whether the main loop goes on. The main loop over a list of
  lines is included.
- `App`: the class `Scheduler`. Its two session fields are updated in place, and every
  handler is proved to do exactly what its function in `Commands` says.
- `Properties`: what the commands guarantee, and where they do not keep the program's own
  promises.

The model follows the code as written in these places:

- A reservation never checks or decrements a dose count.
- A new appointment gets the id `MAX(id)`, which is 0 for an empty table, not `MAX(id)+1`.
- The delete after a booking binds the date to the username column and the caregiver's
  name to the time column.
- The two create commands log the new user in without looking at who is logged in. This
  breaks the comment's promise that at most one user is logged in.
- A number that `add_doses` cannot parse, or a non-empty result in `show_appointments`,
  raises an exception that ends the program.

The comments in `reserve` describe a different reservation. They say the dose count is
checked (Scheduler.java:354), the chosen availability is taken away (line 359) and a new
appointment id is generated (line 360). The code does none of these, and the model follows
the code.

## Model

| member | source | states |
|---|---|---|
| Password.LookaheadFindsIff | src/main/scheduler/Scheduler.java:94 | a lookahead `(?=.*[K])` succeeds exactly when some character of class K comes before any line terminator |
| Password.StrongPasswordIff | src/main/scheduler/Scheduler.java:93-97 | a password is strong exactly when it has 8 to 20 characters, no line terminator, and at least one ASCII digit, one ASCII lowercase letter, one ASCII uppercase letter and one special character |
| Password.LookaheadNeedsMember | src/main/scheduler/Scheduler.java:94 | a lookahead fails on a text with no member of its class |
| Password.BraceIsSpecialExample | src/main/scheduler/Scheduler.java:94 | the nested class `[{}]` makes `{` a special character, so `Vaccine1{` is strong |
| Password.EnDashIsSpecialExample | src/main/scheduler/Scheduler.java:94 | the en dash in the class is a literal special character |
| Password.BracketIsNotSpecialExample | src/main/scheduler/Scheduler.java:94 | `[` is not in the special set, so `Vaccine1[` is weak |
| Password.HyphenIsNotSpecialExample | src/main/scheduler/Scheduler.java:94 | the ASCII hyphen is not in the special set, so `Vaccine1-` is weak |
| Tokens.Fields | src/main/scheduler/Scheduler.java:54 | the pieces between single spaces: at least one piece, and none of them contains a space |
| Tokens.DropTrailingEmpty | src/main/scheduler/Scheduler.java:54 | the result is a prefix that does not end in an empty token, and only empty tokens were dropped |
| Tokens.JoinFields | src/main/scheduler/Scheduler.java:54 | the pieces joined with single spaces give the line back |
| Tokens.SplitEmptyIff | src/main/scheduler/Scheduler.java:54-59 | a line gives zero tokens exactly when it is non-empty and made only of spaces |
| Tokens.SplitRestoresLine | src/main/scheduler/Scheduler.java:54 | no token contains a space; the joined tokens are a prefix of the line followed only by spaces; the last token is empty only for the empty line |
| Tokens.SplitJoin | src/main/scheduler/Scheduler.java:54 | space-free words whose last word is non-empty are exactly what their join splits into |
| Tokens.DoubledSpaceMakesEmptyToken | src/main/scheduler/Scheduler.java:54 | a doubled space makes an empty token, so a three-word command splits into four tokens |
| Store.FirstSlotOn | src/main/scheduler/Scheduler.java:364-372 | the index of the first Availabilities row on the date, or none when no row matches; a null date matches no row |
| Store.FirstSlotRows | src/main/scheduler/Scheduler.java:364-372 | the `LIMIT 1` result has at most one row, is empty exactly when no row is on the date, and otherwise holds a stored row on that date |
| Store.MaxId | src/main/scheduler/Scheduler.java:365-378 | `MAX(id)` read with `getInt`: 0 for an empty table, otherwise an id that is stored and is at least every stored id |
| Store.DeleteWhere | src/main/scheduler/Scheduler.java:411-427 | the rows left are exactly the rows the `Username = ? AND TIME = ?` condition misses; a single row is kept exactly when the condition misses it; nothing changes when it hits no row |
| Store.DeleteWhereAppend | src/main/scheduler/Scheduler.java:415-420 | the delete works row by row: on two runs of rows it leaves what it leaves on each, in the same order, so the rows left keep their storage order |
| Store.Authenticate | src/main/scheduler/Scheduler.java:229-242 | login finds an account exactly when the username is stored and the password hashed with the stored salt gives the stored hash; the account has that username, salt and hash |
| Store.Database.UsernameExistsPatient | src/main/scheduler/Scheduler.java:137-155 | the username is taken exactly when a Patients row has it |
| Store.Database.UsernameExistsCaregiver | src/main/scheduler/Scheduler.java:194-212 | the username is taken exactly when a Caregivers row has it |
| Store.Database.SavePatient | src/main/scheduler/Scheduler.java:127-129 | the Patients table gains the account under its new username; no other table changes |
| Store.Database.SaveCaregiver | src/main/scheduler/Scheduler.java:184-186 | the Caregivers table gains the account under its new username; no other table changes |
| Store.Database.GetPatient | src/main/scheduler/Scheduler.java:229-235 | the patient getter returns what `Authenticate` gives over the Patients table |
| Store.Database.GetCaregiver | src/main/scheduler/Scheduler.java:260-266 | the caregiver getter returns what `Authenticate` gives over the Caregivers table |
| Store.Database.GetVaccine | src/main/scheduler/Scheduler.java:345-358 | the vaccine getter finds a row exactly when the name is stored, and returns its dose count |
| Store.Database.SaveVaccine | src/main/scheduler/Scheduler.java:481-484 | a new Vaccines row with the given count; nothing else changes |
| Store.Database.IncreaseAvailableDoses | src/main/scheduler/Scheduler.java:489-492 | the stored count grows by n; nothing else changes |
| Store.Database.InsertAvailability | src/main/scheduler/Scheduler.java:441-451 | the row is appended exactly when its (caregiver, date) key is new; otherwise the insert is refused and nothing changes |
| Store.Database.InsertAppointment | src/main/scheduler/Scheduler.java:389-409 | the appointment is appended to Appointments; nothing else changes |
| Store.Database.DeleteAvailabilities | src/main/scheduler/Scheduler.java:411-427 | Availabilities becomes `DeleteWhere` of its rows with the parameters as bound; nothing else changes |
| Commands.AppointmentsFor | src/main/scheduler/Scheduler.java:517-530 | the rows selected are exactly the appointments whose patient (or caregiver) column is the user's name |
| App.Scheduler.constructor | src/main/scheduler/Scheduler.java:21-22 | a new process starts with nobody logged in, over the database and parsers it is given |
| App.Scheduler.CreatePatient | src/main/scheduler/Scheduler.java:99-135 | the session and tables after the handler, and its messages, are those of `Commands.CreatePatient` |
| App.Scheduler.CreateCaregiver | src/main/scheduler/Scheduler.java:157-192 | the same, for `Commands.CreateCaregiver` |
| App.Scheduler.LoginPatient | src/main/scheduler/Scheduler.java:214-243 | the same, for `Commands.LoginPatient` |
| App.Scheduler.LoginCaregiver | src/main/scheduler/Scheduler.java:245-274 | the same, for `Commands.LoginCaregiver` |
| App.Scheduler.SearchCaregiverSchedule | src/main/scheduler/Scheduler.java:276-295 | the guards and date check of `Commands.SearchCaregiverSchedule`; the state does not change |
| App.Scheduler.Reserve | src/main/scheduler/Scheduler.java:327-387 | the `while (rsCaregiver.next())` loop leaves the tables and messages of `Commands.Reserve` |
| App.Scheduler.UploadAvailability | src/main/scheduler/Scheduler.java:429-452 | the same, for `Commands.UploadAvailability` |
| App.Scheduler.Cancel | src/main/scheduler/Scheduler.java:454-456 | only reports that cancelling is unavailable |
| App.Scheduler.AddDoses | src/main/scheduler/Scheduler.java:458-499 | the tables, messages and loop status of `Commands.AddDoses`, including the crash on a bad number |
| App.Scheduler.ShowAppointments | src/main/scheduler/Scheduler.java:502-558 | the messages and status of `Commands.ShowAppointments`; the state does not change |
| App.Scheduler.Logout | src/main/scheduler/Scheduler.java:560-570 | the session after it is that of `Commands.Logout` |
| App.Scheduler.Step | src/main/scheduler/Scheduler.java:47-89 | one pass of the main loop does what `Commands.Step` says |
| App.Scheduler.Run | src/main/scheduler/Scheduler.java:45-90 | the main loop over the lines read does what `Commands.Run` says, stopping at `quit` or a crash |
| Properties.BlankLineChangesNothing | src/main/scheduler/Scheduler.java:54-59 | an all-space line prints "Please try again!" and changes nothing |
| Properties.EmptyLineIsInvalidOperation | src/main/scheduler/Scheduler.java:54-62 | the empty line is one empty token, reported as an invalid operation |
| Properties.UnknownOperationChangesNothing | src/main/scheduler/Scheduler.java:87-89 | an unknown first token is reported and changes neither the session nor any table |
| Properties.DoubledSpaceFailsArity | src/main/scheduler/Scheduler.java:54 | a login line with a doubled space fails the three-token check and changes nothing |
| Properties.QueriesChangeNothing | src/main/scheduler/Scheduler.java:276-324 | `search_caregiver_schedule`, `show_appointments` and `cancel` leave the session and tables unchanged |
| Properties.CreatePatientEffect | src/main/scheduler/Scheduler.java:99-135 | the state changes exactly when there are three tokens, the name is free and the password is strong; existing accounts are never overwritten; the new account is stored and logged in, whatever the caregiver field holds |
| Properties.CreateCaregiverEffect | src/main/scheduler/Scheduler.java:157-192 | the same for caregivers |
| Properties.LoginPatientGuards | src/main/scheduler/Scheduler.java:214-243 | "already logged in" is checked before the token count; the session changes exactly when nobody is logged in, there are three tokens and the credentials match; only the patient field is set; the tables never change |
| Properties.LoginCaregiverGuards | src/main/scheduler/Scheduler.java:245-274 | the same for caregivers |
| Properties.CreateLogoutLoginRoundTrip | src/main/scheduler/Scheduler.java:99-135 | an account just created can be logged into with its password after logging out |
| Properties.LogoutClearsOneField | src/main/scheduler/Scheduler.java:560-570 | logout clears the caregiver field if set, else the patient field, else reports the error; it never clears both, and under the at-most-one invariant nobody is logged in afterwards |
| Properties.StepKeepsAtMostOne | src/main/scheduler/Scheduler.java:18-22 | every command other than the two create commands keeps at most one user logged in |
| Properties.RunKeepsAtMostOne | src/main/scheduler/Scheduler.java:45-90 | a run of the main loop without a create command keeps at most one user logged in |
| Properties.CreatePatientBreaksAtMostOne | src/main/scheduler/Scheduler.java:127 | `create_patient` while a caregiver is logged in leaves both fields set |
| Properties.CreateCaregiverBreaksAtMostOne | src/main/scheduler/Scheduler.java:184 | `create_caregiver` while a patient is logged in leaves both fields set |
| Properties.RunTwoLines | src/main/scheduler/Scheduler.java:45-90 | two lines of the main loop compose when neither ends it |
| Properties.StepOnWords | src/main/scheduler/Scheduler.java:54-89 | a line made of space-free words runs the command those words name |
| Properties.LoginThenCreateBreaksAtMostOne | src/main/scheduler/Scheduler.java:18-22 | through the main loop, a caregiver login followed by `create_patient` leaves both fields set |
| Properties.ReserveBooksAtMostOne | src/main/scheduler/Scheduler.java:364-381 | `reserve` keeps the session, accounts and every dose count, and appends at most one appointment |
| Properties.ReserveRefusalsChangeNothing | src/main/scheduler/Scheduler.java:329-358 | no patient logged in, a wrong token count, an unknown vaccine or an unparsable date leaves the state unchanged |
| Properties.ReserveBooksFirstSlot | src/main/scheduler/Scheduler.java:364-381 | the booking uses the first row on the date, the logged-in patient and the id `MAX(id)` |
| Properties.ReserveReusesId | src/main/scheduler/Scheduler.java:365-379 | the new appointment's id is 0 on an empty table and otherwise equals an id already stored |
| Properties.StepKeepsIdsZero | src/main/scheduler/Scheduler.java:375-379 | when all ids are 0, every command keeps them 0 |
| Properties.RunKeepsIdsZero | src/main/scheduler/Scheduler.java:45-90 | starting with no appointments, every appointment ever recorded has id 0 |
| Properties.BookedSlotSurvivesDelete | src/main/scheduler/Scheduler.java:380 | the booked availability row remains unless the caregiver's name is the date's own text |
| Properties.DeleteKeepsFirstSlot | src/main/scheduler/Scheduler.java:411-427 | a delete that misses the first row on a date leaves it the first row on that date |
| Properties.MaxIdAfterBooking | src/main/scheduler/Scheduler.java:365-379 | appending an appointment with the maximum id leaves the maximum unchanged |
| Properties.ReserveTwiceDoubleBooks | src/main/scheduler/Scheduler.java:364-381 | reserving the same date twice books the same slot twice, with identical appointments and the same id |
| Properties.DeleteKeepsDistinct | src/main/scheduler/Scheduler.java:411-427 | the delete keeps the (caregiver, date) rows pairwise distinct |
| Properties.UploadAvailabilityEffect | src/main/scheduler/Scheduler.java:429-452 | an upload adds the caregiver's row for the date, or is refused when that row exists; nothing else changes |
| Properties.StepKeepsSlotsDistinct | src/main/scheduler/Scheduler.java:429-452 | no command stores the same (caregiver, date) pair twice |
| Properties.AddDosesEffect | src/main/scheduler/Scheduler.java:470-498 | an unknown vaccine gets the number given and a known one gains it; no other count or table changes |
| Properties.AddDosesAcceptsNegative | src/main/scheduler/Scheduler.java:471-484 | there is no sign check: a negative number gives a negative dose count |
| Properties.AddDosesBadNumberCrashes | src/main/scheduler/Scheduler.java:471 | a number that does not parse ends the program with nothing changed |
| Properties.ShowAppointmentsForPatient | src/main/scheduler/Scheduler.java:502-558 | for a patient, the loop goes on (reporting no appointment) exactly when no appointment names the patient; otherwise the program ends; nothing changes |
| Properties.ShowAppointmentsForCaregiver | src/main/scheduler/Scheduler.java:502-558 | the same for a caregiver |

## Left out

- The JDBC connection, `ConnectionManager`, statement handling and closing connections are not modelled; the tables are in-memory values.
- Faults of the database (an `SQLException` from a lost connection or a failed statement) are not modelled, apart from the duplicate availability key.
- Console output is reduced to a list of `Message` values. The text, the password guideline lines and the listing printed by `search_caregiver_schedule` are left out.
- `java.sql.Date.valueOf`, `Integer.parseInt` and `Util.generateHash` are `Env` parameters: partial parse functions and an arbitrary hash. The lenient day rollover of `Date.valueOf` and the rules of `parseInt` are therefore not modelled.
- The text a date becomes when it is bound to the username column is the `Env` parameter `dateText`. The delete compares that text with the stored username, and the caregiver's name with the text of the stored date. A database that refuses to compare a name with a date column (a conversion error) would end the program instead; that behaviour is not modelled.
- `Util.generateSalt` is random, so each input line carries the salt it would produce.
- A failing `readLine` (an `IOException`) and the end of the input, where `readLine` returns null, are not modelled. The run simply ends when the list of lines does.
- The `Patient`, `Caregiver` and `Vaccine` classes are not part of this model. Their getters are map lookups, their savers are inserts, and an availability upload is an insert refused when the (caregiver, date) pair is already stored.
- Appointments are given no key on the id, so a reused id is stored rather than refused.
- Store.MaxId: assumes the Appointments table has an `id` column holding the first inserted value, alongside the columns `show_appointments` names (`app_id`, `vaccine_name`, `app_time`, `caregiver_name`, `patient_name`). The insert fills five columns, and `reserve` reads `MAX(id)` while `show_appointments` selects `app_id`. On a five-column table one of the two queries would fail and end the program: every `reserve` that passes the vaccine check, or every `show_appointments` that passes its guards. The model lets both queries succeed.
- Store.Database.IncreaseAvailableDoses: dose counts are unbounded integers, so 32-bit overflow of `int` is not modelled.
- Case-insensitive collation of names in the database is not modelled: names compare exactly.
- Password: a Java string with an unpaired surrogate cannot be expressed as a Dafny string.
- `cancel` is a stub in the program and is modelled as one.
- Concurrent sessions on one database are not modelled; the program has one session per process.

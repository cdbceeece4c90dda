/**
 * The database tables the scheduler reads and writes, held in memory: Patients and
 * Caregivers keyed by username, Vaccines keyed by name, Availabilities and Appointments as
 * rows in storage order (so that `LIMIT 1` picks the first matching row).
 */
module Store {
  import opened Types

  datatype Tables = Tables(
    patients: map<string, Account>,
    caregivers: map<string, Account>,
    vaccines: map<string, int>,
    availabilities: seq<Slot>,
    appointments: seq<Appointment>)

  /** `Time = ?` with the parameter bound to a date that may be null; SQL's `= NULL` never holds. */
  predicate SlotOn(s: Slot, date: Option<Date>) {
    date.Some? && s.date == date.value
  }

  /** `SELECT * FROM Availabilities WHERE Time = ? LIMIT 1`: the index of the first row on `date`. */
  function FirstSlotOn(rows: seq<Slot>, date: Option<Date>): (r: Option<nat>)
    ensures r.Some? ==> r.value < |rows| && SlotOn(rows[r.value], date)
    ensures r.Some? ==> forall j :: 0 <= j < r.value ==> !SlotOn(rows[j], date)
    ensures r.None? <==> forall j :: 0 <= j < |rows| ==> !SlotOn(rows[j], date)
  {
    if rows == [] then None
    else if SlotOn(rows[0], date) then Some(0)
    else match FirstSlotOn(rows[1..], date)
      case None => None
      case Some(k) => Some(k + 1)
  }

  /** The result set of the `LIMIT 1` query: at most the first row on `date`. */
  function FirstSlotRows(rows: seq<Slot>, date: Option<Date>): (rs: seq<Slot>)
    ensures |rs| <= 1
    ensures rs == [] <==> forall j :: 0 <= j < |rows| ==> !SlotOn(rows[j], date)
    ensures rs != [] ==> rs[0] in rows && SlotOn(rs[0], date)
  {
    match FirstSlotOn(rows, date)
    case None => []
    case Some(k) => [rows[k]]
  }

  /**
   * `SELECT MAX(id) FROM Appointments` read with `getInt(1)`: an empty table gives SQL NULL,
   * which `getInt` turns into 0.
   */
  function MaxId(apps: seq<Appointment>): (m: int)
    ensures apps == [] ==> m == 0
    ensures forall k :: 0 <= k < |apps| ==> apps[k].id <= m
    ensures apps != [] ==> exists k :: 0 <= k < |apps| && apps[k].id == m
  {
    if |apps| <= 1 then (if apps == [] then 0 else apps[0].id)
    else
      var rest := MaxId(apps[1..]);
      if apps[0].id >= rest then apps[0].id else rest
  }

  /** Whether `DELETE ... WHERE Username = ? AND TIME = ?` with parameters `user`, `time` hits `s`. */
  predicate DeleteHits(s: Slot, user: string, time: string, dateText: Date -> string) {
    s.caregiver == user && dateText(s.date) == time
  }

  /** The Availabilities rows left by that delete, in their order. */
  function DeleteWhere(rows: seq<Slot>, user: string, time: string, dateText: Date -> string): (r: seq<Slot>)
    ensures forall s :: s in r <==> s in rows && !DeleteHits(s, user, time, dateText)
    ensures (forall j :: 0 <= j < |rows| ==> !DeleteHits(rows[j], user, time, dateText)) ==> r == rows
    ensures |r| <= |rows|
    ensures |rows| == 1 ==> r == (if DeleteHits(rows[0], user, time, dateText) then [] else rows)
  {
    if rows == [] then []
    else
      var rest := DeleteWhere(rows[1..], user, time, dateText);
      assert rows == [rows[0]] + rows[1..];
      if DeleteHits(rows[0], user, time, dateText) then rest else [rows[0]] + rest
  }

  /**
   * The delete works row by row: on two runs of rows it leaves what it leaves on each, in
   * the same order. With the membership clause of `DeleteWhere` for a single row, this fixes
   * the order of the rows left.
   */
  lemma {:induction false} DeleteWhereAppend(a: seq<Slot>, b: seq<Slot>, user: string, time: string,
                                             dateText: Date -> string)
    ensures DeleteWhere(a + b, user, time, dateText) == DeleteWhere(a, user, time, dateText) + DeleteWhere(b, user, time, dateText)
    decreases |a|
  {
    if a != [] {
      assert (a + b)[1..] == a[1..] + b;
      DeleteWhereAppend(a[1..], b, user, time, dateText);
    } else {
      assert a + b == b;
    }
  }

  /**
   * The account getter used by login: when the username is stored and the password, hashed
   * with the stored salt, gives the stored hash, an account for that username with the
   * stored salt and hash; otherwise nothing.
   */
  function Authenticate(accounts: map<string, Account>, hash: (string, Bytes) -> Bytes,
                        username: string, password: string): (r: Option<Account>)
    ensures r.Some? <==> username in accounts && hash(password, accounts[username].salt) == accounts[username].hash
    ensures r.Some? ==> r.value.username == username && r.value.salt == accounts[username].salt
    ensures r.Some? ==> r.value.hash == hash(password, r.value.salt)
  {
    if username in accounts && hash(password, accounts[username].salt) == accounts[username].hash
    then Some(Account(username, accounts[username].salt, accounts[username].hash))
    else None
  }

  /**
   * The tables as held in the database; the class's methods are the SQL statements the
   * scheduler issues (and the model-class savers and getters it calls).
   */
  class Database {
    var patients: map<string, Account>
    var caregivers: map<string, Account>
    var vaccines: map<string, int>
    var availabilities: seq<Slot>
    var appointments: seq<Appointment>

    function Snapshot(): Tables
      reads this
    {
      Tables(patients, caregivers, vaccines, availabilities, appointments)
    }

    constructor (t: Tables)
      ensures Snapshot() == t
    {
      patients, caregivers, vaccines := t.patients, t.caregivers, t.vaccines;
      availabilities, appointments := t.availabilities, t.appointments;
    }

    /** `SELECT * FROM Patients WHERE Username = ?` followed by `isBeforeFirst()`. */
    method UsernameExistsPatient(username: string) returns (taken: bool)
      ensures taken <==> username in patients
    {
      taken := username in patients;
    }

    /** `SELECT * FROM Caregivers WHERE Username = ?` followed by `isBeforeFirst()`. */
    method UsernameExistsCaregiver(username: string) returns (taken: bool)
      ensures taken <==> username in caregivers
    {
      taken := username in caregivers;
    }

    method SavePatient(a: Account)
      requires a.username !in patients
      modifies this
      ensures Snapshot() == old(Snapshot()).(patients := old(patients)[a.username := a])
    {
      patients := patients[a.username := a];
    }

    method SaveCaregiver(a: Account)
      requires a.username !in caregivers
      modifies this
      ensures Snapshot() == old(Snapshot()).(caregivers := old(caregivers)[a.username := a])
    {
      caregivers := caregivers[a.username := a];
    }

    method GetPatient(username: string, password: string, hash: (string, Bytes) -> Bytes)
      returns (a: Option<Account>)
      ensures a == Authenticate(patients, hash, username, password)
    {
      a := None;
      if username in patients {
        var stored := patients[username];
        if hash(password, stored.salt) == stored.hash {
          a := Some(Account(username, stored.salt, stored.hash));
        }
      }
    }

    method GetCaregiver(username: string, password: string, hash: (string, Bytes) -> Bytes)
      returns (a: Option<Account>)
      ensures a == Authenticate(caregivers, hash, username, password)
    {
      a := None;
      if username in caregivers {
        var stored := caregivers[username];
        if hash(password, stored.salt) == stored.hash {
          a := Some(Account(username, stored.salt, stored.hash));
        }
      }
    }

    /** The vaccine getter: the dose count when a row with that name exists. */
    method GetVaccine(name: string) returns (doses: Option<int>)
      ensures doses.Some? <==> name in vaccines
      ensures doses.Some? ==> doses.value == vaccines[name]
    {
      doses := if name in vaccines then Some(vaccines[name]) else None;
    }

    /** The vaccine saver: inserts a new row. */
    method SaveVaccine(name: string, doses: int)
      requires name !in vaccines
      modifies this
      ensures Snapshot() == old(Snapshot()).(vaccines := old(vaccines)[name := doses])
    {
      vaccines := vaccines[name := doses];
    }

    /** Adds `n` to the stored dose count of an existing vaccine. */
    method IncreaseAvailableDoses(name: string, n: int)
      requires name in vaccines
      modifies this
      ensures Snapshot() == old(Snapshot()).(vaccines := old(vaccines)[name := old(vaccines)[name] + n])
    {
      vaccines := vaccines[name := vaccines[name] + n];
    }

    /** The availability saver: inserts a row, refused when the (caregiver, date) key is taken. */
    method InsertAvailability(s: Slot) returns (ok: bool)
      modifies this
      ensures ok <==> s !in old(availabilities)
      ensures Snapshot() == old(Snapshot()).(availabilities :=
        if ok then old(availabilities) + [s] else old(availabilities))
    {
      ok := s !in availabilities;
      if ok {
        availabilities := availabilities + [s];
      }
    }

    method SelectFirstSlot(date: Option<Date>) returns (rows: seq<Slot>)
      ensures rows == FirstSlotRows(availabilities, date)
    {
      rows := FirstSlotRows(availabilities, date);
    }

    method SelectMaxId() returns (id: int)
      ensures id == MaxId(appointments)
    {
      id := MaxId(appointments);
    }

    /** `INSERT INTO Appointments VALUES (?, ?, ?, ?, ?)`. */
    method InsertAppointment(a: Appointment)
      modifies this
      ensures Snapshot() == old(Snapshot()).(appointments := old(appointments) + [a])
    {
      appointments := appointments + [a];
    }

    /** `DELETE FROM Availabilities WHERE Username = ? AND TIME = ?` with both parameters as given. */
    method DeleteAvailabilities(user: string, time: string, dateText: Date -> string)
      modifies this
      ensures Snapshot() == old(Snapshot()).(availabilities := DeleteWhere(old(availabilities), user, time, dateText))
    {
      availabilities := DeleteWhere(availabilities, user, time, dateText);
    }
  }
}

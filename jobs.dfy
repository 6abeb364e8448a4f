/**
  * The per-user JSON stores of `tg.py` and `tg_v2.py`: the jobs a user
  * left unfinished, keyed by `str(user_id)`, and (in `tg.py`) the users'
  * phone numbers and names. Each operation loads the file, changes the
  * dictionary and writes it back; a file that cannot be loaded makes the
  * operation log the error and change nothing.
  */
module JobIndex {
  import opened Strings
  import opened Sheets

  /** One entry of a user's job list. */
  datatype Job = Job(houseNumber: string, fullName: string, houseFullName: Cell,
                     workType: string, photoBefore: string, status: string)

  const OpenStatus := "Не завершено"     // `tg.py`
  const InProgressStatus := "В работе"   // `tg_v2.py`

  type Jobs = map<string, seq<Job>>

  /** `unfinished_jobs.get(user, [])`. */
  function JobsOf(store: Jobs, user: string): seq<Job>
  {
    if user in store then store[user] else []
  }

  /** Lines 96-106 of `tg.py`: create the user's list if absent, then append. */
  function Added(store: Jobs, user: string, job: Job): (r: Jobs)
    ensures r.Keys == store.Keys + {user}
  {
    store[user := JobsOf(store, user) + [job]]
  }

  /** `[job for job in jobs if job["house_number"] != house]`. */
  function OtherHouses(jobs: seq<Job>, house: string): seq<Job>
    decreases |jobs|
  {
    if jobs == [] then []
    else (if jobs[0].houseNumber != house then [jobs[0]] else []) + OtherHouses(jobs[1..], house)
  }

  /** Lines 127-129 of `tg.py`: filter the user's list, when the user has one. */
  function Removed(store: Jobs, user: string, house: string): (r: Jobs)
    ensures r.Keys == store.Keys
  {
    if user in store then store[user := OtherHouses(store[user], house)] else store
  }

  /** Adding appends exactly one job at the end of that user's list and leaves the other users alone. */
  lemma {:induction false} AddedAppends(store: Jobs, user: string, job: Job, other: string)
    ensures JobsOf(Added(store, user, job), user) == JobsOf(store, user) + [job]
    ensures other != user ==> JobsOf(Added(store, user, job), other) == JobsOf(store, other)
  {
  }

  /** What the filter keeps: exactly the jobs for other houses. */
  lemma {:induction false} OtherHousesSpec(jobs: seq<Job>, house: string)
    ensures forall j :: j in OtherHouses(jobs, house) <==> j in jobs && j.houseNumber != house
    ensures |OtherHouses(jobs, house)| <= |jobs|
    decreases |jobs|
  {
    if jobs != [] {
      OtherHousesSpec(jobs[1..], house);
      assert forall j :: j in jobs <==> j == jobs[0] || j in jobs[1..];
    }
  }

  /** The filter keeps the order of the remaining jobs: it distributes over concatenation. */
  lemma {:induction false} OtherHousesConcat(a: seq<Job>, b: seq<Job>, house: string)
    ensures OtherHouses(a + b, house) == OtherHouses(a, house) + OtherHouses(b, house)
    decreases |a|
  {
    if a == [] {
      assert a + b == b;
    } else {
      assert (a + b)[1..] == a[1..] + b;
      OtherHousesConcat(a[1..], b, house);
    }
  }

  /** Removing drops exactly that user's jobs for the house and leaves the other users alone. */
  lemma {:induction false} RemovedDrops(store: Jobs, user: string, house: string, other: string)
    ensures JobsOf(Removed(store, user, house), user) == OtherHouses(JobsOf(store, user), house)
    ensures other != user ==> JobsOf(Removed(store, user, house), other) == JobsOf(store, other)
  {
  }

  /** A job added and then removed by its house is gone, and so are that user's other jobs for the house. */
  lemma {:induction false} AddThenRemove(store: Jobs, user: string, job: Job)
    ensures JobsOf(Removed(Added(store, user, job), user, job.houseNumber), user)
      == OtherHouses(JobsOf(store, user), job.houseNumber)
  {
    OtherHousesConcat(JobsOf(store, user), [job], job.houseNumber);
    assert OtherHouses([job], job.houseNumber) == [] + OtherHouses([], job.houseNumber);
  }

  /** What `get_unfinished_jobs(user)` returns for the file's content (`None`: it cannot be loaded). */
  function Listed(content: Option<Jobs>, user: string): seq<Job>
  {
    if content.None? then [] else JobsOf(content.value, user)
  }

  /** The file's content after `add_unfinished_job`: unchanged while it cannot be loaded. */
  function AddedTo(content: Option<Jobs>, user: string, job: Job): Option<Jobs>
  {
    if content.None? then None else Some(Added(content.value, user, job))
  }

  /**
    * `unfinished_jobs.json`: its dictionary, or `None` while it cannot be
    * loaded (missing, unreadable or not JSON).
    */
  class JobFile {
    var content: Option<Jobs>

    constructor (initial: Option<Jobs>)
      ensures content == initial
    {
      content := initial;
    }

    /** `add_unfinished_job`. */
    method AddUnfinishedJob(user: string, job: Job)
      modifies this
      ensures content == if old(content).None? then None else Some(Added(old(content).value, user, job))
    {
      if content.Some? {
        var jobs := content.value;
        if user !in jobs {
          jobs := jobs[user := []];
        }
        assert jobs[user] == JobsOf(content.value, user);
        jobs := jobs[user := jobs[user] + [job]];
        assert jobs == Added(content.value, user, job);
        content := Some(jobs);
      }
    }

    /** `get_unfinished_jobs`: `[]` for an unknown user or an unreadable file. */
    method GetUnfinishedJobs(user: string) returns (jobs: seq<Job>)
      ensures content.None? ==> jobs == []
      ensures content.Some? ==> jobs == JobsOf(content.value, user)
    {
      if content.None? {
        return [];
      }
      jobs := JobsOf(content.value, user);
    }

    /** `remove_unfinished_job`. */
    method RemoveUnfinishedJob(user: string, house: string)
      modifies this
      ensures content == if old(content).None? then None else Some(Removed(old(content).value, user, house))
    {
      if content.Some? && user in content.value {
        content := Some(content.value[user := OtherHouses(content.value[user], house)]);
      }
    }
  }

  // ---------------------------------------------------------------------
  // `users_data.json` of `tg.py`.

  datatype User = User(phone: string, fullName: string)

  class UserFile {
    var content: Option<map<string, User>>

    constructor (initial: Option<map<string, User>>)
      ensures content == initial
    {
      content := initial;
    }

    /** `get_user_data`: the user's entry, `None` when absent or unreadable. */
    method GetUserData(user: string) returns (r: Option<User>)
      ensures r.Some? <==> content.Some? && user in content.value
      ensures r.Some? ==> r.value == content.value[user]
    {
      if content.Some? && user in content.value {
        return Some(content.value[user]);
      }
      return None;
    }

    /** `save_user_data`: sets or overwrites only that user's entry. */
    method SaveUserData(user: string, phone: string, fullName: string)
      modifies this
      ensures old(content).None? ==> content == None
      ensures old(content).Some? ==> content == Some(old(content).value[user := User(phone, fullName)])
    {
      if content.Some? {
        content := Some(content.value[user := User(phone, fullName)]);
      }
    }
  }

  // ---------------------------------------------------------------------
  // `get_house_full_name` of `tg.py` over the rows of `Houses.xlsx`.

  /**
    * Column 2 of the first row whose column 1, as text, equals the house;
    * `Blank` (Python's `None`) when there is none or a row is too short.
    */
  function FullNameIn(rows: seq<seq<Cell>>, house: string): Cell
    decreases |rows|
  {
    if rows == [] || |rows[0]| == 0 then Blank
    else if Str(rows[0][0]) == house then (if |rows[0]| < 2 then Blank else rows[0][1])
    else FullNameIn(rows[1..], house)
  }

  /** The `for row in sheet.iter_rows(...)` loop; `None` for the workbook means it cannot be loaded. */
  method GetHouseFullName(workbook: Option<seq<seq<Cell>>>, house: string) returns (r: Cell)
    ensures workbook.None? ==> r == Blank
    ensures workbook.Some? ==> r == FullNameIn(workbook.value, house)
  {
    if workbook.None? {
      return Blank;
    }
    var rows := workbook.value;
    var i := 0;
    while i < |rows|
      invariant 0 <= i <= |rows|
      invariant FullNameIn(rows[i..], house) == FullNameIn(rows, house)
    {
      assert rows[i..][1..] == rows[i + 1..];
      if |rows[i]| == 0 {
        return Blank;
      }
      if Str(rows[i][0]) == house {
        if |rows[i]| < 2 {
          return Blank;
        }
        return rows[i][1];
      }
      i := i + 1;
    }
    return Blank;
  }

  /** The full name found comes from the first matching row: no earlier row matches. */
  lemma {:induction false} FullNameFirstMatch(rows: seq<seq<Cell>>, house: string) returns (i: nat)
    requires FullNameIn(rows, house) != Blank
    ensures i < |rows| && |rows[i]| >= 2 && Str(rows[i][0]) == house
    ensures FullNameIn(rows, house) == rows[i][1]
    ensures forall j :: 0 <= j < i ==> |rows[j]| > 0 && Str(rows[j][0]) != house
    decreases |rows|
  {
    if Str(rows[0][0]) == house {
      i := 0;
    } else {
      var k := FullNameFirstMatch(rows[1..], house);
      i := k + 1;
      forall j | 0 <= j < i
        ensures |rows[j]| > 0 && Str(rows[j][0]) != house
      {
        if j > 0 {
          assert rows[j] == rows[1..][j - 1];
        }
      }
    }
  }

  /** A house that matches no row has no full name. */
  lemma {:induction false} FullNameMissing(rows: seq<seq<Cell>>, house: string)
    requires forall j :: 0 <= j < |rows| ==> |rows[j]| > 0 && Str(rows[j][0]) != house
    ensures FullNameIn(rows, house) == Blank
    decreases |rows|
  {
    if rows != [] {
      FullNameMissing(rows[1..], house);
    }
  }
}

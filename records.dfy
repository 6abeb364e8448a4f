/**
  * The task record `report.txt` kept in every report directory: the
  * `Label: value` lines the bots write, the line-by-line status rewrites,
  * and the scans over all records that list the unfinished tasks.
  */
module Records {
  import opened Strings
  import opened Lines

  /** The pending marker every scan looks for. */
  const PendingMark := "не выполнено"
  /** What the deferral rewrite looks for. */
  const StatusTag := "Статус:"
  const PendingLine := "Статус: не выполнено\n"
  const DoneLine := "Статус: выполнено\n"
  /** What the completion in `tg_v9_work.py` looks for before it appends the management-company line. */
  const UkTag := "ук: Проведенные " + "работы"

  const HouseLabel := "Номер дома"
  const WorkLabel := "Тип работ"
  const DataLabel := "Данные"

  /** `f"{name}: {value}\n"`. */
  function Field(name: string, value: string): string
  {
    name + ": " + value + "\n"
  }

  const UkHead := UkTag + " в МКД " + "и на придомовой " + "территории за "

  /** The management-company line, stamped with `%m.%Y` of the current date. */
  function UkLine(monthYear: string): string
  {
    UkHead + monthYear + "\n"
  }

  /** What `strftime("%m.%Y")` produces: digits and a dot. */
  predicate DateStamp(monthYear: string)
  {
    forall k :: 0 <= k < |monthYear| ==> '0' <= monthYear[k] <= '9' || monthYear[k] == '.'
  }

  /** A line the bot is about to write: its name and the session value, missing when the key is absent. */
  datatype Entry = Entry(name: string, value: Option<string>)

  predicate AllPresent(es: seq<Entry>)
  {
    forall k :: 0 <= k < |es| ==> es[k].value.Some?
  }

  /**
    * `f.write(f"{name}: {value}\n")` for each entry in turn: a missing
    * value raises `KeyError`, and the file keeps the lines written before it.
    */
  function WriteEntries(es: seq<Entry>): string
  {
    if es == [] || es[0].value.None? then ""
    else Field(es[0].name, es[0].value.value) + WriteEntries(es[1..])
  }

  /** The record a fresh report starts with in `tg_v8_work.py` and `tg_v10.py`. */
  function PendingRecord(house: string, work: string, data: string): string
  {
    Field(HouseLabel, house) + Field(WorkLabel, work) + (Field(DataLabel, data) + PendingLine)
  }

  /** Writing the three session lines and then the pending line leaves the fresh record. */
  lemma {:induction false} EntriesThenPending(house: string, work: string, data: string)
    ensures WriteEntries([Entry(HouseLabel, Some(house)), Entry(WorkLabel, Some(work)), Entry(DataLabel, Some(data))]) + PendingLine
            == PendingRecord(house, work, data)
  {
    var es := [Entry(HouseLabel, Some(house)), Entry(WorkLabel, Some(work)), Entry(DataLabel, Some(data))];
    assert es[1..][1..][1..] == [];
    assert WriteEntries(es[1..][1..]) == Field(DataLabel, data);
  }

  /** The record a fresh report starts with in `tg_v9_work.py`. */
  function PendingRecordUk(house: string, work: string, data: string, monthYear: string): string
  {
    Field(HouseLabel, house) + Field(WorkLabel, work) + (Field(DataLabel, data) + PendingLine + UkLine(monthYear))
  }

  /** The three-line record of `tg_v4.py` and `tg_v6_work.py`, with its status line. */
  function ShortRecord(house: string, work: string, status: string): string
  {
    Field(HouseLabel, house) + Field(WorkLabel, work) + status
  }

  /** Writing the two session lines and then a status line leaves the three-line record. */
  lemma {:induction false} EntriesThenStatus(house: string, work: string, status: string)
    ensures WriteEntries([Entry(HouseLabel, Some(house)), Entry(WorkLabel, Some(work))]) + status
            == ShortRecord(house, work, status)
  {
    var es := [Entry(HouseLabel, Some(house)), Entry(WorkLabel, Some(work))];
    assert es[1..][1..] == [];
    assert WriteEntries(es[1..]) == Field(WorkLabel, work);
  }

  // ---------------------------------------------------------------------
  // Status rewrites: read the lines, write each back, some replaced.

  /** The completion rule: a line holding the pending marker becomes the done line. */
  function MarkDoneLine(l: string): string
  {
    if Contains(l, PendingMark) then DoneLine else l
  }

  function MarkDone(ls: seq<string>): (r: seq<string>)
    ensures |r| == |ls|
  {
    seq(|ls|, k requires 0 <= k < |ls| => MarkDoneLine(ls[k]))
  }

  /** A record's text after the completion rewrite: read as lines, each marked done or kept, written back. */
  function RewrittenDone(content: string): string
  {
    Concat(MarkDone(ReadLines(content)))
  }

  /** The deferral rule of `tg_v9_work.py`: a line holding `Статус:` becomes the pending line. */
  function MarkPendingLine(l: string): string
  {
    if Contains(l, StatusTag) then PendingLine else l
  }

  function MarkPending(ls: seq<string>): (r: seq<string>)
    ensures |r| == |ls|
  {
    seq(|ls|, k requires 0 <= k < |ls| => MarkPendingLine(ls[k]))
  }

  /** Some line already carries the management-company line. */
  predicate HasUk(ls: seq<string>)
  {
    exists k :: 0 <= k < |ls| && Contains(ls[k], UkTag)
  }

  /** The completion of `tg_v9_work.py`: lines marked done, the management-company line appended if none was there. */
  function CompleteUk(ls: seq<string>, monthYear: string): (r: seq<string>)
    ensures |r| == |ls| + (if HasUk(ls) then 0 else 1)
  {
    MarkDone(ls) + (if HasUk(ls) then [] else [UkLine(monthYear)])
  }

  /** The `for line in lines: f.write(...)` loop of the completion. */
  method WriteMarkedDone(lines: seq<string>) returns (text: string)
    ensures text == Concat(MarkDone(lines))
  {
    text := "";
    var i := 0;
    while i < |lines|
      invariant 0 <= i <= |lines|
      invariant text == Concat(MarkDone(lines[..i]))
    {
      var l := lines[i];
      var w := if Contains(l, PendingMark) then DoneLine else l;
      ConcatSnoc(MarkDone(lines[..i]), w);
      assert MarkDone(lines[..i + 1]) == MarkDone(lines[..i]) + [w];
      text := text + w;
      i := i + 1;
    }
    assert lines[..i] == lines;
  }

  /** The `for line in lines: f.write(...)` loop of the deferral. */
  method WriteMarkedPending(lines: seq<string>) returns (text: string)
    ensures text == Concat(MarkPending(lines))
  {
    text := "";
    var i := 0;
    while i < |lines|
      invariant 0 <= i <= |lines|
      invariant text == Concat(MarkPending(lines[..i]))
    {
      var l := lines[i];
      var w := if Contains(l, StatusTag) then PendingLine else l;
      ConcatSnoc(MarkPending(lines[..i]), w);
      assert MarkPending(lines[..i + 1]) == MarkPending(lines[..i]) + [w];
      text := text + w;
      i := i + 1;
    }
    assert lines[..i] == lines;
  }

  /** The completion of `tg_v9_work.py`: the rewrite loop, then the management-company line when no line had it. */
  method WriteCompletedUk(lines: seq<string>, monthYear: string) returns (text: string)
    ensures text == Concat(CompleteUk(lines, monthYear))
  {
    var found := false;
    var i := 0;
    while i < |lines|
      invariant 0 <= i <= |lines|
      invariant found <==> exists k :: 0 <= k < i && Contains(lines[k], UkTag)
    {
      found := found || Contains(lines[i], UkTag);
      i := i + 1;
    }
    text := WriteMarkedDone(lines);
    if !found {
      ConcatSnoc(MarkDone(lines), UkLine(monthYear));
      text := text + UkLine(monthYear);
    } else {
      assert MarkDone(lines) + [] == MarkDone(lines);
    }
  }

  // ---------------------------------------------------------------------
  // Scans.

  /** An unfinished task: house and work type read from a record, and the directory holding it. */
  datatype Task = Task(house: string, workType: string, path: string)

  /** `os.path.join(dir, "report.txt")`. */
  function ReportFile(dir: string): string
  {
    dir + "/report.txt"
  }

  /**
    * `line.split(": ")[1]`: the text between the first `": "` and the next
    * one; `None` where Python raises `IndexError`.
    */
  function AfterColon(line: string): (r: Option<string>)
    ensures r.None? <==> !Contains(line, ": ")
    ensures r.Some? ==> |Split(line, ": ")| >= 2 && r.value == Split(line, ": ")[1]
    ensures r.Some? ==> (!Contains(r.value, ": ")
                         && StartsWith(line[IndexOf(line, ": ").value + 2..], r.value))
  {
    match IndexOf(line, ": ")
    case None => None
    case Some(i) =>
      // `split` cuts at the first separator, so piece 1 is the head of the rest
      SplitStep(line, ": ", i);
      var rest := line[i + 2..];
      SplitHeadPrefix(rest, ": ");
      SplitPiecesFree(rest, ": ");
      Some(Split(rest, ": ")[0])
  }

  /** What a scan makes of one record's text. */
  datatype Reading =
    | NotPending              // no pending marker: skipped
    | Pending(task: Task)     // house and work type as the record spells them, unstripped
    | Malformed               // pending, but `lines[1]` or `split(": ")[1]` raises `IndexError`

  /** `content.split("\n")` and the first two lines' values, for a record in `dir`. */
  function ReadRecord(content: string, dir: string): (r: Reading)
    ensures r.Pending? ==> r.task.path == dir
    ensures r.NotPending? <==> !Contains(content, PendingMark)
  {
    if !Contains(content, PendingMark) then NotPending
    else
      var lines := Split(content, "\n");
      if |lines| < 2 then Malformed
      else match (AfterColon(lines[0]), AfterColon(lines[1]))
        case (Some(h), Some(w)) => Pending(Task(h, w, dir))
        case _ => Malformed
  }

  /** The `.strip()` the tolerant scan applies to both values. */
  function Cleaned(t: Task): Task
  {
    Task(Strip(t.house), Strip(t.workType), t.path)
  }

  /** The tasks the tolerant scan takes from directory `dir`: errors are caught and the record skipped. */
  function TasksAt(files: map<string, string>, dir: string): seq<Task>
  {
    if ReportFile(dir) !in files then []
    else match ReadRecord(files[ReportFile(dir)], dir)
      case Pending(t) => [Cleaned(t)]
      case _ => []
  }

  /** What each directory contributes to the scan. */
  function PerDirectory(files: map<string, string>): string -> seq<Task>
  {
    dir => TasksAt(files, dir)
  }

  /** The contributions of the directories, in walk order. */
  function Gather(per: string -> seq<Task>, walk: seq<string>): seq<Task>
  {
    if walk == [] then [] else Gather(per, walk[..|walk| - 1]) + per(walk[|walk| - 1])
  }

  /** `get_unfinished_tasks` of `tg_v8_work.py`, `tg_v9_work.py`, `tg_v10.py`, over the directories in walk order. */
  function UnfinishedTasks(files: map<string, string>, walk: seq<string>): seq<Task>
  {
    Gather(PerDirectory(files), walk)
  }

  /** What a walked directory contributes is gathered. */
  lemma {:induction false} GatheredFrom(per: string -> seq<Task>, walk: seq<string>, i: nat, t: Task)
    requires i < |walk| && t in per(walk[i])
    ensures t in Gather(per, walk)
    decreases |walk|
  {
    var init := walk[..|walk| - 1];
    if i < |init| {
      assert init[i] == walk[i];
      GatheredFrom(per, init, i, t);
    }
  }

  /** Everything gathered was contributed by a walked directory. */
  lemma {:induction false} GatheredOnlyFrom(per: string -> seq<Task>, walk: seq<string>, t: Task) returns (i: nat)
    requires t in Gather(per, walk)
    ensures i < |walk| && t in per(walk[i])
    decreases |walk|
  {
    var init := walk[..|walk| - 1];
    if t in per(walk[|walk| - 1]) {
      i := |walk| - 1;
    } else {
      i := GatheredOnlyFrom(per, init, t);
      assert init[i] == walk[i];
    }
  }

  /** The nested `os.walk` loop appending to `unfinished_tasks`. */
  method GetUnfinishedTasks(files: map<string, string>, walk: seq<string>) returns (tasks: seq<Task>)
    ensures tasks == UnfinishedTasks(files, walk)
  {
    tasks := [];
    var i := 0;
    while i < |walk|
      invariant 0 <= i <= |walk|
      invariant tasks == UnfinishedTasks(files, walk[..i])
    {
      var dir := walk[i];
      var path := ReportFile(dir);
      if path in files {
        var r := ReadRecord(files[path], dir);
        if r.Pending? {
          tasks := tasks + [Cleaned(r.task)];
        }
      }
      assert walk[..i + 1][..i] == walk[..i];
      i := i + 1;
    }
    assert walk[..i] == walk;
  }

  /** A directory contributes a task exactly when its record is pending and well-formed. */
  lemma {:induction false} TasksAtSpec(files: map<string, string>, dir: string, t: Task)
    ensures t in TasksAt(files, dir) <==>
      ReportFile(dir) in files && ReadRecord(files[ReportFile(dir)], dir).Pending?
      && t == Cleaned(ReadRecord(files[ReportFile(dir)], dir).task)
  {
  }

  /** What a walked directory contributes is listed. */
  lemma {:induction false} ListedFrom(files: map<string, string>, walk: seq<string>, i: nat, t: Task)
    requires i < |walk| && t in TasksAt(files, walk[i])
    ensures t in UnfinishedTasks(files, walk)
  {
    GatheredFrom(PerDirectory(files), walk, i, t);
  }

  /** Everything listed was contributed by a walked directory. */
  lemma {:induction false} ListedOnlyFrom(files: map<string, string>, walk: seq<string>, t: Task) returns (i: nat)
    requires t in UnfinishedTasks(files, walk)
    ensures i < |walk| && t in TasksAt(files, walk[i])
  {
    i := GatheredOnlyFrom(PerDirectory(files), walk, t);
  }

  /** A directory that is walked and holds a pending, well-formed record is listed. */
  lemma {:induction false} PendingRecordListed(files: map<string, string>, walk: seq<string>, i: nat, t: Task)
    requires i < |walk| && ReportFile(walk[i]) in files
    requires ReadRecord(files[ReportFile(walk[i])], walk[i]) == Pending(t)
    ensures Cleaned(t) in UnfinishedTasks(files, walk)
  {
    TasksAtSpec(files, walk[i], Cleaned(t));
    ListedFrom(files, walk, i, Cleaned(t));
  }

  /** The outcome of the raw scan of `tg_v4.py` and `tg_v5.py`, which has no `try`. */
  datatype Scan = Scanned(tasks: seq<Task>) | ScanRaised

  /** `check_unfinished` of `tg_v4.py` and `tg_v5.py`: values unstripped, a malformed pending record raises. */
  function RawScan(files: map<string, string>, walk: seq<string>): Scan
  {
    if walk == [] then Scanned([])
    else match RawScan(files, walk[..|walk| - 1])
      case ScanRaised => ScanRaised
      case Scanned(ts) =>
        var dir := walk[|walk| - 1];
        if ReportFile(dir) !in files then Scanned(ts)
        else match ReadRecord(files[ReportFile(dir)], dir)
          case NotPending => Scanned(ts)
          case Pending(t) => Scanned(ts + [t])
          case Malformed => ScanRaised
  }

  /** The `os.walk` loop of `check_unfinished`, stopping at the first exception. */
  method CheckUnfinished(files: map<string, string>, walk: seq<string>) returns (r: Scan)
    ensures r == RawScan(files, walk)
  {
    var tasks: seq<Task> := [];
    var i := 0;
    while i < |walk|
      invariant 0 <= i <= |walk|
      invariant RawScan(files, walk[..i]) == Scanned(tasks)
    {
      var dir := walk[i];
      var path := ReportFile(dir);
      assert walk[..i + 1][..i] == walk[..i];
      if path in files {
        var rd := ReadRecord(files[path], dir);
        if rd.Malformed? {
          RawScanRaisedStays(files, walk, i + 1);
          assert walk[..|walk|] == walk;
          return ScanRaised;
        }
        if rd.Pending? {
          tasks := tasks + [rd.task];
        }
      }
      i := i + 1;
    }
    assert walk[..i] == walk;
    r := Scanned(tasks);
  }

  /** Once the raw scan has raised, it stays raised for the rest of the walk. */
  lemma {:induction false} RawScanRaisedStays(files: map<string, string>, walk: seq<string>, i: nat)
    requires i <= |walk| && RawScan(files, walk[..i]) == ScanRaised
    ensures RawScan(files, walk) == ScanRaised
    decreases |walk| - i
  {
    if i < |walk| {
      assert walk[..i + 1][..i] == walk[..i];
      RawScanRaisedStays(files, walk, i + 1);
    } else {
      assert walk[..i] == walk;
    }
  }

  /**
    * Where the raw scan of `tg_v4.py`/`tg_v5.py` does not raise, the
    * tolerant scan of the later versions lists the same tasks, stripped.
    */
  lemma {:induction false} RawScanAgrees(files: map<string, string>, walk: seq<string>)
    requires RawScan(files, walk).Scanned?
    ensures UnfinishedTasks(files, walk) == seq(|RawScan(files, walk).tasks|, k requires 0 <= k < |RawScan(files, walk).tasks| => Cleaned(RawScan(files, walk).tasks[k]))
    decreases |walk|
  {
    if walk != [] {
      var init := walk[..|walk| - 1];
      RawScanAgrees(files, init);
    }
  }

  /** The raw scan raises exactly when some listed record is pending but malformed. */
  lemma {:induction false} RawScanRaises(files: map<string, string>, walk: seq<string>)
    ensures RawScan(files, walk).ScanRaised? <==>
      exists i :: 0 <= i < |walk| && ReportFile(walk[i]) in files
        && ReadRecord(files[ReportFile(walk[i])], walk[i]).Malformed?
    decreases |walk|
  {
    if walk != [] {
      var init := walk[..|walk| - 1];
      RawScanRaises(files, init);
      forall i | 0 <= i < |init|
        ensures init[i] == walk[i]
      {
      }
    }
  }

  // ---------------------------------------------------------------------
  // Round trips between the writers and the scans.

  /** Neither label holds a colon or a newline. */
  lemma {:induction false} LabelsPlain()
    ensures ':' !in HouseLabel && '\n' !in HouseLabel
    ensures ':' !in WorkLabel && '\n' !in WorkLabel
  {
  }

  /** A label has no `:`, so the value is the text after the label's `": "`. */
  lemma {:induction false} AfterLabel(name: string, value: string)
    requires ':' !in name && !Contains(value, ": ")
    ensures AfterColon(name + ": " + value) == Some(value)
  {
    var line := name + ": " + value;
    SplitAfterHead(name, ": ", value);
    SplitWithoutSeparator(value, ": ");
    SplitHasSecond(line, ": ");
  }

  /** The first two pieces of `content.split("\n")` when the text starts with two newline-free lines. */
  lemma {:induction false} TwoLines(l0: string, l1: string, rest: string)
    requires '\n' !in l0 && '\n' !in l1
    ensures var lines := Split(l0 + "\n" + (l1 + "\n" + rest), "\n");
      |lines| >= 2 && lines[0] == l0 && lines[1] == l1
  {
    SplitAfterHead(l0, "\n", l1 + "\n" + rest);
    SplitAfterHead(l1, "\n", rest);
  }

  /** A pending text whose first two lines carry values is read as that task. */
  lemma {:induction false} ReadTwoLines(c: string, l0: string, l1: string, rest: string, house: string, work: string, dir: string)
    requires c == l0 + "\n" + (l1 + "\n" + rest)
    requires '\n' !in l0 && '\n' !in l1
    requires AfterColon(l0) == Some(house) && AfterColon(l1) == Some(work)
    requires Contains(c, PendingMark)
    ensures ReadRecord(c, dir) == Pending(Task(house, work, dir))
  {
    TwoLines(l0, l1, rest);
  }

  /** What follows still holds the marker. */
  lemma {:induction false} MarkInTail(x: string, y: string)
    requires Contains(y, PendingMark)
    ensures Contains(x + y, PendingMark)
  {
    var p :| 0 <= p <= |y| - |PendingMark| && OccursAt(y, PendingMark, p);
    assert (x + y)[|x|..] == y;
    OccursInSuffix(x + y, PendingMark, |x|, p);
  }

  /** What precedes still holds the marker. */
  lemma {:induction false} MarkInHead(x: string, y: string)
    requires Contains(x, PendingMark)
    ensures Contains(x + y, PendingMark)
  {
    var p :| 0 <= p <= |x| - |PendingMark| && OccursAt(x, PendingMark, p);
    assert (x + y)[..|x|] == x;
    OccursInPrefix(x + y, PendingMark, |x|, p);
  }

  /**
    * A record whose first two lines are the house and work-type fields,
    * followed by anything holding the pending marker, is read back as a
    * pending task with those values, provided neither value holds a newline
    * or `": "`.
    */
  lemma {:induction false} ReadWrittenRecord(house: string, work: string, rest: string, dir: string)
    requires '\n' !in house && '\n' !in work
    requires !Contains(house, ": ") && !Contains(work, ": ")
    requires Contains(rest, PendingMark)
    ensures ReadRecord(Field(HouseLabel, house) + Field(WorkLabel, work) + rest, dir) == Pending(Task(house, work, dir))
  {
    LabelsPlain();
    var l0 := HouseLabel + ": " + house;
    var l1 := WorkLabel + ": " + work;
    var c := Field(HouseLabel, house) + Field(WorkLabel, work) + rest;
    assert c == l0 + "\n" + (l1 + "\n" + rest);
    AfterLabel(HouseLabel, house);
    AfterLabel(WorkLabel, work);
    MarkInTail(Field(HouseLabel, house) + Field(WorkLabel, work), rest);
    ReadTwoLines(c, l0, l1, rest, house, work, dir);
  }

  lemma {:induction false} PendingLineHasMark()
    ensures Contains(PendingLine, PendingMark)
  {
    assert OccursAt(PendingLine, PendingMark, 8);
  }

  lemma {:induction false} DoneLineClean()
    ensures !Contains(DoneLine, PendingMark)
  {
    forall i | 0 <= i <= |DoneLine| - |PendingMark| && OccursAt(DoneLine, PendingMark, i)
      ensures false
    {
      OccursAtChar(DoneLine, PendingMark, i, 0);
    }
  }

  /** The fresh record of `tg_v8_work.py` and `tg_v10.py` reads back as a pending task with the values written. */
  lemma {:induction false} ReadPendingRecord(house: string, work: string, data: string, dir: string)
    requires '\n' !in house && '\n' !in work
    requires !Contains(house, ": ") && !Contains(work, ": ")
    ensures ReadRecord(PendingRecord(house, work, data), dir) == Pending(Task(house, work, dir))
  {
    var rest := Field(DataLabel, data) + PendingLine;
    PendingLineHasMark();
    MarkInTail(Field(DataLabel, data), PendingLine);
    ReadWrittenRecord(house, work, rest, dir);
  }

  /** The same for the five-line record of `tg_v9_work.py`. */
  lemma {:induction false} ReadPendingRecordUk(house: string, work: string, data: string, monthYear: string, dir: string)
    requires '\n' !in house && '\n' !in work
    requires !Contains(house, ": ") && !Contains(work, ": ")
    ensures ReadRecord(PendingRecordUk(house, work, data, monthYear), dir) == Pending(Task(house, work, dir))
  {
    var mid := Field(DataLabel, data) + PendingLine;
    var rest := mid + UkLine(monthYear);
    PendingLineHasMark();
    MarkInTail(Field(DataLabel, data), PendingLine);
    MarkInHead(mid, UkLine(monthYear));
    ReadWrittenRecord(house, work, rest, dir);
  }

  /**
    * A record written by `handle_photo_before` of `tg_v8_work.py` or
    * `tg_v10.py` is listed among the unfinished tasks with the same house
    * and work type, stripped, once its directory is walked.
    */
  lemma {:induction false} WrittenRecordListed(files: map<string, string>, walk: seq<string>, i: nat,
                                               house: string, work: string, data: string)
    requires i < |walk| && ReportFile(walk[i]) in files
    requires files[ReportFile(walk[i])] == PendingRecord(house, work, data)
    requires '\n' !in house && '\n' !in work
    requires !Contains(house, ": ") && !Contains(work, ": ")
    ensures Task(Strip(house), Strip(work), walk[i]) in UnfinishedTasks(files, walk)
  {
    ReadPendingRecord(house, work, data, walk[i]);
    PendingRecordListed(files, walk, i, Task(house, work, walk[i]));
  }

  /** The same for the five-line record of `tg_v9_work.py`. */
  lemma {:induction false} WrittenRecordUkListed(files: map<string, string>, walk: seq<string>, i: nat,
                                                 house: string, work: string, data: string, monthYear: string)
    requires i < |walk| && ReportFile(walk[i]) in files
    requires files[ReportFile(walk[i])] == PendingRecordUk(house, work, data, monthYear)
    requires '\n' !in house && '\n' !in work
    requires !Contains(house, ": ") && !Contains(work, ": ")
    ensures Task(Strip(house), Strip(work), walk[i]) in UnfinishedTasks(files, walk)
  {
    ReadPendingRecordUk(house, work, data, monthYear, walk[i]);
    PendingRecordListed(files, walk, i, Task(house, work, walk[i]));
  }

  /** The deferred three-line record of `tg_v4.py` is read as pending, values as written. */
  lemma {:induction false} ShortRecordPending(house: string, work: string, dir: string)
    requires '\n' !in house && '\n' !in work
    requires !Contains(house, ": ") && !Contains(work, ": ")
    ensures ReadRecord(ShortRecord(house, work, PendingLine), dir) == Pending(Task(house, work, dir))
  {
    PendingLineHasMark();
    ReadWrittenRecord(house, work, PendingLine, dir);
  }

  /** Marked or kept, every line of a completed record is free of the pending marker. */
  lemma {:induction false} MarkDoneClean(ls: seq<string>)
    ensures forall k :: 0 <= k < |ls| ==> !Contains(MarkDone(ls)[k], PendingMark)
  {
    DoneLineClean();
  }

  /** The completion keeps lines well-formed: a replaced line is the terminated done line. */
  lemma {:induction false} MarkDoneSeparated(ls: seq<string>)
    requires Separated(ls)
    ensures Separated(MarkDone(ls))
  {
  }

  /**
    * After the completion rewrite the record no longer holds the pending
    * marker, whatever it held before, so no scan lists it.
    */
  lemma {:induction false} CompletedRecordNotPending(content: string, dir: string)
    ensures ReadRecord(Concat(MarkDone(ReadLines(content))), dir) == NotPending
  {
    var ls := ReadLines(content);
    ReadLinesWellFormed(content);
    MarkDoneSeparated(ls);
    MarkDoneClean(ls);
    ContainsInLines(MarkDone(ls), PendingMark);
  }

  /** The same for the completion of `tg_v9_work.py`, whose appended line is free of the marker. */
  lemma {:induction false} CompletedUkRecordNotPending(content: string, monthYear: string, dir: string)
    requires DateStamp(monthYear)
    ensures ReadRecord(Concat(CompleteUk(ReadLines(content), monthYear)), dir) == NotPending
  {
    var ls := ReadLines(content);
    CompletedRecordNotPending(content, dir);
    if !HasUk(ls) {
      var a := Concat(MarkDone(ls));
      var u := UkLine(monthYear);
      ConcatSnoc(MarkDone(ls), u);
      UkLineClean(monthYear);
      StraddleUk(a, monthYear);
    } else {
      assert MarkDone(ls) + [] == MarkDone(ls);
    }
  }

  /** Facts about the fixed texts the next proofs use character by character. */
  lemma {:induction false} FixedTexts()
    ensures |PendingMark| == 12 && PendingMark[7] == 'л' && PendingMark[11] == 'о' && 'у' !in PendingMark
    ensures 'л' !in UkHead && |UkHead| > 0 && UkHead[0] == 'у'
  {
  }

  /**
    * The management-company line never holds the marker: its fixed text
    * has no 'л', and an occurrence reaching into the date stamp would have
    * to match the marker's last letter 'о' against a digit, a dot or the
    * newline.
    */
  lemma {:induction false} UkLineClean(monthYear: string)
    requires DateStamp(monthYear)
    ensures !Contains(UkLine(monthYear), PendingMark)
  {
    var u := UkLine(monthYear);
    FixedTexts();
    forall i | 0 <= i <= |u| - |PendingMark| && OccursAt(u, PendingMark, i)
      ensures false
    {
      if i + 11 < |UkHead| {
        OccursAtChar(u, PendingMark, i, 7);
      } else {
        OccursAtChar(u, PendingMark, i, 11);
      }
    }
  }

  /**
    * The marker cannot occur in a marker-free text followed by the
    * management-company line: the line is clean, and an occurrence across
    * the seam would have to match the line's first letter 'у', which the
    * marker does not contain.
    */
  lemma {:induction false} StraddleUk(a: string, monthYear: string)
    requires DateStamp(monthYear) && !Contains(a, PendingMark)
    ensures !Contains(a + UkLine(monthYear), PendingMark)
  {
    var u := UkLine(monthYear);
    var s := a + u;
    var m := |PendingMark|;
    forall p | 0 <= p <= |s| - m && OccursAt(s, PendingMark, p)
      ensures false
    {
      OccursInConcat(a, u, PendingMark, p);
      if p >= |a| {
        UkLineClean(monthYear);
      } else if p + m > |a| {
        FixedTexts();
      }
    }
  }

  /** The deferral rewrite is idempotent: applying it to its own output changes nothing. */
  lemma {:induction false} MarkPendingIdempotent(content: string)
    ensures var once := Concat(MarkPending(ReadLines(content)));
      Concat(MarkPending(ReadLines(once))) == once
  {
    var ls := ReadLines(content);
    ReadLinesWellFormed(content);
    var ps := MarkPending(ls);
    assert IsLine(PendingLine) && Terminated(PendingLine);
    assert WellFormed(ps);
    ConcatReadLines(ps);
    assert Contains(PendingLine, StatusTag) by {
      assert OccursAt(PendingLine, StatusTag, 0);
    }
    assert MarkPending(ps) == ps;
  }

  lemma {:induction false} UkTagPlain()
    ensures |UkTag| > 0 && '\n' !in UkTag
  {
  }

  /** Text holding the management-company tag has a line holding it. */
  lemma {:induction false} UkTagInLines(c: string)
    requires Contains(c, UkTag)
    ensures HasUk(ReadLines(c))
  {
    var ls := ReadLines(c);
    ReadLinesWellFormed(c);
    ReadLinesConcat(c);
    UkTagPlain();
    ContainsInLines(ls, UkTag);
  }

  /**
    * The completed record holds the management-company tag: either a line
    * already had it and was kept, or it was appended. (A line holding both
    * the tag and the pending marker would be replaced by the done line, so
    * such records are excluded.)
    */
  lemma {:induction false} CompletedHasUk(ls: seq<string>, monthYear: string)
    requires forall k :: 0 <= k < |ls| ==> !(Contains(ls[k], UkTag) && Contains(ls[k], PendingMark))
    ensures Contains(Concat(CompleteUk(ls, monthYear)), UkTag)
  {
    var out := CompleteUk(ls, monthYear);
    if HasUk(ls) {
      var k :| 0 <= k < |ls| && Contains(ls[k], UkTag);
      assert MarkDone(ls)[k] == ls[k];
      assert out == MarkDone(ls) + [];
      ContainedLine(out, k, UkTag);
    } else {
      var u := UkLine(monthYear);
      assert OccursAt(u, UkTag, 0);
      assert out[|ls|] == u;
      ContainedLine(out, |ls|, UkTag);
    }
  }

  /**
    * The completion of `tg_v9_work.py` appends at most one
    * management-company line: once it has run, a second completion finds
    * the line and only marks lines done.
    */
  lemma {:induction false} UkAppendedOnce(content: string, monthYear: string, monthYear2: string)
    requires forall k :: 0 <= k < |ReadLines(content)| ==>
      !(Contains(ReadLines(content)[k], UkTag) && Contains(ReadLines(content)[k], PendingMark))
    ensures var once := Concat(CompleteUk(ReadLines(content), monthYear));
      HasUk(ReadLines(once))
      && CompleteUk(ReadLines(once), monthYear2) == MarkDone(ReadLines(once))
  {
    var once := Concat(CompleteUk(ReadLines(content), monthYear));
    CompletedHasUk(ReadLines(content), monthYear);
    UkTagInLines(once);
    assert MarkDone(ReadLines(once)) + [] == MarkDone(ReadLines(once));
  }

  // ---------------------------------------------------------------------
  // Reading a record back in `tg_v5.py`.

  /**
    * `extract_report_data` of `tg_v5.py`: of each of the record's first
    * two lines, as `readlines` returns them, the text between the first
    * `": "` and the next one (or the line's end), stripped; `None` where the file is missing or Python raises
    * `IndexError` (both caught and reported as `(None, None)`).
    */
  function ExtractReportData(files: map<string, string>, dir: string): (r: Option<(string, string)>)
    ensures r.None? <==>
      ReportFile(dir) !in files || |ReadLines(files[ReportFile(dir)])| < 2
      || !Contains(ReadLines(files[ReportFile(dir)])[0], ": ")
      || !Contains(ReadLines(files[ReportFile(dir)])[1], ": ")
    ensures r.Some? ==>
      r.value.0 == Strip(AfterColon(ReadLines(files[ReportFile(dir)])[0]).value)
      && r.value.1 == Strip(AfterColon(ReadLines(files[ReportFile(dir)])[1]).value)
  {
    if ReportFile(dir) !in files then None
    else
      var lines := ReadLines(files[ReportFile(dir)]);
      if |lines| < 2 then None
      else match (AfterColon(lines[0]), AfterColon(lines[1]))
        case (Some(h), Some(w)) => Some((Strip(h), Strip(w)))
        case _ => None
  }

  /** A field line is one terminated line of `readlines`. */
  lemma {:induction false} FieldIsLine(name: string, value: string)
    requires '\n' !in name && '\n' !in value
    ensures IsLine(Field(name, value)) && Terminated(Field(name, value))
  {
    var l := Field(name, value);
    assert l[..|l| - 1] == name + ": " + value;
  }

  /** `readlines` of a text that starts with the house and work-type fields. */
  lemma {:induction false} TwoFieldLines(house: string, work: string, rest: string)
    requires '\n' !in house && '\n' !in work
    ensures ReadLines(Field(HouseLabel, house) + Field(WorkLabel, work) + rest)
            == [Field(HouseLabel, house), Field(WorkLabel, work)] + ReadLines(rest)
  {
    LabelsPlain();
    var f0 := Field(HouseLabel, house);
    var f1 := Field(WorkLabel, work);
    FieldIsLine(HouseLabel, house);
    FieldIsLine(WorkLabel, work);
    var c := f0 + f1 + rest;
    assert c == f0 + (f1 + rest);
    FirstNewline(f0, f1 + rest);
    ReadLinesStep(c, |f0| - 1);
    assert c[..|f0|] == f0 && c[|f0|..] == f1 + rest;
    FirstNewline(f1, rest);
    ReadLinesStep(f1 + rest, |f1| - 1);
    assert (f1 + rest)[..|f1|] == f1 && (f1 + rest)[|f1|..] == rest;
  }

  /** A text without `": "` gains none from a newline after it. */
  lemma {:induction false} NewlineAddsNoColon(v: string)
    requires !Contains(v, ": ")
    ensures !Contains(v + "\n", ": ")
  {
    var t := v + "\n";
    if Contains(t, ": ") {
      var p :| 0 <= p <= |t| - 2 && OccursAt(t, ": ", p);
      if p + 2 <= |v| {
        assert t[p..p + 2] == v[p..p + 2];
        assert OccursAt(v, ": ", p);
      } else {
        OccursAtChar(t, ": ", p, 1);
        assert false;
      }
    }
  }

  /** The field line's value is read back, trailing newline stripped. */
  lemma {:induction false} FieldValueBack(name: string, value: string)
    requires ':' !in name && !Contains(value, ": ")
    ensures AfterColon(Field(name, value)).Some?
    ensures Strip(AfterColon(Field(name, value)).value) == Strip(value)
  {
    NewlineAddsNoColon(value);
    assert Field(name, value) == name + ": " + (value + "\n");
    AfterLabel(name, value + "\n");
    StripTrailingSpace(value, '\n');
  }

  /**
    * A record that starts with the house and work-type fields is read back
    * by `extract_report_data` as those values, stripped, provided neither
    * holds a newline or `": "`.
    */
  lemma {:induction false} ExtractWrittenRecord(files: map<string, string>, dir: string, house: string, work: string, rest: string)
    requires ReportFile(dir) in files
    requires files[ReportFile(dir)] == Field(HouseLabel, house) + Field(WorkLabel, work) + rest
    requires '\n' !in house && '\n' !in work
    requires !Contains(house, ": ") && !Contains(work, ": ")
    ensures ExtractReportData(files, dir) == Some((Strip(house), Strip(work)))
  {
    LabelsPlain();
    TwoFieldLines(house, work, rest);
    FieldValueBack(HouseLabel, house);
    FieldValueBack(WorkLabel, work);
  }

  /**
    * The after-photo rewrite keeps the house and work-type lines of such a
    * record when neither holds the pending marker, so the data read back
    * after it are the values written.
    */
  lemma {:induction false} ExtractAfterMarkDone(files: map<string, string>, dir: string, house: string, work: string, rest: string)
    requires '\n' !in house && '\n' !in work
    requires !Contains(house, ": ") && !Contains(work, ": ")
    requires !Contains(Field(HouseLabel, house), PendingMark) && !Contains(Field(WorkLabel, work), PendingMark)
    ensures ExtractReportData(files[ReportFile(dir) := RewrittenDone(Field(HouseLabel, house) + Field(WorkLabel, work) + rest)], dir)
            == Some((Strip(house), Strip(work)))
  {
    var f0 := Field(HouseLabel, house);
    var f1 := Field(WorkLabel, work);
    var tail := Concat(MarkDone(ReadLines(rest)));
    assert RewrittenDone(f0 + f1 + rest) == f0 + f1 + tail by {
      TwoFieldLines(house, work, rest);
      var tl := ReadLines(rest);
      assert [f0, f1] + tl == [f0] + ([f1] + tl);
      MarkDoneKeeps(f0, [f1] + tl);
      MarkDoneKeeps(f1, tl);
    }
    ExtractWrittenRecord(files[ReportFile(dir) := f0 + f1 + tail], dir, house, work, tail);
  }

  /** A line without the pending marker is written back unchanged. */
  lemma {:induction false} MarkDoneKeeps(l: string, ls: seq<string>)
    requires !Contains(l, PendingMark)
    ensures Concat(MarkDone([l] + ls)) == l + Concat(MarkDone(ls))
  {
    var md := MarkDone([l] + ls);
    assert md[0] == l;
    assert md[1..] == MarkDone(ls);
  }

  /**
    * A record that `tg_v4.py` defers is completed by the after-photo
    * handler of `tg_v5.py`: the data read back afterwards are the values
    * written, and no scan lists the record again.
    */
  lemma {:induction false} DeferredRecordCompleted(files: map<string, string>, dir: string, house: string, work: string)
    requires '\n' !in house && '\n' !in work
    requires !Contains(house, ": ") && !Contains(work, ": ")
    requires !Contains(Field(HouseLabel, house), PendingMark) && !Contains(Field(WorkLabel, work), PendingMark)
    ensures var done := RewrittenDone(ShortRecord(house, work, PendingLine));
      ExtractReportData(files[ReportFile(dir) := done], dir) == Some((Strip(house), Strip(work)))
      && ReadRecord(done, dir) == NotPending
  {
    ExtractAfterMarkDone(files, dir, house, work, PendingLine);
    CompletedRecordNotPending(ShortRecord(house, work, PendingLine), dir);
  }
}

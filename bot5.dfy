/**
  * `tg_v5.py`: a bot that only completes unfinished work. Starting, or
  * typing anything while a house is expected, scans the records for
  * pending tasks; a chosen task's directory receives the photo after, the
  * record is marked done, and the house read back from it gets a new
  * report directory. `/check_unfinished` runs the same scan outside the
  * conversation.
  */
module BotV5 {
  import opened Strings
  import opened Numbers
  import opened Lines
  import opened Records
  import opened ReportDirs
  import opened Menus
  import opened Conversation

  datatype Step =
    | SelectingHouse | SelectingWorkType | ReceivingPhotoBefore
    | ChoosingAction | ReceivingTaskNumber | ReceivingPhotoAfter

  /** The callbacks registered in `main()`. */
  datatype Handler =
    | OnStart | OnHouse(text: string) | OnWorkType(text: string) | OnPhotoBefore
    | OnAction(text: string) | OnTaskNumber(text: string) | OnPhotoAfter

  function StateOf(h: Handler): Step
  {
    match h
    case OnStart => SelectingHouse
    case OnHouse(_) => SelectingHouse
    case OnWorkType(_) => SelectingWorkType
    case OnPhotoBefore => ReceivingPhotoBefore
    case OnAction(_) => ChoosingAction
    case OnTaskNumber(_) => ReceivingTaskNumber
    case OnPhotoAfter => ReceivingPhotoAfter
  }

  /** The command registered beside the conversation handler. */
  const CheckCommand := "check_unfinished"

  /** The conversation handler of `main()`: `/start` as entry point, no fallbacks. */
  function Route(p: Phase<Step>, u: Update): (r: Option<Handler>)
    ensures p.Idle? ==> (r.Some? <==> u == Command("start"))
    ensures p.Active? && u.Command? ==> r.None?
    ensures u == Command(CheckCommand) ==> r.None?
    ensures r.Some? && !r.value.OnStart? ==> p == Active(StateOf(r.value))
    ensures r == Some(OnStart) ==> p.Idle?
  {
    match p
    case Idle => if u == Command("start") then Some(OnStart) else None
    case Active(s) =>
      match (s, u)
      case (SelectingHouse, Text(t)) => Some(OnHouse(t))
      case (SelectingWorkType, Text(t)) => Some(OnWorkType(t))
      case (ReceivingPhotoBefore, Photo) => Some(OnPhotoBefore)
      case (ChoosingAction, Text(t)) => Some(OnAction(t))
      case (ReceivingTaskNumber, Text(t)) => Some(OnTaskNumber(t))
      case (ReceivingPhotoAfter, Photo) => Some(OnPhotoAfter)
      case _ => None
  }

  /** Python's truth value of the stored task list: present and non-empty. */
  predicate HasTasks(s: Session)
  {
    s.unfinishedTasks.Some? && s.unfinishedTasks.value != []
  }

  /** How the PDF step of `handle_photo_after` ends; a failed send is only logged. */
  function PdfStep(env: Env, photos: set<string>, dir: string): Outcome<Step>
  {
    if !env.fontOk || PathIn(dir, BeforePhoto) !in photos then Raised
    else if !env.pdfOk then End
    else Goto(SelectingHouse)
  }

  class Bot {
    var phase: Phase<Step>
    var session: Session
    var disk: Disk

    constructor (disk: Disk)
      ensures this.disk == disk && phase == Idle && session == EmptySession
      ensures Reachable()
    {
      this.disk := disk;
      phase := Idle;
      session := EmptySession;
    }

    /** `Reachable()` with the conversation in phase `p`. */
    ghost predicate ReachableAt(p: Phase<Step>)
      reads this
    {
      p != Active(SelectingWorkType) && p != Active(ReceivingPhotoBefore)
      && (session.reportDir.Some? ==> session.reportDir.value in disk.dirs)
      && (session.unfinishedTasks.Some? ==> session.unfinishedTasks.value != [])
      && (p == Active(ChoosingAction) || p == Active(ReceivingTaskNumber) ==> HasTasks(session))
      && (p == Active(ReceivingPhotoAfter) ==> session.currentReportDir.Some?)
    }

    /**
      * What holds in every state the conversation reaches: no handler
      * leads to the work-type step or to the photo before; a stored task
      * list is never empty and exists whenever an action or a task number
      * is awaited; a photo after is awaited only for a chosen directory.
      */
    ghost predicate Reachable()
      reads this
    {
      ReachableAt(phase)
    }

    /**
      * `check_unfinished`: the raw scan of all records. A scan that
      * finds nothing stores nothing, so a list stored earlier is kept.
      */
    method CheckUnfinishedTasks(env: Env) returns (o: Outcome<Step>)
      modifies this`session
      ensures RawScan(disk.files, env.walk).ScanRaised? ==> o == Raised && session == old(session)
      ensures RawScan(disk.files, env.walk) == Scanned([]) ==> o == Goto(SelectingHouse) && session == old(session)
      ensures RawScan(disk.files, env.walk).Scanned? && RawScan(disk.files, env.walk).tasks != [] ==>
        o == Goto(ChoosingAction) && session == old(session).(unfinishedTasks := Some(RawScan(disk.files, env.walk).tasks))
    {
      var scan := CheckUnfinished(disk.files, env.walk);
      if scan.ScanRaised? {
        return Raised;
      }
      if scan.tasks == [] {
        return Goto(SelectingHouse);
      }
      session := session.(unfinishedTasks := Some(scan.tasks));
      o := Goto(ChoosingAction);
    }

    /**
      * `select_house` (and `start`, which calls it): runs the scan, then
      * offers the action menu whenever a task list is stored, found now or
      * earlier, and asks for a house otherwise. The text typed is not read.
      */
    method SelectHouse(env: Env) returns (o: Outcome<Step>)
      modifies this`session
      ensures RawScan(disk.files, env.walk).ScanRaised? ==> o == Raised && session == old(session)
      ensures RawScan(disk.files, env.walk).Scanned? ==>
        session == (if RawScan(disk.files, env.walk).tasks == [] then old(session)
                    else old(session).(unfinishedTasks := Some(RawScan(disk.files, env.walk).tasks)))
        && o == (if HasTasks(session) then Goto(ChoosingAction) else Goto(SelectingHouse))
    {
      var checked := CheckUnfinishedTasks(env);
      if checked.Raised? {
        return Raised;
      }
      if HasTasks(session) {
        o := Goto(ChoosingAction);
      } else {
        o := Goto(SelectingHouse);
      }
    }

    /** `choose_action`: continue with a task number, or start over with a new scan. */
    method ChooseAction(text: string, env: Env) returns (o: Outcome<Step>)
      modifies this`session
      ensures text == ContinueTask ==> o == Goto(ReceivingTaskNumber) && session == old(session)
      ensures text == StartNew ==>
        (RawScan(disk.files, env.walk).ScanRaised? ==> o == Raised && session == old(session))
        && (RawScan(disk.files, env.walk).Scanned? ==>
              session == (if RawScan(disk.files, env.walk).tasks == [] then old(session)
                          else old(session).(unfinishedTasks := Some(RawScan(disk.files, env.walk).tasks)))
              && o == (if HasTasks(session) then Goto(ChoosingAction) else Goto(SelectingHouse)))
      ensures text != ContinueTask && text != StartNew ==> o == Stay && session == old(session)
    {
      ButtonsDistinct();
      if text == ContinueTask {
        o := Goto(ReceivingTaskNumber);
      } else if text == StartNew {
        o := SelectHouse(env);
      } else {
        o := Stay;
      }
    }

    /**
      * `receive_task_number`: a number from 1 to the number of stored
      * tasks chooses that task's directory; anything else asks again.
      */
    method TaskNumber(text: string) returns (o: Outcome<Step>)
      modifies this`session
      ensures var tasks := if old(session).unfinishedTasks.Some? then old(session).unfinishedTasks.value else [];
        (ChosenIndex(text, |tasks|).None? ==> o == Goto(ReceivingTaskNumber) && session == old(session))
        && (ChosenIndex(text, |tasks|).Some? ==>
              o == Goto(ReceivingPhotoAfter)
              && session == old(session).(currentReportDir := Some(tasks[ChosenIndex(text, |tasks|).value].path)))
    {
      var tasks := if session.unfinishedTasks.Some? then session.unfinishedTasks.value else [];
      var choice := ParseInt(text);
      if choice.None? || choice.value < 1 || choice.value > |tasks| {
        return Goto(ReceivingTaskNumber);
      }
      session := session.(currentReportDir := Some(tasks[choice.value - 1].path));
      o := Goto(ReceivingPhotoAfter);
    }

    /**
      * `handle_photo_after`: saves `после.jpg` into the chosen directory,
      * marks the record's pending lines done (a missing record is only
      * logged), reads house and work type back from it, builds and sends
      * the PDF and allocates a new directory for the house read back.
      */
    method PhotoAfter(env: Env) returns (o: Outcome<Step>)
      modifies this`session, this`disk
      ensures !Present(old(session).currentReportDir) ==> o == End && session == old(session) && disk == old(disk)
      ensures Present(old(session).currentReportDir) && !Downloads(env, old(disk), old(session).currentReportDir.value) ==>
        o == Goto(ReceivingPhotoAfter) && session == old(session) && disk == old(disk)
      ensures Present(old(session).currentReportDir) && Downloads(env, old(disk), old(session).currentReportDir.value) ==>
        var dir := old(session).currentReportDir.value;
        var record := ReportFile(dir);
        var files := if record in old(disk).files then old(disk).files[record := RewrittenDone(old(disk).files[record])]
                     else old(disk).files;
        var written := old(disk).(photos := old(disk).photos + {PathIn(dir, AfterPhoto)}, files := files);
        var data := ExtractReportData(files, dir);
        (data.None? || data.value.0 == "" || data.value.1 == "" ==> o == End && session == old(session) && disk == written)
        && (data.Some? && data.value.0 != "" && data.value.1 != "" && !PdfStep(env, old(disk).photos, dir).Goto? ==>
              o == PdfStep(env, old(disk).photos, dir) && session == old(session) && disk == written)
        && (data.Some? && data.value.0 != "" && data.value.1 != "" && PdfStep(env, old(disk).photos, dir).Goto? ==>
              o == Goto(SelectingHouse) && session.reportDir.Some?
              && session == old(session).(reportDir := session.reportDir)
              && ReportDirs.Allocated(written.dirs, BaseDir(env.year, data.value.0, env.month), session.reportDir.value)
              && disk == written.(dirs := Makedirs(written.dirs, session.reportDir.value)))
    {
      if !Present(session.currentReportDir) {
        return End;
      }
      var dir := session.currentReportDir.value;
      if !(env.downloadOk && dir in disk.dirs) {
        return Goto(ReceivingPhotoAfter);
      }
      var before := disk.photos;
      disk := disk.(photos := disk.photos + {PathIn(dir, AfterPhoto)});
      var record := ReportFile(dir);
      if record in disk.files {
        var text := WriteMarkedDone(ReadLines(disk.files[record]));
        disk := disk.(files := disk.files[record := text]);
      }
      var data := ExtractReportData(disk.files, dir);
      if data.None? || data.value.0 == "" || data.value.1 == "" {
        return End;
      }
      o := PdfStep(env, before, dir);
      if o.Goto? {
        var n, next, after := CreateReportDirectory(disk.dirs, BaseDir(env.year, data.value.0, env.month));
        session := session.(reportDir := Some(next));
        disk := disk.(dirs := after);
      }
    }

    /** Runs the handler `h` routed to in the current phase. */
    method Run(h: Handler, env: Env) returns (o: Outcome<Step>)
      requires ReachableAt(phase)
      requires h.OnStart? || phase == Active(StateOf(h))
      modifies this`session, this`disk
      ensures ReachableAt(After(phase, o))
      ensures old(disk).dirs <= disk.dirs
      ensures o.Raised? ==> RawScan(old(disk).files, env.walk).ScanRaised? || h == OnPhotoAfter
    {
      match h {
        case OnStart =>
          o := SelectHouse(env);
        case OnHouse(_) =>
          o := SelectHouse(env);
        case OnWorkType(_) =>
          assert false;
        case OnPhotoBefore =>
          assert false;
        case OnAction(text) =>
          o := ChooseAction(text, env);
        case OnTaskNumber(text) =>
          o := TaskNumber(text);
        case OnPhotoAfter =>
          o := PhotoAfter(env);
      }
    }

    /**
      * One update: the conversation handler first, then the
      * `/check_unfinished` command, which leaves the conversation where it
      * is. Reachable states stay reachable, directories are only ever
      * created, and only a malformed pending record or the photo after can
      * raise. A failed `get_file` (tg_v5.py:145, outside the `try`) is folded
      * into `env.downloadOk`; it too raises only while the photo after is
      * awaited, which the last ensures allows.
      */
    method Handle(u: Update, env: Env) returns (o: Outcome<Step>)
      requires Reachable()
      modifies this
      ensures Reachable()
      ensures Route(old(phase), u).Some? ==> phase == After(old(phase), o)
      ensures u == Command(CheckCommand) ==>
        phase == old(phase) && disk == old(disk) && (o.Raised? <==> RawScan(disk.files, env.walk).ScanRaised?)
        && (RawScan(disk.files, env.walk).Scanned? && RawScan(disk.files, env.walk).tasks != [] ==>
              session == old(session).(unfinishedTasks := Some(RawScan(disk.files, env.walk).tasks)))
      ensures Route(old(phase), u).None? && u != Command(CheckCommand) ==>
        o == Ignored && phase == old(phase) && session == old(session) && disk == old(disk)
      ensures old(disk).dirs <= disk.dirs
      ensures o.Raised? ==> RawScan(old(disk).files, env.walk).ScanRaised? || (old(phase) == Active(ReceivingPhotoAfter) && u.Photo?)
    {
      var p := phase;
      var r := Route(p, u);
      if r.None? {
        if u == Command(CheckCommand) {
          var checked := CheckUnfinishedTasks(env);
          o := if checked.Raised? then Raised else Stay;
        } else {
          o := Ignored;
        }
        return;
      }
      o := Run(r.value, env);
      phase := After(p, o);
    }
  }
}

/**
  * `tg_v4.py`: three fixed houses and a free-text work type. The photo
  * before goes into the session's report directory, allocated when there
  * is none; deferring the photo after writes a pending three-line record,
  * completing writes a done one, and either way a PDF is made and the next
  * directory allocated. Unfinished records are only listed, by `/start`
  * and by `/check_unfinished`.
  */
module BotV4 {
  import opened Strings
  import opened Lines
  import opened Records
  import opened ReportDirs
  import opened Conversation

  datatype Step = SelectingHouse | SelectingWorkType | ReceivingPhotoBefore | ChoosingAction | ReceivingPhotoAfter

  /** The callbacks registered in `main()`. */
  datatype Handler =
    | OnStart | OnHouse(text: string) | OnWorkType(text: string) | OnPhotoBefore
    | OnAction(text: string) | OnPhotoAfter

  function StateOf(h: Handler): Step
  {
    match h
    case OnStart => SelectingHouse
    case OnHouse(_) => SelectingHouse
    case OnWorkType(_) => SelectingWorkType
    case OnPhotoBefore => ReceivingPhotoBefore
    case OnAction(_) => ChoosingAction
    case OnPhotoAfter => ReceivingPhotoAfter
  }

  /** `HOUSES`. */
  const Houses: seq<string> := ["10", "11", "12"]

  /** The command registered beside the conversation handler. */
  const CheckCommand := "check_unfinished"

  /** The conversation handler of `main()`: `/start` as entry point, no fallbacks. */
  function Route(p: Phase<Step>, u: Update): (r: Option<Handler>)
    ensures p.Idle? ==> (r.Some? <==> u == Command("start"))
    ensures p.Active? && u.Command? ==> r.None?
    ensures u == Command(CheckCommand) ==> r.None?
    ensures r.Some? && !r.value.OnStart? ==> p == Active(StateOf(r.value))
    ensures r == Some(OnStart) ==> p.Idle?
  {
    match p
    case Idle => if u == Command("start") then Some(OnStart) else None
    case Active(s) =>
      match (s, u)
      case (SelectingHouse, Text(t)) => Some(OnHouse(t))
      case (SelectingWorkType, Text(t)) => Some(OnWorkType(t))
      case (ReceivingPhotoBefore, Photo) => Some(OnPhotoBefore)
      case (ChoosingAction, Text(t)) => Some(OnAction(t))
      case (ReceivingPhotoAfter, Photo) => Some(OnPhotoAfter)
      case _ => None
  }

  /**
    * How the PDF step ends: loading the font or a photo that is missing
    * raises, a failed output ends the conversation, a failed send is only
    * logged; otherwise a new task starts.
    */
  function PdfStep(env: Env, imagesOk: bool): Outcome<Step>
  {
    if !env.fontOk || !imagesOk then Raised
    else if !env.pdfOk then End
    else Goto(SelectingHouse)
  }

  /** The states in which a work type has been entered. */
  predicate WorkKnown(p: Phase<Step>)
  {
    p.Active? && (p.state.ReceivingPhotoBefore? || p.state.ChoosingAction? || p.state.ReceivingPhotoAfter?)
  }

  /** The states after the photo before was saved. */
  predicate Photographed(p: Phase<Step>)
  {
    p.Active? && (p.state.ChoosingAction? || p.state.ReceivingPhotoAfter?)
  }

  class Bot {
    var phase: Phase<Step>
    var session: Session
    var disk: Disk

    constructor (disk: Disk)
      ensures this.disk == disk && phase == Idle && session == EmptySession
      ensures Reachable()
    {
      this.disk := disk;
      phase := Idle;
      session := EmptySession;
    }

    /** `Reachable()` with the conversation in phase `p`. */
    ghost predicate ReachableAt(p: Phase<Step>)
      reads this
    {
      (session.reportDir.Some? ==> session.reportDir.value in disk.dirs)
      && (p.Active? && !p.state.SelectingHouse? ==> session.selectedHouse.Some?)
      && (WorkKnown(p) ==> session.workType.Some?)
      && (Photographed(p) ==>
            session.reportDir.Some?
            && session.photoBefore == Some(PathIn(session.reportDir.value, BeforePhoto))
            && session.photoBefore.value in disk.photos)
    }

    /**
      * What holds in every state the conversation reaches: a stored report
      * directory exists, every step after the house has one and every step
      * after the work type has one, and the action menu and the photo after
      * come only once the photo before is saved in the session's directory.
      */
    ghost predicate Reachable()
      reads this
    {
      ReachableAt(phase)
    }

    /** `start`: the raw scan lists the unfinished records, then a house is asked for. */
    method Start(env: Env) returns (o: Outcome<Step>, listed: seq<Task>)
      ensures RawScan(disk.files, env.walk).ScanRaised? ==> o == Raised && listed == []
      ensures RawScan(disk.files, env.walk).Scanned? ==>
        o == Goto(SelectingHouse) && listed == RawScan(disk.files, env.walk).tasks
    {
      var scan := CheckUnfinished(disk.files, env.walk);
      if scan.ScanRaised? {
        return Raised, [];
      }
      o, listed := Goto(SelectingHouse), scan.tasks;
    }

    /** `select_house`: the text, as typed, must be one of `HOUSES`. */
    method SelectHouse(text: string) returns (o: Outcome<Step>)
      modifies this`session
      ensures text !in Houses ==> o == Goto(SelectingHouse) && session == old(session)
      ensures text in Houses ==> o == Goto(SelectingWorkType) && session == old(session).(selectedHouse := Some(text))
    {
      if text !in Houses {
        return Goto(SelectingHouse);
      }
      session := session.(selectedHouse := Some(text));
      o := Goto(SelectingWorkType);
    }

    /** `select_work_type`: any text is taken as the work type. */
    method SelectWorkType(text: string) returns (o: Outcome<Step>)
      modifies this`session
      ensures o == Goto(ReceivingPhotoBefore) && session == old(session).(workType := Some(text))
    {
      session := session.(workType := Some(text));
      o := Goto(ReceivingPhotoBefore);
    }

    /**
      * `handle_photo_before`: allocates a report directory for the selected
      * house only when the session holds none, then saves `до.jpg` into it.
      */
    method PhotoBefore(env: Env) returns (o: Outcome<Step>)
      modifies this`session, this`disk
      ensures old(session).reportDir.None? && old(session).selectedHouse.None? ==>
        o == Raised && session == old(session) && disk == old(disk)
      ensures old(session).reportDir.Some? ==>
        session.reportDir == old(session).reportDir && disk.dirs == old(disk).dirs
      ensures old(session).reportDir.None? && old(session).selectedHouse.Some? ==>
        session.reportDir.Some?
        && ReportDirs.Allocated(old(disk).dirs, BaseDir(env.year, old(session).selectedHouse.value, env.month), session.reportDir.value)
        && disk.dirs == Makedirs(old(disk).dirs, session.reportDir.value)
      ensures old(session).reportDir.Some? || old(session).selectedHouse.Some? ==>
        disk.files == old(disk).files
        && (!Downloads(env, disk, session.reportDir.value) ==>
              o == Goto(ReceivingPhotoBefore) && disk.photos == old(disk).photos
              && session == old(session).(reportDir := session.reportDir))
        && (Downloads(env, disk, session.reportDir.value) ==>
              o == Goto(ChoosingAction)
              && disk.photos == old(disk).photos + {PathIn(session.reportDir.value, BeforePhoto)}
              && session == old(session).(reportDir := session.reportDir,
                                          photoBefore := Some(PathIn(session.reportDir.value, BeforePhoto))))
    {
      if session.reportDir.None? {
        if session.selectedHouse.None? {
          return Raised;
        }
        var n, dir, after := CreateReportDirectory(disk.dirs, BaseDir(env.year, session.selectedHouse.value, env.month));
        session := session.(reportDir := Some(dir));
        disk := disk.(dirs := after);
      }
      var dir := session.reportDir.value;
      var path := PathIn(dir, BeforePhoto);
      if !(env.downloadOk && dir in disk.dirs) {
        return Goto(ReceivingPhotoBefore);
      }
      disk := disk.(photos := disk.photos + {path});
      session := session.(photoBefore := Some(path));
      o := Goto(ChoosingAction);
    }

    /**
      * The step both ways of finishing share: overwrite the record with the
      * house, the work type and `status` (a missing key leaves the lines
      * before it and makes the PDF raise), build the PDF and send it,
      * then allocate the next directory for the same house.
      */
    method Finish(status: string, imagesOk: bool, env: Env) returns (o: Outcome<Step>)
      requires session.reportDir.Some?
      modifies this`session, this`disk
      ensures var dir := old(session).reportDir.value;
        var es := [Entry(HouseLabel, old(session).selectedHouse), Entry(WorkLabel, old(session).workType)];
        var written := old(disk).(files := old(disk).files[ReportFile(dir) := if AllPresent(es) then WriteEntries(es) + status else WriteEntries(es)]);
        (!AllPresent(es) ==> o == Raised && session == old(session) && disk == written)
        && (AllPresent(es) && !PdfStep(env, imagesOk).Goto? ==>
              o == PdfStep(env, imagesOk) && session == old(session) && disk == written)
        && (AllPresent(es) && PdfStep(env, imagesOk).Goto? ==>
              o == Goto(SelectingHouse) && session.reportDir.Some?
              && session == old(session).(reportDir := session.reportDir)
              && ReportDirs.Allocated(written.dirs, BaseDir(env.year, old(session).selectedHouse.value, env.month), session.reportDir.value)
              && disk == written.(dirs := Makedirs(written.dirs, session.reportDir.value)))
    {
      var dir := session.reportDir.value;
      var es := [Entry(HouseLabel, session.selectedHouse), Entry(WorkLabel, session.workType)];
      var text := WriteEntries(es);
      if AllPresent(es) {
        text := text + status;
      }
      disk := disk.(files := disk.files[ReportFile(dir) := text]);
      if !AllPresent(es) {
        return Raised;
      }
      o := PdfStep(env, imagesOk);
      if o.Goto? {
        var n, next, after := CreateReportDirectory(disk.dirs, BaseDir(env.year, session.selectedHouse.value, env.month));
        session := session.(reportDir := Some(next));
        disk := disk.(dirs := after);
      }
    }

    /**
      * `choose_action`: the photo now is asked for, or the task is deferred
      * with a pending record and a PDF of the photo before.
      */
    method ChooseAction(text: string, env: Env) returns (o: Outcome<Step>)
      modifies this`session, this`disk
      ensures text == AddPhotoNow ==> o == Goto(ReceivingPhotoAfter) && session == old(session) && disk == old(disk)
      ensures text == AddPhotoLater && old(session).reportDir.None? ==> o == Raised && session == old(session) && disk == old(disk)
      ensures text == AddPhotoLater && old(session).reportDir.Some? ==>
        var dir := old(session).reportDir.value;
        var es := [Entry(HouseLabel, old(session).selectedHouse), Entry(WorkLabel, old(session).workType)];
        var imagesOk := old(session).photoBefore.Some? && old(session).photoBefore.value in old(disk).photos;
        var written := old(disk).(files := old(disk).files[ReportFile(dir) := if AllPresent(es) then WriteEntries(es) + PendingLine else WriteEntries(es)]);
        (!AllPresent(es) ==> o == Raised && session == old(session) && disk == written)
        && (AllPresent(es) && !PdfStep(env, imagesOk).Goto? ==>
              o == PdfStep(env, imagesOk) && session == old(session) && disk == written)
        && (AllPresent(es) && PdfStep(env, imagesOk).Goto? ==>
              o == Goto(SelectingHouse) && session.reportDir.Some?
              && session == old(session).(reportDir := session.reportDir)
              && ReportDirs.Allocated(written.dirs, BaseDir(env.year, old(session).selectedHouse.value, env.month), session.reportDir.value)
              && disk == written.(dirs := Makedirs(written.dirs, session.reportDir.value)))
      ensures text != AddPhotoNow && text != AddPhotoLater ==> o == Stay && session == old(session) && disk == old(disk)
    {
      ButtonsDistinct();
      if text == AddPhotoNow {
        o := Goto(ReceivingPhotoAfter);
      } else if text == AddPhotoLater {
        if session.reportDir.None? {
          return Raised;
        }
        var imagesOk := session.photoBefore.Some? && session.photoBefore.value in disk.photos;
        o := Finish(PendingLine, imagesOk, env);
      } else {
        o := Stay;
      }
    }

    /** `handle_photo_after`: saves `после.jpg`, then finishes with a done record. */
    method PhotoAfter(env: Env) returns (o: Outcome<Step>)
      modifies this`session, this`disk
      ensures old(session).reportDir.None? ==> o == Raised && session == old(session) && disk == old(disk)
      ensures old(session).reportDir.Some? && !Downloads(env, old(disk), old(session).reportDir.value) ==>
        o == Goto(ReceivingPhotoAfter) && session == old(session) && disk == old(disk)
      ensures old(session).reportDir.Some? && Downloads(env, old(disk), old(session).reportDir.value) ==>
        var dir := old(session).reportDir.value;
        var es := [Entry(HouseLabel, old(session).selectedHouse), Entry(WorkLabel, old(session).workType)];
        var imagesOk := old(session).photoBefore.Some? && old(session).photoBefore.value in old(disk).photos + {PathIn(dir, AfterPhoto)};
        var saved := old(session).(photoAfter := Some(PathIn(dir, AfterPhoto)));
        var written := old(disk).(photos := old(disk).photos + {PathIn(dir, AfterPhoto)},
                                  files := old(disk).files[ReportFile(dir) := if AllPresent(es) then WriteEntries(es) + DoneLine else WriteEntries(es)]);
        (!AllPresent(es) ==> o == Raised && session == saved && disk == written)
        && (AllPresent(es) && !PdfStep(env, imagesOk).Goto? ==>
              o == PdfStep(env, imagesOk) && session == saved && disk == written)
        && (AllPresent(es) && PdfStep(env, imagesOk).Goto? ==>
              o == Goto(SelectingHouse) && session.reportDir.Some?
              && session == saved.(reportDir := session.reportDir)
              && ReportDirs.Allocated(written.dirs, BaseDir(env.year, old(session).selectedHouse.value, env.month), session.reportDir.value)
              && disk == written.(dirs := Makedirs(written.dirs, session.reportDir.value)))
    {
      if session.reportDir.None? {
        return Raised;
      }
      var dir := session.reportDir.value;
      var path := PathIn(dir, AfterPhoto);
      if !(env.downloadOk && dir in disk.dirs) {
        return Goto(ReceivingPhotoAfter);
      }
      disk := disk.(photos := disk.photos + {path});
      session := session.(photoAfter := Some(path));
      var imagesOk := session.photoBefore.Some? && session.photoBefore.value in disk.photos;
      o := Finish(DoneLine, imagesOk, env);
    }

    /** Runs the handler `h` routed to in the current phase. */
    method Run(h: Handler, env: Env) returns (o: Outcome<Step>)
      requires ReachableAt(phase)
      requires h.OnStart? || phase == Active(StateOf(h))
      modifies this`session, this`disk
      ensures ReachableAt(After(phase, o))
      ensures old(disk).dirs <= disk.dirs && old(disk).photos <= disk.photos
      ensures o.Raised? ==> (h == OnStart && RawScan(old(disk).files, env.walk).ScanRaised?) || ((h.OnAction? || h == OnPhotoAfter) && !env.fontOk)
    {
      if h.OnStart? {
        var listed;
        o, listed := Start(env);
      } else if h.OnHouse? || h.OnWorkType? || h.OnPhotoBefore? {
        o := RunChoice(h, env);
      } else if h.OnAction? {
        o := RunAction(h.text, env);
      } else {
        o := RunPhotoAfter(env);
      }
    }

    /** The house, the work type and the photo before. */
    method RunChoice(h: Handler, env: Env) returns (o: Outcome<Step>)
      requires ReachableAt(phase)
      requires h.OnHouse? || h.OnWorkType? || h.OnPhotoBefore?
      requires phase == Active(StateOf(h))
      modifies this`session, this`disk
      ensures ReachableAt(After(phase, o))
      ensures old(disk).dirs <= disk.dirs && old(disk).photos <= disk.photos
      ensures !o.Raised?
    {
      match h {
        case OnHouse(text) =>
          o := SelectHouse(text);
        case OnWorkType(text) =>
          o := SelectWorkType(text);
        case OnPhotoBefore =>
          o := PhotoBefore(env);
      }
    }

    /** The action menu. */
    method RunAction(text: string, env: Env) returns (o: Outcome<Step>)
      requires ReachableAt(phase)
      requires phase == Active(ChoosingAction)
      modifies this`session, this`disk
      ensures ReachableAt(After(phase, o))
      ensures old(disk).dirs <= disk.dirs && old(disk).photos <= disk.photos
      ensures o.Raised? ==> !env.fontOk
      ensures text == AddPhotoLater ==>
        ReportFile(old(session).reportDir.value) in disk.files
        && disk.files[ReportFile(old(session).reportDir.value)]
           == ShortRecord(old(session).selectedHouse.value, old(session).workType.value, PendingLine)
    {
      EntriesThenStatus(session.selectedHouse.value, session.workType.value, PendingLine);
      o := ChooseAction(text, env);
    }

    /** The photo after. */
    method RunPhotoAfter(env: Env) returns (o: Outcome<Step>)
      requires ReachableAt(phase)
      requires phase == Active(ReceivingPhotoAfter)
      modifies this`session, this`disk
      ensures ReachableAt(After(phase, o))
      ensures old(disk).dirs <= disk.dirs && old(disk).photos <= disk.photos
      ensures o.Raised? ==> !env.fontOk
      ensures env.downloadOk ==>
        ReportFile(old(session).reportDir.value) in disk.files
        && disk.files[ReportFile(old(session).reportDir.value)]
           == ShortRecord(old(session).selectedHouse.value, old(session).workType.value, DoneLine)
    {
      EntriesThenStatus(session.selectedHouse.value, session.workType.value, DoneLine);
      o := PhotoAfter(env);
    }

    /**
      * One update: the conversation handler first, then the
      * `/check_unfinished` command, which only lists. Reachable states stay
      * reachable, directories and photos are only ever added, and only a
      * malformed pending record seen by `/start` or a font that cannot be
      * loaded can raise. This takes `get_file` to succeed: it is folded
      * into `env.downloadOk`, whereas tg_v4.py:78 and tg_v4.py:164 call it
      * outside the `try`, so a failed `get_file` raises there.
      */
    method Handle(u: Update, env: Env) returns (o: Outcome<Step>)
      requires Reachable()
      modifies this
      ensures Reachable()
      ensures Route(old(phase), u).Some? ==> phase == After(old(phase), o)
      ensures Route(old(phase), u).None? ==> phase == old(phase) && session == old(session) && disk == old(disk)
      ensures u == Command(CheckCommand) ==> (o.Raised? <==> RawScan(disk.files, env.walk).ScanRaised?)
      ensures Route(old(phase), u).None? && u != Command(CheckCommand) ==> o == Ignored
      ensures old(disk).dirs <= disk.dirs && old(disk).photos <= disk.photos
      ensures o.Raised? ==> RawScan(old(disk).files, env.walk).ScanRaised? || !env.fontOk
    {
      var p := phase;
      var r := Route(p, u);
      if r.None? {
        if u == Command(CheckCommand) {
          var scan := CheckUnfinished(disk.files, env.walk);
          o := if scan.ScanRaised? then Raised else Stay;
        } else {
          o := Ignored;
        }
        return;
      }
      o := Run(r.value, env);
      phase := After(p, o);
    }
  }
}

/**
  * `tg_v9_work.py`: like `tg_v10.py` up to the work type, which is then
  * confirmed; records carry a management-company line, "add the photo
  * later" resets the status and lists the unfinished tasks, and a task is
  * continued by typing its number.
  */
module BotV9 {
  import opened Strings
  import opened Numbers
  import opened Lines
  import opened Records
  import opened ReportDirs
  import opened Menus
  import opened ListWorks
  import opened Conversation

  datatype Step =
    | SelectingHouse | SelectingAddress | ConfirmingAddress | SelectingWorkType | ConfirmingWorkType
    | ReceivingPhotoBefore | ChoosingAction | ReceivingTaskNumber | ReceivingPhotoAfter

  /** The callbacks registered in `main()`; `handle_inline_buttons` is not among them. */
  datatype Handler =
    | OnStart | OnHouse(text: string) | OnAddress(text: string) | OnAddressConfirmation(data: string)
    | OnWorkType(text: string) | OnWorkConfirmation(data: string) | OnPhotoBefore
    | OnAction(text: string) | OnTaskNumber(text: string) | OnPhotoAfter

  /** The state a handler is registered for; `/start` is registered for all of them. */
  function StateOf(h: Handler): Step
  {
    match h
    case OnStart => SelectingHouse
    case OnHouse(_) => SelectingHouse
    case OnAddress(_) => SelectingAddress
    case OnAddressConfirmation(_) => ConfirmingAddress
    case OnWorkType(_) => SelectingWorkType
    case OnWorkConfirmation(_) => ConfirmingWorkType
    case OnPhotoBefore => ReceivingPhotoBefore
    case OnAction(_) => ChoosingAction
    case OnTaskNumber(_) => ReceivingTaskNumber
    case OnPhotoAfter => ReceivingPhotoAfter
  }

  /**
    * The conversation handler of `main()`: `/start` as entry point and
    * fallback, one handler per state; the task number is typed as text.
    */
  function Route(p: Phase<Step>, u: Update): (r: Option<Handler>)
    ensures p.Idle? ==> (r.Some? <==> u == Command("start"))
    ensures u == Command("start") ==> r == Some(OnStart)
    ensures u.Callback? && r.Some? ==> r.value.OnAddressConfirmation? || r.value.OnWorkConfirmation?
    ensures r.Some? && !r.value.OnStart? ==> p == Active(StateOf(r.value))
  {
    match p
    case Idle => if u == Command("start") then Some(OnStart) else None
    case Active(s) =>
      match (s, u)
      case (SelectingHouse, Text(t)) => Some(OnHouse(t))
      case (SelectingAddress, Text(t)) => Some(OnAddress(t))
      case (ConfirmingAddress, Callback(d)) => Some(OnAddressConfirmation(d))
      case (SelectingWorkType, Text(t)) => Some(OnWorkType(t))
      case (ConfirmingWorkType, Callback(d)) => Some(OnWorkConfirmation(d))
      case (ReceivingPhotoBefore, Photo) => Some(OnPhotoBefore)
      case (ChoosingAction, Text(t)) => Some(OnAction(t))
      case (ReceivingTaskNumber, Text(t)) => Some(OnTaskNumber(t))
      case (ReceivingPhotoAfter, Photo) => Some(OnPhotoAfter)
      case _ => if u == Command("start") then Some(OnStart) else None
  }

  /** The work-type menu shown after the address is confirmed. */
  function WorkMenu(works: seq<Item>): string
  {
    "Выберите тип работ:\n" + MenuLines(ItemNames(works), 1)
  }

  /** `get_paginated_tasks(page)`: five unfinished tasks per page. */
  function PaginatedTasks(files: map<string, string>, walk: seq<string>, page: int): seq<Task>
  {
    Page(UnfinishedTasks(files, walk), page, 5)
  }

  /** Pages `0 .. k-1` of `get_paginated_tasks`, one after another, are the first `5 * k` tasks, and enough of them are all. */
  lemma {:induction false} PaginatedCover(files: map<string, string>, walk: seq<string>, k: nat)
    ensures FirstPages(UnfinishedTasks(files, walk), 5, k) == UnfinishedTasks(files, walk)[..Min(k * 5, |UnfinishedTasks(files, walk)|)]
    ensures 5 * k >= |UnfinishedTasks(files, walk)| ==> FirstPages(UnfinishedTasks(files, walk), 5, k) == UnfinishedTasks(files, walk)
  {
    FirstPagesPrefix(UnfinishedTasks(files, walk), 5, k);
    if 5 * k >= |UnfinishedTasks(files, walk)| {
      PagesCoverAll(UnfinishedTasks(files, walk), 5, k);
    }
  }

  /** The steps between a known house and its photo before. */
  predicate Choosing(p: Phase<Step>)
  {
    p.Active? && (p.state.SelectingAddress? || p.state.ConfirmingAddress? || p.state.SelectingWorkType? || p.state.ConfirmingWorkType?)
  }

  /** The steps after the work type is chosen and before the photo is saved. */
  predicate WorkChosen(p: Phase<Step>)
  {
    p.Active? && (p.state.ConfirmingWorkType? || p.state.ReceivingPhotoBefore?)
  }

  /** The states in which a handler can raise once the conversation is reachable. */
  predicate MayRaise(p: Phase<Step>)
  {
    p.Active? && (p.state.SelectingHouse? || p.state.ReceivingPhotoAfter?)
  }

  /**
    * How `choose_action` ends after collecting the unfinished tasks: none
    * keeps the menu, otherwise they are stored for `receive_task_number`.
    */
  predicate Listing(s: Session, tasks: seq<Task>, s': Session, o: Outcome<Step>)
  {
    if tasks == [] then o == Goto(ChoosingAction) && s' == s
    else o == Goto(ReceivingTaskNumber) && s' == s.(unfinishedTasks := Some(tasks))
  }

  /** The tasks `receive_task_number` chooses from: those stored, or none. */
  function StoredTasks(s: Session): seq<Task>
  {
    if s.unfinishedTasks.Some? then s.unfinishedTasks.value else []
  }

  class Bot {
    var phase: Phase<Step>
    var session: Session
    var disk: Disk
    /** `HOUSES_DICT` and `LIST_WORKS`, loaded at start-up. */
    const houses: map<string, seq<string>>
    const works: seq<Item>

    constructor (houses: map<string, seq<string>>, works: seq<Item>, disk: Disk)
      ensures this.houses == houses && this.works == works && this.disk == disk
      ensures phase == Idle && session == EmptySession
      ensures Reachable()
    {
      this.houses := houses;
      this.works := works;
      this.disk := disk;
      phase := Idle;
      session := EmptySession;
    }

    /** A known house with its (non-empty) address list is in the session. */
    ghost predicate HouseChosen(s: Session)
    {
      s.selectedHouse.Some? && s.selectedHouse.value in houses && houses[s.selectedHouse.value] != []
      && s.addresses == Some(houses[s.selectedHouse.value])
    }

    /** `Reachable()` with the conversation in phase `p`. */
    ghost predicate ReachableAt(p: Phase<Step>)
      reads this
    {
      (session.reportDir.Some? ==> session.reportDir.value in disk.dirs)
      && (Choosing(p) ==> HouseChosen(session))
      && (WorkChosen(p) ==> session.reportDir.Some? && RecordReady(session))
    }

    /**
      * What holds in every state the conversation reaches: the session's
      * report directory exists, the steps from the address to the
      * work-type confirmation have a known house, and from the
      * confirmation on the directory and all record fields are set.
      */
    ghost predicate Reachable()
      reads this
    {
      ReachableAt(phase)
    }

    /** `select_house`: the stripped text must be a key of `HOUSES_DICT`. */
    method SelectHouse(text: string) returns (o: Outcome<Step>)
      modifies this`session
      ensures Strip(text) !in houses ==> o == Goto(SelectingHouse) && session == old(session)
      ensures Strip(text) in houses && houses[Strip(text)] == [] ==>
        o == Raised && session == old(session).(selectedHouse := Some(Strip(text)), addresses := Some([]))
      ensures Strip(text) in houses && houses[Strip(text)] != [] ==>
        o == Goto(SelectingAddress)
        && session == old(session).(selectedHouse := Some(Strip(text)), addresses := Some(houses[Strip(text)]),
                                    fullAddress := Some(houses[Strip(text)][0]))
    {
      var key := Strip(text);
      if key !in houses {
        return Goto(SelectingHouse);
      }
      var addresses := houses[key];
      session := session.(addresses := Some(addresses));
      session := session.(selectedHouse := Some(key));
      if addresses == [] {
        // `addresses[0]` raises `IndexError`
        return Raised;
      }
      session := session.(fullAddress := Some(addresses[0]));
      o := Goto(SelectingAddress);
    }

    /** `select_address`: a number chooses an address of the list; anything else asks again. */
    method SelectAddress(text: string) returns (o: Outcome<Step>)
      modifies this`session
      ensures ParseInt(text).None? ==> o == Goto(SelectingAddress) && session == old(session)
      ensures ParseInt(text).Some? && old(session).addresses.None? ==> o == Raised && session == old(session)
      ensures ParseInt(text).Some? && old(session).addresses.Some? && ChosenIndex(text, |old(session).addresses.value|).None? ==>
        o == Goto(SelectingAddress) && session == old(session)
      ensures ParseInt(text).Some? && old(session).addresses.Some? && ChosenIndex(text, |old(session).addresses.value|).Some? ==>
        o == Goto(ConfirmingAddress)
        && session == old(session).(selectedAddress := Some(old(session).addresses.value[ChosenIndex(text, |old(session).addresses.value|).value]))
    {
      StripIdempotent(text);
      var choice := ParseInt(Strip(text));
      if choice.None? {
        return Goto(SelectingAddress);
      }
      if session.addresses.None? {
        return Raised;
      }
      var addresses := session.addresses.value;
      if choice.value < 1 || choice.value > |addresses| {
        return Goto(SelectingAddress);
      }
      session := session.(selectedAddress := Some(addresses[choice.value - 1]));
      o := Goto(ConfirmingAddress);
    }

    /** `handle_address_confirmation`: `correct` shows the work menu, split when it is too long; `incorrect` starts over. */
    method AddressConfirmation(data: string) returns (o: Outcome<Step>, shown: seq<string>)
      ensures data == "correct" && works == [] ==> o == End && shown == []
      ensures data == "correct" && works != [] ==> o == Goto(SelectingWorkType) && Displayed(WorkMenu(works), shown)
      ensures data == "incorrect" ==> o == Goto(SelectingHouse) && shown == []
      ensures data != "correct" && data != "incorrect" ==> o == Stay && shown == []
    {
      shown := [];
      if data == "correct" {
        if works == [] {
          return End, [];
        }
        var menu := BuildMenu("Выберите тип работ:\n", ItemNames(works));
        shown := ShowMenu(menu);
        o := Goto(SelectingWorkType);
      } else if data == "incorrect" {
        o := Goto(SelectingHouse);
      } else {
        o := Stay;
      }
    }

    /**
      * The effective `select_work_type` (the second definition): a number
      * from the menu stores the work, allocates the report directory by the
      * selected house and asks for confirmation. A missing house key raises
      * `KeyError`, an unknown house raises the `ValueError` that is caught,
      * an empty address list raises `IndexError`.
      */
    method SelectWorkType(text: string, env: Env) returns (o: Outcome<Step>)
      modifies this`session, this`disk
      ensures ChosenIndex(text, |works|).None? ==> o == Goto(SelectingWorkType) && session == old(session) && disk == old(disk)
      ensures ChosenIndex(text, |works|).Some? && old(session).selectedHouse.None? ==>
        o == Raised && disk == old(disk)
        && session == old(session).(workType := Some(works[ChosenIndex(text, |works|).value].name),
                                    workData := Some(works[ChosenIndex(text, |works|).value].data))
      ensures ChosenIndex(text, |works|).Some? && old(session).selectedHouse.Some? ==>
        var s1 := old(session).(workType := Some(works[ChosenIndex(text, |works|).value].name),
                                workData := Some(works[ChosenIndex(text, |works|).value].data));
        var house := old(session).selectedHouse.value;
        (house !in houses ==> o == Goto(SelectingWorkType) && session == s1 && disk == old(disk))
        && (house in houses && houses[house] == [] ==> o == Raised && session == s1 && disk == old(disk))
        && (house in houses && houses[house] != [] ==>
              o == Goto(ConfirmingWorkType) && session.reportDir.Some? && session == s1.(reportDir := session.reportDir)
              && ReportDirs.Allocated(old(disk).dirs, BaseDir(env.year, houses[house][0], env.month), session.reportDir.value)
              && disk == old(disk).(dirs := Makedirs(old(disk).dirs, session.reportDir.value)))
    {
      StripIdempotent(text);
      var choice := ParseInt(Strip(text));
      if choice.None? || choice.value < 1 || choice.value > |works| {
        return Goto(SelectingWorkType);
      }
      var work := works[choice.value - 1];
      session := session.(workType := Some(work.name));
      session := session.(workData := Some(work.data));
      if session.selectedHouse.None? {
        return Raised;
      }
      var r, after := CreateForHouse(houses, session.selectedHouse.value, env.year, env.month, disk.dirs);
      match r
      case UnknownHouse =>
        o := Goto(SelectingWorkType);
      case NoAddress =>
        o := Raised;
      case Created(_, dir) =>
        session := session.(reportDir := Some(dir));
        disk := disk.(dirs := after);
        o := Goto(ConfirmingWorkType);
    }

    /** `handle_work_confirmation`: `work_correct` asks for the photo, `work_incorrect` for the work type again. */
    method WorkConfirmation(data: string) returns (o: Outcome<Step>)
      ensures data == "work_correct" ==> o == Goto(ReceivingPhotoBefore)
      ensures data == "work_incorrect" ==> o == Goto(SelectingWorkType)
      ensures data != "work_correct" && data != "work_incorrect" ==> o == Stay
    {
      if data == "work_correct" {
        o := Goto(ReceivingPhotoBefore);
      } else if data == "work_incorrect" {
        o := Goto(SelectingWorkType);
      } else {
        o := Stay;
      }
    }

    /**
      * `handle_photo_before`: without a report directory the conversation
      * ends; otherwise `до.jpg` is saved and the five-line record written,
      * the last line stamped with the current month; a session key missing
      * midway leaves the lines written so far and ends the conversation.
      */
    method PhotoBefore(env: Env) returns (o: Outcome<Step>)
      modifies this`session, this`disk
      ensures old(session).reportDir.None? ==> o == End && session == old(session) && disk == old(disk)
      ensures old(session).reportDir.Some? && !Downloads(env, old(disk), old(session).reportDir.value) ==>
        o == Goto(ReceivingPhotoBefore) && session == old(session) && disk == old(disk)
      ensures old(session).reportDir.Some? && Downloads(env, old(disk), old(session).reportDir.value) ==>
        var dir := old(session).reportDir.value;
        var es := RecordEntries(old(session));
        session == old(session).(photoBefore := Some(PathIn(dir, BeforePhoto)))
        && disk.dirs == old(disk).dirs
        && disk.photos == old(disk).photos + {PathIn(dir, BeforePhoto)}
        && disk.files == old(disk).files[ReportFile(dir) := if AllPresent(es) then WriteEntries(es) + PendingLine + UkLine(env.monthYear) else WriteEntries(es)]
        && o == (if AllPresent(es) then Goto(ChoosingAction) else End)
    {
      if session.reportDir.None? {
        return End;
      }
      var dir := session.reportDir.value;
      var path := PathIn(dir, BeforePhoto);
      if !(env.downloadOk && dir in disk.dirs) {
        return Goto(ReceivingPhotoBefore);
      }
      disk := disk.(photos := disk.photos + {path});
      session := session.(photoBefore := Some(path));
      var es := RecordEntries(session);
      var text := WriteEntries(es);
      if AllPresent(es) {
        text := text + PendingLine;
        text := text + UkLine(env.monthYear);
      }
      disk := disk.(files := disk.files[ReportFile(dir) := text]);
      o := if AllPresent(es) then Goto(ChoosingAction) else End;
    }

    /**
      * `choose_action`. "Add the photo later" resets the status line of the
      * session's record (a missing record keeps the menu), then, like
      * "continue", lists the unfinished tasks for `receive_task_number`.
      */
    method ChooseAction(text: string, env: Env) returns (o: Outcome<Step>)
      modifies this`session, this`disk
      ensures text == AddPhotoNow ==> o == Goto(ReceivingPhotoAfter) && session == old(session) && disk == old(disk)
      ensures text == AddPhotoLater && Present(old(session).reportDir) && ReportFile(old(session).reportDir.value) !in old(disk).files ==>
        o == Goto(ChoosingAction) && session == old(session) && disk == old(disk)
      ensures text == AddPhotoLater && Present(old(session).reportDir) && ReportFile(old(session).reportDir.value) in old(disk).files ==>
        var record := ReportFile(old(session).reportDir.value);
        disk == old(disk).(files := old(disk).files[record := Concat(MarkPending(ReadLines(old(disk).files[record])))])
        && Listing(old(session), UnfinishedTasks(disk.files, env.walk), session, o)
      ensures text == AddPhotoLater && !Present(old(session).reportDir) ==>
        disk == old(disk) && Listing(old(session), UnfinishedTasks(disk.files, env.walk), session, o)
      ensures text == ContinueTask ==>
        disk == old(disk) && Listing(old(session), UnfinishedTasks(disk.files, env.walk), session, o)
      ensures text == StartNew ==> o == Goto(SelectingHouse) && session == old(session) && disk == old(disk)
      ensures text !in {AddPhotoNow, AddPhotoLater, ContinueTask, StartNew} ==>
        o == Goto(ChoosingAction) && session == old(session) && disk == old(disk)
    {
      ButtonsDistinct();
      if text == AddPhotoNow {
        return Goto(ReceivingPhotoAfter);
      } else if text == StartNew {
        return Goto(SelectingHouse);
      } else if text != AddPhotoLater && text != ContinueTask {
        return Goto(ChoosingAction);
      }
      if text == AddPhotoLater && Present(session.reportDir) {
        var record := ReportFile(session.reportDir.value);
        if record !in disk.files {
          return Goto(ChoosingAction);
        }
        var rewritten := WriteMarkedPending(ReadLines(disk.files[record]));
        disk := disk.(files := disk.files[record := rewritten]);
      }
      var tasks := GetUnfinishedTasks(disk.files, env.walk);
      if tasks == [] {
        return Goto(ChoosingAction);
      }
      session := session.(unfinishedTasks := Some(tasks));
      o := Goto(ReceivingTaskNumber);
    }

    /**
      * `handle_photo_after`: saves `после.jpg`, marks the pending line of
      * the session's record done and adds the management-company line when
      * the record has none, then builds and sends the PDF.
      */
    method PhotoAfter(env: Env) returns (o: Outcome<Step>)
      modifies this`disk
      ensures !Present(old(session).reportDir) ==> o == End && disk == old(disk)
      ensures Present(old(session).reportDir) && !Downloads(env, old(disk), old(session).reportDir.value) ==>
        o == Goto(ReceivingPhotoAfter) && disk == old(disk)
      ensures Present(old(session).reportDir) && Downloads(env, old(disk), old(session).reportDir.value)
              && ReportFile(old(session).reportDir.value) !in old(disk).files ==>
        o == End && disk == old(disk).(photos := old(disk).photos + {PathIn(old(session).reportDir.value, AfterPhoto)})
      ensures Present(old(session).reportDir) && Downloads(env, old(disk), old(session).reportDir.value)
              && ReportFile(old(session).reportDir.value) in old(disk).files ==>
        var dir := old(session).reportDir.value;
        var record := ReportFile(dir);
        disk == old(disk).(photos := old(disk).photos + {PathIn(dir, AfterPhoto)},
                           files := old(disk).files[record := Concat(CompleteUk(ReadLines(old(disk).files[record]), env.monthYear))])
        && o == PdfOutcome(env, session, old(disk).photos, dir, ChoosingAction)
    {
      if !Present(session.reportDir) {
        return End;
      }
      var dir := session.reportDir.value;
      if !(env.downloadOk && dir in disk.dirs) {
        return Goto(ReceivingPhotoAfter);
      }
      var before := disk.photos;
      disk := disk.(photos := disk.photos + {PathIn(dir, AfterPhoto)});
      var record := ReportFile(dir);
      if record !in disk.files {
        return End;
      }
      var text := WriteCompletedUk(ReadLines(disk.files[record]), env.monthYear);
      disk := disk.(files := disk.files[record := text]);
      o := PdfOutcome(env, session, before, dir, ChoosingAction);
    }

    /**
      * `receive_task_number`: a number of the stored list copies that
      * task's house and work type into the session (the report directory
      * stays the session's own); anything else asks again.
      */
    method TaskNumber(text: string) returns (o: Outcome<Step>)
      modifies this`session
      ensures ChosenIndex(text, |StoredTasks(old(session))|).None? ==> o == Goto(ReceivingTaskNumber) && session == old(session)
      ensures ChosenIndex(text, |StoredTasks(old(session))|).Some? ==>
        var t := StoredTasks(old(session))[ChosenIndex(text, |StoredTasks(old(session))|).value];
        o == Goto(ReceivingPhotoAfter) && session == old(session).(selectedHouse := Some(t.house), workType := Some(t.workType))
    {
      StripIdempotent(text);
      var choice := ParseInt(Strip(text));
      var tasks := if session.unfinishedTasks.Some? then session.unfinishedTasks.value else [];
      if choice.Some? && 1 <= choice.value <= |tasks| {
        var t := tasks[choice.value - 1];
        session := session.(selectedHouse := Some(t.house));
        session := session.(workType := Some(t.workType));
        o := Goto(ReceivingPhotoAfter);
      } else {
        o := Goto(ReceivingTaskNumber);
      }
    }

    /**
      * `handle_inline_buttons`, which `main()` never registers: a task
      * button stores its house and work type; any other data is ignored.
      */
    method InlineButtons(data: string) returns (o: Outcome<Step>)
      modifies this`session
      ensures !StartsWith(data, "task_") ==> o == Stay && session == old(session)
      ensures StartsWith(data, "task_") && ParseTaskData(data).CallbackFailed? ==> o == Raised && session == old(session)
      ensures StartsWith(data, "task_") && ParseTaskData(data).TaskPicked? ==>
        o == Goto(ReceivingPhotoAfter)
        && session == old(session).(selectedHouse := Some(ParseTaskData(data).house), workType := Some(ParseTaskData(data).workType))
    {
      if !StartsWith(data, "task_") {
        return Stay;
      }
      match ParseTaskData(data)
      case TaskPicked(house, work) =>
        session := session.(selectedHouse := Some(house));
        session := session.(workType := Some(work));
        o := Goto(ReceivingPhotoAfter);
      case _ =>
        o := Raised;
    }

    /** Runs the handler `h` routed to in the current phase. */
    method Run(h: Handler, env: Env) returns (o: Outcome<Step>)
      requires ReachableAt(phase)
      requires h.OnStart? || phase == Active(StateOf(h))
      modifies this`session, this`disk
      ensures ReachableAt(After(phase, o))
      ensures old(disk).dirs <= disk.dirs
      ensures o.Raised? ==> MayRaise(phase)
      ensures h == OnPhotoBefore ==> o in {Goto(ChoosingAction), Goto(ReceivingPhotoBefore)}
    {
      if h.OnStart? {
        o := Goto(SelectingHouse);
      } else if h.OnHouse? || h.OnAddress? || h.OnAddressConfirmation? || h.OnWorkType? || h.OnWorkConfirmation? {
        o := RunChoice(h, env);
      } else {
        o := RunReport(h, env);
      }
    }

    /** The handlers that choose the house, the address and the work type. */
    method RunChoice(h: Handler, env: Env) returns (o: Outcome<Step>)
      requires ReachableAt(phase)
      requires h.OnHouse? || h.OnAddress? || h.OnAddressConfirmation? || h.OnWorkType? || h.OnWorkConfirmation?
      requires phase == Active(StateOf(h))
      modifies this`session, this`disk
      ensures ReachableAt(After(phase, o))
      ensures old(disk).dirs <= disk.dirs
      ensures o.Raised? ==> MayRaise(phase)
    {
      match h {
        case OnHouse(text) =>
          o := SelectHouse(text);
        case OnAddress(text) =>
          o := SelectAddress(text);
        case OnAddressConfirmation(data) =>
          var shown;
          o, shown := AddressConfirmation(data);
        case OnWorkType(text) =>
          o := SelectWorkType(text, env);
        case OnWorkConfirmation(data) =>
          o := WorkConfirmation(data);
      }
    }

    /** The handlers of the report itself: photos, actions, task numbers. */
    method RunReport(h: Handler, env: Env) returns (o: Outcome<Step>)
      requires ReachableAt(phase)
      requires h.OnPhotoBefore? || h.OnAction? || h.OnTaskNumber? || h.OnPhotoAfter?
      requires phase == Active(StateOf(h))
      modifies this`session, this`disk
      ensures ReachableAt(After(phase, o))
      ensures old(disk).dirs <= disk.dirs
      ensures o.Raised? ==> MayRaise(phase)
      ensures h == OnPhotoBefore ==> o in {Goto(ChoosingAction), Goto(ReceivingPhotoBefore)}
    {
      match h {
        case OnPhotoBefore =>
          ReadyEntriesPresent(session);
          o := PhotoBefore(env);
        case OnAction(text) =>
          o := ChooseAction(text, env);
        case OnTaskNumber(text) =>
          o := TaskNumber(text);
        case OnPhotoAfter =>
          o := PhotoAfter(env);
      }
    }

    /**
      * One update through the conversation handler. Reachable states stay
      * reachable, directories are only ever created, only choosing the
      * house and the after-photo can raise, and awaiting the photo before,
      * a photo never ends the conversation. This takes `get_file` to succeed:
      * it is folded into `env.downloadOk`, whereas tg_v9_work.py:311 calls
      * it outside the `try`, so a failed `get_file` raises there.
      */
    method Handle(u: Update, env: Env) returns (o: Outcome<Step>)
      requires Reachable()
      modifies this
      ensures Reachable()
      ensures phase == After(old(phase), o)
      ensures Route(old(phase), u).None? ==> o == Ignored && session == old(session) && disk == old(disk)
      ensures old(disk).dirs <= disk.dirs
      ensures o.Raised? ==> MayRaise(old(phase))
      ensures old(phase) == Active(ReceivingPhotoBefore) && u.Photo? ==> o in {Goto(ChoosingAction), Goto(ReceivingPhotoBefore)}
    {
      var p := phase;
      var r := Route(p, u);
      if r.None? {
        return Ignored;
      }
      o := Run(r.value, env);
      phase := After(p, o);
    }
  }
}

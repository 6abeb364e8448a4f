/**
  * `tg_v10.py`: house number, address, work type from the menu, photo
  * before, then completion now or later; unfinished tasks are continued
  * from a paged inline keyboard.
  */
module BotV10 {
  import opened Strings
  import opened Numbers
  import opened Lines
  import opened Records
  import opened ReportDirs
  import opened Menus
  import opened ListWorks
  import opened Conversation

  datatype Step =
    | SelectingHouse | SelectingAddress | ConfirmingAddress | SelectingWorkType | ConfirmingWorkType
    | ReceivingPhotoBefore | ChoosingAction | ReceivingTaskNumber | ReceivingPhotoAfter

  /** The callbacks registered in `main()`. */
  datatype Handler =
    | OnStart | OnHouse(text: string) | OnAddress(text: string) | OnAddressConfirmation(data: string)
    | OnWorkType(text: string) | OnWorkConfirmation(data: string) | OnPhotoBefore
    | OnAction(text: string) | OnTaskSelection(data: string) | OnPhotoAfter

  /** The state a handler is registered for; `/start` is registered for all of them. */
  function StateOf(h: Handler): Step
  {
    match h
    case OnStart => SelectingHouse
    case OnHouse(_) => SelectingHouse
    case OnAddress(_) => SelectingAddress
    case OnAddressConfirmation(_) => ConfirmingAddress
    case OnWorkType(_) => SelectingWorkType
    case OnWorkConfirmation(_) => ConfirmingWorkType
    case OnPhotoBefore => ReceivingPhotoBefore
    case OnAction(_) => ChoosingAction
    case OnTaskSelection(_) => ReceivingTaskNumber
    case OnPhotoAfter => ReceivingPhotoAfter
  }

  /**
    * The conversation handler of `main()`: `/start` as entry point and
    * fallback, one handler per state; text handlers never see commands.
    */
  function Route(p: Phase<Step>, u: Update): (r: Option<Handler>)
    ensures p.Idle? ==> (r.Some? <==> u == Command("start"))
    ensures u == Command("start") ==> r == Some(OnStart)
    ensures u.Command? && u.name != "start" ==> r.None?
    ensures r.Some? && !r.value.OnStart? ==> p == Active(StateOf(r.value))
  {
    match p
    case Idle => if u == Command("start") then Some(OnStart) else None
    case Active(s) =>
      match (s, u)
      case (SelectingHouse, Text(t)) => Some(OnHouse(t))
      case (SelectingAddress, Text(t)) => Some(OnAddress(t))
      case (ConfirmingAddress, Callback(d)) => Some(OnAddressConfirmation(d))
      case (SelectingWorkType, Text(t)) => Some(OnWorkType(t))
      case (ConfirmingWorkType, Callback(d)) => Some(OnWorkConfirmation(d))
      case (ReceivingPhotoBefore, Photo) => Some(OnPhotoBefore)
      case (ChoosingAction, Text(t)) => Some(OnAction(t))
      case (ReceivingTaskNumber, Callback(d)) => Some(OnTaskSelection(d))
      case (ReceivingPhotoAfter, Photo) => Some(OnPhotoAfter)
      case _ => if u == Command("start") then Some(OnStart) else None
  }

  /** The key `select_house` looks up: the stripped input, normalised. */
  function HouseKeyOf(text: string): string
  {
    NormalizeInput(Strip(text))
  }

  /** The work-type menu shown after the address is confirmed. */
  function WorkMenu(works: seq<Item>): string
  {
    "Выберите тип работ:\n" + MenuLines(ItemNames(works), 1)
  }

  /** `create_task_keyboard(page)`: 30 tasks per page. */
  function TaskKeyboard(tasks: seq<Task>, page: int): Keyboard
  {
    Keyboard(TaskRows(Page(tasks, page, 30), false), NavButtons(|tasks|, page, 30))
  }

  /** The steps between a known house and its report directory. */
  predicate Choosing(p: Phase<Step>)
  {
    p.Active? && (p.state.SelectingAddress? || p.state.ConfirmingAddress? || p.state.SelectingWorkType?)
  }

  /** The states in which a handler can raise once the conversation is reachable. */
  predicate MayRaise(p: Phase<Step>)
  {
    p.Active? && (p.state.SelectingHouse? || p.state.ReceivingTaskNumber? || p.state.ReceivingPhotoAfter?)
  }

  class Bot {
    var phase: Phase<Step>
    var session: Session
    var disk: Disk
    /** `HOUSES_DICT` and `LIST_WORKS`, loaded at start-up. */
    const houses: map<string, seq<string>>
    const works: seq<Item>

    constructor (houses: map<string, seq<string>>, works: seq<Item>, disk: Disk)
      ensures this.houses == houses && this.works == works && this.disk == disk
      ensures phase == Idle && session == EmptySession
      ensures Reachable()
    {
      this.houses := houses;
      this.works := works;
      this.disk := disk;
      phase := Idle;
      session := EmptySession;
    }

    /** A known house with its (non-empty) address list is in the session. */
    ghost predicate HouseChosen(s: Session)
    {
      s.selectedHouse.Some? && s.selectedHouse.value in houses && houses[s.selectedHouse.value] != []
      && s.addresses == Some(houses[s.selectedHouse.value])
    }

    /**
      * What holds in every state the conversation reaches: the work-type
      * confirmation is never entered, the session's report directory
      * exists, the address and work-type steps have a known house, and a
      * photo before is only awaited once the directory and all record
      * fields are set.
      */
    ghost predicate Reachable()
      reads this
    {
      ReachableAt(phase)
    }

    /** `select_house`: an unknown house asks again; a known one stores the house, its addresses and the first address. */
    method SelectHouse(text: string) returns (o: Outcome<Step>)
      modifies this`session
      ensures HouseKeyOf(text) !in houses ==> o == Goto(SelectingHouse) && session == old(session)
      ensures HouseKeyOf(text) in houses && houses[HouseKeyOf(text)] == [] ==>
        o == Raised && session == old(session).(selectedHouse := Some(HouseKeyOf(text)), addresses := Some([]))
      ensures HouseKeyOf(text) in houses && houses[HouseKeyOf(text)] != [] ==>
        o == Goto(SelectingAddress)
        && session == old(session).(selectedHouse := Some(HouseKeyOf(text)), addresses := Some(houses[HouseKeyOf(text)]),
                                    fullAddress := Some(houses[HouseKeyOf(text)][0]))
    {
      var key := NormalizeInput(Strip(text));
      if key !in houses {
        return Goto(SelectingHouse);
      }
      session := session.(selectedHouse := Some(key));
      session := session.(addresses := Some(houses[key]));
      if houses[key] == [] {
        // `HOUSES_DICT[house_number][0]` raises `IndexError`
        return Raised;
      }
      session := session.(fullAddress := Some(houses[key][0]));
      o := Goto(SelectingAddress);
    }

    /** `select_address`: a number chooses an address of the list; anything else asks again. */
    method SelectAddress(text: string) returns (o: Outcome<Step>)
      modifies this`session
      ensures ParseInt(text).None? ==> o == Goto(SelectingAddress) && session == old(session)
      ensures ParseInt(text).Some? && old(session).addresses.None? ==> o == Raised && session == old(session)
      ensures ParseInt(text).Some? && old(session).addresses.Some? && ChosenIndex(text, |old(session).addresses.value|).None? ==>
        o == Goto(SelectingAddress) && session == old(session)
      ensures ParseInt(text).Some? && old(session).addresses.Some? && ChosenIndex(text, |old(session).addresses.value|).Some? ==>
        o == Goto(ConfirmingAddress)
        && session == old(session).(selectedAddress := Some(old(session).addresses.value[ChosenIndex(text, |old(session).addresses.value|).value]))
    {
      StripIdempotent(text);
      var choice := ParseInt(Strip(text));
      if choice.None? {
        return Goto(SelectingAddress);
      }
      if session.addresses.None? {
        // `context.user_data["addresses"]` raises `KeyError`
        return Raised;
      }
      var addresses := session.addresses.value;
      if choice.value < 1 || choice.value > |addresses| {
        return Goto(SelectingAddress);
      }
      session := session.(selectedAddress := Some(addresses[choice.value - 1]));
      o := Goto(ConfirmingAddress);
    }

    /** `handle_address_confirmation`: `correct` shows the work menu, `incorrect` starts over. */
    method AddressConfirmation(data: string) returns (o: Outcome<Step>, shown: seq<string>)
      ensures data == "correct" && works == [] ==> o == End && shown == []
      ensures data == "correct" && works != [] ==> o == Goto(SelectingWorkType) && Displayed(WorkMenu(works), shown)
      ensures data == "incorrect" ==> o == Goto(SelectingHouse) && shown == []
      ensures data != "correct" && data != "incorrect" ==> o == Stay && shown == []
    {
      shown := [];
      if data == "correct" {
        if works == [] {
          return End, [];
        }
        var menu := BuildMenu("Выберите тип работ:\n", ItemNames(works));
        shown := ShowMenu(menu);
        o := Goto(SelectingWorkType);
      } else if data == "incorrect" {
        o := Goto(SelectingHouse);
      } else {
        o := Stay;
      }
    }

    /**
      * How `create_report_directory(context.user_data["selected_house"])`
      * ends for session `s`: a missing house key raises `KeyError`, an
      * unknown house raises the `ValueError` that `select_work_type`
      * catches, an empty address list raises `IndexError`; otherwise the
      * next report directory under the first address is created.
      */
    ghost predicate AllocationStep(s: Session, d: Disk, env: Env, s': Session, d': Disk, o: Outcome<Step>)
    {
      if s.selectedHouse.None? then o == Raised && s' == s && d' == d
      else if s.selectedHouse.value !in houses then o == Goto(SelectingWorkType) && s' == s && d' == d
      else if houses[s.selectedHouse.value] == [] then o == Raised && s' == s && d' == d
      else
        o == Goto(ReceivingPhotoBefore) && s'.reportDir.Some? && s' == s.(reportDir := s'.reportDir)
        && Allocated(d.dirs, BaseDir(env.year, houses[s.selectedHouse.value][0], env.month), s'.reportDir.value)
        && d' == d.(dirs := Makedirs(d.dirs, s'.reportDir.value))
    }

    /** `select_work_type`: a number from the menu stores the work and allocates the report directory. */
    method SelectWorkType(text: string, env: Env) returns (o: Outcome<Step>)
      modifies this`session, this`disk
      ensures ChosenIndex(text, |works|).None? ==> o == Goto(SelectingWorkType) && session == old(session) && disk == old(disk)
      ensures ChosenIndex(text, |works|).Some? ==>
        AllocationStep(old(session).(workType := Some(works[ChosenIndex(text, |works|).value].name),
                                     workData := Some(works[ChosenIndex(text, |works|).value].data)),
                       old(disk), env, session, disk, o)
    {
      StripIdempotent(text);
      var choice := ParseInt(Strip(text));
      if choice.None? || choice.value < 1 || choice.value > |works| {
        return Goto(SelectingWorkType);
      }
      var work := works[choice.value - 1];
      session := session.(workType := Some(work.name));
      session := session.(workData := Some(work.data));
      if session.selectedHouse.None? {
        return Raised;
      }
      var r, after := CreateForHouse(houses, session.selectedHouse.value, env.year, env.month, disk.dirs);
      match r
      case UnknownHouse =>
        o := Goto(SelectingWorkType);
      case NoAddress =>
        o := Raised;
      case Created(_, dir) =>
        session := session.(reportDir := Some(dir));
        disk := disk.(dirs := after);
        o := Goto(ReceivingPhotoBefore);
    }

    /** `handle_work_confirmation`. */
    method WorkConfirmation(data: string) returns (o: Outcome<Step>)
      ensures data == "work_correct" ==> o == Goto(ReceivingPhotoBefore)
      ensures data == "work_incorrect" ==> o == Goto(SelectingWorkType)
      ensures data != "work_correct" && data != "work_incorrect" ==> o == Stay
    {
      if data == "work_correct" {
        o := Goto(ReceivingPhotoBefore);
      } else if data == "work_incorrect" {
        o := Goto(SelectingWorkType);
      } else {
        o := Stay;
      }
    }

    /**
      * `handle_photo_before`: saves `до.jpg` in the report directory, then
      * writes the record's lines; a session key missing midway leaves the
      * lines written so far and ends the conversation.
      */
    method PhotoBefore(env: Env) returns (o: Outcome<Step>)
      modifies this`session, this`disk
      ensures old(session).reportDir.None? ==> o == Raised && session == old(session) && disk == old(disk)
      ensures old(session).reportDir.Some? && !Downloads(env, old(disk), old(session).reportDir.value) ==>
        o == Goto(ReceivingPhotoBefore) && session == old(session) && disk == old(disk)
      ensures old(session).reportDir.Some? && Downloads(env, old(disk), old(session).reportDir.value) ==>
        var dir := old(session).reportDir.value;
        var es := RecordEntries(old(session));
        session == old(session).(photoBefore := Some(PathIn(dir, BeforePhoto)))
        && disk.dirs == old(disk).dirs
        && disk.photos == old(disk).photos + {PathIn(dir, BeforePhoto)}
        && disk.files == old(disk).files[ReportFile(dir) := if AllPresent(es) then WriteEntries(es) + PendingLine else WriteEntries(es)]
        && o == (if AllPresent(es) then Goto(ChoosingAction) else End)
    {
      if session.reportDir.None? {
        return Raised;
      }
      var dir := session.reportDir.value;
      var path := PathIn(dir, BeforePhoto);
      if !(env.downloadOk && dir in disk.dirs) {
        return Goto(ReceivingPhotoBefore);
      }
      disk := disk.(photos := disk.photos + {path});
      session := session.(photoBefore := Some(path));
      var es := RecordEntries(session);
      var text := WriteEntries(es);
      if AllPresent(es) {
        text := text + PendingLine;
      }
      disk := disk.(files := disk.files[ReportFile(dir) := text]);
      o := if AllPresent(es) then Goto(ChoosingAction) else End;
    }

    /**
      * `choose_action`: the four reply buttons; anything else asks again.
      * The task keyboard is sent inside a `try`: when Telegram refuses it
      * (`env.sendOk` false, as for a button whose data is over 64 bytes)
      * the error is caught and the action is asked for again.
      */
    method ChooseAction(text: string, env: Env) returns (o: Outcome<Step>, kb: Option<Keyboard>)
      ensures text == AddPhotoNow ==> o == Goto(ReceivingPhotoAfter) && kb == None
      ensures text == AddPhotoLater ==> o == Goto(ChoosingAction) && kb == None
      ensures text == ContinueTask && env.sendOk ==>
        o == Goto(ReceivingTaskNumber) && kb == Some(TaskKeyboard(UnfinishedTasks(disk.files, env.walk), 0))
      ensures text == ContinueTask && !env.sendOk ==> o == Goto(ChoosingAction) && kb == None
      ensures text == StartNew ==> o == Goto(SelectingHouse) && kb == None
      ensures text !in {AddPhotoNow, AddPhotoLater, ContinueTask, StartNew} ==> o == Goto(ChoosingAction) && kb == None
    {
      ButtonsDistinct();
      kb := None;
      if text == AddPhotoNow {
        o := Goto(ReceivingPhotoAfter);
      } else if text == AddPhotoLater {
        o := Goto(ChoosingAction);
      } else if text == ContinueTask {
        var tasks := GetUnfinishedTasks(disk.files, env.walk);
        var k := PagedTaskKeyboard(tasks, 0);
        assert k == Keyboard(k.rows, k.nav);
        if env.sendOk {
          kb := Some(k);
          o := Goto(ReceivingTaskNumber);
        } else {
          o := Goto(ChoosingAction);
        }
      } else if text == StartNew {
        o := Goto(SelectingHouse);
      } else {
        o := Goto(ChoosingAction);
      }
    }

    /**
      * `handle_photo_after`: saves `после.jpg`, rewrites the record with its
      * pending line marked done, then builds and sends the PDF. The
      * directory is the session's `report_dir`.
      */
    method PhotoAfter(env: Env) returns (o: Outcome<Step>)
      modifies this`disk
      ensures !Present(old(session).reportDir) ==> o == End && disk == old(disk)
      ensures Present(old(session).reportDir) && !Downloads(env, old(disk), old(session).reportDir.value) ==>
        o == Goto(ReceivingPhotoAfter) && disk == old(disk)
      ensures Present(old(session).reportDir) && Downloads(env, old(disk), old(session).reportDir.value)
              && ReportFile(old(session).reportDir.value) !in old(disk).files ==>
        o == End && disk == old(disk).(photos := old(disk).photos + {PathIn(old(session).reportDir.value, AfterPhoto)})
      ensures Present(old(session).reportDir) && Downloads(env, old(disk), old(session).reportDir.value)
              && ReportFile(old(session).reportDir.value) in old(disk).files ==>
        var dir := old(session).reportDir.value;
        var record := ReportFile(dir);
        disk == old(disk).(photos := old(disk).photos + {PathIn(dir, AfterPhoto)},
                           files := old(disk).files[record := Concat(MarkDone(ReadLines(old(disk).files[record])))])
        && o == PdfOutcome(env, session, old(disk).photos, dir, ChoosingAction)
    {
      if !Present(session.reportDir) {
        return End;
      }
      var dir := session.reportDir.value;
      if !(env.downloadOk && dir in disk.dirs) {
        return Goto(ReceivingPhotoAfter);
      }
      var before := disk.photos;
      disk := disk.(photos := disk.photos + {PathIn(dir, AfterPhoto)});
      var record := ReportFile(dir);
      if record !in disk.files {
        return End;
      }
      var text := WriteMarkedDone(ReadLines(disk.files[record]));
      disk := disk.(files := disk.files[record := text]);
      o := PdfOutcome(env, session, before, dir, ChoosingAction);
    }

    /**
      * `handle_task_selection`: a task button stores its house and work
      * type (the report directory stays the session's own); a page button
      * shows that page of the unfinished tasks.
      */
    method TaskSelection(data: string, env: Env) returns (o: Outcome<Step>, kb: Option<Keyboard>)
      modifies this`session
      ensures ParseCallback(data).TaskPicked? ==>
        o == Goto(ReceivingPhotoAfter) && kb == None
        && session == old(session).(selectedHouse := Some(ParseCallback(data).house), workType := Some(ParseCallback(data).workType))
      ensures ParseCallback(data).PageTurned? ==>
        o == Goto(ReceivingTaskNumber) && session == old(session)
        && kb == Some(TaskKeyboard(UnfinishedTasks(disk.files, env.walk), ParseCallback(data).page))
      ensures ParseCallback(data).CallbackFailed? ==> o == Raised && kb == None && session == old(session)
      ensures ParseCallback(data).Unhandled? ==> o == Stay && kb == None && session == old(session)
    {
      kb := None;
      match ParseCallback(data)
      case TaskPicked(house, work) =>
        session := session.(selectedHouse := Some(house));
        session := session.(workType := Some(work));
        o := Goto(ReceivingPhotoAfter);
      case PageTurned(page) =>
        var tasks := GetUnfinishedTasks(disk.files, env.walk);
        var k := PagedTaskKeyboard(tasks, page);
        assert k == Keyboard(k.rows, k.nav);
        kb := Some(k);
        o := Goto(ReceivingTaskNumber);
      case CallbackFailed =>
        o := Raised;
      case Unhandled =>
        o := Stay;
    }

    /** `Reachable()` with the conversation in phase `p`. */
    ghost predicate ReachableAt(p: Phase<Step>)
      reads this
    {
      p != Active(ConfirmingWorkType)
      && (session.reportDir.Some? ==> session.reportDir.value in disk.dirs)
      && (Choosing(p) ==> HouseChosen(session))
      && (p == Active(ReceivingPhotoBefore) ==> session.reportDir.Some? && RecordReady(session))
    }


    /** Runs the handler `h` routed to in the current phase. */
    method Run(h: Handler, env: Env) returns (o: Outcome<Step>)
      requires ReachableAt(phase)
      requires h.OnStart? || phase == Active(StateOf(h))
      modifies this`session, this`disk
      ensures ReachableAt(After(phase, o))
      ensures old(disk).dirs <= disk.dirs
      ensures o.Raised? ==> MayRaise(phase)
      ensures h == OnPhotoBefore ==> o in {Goto(ChoosingAction), Goto(ReceivingPhotoBefore)}
    {
      if h.OnStart? {
        o := Goto(SelectingHouse);
      } else if h.OnHouse? || h.OnAddress? || h.OnAddressConfirmation? || h.OnWorkType? {
        o := RunChoice(h, env);
      } else {
        o := RunReport(h, env);
      }
    }

    /** The handlers that choose the house, the address and the work type. */
    method RunChoice(h: Handler, env: Env) returns (o: Outcome<Step>)
      requires ReachableAt(phase)
      requires h.OnHouse? || h.OnAddress? || h.OnAddressConfirmation? || h.OnWorkType?
      requires phase == Active(StateOf(h))
      modifies this`session, this`disk
      ensures ReachableAt(After(phase, o))
      ensures old(disk).dirs <= disk.dirs
      ensures o.Raised? ==> MayRaise(phase)
    {
      match h {
        case OnHouse(text) =>
          o := SelectHouse(text);
        case OnAddress(text) =>
          o := SelectAddress(text);
        case OnAddressConfirmation(data) =>
          var shown;
          o, shown := AddressConfirmation(data);
        case OnWorkType(text) =>
          o := SelectWorkType(text, env);
      }
    }

    /** The handlers of the report itself: photos, actions, task selection. */
    method RunReport(h: Handler, env: Env) returns (o: Outcome<Step>)
      requires ReachableAt(phase)
      requires h.OnWorkConfirmation? || h.OnPhotoBefore? || h.OnAction? || h.OnTaskSelection? || h.OnPhotoAfter?
      requires phase == Active(StateOf(h))
      modifies this`session, this`disk
      ensures ReachableAt(After(phase, o))
      ensures old(disk).dirs <= disk.dirs
      ensures o.Raised? ==> MayRaise(phase)
      ensures h == OnPhotoBefore ==> o in {Goto(ChoosingAction), Goto(ReceivingPhotoBefore)}
    {
      match h {
        case OnWorkConfirmation(_) =>
          assert false;
        case OnPhotoBefore =>
          ReadyEntriesPresent(session);
          o := PhotoBefore(env);
        case OnAction(text) =>
          var kb;
          o, kb := ChooseAction(text, env);
        case OnTaskSelection(data) =>
          var kb;
          o, kb := TaskSelection(data, env);
        case OnPhotoAfter =>
          o := PhotoAfter(env);
      }
    }

    /**
      * One update through the conversation handler. Reachable states stay
      * reachable, directories are only ever created, and in a reachable
      * state only three steps can raise; awaiting the photo before, a photo
      * never ends the conversation. This takes `get_file` to succeed: it is
      * folded into `env.downloadOk`, whereas tg_v10.py:276 calls it outside
      * the `try`, so a failed `get_file` raises there.
      */
    method Handle(u: Update, env: Env) returns (o: Outcome<Step>)
      requires Reachable()
      modifies this
      ensures Reachable()
      ensures phase == After(old(phase), o)
      ensures Route(old(phase), u).None? ==> o == Ignored && session == old(session) && disk == old(disk)
      ensures old(disk).dirs <= disk.dirs
      ensures o.Raised? ==> MayRaise(old(phase))
      ensures old(phase) == Active(ReceivingPhotoBefore) && u.Photo? ==> o in {Goto(ChoosingAction), Goto(ReceivingPhotoBefore)}
    {
      var p := phase;
      var r := Route(p, u);
      if r.None? {
        return Ignored;
      }
      o := Run(r.value, env);
      phase := After(p, o);
    }
  }
}

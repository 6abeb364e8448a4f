/**
  * `tg_v6_work.py`: house, address, a free-text work type; the report
  * directory is allocated at the photo before when the session has none,
  * and the three-line record is written only at the photo after, which
  * also allocates the next directory for the same house.
  */
module BotV6 {
  import opened Strings
  import opened Numbers
  import opened Lines
  import opened Records
  import opened Menus
  import opened ReportDirs
  import opened Conversation

  /** The eight states the script declares; no handler returns `ReceivingTaskNumber`. */
  datatype Step =
    | SelectingHouse | SelectingAddress | ConfirmingAddress | SelectingWorkType
    | ReceivingPhotoBefore | ChoosingAction | ReceivingTaskNumber | ReceivingPhotoAfter

  /** The callbacks registered in `main()`. The address is confirmed by an inline button or by text. */
  datatype Handler =
    | OnStart | OnHouse(text: string) | OnAddress(text: string)
    | OnInlineButton(data: string) | OnAddressConfirmation(text: string)
    | OnWorkType(text: string) | OnPhotoBefore | OnAction(text: string) | OnPhotoAfter

  function StateOf(h: Handler): Step
  {
    match h
    case OnStart => SelectingHouse
    case OnHouse(_) => SelectingHouse
    case OnAddress(_) => SelectingAddress
    case OnInlineButton(_) => ConfirmingAddress
    case OnAddressConfirmation(_) => ConfirmingAddress
    case OnWorkType(_) => SelectingWorkType
    case OnPhotoBefore => ReceivingPhotoBefore
    case OnAction(_) => ChoosingAction
    case OnPhotoAfter => ReceivingPhotoAfter
  }

  /** The conversation handler of `main()`: `/start` as entry point, no fallbacks. */
  function Route(p: Phase<Step>, u: Update): (r: Option<Handler>)
    ensures p.Idle? ==> (r.Some? <==> u == Command("start"))
    ensures p.Active? && u.Command? ==> r.None?
    ensures p == Active(ReceivingTaskNumber) ==> r.None?
    ensures r.Some? && !r.value.OnStart? ==> p == Active(StateOf(r.value))
    ensures r == Some(OnStart) ==> p.Idle?
  {
    match p
    case Idle => if u == Command("start") then Some(OnStart) else None
    case Active(s) =>
      match (s, u)
      case (SelectingHouse, Text(t)) => Some(OnHouse(t))
      case (SelectingAddress, Text(t)) => Some(OnAddress(t))
      case (ConfirmingAddress, Callback(d)) => Some(OnInlineButton(d))
      case (ConfirmingAddress, Text(t)) => Some(OnAddressConfirmation(t))
      case (SelectingWorkType, Text(t)) => Some(OnWorkType(t))
      case (ReceivingPhotoBefore, Photo) => Some(OnPhotoBefore)
      case (ChoosingAction, Text(t)) => Some(OnAction(t))
      case (ReceivingPhotoAfter, Photo) => Some(OnPhotoAfter)
      case _ => None
  }

  /** The states reached only after a house was accepted. */
  predicate HouseKnown(p: Phase<Step>)
  {
    p.Active? && !p.state.SelectingHouse? && !p.state.ReceivingTaskNumber?
  }

  /** The states reached only after a work type was entered. */
  predicate WorkKnown(p: Phase<Step>)
  {
    p.Active? && (p.state.ReceivingPhotoBefore? || p.state.ChoosingAction? || p.state.ReceivingPhotoAfter?)
  }

  /** The states reached only after the photo before was saved. */
  predicate Photographed(p: Phase<Step>)
  {
    p.Active? && (p.state.ChoosingAction? || p.state.ReceivingPhotoAfter?)
  }

  class Bot {
    var phase: Phase<Step>
    var session: Session
    var disk: Disk
    /** `HOUSES_DICT`, loaded at start-up. */
    const houses: map<string, seq<string>>

    constructor (houses: map<string, seq<string>>, disk: Disk)
      ensures this.houses == houses && this.disk == disk
      ensures phase == Idle && session == EmptySession
      ensures Reachable()
    {
      this.houses := houses;
      this.disk := disk;
      phase := Idle;
      session := EmptySession;
    }

    /** `Reachable()` with the conversation in phase `p`. */
    ghost predicate ReachableAt(p: Phase<Step>)
      reads this
    {
      p != Active(ReceivingTaskNumber)
      && (session.reportDir.Some? ==> session.reportDir.value in disk.dirs && session.reportDir.value != "")
      && (HouseKnown(p) ==> session.selectedHouse.Some?)
      && (p.Active? && (p.state.SelectingAddress? || p.state.ConfirmingAddress?) ==> session.addresses.Some?)
      && (WorkKnown(p) ==> session.workType.Some?)
      && (Photographed(p) ==> session.reportDir.Some? && PathIn(session.reportDir.value, BeforePhoto) in disk.photos)
    }

    /**
      * What holds in every state the conversation reaches: a stored report
      * directory exists, every step after the house has one, after the work
      * type there is one, and the action menu and the photo after come only
      * once the photo before is saved in the session's directory.
      */
    ghost predicate Reachable()
      reads this
    {
      ReachableAt(phase)
    }

    /** `select_house`: the stripped text must be a key of `HOUSES_DICT`. */
    method SelectHouse(text: string) returns (o: Outcome<Step>)
      modifies this`session
      ensures Strip(text) !in houses ==> o == Goto(SelectingHouse) && session == old(session)
      ensures Strip(text) in houses ==>
        o == Goto(SelectingAddress)
        && session == old(session).(addresses := Some(houses[Strip(text)]), selectedHouse := Some(Strip(text)))
    {
      var key := Strip(text);
      if key !in houses {
        return Goto(SelectingHouse);
      }
      session := session.(addresses := Some(houses[key]));
      session := session.(selectedHouse := Some(key));
      o := Goto(SelectingAddress);
    }

    /** `select_address`: a number chooses an address of the list; anything else asks again. */
    method SelectAddress(text: string) returns (o: Outcome<Step>)
      modifies this`session
      ensures ParseInt(text).None? ==> o == Goto(SelectingAddress) && session == old(session)
      ensures ParseInt(text).Some? && old(session).addresses.None? ==> o == Raised && session == old(session)
      ensures ParseInt(text).Some? && old(session).addresses.Some? && ChosenIndex(text, |old(session).addresses.value|).None? ==>
        o == Goto(SelectingAddress) && session == old(session)
      ensures ParseInt(text).Some? && old(session).addresses.Some? && ChosenIndex(text, |old(session).addresses.value|).Some? ==>
        o == Goto(ConfirmingAddress)
        && session == old(session).(selectedAddress := Some(old(session).addresses.value[ChosenIndex(text, |old(session).addresses.value|).value]))
    {
      StripIdempotent(text);
      var choice := ParseInt(Strip(text));
      if choice.None? {
        return Goto(SelectingAddress);
      }
      if session.addresses.None? {
        return Raised;
      }
      var addresses := session.addresses.value;
      if choice.value < 1 || choice.value > |addresses| {
        return Goto(SelectingAddress);
      }
      session := session.(selectedAddress := Some(addresses[choice.value - 1]));
      o := Goto(ConfirmingAddress);
    }

    /** `handle_inline_buttons`: the buttons under the chosen address. */
    method InlineButton(data: string) returns (o: Outcome<Step>)
      ensures data == "correct" ==> o == Goto(SelectingWorkType)
      ensures data == "incorrect" ==> o == Goto(SelectingHouse)
      ensures data != "correct" && data != "incorrect" ==> o == Stay
    {
      if data == "correct" {
        o := Goto(SelectingWorkType);
      } else if data == "incorrect" {
        o := Goto(SelectingHouse);
      } else {
        o := Stay;
      }
    }

    /** `handle_address_confirmation`: the same choice typed as the buttons' captions. */
    method AddressConfirmation(text: string) returns (o: Outcome<Step>)
      ensures text == "Верно" ==> o == Goto(SelectingWorkType)
      ensures text == "Выбрать другой" ==> o == Goto(SelectingHouse)
      ensures text != "Верно" && text != "Выбрать другой" ==> o == Stay
    {
      if text == "Верно" {
        o := Goto(SelectingWorkType);
      } else if text == "Выбрать другой" {
        o := Goto(SelectingHouse);
      } else {
        o := Stay;
      }
    }

    /** `select_work_type`: any text is taken as the work type. */
    method SelectWorkType(text: string) returns (o: Outcome<Step>)
      modifies this`session
      ensures o == Goto(ReceivingPhotoBefore) && session == old(session).(workType := Some(text))
    {
      session := session.(workType := Some(text));
      o := Goto(ReceivingPhotoBefore);
    }

    /**
      * `handle_photo_before`: allocates a report directory for the selected
      * house only when the session holds none, then saves `до.jpg` into it.
      * A directory allocated before a failed download stays in the session.
      */
    method PhotoBefore(env: Env) returns (o: Outcome<Step>)
      modifies this`session, this`disk
      ensures old(session).reportDir.None? && old(session).selectedHouse.None? ==>
        o == Raised && session == old(session) && disk == old(disk)
      ensures old(session).reportDir.Some? ==>
        session.reportDir == old(session).reportDir && disk.dirs == old(disk).dirs
      ensures old(session).reportDir.None? && old(session).selectedHouse.Some? ==>
        session.reportDir.Some?
        && ReportDirs.Allocated(old(disk).dirs, BaseDir(env.year, old(session).selectedHouse.value, env.month), session.reportDir.value)
        && disk.dirs == Makedirs(old(disk).dirs, session.reportDir.value)
      ensures old(session).reportDir.Some? || old(session).selectedHouse.Some? ==>
        disk.files == old(disk).files
        && (!Downloads(env, disk, session.reportDir.value) ==>
              o == Goto(ReceivingPhotoBefore) && disk.photos == old(disk).photos
              && session == old(session).(reportDir := session.reportDir))
        && (Downloads(env, disk, session.reportDir.value) ==>
              o == Goto(ChoosingAction)
              && disk.photos == old(disk).photos + {PathIn(session.reportDir.value, BeforePhoto)}
              && session == old(session).(reportDir := session.reportDir,
                                          photoBefore := Some(PathIn(session.reportDir.value, BeforePhoto))))
    {
      if session.reportDir.None? {
        if session.selectedHouse.None? {
          return Raised;
        }
        var n, dir, after := CreateReportDirectory(disk.dirs, BaseDir(env.year, session.selectedHouse.value, env.month));
        session := session.(reportDir := Some(dir));
        disk := disk.(dirs := after);
      }
      var dir := session.reportDir.value;
      var path := PathIn(dir, BeforePhoto);
      if !(env.downloadOk && dir in disk.dirs) {
        return Goto(ReceivingPhotoBefore);
      }
      disk := disk.(photos := disk.photos + {path});
      session := session.(photoBefore := Some(path));
      o := Goto(ChoosingAction);
    }

    /** `choose_action`: "add the photo later" starts a new task and writes no record. */
    method ChooseAction(text: string) returns (o: Outcome<Step>)
      ensures text == AddPhotoNow ==> o == Goto(ReceivingPhotoAfter)
      ensures text == AddPhotoLater ==> o == Goto(SelectingHouse)
      ensures text != AddPhotoNow && text != AddPhotoLater ==> o == Stay
    {
      ButtonsDistinct();
      if text == AddPhotoNow {
        o := Goto(ReceivingPhotoAfter);
      } else if text == AddPhotoLater {
        o := Goto(SelectingHouse);
      } else {
        o := Stay;
      }
    }

    /**
      * `handle_photo_after`: saves `после.jpg`, overwrites the record with
      * the house, the work type and the done status (a missing key leaves
      * the lines written before it and ends the conversation), builds and
      * sends the PDF, and allocates the next directory for the same house.
      */
    method PhotoAfter(env: Env) returns (o: Outcome<Step>)
      modifies this`session, this`disk
      ensures !Present(old(session).reportDir) ==> o == End && session == old(session) && disk == old(disk)
      ensures Present(old(session).reportDir) && !Downloads(env, old(disk), old(session).reportDir.value) ==>
        o == Goto(ReceivingPhotoAfter) && session == old(session) && disk == old(disk)
      ensures Present(old(session).reportDir) && Downloads(env, old(disk), old(session).reportDir.value) ==>
        var dir := old(session).reportDir.value;
        var es := [Entry(HouseLabel, old(session).selectedHouse), Entry(WorkLabel, old(session).workType)];
        var written := old(disk).(photos := old(disk).photos + {PathIn(dir, AfterPhoto)},
                                  files := old(disk).files[ReportFile(dir) := if AllPresent(es) then WriteEntries(es) + DoneLine else WriteEntries(es)]);
        (!AllPresent(es) ==> o == End && session == old(session) && disk == written)
        && (AllPresent(es) && !PdfOutcome(env, old(session), old(disk).photos, dir, SelectingHouse).Goto? ==>
              o == PdfOutcome(env, old(session), old(disk).photos, dir, SelectingHouse)
              && session == old(session) && disk == written)
        && (AllPresent(es) && PdfOutcome(env, old(session), old(disk).photos, dir, SelectingHouse).Goto? ==>
              o == Goto(SelectingHouse) && session.reportDir.Some?
              && session == old(session).(reportDir := session.reportDir)
              && ReportDirs.Allocated(written.dirs, BaseDir(env.year, old(session).selectedHouse.value, env.month), session.reportDir.value)
              && disk == written.(dirs := Makedirs(written.dirs, session.reportDir.value)))
    {
      if !Present(session.reportDir) {
        return End;
      }
      var dir := session.reportDir.value;
      if !(env.downloadOk && dir in disk.dirs) {
        return Goto(ReceivingPhotoAfter);
      }
      var before := disk.photos;
      disk := disk.(photos := disk.photos + {PathIn(dir, AfterPhoto)});
      var es := [Entry(HouseLabel, session.selectedHouse), Entry(WorkLabel, session.workType)];
      var text := WriteEntries(es);
      if AllPresent(es) {
        text := text + DoneLine;
      }
      disk := disk.(files := disk.files[ReportFile(dir) := text]);
      if !AllPresent(es) {
        return End;
      }
      o := PdfOutcome(env, session, before, dir, SelectingHouse);
      if o.Goto? {
        var n, next, after := CreateReportDirectory(disk.dirs, BaseDir(env.year, session.selectedHouse.value, env.month));
        session := session.(reportDir := Some(next));
        disk := disk.(dirs := after);
      }
    }

    /** Runs the handler `h` routed to in the current phase. */
    method Run(h: Handler, env: Env) returns (o: Outcome<Step>)
      requires ReachableAt(phase)
      requires h.OnStart? || phase == Active(StateOf(h))
      modifies this`session, this`disk
      ensures ReachableAt(After(phase, o))
      ensures old(disk).dirs <= disk.dirs && old(disk).photos <= disk.photos
      ensures o.Raised? ==> h == OnPhotoAfter && !env.fontOk
      ensures h == OnPhotoAfter && env.downloadOk ==>
        ReportFile(old(session).reportDir.value) in disk.files
        && disk.files[ReportFile(old(session).reportDir.value)]
           == ShortRecord(old(session).selectedHouse.value, old(session).workType.value, DoneLine)
    {
      if h.OnStart? {
        o := Goto(SelectingHouse);
      } else if h.OnHouse? || h.OnAddress? || h.OnInlineButton? || h.OnAddressConfirmation? || h.OnWorkType? {
        o := RunChoice(h);
      } else if h.OnPhotoAfter? {
        o := RunPhotoAfter(env);
      } else {
        o := RunReport(h, env);
      }
    }

    /** The handlers that choose the house, the address and the work type. */
    method RunChoice(h: Handler) returns (o: Outcome<Step>)
      requires ReachableAt(phase)
      requires h.OnHouse? || h.OnAddress? || h.OnInlineButton? || h.OnAddressConfirmation? || h.OnWorkType?
      requires phase == Active(StateOf(h))
      modifies this`session
      ensures ReachableAt(After(phase, o))
      ensures !o.Raised?
    {
      match h {
        case OnHouse(text) =>
          o := SelectHouse(text);
        case OnAddress(text) =>
          o := SelectAddress(text);
        case OnInlineButton(data) =>
          o := InlineButton(data);
        case OnAddressConfirmation(text) =>
          o := AddressConfirmation(text);
        case OnWorkType(text) =>
          o := SelectWorkType(text);
      }
    }

    /** The photo before and the action menu. */
    method RunReport(h: Handler, env: Env) returns (o: Outcome<Step>)
      requires ReachableAt(phase)
      requires h.OnPhotoBefore? || h.OnAction?
      requires phase == Active(StateOf(h))
      modifies this`session, this`disk
      ensures ReachableAt(After(phase, o))
      ensures old(disk).dirs <= disk.dirs && old(disk).photos <= disk.photos
      ensures !o.Raised?
    {
      match h {
        case OnPhotoBefore =>
          o := PhotoBefore(env);
        case OnAction(text) =>
          o := ChooseAction(text);
      }
    }

    /** The photo after, in the state that awaits it. */
    method RunPhotoAfter(env: Env) returns (o: Outcome<Step>)
      requires ReachableAt(phase)
      requires phase == Active(ReceivingPhotoAfter)
      modifies this`session, this`disk
      ensures ReachableAt(After(phase, o))
      ensures old(disk).dirs <= disk.dirs && old(disk).photos <= disk.photos
      ensures o.Raised? ==> !env.fontOk
      ensures env.downloadOk ==>
        ReportFile(old(session).reportDir.value) in disk.files
        && disk.files[ReportFile(old(session).reportDir.value)]
           == ShortRecord(old(session).selectedHouse.value, old(session).workType.value, DoneLine)
    {
      EntriesThenStatus(session.selectedHouse.value, session.workType.value, DoneLine);
      o := PhotoAfter(env);
    }

    /**
      * One update through the conversation handler. Reachable states stay
      * reachable, directories and photos are only ever added, nothing
      * raises but a font that cannot be loaded for the PDF, and a saved
      * photo after always leaves the three-line done record. This takes
      * `get_file` to succeed: it is folded into `env.downloadOk`, whereas
      * tg_v6_work.py:175 and tg_v6_work.py:218 call it outside the `try`,
      * so a failed `get_file` raises there.
      */
    method Handle(u: Update, env: Env) returns (o: Outcome<Step>)
      requires Reachable()
      modifies this
      ensures Reachable()
      ensures phase == After(old(phase), o)
      ensures Route(old(phase), u).None? ==> o == Ignored && session == old(session) && disk == old(disk)
      ensures old(disk).dirs <= disk.dirs && old(disk).photos <= disk.photos
      ensures o.Raised? ==> old(phase) == Active(ReceivingPhotoAfter) && !env.fontOk
      ensures old(phase) == Active(ReceivingPhotoAfter) && u.Photo? && env.downloadOk ==>
        ReportFile(old(session).reportDir.value) in disk.files
        && disk.files[ReportFile(old(session).reportDir.value)]
           == ShortRecord(old(session).selectedHouse.value, old(session).workType.value, DoneLine)
    {
      var p := phase;
      var r := Route(p, u);
      if r.None? {
        return Ignored;
      }
      o := Run(r.value, env);
      phase := After(p, o);
    }
  }
}

/**
  * `tg.py`: users sign in with phone and name once; work is recorded as an
  * unfinished job in `unfinished_jobs.json` when the photo before arrives
  * and can be picked up again by its number after the next `/start`.
  */
module BotV1 {
  import opened Strings
  import opened Numbers
  import opened Menus
  import Sheets
  import opened JobIndex
  import opened Conversation

  datatype Step =
    | RequestingPhone | RequestingFullName | SelectingHouse | SelectingWorkType
    | ReceivingPhotoBefore | ReceivingPhotoAfter | ConfirmingCompletion | ContinuingWork | SelectingUnfinishedJob

  /** The callbacks registered in `main()`; `/cancel` is the one fallback. */
  datatype Handler =
    | OnStart | OnPhone(text: string) | OnFullName(text: string) | OnHouse(text: string)
    | OnWorkType(text: string) | OnPhotoBefore | OnPhotoAfter | OnConfirmation(text: string)
    | OnContinue(text: string) | OnJobNumber(text: string) | OnCancel

  // The reply-keyboard buttons the handlers compare the text with.
  const NewWork := "Новая работа"
  const ContinueWork := "Продолжить работу"
  const FinishWork := "Завершить работу"

  /** `f"photo_before_{house}.jpg"`. */
  function BeforeName(house: string): string
  {
    "photo_before_" + house + ".jpg"
  }

  /** `f"photo_after_{house}.jpg"`. */
  function AfterName(house: string): string
  {
    "photo_after_" + house + ".jpg"
  }

  /** `get_user_data(user)` is truthy: the user has an entry in a readable `users_data.json`. */
  predicate Known(users: Option<map<string, User>>, user: string)
  {
    users.Some? && user in users.value
  }

  /** What `get_house_full_name(house)` returns for `Houses.xlsx` (`None`: it cannot be loaded). */
  function HouseFullNameOf(houses: Option<seq<seq<Sheets.Cell>>>, house: string): Sheets.Cell
  {
    if houses.None? then Sheets.Blank else FullNameIn(houses.value, house)
  }

  /** The job `handle_photo_before` records from the session. */
  function RecordedJob(s: Session, houses: Option<seq<seq<Sheets.Cell>>>): Job
    requires s.selectedHouse.Some? && s.fullName.Some? && s.workType.Some?
  {
    Job(s.selectedHouse.value, s.fullName.value, HouseFullNameOf(houses, s.selectedHouse.value),
        s.workType.value, BeforeName(s.selectedHouse.value), OpenStatus)
  }

  /**
    * A job just recorded is the last one listed for its user, and typing the
    * number shown next to it in the list of unfinished jobs selects it.
    */
  lemma {:induction false} RecordedJobSelectable(content: Option<Jobs>, user: string, job: Job)
    requires content.Some?
    ensures var before := Listed(content, user); var after := Listed(AddedTo(content, user, job), user);
      |after| == |before| + 1 && after[|before|] == job
      && ChosenIndex(ShowNat(|before| + 1), |after|) == Some(|before|)
  {
    AddedAppends(content.value, user, job, user);
    ChosenIndexShown(|Listed(content, user)|, |Listed(content, user)| + 1);
  }

  /** The conversation handler of `main()`: `/start` enters it, `/cancel` leaves it from any state. */
  function Route(p: Phase<Step>, u: Update): (r: Option<Handler>)
    ensures p.Idle? ==> (r.Some? <==> u == Command("start"))
    ensures p.Idle? && r.Some? ==> r.value == OnStart
    ensures p.Active? ==> (r == Some(OnCancel) <==> u == Command("cancel"))
    ensures p.Active? ==> r != Some(OnStart)
    ensures r == Some(OnPhotoBefore) <==> p == Active(ReceivingPhotoBefore) && u == Photo
    ensures r == Some(OnPhotoAfter) <==> p == Active(ReceivingPhotoAfter) && u == Photo
    ensures r.Some? && r.value.OnJobNumber? <==> p == Active(SelectingUnfinishedJob) && u.Text?
    ensures r.Some? && r.value.OnJobNumber? ==> r.value.text == u.text
  {
    match p
    case Idle => if u == Command("start") then Some(OnStart) else None
    case Active(s) =>
      match (s, u)
      case (RequestingPhone, Text(t)) => Some(OnPhone(t))
      case (RequestingFullName, Text(t)) => Some(OnFullName(t))
      case (SelectingHouse, Text(t)) => Some(OnHouse(t))
      case (SelectingWorkType, Text(t)) => Some(OnWorkType(t))
      case (ReceivingPhotoBefore, Photo) => Some(OnPhotoBefore)
      case (ReceivingPhotoAfter, Photo) => Some(OnPhotoAfter)
      case (ConfirmingCompletion, Text(t)) => Some(OnConfirmation(t))
      case (ContinuingWork, Text(t)) => Some(OnContinue(t))
      case (SelectingUnfinishedJob, Text(t)) => Some(OnJobNumber(t))
      case (_, Command("cancel")) => Some(OnCancel)
      case _ => None
  }

  /**
    * One user's conversation with the bot, together with the files all
    * users share: the two JSON stores, `users.xlsx` (rows, `None` while it
    * cannot be loaded) and the photos in the working directory.
    * `Houses.xlsx` and the list `get_work_types()` returns are read only.
    */
  class Bot {
    const user: string
    const jobFile: JobFile
    const userFile: UserFile
    const houses: Option<seq<seq<Sheets.Cell>>>
    const workTypes: seq<Sheets.Cell>
    var usersSheet: Option<seq<seq<Sheets.Cell>>>
    var phase: Phase<Step>
    var session: Session
    var photos: set<string>

    constructor (user: string, jobs: Option<Jobs>, users: Option<map<string, User>>,
                 houses: Option<seq<seq<Sheets.Cell>>>, workTypes: seq<Sheets.Cell>,
                 usersSheet: Option<seq<seq<Sheets.Cell>>>, photos: set<string>)
      ensures this.user == user && jobFile.content == jobs && userFile.content == users
      ensures this.houses == houses && this.workTypes == workTypes && this.usersSheet == usersSheet
      ensures phase == Idle && session == EmptySession && this.photos == photos
      ensures fresh(jobFile) && fresh(userFile)
      ensures Reachable()
    {
      this.user := user;
      jobFile := new JobFile(jobs);
      userFile := new UserFile(users);
      this.houses := houses;
      this.workTypes := workTypes;
      this.usersSheet := usersSheet;
      phase := Idle;
      session := EmptySession;
      this.photos := photos;
    }

    /** `Reachable()` with the conversation in phase `p`. */
    ghost predicate ReachableAt(p: Phase<Step>)
      reads this
    {
      p != Active(ConfirmingCompletion)
      && (p == Active(RequestingFullName) ==> session.phone.Some?)
      && (p == Active(SelectingWorkType) ==> session.selectedHouse.Some?)
      && (p == Active(ReceivingPhotoBefore) ==> session.selectedHouse.Some? && session.workType.Some?)
      && (p == Active(ReceivingPhotoAfter) ==>
            session.selectedHouse.Some? && session.photoBefore == Some(BeforeName(session.selectedHouse.value))
            && session.photoBefore.value in photos)
    }

    /**
      * No handler returns `CONFIRMING_COMPLETION`; the phone is known once the
      * name is asked for; a house is chosen before the work type; and the
      * photo after is awaited only once the photo before is saved.
      */
    ghost predicate Reachable()
      reads this
    {
      ReachableAt(phase)
    }

    /** `start`: known users with jobs pick one, known users without start anew, others sign in. */
    method Start() returns (o: Outcome<Step>)
      ensures !Known(userFile.content, user) ==> o == Goto(RequestingPhone)
      ensures Known(userFile.content, user) && Listed(jobFile.content, user) != [] ==> o == Goto(SelectingUnfinishedJob)
      ensures Known(userFile.content, user) && Listed(jobFile.content, user) == [] ==> o == Goto(SelectingHouse)
    {
      var data := userFile.GetUserData(user);
      if data.None? {
        return Goto(RequestingPhone);
      }
      var jobs := jobFile.GetUnfinishedJobs(user);
      if jobs != [] {
        return Goto(SelectingUnfinishedJob);
      }
      o := Goto(SelectingHouse);
    }

    /** `request_phone`. */
    method RequestPhone(text: string) returns (o: Outcome<Step>)
      modifies this`session
      ensures session == old(session).(phone := Some(text)) && o == Goto(RequestingFullName)
    {
      session := session.(phone := Some(text));
      o := Goto(RequestingFullName);
    }

    /**
      * `request_full_name`: the name is kept in the session, then appended
      * to `users.xlsx` (which raises when the workbook cannot be loaded) and
      * saved for the user in `users_data.json`.
      */
    method RequestFullName(text: string) returns (o: Outcome<Step>)
      modifies this`session, this`usersSheet, userFile
      ensures session == old(session).(fullName := Some(text))
      ensures session.phone.None? || old(usersSheet).None? ==>
        o == Raised && usersSheet == old(usersSheet) && userFile.content == old(userFile.content)
      ensures session.phone.Some? && old(usersSheet).Some? ==>
        o == Goto(SelectingHouse)
        && usersSheet == Some(old(usersSheet).value + [[Sheets.Text(session.phone.value), Sheets.Text(text)]])
        && userFile.content == (if old(userFile.content).None? then None
                                else Some(old(userFile.content).value[user := User(session.phone.value, text)]))
    {
      session := session.(fullName := Some(text));
      if session.phone.None? || usersSheet.None? {
        return Raised;
      }
      usersSheet := Some(usersSheet.value + [[Sheets.Text(session.phone.value), Sheets.Text(text)]]);
      userFile.SaveUserData(user, session.phone.value, text);
      o := Goto(SelectingHouse);
    }

    /**
      * `select_house`: the text is kept as the house; a house without a
      * (truthy) full name is asked for again, and an empty list of work types
      * ends the conversation.
      */
    method SelectHouse(text: string) returns (o: Outcome<Step>)
      modifies this`session
      ensures session == old(session).(selectedHouse := Some(text))
      ensures !Sheets.Truthy(HouseFullNameOf(houses, text)) ==> o == Goto(SelectingHouse)
      ensures Sheets.Truthy(HouseFullNameOf(houses, text)) && workTypes == [] ==> o == End
      ensures Sheets.Truthy(HouseFullNameOf(houses, text)) && workTypes != [] ==> o == Goto(SelectingWorkType)
    {
      session := session.(selectedHouse := Some(text));
      var full := GetHouseFullName(houses, text);
      if !Sheets.Truthy(full) {
        return Goto(SelectingHouse);
      }
      if workTypes == [] {
        return End;
      }
      o := Goto(SelectingWorkType);
    }

    /** `select_work_type`: any text is taken as the work type. */
    method SelectWorkType(text: string) returns (o: Outcome<Step>)
      modifies this`session
      ensures session == old(session).(workType := Some(text)) && o == Goto(ReceivingPhotoBefore)
    {
      session := session.(workType := Some(text));
      o := Goto(ReceivingPhotoBefore);
    }

    /**
      * `handle_photo_before`: without the name, the house or the work type
      * in the session the conversation ends; otherwise the photo is saved as
      * `photo_before_<house>.jpg` and the job recorded as unfinished.
      */
    method PhotoBefore(env: Env) returns (o: Outcome<Step>)
      modifies this`session, this`photos, jobFile
      ensures old(session).fullName.None? || old(session).selectedHouse.None? || old(session).workType.None? ==>
        o == End && session == old(session) && photos == old(photos) && jobFile.content == old(jobFile.content)
      ensures old(session).fullName.Some? && old(session).selectedHouse.Some? && old(session).workType.Some? && !env.downloadOk ==>
        o == Raised && session == old(session) && photos == old(photos) && jobFile.content == old(jobFile.content)
      ensures old(session).fullName.Some? && old(session).selectedHouse.Some? && old(session).workType.Some? && env.downloadOk ==>
        o == Goto(ReceivingPhotoAfter)
        && session == old(session).(photoBefore := Some(BeforeName(old(session).selectedHouse.value)))
        && photos == old(photos) + {BeforeName(old(session).selectedHouse.value)}
        && jobFile.content == AddedTo(old(jobFile.content), user, RecordedJob(old(session), houses))
    {
      if session.fullName.None? || session.selectedHouse.None? || session.workType.None? {
        return End;
      }
      if !env.downloadOk {
        return Raised;
      }
      var job0 := RecordedJob(session, houses);
      var house := session.selectedHouse.value;
      var name := BeforeName(house);
      photos := photos + {name};
      session := session.(photoBefore := Some(name));
      var full := GetHouseFullName(houses, house);
      jobFile.AddUnfinishedJob(user, Job(house, session.fullName.value, full, session.workType.value, name, OpenStatus));
      assert Job(house, session.fullName.value, full, session.workType.value, name, OpenStatus) == job0;
      o := Goto(ReceivingPhotoAfter);
    }

    /**
      * `handle_photo_after`: the photo is saved as `photo_after_<house>.jpg`;
      * the PDF builder is only defined, never called, and the handler returns
      * nothing, so the conversation stays where it is.
      */
    method PhotoAfter(env: Env) returns (o: Outcome<Step>)
      modifies this`session, this`photos
      ensures !env.downloadOk || old(session).selectedHouse.None? ==>
        o == Raised && session == old(session) && photos == old(photos)
      ensures env.downloadOk && old(session).selectedHouse.Some? ==>
        o == Stay && session == old(session).(photoAfter := Some(AfterName(old(session).selectedHouse.value)))
        && photos == old(photos) + {AfterName(old(session).selectedHouse.value)}
    {
      if !env.downloadOk || session.selectedHouse.None? {
        return Raised;
      }
      var name := AfterName(session.selectedHouse.value);
      photos := photos + {name};
      session := session.(photoAfter := Some(name));
      o := Stay;
    }

    /**
      * `confirm_completion`: only "Завершить работу" removes the
      * house's jobs, and then the call of the undefined
      * `save_files_to_folder` raises `NameError`; any other text ends the
      * conversation.
      */
    method ConfirmCompletion(text: string) returns (o: Outcome<Step>)
      modifies jobFile
      ensures text != FinishWork ==> o == End && jobFile.content == old(jobFile.content)
      ensures text == FinishWork && session.selectedHouse.None? ==> o == Raised && jobFile.content == old(jobFile.content)
      ensures text == FinishWork && session.selectedHouse.Some? ==>
        o == Raised
        && jobFile.content == (if old(jobFile.content).None? then None
                               else Some(Removed(old(jobFile.content).value, user, session.selectedHouse.value)))
    {
      if text != FinishWork {
        return End;
      }
      if session.selectedHouse.None? {
        return Raised;
      }
      jobFile.RemoveUnfinishedJob(user, session.selectedHouse.value);
      o := Raised;
    }

    /** `continue_work`: a new job, the list of unfinished jobs, or (any other text) nothing. */
    method Continue(text: string) returns (o: Outcome<Step>)
      ensures text == NewWork ==> o == Goto(SelectingHouse)
      ensures text == ContinueWork ==>
        o == Goto(if Listed(jobFile.content, user) != [] then SelectingUnfinishedJob else SelectingHouse)
      ensures text != NewWork && text != ContinueWork ==> o == Stay
    {
      assert NewWork[0] != ContinueWork[0];
      var jobs := jobFile.GetUnfinishedJobs(user);
      if text == NewWork {
        return Goto(SelectingHouse);
      } else if text == ContinueWork {
        if jobs != [] {
          return Goto(SelectingUnfinishedJob);
        }
        return Goto(SelectingHouse);
      }
      o := Stay;
    }

    /**
      * `select_unfinished_job`: the number `n` typed picks the `n`-th job
      * listed, whose house, work type, full name and photo before are
      * copied into the session before the photo is sent back; any other
      * text goes back to `CONTINUING_WORK`.
      */
    method SelectUnfinishedJob(text: string, env: Env) returns (o: Outcome<Step>)
      modifies this`session
      ensures var jobs := Listed(jobFile.content, user);
        ChosenIndex(text, |jobs|).None? ==> o == Goto(ContinuingWork) && session == old(session)
      ensures var jobs := Listed(jobFile.content, user); var k := ChosenIndex(text, |jobs|);
        k.Some? ==>
          session == old(session).(selectedHouse := Some(jobs[k.value].houseNumber), workType := Some(jobs[k.value].workType),
                                   houseFullName := Some(jobs[k.value].houseFullName), photoBefore := Some(jobs[k.value].photoBefore))
          && o == (if env.sendOk then Goto(ReceivingPhotoBefore) else Raised)
    {
      var jobs := jobFile.GetUnfinishedJobs(user);
      var k := ChosenIndex(text, |jobs|);
      if k.None? {
        return Goto(ContinuingWork);
      }
      var job := jobs[k.value];
      session := session.(selectedHouse := Some(job.houseNumber), workType := Some(job.workType),
                          houseFullName := Some(job.houseFullName), photoBefore := Some(job.photoBefore));
      if !env.sendOk {
        return Raised;
      }
      o := Goto(ReceivingPhotoBefore);
    }

    /** Runs a handler for text. */
    method RunText(h: Handler, env: Env) returns (o: Outcome<Step>)
      requires h.OnPhone? || h.OnFullName? || h.OnHouse? || h.OnWorkType? || h.OnContinue? || h.OnJobNumber?
      requires ReachableAt(phase)
      requires h.OnPhone? ==> phase == Active(RequestingPhone)
      requires h.OnFullName? ==> phase == Active(RequestingFullName)
      requires h.OnHouse? ==> phase == Active(SelectingHouse)
      requires h.OnWorkType? ==> phase == Active(SelectingWorkType)
      requires h.OnContinue? ==> phase == Active(ContinuingWork)
      requires h.OnJobNumber? ==> phase == Active(SelectingUnfinishedJob)
      modifies this, userFile
      ensures unchanged(this`phase) && jobFile.content == old(jobFile.content)
      ensures ReachableAt(After(phase, o))
      ensures o.Raised? ==> (h.OnFullName? && old(usersSheet).None?) || (h.OnJobNumber? && !env.sendOk)
      ensures h.OnJobNumber? ==> var jobs := Listed(jobFile.content, user); var k := ChosenIndex(h.text, |jobs|);
        (k.None? ==> o == Goto(ContinuingWork) && session == old(session))
        && (k.Some? && env.sendOk ==>
              o == Goto(ReceivingPhotoBefore)
              && session.selectedHouse == Some(jobs[k.value].houseNumber) && session.workType == Some(jobs[k.value].workType)
              && session.houseFullName == Some(jobs[k.value].houseFullName) && session.photoBefore == Some(jobs[k.value].photoBefore))
      ensures !h.OnFullName? ==> userFile.content == old(userFile.content) && usersSheet == old(usersSheet)
      ensures photos == old(photos)
    {
      match h {
        case OnPhone(text) =>
          o := RequestPhone(text);
        case OnFullName(text) =>
          o := RequestFullName(text);
        case OnHouse(text) =>
          o := SelectHouse(text);
        case OnWorkType(text) =>
          o := SelectWorkType(text);
        case OnContinue(text) =>
          o := Continue(text);
        case OnJobNumber(text) =>
          o := SelectUnfinishedJob(text, env);
      }
    }

    /** Runs the handler `h` routed to in the current phase. */
    method Run(h: Handler, env: Env) returns (o: Outcome<Step>)
      requires ReachableAt(phase)
      requires h.OnPhone? ==> phase == Active(RequestingPhone)
      requires h.OnFullName? ==> phase == Active(RequestingFullName)
      requires h.OnHouse? ==> phase == Active(SelectingHouse)
      requires h.OnWorkType? ==> phase == Active(SelectingWorkType)
      requires h.OnPhotoBefore? ==> phase == Active(ReceivingPhotoBefore)
      requires h.OnPhotoAfter? ==> phase == Active(ReceivingPhotoAfter)
      requires h.OnConfirmation? ==> phase == Active(ConfirmingCompletion)
      requires h.OnContinue? ==> phase == Active(ContinuingWork)
      requires h.OnJobNumber? ==> phase == Active(SelectingUnfinishedJob)
      requires h == OnStart ==> phase == Idle
      modifies this, jobFile, userFile
      ensures unchanged(this`phase)
      ensures ReachableAt(After(phase, o))
      ensures h == OnCancel ==> o == End
      ensures h == OnStart ==> o == Goto(if !Known(userFile.content, user) then RequestingPhone
                                         else if Listed(jobFile.content, user) != [] then SelectingUnfinishedJob
                                         else SelectingHouse)
      ensures o.Raised? ==> !env.downloadOk || !env.sendOk || old(usersSheet).None?
      ensures !h.OnFullName? ==> userFile.content == old(userFile.content)
      ensures !h.OnPhotoBefore? ==> jobFile.content == old(jobFile.content)
      ensures h.OnPhotoBefore? && old(session).fullName.None? ==> o == End && jobFile.content == old(jobFile.content)
      ensures h.OnPhotoBefore? && !env.downloadOk ==> jobFile.content == old(jobFile.content)
      ensures h.OnPhotoBefore? && old(session).fullName.Some? && env.downloadOk ==>
        o == Goto(ReceivingPhotoAfter)
        && jobFile.content == AddedTo(old(jobFile.content), user, RecordedJob(old(session), houses))
      ensures h.OnPhotoAfter? ==> o.Stay? || o.Raised?
      ensures h.OnJobNumber? ==> var jobs := Listed(jobFile.content, user); var k := ChosenIndex(h.text, |jobs|);
        (k.None? ==> o == Goto(ContinuingWork))
        && (k.Some? && env.sendOk ==>
              o == Goto(ReceivingPhotoBefore)
              && session.selectedHouse == Some(jobs[k.value].houseNumber) && session.workType == Some(jobs[k.value].workType)
              && session.houseFullName == Some(jobs[k.value].houseFullName) && session.photoBefore == Some(jobs[k.value].photoBefore))
    {
      match h {
        case OnStart =>
          o := Start();
        case OnPhotoBefore =>
          o := PhotoBefore(env);
        case OnPhotoAfter =>
          o := PhotoAfter(env);
        case OnConfirmation(_) =>
          assert false;
        case OnCancel =>
          o := End;
        case _ =>
          o := RunText(h, env);
      }
    }

    /**
      * One update of one user. Reachable states stay reachable; `/start`
      * routes by whether the user is signed in and has jobs; `/cancel` ends
      * the conversation; a job is recorded only by the photo before, and
      * only when the session holds the user's name; the photo after never
      * ends the conversation.
      */
    method Handle(u: Update, env: Env) returns (o: Outcome<Step>)
      requires Reachable()
      modifies this, jobFile, userFile
      ensures Reachable()
      ensures phase == After(old(phase), o)
      ensures Route(old(phase), u).None? ==>
        o == Ignored && session == old(session) && jobFile.content == old(jobFile.content)
        && userFile.content == old(userFile.content)
      ensures old(phase) == Idle && u == Command("start") ==>
        (!Known(old(userFile.content), user) ==> phase == Active(RequestingPhone))
        && (Known(old(userFile.content), user) && Listed(old(jobFile.content), user) != [] ==> phase == Active(SelectingUnfinishedJob))
        && (Known(old(userFile.content), user) && Listed(old(jobFile.content), user) == [] ==> phase == Active(SelectingHouse))
      ensures old(phase).Active? && u == Command("cancel") ==> o == End && phase == Idle
      ensures o.Raised? ==> !env.downloadOk || !env.sendOk || old(usersSheet).None?
      ensures jobFile.content != old(jobFile.content) ==>
        old(phase) == Active(ReceivingPhotoBefore) && u == Photo && old(session).fullName.Some?
        && jobFile.content == AddedTo(old(jobFile.content), user, RecordedJob(old(session), houses))
      ensures old(phase) == Active(ReceivingPhotoBefore) && u == Photo && old(session).fullName.None? ==> phase == Idle
      ensures old(phase) == Active(ReceivingPhotoAfter) && u == Photo ==> phase == old(phase)
      ensures old(phase) == Active(SelectingUnfinishedJob) && u.Text? && env.sendOk ==>
        var jobs := Listed(old(jobFile.content), user); var k := ChosenIndex(u.text, |jobs|);
        (k.None? ==> phase == Active(ContinuingWork))
        && (k.Some? ==>
              phase == Active(ReceivingPhotoBefore)
              && session.selectedHouse == Some(jobs[k.value].houseNumber) && session.workType == Some(jobs[k.value].workType)
              && session.houseFullName == Some(jobs[k.value].houseFullName) && session.photoBefore == Some(jobs[k.value].photoBefore))
    {
      var p := phase;
      var r := Route(p, u);
      if r.None? {
        return Ignored;
      }
      o := Run(r.value, env);
      phase := After(p, o);
    }
  }
}

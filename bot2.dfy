/**
  * `tg_v2.py`: the job store of `tg.py` without signing in. `start` offers
  * the unfinished jobs, a house and work type are typed in, and the photo
  * before records a job "В работе". No handler ever stores the user's name,
  * so in every run the photo before ends the conversation and the job file
  * is never written.
  */
module BotV2 {
  import opened Strings
  import opened Menus
  import Sheets
  import opened JobIndex
  import opened Conversation

  datatype Step =
    | RequestingPhone | RequestingFullName | SelectingHouse | SelectingWorkType
    | ReceivingPhotoBefore | ReceivingPhotoAfter | ContinuingWork | SelectingUnfinishedJob

  /** The callbacks registered in `main()`; there is no fallback. */
  datatype Handler =
    | OnStart | OnPhone(text: string) | OnFullName(text: string) | OnHouse(text: string)
    | OnWorkType(text: string) | OnPhotoBefore | OnPhotoAfter | OnContinue(text: string) | OnJobNumber(text: string)

  // The reply-keyboard buttons `continue_work` compares the text with.
  const NewWork := "Новая работа"
  const ContinueWork := "Продолжить работу"

  /** The placeholder recorded instead of the house's full name. */
  const PlaceholderFullName := "House Full Name"

  /** `f"photo_before_{house}.jpg"`. */
  function BeforeName(house: string): string
  {
    "photo_before_" + house + ".jpg"
  }

  /** `f"photo_after_{house}.jpg"`. */
  function AfterName(house: string): string
  {
    "photo_after_" + house + ".jpg"
  }

  /** The job `handle_photo_before` would record from the session. */
  function RecordedJob(s: Session): Job
    requires s.selectedHouse.Some? && s.fullName.Some? && s.workType.Some?
  {
    Job(s.selectedHouse.value, s.fullName.value, Sheets.Text(PlaceholderFullName),
        s.workType.value, BeforeName(s.selectedHouse.value), InProgressStatus)
  }

  /** The conversation handler of `main()`: `/start` enters it. */
  function Route(p: Phase<Step>, u: Update): (r: Option<Handler>)
    ensures p.Idle? ==> (r.Some? <==> u == Command("start"))
    ensures p.Idle? && r.Some? ==> r.value == OnStart
    ensures p.Active? ==> r != Some(OnStart)
    ensures p.Active? && u.Command? ==> r.None?
    ensures r == Some(OnPhotoBefore) <==> p == Active(ReceivingPhotoBefore) && u == Photo
    ensures r.Some? && r.value.OnContinue? <==> p == Active(ContinuingWork) && u.Text?
    ensures r.Some? && r.value.OnJobNumber? <==> p == Active(SelectingUnfinishedJob) && u.Text?
    ensures r.Some? && (r.value.OnContinue? || r.value.OnJobNumber?) ==> r.value.text == u.text
  {
    match p
    case Idle => if u == Command("start") then Some(OnStart) else None
    case Active(s) =>
      match (s, u)
      case (RequestingPhone, Text(t)) => Some(OnPhone(t))
      case (RequestingFullName, Text(t)) => Some(OnFullName(t))
      case (SelectingHouse, Text(t)) => Some(OnHouse(t))
      case (SelectingWorkType, Text(t)) => Some(OnWorkType(t))
      case (ReceivingPhotoBefore, Photo) => Some(OnPhotoBefore)
      case (ReceivingPhotoAfter, Photo) => Some(OnPhotoAfter)
      case (ContinuingWork, Text(t)) => Some(OnContinue(t))
      case (SelectingUnfinishedJob, Text(t)) => Some(OnJobNumber(t))
      case _ => None
  }

  /** One user's conversation, the shared `unfinished_jobs.json` and the photos in the working directory. */
  class Bot {
    const user: string
    const jobFile: JobFile
    var phase: Phase<Step>
    var session: Session
    var photos: set<string>

    constructor (user: string, jobs: Option<Jobs>, photos: set<string>)
      ensures this.user == user && jobFile.content == jobs && fresh(jobFile)
      ensures phase == Idle && session == EmptySession && this.photos == photos
      ensures Reachable()
    {
      this.user := user;
      jobFile := new JobFile(jobs);
      phase := Idle;
      session := EmptySession;
      this.photos := photos;
    }

    /** `Reachable()` with the conversation in phase `p`. */
    ghost predicate ReachableAt(p: Phase<Step>)
      reads this
    {
      session.fullName.None?
      && p != Active(RequestingPhone) && p != Active(RequestingFullName) && p != Active(ReceivingPhotoAfter)
    }

    /**
      * No handler returns `REQUESTING_PHONE`, so the name is never asked for
      * and never stored, and the photo after is never awaited.
      */
    ghost predicate Reachable()
      reads this
    {
      ReachableAt(phase)
    }

    /** `start`: the unfinished jobs are offered when there are any. */
    method Start() returns (o: Outcome<Step>)
      ensures o == Goto(if Listed(jobFile.content, user) != [] then ContinuingWork else SelectingHouse)
    {
      var jobs := jobFile.GetUnfinishedJobs(user);
      if jobs != [] {
        return Goto(ContinuingWork);
      }
      o := Goto(SelectingHouse);
    }

    /** `request_phone` (its state is never entered). */
    method RequestPhone(text: string) returns (o: Outcome<Step>)
      modifies this`session
      ensures session == old(session).(phone := Some(text)) && o == Goto(RequestingFullName)
    {
      session := session.(phone := Some(text));
      o := Goto(RequestingFullName);
    }

    /** `request_full_name` (its state is never entered): the only handler that stores the name. */
    method RequestFullName(text: string) returns (o: Outcome<Step>)
      modifies this`session
      ensures session == old(session).(fullName := Some(text)) && o == Goto(SelectingHouse)
    {
      session := session.(fullName := Some(text));
      o := Goto(SelectingHouse);
    }

    /** `select_house`: any text is taken as the house. */
    method SelectHouse(text: string) returns (o: Outcome<Step>)
      modifies this`session
      ensures session == old(session).(selectedHouse := Some(text)) && o == Goto(SelectingWorkType)
    {
      session := session.(selectedHouse := Some(text));
      o := Goto(SelectingWorkType);
    }

    /** `select_work_type`: any text is taken as the work type. */
    method SelectWorkType(text: string) returns (o: Outcome<Step>)
      modifies this`session
      ensures session == old(session).(workType := Some(text)) && o == Goto(ReceivingPhotoBefore)
    {
      session := session.(workType := Some(text));
      o := Goto(ReceivingPhotoBefore);
    }

    /**
      * `handle_photo_before`: without the name, the house or the work type
      * in the session the conversation ends; otherwise the photo is saved
      * and the job recorded "В работе" under the placeholder full name.
      */
    method PhotoBefore(env: Env) returns (o: Outcome<Step>)
      modifies this`session, this`photos, jobFile
      ensures old(session).fullName.None? || old(session).selectedHouse.None? || old(session).workType.None? ==>
        o == End && session == old(session) && photos == old(photos) && jobFile.content == old(jobFile.content)
      ensures old(session).fullName.Some? && old(session).selectedHouse.Some? && old(session).workType.Some? && !env.downloadOk ==>
        o == Raised && session == old(session) && photos == old(photos) && jobFile.content == old(jobFile.content)
      ensures old(session).fullName.Some? && old(session).selectedHouse.Some? && old(session).workType.Some? && env.downloadOk ==>
        o == Goto(ReceivingPhotoAfter)
        && session == old(session).(photoBefore := Some(BeforeName(old(session).selectedHouse.value)))
        && photos == old(photos) + {BeforeName(old(session).selectedHouse.value)}
        && jobFile.content == AddedTo(old(jobFile.content), user, RecordedJob(old(session)))
    {
      if session.fullName.None? || session.selectedHouse.None? || session.workType.None? {
        return End;
      }
      if !env.downloadOk {
        return Raised;
      }
      var job := RecordedJob(session);
      var name := BeforeName(session.selectedHouse.value);
      photos := photos + {name};
      session := session.(photoBefore := Some(name));
      jobFile.AddUnfinishedJob(user, job);
      o := Goto(ReceivingPhotoAfter);
    }

    /** `handle_photo_after` (its state is never entered): saves the photo and ends. */
    method PhotoAfter(env: Env) returns (o: Outcome<Step>)
      modifies this`session, this`photos
      ensures !env.downloadOk || old(session).selectedHouse.None? ==>
        o == Raised && session == old(session) && photos == old(photos)
      ensures env.downloadOk && old(session).selectedHouse.Some? ==>
        o == End && session == old(session).(photoAfter := Some(AfterName(old(session).selectedHouse.value)))
        && photos == old(photos) + {AfterName(old(session).selectedHouse.value)}
    {
      if !env.downloadOk || session.selectedHouse.None? {
        return Raised;
      }
      var name := AfterName(session.selectedHouse.value);
      photos := photos + {name};
      session := session.(photoAfter := Some(name));
      o := End;
    }

    /** `continue_work`: a new job, the list of unfinished jobs, or (any other text) nothing. */
    method Continue(text: string) returns (o: Outcome<Step>)
      ensures text == NewWork ==> o == Goto(SelectingHouse)
      ensures text == ContinueWork ==>
        o == Goto(if Listed(jobFile.content, user) != [] then SelectingUnfinishedJob else SelectingHouse)
      ensures text != NewWork && text != ContinueWork ==> o == Stay
    {
      assert NewWork[0] != ContinueWork[0];
      var jobs := jobFile.GetUnfinishedJobs(user);
      if text == NewWork {
        return Goto(SelectingHouse);
      } else if text == ContinueWork {
        if jobs != [] {
          return Goto(SelectingUnfinishedJob);
        }
        return Goto(SelectingHouse);
      }
      o := Stay;
    }

    /**
      * `select_unfinished_job`: the number `n` typed picks the `n`-th job
      * listed, whose fields are copied into the session before its photo
      * is sent back; any other text goes back to `CONTINUING_WORK`.
      */
    method SelectUnfinishedJob(text: string, env: Env) returns (o: Outcome<Step>)
      modifies this`session
      ensures var jobs := Listed(jobFile.content, user);
        ChosenIndex(text, |jobs|).None? ==> o == Goto(ContinuingWork) && session == old(session)
      ensures var jobs := Listed(jobFile.content, user); var k := ChosenIndex(text, |jobs|);
        k.Some? ==>
          session == old(session).(selectedHouse := Some(jobs[k.value].houseNumber), workType := Some(jobs[k.value].workType),
                                   houseFullName := Some(jobs[k.value].houseFullName), photoBefore := Some(jobs[k.value].photoBefore))
          && o == (if env.sendOk then Goto(ReceivingPhotoBefore) else Raised)
    {
      var jobs := jobFile.GetUnfinishedJobs(user);
      var k := ChosenIndex(text, |jobs|);
      if k.None? {
        return Goto(ContinuingWork);
      }
      var job := jobs[k.value];
      session := session.(selectedHouse := Some(job.houseNumber), workType := Some(job.workType),
                          houseFullName := Some(job.houseFullName), photoBefore := Some(job.photoBefore));
      if !env.sendOk {
        return Raised;
      }
      o := Goto(ReceivingPhotoBefore);
    }

    /** Runs the handler `h` routed to in the current phase. */
    method Run(h: Handler, env: Env) returns (o: Outcome<Step>)
      requires ReachableAt(phase)
      requires h.OnPhone? ==> phase == Active(RequestingPhone)
      requires h.OnFullName? ==> phase == Active(RequestingFullName)
      requires h.OnPhotoAfter? ==> phase == Active(ReceivingPhotoAfter)
      modifies this, jobFile
      ensures unchanged(this`phase) && jobFile.content == old(jobFile.content)
      ensures ReachableAt(After(phase, o))
      ensures h == OnStart ==> o == Goto(if Listed(jobFile.content, user) != [] then ContinuingWork else SelectingHouse)
      ensures h == OnPhotoBefore ==> o == End && photos == old(photos)
      ensures o.Raised? ==> h.OnJobNumber? && !env.sendOk
      ensures h.OnContinue? ==>
        (h.text == NewWork ==> o == Goto(SelectingHouse))
        && (h.text == ContinueWork ==>
              o == Goto(if Listed(jobFile.content, user) != [] then SelectingUnfinishedJob else SelectingHouse))
      ensures h.OnJobNumber? ==> var jobs := Listed(jobFile.content, user); var k := ChosenIndex(h.text, |jobs|);
        (k.None? ==> o == Goto(ContinuingWork))
        && (k.Some? && env.sendOk ==>
              o == Goto(ReceivingPhotoBefore)
              && session.selectedHouse == Some(jobs[k.value].houseNumber) && session.workType == Some(jobs[k.value].workType)
              && session.houseFullName == Some(jobs[k.value].houseFullName) && session.photoBefore == Some(jobs[k.value].photoBefore))
    {
      match h {
        case OnStart =>
          o := Start();
        case OnPhone(_) =>
          assert false;
        case OnFullName(_) =>
          assert false;
        case OnHouse(text) =>
          o := SelectHouse(text);
        case OnWorkType(text) =>
          o := SelectWorkType(text);
        case OnPhotoBefore =>
          o := PhotoBefore(env);
        case OnPhotoAfter =>
          assert false;
        case OnContinue(text) =>
          o := Continue(text);
        case OnJobNumber(text) =>
          o := SelectUnfinishedJob(text, env);
      }
    }

    /**
      * One update of one user. Reachable states stay reachable; the job
      * file never changes; `/start` offers the unfinished jobs when there
      * are any; the photo before always ends the conversation; only sending
      * a chosen job's photo back can raise.
      */
    method Handle(u: Update, env: Env) returns (o: Outcome<Step>)
      requires Reachable()
      modifies this, jobFile
      ensures Reachable()
      ensures phase == After(old(phase), o)
      ensures jobFile.content == old(jobFile.content)
      ensures Route(old(phase), u).None? ==> o == Ignored && session == old(session)
      ensures old(phase) == Idle && u == Command("start") ==>
        phase == Active(if Listed(old(jobFile.content), user) != [] then ContinuingWork else SelectingHouse)
      ensures old(phase) == Active(ReceivingPhotoBefore) && u == Photo ==> phase == Idle && photos == old(photos)
      ensures old(phase) == Active(ContinuingWork) && u == Text(ContinueWork) ==>
        phase == Active(if Listed(old(jobFile.content), user) != [] then SelectingUnfinishedJob else SelectingHouse)
      ensures old(phase) == Active(ContinuingWork) && u == Text(NewWork) ==> phase == Active(SelectingHouse)
      ensures o.Raised? ==> !env.sendOk
      ensures old(phase) == Active(SelectingUnfinishedJob) && u.Text? && env.sendOk ==>
        var jobs := Listed(old(jobFile.content), user); var k := ChosenIndex(u.text, |jobs|);
        (k.None? ==> phase == Active(ContinuingWork))
        && (k.Some? ==>
              phase == Active(ReceivingPhotoBefore)
              && session.selectedHouse == Some(jobs[k.value].houseNumber) && session.workType == Some(jobs[k.value].workType)
              && session.houseFullName == Some(jobs[k.value].houseFullName) && session.photoBefore == Some(jobs[k.value].photoBefore))
    {
      var p := phase;
      var r := Route(p, u);
      if r.None? {
        return Ignored;
      }
      o := Run(r.value, env);
      phase := After(p, o);
    }
  }
}

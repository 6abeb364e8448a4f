/**
  * What every bot variant shares: the updates a user sends, how a handler
  * ends, the conversation phase python-telegram-bot keeps per user, the
  * per-user session (`context.user_data`), the files on disk, and what the
  * outside world answers during one update.
  */
module Conversation {
  import opened Strings
  import opened Sheets
  import opened Records

  /** One incoming update. `Text` excludes commands, as `filters.TEXT & ~filters.COMMAND` does. */
  datatype Update = Text(text: string) | Command(name: string) | Photo | Callback(data: string)

  /** How a handler ends. */
  datatype Outcome<S> =
    | Goto(state: S)   // returns a state
    | End              // returns `ConversationHandler.END`
    | Stay             // returns `None`: the conversation stays where it is
    | Raised           // an exception escapes: logged, the conversation stays where it is
    | Ignored          // no handler of the current phase matches the update

  /** Where a user's conversation is: not started (or ended), or in a state. */
  datatype Phase<S> = Idle | Active(state: S)

  /** The phase after a handler's outcome. */
  function After<S>(p: Phase<S>, o: Outcome<S>): (r: Phase<S>)
    ensures o.Goto? ==> r == Active(o.state)
    ensures o.End? ==> r == Idle
    ensures !o.Goto? && !o.End? ==> r == p
  {
    match o
    case Goto(s) => Active(s)
    case End => Idle
    case _ => p
  }

  /** `context.user_data`: a key is `None` until some handler stores it. */
  datatype Session = Session(
    selectedHouse: Option<string>,
    addresses: Option<seq<string>>,
    fullAddress: Option<string>,
    selectedAddress: Option<string>,
    workType: Option<string>,
    workData: Option<string>,
    reportDir: Option<string>,
    photoBefore: Option<string>,
    photoAfter: Option<string>,
    unfinishedTasks: Option<seq<Task>>,
    currentReportDir: Option<string>,
    phone: Option<string>,
    fullName: Option<string>,
    houseFullName: Option<Cell>)

  const EmptySession := Session(None, None, None, None, None, None, None, None, None, None, None, None, None, None)

  /** Python's truth value of an optional text: absent or empty is false. */
  predicate Present(v: Option<string>)
  {
    v.Some? && v.value != ""
  }

  /** The record lines written when the photo before the work arrives: house, work type, data. */
  function RecordEntries(s: Session): seq<Entry>
  {
    [Entry(HouseLabel, s.selectedHouse), Entry(WorkLabel, s.workType), Entry(DataLabel, s.workData)]
  }

  /** The session holds every value the record's lines need. */
  predicate RecordReady(s: Session)
  {
    s.selectedHouse.Some? && s.workType.Some? && s.workData.Some?
  }

  lemma {:induction false} ReadyEntriesPresent(s: Session)
    ensures AllPresent(RecordEntries(s)) <==> RecordReady(s)
  {
    var es := RecordEntries(s);
    assert es[0].value == s.selectedHouse && es[1].value == s.workType && es[2].value == s.workData;
  }

  /** The directories that exist, the text files and their contents, and the photos saved. */
  datatype Disk = Disk(dirs: set<string>, files: map<string, string>, photos: set<string>)

  /**
    * What the outside world answers while one update is handled: the date
    * (`%Y`, `%m`, `%m.%Y` and a timestamp), the order in which `os.walk`
    * visits the report directories, and whether the photo download, the
    * font, the PDF output and sending the PDF succeed.
    */
  datatype Env = Env(year: string, month: string, monthYear: string, stamp: string,
                     walk: seq<string>,
                     downloadOk: bool, fontOk: bool, pdfOk: bool, sendOk: bool)

  /** `os.path.join(dir, name)`. */
  function PathIn(dir: string, name: string): string
  {
    dir + "/" + name
  }

  /** Saving a photo into `dir` succeeds when the download does and the directory exists. */
  predicate Downloads(env: Env, d: Disk, dir: string)
  {
    env.downloadOk && dir in d.dirs
  }

  // The reply-keyboard buttons of the action menus.
  const AddPhotoNow := "Добавить фото " + "выполненной работы"
  const AddPhotoLater := "Добавить фото позже"
  const ContinueTask := "Продолжить не " + "выполненную работу"
  const StartNew := "Начать новую"

  /** The four buttons are told apart by their text. */
  lemma {:induction false} ButtonsDistinct()
    ensures AddPhotoNow != AddPhotoLater && AddPhotoNow != ContinueTask && AddPhotoNow != StartNew
    ensures AddPhotoLater != ContinueTask && AddPhotoLater != StartNew && ContinueTask != StartNew
  {
    assert AddPhotoNow[0] == 'Д' && AddPhotoLater[0] == 'Д';
    assert ContinueTask[0] == 'П' && StartNew[0] == 'Н';
    assert AddPhotoNow[14] == 'в' && AddPhotoLater[14] == 'п';
  }

  /**
    * How the after-photo handlers of `tg_v6_work.py`, `tg_v8_work.py`,
    * `tg_v9_work.py` and `tg_v10.py` end once the record is rewritten: building the PDF raises
    * when the font, a session key or the photo before is missing; writing
    * or sending it may fail; otherwise the conversation goes on at `next`.
    */
  function PdfOutcome<S>(env: Env, s: Session, photos: set<string>, dir: string, next: S): Outcome<S>
  {
    if !env.fontOk || s.selectedHouse.None? || s.workType.None? || PathIn(dir, BeforePhoto) !in photos then Raised
    else if !env.pdfOk || !env.sendOk then End
    else Goto(next)
  }

  const BeforePhoto := "до.jpg"
  const AfterPhoto := "после.jpg"
}

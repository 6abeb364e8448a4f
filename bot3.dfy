/**
  * `tg_v3.py`: house, free-text work type, two photos and a PDF. The
  * conversation's data live in module globals, not in a per-user session;
  * photos are saved as `photo_before_<house>.jpg` and
  * `photo_after_<house>.jpg` in the working directory and removed again
  * once the PDF has been sent.
  */
module BotV3 {
  import opened Strings
  import opened Conversation

  datatype Step = SelectingHouse | SelectingWorkType | ReceivingPhotoBefore | ReceivingPhotoAfter

  /** The callbacks registered in `main()`; `/cancel` is the one fallback. */
  datatype Handler =
    | OnStart | OnHouse(text: string) | OnWorkType(text: string) | OnPhotoBefore | OnPhotoAfter | OnCancel

  /** `HOUSES`. */
  const Houses: seq<string> := ["10", "11", "12"]

  /** Python's `f"{x}"` of a global that may still be `None`. */
  function Shown(v: Option<string>): string
  {
    if v.Some? then v.value else "None"
  }

  /** `f"photo_before_{selected_house}.jpg"`. */
  function BeforeName(house: Option<string>): string
  {
    "photo_before_" + Shown(house) + ".jpg"
  }

  /** `f"photo_after_{selected_house}.jpg"`. */
  function AfterName(house: Option<string>): string
  {
    "photo_after_" + Shown(house) + ".jpg"
  }

  /** The two photo names of one house never coincide. */
  lemma {:induction false} PhotoNamesDistinct(house: Option<string>)
    ensures BeforeName(house) != AfterName(house)
  {
    assert BeforeName(house)[6] == 'b' && AfterName(house)[6] == 'a';
  }

  /** The conversation handler of `main()`: `/start` enters it, `/cancel` leaves it from any state. */
  function Route(p: Phase<Step>, u: Update): (r: Option<Handler>)
    ensures p.Idle? ==> (r.Some? <==> u == Command("start"))
    ensures p.Idle? && r.Some? ==> r.value == OnStart
    ensures p.Active? ==> (r == Some(OnCancel) <==> u == Command("cancel"))
    ensures p.Active? ==> r != Some(OnStart)
  {
    match p
    case Idle => if u == Command("start") then Some(OnStart) else None
    case Active(s) =>
      match (s, u)
      case (SelectingHouse, Text(t)) => Some(OnHouse(t))
      case (SelectingWorkType, Text(t)) => Some(OnWorkType(t))
      case (ReceivingPhotoBefore, Photo) => Some(OnPhotoBefore)
      case (ReceivingPhotoAfter, Photo) => Some(OnPhotoAfter)
      case (_, Command("cancel")) => Some(OnCancel)
      case _ => None
  }

  class Bot {
    var phase: Phase<Step>
    // The module globals.
    var selectedHouse: Option<string>
    var workType: Option<string>
    var photoBefore: Option<string>
    var photoAfter: Option<string>
    var photoBeforeTime: Option<string>
    var photoAfterTime: Option<string>
    /** The photo files in the working directory. */
    var photos: set<string>

    constructor (photos: set<string>)
      ensures phase == Idle && this.photos == photos
      ensures selectedHouse == None && workType == None && photoBefore == None && photoAfter == None
      ensures photoBeforeTime == None && photoAfterTime == None
      ensures Reachable()
    {
      phase := Idle;
      selectedHouse, workType, photoBefore, photoAfter := None, None, None, None;
      photoBeforeTime, photoAfterTime := None, None;
      this.photos := photos;
    }

    /** `Reachable()` with the conversation in phase `p`. */
    ghost predicate ReachableAt(p: Phase<Step>)
      reads this
    {
      (p.Active? && !p.state.SelectingHouse? ==> selectedHouse.Some? && selectedHouse.value in Houses)
      && (p == Active(ReceivingPhotoAfter) ==> photoBefore == Some(BeforeName(selectedHouse)) && photoBefore.value in photos)
    }

    /**
      * For one user: a house from `HOUSES` is chosen in every state after
      * the first, and the photo after is awaited only once the photo before
      * is saved under that house's name.
      */
    ghost predicate Reachable()
      reads this
    {
      ReachableAt(phase)
    }

    /** `select_house`: the global is overwritten before the text is checked. */
    method SelectHouse(text: string) returns (o: Outcome<Step>)
      modifies this`selectedHouse
      ensures selectedHouse == Some(text)
      ensures o == (if text in Houses then Goto(SelectingWorkType) else Goto(SelectingHouse))
    {
      selectedHouse := Some(text);
      if text !in Houses {
        return Goto(SelectingHouse);
      }
      o := Goto(SelectingWorkType);
    }

    /** `select_work_type`: any text is taken as the work type. */
    method SelectWorkType(text: string) returns (o: Outcome<Step>)
      modifies this`workType
      ensures workType == Some(text) && o == Goto(ReceivingPhotoBefore)
    {
      workType := Some(text);
      o := Goto(ReceivingPhotoBefore);
    }

    /** `handle_photo_before`: a failed download is not caught. */
    method PhotoBefore(env: Env) returns (o: Outcome<Step>)
      modifies this`photoBefore, this`photoBeforeTime, this`photos
      ensures photoBefore == Some(BeforeName(selectedHouse))
      ensures !env.downloadOk ==> o == Raised && photos == old(photos) && photoBeforeTime == old(photoBeforeTime)
      ensures env.downloadOk ==>
        o == Goto(ReceivingPhotoAfter) && photos == old(photos) + {BeforeName(selectedHouse)}
        && photoBeforeTime == Some(env.stamp)
    {
      photoBefore := Some(BeforeName(selectedHouse));
      if !env.downloadOk {
        return Raised;
      }
      photos := photos + {photoBefore.value};
      photoBeforeTime := Some(env.stamp);
      o := Goto(ReceivingPhotoAfter);
    }

    /**
      * `handle_photo_after`: saves the photo, builds the PDF (a font that
      * cannot be loaded ends the conversation, a missing photo or a failed
      * output raises), sends it and removes both photos; the conversation
      * ends.
      */
    method PhotoAfter(env: Env) returns (o: Outcome<Step>)
      modifies this`photoAfter, this`photoAfterTime, this`photos
      ensures photoAfter == Some(AfterName(selectedHouse))
      ensures !env.downloadOk ==> o == Raised && photos == old(photos) && photoAfterTime == old(photoAfterTime)
      ensures env.downloadOk ==> photoAfterTime == Some(env.stamp)
      ensures env.downloadOk && !env.fontOk ==> o == End && photos == old(photos) + {AfterName(selectedHouse)}
      ensures env.downloadOk && env.fontOk && (photoBefore.None? || photoBefore.value !in old(photos) + {AfterName(selectedHouse)} || !env.pdfOk) ==>
        o == Raised && photos == old(photos) + {AfterName(selectedHouse)}
      ensures env.downloadOk && env.fontOk && photoBefore.Some? && photoBefore.value in old(photos) + {AfterName(selectedHouse)} && env.pdfOk ==>
        o == End && photos == old(photos) + {AfterName(selectedHouse)} - {photoBefore.value, AfterName(selectedHouse)}
    {
      photoAfter := Some(AfterName(selectedHouse));
      if !env.downloadOk {
        return Raised;
      }
      photos := photos + {photoAfter.value};
      photoAfterTime := Some(env.stamp);
      if !env.fontOk {
        return End;
      }
      if photoBefore.None? || photoBefore.value !in photos || !env.pdfOk {
        return Raised;
      }
      photos := photos - {photoBefore.value, photoAfter.value};
      o := End;
    }

    /** Runs the handler `h` routed to in the current phase. */
    method Run(h: Handler, env: Env) returns (o: Outcome<Step>)
      requires ReachableAt(phase)
      requires h.OnHouse? ==> phase == Active(SelectingHouse)
      requires h.OnWorkType? ==> phase == Active(SelectingWorkType)
      requires h.OnPhotoBefore? ==> phase == Active(ReceivingPhotoBefore)
      requires h.OnPhotoAfter? ==> phase == Active(ReceivingPhotoAfter)
      modifies this
      ensures unchanged(this`phase)
      ensures ReachableAt(After(phase, o))
      ensures h == OnCancel ==> o == End
      ensures o.Raised? ==> !env.downloadOk || (h == OnPhotoAfter && !env.pdfOk)
      ensures h == OnPhotoAfter && env.downloadOk && env.fontOk && env.pdfOk ==>
        o == End && photos == old(photos) - {BeforeName(old(selectedHouse)), AfterName(old(selectedHouse))}
    {
      match h {
        case OnStart =>
          o := Goto(SelectingHouse);
        case OnHouse(text) =>
          o := SelectHouse(text);
        case OnWorkType(text) =>
          o := SelectWorkType(text);
        case OnPhotoBefore =>
          o := PhotoBefore(env);
        case OnPhotoAfter =>
          PhotoNamesDistinct(selectedHouse);
          o := PhotoAfter(env);
        case OnCancel =>
          o := End;
      }
    }

    /**
      * One update of one user. Reachable states stay reachable, `/cancel`
      * always ends the conversation, only a failed download or PDF output
      * raises, and a completed report leaves neither photo behind.
      */
    method Handle(u: Update, env: Env) returns (o: Outcome<Step>)
      requires Reachable()
      modifies this
      ensures Reachable()
      ensures phase == After(old(phase), o)
      ensures Route(old(phase), u).None? ==> o == Ignored && photos == old(photos)
      ensures old(phase).Active? && u == Command("cancel") ==> o == End && phase == Idle
      ensures o.Raised? ==> !env.downloadOk || !env.pdfOk
      ensures old(phase) == Active(ReceivingPhotoAfter) && u.Photo? && env.downloadOk && env.fontOk && env.pdfOk ==>
        phase == Idle && photos == old(photos) - {BeforeName(old(selectedHouse)), AfterName(old(selectedHouse))}
    {
      var p := phase;
      var r := Route(p, u);
      if r.None? {
        return Ignored;
      }
      o := Run(r.value, env);
      phase := After(p, o);
    }
  }
}

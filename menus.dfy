/**
  * The menu helpers of the bots: the house-number normalisation, the
  * callback-data sanitiser, page slicing, the task keyboards and their
  * callback strings, choosing an item by its 1-based number, and the
  * 4096-character chunking of long messages.
  */
module Menus {
  import opened Strings
  import opened Numbers
  import opened Lines
  import opened Records

  // ---------------------------------------------------------------------
  // `normalize_input`: `re.sub(r"[^\w\s]", "", text).upper()`.

  /**
    * A word character of `\w`: Latin letters, digits, the underscore and
    * the Cyrillic letters U+0400..U+045F.
    */
  predicate IsWordChar(c: char)
  {
    'a' <= c <= 'z' || 'A' <= c <= 'Z' || '0' <= c <= '9' || c == '_' || 'Ѐ' <= c <= 'џ'
  }

  /** A lower-case letter of that alphabet. */
  predicate IsLower(c: char)
  {
    'a' <= c <= 'z' || 'а' <= c <= 'џ'
  }

  /** `str.upper` on one character of that alphabet; other characters are kept. */
  function UpperChar(c: char): (u: char)
    ensures !IsLower(u)
    ensures IsWordChar(u) <==> IsWordChar(c)
    ensures IsSpace(u) <==> IsSpace(c)
    ensures !IsLower(c) ==> u == c
  {
    if 'a' <= c <= 'z' || 'а' <= c <= 'я' then (c as int - 32) as char
    else if 'ѐ' <= c <= 'џ' then (c as int - 80) as char
    else c
  }

  /** The characters kept by `re.sub(r"[^\w\s]", "", text)`, in order. */
  function KeepWordAndSpace(s: string): (r: string)
    ensures |r| <= |s|
    ensures forall k :: 0 <= k < |r| ==> IsWordChar(r[k]) || IsSpace(r[k])
    decreases |s|
  {
    if s == [] then []
    else (if IsWordChar(s[0]) || IsSpace(s[0]) then [s[0]] else []) + KeepWordAndSpace(s[1..])
  }

  function UpperString(s: string): (r: string)
    ensures |r| == |s|
  {
    seq(|s|, k requires 0 <= k < |s| => UpperChar(s[k]))
  }

  /** Only word and whitespace characters, and no lower-case letter. */
  predicate Normalized(s: string)
  {
    forall k :: 0 <= k < |s| ==> (IsWordChar(s[k]) || IsSpace(s[k])) && !IsLower(s[k])
  }

  /** `normalize_input(text)`. */
  function NormalizeInput(text: string): (r: string)
    ensures Normalized(r)
    ensures |r| <= |text|
  {
    UpperString(KeepWordAndSpace(text))
  }

  /** The filter removes exactly the characters that are neither word nor whitespace. */
  lemma {:induction false} KeepConcat(a: string, b: string)
    ensures KeepWordAndSpace(a + b) == KeepWordAndSpace(a) + KeepWordAndSpace(b)
    decreases |a|
  {
    if a != [] {
      assert (a + b)[1..] == a[1..] + b;
      KeepConcat(a[1..], b);
    } else {
      assert a + b == b;
    }
  }

  lemma {:induction false} KeepAll(s: string)
    requires forall k :: 0 <= k < |s| ==> IsWordChar(s[k]) || IsSpace(s[k])
    ensures KeepWordAndSpace(s) == s
    decreases |s|
  {
    if s != [] {
      KeepAll(s[1..]);
      assert [s[0]] + s[1..] == s;
    }
  }

  /** Normalising is compositional: each piece of the input is normalised on its own. */
  lemma {:induction false} NormalizeConcat(a: string, b: string)
    ensures NormalizeInput(a + b) == NormalizeInput(a) + NormalizeInput(b)
  {
    KeepConcat(a, b);
  }

  /** Text that is already normalised is its own normal form. */
  lemma {:induction false} NormalizedFixed(s: string)
    requires Normalized(s)
    ensures NormalizeInput(s) == s
  {
    KeepAll(s);
  }

  /** `normalize_input` is idempotent. */
  lemma {:induction false} NormalizeIdempotent(s: string)
    ensures NormalizeInput(NormalizeInput(s)) == NormalizeInput(s)
  {
    NormalizedFixed(NormalizeInput(s));
  }

  /** A punctuation character makes no difference to the normal form. */
  lemma {:induction false} NormalizeDropsPunctuation(a: string, c: char, b: string)
    requires !IsWordChar(c) && !IsSpace(c)
    ensures NormalizeInput(a + [c] + b) == NormalizeInput(a + b)
  {
    KeepConcat(a + [c], b);
    KeepConcat(a, [c]);
    KeepConcat(a, b);
    assert KeepWordAndSpace([c]) == [] + KeepWordAndSpace([c][1..]);
    assert KeepWordAndSpace(a) + [] == KeepWordAndSpace(a);
  }

  // ---------------------------------------------------------------------
  // `sanitize_callback_data` of `tg_v9_work.py`.

  /** The alphabet `[a-zA-Z0-9_-]`. */
  predicate IsCallbackChar(c: char)
  {
    'a' <= c <= 'z' || 'A' <= c <= 'Z' || '0' <= c <= '9' || c == '_' || c == '-'
  }

  /** `re.sub(r"[^a-zA-Z0-9_-]", "_", data)[:64]`. */
  function SanitizeCallbackData(data: string): (r: string)
    ensures |r| == Min(|data|, 64)
    ensures forall k :: 0 <= k < |r| ==> IsCallbackChar(r[k]) && r[k] as int < 128
    ensures forall k :: 0 <= k < |r| ==> (IsCallbackChar(data[k]) <==> r[k] == data[k])
    ensures forall k :: 0 <= k < |r| && !IsCallbackChar(data[k]) ==> r[k] == '_'
  {
    var replaced := seq(|data|, k requires 0 <= k < |data| => if IsCallbackChar(data[k]) then data[k] else '_');
    if |replaced| <= 64 then replaced else replaced[..64]
  }

  /** Sanitising twice is sanitising once. */
  lemma {:induction false} SanitizeIdempotent(data: string)
    ensures SanitizeCallbackData(SanitizeCallbackData(data)) == SanitizeCallbackData(data)
  {
  }

  /** Data that is already short and in the alphabet passes unchanged. */
  lemma {:induction false} SanitizeKeeps(data: string)
    requires |data| <= 64 && forall k :: 0 <= k < |data| ==> IsCallbackChar(data[k])
    ensures SanitizeCallbackData(data) == data
  {
  }

  // ---------------------------------------------------------------------
  // Page slicing: Python's `s[start:end]`.

  /** How a slice bound is clamped: negative bounds count from the end. */
  function SliceBound(i: int, n: nat): (r: nat)
    ensures r <= n
    ensures 0 <= i <= n ==> r == i
    ensures i > n ==> r == n
  {
    if i < 0 then (if i + n < 0 then 0 else i + n) else if i > n then n else i
  }

  /** Python's `s[a:b]`. */
  function PySlice<T>(s: seq<T>, a: int, b: int): seq<T>
  {
    var i := SliceBound(a, |s|);
    var j := SliceBound(b, |s|);
    if j <= i then [] else s[i..j]
  }

  /** `tasks[page * size : page * size + size]`. */
  function Page<T>(tasks: seq<T>, page: int, size: nat): seq<T>
  {
    PySlice(tasks, page * size, page * size + size)
  }

  function Min(a: int, b: int): int
  {
    if a <= b then a else b
  }

  /** A page with a non-negative number is the slice of the list it names, clipped at the end. */
  lemma {:induction false} PageSlice<T>(tasks: seq<T>, page: nat, size: nat)
    ensures Page(tasks, page, size) == tasks[Min(page * size, |tasks|)..Min(page * size + size, |tasks|)]
  {
  }

  /** Page -1, the one the back button of page 0 would ask for, is empty. */
  lemma {:induction false} PageMinusOneEmpty<T>(tasks: seq<T>, size: nat)
    ensures Page(tasks, -1, size) == []
  {
  }

  /** The first `k` pages, one after another. */
  function FirstPages<T>(tasks: seq<T>, size: nat, k: nat): seq<T>
  {
    if k == 0 then [] else FirstPages(tasks, size, k - 1) + Page(tasks, k - 1, size)
  }

  /** The first `k` pages are the first `k * size` tasks: consecutive, without gaps or overlaps. */
  lemma {:induction false} FirstPagesPrefix<T>(tasks: seq<T>, size: nat, k: nat)
    ensures FirstPages(tasks, size, k) == tasks[..Min(k * size, |tasks|)]
  {
    if k > 0 {
      FirstPagesPrefix(tasks, size, k - 1);
      PageSlice(tasks, k - 1, size);
      var lo := Min((k - 1) * size, |tasks|);
      var hi := Min((k - 1) * size + size, |tasks|);
      assert (k - 1) * size + size == k * size;
      assert tasks[..lo] + tasks[lo..hi] == tasks[..hi];
    }
  }

  /** Enough pages together give the whole list. */
  lemma {:induction false} PagesCoverAll<T>(tasks: seq<T>, size: nat, k: nat)
    requires k * size >= |tasks|
    ensures FirstPages(tasks, size, k) == tasks
  {
    FirstPagesPrefix(tasks, size, k);
    assert tasks[..|tasks|] == tasks;
  }

  // ---------------------------------------------------------------------
  // Task keyboards and their callback strings.

  datatype Button = Button(text: string, data: string)

  /** The task rows and the navigation row of a keyboard. */
  datatype Keyboard = Keyboard(rows: seq<Button>, nav: seq<Button>)

  /** `f"task_{house}_{work_type}"`. */
  function TaskData(t: Task): string
  {
    "task_" + t.house + "_" + t.workType
  }

  /** `f"{i}. Дом №{house}, Тип работ: {work_type}"`. */
  function TaskLabel(i: nat, t: Task): string
  {
    ShowNat(i) + ". Дом №" + t.house + ", Тип работ: " + t.workType
  }

  /** The button of the task numbered `i`; `tg_v9_work.py` sanitises its data. */
  function TaskButton(i: nat, t: Task, sanitize: bool): Button
  {
    Button(TaskLabel(i, t), if sanitize then SanitizeCallbackData(TaskData(t)) else TaskData(t))
  }

  /** One row per shown task, numbered from 1. */
  function TaskRows(shown: seq<Task>, sanitize: bool): (r: seq<Button>)
    ensures |r| == |shown|
  {
    seq(|shown|, k requires 0 <= k < |shown| => TaskButton(k + 1, shown[k], sanitize))
  }

  /** Every row is numbered by its position on the page, from 1, and names its task. */
  lemma {:induction false} RowsNumbered(shown: seq<Task>, sanitize: bool, k: nat)
    requires k < |shown|
    ensures StartsWith(TaskRows(shown, sanitize)[k].text, ShowNat(k + 1) + ". Дом №" + shown[k].house)
    ensures !sanitize ==> TaskRows(shown, sanitize)[k].data == TaskData(shown[k])
  {
    var p := ShowNat(k + 1) + ". Дом №" + shown[k].house;
    assert TaskRows(shown, sanitize)[k].text == p + ", Тип работ: " + shown[k].workType;
  }

  function BackButton(page: int): Button
  {
    Button("⬅️ Назад", "prev_" + ShowInt(page))
  }

  function ForwardButton(page: int): Button
  {
    Button("Вперед ➡️", "next_" + ShowInt(page))
  }

  /** The navigation row: back when `page > 0`, forward when tasks remain beyond this page. */
  function NavButtons(count: nat, page: int, size: nat): (r: seq<Button>)
    ensures BackButton(page) in r <==> page > 0
    ensures ForwardButton(page) in r <==> count > (page + 1) * size
    ensures |r| <= 2
  {
    assert BackButton(page).data[0] != ForwardButton(page).data[0];
    (if page > 0 then [BackButton(page)] else [])
    + (if count > (page + 1) * size then [ForwardButton(page)] else [])
  }

  /** The `for i, task in enumerate(..., start=1)` loop that builds the task rows. */
  method BuildRows(shown: seq<Task>, sanitize: bool) returns (rows: seq<Button>)
    ensures rows == TaskRows(shown, sanitize)
  {
    rows := [];
    var i := 0;
    while i < |shown|
      invariant 0 <= i <= |shown|
      invariant rows == TaskRows(shown[..i], sanitize)
    {
      rows := rows + [TaskButton(i + 1, shown[i], sanitize)];
      i := i + 1;
    }
    assert shown[..i] == shown;
  }

  /** `create_task_keyboard(page)` of `tg_v10.py`: the page of 30 and its navigation row. */
  method PagedTaskKeyboard(tasks: seq<Task>, page: int) returns (kb: Keyboard)
    ensures kb.rows == TaskRows(Page(tasks, page, 30), false)
    ensures kb.nav == NavButtons(|tasks|, page, 30)
  {
    var rows := BuildRows(Page(tasks, page, 30), false);
    kb := Keyboard(rows, NavButtons(|tasks|, page, 30));
  }

  /** `create_task_keyboard(page)` of `tg_v8_work.py`: every task, navigation counted in pages of 5. */
  method FullTaskKeyboard(tasks: seq<Task>, page: int) returns (kb: Keyboard)
    ensures kb.rows == TaskRows(tasks, false)
    ensures kb.nav == NavButtons(|tasks|, page, 5)
  {
    var rows := BuildRows(tasks, false);
    kb := Keyboard(rows, NavButtons(|tasks|, page, 5));
  }

  /**
    * `create_task_keyboard()` of `tg_v9_work.py`: every task with sanitised
    * data; it returns before its navigation code, so the row is always empty.
    */
  method SanitizedTaskKeyboard(tasks: seq<Task>) returns (kb: Keyboard)
    ensures kb.rows == TaskRows(tasks, true) && kb.nav == []
  {
    var rows := BuildRows(tasks, true);
    kb := Keyboard(rows, []);
  }

  /** What the callback handler makes of a button's data. */
  datatype Choice =
    | TaskPicked(house: string, workType: string)   // `task_h_w`
    | PageTurned(page: int)                          // `prev_p` or `next_p`, the new page
    | CallbackFailed                                 // the unpacking or `int()` raises `ValueError`
    | Unhandled                                      // no branch applies: the handler returns `None`

  /** `handle_task_selection` of `tg_v10.py` / `handle_inline_buttons` of `tg_v8_work.py`. */
  function ParseCallback(data: string): (r: Choice)
    ensures r.Unhandled? <==> !StartsWith(data, "task_") && !StartsWith(data, "prev_") && !StartsWith(data, "next_")
    ensures r.TaskPicked? ==> StartsWith(data, "task_")
    ensures r.PageTurned? ==> StartsWith(data, "prev_") || StartsWith(data, "next_")
  {
    if StartsWith(data, "task_") then ParseTaskData(data)
    else if StartsWith(data, "prev_") || StartsWith(data, "next_") then ParsePageData(data)
    else Unhandled
  }

  /** `_, house, work_type = data.split("_")`: exactly three parts, or `ValueError`. */
  function ParseTaskData(data: string): (r: Choice)
    ensures r.TaskPicked? || r.CallbackFailed?
    ensures r.TaskPicked? <==> |Split(data, "_")| == 3
    ensures r.TaskPicked? ==> r.house == Split(data, "_")[1] && r.workType == Split(data, "_")[2]
  {
    var parts := Split(data, "_");
    if |parts| == 3 then TaskPicked(parts[1], parts[2]) else CallbackFailed
  }

  /** `action, page = data.split("_")`, `int(page)`, then one page back for `prev`, forward otherwise. */
  function ParsePageData(data: string): (r: Choice)
    ensures r.PageTurned? || r.CallbackFailed?
    ensures r.PageTurned? <==> |Split(data, "_")| == 2 && ParseInt(Split(data, "_")[1]).Some?
  {
    var parts := Split(data, "_");
    if |parts| != 2 then CallbackFailed
    else match ParseInt(parts[1])
      case None => CallbackFailed
      case Some(p) => PageTurned(if parts[0] == "prev" then p - 1 else p + 1)
  }

  lemma {:induction false} NoUnderscore(w: string)
    requires '_' !in w
    ensures !Contains(w, "_") && forall k :: 0 <= k < |w| ==> w[k] != "_"[0]
  {
    forall j | 0 <= j <= |w| - 1
      ensures !OccursAt(w, "_", j)
    {
      OccursAtSingle(w, '_', j);
    }
  }

  /** Two underscore-free words joined by `_` split back into the two. */
  lemma {:induction false} SplitPair(w: string, x: string)
    requires '_' !in w && '_' !in x
    ensures Split(w + "_" + x, "_") == [w, x]
  {
    NoUnderscore(w);
    NoUnderscore(x);
    SplitAfterHead(w, "_", x);
    SplitWithoutSeparator(x, "_");
  }

  /** Three underscore-free words joined by `_` split back into the three. */
  lemma {:induction false} SplitTriple(w: string, x: string, y: string)
    requires '_' !in w && '_' !in x && '_' !in y
    ensures Split(w + "_" + x + "_" + y, "_") == [w, x, y]
  {
    NoUnderscore(w);
    assert w + "_" + x + "_" + y == w + "_" + (x + "_" + y);
    SplitAfterHead(w, "_", x + "_" + y);
    SplitPair(x, y);
  }

  /** A task button's data picks that task back when neither value holds an underscore. */
  lemma {:induction false} TaskDataRoundTrip(t: Task)
    requires '_' !in t.house && '_' !in t.workType
    ensures ParseCallback(TaskData(t)) == TaskPicked(t.house, t.workType)
  {
    var d := TaskData(t);
    assert d == "task" + "_" + t.house + "_" + t.workType;
    assert StartsWith(d, "task_");
    SplitTriple("task", t.house, t.workType);
  }

  /** `str(i)` never holds an underscore. */
  lemma {:induction false} ShowIntNoUnderscore(i: int)
    ensures '_' !in ShowInt(i)
  {
    var s := ShowInt(i);
    if i < 0 {
      assert s == "-" + ShowNat(-i);
      assert forall k :: 0 < k < |s| ==> s[k] == ShowNat(-i)[k - 1];
    }
  }

  /** The back button of page `p` turns to page `p - 1`. */
  lemma {:induction false} BackRoundTrip(page: int)
    ensures ParseCallback(BackButton(page).data) == PageTurned(page - 1)
  {
    var d := BackButton(page).data;
    ShowIntNoUnderscore(page);
    assert d == "prev" + "_" + ShowInt(page);
    assert !StartsWith(d, "task_") && StartsWith(d, "prev_");
    SplitPair("prev", ShowInt(page));
    ParseShowInt(page);
  }

  /** The forward button of page `p` turns to page `p + 1`. */
  lemma {:induction false} ForwardRoundTrip(page: int)
    ensures ParseCallback(ForwardButton(page).data) == PageTurned(page + 1)
  {
    var d := ForwardButton(page).data;
    ShowIntNoUnderscore(page);
    assert d == "next" + "_" + ShowInt(page);
    assert !StartsWith(d, "task_") && !StartsWith(d, "prev_") && StartsWith(d, "next_");
    SplitPair("next", ShowInt(page));
    ParseShowInt(page);
  }

  /** A house holding an underscore splits into too many parts: choosing its task raises. */
  lemma {:induction false} UnderscoreHouseFails(a: string, b: string, work: string)
    requires '_' !in a
    ensures ParseCallback(TaskData(Task(a + "_" + b, work, ""))) == CallbackFailed
  {
    var rest := b + "_" + work;
    var d := TaskData(Task(a + "_" + b, work, ""));
    assert d == "task" + "_" + (a + "_" + rest);
    assert StartsWith(d, "task_");
    NoUnderscore("task");
    NoUnderscore(a);
    SplitAfterHead("task", "_", a + "_" + rest);
    SplitAfterHead(a, "_", rest);
    assert rest[|b|..|b| + 1] == "_";
    assert OccursAt(rest, "_", |b|);
    SplitHasSecond(rest, "_");
  }

  // ---------------------------------------------------------------------
  // Choosing an item by number: `int(text)` and the `1 <= choice <= len` check.

  /** The 0-based index the text chooses among `count` items, if any. */
  function ChosenIndex(text: string, count: nat): (r: Option<nat>)
    ensures r.Some? <==> ParseInt(text).Some? && 1 <= ParseInt(text).value <= count
    ensures r.Some? ==> r.value < count && ParseInt(text) == Some(r.value + 1)
  {
    match ParseInt(text)
    case None => None
    case Some(n) => if 1 <= n <= count then Some(n - 1) else None
  }

  /** Typing the number shown next to item `i` chooses item `i`. */
  lemma {:induction false} ChosenIndexShown(i: nat, count: nat)
    requires i < count
    ensures ChosenIndex(ShowNat(i + 1), count) == Some(i)
  {
    ParseShowInt(i + 1);
  }

  /** Surrounding whitespace does not change the choice: `int(text.strip())` is `int(text)`. */
  lemma {:induction false} ChosenIndexStrip(text: string, count: nat)
    ensures ChosenIndex(Strip(text), count) == ChosenIndex(text, count)
  {
    StripIdempotent(text);
  }

  // ---------------------------------------------------------------------
  // Menu text and `send_long_message`.

  const MessageLimit := 4096

  /** The lines `f"{i}. {name}\n"` of a numbered menu of names, from `i`. */
  function MenuLines(names: seq<string>, i: nat): string
    decreases |names|
  {
    if names == [] then "" else ShowNat(i) + ". " + names[0] + "\n" + MenuLines(names[1..], i + 1)
  }

  /** The `response += ...` loop that builds the work-type menu. */
  method BuildMenu(header: string, names: seq<string>) returns (text: string)
    ensures text == header + MenuLines(names, 1)
  {
    text := header;
    var i := 0;
    while i < |names|
      invariant 0 <= i <= |names|
      invariant text + MenuLines(names[i..], i + 1) == header + MenuLines(names, 1)
    {
      assert names[i..][1..] == names[i + 1..];
      text := text + (ShowNat(i + 1) + ". " + names[i] + "\n");
      i := i + 1;
    }
  }

  /** The pieces `text[i:i + 4096]` for `i` in `range(0, len(text), 4096)`. */
  function Chunks(text: string): seq<string>
    decreases |text|
  {
    if text == [] then []
    else if |text| <= MessageLimit then [text]
    else [text[..MessageLimit]] + Chunks(text[MessageLimit..])
  }

  /** The chunks, sent one after another, spell the text. */
  lemma {:induction false} ChunksConcat(text: string)
    ensures Concat(Chunks(text)) == text
    decreases |text|
  {
    if |text| > MessageLimit {
      ChunksConcat(text[MessageLimit..]);
      var cs := Chunks(text);
      assert cs[1..] == Chunks(text[MessageLimit..]);
      assert text == text[..MessageLimit] + text[MessageLimit..];
    } else if text != [] {
      assert Concat([text]) == text + Concat([]);
    }
  }

  /** Every chunk is non-empty and within Telegram's message limit, and there are `ceil(len / 4096)` of them. */
  lemma {:induction false} ChunksBounded(text: string)
    ensures forall k :: 0 <= k < |Chunks(text)| ==> 0 < |Chunks(text)[k]| <= MessageLimit
    ensures |Chunks(text)| == (|text| + MessageLimit - 1) / MessageLimit
    decreases |text|
  {
    if |text| > MessageLimit {
      ChunksBounded(text[MessageLimit..]);
      var cs := Chunks(text);
      assert forall k :: 1 <= k < |cs| ==> cs[k] == Chunks(text[MessageLimit..])[k - 1];
    }
  }

  /** The `for i in range(0, len(text), 4096)` loop of `send_long_message`. */
  method SendLongMessage(text: string) returns (sent: seq<string>)
    ensures sent == Chunks(text)
  {
    sent := [];
    var i := 0;
    while i < |text|
      invariant 0 <= i <= |text|
      invariant sent + Chunks(text[i..]) == Chunks(text)
      decreases |text| - i
    {
      var rest := text[i..];
      if |rest| <= MessageLimit {
        sent := sent + [rest];
        assert text[|text|..] == [];
        i := |text|;
      } else {
        assert Chunks(rest) == [rest[..MessageLimit]] + Chunks(rest[MessageLimit..]);
        assert rest[..MessageLimit] == text[i..i + MessageLimit];
        assert rest[MessageLimit..] == text[i + MessageLimit..];
        sent := sent + [text[i..i + MessageLimit]];
        i := i + MessageLimit;
      }
    }
    assert text[i..] == [];
  }

  /**
    * How the menu reaches the user: one edited message when it fits,
    * otherwise `send_long_message`'s chunks.
    */
  method ShowMenu(text: string) returns (shown: seq<string>)
    ensures |text| <= MessageLimit ==> shown == [text]
    ensures |text| > MessageLimit ==> shown == Chunks(text)
  {
    if |text| > MessageLimit {
      shown := SendLongMessage(text);
    } else {
      shown := [text];
    }
  }

  /** What the user sees of a menu: the text itself when it fits one message, its chunks otherwise. */
  predicate Displayed(text: string, shown: seq<string>)
  {
    (|text| <= MessageLimit ==> shown == [text]) && (|text| > MessageLimit ==> shown == Chunks(text))
  }

  /** Either way, the messages shown spell the menu and each fits the limit. */
  lemma {:induction false} ShownMenu(text: string, shown: seq<string>)
    requires |text| <= MessageLimit ==> shown == [text]
    requires |text| > MessageLimit ==> shown == Chunks(text)
    ensures Concat(shown) == text
    ensures forall k :: 0 <= k < |shown| ==> |shown[k]| <= MessageLimit
  {
    ChunksConcat(text);
    ChunksBounded(text);
    if |text| <= MessageLimit {
      assert Concat([text]) == text + Concat([]);
    }
  }
}

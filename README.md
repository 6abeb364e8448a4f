# Work-report bot, modelled in Dafny

The repository is a Telegram bot that lets a maintenance worker report one
job on a residential building. The worker picks the house and the type of
work and sends a photo before work starts. Then the worker either sends the
photo after the work, or defers it and later picks the unfinished task from a
list. The bot keeps a dated report directory per job, each with a
`report.txt` record whose status line says "не выполнено" (not done) until the
photo after arrives. It also builds a PDF of the two photos.

The repository holds nine successive versions of the bot, from `tg.py` to
`tg_v10.py`, and two start-up scripts:

- `Houses.py` builds the house dictionary, mapping a house number to its
  addresses.
- `list_works.py` builds the list of work types with their descriptions.

Each bot version is its own module, `BotV1` … `BotV10`; there is no `BotV7`,
because the repository has no `tg_v7`. Each module holds:

- the states (`Step`) and handlers of the version's `ConversationHandler`;
- `Route`, which picks the handler for an update in a phase;
- a `Bot` class whose fields are the conversation phase, the per-user
  `context.user_data` (`session`) and the files the handlers change.

Each handler is a method with a precise frame and a case-by-case contract.
`Handle` runs one update through the conversation handler and proves both
the invariant `Reachable()` and the version's safety properties, which are:

- which handlers can raise;
- that directories are only ever created;
- which updates change the job store;
- where the photo before leads.

`Conversation.After` states python-telegram-bot's rules for a handler's
result:

- a returned state is entered;
- `END` leaves the conversation;
- `None` keeps the state;
- an exception keeps the state, and whatever the handler changed before it
  raised stays changed.

An update that no handler of the current phase accepts is ignored. Text
handlers never see commands.

The shared logic lives in library modules:

- `ReportDirs`: the `report_<n>` directory allocation.
- `Records`: the `report.txt` formats, the completion and deferral rewrites,
  the two scans of unfinished records, and `extract_report_data`.
- `Menus`: `normalize_input`, `sanitize_callback_data`, pagination, task
  keyboards and their callback data, numbered choices, and
  `send_long_message`.
- `JobIndex`: the JSON job and user stores of `tg.py`/`tg_v2.py`, and the
  full-name lookup.
- `Houses`, `ListWorks`: the two start-up scripts.
- `Strings`, `Numbers`, `Lines`, `Sheets`: the Python built-ins the code
  relies on:
  - `split`, `strip`, `in`, `join`;
  - `str(n)`, `int(s)`;
  - `readlines`;
  - `pd.notna`, `str(cell)`, and the truth value of a cell.

The environment is a parameter (`Env`). It says:

- whether a download, a send, the PDF font or the PDF output succeed;
- the current year, month and `%m.%Y` stamp;
- the order in which `os.walk` lists directories.

The filesystem is a `Disk`: the set of directories, the set of photo paths,
and a map from record paths to their text.

## Where the code does something other than what it seems to intend

The model follows the code in every case below.

### `tg.py`

- `confirm_completion` removes the house's jobs from the store when the text
  is "Завершить работу", and then calls the undefined `save_files_to_folder`,
  which raises `NameError`. Any other text ends the conversation.
  `CONFIRMING_COMPLETION` is never returned by any handler, so the state is
  unreachable.
- `handle_photo_after` saves the photo and only defines the PDF builder. It
  returns `None`, so the conversation stays awaiting the photo after.
- `start` does not put the stored full name into the session. A signed-in
  user who starts a fresh session therefore ends the conversation at the
  photo before (the missing `full_name` branch).
- `select_unfinished_job` returns `RECEIVING_PHOTO_BEFORE`. When the session
  holds `full_name`, the next photo records the job again as a new entry.
  That entry takes the session's name and a fresh `get_house_full_name`
  lookup, not the stored job's fields. Without `full_name` the photo ends
  the conversation, as above.
- `select_house` has a dead duplicate block after its `return`.

### `tg_v2.py`

- No handler returns `REQUESTING_PHONE`, so nothing ever stores `full_name`.
  As a result:
  - `handle_photo_before` always ends the conversation;
  - `unfinished_jobs.json` is never written;
  - the after-photo state is never entered.
- A job would be recorded with the placeholder full name "House Full Name".

### `tg_v3.py`

- `select_house` overwrites the global house before it checks the text.
- The photo file names are keyed by that global.

### `tg_v4.py`

- `start` only lists the unfinished records.
- A missing session key in the record writer leaves the lines written before
  it, and then the PDF step raises.

### `tg_v5.py`

- No handler returns `SELECTING_WORK_TYPE`, and so the photo before is never
  awaited.
- `select_house` ignores the text it receives.
- A rescan that finds nothing keeps the previously stored task list.
- A failed PDF send is only logged.
- The next directory is keyed by the house read back from `report.txt`.

### `tg_v6_work.py`

- `RECEIVING_TASK_NUMBER` has no handler.
- "Add the photo later" writes no record and keeps the session's directory.
- A directory allocated before a failed download stays in the session.

### `tg_v8_work.py`, `tg_v10.py`

- Choosing a task keeps the session's own `report_dir`. The photo after is
  therefore saved into the current directory, not the task's.

### `tg_v9_work.py`

- A second `select_work_type` shadows the first.
- `create_task_keyboard` returns before its navigation code, so the
  navigation row is always empty.
- `handle_inline_buttons` is never registered.

### `tg_v10.py`

- `CONFIRMING_WORK_TYPE` is never entered, because `select_work_type` goes
  straight to the photo before.

## Model

| member | source | states |
|---|---|---|
| Conversation.After | tg_v10.py:477-490 | a returned state is entered, `END` makes the conversation idle, anything else keeps the phase |
| Conversation.ReadyEntriesPresent | tg_v10.py:295-297 | the record's three lines can all be written exactly when the session holds house, work type and work data |
| Strings.Split | tg_v10.py:106 | `str.split` with a non-empty separator returns at least one piece |
| Strings.SplitJoin | tg_v10.py:106 | joining the pieces of a split with the separator gives the text back |
| Strings.SplitPiecesFree | tg_v10.py:106 | no piece of a split contains the separator |
| Strings.SplitWithoutSeparator | tg_v10.py:106 | text without the separator splits into itself alone |
| Strings.SplitHasSecond | tg_v10.py:108-109 | `split(sep)[1]` exists exactly when the separator occurs |
| Strings.SplitHeadPrefix | tg_v10.py:106 | the first piece is a prefix of the text |
| Strings.SplitAfterHead | tg_v10.py:106-109 | a head free of the separator's first character is the first piece, the rest splits on |
| Strings.LastPieceFree | Houses.py:22 | `split(sep)[-1]` holds no separator |
| Strings.LastPieceSuffix | Houses.py:22 | `split(sep)[-1]` is a suffix of the text |
| Strings.LastPieceAfterSeparator | Houses.py:22 | when the separator occurs, the last piece follows its last occurrence |
| Strings.IndexOf | tg_v10.py:108 | the first occurrence of a substring, `None` exactly when it does not occur |
| Strings.StripSpec | tg_v10.py:108-109 | `strip` keeps a slice with only whitespace around it, and the result neither starts nor ends with whitespace |
| Strings.StripTrimmed | tg_v10.py:108-109 | trimmed text is its own strip |
| Strings.StripIdempotent | tg_v10.py:108-109 | `strip` is idempotent |
| Strings.StripTrailingSpace | tg_v5.py:227-228 | a trailing newline or space is stripped away again |
| Numbers.ShowNat | tg_v10.py:85-88 | `str(n)` is non-empty decimal digits without a leading zero |
| Numbers.DigitsValueShowNat | tg_v10.py:85-88 | the digits of `str(n)` read back as `n` |
| Numbers.ShowNatInjective | tg_v10.py:85-88 | different report numbers have different decimal texts |
| Numbers.ShowIntInjective | tg_v8_work.py:131-133 | `str` on integers is injective |
| Numbers.ParseIntAlphabet | tg_v10.py:188 | `int()` succeeds only on whitespace, signs, underscores and digits |
| Numbers.ParseDigitString | tg_v10.py:188 | `int()` reads a digit string as its value |
| Numbers.ParseNegativeDigitString | tg_v8_work.py:155-156 | `int()` reads a minus sign and digits as the negated value |
| Numbers.ParseShowInt | tg_v8_work.py:155-156 | `int(str(n)) == n`, so a page number survives the callback data |
| Lines.ConcatSnoc | tg_v10.py:366-370 | writing one more line appends it to the file |
| Lines.ContainedLine | tg_v10.py:366-367 | what occurs in a written line occurs in the file |
| Lines.ReadLinesStep | tg_v10.py:363 | `readlines` cuts the text after its first newline |
| Lines.ReadLinesConcat | tg_v10.py:363-370 | writing back what `readlines` returned reproduces the file |
| Lines.ReadLinesWellFormed | tg_v10.py:363 | `readlines` returns non-empty lines with a newline at most at the end, all but the last terminated |
| Lines.ConcatReadLines | tg_v10.py:363-370 | reading back written well-formed lines gives the same lines |
| Lines.ContainsInLines | tg_v10.py:366-367 | a newline-free marker occurs in the file exactly when it occurs in one of its lines |
| ReportDirs.Makedirs | tg_v10.py:89 | `os.makedirs(..., exist_ok=True)` keeps every existing path and adds the directory, and only paths no longer than it |
| ReportDirs.ReportPathInjective | tg_v10.py:85-88 | different report numbers name different directories |
| ReportDirs.LeastFreeNumber | tg_v10.py:84-86 | the `while os.path.exists` loop stops at the least `n >= 1` whose `report_n` is missing |
| ReportDirs.CreateReportDirectory | tg_v10.py:84-91 | the directory allocated is the least free `report_n`, created with its ancestors |
| ReportDirs.LeastFreeUnique | tg_v10.py:84-86 | the stopping number is determined by the filesystem |
| ReportDirs.NextAllocationLarger | tg_v10.py:84-91 | the next allocation under the same base returns a larger number |
| ReportDirs.FreshBaseOneThenTwo | tg_v10.py:84-91 | on a fresh base two allocations give `report_1` then `report_2` |
| ReportDirs.CreateForHouse | tg_v10.py:74-92 | an unknown house raises `ValueError`, an empty address list `IndexError`, otherwise the directory goes under the house's first address |
| Records.EntriesThenPending | tg_v10.py:292-298 | the three session lines followed by the pending line are the fresh record |
| Records.EntriesThenStatus | tg_v4.py:115-119 | the two session lines followed by a status line are the three-line record |
| Records.MarkDone | tg_v10.py:366-370 | the completion rewrite keeps the number of lines |
| Records.WriteMarkedDone | tg_v10.py:365-370 | the write loop produces the lines marked done, written one after another |
| Records.MarkPending | tg_v9_work.py:373-377 | the deferral rewrite keeps the number of lines |
| Records.WriteMarkedPending | tg_v9_work.py:372-377 | the write loop produces the lines with each status line reset to pending |
| Records.CompleteUk | tg_v9_work.py:465-478 | the completion adds exactly one line when no line had the management-company tag, none otherwise |
| Records.WriteCompletedUk | tg_v9_work.py:467-478 | the write loop produces those lines |
| Records.AfterColon | tg_v10.py:108-109 | `line.split(": ")[1]` fails exactly when `": "` does not occur; otherwise it is the text right after the first `": "` up to the next |
| Records.ReadRecord | tg_v10.py:104-109 | a record is skipped exactly when it lacks "не выполнено", and a pending task names its directory |
| Records.GetUnfinishedTasks | tg_v10.py:94-120 | the nested `os.walk` loop returns the tolerant scan over the walked directories |
| Records.GatheredFrom | tg_v10.py:98-113 | a task contributed by a walked directory is gathered |
| Records.GatheredOnlyFrom | tg_v10.py:98-113 | every gathered task was contributed by some walked directory |
| Records.TasksAtSpec | tg_v10.py:100-113 | a directory contributes a task exactly when its record is pending and well-formed, with both values stripped |
| Records.ListedFrom | tg_v10.py:94-120 | what a walked directory contributes is listed |
| Records.ListedOnlyFrom | tg_v10.py:94-120 | everything listed comes from a walked directory |
| Records.PendingRecordListed | tg_v10.py:94-120 | a walked pending well-formed record is listed, values stripped |
| Records.CheckUnfinished | tg_v4.py:229-256 | the raw scan loop stops at the first malformed pending record and otherwise lists values unstripped |
| Records.RawScanRaisedStays | tg_v4.py:236-246 | once the raw scan raised, it stays raised for the rest of the walk |
| Records.RawScanAgrees | tg_v5.py:235-271 | where the raw scan succeeds, the tolerant scan of the later versions lists the same tasks, stripped |
| Records.RawScanRaises | tg_v4.py:240-244 | the raw scan raises exactly when some walked record is pending but malformed |
| Records.AfterLabel | tg_v10.py:108 | the value after a colon-free label is read back |
| Records.TwoLines | tg_v10.py:106 | two newline-free first lines are `lines[0]` and `lines[1]` |
| Records.ReadTwoLines | tg_v10.py:104-109 | a pending text with values in its first two lines reads as that task |
| Records.ReadWrittenRecord | tg_v10.py:104-109 | house and work-type lines followed by a pending mark read back as a pending task with those values |
| Records.PendingLineHasMark | tg_v10.py:298 | the pending status line holds the marker |
| Records.DoneLineClean | tg_v10.py:368 | the done status line does not |
| Records.ReadPendingRecord | tg_v10.py:292-298 | the fresh record reads back as a pending task with the values written |
| Records.ReadPendingRecordUk | tg_v9_work.py:327-338 | so does the five-line record with the management-company line |
| Records.WrittenRecordListed | tg_v10.py:292-298 | a record written by the photo before is listed among the unfinished tasks once its directory is walked |
| Records.WrittenRecordUkListed | tg_v9_work.py:327-338 | the same for the five-line record |
| Records.ShortRecordPending | tg_v4.py:115-119 | the deferred three-line record reads as pending with the values written |
| Records.MarkDoneClean | tg_v10.py:366-370 | no line of a completed record holds the marker |
| Records.MarkDoneSeparated | tg_v10.py:366-370 | the completion keeps each line but the last terminated |
| Records.CompletedRecordNotPending | tg_v10.py:361-370 | after the completion rewrite no scan lists the record, whatever it held |
| Records.CompletedUkRecordNotPending | tg_v9_work.py:460-478 | the same for the completion that appends the management-company line |
| Records.UkLineClean | tg_v9_work.py:477-478 | the management-company line never holds the marker |
| Records.StraddleUk | tg_v9_work.py:468-478 | appending that line to a marker-free text creates no marker |
| Records.MarkPendingIdempotent | tg_v9_work.py:370-377 | deferring an already deferred record changes nothing |
| Records.UkTagInLines | tg_v9_work.py:465 | text holding the tag has a line holding it |
| Records.CompletedHasUk | tg_v9_work.py:465-478 | the completed record always holds the management-company tag |
| Records.UkAppendedOnce | tg_v9_work.py:465-478 | a second completion appends nothing and only marks lines done |
| Records.ExtractReportData | tg_v5.py:222-232 | the first two lines' values, stripped; `(None, None)` exactly when the file is missing, too short, or a line lacks `": "` |
| Records.TwoFieldLines | tg_v5.py:226 | `readlines` of a record starts with its two field lines |
| Records.FieldValueBack | tg_v5.py:227-228 | a field's value is read back, trailing newline stripped |
| Records.ExtractWrittenRecord | tg_v5.py:222-232 | a record starting with the two fields is read back as their values, stripped |
| Records.ExtractAfterMarkDone | tg_v5.py:163-180 | the after-photo rewrite keeps the two fields, so the data read back are the values written |
| Records.MarkDoneKeeps | tg_v5.py:168-172 | a line without the marker is written back unchanged |
| Records.DeferredRecordCompleted | tg_v5.py:163-180 | a record deferred by `tg_v4.py` is completed by `tg_v5.py`: its data read back and no scan lists it again |
| Menus.UpperChar | tg_v10.py:70 | `upper` leaves no lower-case letter and keeps word and whitespace characters |
| Menus.KeepWordAndSpace | tg_v10.py:69 | `re.sub(r"[^\w\s]", "", ...)` keeps only word and whitespace characters, never more than it had |
| Menus.NormalizeInput | tg_v10.py:67-71 | the result is normalised (word and whitespace characters, no lower case) and no longer than the input |
| Menus.NormalizeConcat | tg_v10.py:67-71 | normalising distributes over concatenation |
| Menus.NormalizedFixed | tg_v10.py:67-71 | normalised text is its own normal form |
| Menus.NormalizeIdempotent | tg_v10.py:67-71 | `normalize_input` is idempotent |
| Menus.NormalizeDropsPunctuation | tg_v10.py:67-71 | a punctuation character makes no difference to the key |
| Menus.SanitizeCallbackData | tg_v9_work.py:69-76 | at most 64 ASCII characters of `[a-zA-Z0-9_-]`; allowed characters are kept in place, others become `_` |
| Menus.SanitizeIdempotent | tg_v9_work.py:69-76 | sanitising twice is sanitising once |
| Menus.SanitizeKeeps | tg_v9_work.py:69-76 | short data in the alphabet passes unchanged |
| Menus.PageSlice | tg_v9_work.py:117-122 | a page is the slice it names, clipped at the end of the list |
| Menus.PageMinusOneEmpty | tg_v10.py:122-146 | the page before page 0 is empty |
| Menus.FirstPagesPrefix | tg_v9_work.py:117-122 | the first `k` pages are the first `k * size` tasks, without gaps or overlaps |
| Menus.PagesCoverAll | tg_v9_work.py:117-122 | enough pages together give every task |
| Menus.TaskRows | tg_v10.py:128-135 | one row per task shown |
| Menus.RowsNumbered | tg_v10.py:128-135 | row `k` is labelled `k+1` and names its task's house; its data is `task_<house>_<work>` |
| Menus.NavButtons | tg_v10.py:137-141 | back exactly when `page > 0`, forward exactly when tasks remain after this page |
| Menus.BuildRows | tg_v10.py:128-135 | the `enumerate` loop builds those rows |
| Menus.PagedTaskKeyboard | tg_v10.py:122-146 | the keyboard shows the page of 30 and its navigation row |
| Menus.FullTaskKeyboard | tg_v8_work.py:116-138 | the keyboard shows every task, with navigation counted in pages of 5 |
| Menus.SanitizedTaskKeyboard | tg_v9_work.py:125-153 | the keyboard shows every task with sanitised data and an empty navigation row |
| Menus.ParseCallback | tg_v10.py:452-471 | data with none of the three prefixes is unhandled; a task pick comes from `task_`, a page turn from `prev_`/`next_` |
| Menus.ParseTaskData | tg_v8_work.py:146-148 | the unpacking succeeds exactly when the data has three `_`-separated parts, taking the second and third |
| Menus.ParsePageData | tg_v8_work.py:153-158 | a page turn succeeds exactly when there are two parts and the second is an integer |
| Menus.SplitPair | tg_v8_work.py:155 | two underscore-free words joined by `_` split back |
| Menus.SplitTriple | tg_v8_work.py:148 | three underscore-free words joined by `_` split back |
| Menus.TaskDataRoundTrip | tg_v8_work.py:116-160 | a task button picks its task back when neither value holds `_` |
| Menus.BackRoundTrip | tg_v8_work.py:131-158 | the back button of page `p` turns to page `p - 1` |
| Menus.ForwardRoundTrip | tg_v8_work.py:133-158 | the forward button of page `p` turns to page `p + 1` |
| Menus.UnderscoreHouseFails | tg_v8_work.py:146-148 | a house holding `_` makes choosing its task raise |
| Menus.ChosenIndex | tg_v10.py:182-211 | a choice exists exactly when `int(text)` is between 1 and the count, and it is that number minus one |
| Menus.ChosenIndexShown | tg_v10.py:182-211 | typing the number shown next to item `i` chooses item `i` |
| Menus.ChosenIndexStrip | tg_v5.py:122-139 | surrounding whitespace does not change the choice |
| Menus.BuildMenu | tg_v10.py:224-226 | the menu is the header followed by the numbered lines `i. name` |
| Menus.ChunksConcat | tg_v10.py:239-241 | the chunks sent spell the whole text |
| Menus.ChunksBounded | tg_v10.py:239-241 | each chunk is non-empty and at most 4096 characters, and there are `ceil(len / 4096)` of them |
| Menus.SendLongMessage | tg_v10.py:239-241 | the loop sends exactly those chunks |
| Menus.ShowMenu | tg_v10.py:228-231 | a menu that fits is one message, otherwise its chunks |
| Menus.ShownMenu | tg_v10.py:228-231 | either way the messages spell the menu and each fits the limit |
| ListWorks.FilterWorks | list_works.py:19-34 | the row loop raises exactly when a present first cell is not a text (a number, a date, a boolean), and otherwise returns one item per first occurrence of a name |
| ListWorks.NonTextCrashes | list_works.py:21-23 | a present first cell that is not a text (a number, a date, a boolean) makes `split` raise |
| ListWorks.RowStep | list_works.py:19-34 | one more row extends the items only with a name not seen before |
| ListWorks.NameHasNoDot | list_works.py:23 | a name holds no `.`, being cut after the last one |
| ListWorks.NameFilterPasses | list_works.py:25 | the "Материалы."/"Работа/услуги." filter never rejects a name, as both tags end in a dot |
| ListWorks.FirstsNames | list_works.py:27-28 | the names listed are exactly the names of the text rows |
| ListWorks.FirstsUnique | list_works.py:27-28 | no two items share a name |
| ListWorks.FirstsPrefix | list_works.py:19-34 | the list only grows at the end, in row order |
| ListWorks.FirstsOrigin | list_works.py:27-34 | each item comes from the first row with its name and carries that row's data |
| ListWorks.FirstsNoDot | list_works.py:23-25 | no item's name holds a dot |
| ListWorks.RowDataPieces | list_works.py:32 | the data string splits back into the non-empty cells it joins when none holds a space |
| ListWorks.JoinSplit | list_works.py:32 | `" ".join` of space-free parts splits back into them |
| Houses.BuildHouseDict | Houses.py:15-29 | the row loop builds the house table |
| Houses.HouseTableLists | Houses.py:15-29 | each key's list is exactly its contributing addresses in row order, and only keys with some are present |
| Houses.HouseTableValid | Houses.py:24-29 | keys listed once each, exactly those with a list, no list empty |
| Houses.AddressesKeyed | Houses.py:21-22 | every stored address contains `д.`, yields its key again and is a row of the sheet |
| Houses.KeyPresent | Houses.py:21-29 | a key is present exactly when some contributing row yields it |
| Houses.TotalCount | Houses.py:15-29 | the lists together hold one entry per contributing row |
| Houses.HouseKeyAfterLastMark | Houses.py:22 | the piece the key is cut from follows the last `д.`: the address ends with `д.` and that piece, and the piece holds no further `д.` |
| JobIndex.Added | tg.py:96-106 | adding keeps every user and adds the given one |
| JobIndex.Removed | tg.py:127-129 | removing keeps the set of users |
| JobIndex.AddedAppends | tg.py:96-106 | adding appends exactly one job at the end of that user's list and leaves the other users alone |
| JobIndex.OtherHousesSpec | tg.py:127-129 | the filter keeps exactly the jobs for other houses |
| JobIndex.OtherHousesConcat | tg.py:127-129 | the filter keeps the order of the remaining jobs |
| JobIndex.RemovedDrops | tg.py:122-134 | removing drops exactly that user's jobs for the house and leaves the other users alone |
| JobIndex.AddThenRemove | tg.py:91-134 | a job added and then removed by its house is gone together with that user's other jobs for the house |
| JobIndex.JobFile.AddUnfinishedJob | tg.py:91-111 | the store gets the job appended for the user; an unreadable file stays unreadable |
| JobIndex.JobFile.GetUnfinishedJobs | tg.py:113-120 | the user's jobs, `[]` for an unknown user or an unreadable file |
| JobIndex.JobFile.RemoveUnfinishedJob | tg.py:122-134 | the store loses that user's jobs for the house |
| JobIndex.UserFile.GetUserData | tg.py:70-77 | the user's entry exactly when the file is readable and has one |
| JobIndex.UserFile.SaveUserData | tg.py:79-89 | only that user's entry is set or overwritten |
| JobIndex.GetHouseFullName | tg.py:179-189 | the full name from `Houses.xlsx`, `None` when it cannot be loaded |
| JobIndex.FullNameFirstMatch | tg.py:183-186 | the full name found comes from the first matching row |
| JobIndex.FullNameMissing | tg.py:179-189 | a house matching no row has no full name |
| BotV1.RecordedJobSelectable | tg.py:287-315 | a job just recorded is the last listed for the user, and typing its number selects it |
| BotV1.Route | tg.py:474-487 | `/start` enters, `/cancel` leaves from every state, each photo and job number goes to its own state's handler |
| BotV1.Bot.Start | tg.py:137-160 | unknown users sign in; known users with jobs pick one, without jobs choose a house |
| BotV1.Bot.RequestPhone | tg.py:163-167 | the phone is stored and the name asked for |
| BotV1.Bot.RequestFullName | tg.py:170-176 | the name is stored, then appended to `users.xlsx` and saved for the user; an unreadable workbook raises before the save |
| BotV1.Bot.SelectHouse | tg.py:191-214 | a house whose full name is falsy in Python (missing, empty, `False` or a zero) asks again, an empty work list ends, otherwise the work type is asked for |
| BotV1.Bot.SelectWorkType | tg.py:280-284 | any text is the work type |
| BotV1.Bot.PhotoBefore | tg.py:287-315 | missing name, house or work type ends; a failed download raises; otherwise the photo is saved and the job recorded |
| BotV1.Bot.PhotoAfter | tg.py:318-355 | the photo after is saved and the conversation stays, or it raises |
| BotV1.Bot.ConfirmCompletion | tg.py:423-446 | only "Завершить работу" removes the house's jobs, and then raises; other text ends |
| BotV1.Bot.Continue | tg.py:449-467 | a new job, the job list when there are jobs, or nothing |
| BotV1.Bot.SelectUnfinishedJob | tg.py:358-382 | the number typed copies that job into the session and awaits a photo before; anything else goes back |
| BotV1.Bot.Handle | tg.py:474-487 | reachability is kept; a job is recorded only by the photo before with the user's name in the session; the photo after never ends; only a failed download, send or workbook raises |
| BotV2.Route | tg_v2.py:203-215 | `/start` only enters; no fallbacks; each state's handler sees only its own updates |
| BotV2.Bot.Start | tg_v2.py:72-87 | the unfinished jobs are offered exactly when there are some |
| BotV2.Bot.RequestPhone | tg_v2.py:90-94 | the phone is stored and the name asked for |
| BotV2.Bot.RequestFullName | tg_v2.py:97-101 | the name is stored and a house asked for |
| BotV2.Bot.SelectHouse | tg_v2.py:104-108 | any text is the house |
| BotV2.Bot.SelectWorkType | tg_v2.py:111-115 | any text is the work type |
| BotV2.Bot.PhotoBefore | tg_v2.py:118-141 | missing fields end; otherwise the photo is saved and the job recorded "В работе" |
| BotV2.Bot.PhotoAfter | tg_v2.py:144-152 | the photo after is saved and the conversation ends |
| BotV2.Bot.Continue | tg_v2.py:155-172 | a new job, the job list when there are jobs, or nothing |
| BotV2.Bot.SelectUnfinishedJob | tg_v2.py:175-197 | the number typed copies that job into the session; anything else goes back |
| BotV2.Bot.Handle | tg_v2.py:203-215 | the job file never changes and the photo before always ends the conversation, because no handler stores the name |
| BotV3.Route | tg_v3.py:142-150 | `/start` enters, `/cancel` leaves from every state |
| BotV3.Bot.SelectHouse | tg_v3.py:46-54 | the global house is overwritten, and the next state depends on whether the text is in `HOUSES` |
| BotV3.Bot.SelectWorkType | tg_v3.py:57-62 | any text is the work type |
| BotV3.Bot.PhotoBefore | tg_v3.py:65-74 | a failed download raises; otherwise the photo and its time are saved |
| BotV3.Bot.PhotoAfter | tg_v3.py:77-130 | the PDF outcome by font, photos and output; a completed report removes both photos |
| BotV3.Bot.Handle | tg_v3.py:142-150 | `/cancel` always ends; only a failed download or PDF output raises; a completed report leaves neither photo |
| BotV4.Route | tg_v4.py:263-272 | `/start` only enters; commands never reach a state; `/check_unfinished` is outside the conversation |
| BotV4.Bot.Start | tg_v4.py:44-52 | the raw scan lists the unfinished records or raises, then a house is asked for |
| BotV4.Bot.SelectHouse | tg_v4.py:56-64 | the text as typed must be one of `HOUSES` |
| BotV4.Bot.SelectWorkType | tg_v4.py:68-72 | any text is the work type |
| BotV4.Bot.PhotoBefore | tg_v4.py:76-101 | a directory is allocated only when the session has none, then `до.jpg` is saved |
| BotV4.Bot.Finish | tg_v4.py:162-225 | the record is overwritten with the status, the PDF built, and the next directory allocated for the same house |
| BotV4.Bot.ChooseAction | tg_v4.py:105-158 | the photo after is asked for, or the task is deferred with a pending record |
| BotV4.Bot.PhotoAfter | tg_v4.py:162-225 | `после.jpg` is saved, then the job finishes with a done record |
| BotV4.Bot.Handle | tg_v4.py:263-276 | directories and photos are only added; only a malformed pending record or the font raises, given that `get_file` succeeds (tg_v4.py:78 and :164 call it outside the `try`); `/check_unfinished` raises exactly when the scan does |
| BotV5.Route | tg_v5.py:278-288 | `/start` only enters; commands never reach a state; `/check_unfinished` is outside the conversation |
| BotV5.Bot.CheckUnfinishedTasks | tg_v5.py:235-271 | the raw scan; an empty result stores nothing, otherwise the list is stored and the action menu shown |
| BotV5.Bot.SelectHouse | tg_v5.py:58-70 | the scan runs and the menu is shown whenever some task list is stored; the text is not read |
| BotV5.Bot.ChooseAction | tg_v5.py:111-118 | continue asks for a task number; a new task rescans |
| BotV5.Bot.TaskNumber | tg_v5.py:122-139 | the number chooses that task's directory; anything else asks again |
| BotV5.Bot.PhotoAfter | tg_v5.py:143-218 | the record is marked done, its data read back, the PDF sent, and a new directory allocated for the house read back |
| BotV5.Bot.Handle | tg_v5.py:278-292 | directories are only created; only the scan or the photo after raises |
| BotV6.Route | tg_v6_work.py:294-308 | `/start` only enters; the task-number state has no handler |
| BotV6.Bot.SelectHouse | tg_v6_work.py:94-119 | the stripped text must be a key of `HOUSES_DICT` |
| BotV6.Bot.SelectAddress | tg_v6_work.py:123-149 | a number chooses an address, anything else asks again |
| BotV6.Bot.InlineButton | tg_v6_work.py:75-84 | `correct` asks for the work, `incorrect` starts over |
| BotV6.Bot.AddressConfirmation | tg_v6_work.py:153-161 | the same choice typed as the buttons' captions |
| BotV6.Bot.SelectWorkType | tg_v6_work.py:165-169 | any text is the work type |
| BotV6.Bot.PhotoBefore | tg_v6_work.py:173-198 | a directory is allocated only when the session has none, then `до.jpg` is saved |
| BotV6.Bot.ChooseAction | tg_v6_work.py:202-210 | "add the photo later" starts a new task and writes no record |
| BotV6.Bot.PhotoAfter | tg_v6_work.py:214-287 | the done record is written, the PDF sent, and the next directory allocated |
| BotV6.Bot.Handle | tg_v6_work.py:294-308 | nothing raises but the font, given that `get_file` succeeds (tg_v6_work.py:175 and :218 call it outside the `try`); a saved photo after always leaves the done record |
| BotV8.Route | tg_v8_work.py:449-463 | `/start` only enters; a command in the middle of a conversation is ignored |
| BotV8.Bot.SelectHouse | tg_v8_work.py:168-193 | the stripped text must be a key of `HOUSES_DICT` |
| BotV8.Bot.SelectAddress | tg_v8_work.py:196-222 | a number chooses an address, anything else asks again |
| BotV8.Bot.AddressConfirmation | tg_v8_work.py:225-251 | `correct` shows the work menu, split when long; `incorrect` starts over |
| BotV8.Bot.SelectWorkType | tg_v8_work.py:260-278 | a number stores the work and allocates the directory for the selected house |
| BotV8.Bot.PhotoBefore | tg_v8_work.py:281-317 | `до.jpg` is saved, then the record written; a missing key ends the conversation |
| BotV8.Bot.ChooseAction | tg_v8_work.py:320-347 | the four buttons; "continue" shows the task keyboard |
| BotV8.Bot.PhotoAfter | tg_v8_work.py:350-443 | `после.jpg` is saved, the record's pending line marked done, and the PDF sent |
| BotV8.Bot.InlineButtons | tg_v8_work.py:141-160 | a task button stores its house and work; a page button shows that page |
| BotV8.Bot.Handle | tg_v8_work.py:449-463 | directories are only created; only the task buttons and the photo after can raise, given that `get_file` succeeds (tg_v8_work.py:283 calls it outside the `try`); a photo before never ends the conversation |
| BotV9.Route | tg_v9_work.py:659-673 | `/start` enters and restarts; only the two confirmations take callbacks |
| BotV9.PaginatedCover | tg_v9_work.py:117-122 | pages of five together list all unfinished tasks in order |
| BotV9.Bot.SelectHouse | tg_v9_work.py:175-201 | the stripped text must be a key of `HOUSES_DICT`; an empty address list raises |
| BotV9.Bot.SelectAddress | tg_v9_work.py:204-230 | a number chooses an address, anything else asks again |
| BotV9.Bot.AddressConfirmation | tg_v9_work.py:233-259 | `correct` shows the work menu, `incorrect` starts over |
| BotV9.Bot.SelectWorkType | tg_v9_work.py:543-573 | the effective definition stores the work, allocates the directory and asks for confirmation |
| BotV9.Bot.WorkConfirmation | tg_v9_work.py:576-588 | `work_correct` asks for the photo, `work_incorrect` for the work again |
| BotV9.Bot.PhotoBefore | tg_v9_work.py:304-351 | `до.jpg` is saved and the five-line record written |
| BotV9.Bot.ChooseAction | tg_v9_work.py:353-434 | "later" resets the record's status line, then like "continue" lists the unfinished tasks |
| BotV9.Bot.PhotoAfter | tg_v9_work.py:435-539 | the record is marked done and the management-company line added once |
| BotV9.Bot.TaskNumber | tg_v9_work.py:590-616 | a number of the stored list copies that task's house and work |
| BotV9.Bot.InlineButtons | tg_v9_work.py:156-169 | a task button stores its house and work; other data is ignored |
| BotV9.Bot.Handle | tg_v9_work.py:659-673 | directories are only created; only choosing the house and the photo after can raise, given that `get_file` succeeds (tg_v9_work.py:311 calls it outside the `try`); a photo before never ends the conversation |
| BotV10.Route | tg_v10.py:477-490 | `/start` enters and restarts from any state; other commands are ignored |
| BotV10.Bot.SelectHouse | tg_v10.py:154-179 | the normalised text must be a key of `HOUSES_DICT` |
| BotV10.Bot.SelectAddress | tg_v10.py:182-211 | a number chooses an address, anything else asks again |
| BotV10.Bot.AddressConfirmation | tg_v10.py:214-236 | `correct` shows the work menu, `incorrect` starts over, other data does nothing |
| BotV10.Bot.SelectWorkType | tg_v10.py:244-267 | a number stores the work and allocates the directory under the house's first address |
| BotV10.Bot.WorkConfirmation | tg_v10.py:434-449 | `work_correct` asks for the photo, `work_incorrect` for the work again |
| BotV10.Bot.PhotoBefore | tg_v10.py:270-307 | `до.jpg` is saved and the pending record written |
| BotV10.Bot.ChooseAction | tg_v10.py:309-334 | the four buttons; "continue" shows page 0 of the task keyboard, and a refused keyboard send is caught and asks for the action again |
| BotV10.Bot.PhotoAfter | tg_v10.py:336-431 | `после.jpg` is saved, the pending line marked done, and the PDF sent |
| BotV10.Bot.TaskSelection | tg_v10.py:452-471 | a task button stores its house and work, and a page button shows that page |
| BotV10.Bot.Handle | tg_v10.py:477-490 | directories are only created; only three states can raise, given that `get_file` succeeds (tg_v10.py:276 calls it outside the `try`); a photo before never ends the conversation |

## Left out

- Telegram transport: reply texts, keyboards' captions and message ids are not modelled. A failed `reply_photo`, PDF send or task-keyboard send (tg_v10.py:321-328) is the `Env.sendOk` flag; Telegram's reasons for refusing one, such as callback data over 64 bytes, are not modelled.
- PDF content: the layout, images and text are left out. Only whether building, writing or sending the PDF raises or fails is modelled, through `Env` flags.
- `get_file` and `download_to_drive` are folded into `Env.downloadOk` and whether the target directory exists. tg_v4.py:78 and :164, tg_v5.py:84 and :145, tg_v6_work.py:175 and :218, tg_v8_work.py:283, tg_v9_work.py:311 and tg_v10.py:276 call `get_file` outside the `try` that catches a failed download. There a failed `get_file` raises while a photo is awaited, and the model treats it like a caught download failure. The claims about which states can raise (`BotV4.Bot.Handle`, `BotV5.Bot.Handle`, `BotV6.Bot.Handle`, `BotV8.Bot.Handle`, `BotV9.Bot.Handle`, `BotV10.Bot.Handle`) assume that `get_file` succeeds. For `BotV5.Bot.Handle` only the wording depends on this: its contract already allows a raise while the photo after is awaited.
- Reading and parsing the JSON and Excel files (`dic_houses.json`, `list_works.json`, `Houses.xlsx`, `users.xlsx`) is left out. Their contents are inputs of the model, and `None` stands for a file that cannot be loaded.
- `save_user_to_excel`'s `workbook.save` is left out; the appended row is the sheet's new content.
- `Houses.py` and `list_works.py`: reading the spreadsheet and writing the JSON are left out. The sheet is a sequence of cells (`Houses`) or rows (`ListWorks`).
- `get_work_types` of `tg.py` is reduced to the list it returns.
- `initialize_files`, `write_descriptions_to_text_file` and `descriptions.txt` are left out. They only create files that no modelled handler reads.
- `powerpoint.py` is not part of this model.
- Logging and `print` are left out.
- Clocks: the current year, month and `%m.%Y` stamp and the photo timestamps are `Env` fields.
- Concurrency is left out. `tg_v3.py`'s module-level globals are modelled for one user, although they are shared by every user of the bot.
- I/O errors other than the `KeyError` of a missing session key are not modelled for record writes and reads. A full disk or a permission error is one example.
- Menus.UpperChar: `str.upper` and `\w` are exact only for ASCII and the Cyrillic block U+0400..U+045F. Other Unicode letters count as non-word characters that `upper` leaves unchanged.
- Numbers.ParseIntAlphabet: `int()` is modelled for ASCII digits only. Python also accepts other Unicode decimal digits.
- Menus.SanitizeCallbackData: Telegram's 64-byte limit is counted in characters. After sanitising, every character is ASCII, so the two counts agree.
- Records.ReadRecord: `os.walk`'s order is the `Env.walk` sequence of directories. Files other than `report.txt` are not represented.
- BotV1.Bot.ConfirmCompletion and BotV2.Bot.RequestPhone, RequestFullName and PhotoAfter are modelled, but no handler returns their states, so `Handle` never runs them.
- BotV9.Bot.InlineButtons: `handle_inline_buttons` is never registered in `main()`, so `Handle` never runs it. The first `select_work_type` of `tg_v9_work.py` (267-302) is shadowed by the second one and is not modelled.
- BotV5: `select_work_type` and `handle_photo_before` of `tg_v5.py` are registered for states no handler returns. They are not modelled beyond the routing. `Reachable()` proves those states unreachable.

# SnapCleanBot core, modelled in Dafny

SnapCleanBot is a Telegram bot. A user sends it a photo, it forwards the photo to the
remove.bg background-removal service and sends the result back as a file. Each user can pick
an output quality and an output format. The bot also keeps a small usage registry, which only
the administrator can read. This project models the bookkeeping and decision logic of
`snap_clean_bot.py` and proves properties of it:

- **Registry** (`registry.dfy`): `bot_data['users']`, a map from user id to
  `{first_name, username, requests}`. `track_user` inserts a user only when absent.
  Each photo adds one to `requests`. `admin_command` is guarded by the admin id and reports
  the number of users and the sum of the counters. The class `UserRegistry` also keeps the
  dict's insertion order, because the admin total is computed by walking the dict's values.
- **Settings** (`settings.dfy`): `user_data['quality']` and `user_data['format']`. Both are
  absent until set, and reads fall back to `'auto'` and `'png'`. The quality choice stores
  `'4k'` for the token `'hd'` and `'auto'` for any other token. The format choice stores its
  token verbatim. The class `UserDataStore` keeps the invariant that a stored quality is
  `'auto'` or `'4k'`.
- **Processing** (`processing.dfy`): `auto_remove_background`. Its `try/except/finally` is
  written out with a `raised` flag. The photo download, the HTTP answer and the document
  upload are inputs (`PhotoWorld`). The working directory is the set of file names that
  exist. Files are staged as `<chat_id>_input.jpg` and delivered as `SnapCleaned.<format>`.
  The non-OK reason comes from `errors[0].title`, falling back to `'Authorization failed'`.
  On every path the staged photo is gone and the "processing" message is deleted. If the
  upload of the result fails, `SnapCleaned.<format>` stays on disk: the code removes it only
  after a successful upload. The contract of `AutoRemoveBackground` states this.
- **Conversation** (`conversation.dfy`): the two settings conversations, as
  python-telegram-bot's `ConversationHandler` runs them. `Route` picks the handler for an
  update, `Transition` gives its effect on the conversation state and the preferences, and
  `Run` applies a sequence of updates. Also the handler methods `quality_command`,
  `quality_choice`, `format_command`, `format_choice` and `cancel`.
- **Bot** (`bot.dfy`): one update dispatched to its handler. It ties the handler methods to
  `Transition` and to the registry.

Behaviour of the code worth knowing:
- The code accepts any picker token and rejects none: `'hd'` gives `'4k'`, anything else
  `'auto'`, and the format stores any token.
- Re-invoking `/quality` while its picker is open is ignored. Neither conversation allows
  re-entry.
- The two conversations are not independent. When both are open, a callback goes to the
  quality conversation, because it was added first.
- A failed attempt is still counted: the counter is raised before the outcome is known.
- The admin report holds only the two totals.

## Model

| member | source | states |
|---|---|---|
| `Registry.Track` | snap_clean_bot.py:70-79 | without an effective user nothing changes; otherwise the id is registered, every existing record is unchanged, and a new record has the user's names and 0 requests |
| `Registry.TrackIdempotent` | snap_clean_bot.py:70-79 | a second track for the same id, whatever profile it carries, leaves the registry and its order unchanged; a fresh record starts at 0 requests |
| `Registry.TrackKeepsTotal` | snap_clean_bot.py:70-79 | tracking keeps the insertion order exact, adds at most one entry, and never changes the request total |
| `Registry.Bump` | snap_clean_bot.py:170 | the user's `requests` goes up by exactly 1, the names stay, and no other record changes |
| `Registry.SumAlongBump` | snap_clean_bot.py:123 | bumping an id that occurs once along the walked ids raises their sum by exactly 1 |
| `Registry.BumpAddsOne` | snap_clean_bot.py:122-123 | one handled photo raises the admin's request total by exactly 1 and leaves the user count unchanged |
| `Registry.TrackOrder` | snap_clean_bot.py:70-79 | a user seen for the first time is appended to the insertion order; a known user or a missing one leaves it as it was |
| `Registry.SumAlongBounds` | snap_clean_bot.py:123 | no single counter along the walked ids exceeds their sum |
| `Registry.TotalRequests` | snap_clean_bot.py:123 | the reported total is at least every user's own count, and 0 for an empty registry |
| `Registry.UserRegistry.constructor` | snap_clean_bot.py:65-67 | the registry starts empty |
| `Registry.UserRegistry.TrackUser` | snap_clean_bot.py:70-79 | the new registry is `Track` of the old one, with a new id appended to the insertion order; the invariant is kept |
| `Registry.UserRegistry.RecordAttempt` | snap_clean_bot.py:170 | the new registry is `Bump` of the old one; the order and the invariant are kept |
| `Registry.UserRegistry.AdminReport` | snap_clean_bot.py:116-125 | any id other than the admin's gets only the fixed denial text; the admin gets the number of entries and the sum of all `requests` fields |
| `Settings.OutputSize` | snap_clean_bot.py:179 | the size sent is the stored quality when there is one and `'auto'` otherwise |
| `Settings.OutputFormat` | snap_clean_bot.py:180 | the format sent is the stored format when there is one and `'png'` otherwise |
| `Settings.QualityValue` | snap_clean_bot.py:143 | the stored size is `'4k'` exactly when the token is `'hd'`, and `'auto'` otherwise |
| `Settings.QualityLabel` | snap_clean_bot.py:144 | the echoed label is `"HD (4K)"` exactly when `'4k'` is the size stored, and `"Standard"` otherwise |
| `Settings.AsciiUpper` | snap_clean_bot.py:162 | the echoed format label is the token with its ASCII lower-case letters upper-cased and nothing else changed |
| `Settings.ChooseQuality` | snap_clean_bot.py:143 | the quality choice sets `quality` from the token and never touches `format` |
| `Settings.ChooseFormat` | snap_clean_bot.py:161 | the format choice stores the token verbatim and never touches `quality` |
| `Settings.UnsetResolvesToDefaults` | snap_clean_bot.py:179-180 | unset preferences resolve to size `'auto'` and format `'png'` |
| `Settings.ChoicesResolve` | snap_clean_bot.py:139-180 | after a quality choice the resolved size is `'4k'` iff the token is `'hd'` and the format is unchanged; after a format choice the resolved format is the token and the size is unchanged |
| `Settings.KnownQualityResolves` | snap_clean_bot.py:179 | under the store invariant, the size sent to the service is `'auto'` or `'4k'`; `AutoRemoveBackground` relies on it |
| `Settings.UserDataStore.Get` | snap_clean_bot.py:179-180 | a user with stored preferences reads as exactly them and a user without reads as unset; under the invariant the quality is a known size |
| `Settings.UserDataStore.SetQuality` | snap_clean_bot.py:143 | only that user's entry changes, to `ChooseQuality` of the old one; the invariant is kept |
| `Settings.UserDataStore.SetFormat` | snap_clean_bot.py:161 | only that user's entry changes, to `ChooseFormat` of the old one; the invariant is kept |
| `Processing.NatString` | snap_clean_bot.py:173 | the decimal rendering is non-empty and all digits, with at least two digits from 10 up |
| `Processing.IntString` | snap_clean_bot.py:173 | the rendering starts with `'-'` exactly for negative ids, and otherwise with a digit |
| `Processing.StagedPath` | snap_clean_bot.py:173 | the staged name ends in `_input.jpg` and starts with `'-'` exactly for a negative chat id, otherwise with a digit |
| `Processing.OutputFilename` | snap_clean_bot.py:192 | the delivered name is `SnapCleaned.` followed by the format, verbatim |
| `Chat.ApiErrorText` | snap_clean_bot.py:207 | the error message starts with `API Error: ` followed by the extracted reason, verbatim |
| `Processing.NatStringInjective` | snap_clean_bot.py:173 | different numbers render differently |
| `Processing.StagedPathsDistinct` | snap_clean_bot.py:173 | photos from different chats are staged under different file names |
| `Processing.StagedIsNotOutput` | snap_clean_bot.py:173-192 | the staged photo never has the delivered file's name |
| `Processing.ErrorReason` | snap_clean_bot.py:205-206 | the reason is the first error's title when it has one; it is `'Authorization failed'` when `errors` or that title is missing; the expression raises for a non-object body, a non-list or empty `errors`, or a first element that is not an object |
| `Processing.Decide` | snap_clean_bot.py:175-211 | delivery happens iff the download succeeded, the status is OK and the upload went through, and the file is `'SnapCleaned.' + format` with the service's bytes; an API error happens iff the status is not OK and a reason can be extracted; everything else is the generic failure |
| `Processing.OutcomeNotice` | snap_clean_bot.py:196-211 | exactly a delivery sends a document, with the outcome's name and bytes; an API error sends the `API Error` text with its reason; anything else sends the generic failure text |
| `Processing.DefaultUserScenarios` | snap_clean_bot.py:179-206 | for a user with no preferences: OK gives `SnapCleaned.png`; `{"errors":[{"title":"Insufficient credits"}]}` reports that title; a body without `errors` reports `'Authorization failed'`; an empty `errors` list gives the generic failure |
| `Processing.WorkDir.Exists` | snap_clean_bot.py:213 | true exactly when the file exists |
| `Processing.WorkDir.Write` | snap_clean_bot.py:177-193 | writing creates the file and changes nothing else |
| `Processing.WorkDir.Remove` | snap_clean_bot.py:203-214 | removes exactly that file, which must exist |
| `Processing.AutoRemoveBackground` | snap_clean_bot.py:167-217 | the user is tracked and their count goes up by 1 before any outcome; the outcome is `Decide` of the world and the stored preferences; the request carries the resolved size and format, and the size is `'auto'` or `'4k'`; the chat gets the processing notice, exactly one outcome message, then the deletion; the staged photo never survives; the output file is removed after delivery and left behind when the upload fails |
| `Conversation.QualityCommand` | snap_clean_bot.py:129-137 | tracks the user, shows the quality picker and returns CHOOSING_QUALITY |
| `Conversation.QualityChoice` | snap_clean_bot.py:139-146 | stores `ChooseQuality` for that user only, echoes `"HD (4K)"` or `"Standard"`, returns END |
| `Conversation.FormatCommand` | snap_clean_bot.py:148-156 | tracks the user, shows the format picker and returns CHOOSING_FORMAT |
| `Conversation.FormatChoice` | snap_clean_bot.py:158-163 | stores the token for that user only, echoes it upper-cased, returns END |
| `Conversation.Cancel` | snap_clean_bot.py:219-221 | acknowledges with `'Action cancelled.'` and returns END |
| `Conversation.Route` | snap_clean_bot.py:229-250 | each handler is characterised both ways: photos go to the photo handler; `/quality` and `/format` open a conversation only when theirs is not already open; a callback and `/cancel` go to the quality conversation when it is open, else to the format conversation when that is open |
| `Conversation.Transition` | snap_clean_bot.py:129-163 | a callback writes `ChooseQuality` or `ChooseFormat` to whichever open conversation takes it, and nothing else writes preferences; a conversation opens only through its own command and only when the picker works; an open conversation ends only through a choice or `/cancel`, and a choice or `/cancel` ends the conversation that took it and leaves the other alone |
| `Conversation.Run` | snap_clean_bot.py:129-163 | a sequence of updates without a callback changes no preference; the stored format after a sequence is the one before it or a callback token from it |
| `Conversation.PickerTransitions` | snap_clean_bot.py:229-239 | the commands open their picker and re-invoking an open one leaves session and preferences as they were; a choice commits and ends; cancel ends without committing; with nothing open, callbacks and cancel are ignored |
| `Conversation.OnlyChoicesChangePrefs` | snap_clean_bot.py:139-163 | only a callback received by an open conversation changes preferences; the quality conversation never touches `format`, and `quality` changes only through it |
| `Conversation.RunKeepsKnownQuality` | snap_clean_bot.py:143 | over any sequence of updates the stored quality stays `'auto'` or `'4k'` |
| `Conversation.AsWrittenPickersNeverOpen` | snap_clean_bot.py:129-156 | as written, the picker commands raise before returning a state, so no sequence of updates opens a conversation or changes the preferences |
| `Conversation.HdChoiceNeedsThePicker` | snap_clean_bot.py:129-146 | `/quality` then HD: as written nothing is stored; with the picker working the size becomes `'4k'` |
| `Conversation.QualityConversationTakesEveryCallback` | snap_clean_bot.py:229-250 | with both conversations open, a PNG tap goes to the quality conversation, which stores `'auto'`; the format conversation keeps waiting |
| `Bot.UsersAfter` | snap_clean_bot.py:116-221 | a photo raises its user's count by 1; admin, choices, cancel and unhandled updates leave the registry alone; no other user's record changes |
| `Bot.OrderAfter` | snap_clean_bot.py:70-79 | the registration order only grows, by at most the update's user, who must have been unknown; admin, choices, cancel and unhandled updates leave it alone |
| `Bot.UpdateKeepsTotals` | snap_clean_bot.py:116-125 | across one update the registry stays ordered, the user count grows by one exactly for a new user reaching a tracking handler, and the request total grows by one exactly for a photo |
| `Bot.Settle` | snap_clean_bot.py:230-239 | a key keeps waiting exactly when the handler returned a state other than END; other keys are unaffected |
| `Bot.Bot.constructor` | snap_clean_bot.py:223-239 | the bot starts with an empty registry, no preferences, no files and no open conversation |
| `Bot.Bot.QualityStep` | snap_clean_bot.py:229-234 | an update the quality conversation takes runs its handler, settles that key's quality state from the returned state, and matches `Transition`; the reply is the picker, the `"HD (4K)"`/`"Standard"` echo or the cancel text; the registry and its order follow `UsersAfter` and `OrderAfter`; other keys and users are untouched |
| `Bot.Bot.FormatStep` | snap_clean_bot.py:235-239 | the same for the format conversation, whose choice echoes the token upper-cased |
| `Bot.Bot.HandleUpdate` | snap_clean_bot.py:229-250 | the update's key and user move exactly as `Transition` says; all other keys and users are untouched; the registry and its order follow `UsersAfter` and `OrderAfter`; each conversation reply is stated, and an update no handler takes gets no reply; `/admin` gets the guarded report; a photo gets the processing notice, the message for `Decide` of its world and the sender's stored preferences, then the deletion, and leaves the working directory without the staged file and with the output file exactly when the upload failed; other updates touch no files |

## Findings

| source | as written | input that shows it | evidently intended | confidence | as-written member | corrected member |
|---|---|---|---|---|---|---|
| snap_clean_bot.py:131-135 | `quality_command` and `format_command` build `InlineKeyboardButton` and `InlineKeyboardMarkup`, which lines 24-33 never import. Each raises NameError right after `track_user`, so its conversation never enters CHOOSING_QUALITY or CHOOSING_FORMAT, and no quality or format can ever be stored | `/quality`, then tapping HD | the picker is shown, the conversation waits for a choice, and the HD tap stores `'4k'` | high; not executed | `Conversation.AsWrittenPickersNeverOpen` | `Conversation.PickerTransitions` |

The rest of the model uses the corrected behaviour: `Bot.Bot.HandleUpdate` runs `Transition`
with `keyboardImported` set to true, and the picker commands return their CHOOSING state.

## Left out

- Telegram transport is left out: sending and editing messages, `query.answer()`, keyboards,
  Markdown and emoji. Sent messages are the abstract `Chat.Notice` events. The welcome, help
  and contact texts are omitted too: those commands only register the user here.
- Configuration loading and `exit()` (lines 35-45), and logging. `ADMIN_USER_ID` is a
  constructor parameter.
- The photo download, the `requests.post` call with its 45-second timeout, and the document
  upload are inputs (`Processing.PhotoWorld`), not I/O. The photo's bytes are not modelled.
  Opening and writing files is assumed to succeed. So are the `os.remove` calls and
  `delete_message`.
- Updates without an effective user appear only in `Registry.UserRegistry.TrackUser`, where
  they are a no-op. `Bot.Update` always carries a user. A photo update without one would
  raise at line 170, before the `try`; that is not modelled.
- An error title that is not a string (for example JSON `null`, which Python prints as
  `None`) is not modelled: titles are strings or absent.
- Settings.AsciiUpper: upper-cases ASCII letters only. Python's `str.upper()` also maps
  non-ASCII letters, but picker tokens are ASCII.
- Command matching is abstracted to the command's name. Bot-name suffixes and letter case
  are not modelled.
- Concurrency in the dispatcher is not modelled. That includes two photos from the same
  chat sharing one staged file name, and two chats sharing `SnapCleaned.<format>`.
- Conversation timeouts: the source sets none, so none are modelled.
- Lines 1-19 and 258-302 are prose and deployment notes, not code.

# Connections layer of the Clawdis macOS client, in Dafny

This project models the macOS client's connections layer. It has two parts.

- **`ConnectionsStore`**. This object polls the gateway for the status of
  the WhatsApp and Telegram providers. It drives the WhatsApp QR-login
  exchange (start, wait, logout) and logs the Telegram bot out. It loads
  the configuration document and projects its `telegram` section into
  seven editable form fields. It saves those fields back by merging them
  into the section.
- **The settings pane's presentation rules.** These turn the last status
  snapshot into a coloured dot and a one-word label per provider. They
  also build the detail line under each provider, decide whether the token
  field is locked, and split a QR data URL into header and payload.

Modules, one per file:

| file | module | contents |
|---|---|---|
| `wrappers.dfy` | `Wrappers` | `Option`; `Reply`, the outcome of a gateway call: `Ok(value)` or `Failed(message)` |
| `json.dfy` | `Json` | the untyped JSON value the configuration root is made of |
| `snapshots.dfy` | `Snapshots` | the status and configuration records the gateway returns |
| `text.dfy` | `Text` | trimming, the comma split, joining, decimal rendering of integers, substring and first-index search |
| `telegram_config.dfy` | `TelegramConfig` | projecting the `telegram` section into the form; merging the form back |
| `store.dfy` | `Store` | `class ConnectionsStore`, with one method per operation |
| `settings.dfy` | `Settings` | tints, summaries, the token lock and the QR split; the two detail builders |

How the store is modelled:

- Each gateway call is a `Reply` parameter of the method that makes it.
- The clock is a `now` parameter, in milliseconds.
- The JSON serialiser is a function parameter that returns `SerializeResult`.
- Every request the store issues is appended to the field `sent`. This
  records the gateway method, the parameters and the transport timeout.
- The source's flat fields are grouped into the records `StatusState`,
  `LoginState`, `TelegramForm` and `ConfigState`.
- Each method is proved against a step function on the value `State()`
  (`RefreshStep`, `StartLoginStep`, …, `SaveStep`), and the `…Spec` lemmas
  state what each step does.
- `Apply` and `Run` replay any sequence of calls. `ReachableConsistent`
  proves that every reachable state is consistent and that no busy flag is
  left raised between calls.

The saved Telegram section is described key by key by `Merged`. The save's
own key-by-key dictionary updates are `ApplyTelegramEdits`, which is proved
equal to `Merged`. `SaveThenLoad` and `LoadThenSave` state the round trips
between the form and the section. `SaveAfterFailedLoad` records what the
code does when the preliminary load of a save fails: the save still runs,
and the document it writes holds only the Telegram section.

Where the code and its description disagree, the model follows the code:

- The save never removes the `telegram` section from the root, because
  `requireMention` is always written. The removal branch is modelled and
  shown unreachable (`MergedRootNonEmpty`, `BlankFormKeepsSection`).
- A WhatsApp logout clears the QR code only when the call succeeds.
- A save is not followed by a configuration reload; only a status poll runs.
- After a successful Telegram logout, the reload overwrites the logout's
  status line (`TelegramLogoutLineOverwritten`).
- The disconnect line's "unknown" time cannot occur, because the
  disconnect timestamp is not optional in the record.

## Model

| member | source | states |
|---|---|---|
| Store.Refreshed | apps/macos/Sources/Clawdis/ConnectionsStore.swift:145-157 | a successful poll replaces the snapshot wholesale, records the time and clears the error; a failed poll keeps the snapshot and the time and records the error |
| Store.RefreshSpec | apps/macos/Sources/Clawdis/ConnectionsStore.swift:139-158 | a poll while one is running changes nothing; otherwise it sends one `.providersStatus` request carrying `probe` and an 8000 ms timeout (transport 12000 ms), leaves `isRefreshing` false, and touches no login, form or config field |
| Store.ConnectionsStore.Refresh | apps/macos/Sources/Clawdis/ConnectionsStore.swift:139-158 | the method, which raises and lowers `isRefreshing` around the call, ends in exactly the state `RefreshStep` describes |
| Store.RefreshKeepsSnapshot | apps/macos/Sources/Clawdis/ConnectionsStore.swift:145-157 | a held snapshot is never lost, and the new snapshot is either the old one or the poll's answer |
| Store.RefreshedConsistent | apps/macos/Sources/Clawdis/ConnectionsStore.swift:152-154 | a snapshot is held exactly when some poll has succeeded, and every poll preserves this |
| Store.LoginStarted | apps/macos/Sources/Clawdis/ConnectionsStore.swift:174-181 | after `.webLoginStart`, a success shows the result's message and QR code, a failure shows the error with no QR code, and connected is unknown either way |
| Store.StartLoginSpec | apps/macos/Sources/Clawdis/ConnectionsStore.swift:161-183 | while WhatsApp is busy nothing changes; otherwise the login request (force, 30000 ms, transport 35000 ms) is sent first, then one probing `.providersStatus` request unless a poll is already running, and nothing else; the login fields follow `LoginStarted`, and the form and config are untouched |
| Store.ConnectionsStore.StartWhatsAppLogin | apps/macos/Sources/Clawdis/ConnectionsStore.swift:161-183 | the method ends in the state `StartLoginStep` describes |
| Store.ConnectionsStore.TakeLoginStart | apps/macos/Sources/Clawdis/ConnectionsStore.swift:174-181 | the login fields are set from the start answer and nothing else changes |
| Store.LoginWaited | apps/macos/Sources/Clawdis/ConnectionsStore.swift:197-205 | after `.webLoginWait`, a connected answer drops the QR code, a pending answer keeps it, and a failure changes only the message |
| Store.WaitLoginSpec | apps/macos/Sources/Clawdis/ConnectionsStore.swift:185-206 | while busy nothing changes; otherwise the wait request carries `timeoutMs` and a transport timeout of `timeoutMs + 5000`, followed only by the probing poll's request unless a poll is already running, and the login fields follow `LoginWaited` |
| Store.ConnectionsStore.WaitWhatsAppLogin | apps/macos/Sources/Clawdis/ConnectionsStore.swift:185-206 | the method ends in the state `WaitLoginStep` describes |
| Store.ConnectionsStore.TakeLoginWait | apps/macos/Sources/Clawdis/ConnectionsStore.swift:197-205 | the login fields are set from the wait answer and nothing else changes |
| Store.LoggedOutWhatsApp | apps/macos/Sources/Clawdis/ConnectionsStore.swift:213-224 | a successful logout says "cleared" exactly when credentials were cleared, and "no session" otherwise, and drops the QR code; a failure changes only the message |
| Store.LogoutWhatsAppSpec | apps/macos/Sources/Clawdis/ConnectionsStore.swift:208-225 | while busy nothing changes; otherwise one `.webLogout` request with a 15000 ms timeout, then only the probing poll's request unless a poll is already running; the login fields follow `LoggedOutWhatsApp` |
| Store.ConnectionsStore.LogoutWhatsApp | apps/macos/Sources/Clawdis/ConnectionsStore.swift:208-225 | the method ends in the state `LogoutWhatsAppStep` describes |
| Store.ConnectionsStore.TakeWhatsAppLogout | apps/macos/Sources/Clawdis/ConnectionsStore.swift:213-224 | the login fields are set from the logout answer and nothing else changes |
| Store.NoNewQrCode | apps/macos/Sources/Clawdis/ConnectionsStore.swift:197-224 | waiting and logging out never show a QR code that was not shown before |
| Store.LoginTransitionsConsistent | apps/macos/Sources/Clawdis/ConnectionsStore.swift:174-224 | a connected session never shows a QR code, and the three login transitions preserve this |
| Store.TelegramLogoutText | apps/macos/Sources/Clawdis/ConnectionsStore.swift:236-242 | the env-token message wins whenever `envToken` is true, whatever `cleared` says; otherwise `cleared` picks the message |
| Store.LogoutTelegramSpec | apps/macos/Sources/Clawdis/ConnectionsStore.swift:227-248 | while the Telegram logout is busy nothing changes; otherwise the requests sent are exactly the logout, a `.configGet` when it succeeded, and the probing poll's request unless a poll is already running; a failure shows the error and keeps the form; a success sets the line and reloads the config |
| Store.ConnectionsStore.LogoutTelegram | apps/macos/Sources/Clawdis/ConnectionsStore.swift:227-248 | the method ends in the state `LogoutTelegramStep` describes |
| Store.ConnectionsStore.AnswerTelegramLogout | apps/macos/Sources/Clawdis/ConnectionsStore.swift:235-246 | the status line and reload that follow the logout answer end in the state `LogoutTelegramAnswered` describes |
| Store.TelegramLogoutLineOverwritten | apps/macos/Sources/Clawdis/ConnectionsStore.swift:236-243 | after a successful logout and a successful reload, the status line is the reload's, not the logout's |
| Store.LogoutTelegramPreserves | apps/macos/Sources/Clawdis/ConnectionsStore.swift:227-248 | the Telegram logout keeps the store consistent and leaves no call in flight |
| Store.LoadedStatus | apps/macos/Sources/Clawdis/ConnectionsStore.swift:256-258 | the advisory line is shown exactly when the gateway reports the document invalid |
| Store.LoadSpec | apps/macos/Sources/Clawdis/ConnectionsStore.swift:250-282 | a load sends one `.configGet` request and changes only the config and the form |
| Store.LoadOkSpec | apps/macos/Sources/Clawdis/ConnectionsStore.swift:256-278 | a successful load replaces the root (an absent config is the empty document), marks it loaded, and refills the form from the section |
| Store.LoadFailedSpec | apps/macos/Sources/Clawdis/ConnectionsStore.swift:279-281 | a failed load only shows the error; the root, the loaded flag and the form stay |
| Store.ConnectionsStore.LoadConfig | apps/macos/Sources/Clawdis/ConnectionsStore.swift:250-282 | the method ends in the state `LoadStep` describes |
| Store.LoadPreserves | apps/macos/Sources/Clawdis/ConnectionsStore.swift:250-282 | a load keeps the store consistent |
| TelegramConfig.TelegramSection | apps/macos/Sources/Clawdis/ConnectionsStore.swift:261 | the section is read exactly when the config has a `telegram` key holding an object, and it is that object's fields |
| TelegramConfig.TextField | apps/macos/Sources/Clawdis/ConnectionsStore.swift:262 | a key holding a string shows that string as stored, untrimmed included; an absent key or any other value shows "" |
| TelegramConfig.FlagField | apps/macos/Sources/Clawdis/ConnectionsStore.swift:263 | the mention flag is false only when the section stores `false`; it defaults to true |
| TelegramConfig.EntryText | apps/macos/Sources/Clawdis/ConnectionsStore.swift:265-269 | exactly a string or an integer gives an entry; a string gives itself and an integer gives its `String(Int)` rendering, whose digits read back as the number (`IntToStringValue`) |
| TelegramConfig.AllowFromEntries | apps/macos/Sources/Clawdis/ConnectionsStore.swift:265-270 | at most one entry per item, and exactly one per item when every item is a string or an integer; `EntryText` fixes each item's text and `AllowFromEntriesAppend` states that order is kept |
| TelegramConfig.AllowFromText | apps/macos/Sources/Clawdis/ConnectionsStore.swift:264-274 | "" when `allowFrom` is absent or not an array; otherwise its entries joined with ", " |
| TelegramConfig.ProjectForm | apps/macos/Sources/Clawdis/ConnectionsStore.swift:261-278 | a config with no Telegram section loads the default form; `ProjectFormSpec` states each field |
| TelegramConfig.AllowFromEntriesAppend | apps/macos/Sources/Clawdis/ConnectionsStore.swift:264-274 | loading keeps the allow-list entries in order: the entries of a concatenation are the entries of each part in turn |
| TelegramConfig.AllowFromEntriesOfJStrings | apps/macos/Sources/Clawdis/ConnectionsStore.swift:265-266 | an array of strings loses no entry and keeps each as it is |
| TelegramConfig.ProjectFormSpec | apps/macos/Sources/Clawdis/ConnectionsStore.swift:261-278 | with no section the form is the default one; otherwise each text field shows its key as `TextField` states, the allow-list as `AllowFromText` states, and the flag is cleared exactly when the section stores `false` |
| TelegramConfig.TextEdit | apps/macos/Sources/Clawdis/ConnectionsStore.swift:293-298 | a field whose text is all whitespace removes its key; any other field stores its trimmed, non-empty text |
| TelegramConfig.ParseAllowFrom | apps/macos/Sources/Clawdis/ConnectionsStore.swift:306-309 | at most one entry per comma-separated piece; `ParseAllowFromComma` and `ParseAllowFromPiece` fix the entries of any text, in order and with repetitions, and `ParseAllowFromEntries`, `ParseJoin` and `AllowFromExample` state what they look like |
| TelegramConfig.ParseAllowFromComma | apps/macos/Sources/Clawdis/ConnectionsStore.swift:306-309 | a comma separates entries and nothing else: the entries of `a + "," + b` are those of `a` followed by those of `b` |
| TelegramConfig.ParseAllowFromPiece | apps/macos/Sources/Clawdis/ConnectionsStore.swift:306-309 | a comma-free piece gives no entry when it is blank and otherwise exactly one, the piece trimmed |
| TelegramConfig.ParseAllowFromEntries | apps/macos/Sources/Clawdis/ConnectionsStore.swift:306-309 | every allow-list entry the save writes is non-empty, trimmed and comma-free |
| TelegramConfig.ParseJoin | apps/macos/Sources/Clawdis/ConnectionsStore.swift:264-271 | splitting on commas, trimming and dropping empties undoes the load's join with ", " |
| TelegramConfig.AllowFromEdit | apps/macos/Sources/Clawdis/ConnectionsStore.swift:306-314 | an allow-list with no entries removes the key; otherwise the entries are stored as an array of strings |
| TelegramConfig.AllowFromExample | apps/macos/Sources/Clawdis/ConnectionsStore.swift:306-309 | "123456789, @team" is saved as the two entries "123456789" and "@team" |
| TelegramConfig.Merged | apps/macos/Sources/Clawdis/ConnectionsStore.swift:292-342 | each editable key holds its edit or is absent; every other key of the section is kept as it was |
| TelegramConfig.MergedFields | apps/macos/Sources/Clawdis/ConnectionsStore.swift:293-342 | field by field: `requireMention` is always written; each text key is present exactly when its field is not blank, and then holds the trimmed text; `allowFrom` is present exactly when it has entries |
| TelegramConfig.StoreTrimmed | apps/macos/Sources/Clawdis/ConnectionsStore.swift:293-298 | one text field's step of the save sets or removes its key as `TextEdit` says |
| TelegramConfig.ApplyTelegramEdits | apps/macos/Sources/Clawdis/ConnectionsStore.swift:292-342 | the save's key-by-key updates of its local dictionary give exactly the merged section |
| TelegramConfig.SaveOrderMerges | apps/macos/Sources/Clawdis/ConnectionsStore.swift:292-342 | applying the seven set-or-remove steps in the save's order gives the merged section |
| TelegramConfig.MergedRoot | apps/macos/Sources/Clawdis/ConnectionsStore.swift:344-348 | after saving, the root holds the merged section under "telegram", which always contains `requireMention`, and every other section as it was |
| TelegramConfig.SavedRoot | apps/macos/Sources/Clawdis/ConnectionsStore.swift:344-348 | the save's remove-or-store of the section always stores it, so it equals `MergedRoot` |
| TelegramConfig.MergedRootNonEmpty | apps/macos/Sources/Clawdis/ConnectionsStore.swift:300-304 | the merged section is never empty |
| TelegramConfig.MergeIntoRoot | apps/macos/Sources/Clawdis/ConnectionsStore.swift:292-348 | the save's merge, run on the root, gives `SavedRoot` |
| TelegramConfig.BlankFormKeepsSection | apps/macos/Sources/Clawdis/ConnectionsStore.swift:292-348 | a form with every text field blank still saves a section: the keys the form does not edit, plus `requireMention` |
| TelegramConfig.MergeIdempotent | apps/macos/Sources/Clawdis/ConnectionsStore.swift:292-342 | merging the same edits twice gives the same section as merging once |
| TelegramConfig.SavedTextLoads | apps/macos/Sources/Clawdis/ConnectionsStore.swift:262-278 | a text field the save wrote loads back as its trimmed text |
| TelegramConfig.SavedFlagLoads | apps/macos/Sources/Clawdis/ConnectionsStore.swift:263 | the mention flag the save wrote loads back unchanged |
| TelegramConfig.SavedAllowFromLoads | apps/macos/Sources/Clawdis/ConnectionsStore.swift:264-274 | the allow-list the save wrote loads back as its entries joined with ", " |
| TelegramConfig.SaveThenLoad | apps/macos/Sources/Clawdis/ConnectionsStore.swift:256-348 | loading what was just saved shows the normalised form: every text trimmed, and the allow-list re-rendered from its entries |
| TelegramConfig.NormalizedIdempotent | apps/macos/Sources/Clawdis/ConnectionsStore.swift:292-342 | normalising twice is normalising once, so a second save of the reloaded form asks for the same edits |
| TelegramConfig.LoadThenSave | apps/macos/Sources/Clawdis/ConnectionsStore.swift:256-342 | loading a section in the form the save writes, and saving it with no edit in between, writes back exactly that section |
| Store.SaveGuard | apps/macos/Sources/Clawdis/ConnectionsStore.swift:285 | a save while one is under way changes nothing |
| Store.SaveSpec | apps/macos/Sources/Clawdis/ConnectionsStore.swift:284-368 | a save leaves the root it loaded, or already held, with the form merged in, whatever the write's outcome; the login is untouched |
| Store.WriteSpec | apps/macos/Sources/Clawdis/ConnectionsStore.swift:350-367 | a text that is not UTF-8 shows the encode error and sends nothing; a serialiser error shows its message; otherwise `.configSet` carries the text, a success shows the saved line and sends only the probing poll's request after it (unless a poll is already running), and a failure shows the error |
| Store.ConnectionsStore.SaveTelegramConfig | apps/macos/Sources/Clawdis/ConnectionsStore.swift:284-368 | the method ends in the state `SaveStep` describes |
| Store.ConnectionsStore.MergeForm | apps/macos/Sources/Clawdis/ConnectionsStore.swift:292-348 | the merge step ends in the state `FormMerged` describes |
| Store.ConnectionsStore.WriteConfig | apps/macos/Sources/Clawdis/ConnectionsStore.swift:350-367 | the write step ends in the state `WriteStep` describes |
| Store.SaveAfterFailedLoad | apps/macos/Sources/Clawdis/ConnectionsStore.swift:288-348 | when the preliminary load fails, the save goes on, and the root it writes holds the Telegram section and nothing else |
| Store.SavePreserves | apps/macos/Sources/Clawdis/ConnectionsStore.swift:284-368 | a save keeps the store consistent and leaves no call in flight |
| Store.StartSpec | apps/macos/Sources/Clawdis/ConnectionsStore.swift:120-132 | in preview, or with a polling task already present, start changes nothing; otherwise a polling task exists afterwards |
| Store.ConnectionsStore.Start | apps/macos/Sources/Clawdis/ConnectionsStore.swift:120-132 | the method ends in the state `StartStep` describes |
| Store.StopSpec | apps/macos/Sources/Clawdis/ConnectionsStore.swift:134-137 | stop leaves no polling task and changes nothing else |
| Store.ConnectionsStore.Stop | apps/macos/Sources/Clawdis/ConnectionsStore.swift:134-137 | the method ends in the state `StopStep` describes |
| Store.ConnectionsStore.constructor | apps/macos/Sources/Clawdis/ConnectionsStore.swift:89-118 | a new store holds no snapshot, no login, the default form, an empty unloaded root and no polling task |
| Store.ApplyPreserves | apps/macos/Sources/Clawdis/ConnectionsStore.swift:139-368 | every call keeps the store consistent, and a call started with nothing in flight leaves nothing in flight: no busy flag is left raised (only `isRefreshing` is ever raised, inside a poll) |
| Store.ReachableConsistent | apps/macos/Sources/Clawdis/ConnectionsStore.swift:89-368 | every state reached from a new store by any sequence of calls is consistent and idle |
| Settings.WhatsAppTint | apps/macos/Sources/Clawdis/ConnectionsSettings.swift:225-231 | grey exactly with no snapshot, red exactly for an unlinked account, orange exactly for a linked, disconnected account that reports an error |
| Settings.TelegramTint | apps/macos/Sources/Clawdis/ConnectionsSettings.swift:233-239 | never red; green exactly for a configured, running bot; orange exactly for a configured bot that is not running and reports an error |
| Settings.WhatsAppSummary | apps/macos/Sources/Clawdis/ConnectionsSettings.swift:241-247 | each label holds exactly under its condition, checked in the order checking, not linked, connected, running, linked |
| Settings.TelegramSummary | apps/macos/Sources/Clawdis/ConnectionsSettings.swift:249-254 | each label holds exactly under its condition: checking, not configured, running, configured |
| Settings.WhatsAppTintMatchesSummary | apps/macos/Sources/Clawdis/ConnectionsSettings.swift:225-247 | the dot and the label agree, and a linked, disconnected account with no error is green |
| Settings.TelegramTintMatchesSummary | apps/macos/Sources/Clawdis/ConnectionsSettings.swift:233-254 | green exactly beside "Running"; orange only beside "Configured"; grey while checking or unconfigured |
| Settings.TokenLocked | apps/macos/Sources/Clawdis/ConnectionsSettings.swift:317-319 | locked exactly when the snapshot's token source is "env"; never without a snapshot |
| Settings.DetailsText | apps/macos/Sources/Clawdis/ConnectionsSettings.swift:283 | nothing exactly when no line was collected; one line as it is; two or more lines as the earlier lines joined, then the " · " separator and the last line |
| Settings.WhatsAppLines | apps/macos/Sources/Clawdis/ConnectionsSettings.swift:258-282 | at most one line per candidate, so at most seven; `WhatsAppHasLine`, `WhatsAppHeads` and the `…Shown` lemmas state which lines appear |
| Settings.TelegramLines | apps/macos/Sources/Clawdis/ConnectionsSettings.swift:288-313 | the probe's success lines and its failure line never appear together, so at most six lines; `TelegramHasLine` and the `…Shown` lemmas state which appear |
| Settings.WhatsAppDetails | apps/macos/Sources/Clawdis/ConnectionsSettings.swift:256-284 | no text without a snapshot; otherwise the appended lines are exactly the applicable candidate lines in display order, joined |
| Settings.WhatsAppHasLine | apps/macos/Sources/Clawdis/ConnectionsSettings.swift:258-283 | some WhatsApp line begins with a prefix exactly when an applicable candidate line does |
| Settings.WhatsAppHeads | apps/macos/Sources/Clawdis/ConnectionsSettings.swift:259-282 | every WhatsApp candidate line begins with its own fixed head |
| Settings.WhatsAppReconnectShown | apps/macos/Sources/Clawdis/ConnectionsSettings.swift:274-276 | the reconnect line is shown exactly when there were reconnect attempts |
| Settings.WhatsAppErrorShown | apps/macos/Sources/Clawdis/ConnectionsSettings.swift:280-282 | the error line is shown exactly for a present, non-empty error |
| Settings.WhatsAppIdentityFirst | apps/macos/Sources/Clawdis/ConnectionsSettings.swift:259-261 | the account line comes first and names the phone number in preference to the JID; with neither there is no account line |
| Settings.TelegramDetails | apps/macos/Sources/Clawdis/ConnectionsSettings.swift:286-315 | no text without a snapshot; otherwise the appended lines are exactly the applicable candidate lines in display order, joined |
| Settings.TelegramHasLine | apps/macos/Sources/Clawdis/ConnectionsSettings.swift:288-314 | some Telegram line begins with a prefix exactly when an applicable candidate line does |
| Settings.TelegramHeads | apps/macos/Sources/Clawdis/ConnectionsSettings.swift:289-313 | every Telegram candidate line begins with its own fixed head |
| Settings.TelegramProbeShown | apps/macos/Sources/Clawdis/ConnectionsSettings.swift:295-307 | after a good probe the bot line is shown exactly when a username is known, and the webhook line exactly when the URL is non-empty; a failed probe shows the failure line instead |
| Settings.ProbeFailedStatus | apps/macos/Sources/Clawdis/ConnectionsSettings.swift:304-305 | a failed probe with HTTP status `c` reads "Probe failed (" followed by `String(c)` and ")" |
| Settings.ProbeFailedUnknown | apps/macos/Sources/Clawdis/ConnectionsSettings.swift:304-305 | a failed probe without an HTTP status reads "Probe failed (unknown)" |
| Settings.TelegramErrorShown | apps/macos/Sources/Clawdis/ConnectionsSettings.swift:311-313 | the error line is shown exactly for a present, non-empty error |
| Settings.QrPayload | apps/macos/Sources/Clawdis/ConnectionsSettings.swift:348-353 | no comma gives nothing; a payload is the text after the first comma, whose header contains "base64" |
| Settings.QrPayloadOf | apps/macos/Sources/Clawdis/ConnectionsSettings.swift:348-353 | for a comma-free header, the payload is exactly the text after the comma when the header contains "base64", and nothing otherwise |
| Text.Trim | apps/macos/Sources/Clawdis/ConnectionsStore.swift:293 | the result is no longer than the text, has no whitespace at either end, and is empty exactly for all-whitespace text |
| Text.TrimWindow | apps/macos/Sources/Clawdis/ConnectionsStore.swift:293 | the trimmed text sits in the original between a run of leading and a run of trailing whitespace |
| Text.TrimUnique | apps/macos/Sources/Clawdis/ConnectionsStore.swift:293 | conversely, any text without whitespace at either end that sits in the original between two runs of whitespace is the trimmed text, so `TrimWindow` and `Trim`'s contract fix the result |
| Text.TrimIdempotent | apps/macos/Sources/Clawdis/ConnectionsStore.swift:293 | trimming twice is trimming once |
| Text.JoinFields | apps/macos/Sources/Clawdis/ConnectionsStore.swift:306-307 | joining the comma-separated pieces with "," gives the text back |
| Text.NonEmptyTrimsNonEmpty | apps/macos/Sources/Clawdis/ConnectionsStore.swift:306-309 | dropping empty pieces before trimming changes nothing once empties are dropped after trimming |
| Text.FieldsComma | apps/macos/Sources/Clawdis/ConnectionsStore.swift:307 | the pieces of `a + "," + b` are the pieces of `a` followed by the pieces of `b` |
| Text.NonEmptyAppend | apps/macos/Sources/Clawdis/ConnectionsStore.swift:309 | dropping empties from a concatenation drops them from each part, keeping the order |
| Text.TrimsAppend | apps/macos/Sources/Clawdis/ConnectionsStore.swift:308 | trimming a concatenation trims each part, keeping the order |
| Text.NonEmpty | apps/macos/Sources/Clawdis/ConnectionsStore.swift:307-309 | keeps exactly the non-empty elements: every element of the result is non-empty, and a string is in the result exactly when it is a non-empty element of the input; `NonEmptyAppend` states that order and repetitions are kept |
| Text.IntToString | apps/macos/Sources/Clawdis/ConnectionsStore.swift:267 | the rendering is non-empty, comma-free and trimmed, starts with a minus exactly for negative numbers, and has no leading zero (the digits after a minus never start with 0) |
| Text.IntToStringValue | apps/macos/Sources/Clawdis/ConnectionsStore.swift:267 | the characters after the minus, if any, are all digits and denote the number's magnitude |
| Text.FirstIndexOf | apps/macos/Sources/Clawdis/ConnectionsSettings.swift:349 | nothing exactly when the character is absent; otherwise the index of its first occurrence |

## Left out

- The SwiftUI views, bindings and buttons of the settings pane are presentation only.
- The gateway transport and response decoding are foreign calls. Each call is a `Reply` parameter, and only its request (method, parameters, timeout) is recorded.
- JSON serialisation of the root, with pretty printing and sorted keys, is a foreign library. It is a function parameter returning `SerializeResult`.
- The polling task is concurrency and time, so it is left out: the detached task, the 45-second sleep, cancellation, and the first poll and load that the polling loop makes. `polling` records only whether a task exists.
- Calls do not interleave: each method runs to completion. A busy flag found already set stands for a call still in flight, and the guarded call then does nothing.
- Store.StartLoginSpec: `whatsappBusy` is checked but not raised and lowered inside the call. A call runs to completion here, so nothing can observe the raised flag. The same holds for Store.WaitLoginSpec, Store.LogoutWhatsAppSpec, Store.LogoutTelegramSpec (`telegramBusy`) and Store.SaveSpec (`isSavingConfig`). `ApplyPreserves` therefore keeps those flags down by the frame alone. `Refresh` does raise and lower `isRefreshing`.
- Store.ConnectionsStore.WaitWhatsAppLogin: the default argument of `waitWhatsAppLogin(timeoutMs:)`, 120000 ms, is a caller convenience. The model always takes `timeoutMs` explicitly.
- Timestamps and durations are integer milliseconds rather than `Double`, and `Date()` is the `now` parameter.
- An `allowFrom` entry that is a floating-point number (truncated to an integer by the load) is left out, because the JSON value has no floating-point case.
- `date(fromMs:)`, `msToAge` and `relativeAge` are function parameters of the detail builders. The text they produce is not modelled.
- Base64 decoding and `NSImage` construction in `qrImage` are foreign. `QrPayload` stops at the payload handed to the decoder.
- Trimming uses a fixed set of six ASCII whitespace characters, not the full Unicode whitespace and newline set.
- A Swift `String` is a sequence of grapheme clusters, and `split`, `firstIndex(of:)` and `contains` compare clusters; the model works on single characters. `Text.Fields`, `TelegramConfig.ParseAllowFrom`, `Text.FirstIndexOf` and `Settings.QrPayload` therefore treat a comma followed by a combining mark as a separator, where Swift sees one cluster that is not a comma. For text without combining marks after a comma the two agree.
- `error.localizedDescription` is the `Failed` message itself.
- The gateway's HTTP dispatcher, `createGatewayHttpServer`, is not part of this model.

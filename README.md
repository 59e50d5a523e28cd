# SimuChat in Dafny

SimuChat is a classroom chat simulator. Students practise role-play conversations in
one of three modes:

- **AI**: the partner is a language model playing a persona.
- **DUO**: two students share one device and take turns.
- **REMOTE**: two devices are joined peer to peer through a four-digit room code.

Conversations are saved locally and, when configured, to a Google Apps Script endpoint. A
teacher's dashboard lists them and exports plain-text transcripts.

This project models the program's sequential logic and proves its rules:

- the peer session manager: a state machine over its peer, its connection and three
  callback slots, with promises that settle once;
- the chat screen: the receiver dispatch, the send rules of each mode, voice messages,
  and the typing broadcast;
- the setup and login screens: their guard chains and remote lobby;
- the local session store: upsert, delete, sort, and empty on a missing or corrupt value;
- the AI client: its retry loop;
- the dashboard: the transcript export;
- the application shell: its screen states.

One module per source file:

| module | file | form |
|---|---|---|
| `Types` | types.ts | datatypes only |
| `Text` | — | JavaScript string operations the other modules use (`trim`, `toString`, `padStart`, `includes`, `toUpperCase`, `replace(/\s+/g, …)`) |
| `P2P` | services/p2pService.ts | class `PeerService`; the environment calls its event methods |
| `Chat` | components/ChatScreen.tsx | pure send rules plus class `ChatScreen` |
| `Setup` | components/SetupScreen.tsx | the pure start check plus class `SetupScreen` |
| `Storage` | services/storageService.ts | pure load, upsert, delete and sort, plus class `Backend` |
| `Gemini` | services/geminiService.ts | the pure retry specification `Exchange` plus class `ChatClient` with the loop |
| `Admin` | components/AdminDashboard.tsx | pure labels and lines plus class `AdminDashboard` |
| `AppShell` | App.tsx | class `App` |
| `Login` | components/LoginScreen.tsx | the pure submit check plus class `LoginScreen` |

The screens do not hold a reference to the peer service. Each screen records the calls
it makes into it as `P2P.Request` values (field `calls`), and `PeerService` models what
such a call does. The callbacks the screens register are named by the `P2P.Callback`
values. The peer service records each invocation of them as an effect.

Time, random draws, locale renderings, the model's answers and the user's answers to
`confirm` are all parameters.

## Model

| member | source | states |
|---|---|---|
| Text.BlankIffAllSpace | components/LoginScreen.tsx:29-39 | `!s.trim()` holds exactly when every character of `s` is JavaScript white space |
| Text.DecimalString | services/p2pService.ts:21 | a number's decimal text is non-empty, all digits, reads back as the number and has no leading zero unless it is "0" |
| Text.DecimalRoundTrip | services/p2pService.ts:21 | two numbers print the same only when they are equal |
| Text.PadStart | components/ChatScreen.tsx:326 | the result has length `max(n, |s|)`, ends with `s` and starts with fill characters |
| Text.ToUpper | components/SetupScreen.tsx:339 | same length, and each character is the character at the same position with a-z upper-cased |
| Text.IncludesInfix | services/geminiService.ts:63 | a text holding t as a piece between any two texts `includes` t |
| Text.CollapseAppend | components/AdminDashboard.tsx:108 | rewriting `a + t` is rewriting a, then t in the state the end of a leaves (inside a run of white space or not) |
| Text.CollapseRun | components/AdminDashboard.tsx:108 | one whole run of white space between two non-space characters becomes exactly one replacement, and the text around it is rewritten independently |
| P2P.ShortCode | services/p2pService.ts:21 | a draw in 1000..9999 gives exactly four digits that read back as the draw |
| P2P.PeerId | services/p2pService.ts:22 | the id is `SIMUCHAT-` followed by the code |
| P2P.HostPeerIdInjective | services/p2pService.ts:58 | host and joiner derive the id the same way, and two draws give the same id only if they are equal |
| P2P.Settle | services/p2pService.ts:36-49 | resolve and reject only affect a pending promise, and no other promise changes |
| P2P.SettleOnce | services/p2pService.ts:81-83 | a second settlement never overrides the first, so a reject after a resolve has no effect |
| P2P.PeerService.constructor | services/p2pService.ts:7-11 | no peer, no connection and empty callback slots |
| P2P.PeerService.InitializeHost | services/p2pService.ts:18-34 | the previous peer is destroyed first, and a peer named `SIMUCHAT-<code>` is registered with a new pending promise; the connection and the slots are untouched |
| P2P.PeerService.JoinSession | services/p2pService.ts:56-65 | the previous peer is destroyed first, and an anonymous peer aimed at `SIMUCHAT-<code>` is created with a new pending promise |
| P2P.PeerService.SetupConnection | services/p2pService.ts:92-107 | the previous connection is closed, the new one becomes the only one, and the connect slot is invoked exactly once when it is set |
| P2P.PeerService.SendMessageP2P | services/p2pService.ts:109-116 | the message is transmitted on the connection exactly when it is present and open; otherwise only a warning, and no state changes |
| P2P.PeerService.SetP2PCallbacks | services/p2pService.ts:118-126 | the data slot is always replaced; an omitted connect or close callback keeps its slot |
| P2P.PeerService.CloseP2P | services/p2pService.ts:128-133 | from any state, peer and connection are absent afterwards; a second close has no effect at all |
| P2P.PeerService.PeerOpened | services/p2pService.ts:67-84 | the host's promise resolves with its code; the joiner opens a connection to the host and arms the 5000 ms timer |
| P2P.PeerService.PeerFailed | services/p2pService.ts:86-88 | a peer error rejects the promise of the call that created the peer, if it is still pending |
| P2P.PeerService.IncomingConnection | services/p2pService.ts:41-44 | every incoming connection goes through setupConnection, so a second one replaces and closes the first |
| P2P.PeerService.OutboundOpened | services/p2pService.ts:70-74 | the joiner's open connection goes through setupConnection and the join promise resolves |
| P2P.PeerService.OutboundFailed | services/p2pService.ts:76-78 | a connection error rejects the join promise, if it is still pending |
| P2P.PeerService.TimerFired | services/p2pService.ts:81-83 | the timer rejects only when the current connection is absent or not open, and a settled promise stays settled |
| P2P.PeerService.LinkOpened | services/p2pService.ts:92-94 | only that connection's open flag changes |
| P2P.PeerService.LinkClosed | services/p2pService.ts:100-103 | the close slot as it is at event time is invoked for a connection that went through setupConnection |
| P2P.PeerService.DataArrived | services/p2pService.ts:96-98 | data goes to the data slot as it is at event time |
| Chat.IsUserSender | components/ChatScreen.tsx:137 | a message is the user's exactly when the mode is not DUO or the active student is the user |
| Chat.Toggle | components/ChatScreen.tsx:198-201 | the sender after a DUO send is the other student |
| Chat.Outgoing | components/ChatScreen.tsx:144-151 | the attachment type is image exactly when an image is selected, and the text, sender and id are as given |
| Chat.Incoming | components/ChatScreen.tsx:97-103 | an incoming entry is never the user's and carries the sent payload unchanged |
| Chat.ChatArrivesIntact | components/ChatScreen.tsx:97-105 | what one side sends as CHAT arrives as the same message, marked as the partner's and stamped with the arrival time |
| Chat.Reply | components/ChatScreen.tsx:182-187 | the AI's reply is the partner's entry with the returned text and no attachment |
| Chat.AIPromptMentions | components/ChatScreen.tsx:173-178 | the prompt contains the typed text, and contains the image note when an image was sent |
| Chat.TwoDigitSeconds | components/ChatScreen.tsx:325-326 | the padded seconds are two digits reading back as the seconds |
| Chat.FormatDurationReadsBack | components/ChatScreen.tsx:323-327 | the timer text is minutes then `:` then two digits, reading back as `s / 60` and `s % 60` |
| Chat.PersistedSession | components/ChatScreen.tsx:61-78 | nothing is saved while the transcript is empty; otherwise the record carries the session id, the real student's name, e-mail and class, the topic, the mode, both roles, the start time, the save time and the transcript |
| Chat.ChatScreen.constructor | components/ChatScreen.tsx:21-39 | `isConnected` starts true in every mode except REMOTE; in REMOTE the screen sends its HANDSHAKE and registers dispatch and close handlers with no connect handler |
| Chat.ChatScreen.OnPeerData | components/ChatScreen.tsx:96-114 | CHAT appends one partner entry at the end and clears typing; HANDSHAKE sets the partner and connects; TYPING sets the flag; anything else changes nothing |
| Chat.ChatScreen.OnPeerClosed | components/ChatScreen.tsx:115-119 | a remote close alerts the user and disconnects |
| Chat.ChatScreen.Draft | components/ChatScreen.tsx:144-151 | the entry a send creates has the draft's text and image and the sender chosen by mode |
| Chat.ChatScreen.HandleSendMessage | components/ChatScreen.tsx:129-202 | blank text with no image changes nothing; otherwise exactly one entry is appended (then the AI's reply in AI mode), the draft is cleared, REMOTE sends it as CHAT, and DUO flips the sender |
| Chat.ChatScreen.SendVoiceMessage | components/ChatScreen.tsx:259-302 | the audio entry, credited to the closure's own `activeSender`, is kept locally; a remote partner gets only the fixed placeholder text with no attachment; DUO flips the current sender |
| Chat.ChatScreen.StartRecording | components/ChatScreen.tsx:217-219 | pressing the microphone button asks for the microphone and remembers the sender selected at the press |
| Chat.ChatScreen.MicrophoneAnswered | components/ChatScreen.tsx:219-248 | a granted request starts the recording at zero seconds, to be credited to the press's sender; a refused one asks the student to allow the microphone |
| Chat.ChatScreen.RecordingTick | components/ChatScreen.tsx:241-243 | each tick adds one second |
| Chat.ChatScreen.StopRecording | components/ChatScreen.tsx:251-257 | a running recording stops and is handed to the recorder's stop handler |
| Chat.ChatScreen.CancelRecording | components/ChatScreen.tsx:528 | as written, discarding also hands the recording to the stop handler |
| Chat.ChatScreen.CancelRecordingIntended | components/ChatScreen.tsx:528 | discarding ends the recording and leaves nothing to send |
| Chat.ChatScreen.RecorderStopped | components/ChatScreen.tsx:230-235 | the stop handler clears the pending recording and sends it exactly as `sendVoiceMessage` does: the audio entry credited to the sender selected when the microphone was pressed, the REMOTE placeholder, the AI prompt and reply, and the DUO sender flip |
| Chat.ChatScreen.HandleInputChange | components/ChatScreen.tsx:310-317 | every change in REMOTE sends TYPING true and schedules TYPING false 2000 ms later; other modes send nothing |
| Chat.ChatScreen.AddEmoji | components/ChatScreen.tsx:213-215 | the emoji is appended to the draft |
| Chat.ChatScreen.ToggleEmojiPicker | components/ChatScreen.tsx:546 | the picker flips between shown and hidden |
| Chat.ChatScreen.SelectImage | components/ChatScreen.tsx:204-211 | the picked image is attached to the next message |
| Chat.ChatScreen.RemoveImage | components/ChatScreen.tsx:472 | the attachment is dropped |
| Chat.ChatScreen.SelectSender | components/ChatScreen.tsx:492-513 | in DUO mode and while nothing is recording, the switcher sets who types next |
| Chat.ChatScreen.PressExit | components/ChatScreen.tsx:340-343 | as written, REMOTE closes the peer service before any confirmation, then exit is requested |
| Chat.ChatScreen.PressExitIntended | components/ChatScreen.tsx:340-343 | REMOTE closes the peer service only when leaving is confirmed |
| Chat.VoiceCreditedAtPress | components/ChatScreen.tsx:259-261 | in DUO mode, picking the other student while the permission prompt is open does not change who the voice message is credited to, and the flip afterwards makes the pressing student active again |
| Chat.DiscardedRecordingIsSent | components/ChatScreen.tsx:528 | start, discard and the stop handler leave a voice entry in the transcript |
| Chat.DiscardedRecordingIsDropped | components/ChatScreen.tsx:528 | with the intended discard the transcript stays empty and nothing is pending |
| Chat.DeclinedExitClosesRoom | components/ChatScreen.tsx:340-343 | as written, a back press ends with a close of the peer service whatever the answer |
| Chat.DeclinedExitKeepsRoom | components/ChatScreen.tsx:340-343 | with the intended button a declined exit makes no close call |
| Setup.InitialSettings | components/SetupScreen.tsx:17-22 | the form starts from the defaults (AI mode, blue theme, empty topic) with the logged-in identity |
| Setup.StartCheckFirstFailure | components/SetupScreen.tsx:43-58 | each error message is reported exactly when its field is the first unfilled one, in the order topic, user name, partner name (not in REMOTE), user role; the start passes exactly when all are filled |
| Setup.StartSettings | components/SetupScreen.tsx:61-67 | the chat gets the form with the real identity overwritten, and the created code if there is one, otherwise the typed one |
| Setup.SetupScreen.constructor | components/SetupScreen.tsx:17-40 | an empty lobby; the mount run of the reset effect closes the peer service |
| Setup.SetupScreen.StartWith | components/SetupScreen.tsx:42-67 | `handleStart` as seen by a closure: the first failed check sets the error, otherwise `onStart` gets the completed settings |
| Setup.SetupScreen.HandleStart | components/SetupScreen.tsx:42-67 | the start button applies the check and the completion to the current form |
| Setup.SetupScreen.SetTopic | components/SetupScreen.tsx:153-156 | the topic changes and the error is cleared |
| Setup.SetupScreen.SetProfiles | components/SetupScreen.tsx:221-277 | only the personas change |
| Setup.SetupScreen.SetTheme | components/SetupScreen.tsx:378-403 | a preset theme, or the custom theme with its colour |
| Setup.SetupScreen.SetMode | components/SetupScreen.tsx:32-40 | switching to a mode other than REMOTE resets the stage, the code and the status and closes the peer service |
| Setup.SetupScreen.ChooseJoin | components/SetupScreen.tsx:306 | the code entry opens |
| Setup.SetupScreen.Cancel | components/SetupScreen.tsx:325 | back to the choice, with the peer service left as it is |
| Setup.SetupScreen.SetJoinCode | components/SetupScreen.tsx:339 | the typed code is kept upper-cased |
| Setup.SetupScreen.HandleCreateRoom | components/SetupScreen.tsx:70-72 | waiting and status are set and a host is requested |
| Setup.SetupScreen.CreateRoomSettled | components/SetupScreen.tsx:73-89 | success stores the code, moves to hosting and registers the auto-start; failure sets the error; either way waiting ends |
| Setup.SetupScreen.PartnerConnected | components/SetupScreen.tsx:79-82 | as written, the auto-start runs the start check of the render in which the room was created |
| Setup.SetupScreen.PartnerConnectedIntended | components/SetupScreen.tsx:79-82 | the auto-start runs the start check on the state at connection time |
| Setup.SetupScreen.HandleJoinRoom | components/SetupScreen.tsx:91-98 | a code that is not four characters sets the error and never contacts the peer service; otherwise a join is requested |
| Setup.SetupScreen.JoinSettled | components/SetupScreen.tsx:99-105 | a completed join starts the chat; a failed one sets the error and ends waiting |
| Setup.HostStartsWithoutCode | components/SetupScreen.tsx:79-82 | create, settle, connect: the chat starts with an empty room code |
| Setup.HostStartsWithCode | components/SetupScreen.tsx:79-82 | the same sequence with the intended handler starts the chat with the created code |
| Storage.Sessions | services/storageService.ts:12-18 | the parsed list, entry by entry |
| Storage.Records | services/storageService.ts:36 | the written list, entry by entry, each with its messages |
| Storage.WrittenReadsBack | services/storageService.ts:36 | a written list parses back to itself |
| Storage.InsertSorted | services/storageService.ts:19-21 | inserting into a list sorted most recent first keeps it sorted |
| Storage.InsertAddsOne | services/storageService.ts:19-21 | inserting adds exactly that entry and loses none |
| Storage.SortByRecent | services/storageService.ts:19-21 | sorted by `lastActive`, most recent first, and a permutation of the input |
| Storage.InsertKeepsTies | services/storageService.ts:19-21 | an insert keeps the order among equal times |
| Storage.SortIsStable | services/storageService.ts:19-21 | entries with equal `lastActive` keep their relative order |
| Storage.LoadLocal | services/storageService.ts:8-25 | a missing or corrupt value gives the empty list, as does an entry without messages; otherwise the stored entries, most recent first |
| Storage.IndexOfId | services/storageService.ts:29 | the first position with the id, or -1 exactly when no entry has it |
| Storage.UpsertReplaces | services/storageService.ts:31-32 | an existing id is replaced in place and no other entry changes |
| Storage.UpsertAppends | services/storageService.ts:33-35 | a new id is appended and the length grows by one |
| Storage.UpsertKeepsIdsUnique | services/storageService.ts:27-37 | ids that were unique stay unique |
| Storage.WithoutId | services/storageService.ts:124 | exactly the entries with other ids remain, in their order |
| Storage.WithoutIdSplits | services/storageService.ts:124 | filtering a concatenation filters each part |
| Storage.WithoutAbsentId | services/storageService.ts:124 | removing an id no entry has changes nothing |
| Storage.CloudSession | services/storageService.ts:84-89 | every field but the messages is kept; the messages are the entry's own when it has a list and empty when the member is absent or falsy |
| Storage.CloudSessions | services/storageService.ts:84-89 | the cloud list, entry by entry |
| Storage.Backend.constructor | services/storageService.ts:4 | the store starts with the given value and no requests |
| Storage.Backend.SaveLocalSession | services/storageService.ts:27-37 | the loaded list with the session upserted is written back |
| Storage.Backend.SaveSession | services/storageService.ts:48-70 | always saved locally; posted only when the cloud is active, and a failed post changes nothing |
| Storage.Backend.FetchCloudSessions | services/storageService.ts:76-97 | without a URL the local list; after a failure the empty list; otherwise the answer, most recent first |
| Storage.Backend.LoadData | services/storageService.ts:103-112 | the cloud list while the cloud is active, otherwise the local list, always sorted |
| Storage.Backend.DeleteSession | services/storageService.ts:122-140 | the local list without the id is written back; a delete is posted when the cloud is active |
| Storage.Backend.ClearAllSessions | services/storageService.ts:142-146 | the key is removed, so loading gives the empty list, and the user is told |
| Storage.SavedSessionLoads | services/storageService.ts:27-37 | after a save, loading finds the saved session |
| Storage.DeletedSessionGone | services/storageService.ts:122-125 | after a delete, loading finds no entry with the id and every other entry |
| Gemini.InstructionPieces | services/geminiService.ts:6-30 | the template interleaves its fixed text with the partner's name and role, the user's name and role, and the topic |
| Gemini.SystemInstructionMentions | services/geminiService.ts:6-30 | the instruction contains the partner's name and role, the user's name and role, and the topic |
| Gemini.ExchangeSpec | services/geminiService.ts:54-86 | at most four calls; a retry only after a rate limit or a 503; before retry k a wait of `1000·2^(k-1)`; a reply's text or `...` when empty; otherwise the rate-limit or the connection message |
| Gemini.ExchangeBounds | services/geminiService.ts:66-70 | a whole send makes 1 to 4 calls, with waits of 1000, 2000 and 4000 ms before the retries |
| Gemini.EffectiveMessage | services/geminiService.ts:52 | a blank message is replaced by the attachment placeholder, any other message is sent as is |
| Gemini.ChatClient.constructor | services/geminiService.ts:4 | no chat yet |
| Gemini.ChatClient.InitializeChat | services/geminiService.ts:34-44 | a new chat with the model, the scenario's instruction, temperature 0.9 and 250 output tokens |
| Gemini.ChatClient.SendMessageToAI | services/geminiService.ts:46-89 | fails when no chat exists; otherwise the loop sends the effective message and answers exactly as `Exchange` specifies |
| Admin.ModeLabel | components/AdminDashboard.tsx:72-73 | the DUO label exactly for DUO, the AI label for every other mode |
| Admin.OrDefault | components/AdminDashboard.tsx:80-81 | an empty e-mail or class shows its placeholder |
| Admin.HeaderLines | components/AdminDashboard.tsx:75-87 | the header has eleven lines |
| Admin.SenderLabel | components/AdminDashboard.tsx:92-94 | the student's name for the user's lines; otherwise the partner's role in DUO, else `AI (role)` |
| Admin.ContentLabel | components/AdminDashboard.tsx:96-99 | `[Obrázek]` for an image, `[Hlasová zpráva]` for audio, the text otherwise |
| Admin.MessageLines | components/AdminDashboard.tsx:89-102 | one line per message, in message order |
| Admin.FirstTen | components/AdminDashboard.tsx:108 | the first ten characters, or all of a shorter string |
| Admin.FileNameHasNoSpace | components/AdminDashboard.tsx:108 | the name part holds no white space, and a name without white space is kept as it is |
| Admin.Refreshed | components/AdminDashboard.tsx:30-34 | a refresh replaces the selection with the entry of the same id if there is one and otherwise keeps it |
| Admin.ExportLayout | components/AdminDashboard.tsx:75-102 | the export is the eleven header lines, then at 11 + i the time, sender and content of message i |
| Admin.AdminDashboard.constructor | components/AdminDashboard.tsx:11-15 | signed out, nothing loaded, nothing selected |
| Admin.AdminDashboard.SetPassword | components/AdminDashboard.tsx:12 | the typed password is kept |
| Admin.AdminDashboard.HandleLogin | components/AdminDashboard.tsx:43-50 | signed in, and loading starts, exactly when the password is `admin`; otherwise a hint is shown |
| Admin.AdminDashboard.DeliverSessions | components/AdminDashboard.tsx:26-34 | the list is replaced, loading ends and the selection is refreshed |
| Admin.AdminDashboard.Poll | components/AdminDashboard.tsx:20-41 | while signed in, each load delivers the storage service's list, sorted, and refreshes the selection; a cloud fetch is requested exactly when the cloud is active |
| Admin.AdminDashboard.Resubscribe | components/AdminDashboard.tsx:20-41 | while signed in, a change of the selected id sets `loading`; otherwise it is kept |
| Admin.AdminDashboard.Select | components/AdminDashboard.tsx:14 | the chosen conversation is selected; while signed in, a new selected id sets `loading` |
| Admin.AdminDashboard.Deselect | components/AdminDashboard.tsx:14 | nothing is selected; while signed in, clearing a selection sets `loading` |
| Admin.AdminDashboard.HandleDelete | components/AdminDashboard.tsx:52-58 | a confirmed delete removes the entry and clears the selection exactly when the selected id is the deleted id; otherwise nothing changes; `loading` is set exactly when, while signed in, the selected id changed |
| Admin.AdminDashboard.HandleClearAll | components/AdminDashboard.tsx:60-67 | a confirmed clear empties the local store, the list and the selection, and while signed in sets `loading` when a selection was cleared; otherwise nothing changes |
| Admin.AdminDashboard.HandleDownload | components/AdminDashboard.tsx:69-112 | nothing without a selection; otherwise the header lines, then one line per message in order, joined after a byte-order mark, under the rewritten file name |
| AppShell.App.Shown | App.tsx:48-75 | each screen is shown exactly in its state; the chat only with settings |
| AppShell.App.constructor | App.tsx:12-19 | the first screen is login, with no identity and no settings |
| AppShell.App.HandleLogin | App.tsx:21-26 | the identity is stored and setup is shown |
| AppShell.App.EnterAdmin | App.tsx:53 | the dashboard is entered from login only |
| AppShell.App.LeaveAdmin | App.tsx:58 | the dashboard returns to login |
| AppShell.App.StartChat | App.tsx:28-32 | from any screen: a new AI chat for the scenario, the settings stored, the chat shown, the identity kept |
| AppShell.App.ExitChat | App.tsx:34-39 | a confirmed exit returns to setup and clears the settings; otherwise nothing changes |
| AppShell.App.HandleLogout | App.tsx:41-46 | all three identity fields are cleared and login is shown |
| Login.SubmitCheckFirstFailure | components/LoginScreen.tsx:29-40 | each error is reported exactly when its field is the first blank one of name, e-mail, class; the check passes exactly when all three are filled |
| Login.IsBlobUrl | components/LoginScreen.tsx:54 | exactly the addresses starting with `blob:` |
| Login.QrCodeImage | components/LoginScreen.tsx:55-57 | empty exactly when the address is empty; otherwise the QR service URL followed by the encoded address |
| Login.LoginScreen.constructor | components/LoginScreen.tsx:11-25 | empty fields, QR panel closed, the address field holding the page's address |
| Login.LoginScreen.HandleSubmit | components/LoginScreen.tsx:27-42 | the first failed check sets the error; `onLogin` is called exactly when all pass, with the untrimmed values |
| Login.LoginScreen.SetName | components/LoginScreen.tsx:190-193 | editing the name clears the error |
| Login.LoginScreen.SetEmail | components/LoginScreen.tsx:210-213 | editing the e-mail clears the error |
| Login.LoginScreen.SetClass | components/LoginScreen.tsx:230-233 | editing the class clears the error |
| Login.LoginScreen.ToggleQR | components/LoginScreen.tsx:19-25 | the panel flips and the address field is reset to the page's address |
| Login.LoginScreen.SetQrUrl | components/LoginScreen.tsx:16 | the typed address is kept |
| Login.LoginScreen.CopyToClipboard | components/LoginScreen.tsx:44-52 | the success or the failure notice, by the clipboard's answer |
| Login.LoginScreen.CopyNoticeExpired | components/LoginScreen.tsx:48 | the notice is cleared after 2000 ms |

## Left out

- The PeerJS library is abstract. Peers and connections are serial numbers. Each connection's open flag is a map. The library's events are methods the environment calls, and nothing is assumed about when it calls them.
- Promises, `await` and timers are not scheduled.
  - A promise is a settle-once cell.
  - The 5000 ms join timer and the recording interval are events.
  - The 2000 ms typing-off send and the 2000 ms copy notice are recorded or cleared by calls.
  - The 10 s poll is one `Poll` call per tick.
  - Interleavings between them are not modelled.
- `Math.random` is an input. The room code draw is an integer in 1000..9999 passed to `InitializeHost`.
- Gemini.ExchangeBounds: the retry jitter of up to 500 ms is left out, so the waits are the integer base waits only.
- Gemini.ChatClient.SendMessageToAI: the model's call results are supplied as exactly four outcomes, one per possible call. Outcomes after the last call made are ignored.
- The client library is out of scope:
  - the `@google/genai` client, the API key and the environment;
  - the temperature, kept as 9 tenths.
- Network and storage formats:
  - `fetch` to the script endpoint is out of scope: a post is recorded as a request, and a fetch's answer is a parameter (None for a failed request or parse);
  - `localStorage` plus JSON is the value `Stored`: missing, corrupt, or a list of records, each with a flag for a missing message list.
- Date handling: `Date`, ISO strings and locale formatting are left out.
  - Times are integer milliseconds.
  - `toLocaleTimeString`, `toLocaleString` and `toISOString` are functions or strings supplied to `HandleDownload`.
  - Message ids are the decimal text of the time.
- Browser behaviour outside the model:
  - `URL.createObjectURL`/`revokeObjectURL` and the media stream: an object URL is a string parameter;
  - `getUserMedia`: its outcome is a boolean;
  - the clipboard: its outcome is a boolean;
  - `encodeURIComponent`: a function parameter;
  - `confirm`: its answer is a boolean;
  - `alert`: appends to an `alerts` log.
- The chat screen's persist effect is modelled as the record it would save (`Snapshot`, built by `PersistedSession`). Its call to `saveSession` is not composed with `Storage.Backend`.
- Text.ToUpper: the upper-case mapping covers ASCII letters only. Other characters are kept, whereas JavaScript also maps other scripts' letters.
- JavaScript white space is the ASCII white-space characters plus no-break space, line and paragraph separators, the byte-order mark and the Unicode space separators.
- Cancelling the join stage does not close the peer service, so a pending join stays pending. `closeP2P` only destroys the peer, and only the 5000 ms timer or an error can reject. The model follows the code.
- Most handlers require the screen they belong to. The `App` handlers other than `StartChat` require their owning state (`HandleLogin` requires the login screen). `Admin.AdminDashboard.Poll` requires the signed-in dashboard, because the subscription only exists then.
- `AppShell.App.StartChat` requires only a consistent shell, not the setup screen. The setup screen's auto-start closure (components/SetupScreen.tsx:80-82) is not removed when the screen goes away. It can therefore start a chat from any screen: after a logout while hosting, with the forgotten identity, or during a chat when a second partner connects. Composing `App` with the peer service across screens is not part of this model.
- Setup.JoinCodeAccepted and Setup.SetupScreen.HandleJoinRoom count characters. `joinCode.length` counts UTF-16 code units, so a code containing a character outside the Basic Multilingual Plane (an emoji) is judged by a different length than in the browser. Strings are sequences of code points here.
- Admin.AdminDashboard.Resubscribe: re-subscribing on a change of the selected id is modelled only by its `loading` flag. The old interval's cancellation and the immediate load are not composed into `Select`, `Deselect`, `HandleDelete` and `HandleClearAll`; that load is the next `Poll`, so after a confirmed clear the list is refilled only there.
- Chat.ChatScreen.StartRecording: one microphone request is modelled at a time. A second press while the permission prompt is open replaces the first request, whereas the browser would run both requests.
- Login.LoginScreen.HandleSubmit: the browser's own form validation is not modelled. The e-mail field is `type="email"` in a form without `noValidate`, so a malformed address never reaches `handleSubmit`.
- All rendering is out of scope: JSX, themes, avatars (`AvatarUpload`), emoji lists and scrolling. `constants.ts` provides data only; the defaults used are copied as constants.

## Findings

| source | as written | input that shows it | evidently intended | confidence | as-written member | corrected member |
|---|---|---|---|---|---|---|
| components/SetupScreen.tsx:79-82 | the host's auto-start closure calls the `handleStart` of the render in which "create room" was clicked, when the room code was still empty | a filled REMOTE form, create room, the code arrives, a partner connects | the chat starts with the created room code (shown by ChatScreen as "Kód místnosti") and the current form | not executed; high | Setup.HostStartsWithoutCode | Setup.HostStartsWithCode |
| components/ChatScreen.tsx:528 | the recording's discard button calls `stopRecording`, whose recorder stop handler sends the recording | start recording, press the discard button | discarding throws the recording away | not executed; high | Chat.DiscardedRecordingIsSent | Chat.DiscardedRecordingIsDropped |
| components/ChatScreen.tsx:340-343 | in REMOTE mode the back button closes the peer session before the exit confirmation is asked | a REMOTE chat, press back, decline the confirmation | the session is closed only when leaving is confirmed | not executed; medium | Chat.DeclinedExitClosesRoom | Chat.DeclinedExitKeepsRoom |

# RemoteHR onboarding screens — a Dafny model

RemoteHR is a browser front-end for HR onboarding. Almost all of it is
markup and calls into outside libraries. This project models the part that
is its own decision logic, one Dafny module per screen:

- `VerifyDocument` (`verify_document.dfy`): the document-upload screen.
  Covered: the MIME whitelist and the 10 MiB limit, zoom clamped to
  [50, 200] in steps of 10, the simulated upload progress (+5 per tick,
  capped at 100), drag highlighting, Remove and Download. The screen state
  is a `Screen` value and each handler an `Apply` transition on it. The
  class `UploadScreen` holds the same state in fields, and its methods are
  proved to perform exactly those transitions. The interval tick and the
  `FileReader` load are explicit events.
- `HRChatbot` (`hr_chatbot.dfy`): the HR assistant. Covered: the
  append-only chat log, the blank-input guard (JavaScript `trim` modelled
  on its exact whitespace set), the delayed bot reply, the face count
  mapped to two flags and to exactly one status banner, and the bubble
  style per sender. The class `Chat` keeps an invariant: every user
  message has a delivered or a scheduled reply.
- `Dashboard` (`dashboard.dfy`): the document-status colour (case is
  ignored) and how each onboarding step is drawn (style, badge,
  connector).
- `OfferLetter` (`offer_letter.dfy`): the signing gate. The offer becomes
  signed only through a Sign action while name, date and ink are all
  present, and it never becomes unsigned. The sign button's label and
  disabled state follow from that flag.
- `Wrappers` (`wrappers.dfy`): `Option`, `Min` and `Max`.

Outside inputs are parameters: file metadata, the face count, clock values
used as message ids, and the preview data string.

## Model

| member | source | states |
|---|---|---|
| VerifyDocument.Check | src/pages/VerifyDocument.jsx:91-103 | A file is accepted iff its type is exactly one of the three whitelisted MIME types and its size is at most 10 MiB. A bad type gives the type message; a listed type that is too large gives the size message. |
| VerifyDocument.TypeBeforeSize | src/pages/VerifyDocument.jsx:95-103 | A file with a wrong type that is also too large reports the type error. |
| VerifyDocument.SizeBoundary | src/pages/VerifyDocument.jsx:93-103 | Exactly 10·1024·1024 bytes is accepted; one byte more is rejected with the size message. |
| VerifyDocument.TypeIsExact | src/pages/VerifyDocument.jsx:92-98 | `image/jpg`, `IMAGE/PNG` and the empty type are rejected: the match is exact and case-sensitive. |
| VerifyDocument.ZoomNext | src/pages/VerifyDocument.jsx:135-140 | Zoom-in gives min(prev+10, 200) and zoom-out max(prev−10, 50). An allowed level (a multiple of 10 in [50, 200]) stays allowed. |
| VerifyDocument.ZoomClicksStayOk | src/pages/VerifyDocument.jsx:135-140 | No sequence of zoom clicks leaves the lattice of allowed levels. |
| VerifyDocument.ZoomInRepeated | src/pages/VerifyDocument.jsx:135-140 | k zoom-in clicks from an allowed level z give min(z+10k, 200). |
| VerifyDocument.ZoomOutRepeated | src/pages/VerifyDocument.jsx:135-140 | k zoom-out clicks from an allowed level z give max(z−10k, 50). |
| VerifyDocument.ZoomOkReachable | src/pages/VerifyDocument.jsx:26-26 | Every allowed level is reached from the initial 100 by some sequence of clicks, so the allowed levels are exactly the reachable ones. |
| VerifyDocument.ZoomRoundTrip | src/pages/VerifyDocument.jsx:135-140 | Away from a bound, zoom-in followed by zoom-out (and the reverse) returns to the starting level. |
| VerifyDocument.ProgressTick | src/pages/VerifyDocument.jsx:40-46 | A tick gives 100 when prev ≥ 100 and prev+5 otherwise. An allowed value (a multiple of 5 in [0, 100]) stays allowed and never decreases. |
| VerifyDocument.TicksClosedForm | src/pages/VerifyDocument.jsx:39-47 | k ticks from an allowed value p give min(p+5k, 100). |
| VerifyDocument.ProgressMonotone | src/pages/VerifyDocument.jsx:40-46 | Starting from 0, progress never decreases, never exceeds 100 and is always a multiple of 5. |
| VerifyDocument.ProgressOkReachable | src/pages/VerifyDocument.jsx:40-46 | Every multiple of 5 in [0, 100] is shown after p/5 ticks from 0. |
| VerifyDocument.DragActiveAfter | src/pages/VerifyDocument.jsx:62-71 | `dragenter` and `dragover` set the highlight, `dragleave` clears it, and any other event type keeps it. |
| VerifyDocument.Enabled | src/pages/VerifyDocument.jsx:35-60 | A progress tick can fire iff a file is held: the interval effect starts only for a file, and its cleanup stops it when `file` changes. A reader load can complete iff one was started. Every handler event is always possible. |
| VerifyDocument.TimerGuardNeeded | src/pages/VerifyDocument.jsx:35-50 | The initial state is valid and has no running interval. A tick fired there would break "progress 0 without a file", so the invariant rests on the effect guard. |
| VerifyDocument.AfterFile | src/pages/VerifyDocument.jsx:91-108 | A rejected file changes only the error. An accepted file sets `file`, clears the error, resets progress to 0 and starts one reader. Preview, zoom and drag state are untouched. |
| VerifyDocument.Apply | src/pages/VerifyDocument.jsx:35-140 | Every handler, timer tick and reader load keeps the screen invariant: progress and zoom in their lattices, progress 0 without a file, any held file acceptable, and the error one of the three messages. |
| VerifyDocument.RunKeepsInv | src/pages/VerifyDocument.jsx:22-30 | Every state reached by any run of events from a valid state is valid. |
| VerifyDocument.RejectChangesOnlyError | src/pages/VerifyDocument.jsx:73-103 | A rejected file leaves everything but the error unchanged, whether it came through the handler, the file input or a drop (a drop also clears the highlight). |
| VerifyDocument.DownloadAsWritten | src/pages/VerifyDocument.jsx:110-115 | Download does nothing without a preview. It throws when there is a preview but no file. Otherwise it saves under `DownloadName`: the file's name, or `document` when the name is empty. |
| VerifyDocument.StaleReadCrashesDownload | src/pages/VerifyDocument.jsx:52-60 | Accept, Remove, then a late reader load is a valid run that ends with a preview, no file, and a download that throws. |
| VerifyDocument.DownloadName | src/pages/VerifyDocument.jsx:115-115 | The null-safe download name is never empty: the file's name when there is one, otherwise `document`. |
| VerifyDocument.DownloadNameAgrees | src/pages/VerifyDocument.jsx:110-115 | Wherever the original download does not throw, the corrected one behaves identically. |
| VerifyDocument.UploadScreen.constructor | src/pages/VerifyDocument.jsx:22-30 | Starts with no file, no error, progress 0, zoom 100, no highlight, no preview. |
| VerifyDocument.UploadScreen.HandleFile | src/pages/VerifyDocument.jsx:91-108 | Performs exactly the `FileGiven` transition on the fields and keeps the invariant. |
| VerifyDocument.UploadScreen.HandleDrag | src/pages/VerifyDocument.jsx:62-71 | Updates only `dragActive`, as `DragActiveAfter` says. |
| VerifyDocument.UploadScreen.HandleDrop | src/pages/VerifyDocument.jsx:73-81 | Clears the highlight, then handles the first dropped file if there is one. |
| VerifyDocument.UploadScreen.HandleChange | src/pages/VerifyDocument.jsx:83-89 | Handles the first chosen file if there is one; otherwise nothing changes. |
| VerifyDocument.UploadScreen.Remove | src/pages/VerifyDocument.jsx:254-258 | Resets file, preview and progress; the error, zoom and highlight are kept. |
| VerifyDocument.UploadScreen.TickProgress | src/pages/VerifyDocument.jsx:39-47 | While a file is held, one interval firing applies `ProgressTick` to the progress only. |
| VerifyDocument.UploadScreen.HandleZoom | src/pages/VerifyDocument.jsx:135-140 | Applies `ZoomNext` to the zoom level only. |
| VerifyDocument.UploadScreen.PreviewLoaded | src/pages/VerifyDocument.jsx:55-59 | A started reader load sets the preview, whether or not a file is still held. |
| VerifyDocument.UploadScreen.HandleDownload | src/pages/VerifyDocument.jsx:110-119 | Returns nothing iff the preview is empty; otherwise returns the non-empty corrected download name. |
| HRChatbot.TrimStart | src/pages/HRChatbot.jsx:59-59 | Removes only leading whitespace: the result is a suffix of the input, everything dropped is whitespace, and the result starts with a non-whitespace character or is empty. |
| HRChatbot.TrimEnd | src/pages/HRChatbot.jsx:59-59 | Removes only trailing whitespace: the result is a prefix of the input, everything dropped is whitespace, and the result ends with a non-whitespace character or is empty. |
| HRChatbot.Trim | src/pages/HRChatbot.jsx:59-59 | `input.trim()` is no longer than the input, and a non-empty result has no whitespace at either end. |
| HRChatbot.TrimEmptyIffBlank | src/pages/HRChatbot.jsx:58-59 | `input.trim()` is empty iff every character is JavaScript whitespace or a line terminator. |
| HRChatbot.FlagsOf | src/pages/HRChatbot.jsx:46-49 | `isUserInFrame` is count > 0 and `multipleFacesDetected` is count > 1, so multiple faces implies the user is in frame. |
| HRChatbot.Banners | src/pages/HRChatbot.jsx:90-100 | The "no user" banner shows iff not in frame. The "multiple faces" banner shows iff multiple. The "user in frame" banner shows iff in frame and not multiple. |
| HRChatbot.ExactlyOneBanner | src/pages/HRChatbot.jsx:90-100 | For every face count exactly one banner shows: no user for 0, in frame for 1, multiple faces for more. |
| HRChatbot.InconsistentFlagsShowTwo | src/pages/HRChatbot.jsx:90-100 | Flags that do not come from a count (not in frame but multiple) would show two banners, so uniqueness rests on the flag derivation. |
| HRChatbot.StyleOf | src/pages/HRChatbot.jsx:107-113 | Sender `user` gets the user style and `bot` the bot style. Every other sender gets the system style. |
| HRChatbot.Chat.constructor | src/pages/HRChatbot.jsx:8-12 | Starts with an empty log and input, no faces, and both flags false. |
| HRChatbot.Chat.SetInput | src/pages/HRChatbot.jsx:120-125 | The text field sets the input. |
| HRChatbot.Chat.SendMessage | src/pages/HRChatbot.jsx:58-73 | Blank input changes nothing. Otherwise exactly one `user` message holding the untrimmed input is appended after the unchanged earlier messages, the input is cleared, and one reply is scheduled. |
| HRChatbot.Chat.DeliverReply | src/pages/HRChatbot.jsx:66-71 | A scheduled reply appends one `bot` message reading "Thank you for your message!" at the end of the log. |
| HRChatbot.Chat.AddSystemMessage | src/pages/HRChatbot.jsx:51-56 | Appends one `system` message and keeps the existing prefix and its order. |
| HRChatbot.Chat.FacesDetected | src/pages/HRChatbot.jsx:29-49 | A detector result sets the count and both flags from it; the log is untouched. |
| HRChatbot.Chat.StatusBanners | src/pages/HRChatbot.jsx:90-100 | In every valid state exactly one banner shows, chosen by the face count. |
| Dashboard.ToLower | src/pages/dashboard.jsx:28-28 | Lower-casing keeps the length and lower-cases each character. |
| Dashboard.StatusColor | src/pages/dashboard.jsx:27-34 | Green iff the lower-cased status is `signed`, yellow iff `pending`, red iff `missing`, gray otherwise. |
| Dashboard.StatusColorIgnoresCase | src/pages/dashboard.jsx:27-33 | Two statuses that differ only in letter case get the same colour. |
| Dashboard.StatusColorOfDashboardData | src/pages/dashboard.jsx:18-34 | The dashboard's `Signed`, `Pending` and `Missing` get green, yellow and red. |
| Dashboard.StatusColorCaseAndSpace | src/pages/dashboard.jsx:27-34 | `PENDING` is yellow; `signed ` with a trailing space and the empty status are gray. |
| Dashboard.StepStyleOf | src/pages/dashboard.jsx:72-78 | Active wins over completed, and completed over pending; each style holds iff its condition holds. |
| Dashboard.BadgeOf | src/pages/dashboard.jsx:79-85 | The badge is a check mark iff the step is completed; otherwise it is the 1-based index. |
| Dashboard.RenderSteps | src/pages/dashboard.jsx:69-92 | One view per step. View i is active-styled iff step i is active, and has that step's `StepStyleOf`. It shows a check mark iff the step is completed, and otherwise its `BadgeOf` number. It has a connector iff i < steps.length − 1. |
| Dashboard.ConnectorsBetweenSteps | src/pages/dashboard.jsx:88-90 | k steps draw k−1 connectors, and none after the last step. |
| Dashboard.PendingBadgesDistinct | src/pages/dashboard.jsx:79-85 | An unfinished step shows its own position, so two unfinished steps never show the same number. |
| Dashboard.ActiveOverridesCompleted | src/pages/dashboard.jsx:72-85 | A step that is both active and completed is drawn blue but still shows a check mark. |
| Dashboard.OnboardingStepsRendering | src/pages/dashboard.jsx:36-42 | The fixed step list draws two completed checks, an active step numbered 3 and a pending step numbered 4, with connectors after the first three. |
| OfferLetter.Step | src/pages/OfferLater.jsx:14-25 | No action unsets the offer. Only Sign sets it, and only when name, date and ink are all present. Clear wipes the pad and nothing else. |
| OfferLetter.SignedIsPermanent | src/pages/OfferLater.jsx:9-25 | Once signed, every sequence of actions leaves the offer signed. |
| OfferLetter.SignedOnlyThroughGate | src/pages/OfferLater.jsx:18-25 | An unsigned offer that ends signed went through a Sign action at a moment when name, date and ink were all present. |
| OfferLetter.ButtonLabel | src/pages/OfferLater.jsx:225-225 | The label is "Offer Accepted ✓" iff signed, else "Sign & Accept Offer". |
| OfferLetter.OfferForm.constructor | src/pages/OfferLater.jsx:7-9 | Starts with empty name and date, an empty pad, and unsigned. |
| OfferLetter.OfferForm.SetName | src/pages/OfferLater.jsx:189-196 | Sets the name only. |
| OfferLetter.OfferForm.SetDate | src/pages/OfferLater.jsx:204-211 | Sets the date only. |
| OfferLetter.OfferForm.Draw | src/pages/OfferLater.jsx:168-174 | A stroke puts ink on the pad. |
| OfferLetter.OfferForm.ClearSignature | src/pages/OfferLater.jsx:14-16 | Wipes the pad; signed, name and date are untouched. |
| OfferLetter.OfferForm.SignOffer | src/pages/OfferLater.jsx:18-25 | Performs the Sign step. The alert is "accepted" iff all three fields are present, and otherwise the "complete all fields" alert. |
| OfferLetter.OfferForm.ButtonDisabled | src/pages/OfferLater.jsx:218-218 | The sign button is disabled iff the offer is signed. |

## Findings

| source | as written | input that shows it | evidently intended | confidence | as-written member | corrected member |
|---|---|---|---|---|---|---|
| src/pages/VerifyDocument.jsx:115 | `file.name` is read whenever a preview exists. The reader effect (lines 52-60) has no cleanup, so a load that finishes after Remove sets a preview while `file` is null. | Accept a file, click Remove before its reader finishes, then click Download | The name falls back to `'document'` whenever there is no usable name, including no file | medium, not executed | VerifyDocument.StaleReadCrashesDownload (on VerifyDocument.DownloadAsWritten) | VerifyDocument.DownloadName (used by VerifyDocument.UploadScreen.HandleDownload) |

## Left out

- VerifyDocument.UploadScreen.HandleDownload: it uses the corrected, null-safe name (see Findings). It returns the name instead of creating and clicking a DOM link.
- The preview's content: the `FileReader` data URL is an opaque string parameter. The DOM download link and the Fullscreen API (`toggleFullscreen`) are browser I/O.
- Real time: the 200 ms interval and the one-second reply timer are explicit events. The interval clearing itself at 100 is not state; a later tick would leave 100 unchanged anyway.
- Re-selecting the very same `File` object is treated like a new file, which starts a new reader and interval. React would skip the effects when `file` does not change identity.
- Zoom and Download buttons appear only with a preview, and Remove only with a file. The model lets these events happen in any state, which only widens what is proved.
- The candidate and document-type selects, the notes field, the document id, and Approve/Reject only set form values or raise alerts, so they are not modelled.
- The face detector and camera (MediaPipe) are a foreign library; the detection count is an input. The render between the detector result and the flag-syncing effect is folded into one step, so stale flags are not modelled.
- Message ids come from `Date.now()` and are a parameter. They are not unique, and no uniqueness is stated.
- Dashboard.ToLower: only ASCII letters are lower-cased. No other character lower-cases to a single letter of `signed`, `pending` or `missing` (U+212A becomes `k`; U+0130 becomes two characters), so the colour outcome is the same as JavaScript's `toLowerCase`.
- Floating-point displays: the size readout in MB, the progress-bar width from progress/totalSteps and the task percentages, and the zoom scale strings.
- The PDF export (`downloadPDF`, html2canvas and jsPDF) is a foreign rendering library. The signature pad is reduced to "has ink".
- OfferLetter.OfferForm.SignOffer: the disabled button cannot be clicked once signed, but the model allows Sign in any state; signed stays true either way.
- Alert texts are not modelled; `SignOffer` returns which of the two alerts is raised.
- src/components/chatBot.jsx (an HTTP call to a third-party text-generation API) and src/App.jsx (screen composition) are not part of this model.

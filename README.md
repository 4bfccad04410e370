# Note composer card: a Dafny model

This project models the interaction logic of the `NewNoteCard` component of a
small browser note-taking widget: the card in which a user types or dictates a
short note and hands it to the parent list through `onNoteCreated`.

The model has two modules.

- `Transcript` (`transcript.dfy`) is the pure part: the `reduce` that turns one
  speech-recognition event into text, written as the left fold the handler
  performs (`Transcription`). It is proved equal to an independent reference,
  the right-fold concatenation of the results' first alternatives (`Concat`).
  Lemmas give its length, how it splits over a split result list, where each
  result's text sits in it, and when it is empty.
- `NoteCard` (`new_note_card.dfy`) is the imperative part.
  - Class `NewNoteCard` holds the three `useState` variables
    `shouldShowOnboarding`, `isRecording` and `content`, plus an output log.
    The log records the toasts, the blocking alert and the calls of
    `onNoteCreated`. Each handler is a method with a `modifies` clause naming
    only what may change, and an `ensures` that gives the whole new state.
  - Class `ModuleScope` is the module-level `speechRecognition` reference that
    every card shares.
  - Class `SpeechRecognition` is a host dictation session. It keeps only
    `started`, `stopped` and the card its `onresult` callback writes to.
  - `Render` is the two render guards of the form. `Offers` says which
    interaction each rendered control allows.
  - Three client scenarios show what callers can prove from these contracts.
    They cover an unsupported browser, stop halting updates, and the session
    leak.

Whether the host offers dictation is a `bool` parameter of
`HandleStartRecording`. The host engine is reduced to
`SpeechRecognition.DeliverResults`. It passes an event's result list to the
callback only while the session is started and not stopped. This is an
assumption about the browser, not code of the component.

## Behaviour of the code worth knowing

- Starting dictation on a host without the speech API still enters the
  recording state: `isRecording` is set (line 45) before the API check
  (lines 48-54), so after the alert the card shows the textarea and the stop
  button. `UnsupportedBrowserScenario` proves that outcome.
- The mode is two independent booleans. Clearing the textarea while recording
  gives `shouldShowOnboarding && isRecording`, so the onboarding prompt and the
  stop button are shown together. `SecondRecordingLeaksScenario` reaches that
  state.
- A second recording replaces the shared reference without stopping the first
  session. After "stop", the first session is still live and still overwrites
  `content`. `SecondRecordingLeaksScenario` proves this too.

## Model

| member | source | states |
|---|---|---|
| `Transcript.TranscriptionIsConcat` | src/components/new-note-card.tsx:66-68 | the handler's left `reduce` equals the left-to-right concatenation of each result's first alternative; an empty result list gives `""` |
| `Transcript.TranscriptionLength` | src/components/new-note-card.tsx:66-68 | the transcript's length is the sum of the lengths of the first alternatives |
| `Transcript.TranscriptionAppend` | src/components/new-note-card.tsx:66-68 | the transcript of two concatenated result lists is the concatenation of their transcripts |
| `Transcript.TranscriptionSegment` | src/components/new-note-card.tsx:66-68 | result i's first alternative appears in the transcript right after the transcript of results 0..i-1 |
| `Transcript.TranscriptionEmpty` | src/components/new-note-card.tsx:66-70 | an event sets the content to `""` exactly when every result's first alternative is empty |
| `NoteCard.ModuleScope.constructor` | src/components/new-note-card.tsx:10 | the shared session reference starts out null |
| `NoteCard.SpeechRecognition.constructor` | src/components/new-note-card.tsx:58 | a new session is neither started nor stopped and has no result callback yet |
| `NoteCard.SpeechRecognition.Start` | src/components/new-note-card.tsx:77 | `start()` marks the session started and touches nothing else |
| `NoteCard.SpeechRecognition.Stop` | src/components/new-note-card.tsx:84 | `stop()` marks the session stopped and touches nothing else |
| `NoteCard.SpeechRecognition.DeliverResults` | src/components/new-note-card.tsx:65-71 | a live session's event replaces its card's content with the transcript; a stopped or unstarted session changes nothing; no other card field changes |
| `NoteCard.NewNoteCard.constructor` | src/components/new-note-card.tsx:13-15 | a card starts with the onboarding prompt, not recording, empty content and an empty log |
| `NoteCard.NewNoteCard.HandleStartEditor` | src/components/new-note-card.tsx:17-19 | sets `shouldShowOnboarding` to false and nothing else; calling it again changes nothing |
| `NoteCard.NewNoteCard.HandleContentChanged` | src/components/new-note-card.tsx:21-28 | content becomes the new value; the prompt returns if it is `""` and otherwise keeps its value; `isRecording` and the log are untouched |
| `NoteCard.NewNoteCard.HandleSaveNote` | src/components/new-note-card.tsx:30-41 | empty content: state unchanged, exactly one error toast, no `onNoteCreated` call; otherwise exactly one `onNoteCreated` call with the pre-save content, then one success toast, content `""`, prompt shown; `isRecording` untouched either way |
| `NoteCard.NewNoteCard.HandleStartRecording` | src/components/new-note-card.tsx:43-78 | always ends recording with the prompt hidden and content untouched; unsupported host: one alert and the reference unchanged; supported host: the reference is a fresh, started session wired to this card; the previous session is not stopped |
| `NoteCard.NewNoteCard.HandleTranscriptResult` | src/components/new-note-card.tsx:65-71 | content becomes the concatenation of the first alternatives, with length equal to the sum of their lengths; nothing else changes |
| `NoteCard.NewNoteCard.HandleStopRecording` | src/components/new-note-card.tsx:80-86 | `isRecording` becomes false; a referenced session is stopped, a null reference is left alone; content, prompt and the reference itself are untouched |
| `NoteCard.Render` | src/components/new-note-card.tsx:109-141 | the textarea, showing the content, exactly when the prompt is hidden; the save button exactly when not recording; the stop button exactly when recording |
| `NoteCard.HandlersOffered` | src/components/new-note-card.tsx:109-141 | save is reachable iff not recording, stop iff recording, typing iff the prompt is hidden, and the record and text buttons iff it is shown |
| `NoteCard.UnsupportedBrowserScenario` | src/components/new-note-card.tsx:43-54 | on an unsupported host, "record" leaves the card showing the textarea and the stop button, with one alert, no `onNoteCreated` call and no session |
| `NoteCard.StopHaltsUpdatesScenario` | src/components/new-note-card.tsx:80-86 | after record then stop, no event of the stopped session changes the content |
| `NoteCard.SecondRecordingLeaksScenario` | src/components/new-note-card.tsx:43-86 | typing and then clearing the text while recording shows the prompt with the stop button; recording again and stopping leaves the first session live, and it still overwrites the content |

## Left out

- The JSX layout, the class strings, the dialog primitive and the icon are rendering over libraries. Only the two render guards are modelled.
- The locale and options set on the session (lines 60-63) are engine configuration, not state of the card.
- The `onerror` handler (lines 73-75) only logs to the console.
- How toasts and the alert are presented is left out. Each is one entry in the output log, with the source's message text.
- React's asynchronous `setState` batching is replaced by atomic handlers. Each handler sees and updates the current state.
- `event.preventDefault()` (line 31) is a DOM side effect with no bearing on the state.
- The browser speech engine is left out: timing, interim-result revision, and results delivered after `stop()` returns. `DeliverResults` stands in for it and delivers only to a live session.
- How the host guarantees at least one alternative per result is not modelled. A result is a non-empty sequence of strings, so `result[0]` is always defined.
- The `SpeechRecognition` constructor takes no callback. The callback is assigned before `start()`, as on line 65.
- `src/main.tsx` only mounts the page and is not part of this model.

/** The note composer card (src/components/new-note-card.tsx): three pieces
    of component state, a dictation session shared through a module-level
    reference, five event handlers, the transcript callback and the render
    guards that decide which controls exist. Each handler is one atomic
    update; toasts, the blocking alert and the `onNoteCreated` callback are
    entries appended to an output log. */
module NoteCard {
  import opened Transcript

  const EmptyNoteMessage := "Note was not created, because it had no content."
  const NoteCreatedMessage := "Note created successfully"
  const UnsupportedBrowserMessage := "Unfortunately, your browser does not support the recording API."

  /** What the card makes visible outside itself. */
  datatype Output =
    | ErrorToast(message: string)
    | SuccessToast(message: string)
    | BrowserAlert(message: string)
    | NoteCreated(content: string)  // a call of the parent's `onNoteCreated`

  /** The arguments of every `onNoteCreated` call in a log, in order. */
  function CreatedNotes(outputs: seq<Output>): (notes: seq<string>)
    ensures (forall i :: 0 <= i < |outputs| ==> !outputs[i].NoteCreated?) ==> notes == []
  {
    if outputs == [] then []
    else (if outputs[0].NoteCreated? then [outputs[0].content] else []) + CreatedNotes(outputs[1..])
  }

  lemma {:induction false} CreatedNotesAppend(front: seq<Output>, back: seq<Output>)
    ensures CreatedNotes(front + back) == CreatedNotes(front) + CreatedNotes(back)
  {
    if front == [] {
      assert front + back == back;
    } else {
      assert (front + back)[1..] == front[1..] + back;
      CreatedNotesAppend(front[1..], back);
    }
  }

  /** The module-level `speechRecognition` variable, shared by every card. */
  class ModuleScope {
    var speechRecognition: SpeechRecognition?

    constructor ()
      ensures speechRecognition == null
    {
      speechRecognition := null;
    }
  }

  /** A host dictation session, reduced to whether it was started and
      stopped and which card its `onresult` callback writes to. */
  class SpeechRecognition {
    var started: bool
    var stopped: bool
    var onResult: NewNoteCard?

    constructor ()
      ensures !started && !stopped && onResult == null
    {
      started, stopped, onResult := false, false, null;
    }

    /** The host delivers results only between `start()` and `stop()`. */
    predicate Live()
      reads this
    {
      started && !stopped
    }

    method Start()
      modifies this`started
      ensures started
    {
      started := true;
    }

    method Stop()
      modifies this`stopped
      ensures stopped
    {
      stopped := true;
    }

    /** The host engine firing `onresult` with the event's result list: a
        live session hands it to its callback, a session that was never
        started or was stopped delivers nothing. */
    method DeliverResults(results: seq<SpeechRecognitionResult>)
      modifies onResult
      ensures onResult != null ==>
                onResult.shouldShowOnboarding == old(onResult.shouldShowOnboarding) &&
                onResult.isRecording == old(onResult.isRecording) &&
                onResult.outputs == old(onResult.outputs)
      ensures onResult != null && Live() ==> onResult.content == Transcription(results)
      ensures onResult != null && !Live() ==> onResult.content == old(onResult.content)
    {
      if Live() && onResult != null {
        onResult.HandleTranscriptResult(results);
      }
    }
  }

  /** The card's state: the three `useState` variables of lines 13-15, the
      output log, and the shared module scope. */
  class NewNoteCard {
    var shouldShowOnboarding: bool
    var isRecording: bool
    var content: string
    var outputs: seq<Output>
    const scope: ModuleScope

    constructor (scope: ModuleScope)
      ensures shouldShowOnboarding && !isRecording && content == "" && outputs == []
      ensures this.scope == scope
    {
      shouldShowOnboarding, isRecording, content, outputs := true, false, "", [];
      this.scope := scope;
    }

    /** What the card renders in its current state. */
    function View(): View
      reads this
    {
      Render(shouldShowOnboarding, isRecording, content)
    }

    /** "just use text": leave the onboarding prompt; a second call changes
        nothing. */
    method HandleStartEditor()
      modifies this`shouldShowOnboarding
      ensures !shouldShowOnboarding
      ensures old(!shouldShowOnboarding) ==> unchanged(this)
    {
      shouldShowOnboarding := false;
    }

    /** A keystroke in the textarea: the new value replaces the content and
        an emptied field brings the onboarding prompt back. */
    method HandleContentChanged(value: string)
      modifies this`content, this`shouldShowOnboarding
      ensures content == value
      ensures shouldShowOnboarding == (value == "" || old(shouldShowOnboarding))
    {
      content := value;
      if value == "" {
        shouldShowOnboarding := true;
      }
    }

    /** "Save note": an empty note is refused with one error toast; otherwise
        the parent receives the content exactly once and the draft resets. */
    method HandleSaveNote()
      modifies this`content, this`shouldShowOnboarding, this`outputs
      ensures old(content) == "" ==>
                content == old(content) && shouldShowOnboarding == old(shouldShowOnboarding) &&
                outputs == old(outputs) + [ErrorToast(EmptyNoteMessage)] &&
                CreatedNotes(outputs) == CreatedNotes(old(outputs))
      ensures old(content) != "" ==>
                content == "" && shouldShowOnboarding &&
                outputs == old(outputs) + [NoteCreated(old(content)), SuccessToast(NoteCreatedMessage)] &&
                CreatedNotes(outputs) == CreatedNotes(old(outputs)) + [old(content)]
    {
      if content == "" {
        CreatedNotesAppend(outputs, [ErrorToast(EmptyNoteMessage)]);
        outputs := outputs + [ErrorToast(EmptyNoteMessage)];
      } else {
        CreatedNotesAppend(outputs, [NoteCreated(content), SuccessToast(NoteCreatedMessage)]);
        outputs := outputs + [NoteCreated(content)];
        content := "";
        shouldShowOnboarding := true;
        outputs := outputs + [SuccessToast(NoteCreatedMessage)];
      }
    }

    /** "recording an audio note": the card enters the recording state before
        it asks the host whether dictation exists at all. Without it, one
        alert and no session; with it, a fresh started session replaces the
        shared reference, and the session it replaces is left running. */
    method HandleStartRecording(available: bool)
      modifies this`isRecording, this`shouldShowOnboarding, this`outputs, scope`speechRecognition
      ensures isRecording && !shouldShowOnboarding
      ensures !available ==>
                outputs == old(outputs) + [BrowserAlert(UnsupportedBrowserMessage)] &&
                scope.speechRecognition == old(scope.speechRecognition)
      ensures available ==>
                outputs == old(outputs) &&
                scope.speechRecognition != null && fresh(scope.speechRecognition) &&
                scope.speechRecognition.Live() && scope.speechRecognition.onResult == this
      ensures old(scope.speechRecognition) != null ==> unchanged(old(scope.speechRecognition))
    {
      isRecording := true;
      shouldShowOnboarding := false;
      if !available {
        outputs := outputs + [BrowserAlert(UnsupportedBrowserMessage)];
        return;
      }
      var recognition := new SpeechRecognition();
      scope.speechRecognition := recognition;
      recognition.onResult := this;
      recognition.Start();
    }

    /** The `onresult` callback: the transcript of the event replaces the
        content, whatever it was. */
    method HandleTranscriptResult(results: seq<SpeechRecognitionResult>)
      modifies this`content
      ensures content == Transcription(results)
      ensures content == Concat(FirstAlternatives(results))
      ensures |content| == TotalLength(FirstAlternatives(results))
    {
      content := Transcription(results);
      TranscriptionIsConcat(results);
      TranscriptionLength(results);
    }

    /** "Recording (Click to stop)": leave the recording state and stop the
        session the shared reference holds, if there is one. */
    method HandleStopRecording()
      modifies this`isRecording, scope.speechRecognition
      ensures !isRecording
      ensures scope.speechRecognition == old(scope.speechRecognition)
      ensures scope.speechRecognition != null ==>
                scope.speechRecognition.stopped && !scope.speechRecognition.Live() &&
                scope.speechRecognition.started == old(scope.speechRecognition.started) &&
                scope.speechRecognition.onResult == old(scope.speechRecognition.onResult)
    {
      isRecording := false;
      if scope.speechRecognition != null {
        scope.speechRecognition.Stop();
      }
    }
  }

  /** The upper half of the form: the onboarding prompt with its two buttons,
      or the textarea showing the content. */
  datatype Prompt = OnboardingPrompt | TextEditor(value: string)
  /** The button at the bottom of the form. */
  datatype Button = StopRecordingButton | SaveNoteButton
  datatype View = View(prompt: Prompt, button: Button)

  /** The two render guards of the form. */
  function Render(shouldShowOnboarding: bool, isRecording: bool, content: string): (view: View)
    ensures view.prompt.TextEditor? <==> !shouldShowOnboarding
    ensures view.prompt.TextEditor? ==> view.prompt.value == content
    ensures view.button == SaveNoteButton <==> !isRecording
    ensures view.button == StopRecordingButton <==> isRecording
  {
    View(if shouldShowOnboarding then OnboardingPrompt else TextEditor(content),
         if isRecording then StopRecordingButton else SaveNoteButton)
  }

  /** A user interaction with one of the rendered controls. */
  datatype Interaction = ClickRecord | ClickUseText | Edit(value: string) | ClickStop | ClickSave

  /** Whether a view holds the control that produces an interaction. */
  predicate Offers(view: View, interaction: Interaction)
  {
    match interaction
    case ClickRecord => view.prompt == OnboardingPrompt
    case ClickUseText => view.prompt == OnboardingPrompt
    case Edit(_) => view.prompt.TextEditor?
    case ClickStop => view.button == StopRecordingButton
    case ClickSave => view.button == SaveNoteButton
  }

  /** Which handlers the user can reach in each state: save exactly when not
      recording, stop exactly when recording, typing exactly when the
      onboarding prompt is hidden, and the two prompt buttons exactly when it
      is shown. */
  lemma HandlersOffered(shouldShowOnboarding: bool, isRecording: bool, content: string, value: string)
    ensures var view := Render(shouldShowOnboarding, isRecording, content);
            (Offers(view, ClickSave) <==> !isRecording) &&
            (Offers(view, ClickStop) <==> isRecording) &&
            (Offers(view, Edit(value)) <==> !shouldShowOnboarding) &&
            (Offers(view, ClickRecord) <==> shouldShowOnboarding) &&
            (Offers(view, ClickUseText) <==> shouldShowOnboarding)
  {
  }

  /** On a host without dictation, clicking "record" still switches the card
      to the recording controls: the textarea and the stop button show, one
      alert is raised and no session exists. */
  method UnsupportedBrowserScenario() returns (view: View, outputs: seq<Output>, hasSession: bool)
    ensures view == View(TextEditor(""), StopRecordingButton)
    ensures outputs == [BrowserAlert(UnsupportedBrowserMessage)] && CreatedNotes(outputs) == []
    ensures !hasSession
  {
    var scope := new ModuleScope();
    var card := new NewNoteCard(scope);
    assert Offers(card.View(), ClickRecord);
    card.HandleStartRecording(false);
    view, outputs, hasSession := card.View(), card.outputs, scope.speechRecognition != null;
  }

  /** Once the stop button is clicked, the stopped session's results no
      longer reach the card. */
  method StopHaltsUpdatesScenario(results: seq<SpeechRecognitionResult>) returns (content: string, isRecording: bool)
    ensures content == "" && !isRecording
  {
    var scope := new ModuleScope();
    var card := new NewNoteCard(scope);
    card.HandleStartRecording(true);
    var session := scope.speechRecognition;
    assert Offers(card.View(), ClickStop);
    card.HandleStopRecording();
    session.DeliverResults(results);
    content, isRecording := card.content, card.isRecording;
  }

  /** Clearing the textarea while recording brings the onboarding prompt back
      beside the stop button; recording again from there replaces the shared
      reference without stopping the first session, so after "stop" the first
      session is still live and still writes the card's content. */
  method SecondRecordingLeaksScenario() returns (promptAndStop: bool, leakedLive: bool, content: string, isRecording: bool)
    ensures promptAndStop && leakedLive
    ensures content == "hello" && !isRecording
  {
    var scope := new ModuleScope();
    var card := new NewNoteCard(scope);
    card.HandleStartRecording(true);
    var first := scope.speechRecognition;
    assert Offers(card.View(), Edit("a"));
    card.HandleContentChanged("a");
    assert Offers(card.View(), Edit(""));
    card.HandleContentChanged("");
    promptAndStop := card.View() == View(OnboardingPrompt, StopRecordingButton);
    assert Offers(card.View(), ClickRecord);
    card.HandleStartRecording(true);
    assert Offers(card.View(), ClickStop);
    card.HandleStopRecording();
    leakedLive := first.Live();
    assert Transcription([["hello"]]) == "hello" by {
      assert [["hello"]][..0] == [];
    }
    first.DeliverResults([["hello"]]);
    content, isRecording := card.content, card.isRecording;
  }
}

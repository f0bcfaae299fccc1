/**
 * The home screen (MainActivity): its three-keyword command chain, the
 * first-launch welcome, the welcome-back on return from a feature, the
 * re-listen after every utterance and the one-minute inactivity reminder.
 */
module Home {
  import opened Wrappers
  import opened Text
  import opened Lexicon
  import opened Effects

  datatype HomeCommand = OpenClass | OpenTranscribe | OpenBraille | NotUnderstood

  /** `handleVoiceCommand`'s `when` chain, branch by branch. */
  function Classify(command: string): HomeCommand {
    if Contains(command, "class") then OpenClass
    else if Contains(command, "transcribe") then OpenTranscribe
    else if Contains(command, "braille") then OpenBraille
    else NotUnderstood
  }

  /** The same vocabulary as an ordered lexicon. */
  const HomeLexicon: seq<Entry<HomeCommand>> := [
    Entry(OpenClass, ["class"]),
    Entry(OpenTranscribe, ["transcribe"]),
    Entry(OpenBraille, ["braille"])
  ]

  lemma LexiconWellFormed()
    ensures WellFormed(HomeLexicon)
  {
  }

  /** The chain is first-match resolution over the lexicon, in declared order. */
  lemma ClassifyIsFirstMatch(command: string)
    ensures Classify(command) == Resolve(HomeLexicon, command, NotUnderstood)
  {
    assert Matches(HomeLexicon[0], command) <==> Contains(command, "class");
    assert Matches(HomeLexicon[1], command) <==> Contains(command, "transcribe");
    assert Matches(HomeLexicon[2], command) <==> Contains(command, "braille");
  }

  const WelcomeText := "Welcome to EduNav home screen. " +
    "Use the first button to navigate to Class, second button to Transcribe a lecture, " +
    "and third button to access Braille tutorials. You can also use your voice to navigate."
  const WelcomeBackText := "Welcome back to the EduNav Home screen."
  const ReminderText := "Are you still there? You can use buttons or your voice to navigate the app."
  const NotUnderstoodText := "Sorry, I didnâ€™t understand that. Please try again."
  const FarewellText := "Thank you for using EduNav. Have a great day."

  /** `resetInactivityTimer`: drop any queued reminder, then queue a fresh one. */
  const ResetTimer: seq<Action> := [CancelReminder, Post(ReminderTask)]

  /** What `handleVoiceCommand` does for each command, ending with the timer reset. */
  function Respond(cmd: HomeCommand): seq<Action> {
    match cmd
    case OpenClass =>
      [Speak("Navigating to Class", None, Flush), CancelReminder, Navigate(ClassNav)] + ResetTimer
    case OpenTranscribe =>
      [Speak("Starting lecture transcription", None, Flush), CancelReminder, Navigate(Transcribe)] + ResetTimer
    case OpenBraille =>
      [Speak("Opening Braille Tutorials", None, Flush), CancelReminder, Navigate(Tutorials)] + ResetTimer
    case NotUnderstood =>
      [Speak(NotUnderstoodText, None, Flush), Post(ListenTask)] + ResetTimer
  }

  /** Class is tested first, so a phrase naming two features goes to Class. */
  lemma ClassBeforeTranscribe()
    ensures Classify("transcribe class") == OpenClass
  {
    ContainsAt("transcribe class", "class", 11);
  }

  /**
   * A command navigates exactly when some keyword occurs in it; otherwise it is
   * answered with the apology and a re-listen, and never both.
   */
  lemma NavigatesIffRecognised(command: string)
    ensures Navigates(Respond(Classify(command))) <==> FirstMatch(HomeLexicon, command).Some?
    ensures SchedulesListen(Respond(Classify(command))) <==> FirstMatch(HomeLexicon, command) == None
  {
    ClassifyIsFirstMatch(command);
    var acts := Respond(Classify(command));
    if Classify(command) == NotUnderstood {
      assert forall i :: 0 <= i < |acts| ==> !acts[i].Navigate?;
    } else {
      assert acts[2].Navigate?;
      assert forall i :: 0 <= i < |acts| ==> acts[i] != Post(ListenTask);
    }
  }

  /** Silence (the empty text) is not understood: apology, re-listen, no navigation. */
  lemma EmptyIsNotUnderstood()
    ensures Classify("") == NotUnderstood
    ensures SchedulesListen(Respond(Classify(""))) && !Navigates(Respond(Classify("")))
  {
    NavigatesIffRecognised("");
    ClassifyIsFirstMatch("");
  }

  /** Every navigating branch cancels the reminder before it launches the feature. */
  lemma CancelBeforeLaunch(cmd: HomeCommand)
    requires cmd != NotUnderstood
    ensures Respond(cmd)[1] == CancelReminder && Respond(cmd)[2].Navigate?
    ensures forall i :: 0 <= i < 1 ==> !Respond(cmd)[i].Navigate?
  {
  }

  /** Whatever the command, exactly one reminder is queued afterwards. */
  lemma RespondRearmsTimer(pending: nat, cmd: HomeCommand)
    ensures PendingReminders(pending, Respond(cmd)) == 1
    ensures Respond(cmd)[|Respond(cmd)| - 2..] == ResetTimer
  {
    var acts := Respond(cmd);
    var body := acts[..|acts| - 2];
    assert acts == body + ResetTimer;
    PendingRemindersAppend(pending, body, ResetTimer);
  }

  /** `speakOnLaunch`'s utterance: flushed on the first launch, queued afterwards. */
  function LaunchWelcome(hasWelcomed: bool): (a: Action)
    ensures a.Speak? && a.text == WelcomeText && a.utterance == Some("WELCOME_MSG")
    ensures a.mode == Flush <==> !hasWelcomed
  {
    Speak(WelcomeText, Some("WELCOME_MSG"), if hasWelcomed then Add else Flush)
  }

  /** The home activity's mutable state. */
  class HomeScreen {
    var hasWelcomed: bool      // the "hasWelcomed" preference
    var fromFeature: bool      // the "fromFeature" extra of the activity's intent
    var ttsReady: bool         // the utterance listener has been installed
    var pendingReminders: nat  // inactivity runnables queued on the handler

    /** At most one reminder is ever queued. */
    ghost predicate Valid()
      reads this
    {
      pendingReminders <= 1
    }

    /** `onCreate`, with the stored preference and nothing queued yet. */
    constructor (storedHasWelcomed: bool)
      ensures Valid()
      ensures hasWelcomed == storedHasWelcomed && !fromFeature && !ttsReady && pendingReminders == 0
    {
      hasWelcomed := storedHasWelcomed;
      fromFeature := false;
      ttsReady := false;
      pendingReminders := 0;
    }

    /** `resetInactivityTimer`. */
    method ResetInactivityTimer() returns (acts: seq<Action>)
      requires Valid()
      modifies this`pendingReminders
      ensures Valid()
      ensures acts == ResetTimer
      ensures pendingReminders == PendingReminders(old(pendingReminders), acts) == 1
    {
      acts := ResetTimer;
      pendingReminders := 0;
      pendingReminders := pendingReminders + 1;
    }

    /** `handleVoiceCommand`. */
    method HandleVoiceCommand(command: string) returns (acts: seq<Action>)
      requires Valid()
      modifies this`pendingReminders
      ensures Valid()
      ensures acts == Respond(Classify(command))
      ensures pendingReminders == PendingReminders(old(pendingReminders), acts) == 1
    {
      acts := Respond(Classify(command));
      RespondRearmsTimer(pendingReminders, Classify(command));
      var reset := ResetInactivityTimer();
    }

    /** The recogniser's result: only an OK result with data is handled; anything else is ignored. */
    method OnRecognizerResult(r: RecognizerResult) returns (acts: seq<Action>)
      requires Valid()
      modifies this`pendingReminders
      ensures Valid()
      ensures SpokenText(r).None? ==> acts == [] && pendingReminders == old(pendingReminders)
      ensures SpokenText(r).Some? ==>
                acts == Respond(Classify(SpokenText(r).value)) && pendingReminders == 1
    {
      match SpokenText(r)
      case None =>
        acts := [];
      case Some(text) =>
        acts := HandleVoiceCommand(text);
    }

    /** `speakOnLaunch`: the preference is set once the first welcome has been spoken. */
    method SpeakOnLaunch() returns (acts: seq<Action>)
      modifies this`hasWelcomed
      ensures acts == [LaunchWelcome(old(hasWelcomed))]
      ensures hasWelcomed
    {
      acts := [LaunchWelcome(hasWelcomed)];
      if !hasWelcomed {
        hasWelcomed := true;
      }
    }

    /** The engine's init callback: on success, set the language, install the listener, welcome, arm the timer. */
    method OnInit(success: bool, languagePref: Option<string>) returns (acts: seq<Action>)
      requires Valid()
      modifies this`hasWelcomed, this`ttsReady, this`pendingReminders
      ensures Valid()
      ensures !success ==> acts == [] && unchanged(this)
      ensures success ==> ttsReady && hasWelcomed && pendingReminders == 1
      ensures success ==>
                acts == [SetVoiceLanguage(Locale(languagePref.GetOr("en"))), LaunchWelcome(old(hasWelcomed))] + ResetTimer
    {
      if success {
        ttsReady := true;
        var welcome := SpeakOnLaunch();
        var reset := ResetInactivityTimer();
        acts := [SetVoiceLanguage(Locale(languagePref.GetOr("en")))] + welcome + reset;
      } else {
        acts := [];
      }
    }

    /** A finished feature reports back; RESULT_OK marks the intent. */
    method OnFeatureResult(resultOk: bool)
      modifies this`fromFeature
      ensures fromFeature == (resultOk || old(fromFeature))
    {
      if resultOk {
        fromFeature := true;
      }
    }

    /** `onResume`: welcome back once per return, then re-arm the timer. */
    method OnResume() returns (acts: seq<Action>)
      requires Valid()
      modifies this`fromFeature, this`pendingReminders
      ensures Valid()
      ensures !fromFeature && pendingReminders == 1
      ensures acts == (if old(fromFeature) then [Speak(WelcomeBackText, None, Add)] else []) + ResetTimer
    {
      var greeting: seq<Action> := [];
      if fromFeature {
        greeting := [Speak(WelcomeBackText, None, Add)];
        fromFeature := false;
      }
      var reset := ResetInactivityTimer();
      acts := greeting + reset;
    }

    /** `onDone`: whatever utterance finished, listen again. */
    method OnUtteranceDone(utterance: Option<string>) returns (acts: seq<Action>)
      ensures acts == if ttsReady then [Post(ListenTask)] else []
      ensures PendingReminders(pendingReminders, acts) == pendingReminders
    {
      acts := if ttsReady then [Post(ListenTask)] else [];
      PendingRemindersUntouched(pendingReminders, acts);
    }

    /** A queued `startListening` closure runs; the reminder is left as it is. */
    method RunListenTask() returns (acts: seq<Action>)
      ensures acts == [Listen]
      ensures PendingReminders(pendingReminders, acts) == pendingReminders
    {
      acts := [Listen];
      PendingRemindersUntouched(pendingReminders, acts);
    }

    /** The queued reminder runs; it does not re-arm itself. */
    method RunReminder() returns (acts: seq<Action>)
      requires Valid() && pendingReminders > 0
      modifies this`pendingReminders
      ensures Valid() && pendingReminders == old(pendingReminders) - 1 == 0
      ensures acts == [Speak(ReminderText, Some("IDLE_REMINDER"), Flush)]
    {
      pendingReminders := pendingReminders - 1;
      acts := [Speak(ReminderText, Some("IDLE_REMINDER"), Flush)];
    }

    /** `onDestroy`: say goodbye and drop the reminder. */
    method OnDestroy() returns (acts: seq<Action>)
      requires Valid()
      modifies this`pendingReminders
      ensures Valid() && pendingReminders == 0
      ensures acts == [Speak(FarewellText, None, Flush), CancelReminder]
    {
      acts := [Speak(FarewellText, None, Flush), CancelReminder];
      pendingReminders := 0;
    }
  }
}

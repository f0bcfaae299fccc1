/**
 * The class-navigation screen (ClassActivity): a three-command chain, the
 * language preference mapped to a voice locale, and a progress listener that
 * re-listens only after the welcome and the retry prompts.
 */
module ClassNav {
  import opened Wrappers
  import opened Text
  import opened Lexicon
  import opened Effects

  datatype ClassCommand = GoBack | OpenTutorials | OpenTranscribe | NotUnderstood

  /** `handleVoiceCommand`'s `when` chain, branch by branch. */
  function Classify(command: string): ClassCommand {
    if Contains(command, "back") || Contains(command, "home") then GoBack
    else if Contains(command, "tutorial") || Contains(command, "braille") then OpenTutorials
    else if Contains(command, "transcribe") || Contains(command, "lecture") then OpenTranscribe
    else NotUnderstood
  }

  const ClassLexicon: seq<Entry<ClassCommand>> := [
    Entry(GoBack, ["back", "home"]),
    Entry(OpenTutorials, ["tutorial", "braille"]),
    Entry(OpenTranscribe, ["transcribe", "lecture"])
  ]

  lemma LexiconWellFormed()
    ensures WellFormed(ClassLexicon)
  {
  }

  /** The chain is first-match resolution over the lexicon, in declared order. */
  lemma ClassifyIsFirstMatch(command: string)
    ensures Classify(command) == Resolve(ClassLexicon, command, NotUnderstood)
  {
    var lex := ClassLexicon;
    assert Matches(lex[0], command) <==> Contains(command, "back") || Contains(command, "home");
    assert Matches(lex[1], command) <==> Contains(command, "tutorial") || Contains(command, "braille");
    assert Matches(lex[2], command) <==> Contains(command, "transcribe") || Contains(command, "lecture");
  }

  /** Back is tested first, so "back to lecture" goes back. */
  lemma BackBeforeLecture()
    ensures Classify("back to lecture") == GoBack
  {
    ContainsAt("back to lecture", "back", 0);
  }

  /** The languages with a voice of their own; the rest fall back to English. */
  const SupportedLanguages: set<string> := {"fr", "sw", "es"}

  /** `onCreate`'s `when (languageCode)`: total, and English for any other code. */
  function LocaleFor(languageCode: string): (l: Locale)
    ensures languageCode in SupportedLanguages ==> l == Locale(languageCode)
    ensures languageCode !in SupportedLanguages ==> l == Locale("en")
    ensures l.language in SupportedLanguages + {"en"}
  {
    match languageCode
    case "fr" => Locale("fr")
    case "sw" => Locale("sw")
    case "es" => Locale("es")
    case _ => Locale("en")
  }

  const WelcomeText := "Welcome to the Navigation section. This page helps you navigate to class. " +
    "Please be aware of your surroundings while moving. " +
    "You can say Back, Open Tutorials, or Transcribe Lecture."
  const RetryText := "Sorry, I didn’t catch that. Please say it again."
  const NotUnderstoodText := "Sorry, I didn’t understand that. Please say it again."

  /** The progress listener's rule: only these two utterances lead to listening. */
  predicate RelistensAfter(utterance: Option<string>) {
    utterance == Some("WELCOME") || utterance == Some("RETRY")
  }

  /** A command's confirmation: its text and its utterance id. */
  function Confirmation(cmd: ClassCommand): (said: (string, string)) {
    match cmd
    case GoBack => ("Returning home.", "NONE")
    case OpenTutorials => ("Opening Braille Tutorials.", "NONE")
    case OpenTranscribe => ("Opening transcription page.", "NONE")
    case NotUnderstood => (NotUnderstoodText, "RETRY")
  }

  /** What follows a command besides speaking: finish, start an activity, or nothing. */
  function Follows(cmd: ClassCommand): seq<Action> {
    match cmd
    case GoBack => [Finish]
    case OpenTutorials => [Navigate(Tutorials)]
    case OpenTranscribe => [Navigate(Transcribe)]
    case NotUnderstood => []
  }

  /**
   * Only the back branch finishes the screen; the tutorial and transcribe
   * branches start their target and leave this screen on the stack; only a
   * command not understood is followed by listening again.
   */
  lemma CommandOutcomes(cmd: ClassCommand)
    ensures Finish in Follows(cmd) <==> cmd == GoBack
    ensures Navigates(Follows(cmd)) <==> cmd == OpenTutorials || cmd == OpenTranscribe
    ensures RelistensAfter(Some(Confirmation(cmd).1)) <==> cmd == NotUnderstood
  {
    if cmd == OpenTutorials || cmd == OpenTranscribe {
      assert Follows(cmd)[0].Navigate?;
    }
  }

  /** The class activity's mutable state. */
  class ClassScreen {
    var ttsInitialized: bool      // `::tts.isInitialized`
    var listenerInstalled: bool   // `speak` has registered the progress listener
    var locale: Option<Locale>    // the `lateinit` locale, set in onCreate

    /** Before `onCreate`: no engine, no listener, no locale. */
    constructor ()
      ensures !ttsInitialized && !listenerInstalled && locale == None
    {
      ttsInitialized := false;
      listenerInstalled := false;
      locale := None;
    }

    /** `onCreate`: map the language preference and create the engine. */
    method OnCreate(languagePref: Option<string>)
      modifies this`locale, this`ttsInitialized
      ensures locale == Some(LocaleFor(languagePref.GetOr("en"))) && ttsInitialized
    {
      locale := Some(LocaleFor(languagePref.GetOr("en")));
      ttsInitialized := true;
    }

    /** `speak`: a no-op before the engine exists; otherwise flush and (re)install the listener. */
    method Speak(message: string, id: string) returns (acts: seq<Action>)
      modifies this`listenerInstalled
      ensures !ttsInitialized ==> acts == [] && listenerInstalled == old(listenerInstalled)
      ensures ttsInitialized ==> acts == [Action.Speak(message, Some(id), Flush)] && listenerInstalled
    {
      if !ttsInitialized {
        acts := [];
        return;
      }
      acts := [Action.Speak(message, Some(id), Flush)];
      listenerInstalled := true;
    }

    /** `onInit`: on success, set the voice language and speak the welcome. */
    method OnInit(success: bool) returns (acts: seq<Action>)
      requires locale.Some?
      modifies this`listenerInstalled
      ensures !success ==> acts == [] && listenerInstalled == old(listenerInstalled)
      ensures success && ttsInitialized ==>
                acts == [SetVoiceLanguage(locale.value), Action.Speak(WelcomeText, Some("WELCOME"), Flush)] &&
                listenerInstalled
      ensures success && !ttsInitialized ==> acts == [SetVoiceLanguage(locale.value)]
    {
      if success {
        var welcome := Speak(WelcomeText, "WELCOME");
        acts := [SetVoiceLanguage(locale.value)] + welcome;
      } else {
        acts := [];
      }
    }

    /** `onDone` of the installed listener. */
    method OnUtteranceDone(utterance: Option<string>) returns (acts: seq<Action>)
      ensures acts == if listenerInstalled && RelistensAfter(utterance) then [Listen] else []
    {
      acts := if listenerInstalled && RelistensAfter(utterance) then [Listen] else [];
    }

    /** `handleVoiceCommand`: speak the confirmation, then finish or start the target. */
    method HandleVoiceCommand(command: string) returns (acts: seq<Action>)
      modifies this`listenerInstalled
      ensures var said := Confirmation(Classify(command));
              acts == (if ttsInitialized then [Action.Speak(said.0, Some(said.1), Flush)] else []) +
                      Follows(Classify(command))
      ensures listenerInstalled == (old(listenerInstalled) || ttsInitialized)
    {
      var cmd := Classify(command);
      var said := Confirmation(cmd);
      var spoken := Speak(said.0, said.1);
      acts := spoken + Follows(cmd);
    }

    /** The recogniser's result: a failed result asks again under the RETRY id. */
    method OnRecognizerResult(r: RecognizerResult) returns (acts: seq<Action>)
      modifies this`listenerInstalled
      ensures SpokenText(r).None? ==>
                acts == (if ttsInitialized then [Action.Speak(RetryText, Some("RETRY"), Flush)] else [])
      ensures SpokenText(r).Some? ==>
                var said := Confirmation(Classify(SpokenText(r).value));
                acts == (if ttsInitialized then [Action.Speak(said.0, Some(said.1), Flush)] else []) +
                        Follows(Classify(SpokenText(r).value))
      ensures listenerInstalled == (old(listenerInstalled) || ttsInitialized)
    {
      match SpokenText(r)
      case None =>
        acts := Speak(RetryText, "RETRY");
      case Some(text) =>
        acts := HandleVoiceCommand(text);
    }
  }

  /** A failed recognition is spoken as RETRY, and its completion starts the next listen. */
  method FailedResultLeadsToListen(languagePref: Option<string>, r: RecognizerResult)
      returns (acts: seq<Action>)
    requires !r.resultOk
    ensures acts == [Action.Speak(RetryText, Some("RETRY"), Flush), Listen]
  {
    var screen := new ClassScreen();
    screen.OnCreate(languagePref);
    var asked := screen.OnRecognizerResult(r);
    var done := screen.OnUtteranceDone(asked[0].utterance);
    acts := asked + done;
  }
}

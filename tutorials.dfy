/**
 * The Braille tutorials screen (TutorialsActivity): a chain without a "home"
 * command, re-listening only after a failure, and the same language mapping
 * as the class screen.
 */
module Tutorials {
  import opened Wrappers
  import opened Text
  import opened Lexicon
  import opened Effects
  import ClassNav

  datatype TutorialsCommand = GoBack | OpenTutorials | StartRecording | NotUnderstood

  /** `handleVoiceCommand`'s `when` chain, branch by branch. */
  function Classify(command: string): TutorialsCommand {
    if Contains(command, "back") then GoBack
    else if Contains(command, "tutorial") || Contains(command, "braille") then OpenTutorials
    else if Contains(command, "transcribe") || Contains(command, "record") then StartRecording
    else NotUnderstood
  }

  const TutorialsLexicon: seq<Entry<TutorialsCommand>> := [
    Entry(GoBack, ["back"]),
    Entry(OpenTutorials, ["tutorial", "braille"]),
    Entry(StartRecording, ["transcribe", "record"])
  ]

  lemma LexiconWellFormed()
    ensures WellFormed(TutorialsLexicon)
  {
  }

  /** The chain is first-match resolution over the lexicon, in declared order. */
  lemma ClassifyIsFirstMatch(command: string)
    ensures Classify(command) == Resolve(TutorialsLexicon, command, NotUnderstood)
  {
    var lex := TutorialsLexicon;
    assert Matches(lex[0], command) <==> Contains(command, "back");
    assert Matches(lex[1], command) <==> Contains(command, "tutorial") || Contains(command, "braille");
    assert Matches(lex[2], command) <==> Contains(command, "transcribe") || Contains(command, "record");
  }

  /** Unlike the other screens, "home" is not a command here. */
  lemma HomeNotRecognised()
    ensures Classify("home") == NotUnderstood
  {
    CharOfContained("home", "back", 'b');
    CharOfContained("home", "tutorial", 't');
    CharOfContained("home", "braille", 'b');
    CharOfContained("home", "transcribe", 't');
    CharOfContained("home", "record", 'r');
  }

  /** The class screen reads "home" as going back; this screen does not. */
  lemma ScreensDisagreeOnHome()
    ensures ClassNav.Classify("home") == ClassNav.GoBack
    ensures Classify("home") == NotUnderstood
  {
    ContainsAt("home", "home", 0);
    HomeNotRecognised();
  }

  /** `onCreate`'s `when (languageCode)`, the same table as the class screen's. */
  function LocaleFor(languageCode: string): (l: Locale)
    ensures l == ClassNav.LocaleFor(languageCode)
  {
    match languageCode
    case "fr" => Locale("fr")
    case "sw" => Locale("sw")
    case "es" => Locale("es")
    case _ => Locale("en")
  }

  const WelcomeText := "Welcome to the Tutorials section. " +
    "Here, you can learn topics such as Alphabet and Numbers. " +
    "To begin, say the name of a topic. " +
    "To go back home, say Back."
  const NotUnderstoodText := "Sorry, I didn't understand. Please say Back, Braille, or Start Recording."
  const NotCaughtText := "I didn't catch that. Please try again."

  /** `speak`: flushed and untagged. */
  function Say(message: string): Action {
    Speak(message, None, Flush)
  }

  /** What `handleVoiceCommand` does for each command. */
  function Respond(cmd: TutorialsCommand): seq<Action> {
    match cmd
    case GoBack => [Say("Returning home."), Finish]
    case OpenTutorials => [Say("Opening Braille Tutorials."), Navigate(Tutorials)]
    case StartRecording => [Say("Starting transcription.")]
    case NotUnderstood => [Say(NotUnderstoodText), Post(ListenTask)]
  }

  /** The recogniser's result: a command, or a re-listen after a failure. */
  function OnRecognizerResult(r: RecognizerResult): seq<Action> {
    match SpokenText(r)
    case Some(text) => Respond(Classify(text))
    case None => [Say(NotCaughtText), Post(ListenTask)]
  }

  /** `onInit`: on success, set the voice language, welcome, and schedule one listen. */
  function OnInit(success: bool, locale: Locale): (acts: seq<Action>)
    ensures success ==> |acts| == 3 && acts[0] == SetVoiceLanguage(locale) && acts[1] == Say(WelcomeText) &&
                        acts[2] == Post(ListenTask)
    ensures !success ==> acts == []
  {
    if success then [SetVoiceLanguage(locale), Say(WelcomeText), Post(ListenTask)] else []
  }

  /**
   * Only an unrecognised command and a failed result schedule a re-listen;
   * a recognised command is never followed by listening again.
   */
  lemma RelistensOnlyAfterFailure(r: RecognizerResult)
    ensures SchedulesListen(OnRecognizerResult(r)) <==>
            SpokenText(r).None? || Classify(SpokenText(r).value) == NotUnderstood
  {
  }

  /** The same, in terms of the text: it re-listens exactly when no keyword occurs. */
  lemma RelistensIffNoKeyword(command: string)
    ensures SchedulesListen(Respond(Classify(command))) <==> FirstMatch(TutorialsLexicon, command) == None
  {
    ClassifyIsFirstMatch(command);
  }

  /** The transcribe/record branch only speaks: nothing is started or finished. */
  lemma RecordOnlySpeaks()
    ensures !Navigates(Respond(StartRecording)) && Finish !in Respond(StartRecording)
    ensures forall i :: 0 <= i < |Respond(StartRecording)| ==> Respond(StartRecording)[i].Speak?
  {
  }

  /** The screen's one field, set in `onCreate`. */
  class TutorialsScreen {
    var locale: Option<Locale>   // the `lateinit` locale

    constructor ()
      ensures locale == None
    {
      locale := None;
    }

    /** `onCreate`: map the language preference. */
    method OnCreate(languagePref: Option<string>)
      modifies this
      ensures locale == Some(LocaleFor(languagePref.GetOr("en")))
    {
      locale := Some(LocaleFor(languagePref.GetOr("en")));
    }

    /** `onInit`, with the locale chosen in `onCreate`. */
    method Init(success: bool) returns (acts: seq<Action>)
      requires locale.Some?
      ensures acts == OnInit(success, locale.value)
    {
      acts := OnInit(success, locale.value);
    }
  }
}

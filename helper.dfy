/**
 * The command helper (VoiceCommandHelper), which no screen calls: a five-command chain over
 * the lower-cased text, and the listener it installs, which answers an
 * unrecognised command with a "Listening" prompt and then calls the caller's
 * retry.
 */
module CommandHelper {
  import opened Wrappers
  import opened Text
  import opened Lexicon
  import opened Effects

  datatype HelperCommand = GoHome | OpenClass | OpenTutorial | OpenTranscribe | GoBack | NotUnderstood

  /** The `when` chain over `lowerText`, branch by branch. */
  function Classify(spokenText: string): HelperCommand {
    var lowerText := Lower(spokenText);
    if Contains(lowerText, "home") then GoHome
    else if Contains(lowerText, "class") then OpenClass
    else if Contains(lowerText, "braille") || Contains(lowerText, "tutorial") then OpenTutorial
    else if Contains(lowerText, "lecture") || Contains(lowerText, "transcribe") then OpenTranscribe
    else if Contains(lowerText, "back") then GoBack
    else NotUnderstood
  }

  const HelperLexicon: seq<Entry<HelperCommand>> := [
    Entry(GoHome, ["home"]),
    Entry(OpenClass, ["class"]),
    Entry(OpenTutorial, ["braille", "tutorial"]),
    Entry(OpenTranscribe, ["lecture", "transcribe"]),
    Entry(GoBack, ["back"])
  ]

  lemma LexiconWellFormed()
    ensures WellFormed(HelperLexicon)
  {
  }

  /** The chain is first-match resolution of the lower-cased text over the lexicon. */
  lemma ClassifyIsFirstMatch(spokenText: string)
    ensures Classify(spokenText) == Resolve(HelperLexicon, Lower(spokenText), NotUnderstood)
  {
    var lex, t := HelperLexicon, Lower(spokenText);
    assert Matches(lex[0], t) <==> Contains(t, "home");
    assert Matches(lex[1], t) <==> Contains(t, "class");
    assert Matches(lex[2], t) <==> Contains(t, "braille") || Contains(t, "tutorial");
    assert Matches(lex[3], t) <==> Contains(t, "lecture") || Contains(t, "transcribe");
    assert Matches(lex[4], t) <==> Contains(t, "back");
  }

  /** Letter case does not matter: texts with the same lower-cased form classify alike. */
  lemma CaseInsensitive(a: string, b: string)
    requires Lower(a) == Lower(b)
    ensures Classify(a) == Classify(b)
  {
  }

  /** In particular a text classifies like its own lower-cased form. */
  lemma ClassifyOfLower(spokenText: string)
    ensures Classify(Lower(spokenText)) == Classify(spokenText)
  {
    LowerIsLowerCase(spokenText);
    CaseInsensitive(Lower(spokenText), spokenText);
  }

  /** A text whose lower-cased form mentions "home" goes home, whatever else it says. */
  lemma HomeWins(s: string)
    requires Contains(Lower(s), "home")
    ensures Classify(s) == GoHome
  {
  }

  /** A text without "home" that mentions "class" opens the class screen. */
  lemma ClassWinsWithoutHome(s: string)
    requires !Contains(Lower(s), "home") && Contains(Lower(s), "class")
    ensures Classify(s) == OpenClass
  {
  }

  /** Home is tested before back: "go back home" goes home. */
  lemma HomeBeforeBack(s: string)
    requires s == "go back home"
    ensures Classify(s) == GoHome
  {
    LowerOfLowerCase(s);
    ContainsAt(s, "home", 8);
    HomeWins(s);
  }

  /** Class is tested before back: "back to class" opens the class screen. */
  lemma ClassBeforeBack(s: string)
    requires s == "back to class"
    ensures Classify(s) == OpenClass
  {
    LowerOfLowerCase(s);
    CharOfContained(s, "home", 'h');
    ContainsAt(s, "class", 8);
    ClassWinsWithoutHome(s);
  }

  const NotUnderstoodText := "Sorry, I didn't understand the command. Please say it again."

  /**
   * What `handleCommand` does: each navigation starts its target and, when
   * called from an activity, finishes it; back only finishes; anything else
   * apologises under the UNRECOGNIZED id.
   */
  function Respond(cmd: HelperCommand, contextIsActivity: bool): seq<Action> {
    var finish := if contextIsActivity then [Finish] else [];
    match cmd
    case GoHome => [Speak("Navigating  to home screen", None, Flush), Navigate(Home)] + finish
    case OpenClass => [Speak("Opening class section", None, Flush), Navigate(ClassNav)] + finish
    case OpenTutorial => [Speak("Opening braille tutorial", None, Flush), Navigate(Tutorials)] + finish
    case OpenTranscribe => [Speak("Opening transcription page", None, Flush), Navigate(Transcribe)] + finish
    case GoBack => [Speak("Going back", None, Flush)] + finish
    case NotUnderstood => [Speak(NotUnderstoodText, Some("UNRECOGNIZED"), Flush)]
  }

  /** The screen each navigating command starts. */
  function Target(cmd: HelperCommand): Option<Screen> {
    match cmd
    case GoHome => Some(Home)
    case OpenClass => Some(ClassNav)
    case OpenTutorial => Some(Tutorials)
    case OpenTranscribe => Some(Transcribe)
    case _ => None
  }

  /**
   * Navigation branches start their target then finish; back only finishes;
   * and only the unrecognised branch tags its utterance.
   */
  lemma RespondShape(cmd: HelperCommand, contextIsActivity: bool)
    ensures var acts := Respond(cmd, contextIsActivity);
            acts[0].Speak? && acts[0].mode == Flush &&
            (acts[0].utterance.Some? <==> cmd == NotUnderstood) &&
            (Target(cmd).Some? ==> acts[1] == Navigate(Target(cmd).value)) &&
            (Navigates(acts) <==> Target(cmd).Some?) &&
            (Finish in acts <==> contextIsActivity && cmd != NotUnderstood)
  {
    var acts := Respond(cmd, contextIsActivity);
    if Target(cmd).Some? {
      assert acts[1].Navigate?;
    } else {
      assert forall i :: 0 <= i < |acts| ==> !acts[i].Navigate?;
    }
  }

  /** The installed listener's `onDone`: the two steps of the unrecognised-command chain. */
  function OnDone(utterance: Option<string>): (acts: seq<Action>) {
    if utterance == Some("UNRECOGNIZED") then [Post(PromptTask)]
    else if utterance == Some("LISTENING_PROMPT") then [InvokeRetry]
    else []
  }

  /** The posted prompt closure runs. */
  const Prompt: Action := Speak("Listening", Some("LISTENING_PROMPT"), Flush)

  /**
   * The unrecognised apology is followed by the "Listening" prompt, and the
   * prompt's completion, and only that, calls `retry`.
   */
  lemma RetryChain(utterance: Option<string>)
    ensures OnDone(Respond(NotUnderstood, true)[0].utterance) == [Post(PromptTask)]
    ensures OnDone(Prompt.utterance) == [InvokeRetry]
    ensures InvokeRetry in OnDone(utterance) <==> utterance == Some("LISTENING_PROMPT")
    ensures OnDone(utterance) != [] <==>
            utterance == Some("UNRECOGNIZED") || utterance == Some("LISTENING_PROMPT")
  {
  }

  /** Confirmations of recognised commands carry no id, so they end the chain. */
  lemma RecognisedEndsChain(cmd: HelperCommand, contextIsActivity: bool)
    requires cmd != NotUnderstood
    ensures OnDone(Respond(cmd, contextIsActivity)[0].utterance) == []
  {
  }

  /** The progress listener registered on the engine passed in. */
  datatype Listener = ScreenListener | HelperListener

  /** The speech engine a caller would pass to the helper. */
  class SpeechEngine {
    var listener: Listener

    constructor ()
      ensures listener == ScreenListener
    {
      listener := ScreenListener;
    }

    /** `onDone`: the helper's rule once it is installed; `None` leaves it to the screen's own listener. */
    method UtteranceDone(utterance: Option<string>) returns (acts: Option<seq<Action>>)
      ensures listener == HelperListener ==> acts == Some(OnDone(utterance))
      ensures listener == ScreenListener ==> acts == None
    {
      acts := if listener == HelperListener then Some(OnDone(utterance)) else None;
    }
  }

  /** `handleCommand`: replace the engine's listener, then act on the command. */
  method HandleCommand(engine: SpeechEngine, spokenText: string, contextIsActivity: bool)
      returns (acts: seq<Action>)
    modifies engine
    ensures engine.listener == HelperListener
    ensures acts == Respond(Classify(spokenText), contextIsActivity)
  {
    engine.listener := HelperListener;
    acts := Respond(Classify(spokenText), contextIsActivity);
  }

  /** The posted prompt closure runs on the same engine. */
  method RunPrompt() returns (acts: seq<Action>)
    ensures acts == [Prompt]
  {
    acts := [Prompt];
  }
}

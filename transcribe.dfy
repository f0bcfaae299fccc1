/**
 * The transcription screen (TranscribeActivity): a session that is either
 * transcribing (every recognised phrase is appended to the transcript) or
 * waiting for a command (recognised phrases go to the command chain).
 */
module Transcribe {
  import opened Wrappers
  import opened Text
  import opened Lexicon
  import opened Effects

  datatype TranscribeCommand = Start | Stop | OpenTutorials | GoBack | Blank | NotUnderstood

  /** `handleVoiceCommand`'s `when` chain, branch by branch. */
  function Classify(command: string): TranscribeCommand {
    if Contains(command, "start transcribe") || Contains(command, "start transcription") ||
       Contains(command, "begin lecture") || Contains(command, "start lecture") then Start
    else if Contains(command, "stop transcription") || Contains(command, "stop transcribe") ||
            Contains(command, "stop lecture") then Stop
    else if Contains(command, "open tutorial") || Contains(command, "open tutorials") ||
            Contains(command, "tutorials") then OpenTutorials
    else if Contains(command, "back") || Contains(command, "home") then GoBack
    else if IsBlank(command) then Blank
    else NotUnderstood
  }

  /** The keyword branches of the chain as an ordered lexicon. */
  const TranscribeLexicon: seq<Entry<TranscribeCommand>> := [
    Entry(Start, ["start transcribe", "start transcription", "begin lecture", "start lecture"]),
    Entry(Stop, ["stop transcription", "stop transcribe", "stop lecture"]),
    Entry(OpenTutorials, ["open tutorial", "open tutorials", "tutorials"]),
    Entry(GoBack, ["back", "home"])
  ]

  lemma LexiconWellFormed()
    ensures WellFormed(TranscribeLexicon)
  {
  }

  /**
   * The chain is first-match resolution over the lexicon; text matching no
   * keyword is told apart as blank or not understood.
   */
  lemma ClassifyIsFirstMatch(command: string)
    ensures Classify(command) ==
            match FirstMatch(TranscribeLexicon, command)
            case Some(c) => c
            case None => if IsBlank(command) then Blank else NotUnderstood
  {
    var lex := TranscribeLexicon;
    assert Matches(lex[0], command) <==>
      Contains(command, "start transcribe") || Contains(command, "start transcription") ||
      Contains(command, "begin lecture") || Contains(command, "start lecture");
    assert Matches(lex[1], command) <==>
      Contains(command, "stop transcription") || Contains(command, "stop transcribe") ||
      Contains(command, "stop lecture");
    assert Matches(lex[2], command) <==>
      Contains(command, "open tutorial") || Contains(command, "open tutorials") ||
      Contains(command, "tutorials");
    assert Matches(lex[3], command) <==> Contains(command, "back") || Contains(command, "home");
  }

  /** A blank command reaches the blank branch: no keyword can occur in it. */
  lemma BlankIsBlank(command: string)
    requires IsBlank(command)
    ensures Classify(command) == Blank
  {
    BlankContainsNoWord(command, "start transcribe", 's');
    BlankContainsNoWord(command, "start transcription", 's');
    BlankContainsNoWord(command, "begin lecture", 'b');
    BlankContainsNoWord(command, "start lecture", 's');
    BlankContainsNoWord(command, "stop transcription", 's');
    BlankContainsNoWord(command, "stop transcribe", 's');
    BlankContainsNoWord(command, "stop lecture", 's');
    BlankContainsNoWord(command, "open tutorial", 'o');
    BlankContainsNoWord(command, "open tutorials", 'o');
    BlankContainsNoWord(command, "tutorials", 't');
    BlankContainsNoWord(command, "back", 'b');
    BlankContainsNoWord(command, "home", 'h');
  }

  /** Start is tested before back, so "start lecture and go back" starts a session. */
  lemma StartBeforeBack()
    ensures Classify("start lecture and go back") == Start
  {
    ContainsAt("start lecture and go back", "start lecture", 0);
  }

  /**
   * `speak`: always flushes, and always tags the utterance, drawing a fresh
   * id (a random UUID, here a parameter) when none is given.
   */
  function SpeakAction(text: string, utterance: Option<string>, freshId: string): (a: Action)
    ensures a.Speak? && a.text == text && a.mode == Flush && a.utterance.Some?
    ensures utterance.Some? ==> a.utterance == utterance
    ensures utterance.None? ==> a.utterance == Some(freshId)
  {
    Speak(text, Some(utterance.GetOr(freshId)), Flush)
  }

  /** Every call site in the screen names its utterance, so no fresh id is drawn. */
  function Say(text: string, id: string): Action {
    SpeakAction(text, Some(id), "")
  }

  const IntroText := "Welcome to the Transcribe page. I can transcribe a lecture live. " +
    "Available voice commands are: Start transcription, Stop transcription, Open tutorials, Back, or Home. " +
    "Say a command now."
  const RetryText := "Sorry, I didn’t catch that. Please say it again."

  /** The tasks this screen posts to its handler. */
  predicate PostedHere(t: Task) {
    t == ListenTask || t == CommandListeningTask || t == LaunchTask(Tutorials) || t == FinishTask
  }

  /** What the branches that leave the session alone say and post. */
  function CommandReply(cmd: TranscribeCommand): seq<Action>
    requires cmd != Start && cmd != Stop
  {
    match cmd
    case OpenTutorials => [Say("Opening tutorials.", "OPEN_TUT"), Post(LaunchTask(Tutorials))]
    case GoBack => [Say("Going back.", "GO_BACK"), Post(FinishTask)]
    case Blank => [Say("I didn't hear anything. Please try again.", "RETRY"), Post(CommandListeningTask)]
    case NotUnderstood =>
      [Say("Sorry, I didn't understand that command. Please try again.", "RETRY"), Post(CommandListeningTask)]
  }

  /** Unrecognised and blank commands come back to command listening; the rest do not. */
  lemma OnlyFailuresRelisten(cmd: TranscribeCommand)
    requires cmd != Start && cmd != Stop
    ensures Post(CommandListeningTask) in CommandReply(cmd) <==> cmd == Blank || cmd == NotUnderstood
    ensures CommandReply(cmd)[0].utterance == Some("RETRY") <==> cmd == Blank || cmd == NotUnderstood
  {
  }

  /** The transcription session's mutable state. */
  class TranscribeScreen {
    var isTranscribing: bool
    var listeningForCommand: bool
    var transcript: seq<string>
    var ttsReady: bool           // the utterance listener has been installed

    /**
     * The session is never both transcribing and waiting for a command, and
     * the transcript holds only non-blank, lower-cased phrases.
     */
    ghost predicate Valid()
      reads this
    {
      !(isTranscribing && listeningForCommand) &&
      forall i :: 0 <= i < |transcript| ==> !IsBlank(transcript[i]) && IsLowerCase(transcript[i])
    }

    /** The activity as created: idle, waiting for a command, empty transcript. */
    constructor ()
      ensures Valid()
      ensures !isTranscribing && listeningForCommand && transcript == [] && !ttsReady
    {
      isTranscribing := false;
      listeningForCommand := true;
      transcript := [];
      ttsReady := false;
    }

    /** `onInit`: on success, set the language, install the listener and speak the intro. */
    method OnInit(success: bool, languagePref: Option<string>) returns (acts: seq<Action>)
      modifies this`ttsReady
      ensures ttsReady == (old(ttsReady) || success)
      ensures acts == if success
                      then [SetVoiceLanguage(Locale(languagePref.GetOr("en"))), Say(IntroText, "INTRO")]
                      else []
    {
      if success {
        ttsReady := true;
        acts := [SetVoiceLanguage(Locale(languagePref.GetOr("en"))), Say(IntroText, "INTRO")];
      } else {
        acts := [];
      }
    }

    /** `onDone`: only the end of the intro leads to command listening. */
    method OnUtteranceDone(utterance: Option<string>) returns (acts: seq<Action>)
      ensures acts == if ttsReady && utterance == Some("INTRO") then [Post(CommandListeningTask)] else []
    {
      if ttsReady && utterance == Some("INTRO") {
        acts := [Post(CommandListeningTask)];
      } else {
        acts := [];
      }
    }

    /** `startCommandListening`. */
    method StartCommandListening() returns (acts: seq<Action>)
      requires Valid()
      modifies this`listeningForCommand, this`isTranscribing
      ensures Valid()
      ensures listeningForCommand && !isTranscribing
      ensures acts == [Listen]
    {
      listeningForCommand := true;
      isTranscribing := false;
      acts := [Listen];
    }

    /** `startTranscription`: a new session with an empty transcript. */
    method StartTranscription() returns (acts: seq<Action>)
      requires Valid()
      modifies this`transcript, this`listeningForCommand, this`isTranscribing
      ensures Valid()
      ensures transcript == [] && isTranscribing && !listeningForCommand
      ensures acts == [Say("Starting transcription. I am listening.", "START_TX"), Post(ListenTask)]
    {
      transcript := [];
      listeningForCommand := false;
      isTranscribing := true;
      acts := [Say("Starting transcription. I am listening.", "START_TX"), Post(ListenTask)];
    }

    /** `stopTranscription`: ends an active session; when idle it only says so. */
    method StopTranscription() returns (acts: seq<Action>)
      requires Valid()
      modifies this`isTranscribing
      ensures Valid()
      ensures !isTranscribing
      ensures old(isTranscribing) ==> acts == [Say("Stopped transcription.", "STOP_TX")]
      ensures !old(isTranscribing) ==> acts == [Say("No active transcription to stop.", "STOP_TX")]
    {
      if isTranscribing {
        isTranscribing := false;
        acts := [Say("Stopped transcription.", "STOP_TX")];
      } else {
        acts := [Say("No active transcription to stop.", "STOP_TX")];
      }
    }

    /** `handleVoiceCommand`. */
    method HandleVoiceCommand(command: string) returns (acts: seq<Action>)
      requires Valid()
      modifies this`transcript, this`listeningForCommand, this`isTranscribing
      ensures Valid()
      ensures Classify(command) == Start ==>
                transcript == [] && isTranscribing && !listeningForCommand &&
                acts == [Say("Starting transcription. I am listening.", "START_TX"), Post(ListenTask)]
      ensures Classify(command) == Stop ==>
                !isTranscribing && transcript == old(transcript) &&
                listeningForCommand == old(listeningForCommand) &&
                acts == [Say(if old(isTranscribing) then "Stopped transcription."
                             else "No active transcription to stop.", "STOP_TX")]
      ensures Classify(command) != Start && Classify(command) != Stop ==>
                acts == CommandReply(Classify(command)) && unchanged(this)
    {
      var cmd := Classify(command);
      match cmd
      case Start =>
        acts := StartTranscription();
      case Stop =>
        acts := StopTranscription();
      case _ =>
        acts := CommandReply(cmd);
    }

    /**
     * The recogniser's result: while transcribing, a non-blank phrase is
     * appended and listening resumes; otherwise an OK result is a command; a
     * failed result asks again and re-listens in either mode.
     */
    method OnRecognizerResult(r: RecognizerResult) returns (acts: seq<Action>)
      requires Valid()
      modifies this`transcript, this`listeningForCommand, this`isTranscribing
      ensures Valid()
      ensures SpokenText(r).None? ==>
                acts == [Say(RetryText, "RETRY"), Post(ListenTask)] && unchanged(this)
      ensures SpokenText(r).Some? && old(isTranscribing) ==>
                isTranscribing && listeningForCommand == old(listeningForCommand) &&
                acts == [Post(ListenTask)] &&
                transcript == old(transcript) +
                  (if IsBlank(SpokenText(r).value) then [] else [SpokenText(r).value])
      ensures SpokenText(r).Some? && !old(isTranscribing) && Classify(SpokenText(r).value) == Start ==>
                transcript == [] && isTranscribing && !listeningForCommand &&
                acts == [Say("Starting transcription. I am listening.", "START_TX"), Post(ListenTask)]
      ensures SpokenText(r).Some? && !old(isTranscribing) && Classify(SpokenText(r).value) == Stop ==>
                !isTranscribing && transcript == old(transcript) &&
                listeningForCommand == old(listeningForCommand) &&
                acts == [Say("No active transcription to stop.", "STOP_TX")]
      ensures SpokenText(r).Some? && !old(isTranscribing) &&
              Classify(SpokenText(r).value) != Start && Classify(SpokenText(r).value) != Stop ==>
                acts == CommandReply(Classify(SpokenText(r).value)) && unchanged(this)
    {
      match SpokenText(r)
      case None =>
        acts := [Say(RetryText, "RETRY"), Post(ListenTask)];
      case Some(text) =>
        if isTranscribing {
          if !IsBlank(text) {
            transcript := transcript + [text];
          }
          acts := if isTranscribing then [Post(ListenTask)] else [];
        } else {
          acts := HandleVoiceCommand(text);
        }
    }

    /** A closure this screen posted runs. */
    method RunTask(t: Task) returns (acts: seq<Action>)
      requires Valid() && PostedHere(t)
      modifies this`listeningForCommand, this`isTranscribing
      ensures Valid()
      ensures t == CommandListeningTask ==> listeningForCommand && !isTranscribing && acts == [Listen]
      ensures t == ListenTask ==> acts == [Listen] && unchanged(this)
      ensures t == LaunchTask(Tutorials) ==> acts == [Navigate(Tutorials)] && unchanged(this)
      ensures t == FinishTask ==> acts == [Finish] && unchanged(this)
    {
      match t
      case CommandListeningTask =>
        acts := StartCommandListening();
      case ListenTask =>
        acts := [Listen];
      case LaunchTask(target) =>
        acts := [Navigate(target)];
      case FinishTask =>
        acts := [Finish];
    }
  }

  /**
   * While a session runs, every recognised phrase is transcript material: a
   * phrase such as "stop transcription" is appended like any other and the
   * session goes on, so a session can only be stopped from the Stop button.
   */
  method CommandsAreTranscribedWhileTranscribing(phrase: string) returns (s: TranscribeScreen)
    requires IsLowerCase(phrase) && !IsBlank(phrase)
    ensures s.isTranscribing && s.transcript == [phrase]
  {
    s := new TranscribeScreen();
    var started := s.StartTranscription();
    LowerOfLowerCase(phrase);
    var heard := s.OnRecognizerResult(RecognizerResult(true, Some(Some([Some(phrase)]))));
  }
}

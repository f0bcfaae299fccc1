/**
 * What the screens ask the platform to do, and what the platform tells them.
 * Every side effect of the activities (speaking, launching the recogniser,
 * posting a delayed closure, starting an activity, finishing) is returned as
 * an `Action` instead of being performed.
 */
module Effects {
  import opened Wrappers
  import opened Text

  /** `TextToSpeech.QUEUE_FLUSH` and `TextToSpeech.QUEUE_ADD`. */
  datatype QueueMode = Flush | Add

  /** The activities a screen can start. */
  datatype Screen = Home | ClassNav | Transcribe | Tutorials

  /** A `java.util.Locale`, reduced to its language tag. */
  datatype Locale = Locale(language: string)

  /**
   * The closures the screens hand to `Handler.post`/`postDelayed`; the delay
   * itself is not modelled, only that the closure runs later.
   */
  datatype Task =
    | ListenTask                 // startListening()
    | CommandListeningTask       // startCommandListening() (Transcribe)
    | LaunchTask(target: Screen) // startActivity(...) (Transcribe)
    | FinishTask                 // finish() (Transcribe)
    | ReminderTask               // the inactivity reminder runnable (Home)
    | PromptTask                 // speak "Listening" as LISTENING_PROMPT (command helper)
    | OpeningDoneTask            // isReadyToNavigate = true; navigateToHome() (Splash)
    | HomeTask                   // navigateToHome() (Splash, after a speech error)
    | GuardedHomeTask            // if (!hasNavigated) navigateToHome() (Splash)

  datatype Action =
    | Speak(text: string, utterance: Option<string>, mode: QueueMode)
    | Listen                     // launch the speech recogniser now
    | Post(task: Task)
    | CancelReminder             // removeCallbacks(inactivityRunnable)
    | Navigate(target: Screen)   // startActivity / launch
    | Finish
    | SetVoiceLanguage(locale: Locale)
    | InvokeRetry                // the caller's retry() callback

  /** True when the actions launch some activity. */
  predicate Navigates(acts: seq<Action>) {
    exists i :: 0 <= i < |acts| && acts[i].Navigate?
  }

  /** True when the actions post a re-listen. */
  predicate SchedulesListen(acts: seq<Action>) {
    Post(ListenTask) in acts
  }

  // ---------------------------------------------------------------------------
  // The inactivity reminder's pending count under a run of actions.

  /** How many reminder runnables are queued after performing `acts`. */
  function PendingReminders(pending: nat, acts: seq<Action>): nat
    decreases |acts|
  {
    if acts == [] then pending
    else
      var next := match acts[0]
        case CancelReminder => 0
        case Post(ReminderTask) => pending + 1
        case _ => pending;
      PendingReminders(next, acts[1..])
  }

  /** Performing two runs of actions one after the other. */
  lemma {:induction false} PendingRemindersAppend(pending: nat, a: seq<Action>, b: seq<Action>)
    ensures PendingReminders(pending, a + b) == PendingReminders(PendingReminders(pending, a), b)
    decreases |a|
  {
    if a != [] {
      assert (a + b)[1..] == a[1..] + b;
      var next := match a[0]
        case CancelReminder => 0
        case Post(ReminderTask) => pending + 1
        case _ => pending;
      PendingRemindersAppend(next, a[1..], b);
    } else {
      assert a + b == b;
    }
  }

  /** Actions that neither post nor cancel the reminder leave the count alone. */
  lemma {:induction false} PendingRemindersUntouched(pending: nat, acts: seq<Action>)
    requires forall i :: 0 <= i < |acts| ==> acts[i] != CancelReminder && acts[i] != Post(ReminderTask)
    ensures PendingReminders(pending, acts) == pending
    decreases |acts|
  {
    if acts != [] {
      PendingRemindersUntouched(pending, acts[1..]);
    }
  }

  // ---------------------------------------------------------------------------
  // The recogniser's activity result.

  /** `EXTRA_RESULTS`: a possibly null list of possibly null strings. */
  type ResultList = Option<seq<Option<string>>>

  /** The result delivered to `registerForActivityResult`. */
  datatype RecognizerResult = RecognizerResult(resultOk: bool, data: Option<ResultList>)

  /**
   * `matches?.get(0)?.lowercase(Locale.ROOT)` exactly as written: `None` is the
   * IndexOutOfBoundsException that `get(0)` throws on an empty list, and
   * `Some(None)` the null that `?: ""` then turns into "".
   */
  function FirstMatchAsWritten(matches: ResultList): Option<Option<string>> {
    match matches
    case None => Some(None)
    case Some(list) =>
      if list == [] then None
      else Some(match list[0] case None => None case Some(t) => Some(Lower(t)))
  }

  /** The lower-cased first recognition, with a missing one read as "". */
  function FirstMatchText(matches: ResultList): (r: string)
    ensures IsLowerCase(r)
    ensures matches.None? || matches == Some([]) ==> r == ""
    ensures matches.Some? && matches.value != [] && matches.value[0].None? ==> r == ""
    ensures matches.Some? && matches.value != [] && matches.value[0].Some? ==>
              r == Lower(matches.value[0].value)
  {
    LowerIsLowerCase(if matches.Some? && matches.value != [] && matches.value[0].Some?
                     then matches.value[0].value else "");
    match matches
    case None => ""
    case Some(list) =>
      if list == [] then ""
      else match list[0] case None => "" case Some(t) => Lower(t)
  }

  /** The two agree wherever the code as written does not throw. */
  lemma FirstMatchAgrees(matches: ResultList)
    requires matches != Some([])
    ensures FirstMatchAsWritten(matches) == Some(Some(FirstMatchText(matches))) ||
            (FirstMatchAsWritten(matches) == Some(None) && FirstMatchText(matches) == "")
  {
  }

  /** An OK result whose list is present but empty throws instead of reading as "". */
  lemma EmptyMatchListThrows()
    ensures FirstMatchAsWritten(Some([])) == None
    ensures FirstMatchText(Some([])) == ""
  {
  }

  /**
   * The text a screen acts on: only a result that is OK and carries data
   * reaches the command handler.
   */
  function SpokenText(r: RecognizerResult): (t: Option<string>)
    ensures t.Some? <==> r.resultOk && r.data.Some?
    ensures t.Some? ==> t.value == FirstMatchText(r.data.value) && IsLowerCase(t.value)
  {
    if r.resultOk && r.data.Some? then Some(FirstMatchText(r.data.value)) else None
  }

  /** Two results whose recognitions differ only in letter case yield the same text. */
  lemma SpokenTextIgnoresCase(a: string, b: string)
    requires Lower(a) == Lower(b)
    ensures SpokenText(RecognizerResult(true, Some(Some([Some(a)])))) ==
            SpokenText(RecognizerResult(true, Some(Some([Some(b)]))))
  {
  }
}

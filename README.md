# EduNav voice navigation, modelled in Dafny

EduNav is an Android app that blind and visually impaired students drive by
voice. Each screen speaks a script through the text-to-speech engine, listens
through the speech recogniser, and matches the lower-cased text against an
ordered chain of `contains` tests. A matched command speaks a confirmation and
then starts another screen, finishes the current one, or asks again.

This project models the screens' decision logic and their state:

- the five command chains:
  - home (`MainActivity`);
  - class navigation (`ClassActivity`);
  - tutorials (`TutorialsActivity`);
  - transcription (`TranscribeActivity`);
  - the command helper `VoiceCommandHelper`, which no screen in the app calls: its chain is modelled on its own and is not part of any screen's behaviour.
- The language-preference mapping to a voice locale.
- Which finished utterances lead to listening again.
- The home screen's first-launch welcome, welcome-back and one-minute inactivity reminder.
- The transcription session (transcribing or waiting for a command, and its transcript).
- The splash screen's single navigation to home.
- The splash screen's cycling "Loading" dots.

How the model is built:

- **Side effects as values.** Speaking, launching the recogniser, posting a
  delayed closure to a `Handler`, starting an activity and finishing are all
  returned as `Effects.Action` values instead of being performed.
- **Delayed closures.** A `postDelayed` closure is `Post(task)`. The closure
  running later is a method call on the screen object (`RunTask`,
  `RunReminder`, …). The delay itself is not modelled.
- **Classes for screens.** A screen whose fields change is a class whose
  methods update those fields.
- **Functions for fixed tables.** What a command says and does is a pure
  function, and the lemmas are stated about those functions.
- **One definition of "first match wins".** Each `when` chain is written
  branch by branch, as in the code. It is then proved equal to first-match
  resolution over a declarative lexicon (module `Lexicon`), so that rule is
  stated once, for all screens.

Modules:

| module | file | models |
|---|---|---|
| `Wrappers` | wrappers.dfy | `Option` |
| `Text` | text.dfy | ASCII lower-casing, `contains`, `isBlank` |
| `Lexicon` | lexicon.dfy | ordered command lexicons and first-match resolution |
| `Effects` | effects.dfy | actions, posted closures, the recogniser result, the pending-reminder count |
| `Home` | home.dfy | `MainActivity` |
| `Transcribe` | transcribe.dfy | `TranscribeActivity` |
| `ClassNav` | classnav.dfy | `ClassActivity` |
| `Tutorials` | tutorials.dfy | `TutorialsActivity` |
| `CommandHelper` | helper.dfy | `VoiceCommandHelper` |
| `Splash` | splash.dfy | `SplashActivity` and `LoadingIndicator` |

Behaviour the model keeps exactly as the code has it:

- **No retry ceiling.** No screen caps its retries: every failed or
  unrecognised recognition asks again as often as it happens.
- **No navigation history is kept.** "Back" finishes the current activity,
  and "home" in the helper starts a new home screen.
- **"Home" is not the same command everywhere.**
  - The class and transcription screens treat "home" like "back".
  - The tutorials screen does not know "home" at all (`Tutorials.ScreensDisagreeOnHome`).
- **No spoken stop while transcribing.** While a session runs, every
  recognised phrase is appended to the transcript. That includes "stop
  transcription", so a session cannot be stopped by voice
  (`Transcribe.CommandsAreTranscribedWhileTranscribing`).
- **Texts kept verbatim.** Spoken texts are copied exactly as the code has
  them. That includes the home screen's mis-encoded apostrophe ("didnâ€™t")
  and the helper's double space in "Navigating  to home screen".

## Model

| member | source | states |
|---|---|---|
| Text.LowerChar | app/src/main/java/com/example/edunav/VoiceCommandHelper.kt:42 | an upper-case ASCII letter maps to its lower-case letter, every other character to itself, and the result is never upper-case |
| Text.Lower | app/src/main/java/com/example/edunav/VoiceCommandHelper.kt:42 | `lowercase(Locale.ROOT)` keeps the length and lower-cases each character in place |
| Text.LowerIsLowerCase | app/src/main/java/com/example/edunav/MainActivity.kt:59 | lower-cased text has no upper-case letter, and lower-casing it again changes nothing |
| Effects.PendingRemindersAppend | app/src/main/java/com/example/edunav/MainActivity.kt:49-52 | the queued-reminder count after two runs of actions is the count after the first run, carried through the second |
| Effects.PendingRemindersUntouched | app/src/main/java/com/example/edunav/MainActivity.kt:49-52 | actions that neither cancel nor post the reminder leave the queued count unchanged |
| Effects.FirstMatchText | app/src/main/java/com/example/edunav/MainActivity.kt:57-59 | the text acted on is lower-case; it is the first recognition lower-cased, or "" when the list or its first entry is missing |
| Effects.FirstMatchAgrees | app/src/main/java/com/example/edunav/MainActivity.kt:58-59 | on every result list except the present-but-empty one, the expression as written yields the same text as the corrected reading |
| Effects.EmptyMatchListThrows | app/src/main/java/com/example/edunav/MainActivity.kt:58-59 | `get(0)` on a present but empty list throws, where the corrected reading yields "" |
| Effects.SpokenText | app/src/main/java/com/example/edunav/MainActivity.kt:57-61 | a text reaches the command handler exactly when the result is OK and carries data, and that text is the lower-cased first match |
| Effects.SpokenTextIgnoresCase | app/src/main/java/com/example/edunav/MainActivity.kt:59 | recognitions that differ only in letter case hand the handler the same text |
| Home.ClassifyIsFirstMatch | app/src/main/java/com/example/edunav/MainActivity.kt:72-95 | the class / transcribe / braille chain is first-match resolution over the home lexicon, with "not understood" as the fallback |
| Home.ClassBeforeTranscribe | app/src/main/java/com/example/edunav/MainActivity.kt:73-83 | class is tested before transcribe, so "transcribe class" opens Class |
| Home.NavigatesIffRecognised | app/src/main/java/com/example/edunav/MainActivity.kt:72-97 | a command starts a feature exactly when one of its keywords occurs; otherwise, and only then, listening is scheduled again |
| Home.EmptyIsNotUnderstood | app/src/main/java/com/example/edunav/MainActivity.kt:89-94 | the empty text is not understood: the apology and a re-listen follow, and nothing is started |
| Home.CancelBeforeLaunch | app/src/main/java/com/example/edunav/MainActivity.kt:74-88 | every navigating branch cancels the reminder right after speaking and before launching its feature |
| Home.RespondRearmsTimer | app/src/main/java/com/example/edunav/MainActivity.kt:72-97 | whatever the command, the handler ends with the timer reset, and exactly one reminder is queued afterwards |
| Home.LaunchWelcome | app/src/main/java/com/example/edunav/MainActivity.kt:145-159 | the welcome is tagged WELCOME_MSG and flushes the queue exactly on the first launch; later launches queue it |
| Home.HomeScreen.constructor | app/src/main/java/com/example/edunav/MainActivity.kt:145-147 | the stored welcome flag is read in, nothing is queued yet, and at most one reminder is pending; reading the flag once here instead of inside `speakOnLaunch` is equivalent, because `speakOnLaunch` itself (line 155) is the only place that writes it |
| Home.HomeScreen.ResetInactivityTimer | app/src/main/java/com/example/edunav/MainActivity.kt:49-52 | the reminder is cancelled and re-posted, leaving exactly one queued |
| Home.HomeScreen.HandleVoiceCommand | app/src/main/java/com/example/edunav/MainActivity.kt:72-97 | the command's branch is performed and exactly one reminder is queued afterwards |
| Home.HomeScreen.OnRecognizerResult | app/src/main/java/com/example/edunav/MainActivity.kt:54-62 | a failed result, or one without data, is ignored and changes nothing; otherwise the lower-cased text is handled as a command |
| Home.HomeScreen.SpeakOnLaunch | app/src/main/java/com/example/edunav/MainActivity.kt:145-159 | the welcome is spoken with the mode the old flag selects, and the flag is set afterwards |
| Home.HomeScreen.OnInit | app/src/main/java/com/example/edunav/MainActivity.kt:115-140 | on success: the preferred language ("en" when unset), the welcome, and one queued reminder; on failure nothing at all |
| Home.HomeScreen.OnFeatureResult | app/src/main/java/com/example/edunav/MainActivity.kt:64-70 | an OK feature result marks the screen as returning from a feature; other results leave the mark as it was; in the app only the tutorials screen's Back button returns RESULT_OK, so no voice command reaches the welcome-back |
| Home.HomeScreen.OnResume | app/src/main/java/com/example/edunav/MainActivity.kt:166-173 | a welcome-back is queued only when returning from a feature, the mark is cleared, and the timer is reset |
| Home.HomeScreen.OnUtteranceDone | app/src/main/java/com/example/edunav/MainActivity.kt:126-130 | once the listener is installed, the end of any utterance schedules listening again, and the queued reminder is left as it was |
| Home.HomeScreen.RunListenTask | app/src/main/java/com/example/edunav/MainActivity.kt:91-93 | the posted closure launches the recogniser and leaves the queued reminder as it was |
| Home.HomeScreen.RunReminder | app/src/main/java/com/example/edunav/MainActivity.kt:40-47 | the queued reminder speaks the idle prompt under IDLE_REMINDER and does not re-arm itself |
| Home.HomeScreen.OnDestroy | app/src/main/java/com/example/edunav/MainActivity.kt:175-184 | the farewell is spoken and no reminder stays queued |
| Transcribe.ClassifyIsFirstMatch | app/src/main/java/com/example/edunav/TranscribeActivity.kt:152-181 | the chain is first-match resolution over the transcribe lexicon; text matching no keyword is blank or not understood, according to `isBlank` |
| Transcribe.BlankIsBlank | app/src/main/java/com/example/edunav/TranscribeActivity.kt:172-175 | a blank command matches no keyword and reaches the "didn't hear anything" branch |
| Transcribe.StartBeforeBack | app/src/main/java/com/example/edunav/TranscribeActivity.kt:154-171 | start is tested before back, so "start lecture and go back" starts a session |
| Transcribe.SpeakAction | app/src/main/java/com/example/edunav/TranscribeActivity.kt:125-127 | speech always flushes and is always tagged: with the given id, or with a fresh one when none is given |
| Transcribe.OnlyFailuresRelisten | app/src/main/java/com/example/edunav/TranscribeActivity.kt:160-179 | among the branches that leave the session alone, exactly the blank and not-understood ones speak under RETRY and return to command listening |
| Transcribe.TranscribeScreen.constructor | app/src/main/java/com/example/edunav/TranscribeActivity.kt:46-48 | a new screen is idle, waiting for a command, with an empty transcript |
| Transcribe.TranscribeScreen.OnInit | app/src/main/java/com/example/edunav/TranscribeActivity.kt:93-116 | on success: the preferred language and the intro under INTRO; on failure nothing |
| Transcribe.TranscribeScreen.OnUtteranceDone | app/src/main/java/com/example/edunav/TranscribeActivity.kt:103-108 | only the end of the intro leads to command listening |
| Transcribe.TranscribeScreen.StartCommandListening | app/src/main/java/com/example/edunav/TranscribeActivity.kt:129-133 | the screen waits for a command, is not transcribing, and the recogniser is launched |
| Transcribe.TranscribeScreen.StartTranscription | app/src/main/java/com/example/edunav/TranscribeActivity.kt:135-141 | a new session starts with an empty transcript, announces itself and schedules listening |
| Transcribe.TranscribeScreen.StopTranscription | app/src/main/java/com/example/edunav/TranscribeActivity.kt:143-150 | an active session is ended and says so; an idle screen only says there is nothing to stop |
| Transcribe.TranscribeScreen.HandleVoiceCommand | app/src/main/java/com/example/edunav/TranscribeActivity.kt:152-181 | start and stop change the session as above; every other command changes nothing and gets its fixed reply and closure |
| Transcribe.TranscribeScreen.OnRecognizerResult | app/src/main/java/com/example/edunav/TranscribeActivity.kt:53-71 | while transcribing, a non-blank phrase is appended and listening resumes; when not transcribing, the text goes to the command handler: start begins a new session, stop only says there is nothing to stop, and any other command changes nothing and gets its fixed reply and closure; a failed result asks again under RETRY and re-listens; the transcript holds only non-blank, lower-cased phrases |
| Transcribe.TranscribeScreen.RunTask | app/src/main/java/com/example/edunav/TranscribeActivity.kt:160-179 | each posted closure does its one thing: listen, return to command listening, open tutorials, or finish |
| Transcribe.CommandsAreTranscribedWhileTranscribing | app/src/main/java/com/example/edunav/TranscribeActivity.kt:53-65 | during a session, any non-blank lower-case phrase (a stop command included) is appended to the transcript and the session goes on |
| ClassNav.ClassifyIsFirstMatch | app/src/main/java/com/example/edunav/ClassActivity.kt:108-132 | the back-or-home / tutorial-or-braille / transcribe-or-lecture chain is first-match resolution over the class lexicon |
| ClassNav.BackBeforeLecture | app/src/main/java/com/example/edunav/ClassActivity.kt:110-123 | back is tested first, so "back to lecture" goes back |
| ClassNav.LocaleFor | app/src/main/java/com/example/edunav/ClassActivity.kt:49-55 | fr, sw and es get their own locale, and every other code gets English |
| ClassNav.CommandOutcomes | app/src/main/java/com/example/edunav/ClassActivity.kt:108-132 | only back finishes the screen; only the tutorial and transcribe branches start an activity; only a command that is not understood leads to listening again |
| ClassNav.ClassScreen.constructor | app/src/main/java/com/example/edunav/ClassActivity.kt:26-30 | before creation there is no engine, no listener and no locale |
| ClassNav.ClassScreen.OnCreate | app/src/main/java/com/example/edunav/ClassActivity.kt:43-65 | the locale is the mapping of the language preference ("en" when unset), and the engine now exists |
| ClassNav.ClassScreen.Speak | app/src/main/java/com/example/edunav/ClassActivity.kt:79-94 | nothing happens before the engine exists; otherwise the message is flushed under its id and the listener is installed |
| ClassNav.ClassScreen.OnInit | app/src/main/java/com/example/edunav/ClassActivity.kt:67-77 | on success: the chosen locale, then the welcome under WELCOME; on failure nothing |
| ClassNav.ClassScreen.OnUtteranceDone | app/src/main/java/com/example/edunav/ClassActivity.kt:88-92 | the recogniser is launched exactly after WELCOME or RETRY, once the listener is installed |
| ClassNav.ClassScreen.HandleVoiceCommand | app/src/main/java/com/example/edunav/ClassActivity.kt:108-132 | the confirmation is spoken under its id, then the screen finishes or starts the target |
| ClassNav.ClassScreen.OnRecognizerResult | app/src/main/java/com/example/edunav/ClassActivity.kt:32-41 | a failed result asks again under RETRY; an OK one is handled as a command |
| ClassNav.FailedResultLeadsToListen | app/src/main/java/com/example/edunav/ClassActivity.kt:32-94 | after creation, a failed recognition is answered with the RETRY prompt, and that prompt's completion launches the recogniser again |
| Tutorials.ClassifyIsFirstMatch | app/src/main/java/com/example/edunav/TutorialsActivity.kt:84-106 | the back / tutorial-or-braille / transcribe-or-record chain is first-match resolution over the tutorials lexicon |
| Tutorials.HomeNotRecognised | app/src/main/java/com/example/edunav/TutorialsActivity.kt:84-106 | "home" matches none of this screen's keywords |
| Tutorials.ScreensDisagreeOnHome | app/src/main/java/com/example/edunav/TutorialsActivity.kt:84-106 | the same word "home" goes back on the class screen but is not understood here |
| Tutorials.LocaleFor | app/src/main/java/com/example/edunav/TutorialsActivity.kt:55-60 | this screen's language table is the class screen's, code for code |
| Tutorials.OnInit | app/src/main/java/com/example/edunav/TutorialsActivity.kt:70-83 | on success: the locale, the tutorials welcome, then exactly one scheduled listen; on failure nothing |
| Tutorials.RelistensOnlyAfterFailure | app/src/main/java/com/example/edunav/TutorialsActivity.kt:33-46 | a re-listen is scheduled exactly after a failed result or an unrecognised command |
| Tutorials.RelistensIffNoKeyword | app/src/main/java/com/example/edunav/TutorialsActivity.kt:84-106 | a command schedules a re-listen exactly when no keyword of the lexicon occurs in it |
| Tutorials.RecordOnlySpeaks | app/src/main/java/com/example/edunav/TutorialsActivity.kt:96-99 | the transcribe/record branch only speaks: it starts nothing and finishes nothing |
| Tutorials.TutorialsScreen.constructor | app/src/main/java/com/example/edunav/TutorialsActivity.kt:29-30 | no locale before creation |
| Tutorials.TutorialsScreen.OnCreate | app/src/main/java/com/example/edunav/TutorialsActivity.kt:48-68 | the locale is the mapping of the language preference ("en" when unset) |
| Tutorials.TutorialsScreen.Init | app/src/main/java/com/example/edunav/TutorialsActivity.kt:70-83 | the init callback uses the locale chosen at creation |
| CommandHelper.ClassifyIsFirstMatch | app/src/main/java/com/example/edunav/VoiceCommandHelper.kt:42-82 | the five-branch chain over the lower-cased text is first-match resolution over the helper lexicon |
| CommandHelper.CaseInsensitive | app/src/main/java/com/example/edunav/VoiceCommandHelper.kt:42 | texts with the same lower-cased form classify alike |
| CommandHelper.ClassifyOfLower | app/src/main/java/com/example/edunav/VoiceCommandHelper.kt:42 | a text classifies like its own lower-cased form |
| CommandHelper.HomeWins | app/src/main/java/com/example/edunav/VoiceCommandHelper.kt:44-49 | any text mentioning "home", in any case, goes home, whatever else it contains |
| CommandHelper.ClassWinsWithoutHome | app/src/main/java/com/example/edunav/VoiceCommandHelper.kt:51-55 | a text without "home" that mentions "class" opens the class screen |
| CommandHelper.HomeBeforeBack | app/src/main/java/com/example/edunav/VoiceCommandHelper.kt:44-72 | "go back home" goes home, because home is tested before back |
| CommandHelper.ClassBeforeBack | app/src/main/java/com/example/edunav/VoiceCommandHelper.kt:44-72 | "back to class" opens the class screen, because class is tested before back |
| CommandHelper.RespondShape | app/src/main/java/com/example/edunav/VoiceCommandHelper.kt:44-82 | every branch first flushes a confirmation; exactly the navigation branches start their target; finishing happens exactly for a recognised command called from an activity; only the unrecognised reply is tagged |
| CommandHelper.RetryChain | app/src/main/java/com/example/edunav/VoiceCommandHelper.kt:20-40 | the UNRECOGNIZED reply leads to the "Listening" prompt, and the prompt's completion, and nothing else, calls the caller's retry |
| CommandHelper.RecognisedEndsChain | app/src/main/java/com/example/edunav/VoiceCommandHelper.kt:44-72 | the confirmation of a recognised command carries no id, so nothing follows its completion |
| CommandHelper.SpeechEngine.constructor | app/src/main/java/com/example/edunav/VoiceCommandHelper.kt:17 | before the helper runs, the engine carries the screen's own listener |
| CommandHelper.SpeechEngine.UtteranceDone | app/src/main/java/com/example/edunav/VoiceCommandHelper.kt:20-40 | once the helper's listener is installed it decides what follows an utterance; before that the screen's listener does |
| CommandHelper.HandleCommand | app/src/main/java/com/example/edunav/VoiceCommandHelper.kt:14-83 | the helper replaces the engine's listener, then performs the branch its classification selects |
| CommandHelper.RunPrompt | app/src/main/java/com/example/edunav/VoiceCommandHelper.kt:27-29 | the posted prompt flushes "Listening" under LISTENING_PROMPT |
| Lexicon.NoMatchIff | app/src/main/java/com/example/edunav/MainActivity.kt:89-94 | a text falls through to the `else` branch of a chain exactly when no entry's phrase occurs in it |
| Lexicon.EarliestMatchWins | app/src/main/java/com/example/edunav/ClassActivity.kt:108-132 | the first branch whose test holds, with no earlier one holding, decides the command |
| Lexicon.ResolveRange | app/src/main/java/com/example/edunav/TutorialsActivity.kt:84-106 | a chain always yields either one of its branches' commands or the `else` branch |
| Lexicon.ResolvedEntry | app/src/main/java/com/example/edunav/VoiceCommandHelper.kt:44-82 | with distinct commands, the selected command is a branch's exactly when that branch matches and no earlier branch does |
| Splash.HomeLaunches | app/src/main/java/com/example/edunav/SplashActivity.kt:137-145 | counts the starts of the home screen; the count is zero exactly when no action starts it |
| Splash.HomeNavigation | app/src/main/java/com/example/edunav/SplashActivity.kt:137-145 | the first call starts home and finishes the splash screen; every later call does nothing; the flag is set afterwards either way |
| Splash.Step | app/src/main/java/com/example/edunav/SplashActivity.kt:59-145 | one callback never clears the flag, starts home exactly when it sets the flag, and posts only this screen's closures |
| Splash.LaunchesHomeAtMostOnce | app/src/main/java/com/example/edunav/SplashActivity.kt:137-145 | over any run of callbacks in any order, home is started at most once: exactly once if the run sets the flag, never if the flag was already set |
| Splash.TimeoutLeaves | app/src/main/java/com/example/edunav/SplashActivity.kt:64-69 | creation posts the timeout, and when it fires the screen has navigated, starting home unless that already happened |
| Splash.GreetingThenHome | app/src/main/java/com/example/edunav/SplashActivity.kt:84-134 | after a successful init the greeting goes out under OPENING, its completion posts the ready closure, and that closure starts home and finishes |
| Splash.FailedInitStillLeaves | app/src/main/java/com/example/edunav/SplashActivity.kt:122-128 | a failed init posts a guarded navigation, which leaves the screen when it fires |
| Splash.OnlyOpeningCompletes | app/src/main/java/com/example/edunav/SplashActivity.kt:95-118 | only the OPENING utterance's completion moves the screen on; callbacks before the listener exists do nothing |
| Splash.ErrorAfterLeavingIsSilent | app/src/main/java/com/example/edunav/SplashActivity.kt:110-118 | a speech error after navigating posts nothing |
| Splash.SplashScreen.constructor | app/src/main/java/com/example/edunav/SplashActivity.kt:47-53 | everything starts unset, and home has not been started |
| Splash.SplashScreen.NavigateToHome | app/src/main/java/com/example/edunav/SplashActivity.kt:137-145 | the flag is set, and home has been started exactly once over the screen's life |
| Splash.SplashScreen.OnCreate | app/src/main/java/com/example/edunav/SplashActivity.kt:59-69 | creation posts the guarded timeout |
| Splash.SplashScreen.OnInit | app/src/main/java/com/example/edunav/SplashActivity.kt:84-129 | as `Step`: on success the language, the listener and the greeting; otherwise a posted guarded navigation |
| Splash.SplashScreen.OnStart | app/src/main/java/com/example/edunav/SplashActivity.kt:96-99 | the start of an utterance sets `ttsStarted` once the listener exists |
| Splash.SplashScreen.OnDone | app/src/main/java/com/example/edunav/SplashActivity.kt:101-109 | the OPENING completion posts the ready closure |
| Splash.SplashScreen.OnError | app/src/main/java/com/example/edunav/SplashActivity.kt:110-118 | an error posts a navigation only while the screen has not navigated |
| Splash.SplashScreen.RunTask | app/src/main/java/com/example/edunav/SplashActivity.kt:64-128 | whichever of its closures runs, afterwards the screen has navigated, and home has been started once in all |
| Splash.SplashScreen.Skip | app/src/main/java/com/example/edunav/SplashActivity.kt:73-80 | a tap or the Skip button leaves the screen, starting home unless that already happened |
| Splash.SplashScreen.OnReadyEffect | app/src/main/java/com/example/edunav/SplashActivity.kt:307-312 | the effect navigates only once the screen is ready |
| Splash.NextDot | app/src/main/java/com/example/edunav/SplashActivity.kt:322 | the dot count steps 0, 1, 2, 3 and wraps back to 0 |
| Splash.DotsCycle | app/src/main/java/com/example/edunav/SplashActivity.kt:319-324 | every count returns to itself after four ticks, and no tick keeps it in place |
| Splash.Repeat | app/src/main/java/com/example/edunav/SplashActivity.kt:326 | `repeat` yields exactly n copies of the character |
| Splash.LoadingLabel | app/src/main/java/com/example/edunav/SplashActivity.kt:326-331 | the label is "Loading" followed by exactly the counted number of dots |
| Splash.LoadingIndicator.constructor | app/src/main/java/com/example/edunav/SplashActivity.kt:317 | the count starts at zero |
| Splash.LoadingIndicator.Label | app/src/main/java/com/example/edunav/SplashActivity.kt:326-331 | the shown text is never longer than "Loading..." |
| Splash.LoadingIndicator.Tick | app/src/main/java/com/example/edunav/SplashActivity.kt:322 | one turn of the loop advances the count by `NextDot` |
| Splash.LoadingIndicator.Run | app/src/main/java/com/example/edunav/SplashActivity.kt:319-324 | after n turns the count has advanced by n modulo 4 and is still below 4 |

## Left out

- Unicode case mapping: `Text.Lower` lower-cases ASCII letters only. `Locale.ROOT` lower-casing of other scripts is not modelled.
- Unicode whitespace: `Text.IsBlank` treats the ASCII and Java whitespace characters as blank. Unicode space separators are not modelled.
- Timing: every delay (timeouts, re-listen delays, the one-minute reminder, `Thread.sleep`) is not modelled. A posted closure only runs at some later point.
- Listening settings: the recogniser's prompt strings, language model and `EXTRA_LANGUAGE` are not carried in `Listen`.
- Missing recogniser: the home and transcription screens catch `ActivityNotFoundException` and show a toast; the class and tutorials screens launch the recogniser without a catch, so a missing recogniser crashes them. None of the four is modelled: `Listen` always succeeds.
- The empty result list: every screen's `OnRecognizerResult` reads the result through the corrected `Effects.FirstMatchText`, so a present but empty list is handled as the command "". The code as written throws `IndexOutOfBoundsException` there; only `Effects.FirstMatchAsWritten` models that throw (see Findings).
- Speech rate and pitch: these floating-point preferences are not modelled.
- Engine teardown: `tts.stop()` and `tts.shutdown()` are not modelled.
- Intent flags: the splash screen's `NEW_TASK | CLEAR_TASK` flags are folded into `Navigate(Home)`.
- The Compose screens and their buttons are not modelled. Only the transcription screen's buttons call the modelled methods (start, stop and command listening). The home buttons speak, cancel the reminder and launch, but do not reset the timer as the voice path does. The class screen's Start Navigation button only speaks "Starting navigation." (its navigation is unimplemented); its Back button speaks "Back" and finishes. The tutorials Back button is the only place that returns RESULT_OK, which is what sets the home screen's welcome-back mark.
- The splash progress bar and the `LaunchedEffect` loop that drives it: the bar is a floating-point function of the clock. The other effect, keyed on `isReadyToNavigate`, is `Splash.SplashScreen.OnReadyEffect`.
- SettingsActivity: it is not part of this model.
- `SplashActivity.kt.kt`: it is not part of this model, because it is an unused duplicate file.
- The helper's `Handler.post`: the helper's listener wraps its `when` in a `Handler.post`. `CommandHelper.OnDone` takes that post as already run.
- Transcribe.SpeakAction: the utterance id drawn for an untagged utterance is a parameter, not a random UUID.
- Splash.LoadingIndicator.Run: models a bounded number of turns of the effect's endless loop.

## Findings

| source | as written | input that shows it | evidently intended | confidence | as-written member | corrected member |
|---|---|---|---|---|---|---|
| app/src/main/java/com/example/edunav/MainActivity.kt:58-59 | `matches?.get(0)` indexes the result list without checking that it is non-empty, and the same expression appears in every screen | an OK recogniser result whose `EXTRA_RESULTS` list is present but empty: `get(0)` throws `IndexOutOfBoundsException` | the `?.` chain ending in `?: ""` shows that a missing recognition should read as "" | not executed | Effects.EmptyMatchListThrows | Effects.FirstMatchText |

/**
 * The splash screen (SplashActivity): it greets the user under the OPENING
 * utterance id and leaves for the home screen when the greeting is done, when
 * speech fails, when the six-second timeout fires, or when the user taps or
 * skips. Every one of those routes goes through `navigateToHome`, whose
 * `hasNavigated` flag makes the home screen start at most once.
 *
 * The screen's variables are a `SplashScreen` object whose methods update
 * them; `Step` is the same behaviour as a function of the old state, which
 * the methods are proved against and which lets the lemmas talk about whole
 * runs of callbacks.
 */
module Splash {
  import opened Wrappers
  import opened Effects

  const Greeting := "Welcome to EduNav. An accessible learning assistant for blind and visually impaired students. "
                  + "Initializing the app. Please wait."

  /** The activity's variables. */
  datatype SplashState = SplashState(
    hasNavigated: bool,
    isReadyToNavigate: bool,
    ttsStarted: bool,
    listenerInstalled: bool)  // the progress listener is set up only after a successful init

  /** Freshly created: nothing has happened yet. */
  const Initial := SplashState(false, false, false, false)

  /** The callbacks that drive the screen. */
  datatype SplashEvent =
    | Created                                          // onCreate
    | Initialised(success: bool, languagePref: Option<string>)  // onInit
    | UtteranceStarted(id: Option<string>)             // listener onStart
    | UtteranceDone(id: Option<string>)                // listener onDone
    | UtteranceError(id: Option<string>)               // listener onError
    | Fired(task: Task)                                // a posted closure runs
    | Tapped                                           // tap anywhere
    | Skipped                                          // the Skip button
    | ReadyEffect                                      // the effect keyed on isReadyToNavigate

  /** How many times the actions start the home screen. */
  function HomeLaunches(acts: seq<Action>): (n: nat)
    ensures n <= |acts|
    ensures n == 0 <==> Navigate(Home) !in acts
    decreases |acts|
  {
    if acts == [] then 0
    else (if acts[0] == Navigate(Home) then 1 else 0) + HomeLaunches(acts[1..])
  }

  lemma {:induction false} HomeLaunchesAppend(a: seq<Action>, b: seq<Action>)
    ensures HomeLaunches(a + b) == HomeLaunches(a) + HomeLaunches(b)
    decreases |a|
  {
    if a == [] {
      assert a + b == b;
    } else {
      assert (a + b)[1..] == a[1..] + b;
      HomeLaunchesAppend(a[1..], b);
    }
  }

  /**
   * `navigateToHome`: the first call starts the home screen on a cleared task
   * and finishes the splash screen; every later call returns at once.
   */
  function HomeNavigation(st: SplashState): (r: (SplashState, seq<Action>))
    ensures r.0.hasNavigated
    ensures r.0 == st.(hasNavigated := true)
    ensures st.hasNavigated ==> r.1 == []
    ensures !st.hasNavigated ==> Navigate(Home) in r.1 && Finish in r.1
    ensures HomeLaunches(r.1) == if st.hasNavigated then 0 else 1
  {
    if st.hasNavigated then (st, [])
    else (st.(hasNavigated := true), [Navigate(Home), Finish])
  }

  /** The closures this screen posts. */
  predicate PostedHere(t: Task) {
    t == GuardedHomeTask || t == OpeningDoneTask || t == HomeTask
  }

  /**
   * One callback: the new state and what the screen asks the platform to do.
   * The home screen is started exactly when the flag goes from unset to set,
   * the flag is never cleared, and only this screen's closures are posted.
   */
  function Step(st: SplashState, ev: SplashEvent): (r: (SplashState, seq<Action>))
    ensures st.hasNavigated ==> r.0.hasNavigated
    ensures HomeLaunches(r.1) == if !st.hasNavigated && r.0.hasNavigated then 1 else 0
    ensures forall t :: Post(t) in r.1 ==> PostedHere(t)
  {
    match ev
    case Created =>
      // the six-second timeout
      (st, [Post(GuardedHomeTask)])
    case Initialised(success, languagePref) =>
      if success then
        (st.(listenerInstalled := true),
         [SetVoiceLanguage(Locale(languagePref.GetOr("en"))), Speak(Greeting, Some("OPENING"), Flush)])
      else
        (st, [Post(GuardedHomeTask)])
    case UtteranceStarted(_) =>
      (if st.listenerInstalled then st.(ttsStarted := true) else st, [])
    case UtteranceDone(id) =>
      (st, if st.listenerInstalled && id == Some("OPENING") then [Post(OpeningDoneTask)] else [])
    case UtteranceError(_) =>
      (st, if st.listenerInstalled && !st.hasNavigated then [Post(HomeTask)] else [])
    case Fired(t) =>
      if t == OpeningDoneTask then HomeNavigation(st.(isReadyToNavigate := true))
      else if t == GuardedHomeTask then (if !st.hasNavigated then HomeNavigation(st) else (st, []))
      else if t == HomeTask then HomeNavigation(st)
      else (st, [])
    case Tapped => HomeNavigation(st)
    case Skipped => HomeNavigation(st)
    case ReadyEffect =>
      if st.isReadyToNavigate then HomeNavigation(st) else (st, [])
  }

  /** A run of callbacks: the final state and all the actions, in order. */
  function Run(st: SplashState, evs: seq<SplashEvent>): (SplashState, seq<Action>)
    decreases |evs|
  {
    if evs == [] then (st, [])
    else
      var (mid, first) := Step(st, evs[0]);
      var (last, rest) := Run(mid, evs[1..]);
      (last, first + rest)
  }

  /**
   * Whatever happens, and in whatever order, the home screen is started at
   * most once: exactly once if the run sets the flag, never if it was set
   * already or stays unset; and a set flag stays set.
   */
  lemma {:induction false} LaunchesHomeAtMostOnce(st: SplashState, evs: seq<SplashEvent>)
    ensures st.hasNavigated ==> Run(st, evs).0.hasNavigated
    ensures HomeLaunches(Run(st, evs).1) == if !st.hasNavigated && Run(st, evs).0.hasNavigated then 1 else 0
    ensures HomeLaunches(Run(st, evs).1) <= 1
    decreases |evs|
  {
    if evs != [] {
      var (mid, first) := Step(st, evs[0]);
      var (last, rest) := Run(mid, evs[1..]);
      LaunchesHomeAtMostOnce(mid, evs[1..]);
      HomeLaunchesAppend(first, rest);
    }
  }

  /** The timeout closure, once it fires, always leaves the splash screen behind. */
  lemma TimeoutLeaves(st: SplashState)
    ensures Step(st, Created).1 == [Post(GuardedHomeTask)]
    ensures Step(st, Fired(GuardedHomeTask)).0.hasNavigated
    ensures HomeLaunches(Step(st, Fired(GuardedHomeTask)).1) == if st.hasNavigated then 0 else 1
  {
  }

  /**
   * Speech that works: the greeting goes out under OPENING, its completion
   * posts the ready closure, and that closure starts the home screen.
   */
  lemma GreetingThenHome(languagePref: Option<string>)
    ensures var (s1, a1) := Step(Initial, Initialised(true, languagePref));
            a1 == [SetVoiceLanguage(Locale(languagePref.GetOr("en"))), Speak(Greeting, Some("OPENING"), Flush)] &&
            var (s2, a2) := Step(s1, UtteranceDone(Some("OPENING")));
            a2 == [Post(OpeningDoneTask)] &&
            var (s3, a3) := Step(s2, Fired(OpeningDoneTask));
            s3.hasNavigated && s3.isReadyToNavigate && a3 == [Navigate(Home), Finish]
  {
  }

  /** Speech that fails to start: a guarded navigation is posted instead of a greeting. */
  lemma FailedInitStillLeaves(st: SplashState, languagePref: Option<string>)
    ensures Step(st, Initialised(false, languagePref)) == (st, [Post(GuardedHomeTask)])
    ensures Step(st, Fired(GuardedHomeTask)).0.hasNavigated
  {
  }

  /** Utterances other than the greeting do not move the screen on; callbacks before setup do nothing. */
  lemma OnlyOpeningCompletes(st: SplashState, id: Option<string>)
    ensures Step(st, UtteranceDone(id)).1 != [] <==> st.listenerInstalled && id == Some("OPENING")
    ensures !st.listenerInstalled ==> Step(st, UtteranceError(id)).1 == [] && Step(st, UtteranceStarted(id)).0 == st
  {
  }

  /** An error after the screen has already left posts nothing. */
  lemma ErrorAfterLeavingIsSilent(st: SplashState, id: Option<string>)
    requires st.hasNavigated
    ensures Step(st, UtteranceError(id)) == (st, [])
  {
  }

  /** The splash activity object, its fields updated by its callbacks. */
  class SplashScreen {
    var hasNavigated: bool
    var isReadyToNavigate: bool
    var ttsStarted: bool
    var listenerInstalled: bool
    ghost var homeLaunches: nat  // how many times this screen has started the home screen

    function State(): SplashState
      reads this
    {
      SplashState(hasNavigated, isReadyToNavigate, ttsStarted, listenerInstalled)
    }

    /** The home screen has been started once if the flag is set and never otherwise. */
    ghost predicate Valid()
      reads this
    {
      homeLaunches == if hasNavigated then 1 else 0
    }

    constructor ()
      ensures Valid() && State() == Initial
    {
      hasNavigated := false;
      isReadyToNavigate := false;
      ttsStarted := false;
      listenerInstalled := false;
      homeLaunches := 0;
    }

    /** `navigateToHome`. */
    method NavigateToHome() returns (acts: seq<Action>)
      requires Valid()
      modifies this`hasNavigated, this`homeLaunches
      ensures Valid() && hasNavigated && homeLaunches == 1
      ensures (State(), acts) == HomeNavigation(old(State()))
    {
      if hasNavigated {
        acts := [];
        return;
      }
      hasNavigated := true;
      homeLaunches := homeLaunches + 1;
      acts := [Navigate(Home), Finish];
    }

    /** `onCreate`: post the timeout. */
    method OnCreate() returns (acts: seq<Action>)
      ensures (State(), acts) == Step(State(), Created)
    {
      acts := [Post(GuardedHomeTask)];
    }

    /** `onInit`: on success set the language, install the listener and greet; otherwise post a guarded navigation. */
    method OnInit(success: bool, languagePref: Option<string>) returns (acts: seq<Action>)
      modifies this`listenerInstalled
      ensures (State(), acts) == Step(old(State()), Initialised(success, languagePref))
    {
      if success {
        listenerInstalled := true;
        acts := [SetVoiceLanguage(Locale(languagePref.GetOr("en"))), Speak(Greeting, Some("OPENING"), Flush)];
      } else {
        acts := [Post(GuardedHomeTask)];
      }
    }

    /** The listener's `onStart`. */
    method OnStart(id: Option<string>)
      modifies this`ttsStarted
      ensures State() == Step(old(State()), UtteranceStarted(id)).0
    {
      if listenerInstalled {
        ttsStarted := true;
      }
    }

    /** The listener's `onDone`. */
    method OnDone(id: Option<string>) returns (acts: seq<Action>)
      ensures (State(), acts) == Step(State(), UtteranceDone(id))
    {
      acts := if listenerInstalled && id == Some("OPENING") then [Post(OpeningDoneTask)] else [];
    }

    /** The listener's `onError`. */
    method OnError(id: Option<string>) returns (acts: seq<Action>)
      ensures (State(), acts) == Step(State(), UtteranceError(id))
    {
      acts := if listenerInstalled && !hasNavigated then [Post(HomeTask)] else [];
    }

    /** A closure this screen posted runs; afterwards the screen has always left. */
    method RunTask(t: Task) returns (acts: seq<Action>)
      requires Valid() && PostedHere(t)
      modifies this`hasNavigated, this`isReadyToNavigate, this`homeLaunches
      ensures Valid() && hasNavigated
      ensures (State(), acts) == Step(old(State()), Fired(t))
    {
      if t == OpeningDoneTask {
        isReadyToNavigate := true;
        acts := NavigateToHome();
      } else if t == GuardedHomeTask {
        if !hasNavigated {
          acts := NavigateToHome();
        } else {
          acts := [];
        }
      } else {
        acts := NavigateToHome();
      }
    }

    /** Tap anywhere, or the Skip button. */
    method Skip(tapped: bool) returns (acts: seq<Action>)
      requires Valid()
      modifies this`hasNavigated, this`homeLaunches
      ensures Valid() && hasNavigated
      ensures (State(), acts) == Step(old(State()), if tapped then Tapped else Skipped)
    {
      acts := NavigateToHome();
    }

    /** The effect keyed on `isReadyToNavigate`. */
    method OnReadyEffect() returns (acts: seq<Action>)
      requires Valid()
      modifies this`hasNavigated, this`homeLaunches
      ensures Valid()
      ensures (State(), acts) == Step(old(State()), ReadyEffect)
    {
      if isReadyToNavigate {
        acts := NavigateToHome();
      } else {
        acts := [];
      }
    }
  }

  // ---------------------------------------------------------------------------
  // The "Loading..." indicator: a dot count cycling through 0, 1, 2, 3.

  /** The next dot count. */
  function NextDot(dotCount: nat): (r: nat)
    ensures r < 4
    ensures dotCount < 3 ==> r == dotCount + 1
    ensures dotCount == 3 ==> r == 0
  {
    (dotCount + 1) % 4
  }

  /** From any reachable count, four ticks come back to it. */
  lemma DotsCycle(dotCount: nat)
    requires dotCount < 4
    ensures NextDot(NextDot(NextDot(NextDot(dotCount)))) == dotCount
    ensures NextDot(dotCount) != dotCount
  {
  }

  /** `c` repeated `n` times. */
  function Repeat(c: char, n: nat): (r: string)
    ensures |r| == n
    ensures forall i :: 0 <= i < |r| ==> r[i] == c
  {
    if n == 0 then [] else [c] + Repeat(c, n - 1)
  }

  /** The label shown for a dot count: "Loading" and then that many dots. */
  function LoadingLabel(dotCount: nat): (r: string)
    ensures |r| == 7 + dotCount
    ensures r[..7] == "Loading"
    ensures forall i :: 7 <= i < |r| ==> r[i] == '.'
  {
    "Loading" + Repeat('.', dotCount)
  }

  class LoadingIndicator {
    var dotCount: nat

    ghost predicate Valid()
      reads this
    {
      dotCount < 4
    }

    constructor ()
      ensures Valid() && dotCount == 0
    {
      dotCount := 0;
    }

    /** The text currently shown, never longer than "Loading...". */
    function Label(): (r: string)
      reads this
      requires Valid()
      ensures |r| <= 10
    {
      LoadingLabel(dotCount)
    }

    /** One turn of the effect's loop. */
    method Tick()
      requires Valid()
      modifies this
      ensures Valid() && dotCount == NextDot(old(dotCount))
    {
      dotCount := (dotCount + 1) % 4;
    }

    /** `ticks` turns of the loop: the count advances by `ticks` modulo 4. */
    method Run(ticks: nat)
      requires Valid()
      modifies this
      ensures Valid() && dotCount == (old(dotCount) + ticks) % 4
    {
      var i := 0;
      while i < ticks
        invariant 0 <= i <= ticks
        invariant Valid()
        invariant dotCount == (old(dotCount) + i) % 4
      {
        Tick();
        i := i + 1;
      }
    }
  }
}

/** The application shell: it shows a splash on launch and whenever the app returns from the
    background, and otherwise renders the map screen under a key that it bumps on every such
    return, so that the screen is mounted afresh. The splash timer and its fade-out animation
    are not modelled; their end is the SplashFinished step. */
module AppShell {
  import MapSearchScreen

  /** React Native's `AppStateStatus`. */
  datatype AppStatus = Active | Background | Inactive | Unknown | Extension

  /** What App renders: the splash, or the map screen under a key. */
  datatype Shown = Splash | MapScreen(key: nat)

  /** The shell's state: splash visibility, the screen key and the last app state seen. */
  datatype ShellState = ShellState(showSplash: bool, screenKey: nat, appState: AppStatus)

  /** A return from the background to the foreground. */
  predicate IsReset(previous: AppStatus, next: AppStatus)
    ensures IsReset(previous, next) ==> previous != next && next == Active
  {
    previous == Background && next == Active
  }

  /** `handleAppStateChange(next)`: the new state is recorded for the next change; a reset bumps
      the key by one and shows the splash; any other change leaves key and splash alone. */
  function AppStateChanged(st: ShellState, next: AppStatus): (t: ShellState)
    ensures t.appState == next
    ensures IsReset(st.appState, next) ==> t.screenKey == st.screenKey + 1 && t.showSplash
    ensures !IsReset(st.appState, next) ==> t.screenKey == st.screenKey && t.showSplash == st.showSplash
  {
    var previousState := st.appState;
    var st := st.(appState := next);
    if IsReset(previousState, next) then st.(screenKey := st.screenKey + 1, showSplash := true) else st
  }

  /** The render choice: nothing but the splash while it is visible, otherwise the screen under
      the current key. */
  function ShownBy(st: ShellState): (s: Shown)
    ensures s == Splash <==> st.showSplash
    ensures s.MapScreen? ==> s.key == st.screenKey
  {
    if st.showSplash then Splash else MapScreen(st.screenKey)
  }

  /** The shell after a run of app-state changes. */
  function Replay(st: ShellState, events: seq<AppStatus>): (t: ShellState)
    ensures t.screenKey >= st.screenKey
    ensures events != [] ==> t.appState == events[|events| - 1]
    decreases |events|
  {
    if events == [] then st else Replay(AppStateChanged(st, events[0]), events[1..])
  }

  /** The number of background-to-active returns in a run of changes that starts from the app
      state `previous`. */
  function Resets(previous: AppStatus, events: seq<AppStatus>): nat
    decreases |events|
  {
    if events == [] then 0
    else (if IsReset(previous, events[0]) then 1 else 0) + Resets(events[0], events[1..])
  }

  /** Over any run of changes the key grows by exactly the number of returns from the
      background, and the last change is the state recorded. */
  lemma {:induction false} ReplayCountsResets(st: ShellState, events: seq<AppStatus>)
    ensures Replay(st, events).screenKey == st.screenKey + Resets(st.appState, events)
    ensures Replay(st, events).appState == if events == [] then st.appState else events[|events| - 1]
    decreases |events|
  {
    if events != [] {
      ReplayCountsResets(AppStateChanged(st, events[0]), events[1..]);
    }
  }

  /** A run with no return from the background changes neither the key nor the splash. */
  lemma {:induction false} NoResetKeepsScreen(st: ShellState, events: seq<AppStatus>)
    requires Resets(st.appState, events) == 0
    ensures Replay(st, events).screenKey == st.screenKey
    ensures Replay(st, events).showSplash == st.showSplash
    decreases |events|
  {
    if events != [] {
      NoResetKeepsScreen(AppStateChanged(st, events[0]), events[1..]);
    }
  }

  /** Right after a return from the background the splash covers the screen. */
  lemma ResetShowsSplash(st: ShellState)
    requires st.appState == Background
    ensures ShownBy(AppStateChanged(st, Active)) == Splash
  {
  }

  /** The shell component: its two state cells, its `appState` ref, and the map screen React
      currently has mounted under it (null while the splash is shown) with the key it was
      mounted under. */
  class App {
    var showSplash: bool
    var screenKey: nat
    var appState: AppStatus
    var screen: MapSearchScreen.SearchScreen?
    var mountedKey: nat

    function State(): ShellState
      reads this
    {
      ShellState(showSplash, screenKey, appState)
    }

    /** First render: the splash is visible, the key is 0, and the ref holds the app state of
        the moment. */
    constructor (currentState: AppStatus)
      ensures State() == ShellState(true, 0, currentState)
      ensures screen == null
    {
      showSplash := true;
      screenKey := 0;
      appState := currentState;
      screen := null;
      mountedKey := 0;
    }

    /** `showSplashScreen`, run by the mount effect and by a reset: the splash becomes visible
        (its timer is not modelled). */
    method ShowSplashScreen()
      modifies this
      ensures State() == old(State()).(showSplash := true)
      ensures screen == old(screen) && mountedKey == old(mountedKey)
    {
      showSplash := true;
    }

    /** The listener for app-state changes. */
    method HandleAppStateChange(nextAppState: AppStatus)
      modifies this
      ensures State() == AppStateChanged(old(State()), nextAppState)
      ensures screen == old(screen) && mountedKey == old(mountedKey)
    {
      var previousState := appState;
      appState := nextAppState;
      if previousState == Background && nextAppState == Active {
        screenKey := screenKey + 1;
        ShowSplashScreen();
      }
    }

    /** The end of the splash's fade-out animation. */
    method SplashFinished()
      modifies this
      ensures State() == old(State()).(showSplash := false)
      ensures screen == old(screen) && mountedKey == old(mountedKey)
    {
      showSplash := false;
    }

    /** React's reconciliation of what App renders: while the splash is shown no screen is
        mounted; otherwise the mounted screen is kept if it was mounted under the current key,
        and a new one is mounted (with its mount effect started) if there was none or the key
        has changed since. */
    method Reconcile()
      modifies this
      ensures State() == old(State())
      ensures showSplash ==> screen == null
      ensures !showSplash ==> screen != null && mountedKey == screenKey
      ensures !showSplash && (old(screen) == null || old(mountedKey) != screenKey) ==>
                fresh(screen) && screen.State() == MapSearchScreen.MountStarted(MapSearchScreen.InitialState())
      ensures !showSplash && old(screen) != null && old(mountedKey) == screenKey ==> screen == old(screen)
    {
      if showSplash {
        screen := null;
      } else if screen == null || mountedKey != screenKey {
        var mounted := new MapSearchScreen.SearchScreen();
        mounted.BeginMount();
        screen := mounted;
        mountedKey := screenKey;
      }
    }
  }

  /** Backgrounding and returning while the screen is shown: the splash comes back, and when it
      ends the screen shown is a new one in the state a mount starts from. */
  method ReturnFromBackground(app: App)
    requires !app.showSplash && app.appState == Active
    modifies app
    ensures app.screenKey == old(app.screenKey) + 1
    ensures app.screen != null && fresh(app.screen)
    ensures app.screen.State() == MapSearchScreen.MountStarted(MapSearchScreen.InitialState())
  {
    app.Reconcile();
    app.HandleAppStateChange(Background);
    app.HandleAppStateChange(Active);
    app.Reconcile();
    assert app.screen == null;
    app.SplashFinished();
    app.Reconcile();
  }
}

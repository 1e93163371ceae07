/** The app entry (iSpace/iSpaceApp.swift) and the root router
    (iSpace/ContentView.swift): leaving the foreground locks the vault, and
    the main screens show only while it is unlocked. */
module App {
  import opened Wrappers
  import ViewModels

  /** The scene phases the platform reports. */
  datatype ScenePhase = Active | Inactive | Background

  /** The phases on which the vault locks. */
  predicate ShouldLock(newPhase: ScenePhase)
  {
    newPhase == Inactive || newPhase == Background
  }

  /** The scene-phase `onChange` handler. */
  method OnScenePhaseChange(vm: ViewModels.AppViewModel, oldPhase: ScenePhase, newPhase: ScenePhase)
    modifies vm`isLocked
    ensures ShouldLock(newPhase) ==> vm.isLocked
    ensures !ShouldLock(newPhase) ==> vm.isLocked == old(vm.isLocked)
  {
    if newPhase == Inactive || newPhase == Background {
      vm.Lock();
    }
  }

  /** What `ContentView` shows. */
  datatype Screen = LockScreen | MainTabs

  function Route(isLocked: bool): Screen
  {
    if isLocked then LockScreen else MainTabs
  }

  /** The events that move the lock flag: a scene-phase change, or the
      answer to an unlock request. */
  datatype Event = PhaseChange(newPhase: ScenePhase) | AuthAnswer(outcome: ViewModels.AuthOutcome)

  /** The lock flag after one event. */
  function Step(locked: bool, e: Event): bool
  {
    match e
    case PhaseChange(p) => if ShouldLock(p) then true else locked
    case AuthAnswer(o) => if o == ViewModels.Evaluated(true) then false else locked
  }

  /** The lock flag after a run of events. */
  function LockedAfter(locked: bool, events: seq<Event>): bool
    decreases |events|
  {
    if events == [] then locked else LockedAfter(Step(locked, events[0]), events[1..])
  }

  /** The alert after one event: a failed or unavailable authentication
      sets its own alert; anything else leaves the alert as it was. */
  function StepAlert(alert: Option<ViewModels.Alert>, e: Event): Option<ViewModels.Alert>
  {
    match e
    case PhaseChange(_) => alert
    case AuthAnswer(o) =>
      match o
      case Evaluated(success) => if success then alert else Some(ViewModels.AuthenticationFailed)
      case Unavailable => Some(ViewModels.BiometricsUnavailable)
  }

  /** The alert after a run of events. */
  function AlertAfter(alert: Option<ViewModels.Alert>, events: seq<Event>): Option<ViewModels.Alert>
    decreases |events|
  {
    if events == [] then alert else AlertAfter(StepAlert(alert, events[0]), events[1..])
  }

  /** Delivers the events to the view-model one by one, as the main actor
      would; the lock flag and the alert end as `LockedAfter` and
      `AlertAfter` say. */
  method Replay(vm: ViewModels.AppViewModel, events: seq<Event>)
    modifies vm`isLocked, vm`alertMessage
    ensures vm.isLocked == LockedAfter(old(vm.isLocked), events)
    ensures vm.alertMessage == AlertAfter(old(vm.alertMessage), events)
  {
    var phase := Active;
    var k := 0;
    while k < |events|
      invariant 0 <= k <= |events|
      invariant LockedAfter(vm.isLocked, events[k..]) == LockedAfter(old(vm.isLocked), events)
      invariant AlertAfter(vm.alertMessage, events[k..]) == AlertAfter(old(vm.alertMessage), events)
      decreases |events| - k
    {
      assert events[k..][1..] == events[k + 1..];
      match events[k] {
        case PhaseChange(p) =>
          OnScenePhaseChange(vm, phase, p);
          phase := p;
        case AuthAnswer(o) =>
          vm.Authenticate(o);
      }
      k := k + 1;
    }
  }

  /** The lock events never raise a catalog alert: after any run of events
      the alert is the one the app started with or an authentication alert. */
  lemma {:induction false} OnlyAuthenticationAlerts(alert: Option<ViewModels.Alert>, events: seq<Event>)
    ensures var a := AlertAfter(alert, events);
            a == alert || a == Some(ViewModels.AuthenticationFailed) || a == Some(ViewModels.BiometricsUnavailable)
    decreases |events|
  {
    if events != [] {
      var next := StepAlert(alert, events[0]);
      OnlyAuthenticationAlerts(next, events[1..]);
    }
  }

  /** An unlock request answered with success. */
  predicate Unlocks(e: Event)
  {
    e == AuthAnswer(ViewModels.Evaluated(true))
  }

  /** Without a successful authentication the vault stays locked: a locked
      app never reaches the main screens. */
  lemma {:induction false} OnlyAuthenticationUnlocks(events: seq<Event>)
    requires forall i :: 0 <= i < |events| ==> !Unlocks(events[i])
    ensures LockedAfter(true, events)
    ensures Route(LockedAfter(true, events)) == LockScreen
  {
    if events != [] {
      OnlyAuthenticationUnlocks(events[1..]);
    }
  }

  /** Once the app leaves the foreground it is locked, and stays locked
      until the next successful authentication, whatever came before. */
  lemma {:induction false} BackgroundLocks(locked: bool, events: seq<Event>, i: nat)
    requires i < |events| && events[i].PhaseChange? && ShouldLock(events[i].newPhase)
    requires forall j :: i < j < |events| ==> !Unlocks(events[j])
    ensures LockedAfter(locked, events)
    decreases i
  {
    if i == 0 {
      OnlyAuthenticationUnlocks(events[1..]);
    } else {
      BackgroundLocks(Step(locked, events[0]), events[1..], i - 1);
    }
  }
}

/** The generations of image manager, exec controller and last known good config that the
    config-map reconciler goes through, as a step system: any external call may fail, and a
    running controller or manager may end on its own at any time. */
module Lifecycle {
  import opened Values

  /** The cancel handle of an image manager or exec controller. `held` is a non-nil handle,
      `ended` says that its context was cancelled, `launched` that Start returned no error. */
  datatype Unit = Unit(config: string, held: bool, ended: bool, launched: bool)

  function Started(u: Unit, ok: bool): Unit { u.(held := true, ended := false, launched := ok) }
  function Stopped(u: Unit): Unit { if u.held then u.(held := false, ended := true) else u }
  /** A goroutine that ends on its own cancels the context but keeps the handle. */
  function Crashed(u: Unit): Unit { if u.held then u.(ended := true) else u }

  /** `man` and `ctl` hold every manager and controller ever created; the reconciler knows
      the ones that `fni` and `fne` point at. */
  datatype State = State(
    fni: Option<nat>, fne: Option<nat>, cm: Option<string>,
    man: seq<Unit>, ctl: seq<Unit>)

  datatype Found = GetError | Absent | Deleted | Config(data: string)

  /** What the outside world answers during one attempt. */
  datatype Attempt = Attempt(found: Found, newManager: bool, startManager: bool, startController: bool, update: bool)

  datatype Action = Create | Update | Ignore

  /** An exec controller has goroutines once Start is through; an image manager already while
      Start works on its images, so one of them may end although Start fails on a later image. */
  datatype Event = Reconciled(a: Attempt) | ControllerEnds(k: nat) | ManagerEnds(k: nat)

  predicate WellFormed(s: State) {
    (s.fni.Some? ==> s.fni.value < |s.man|) && (s.fne.Some? ==> s.fne.value < |s.ctl|)
  }

  function CheckAction(s: State, data: string): Action {
    if s.cm.None? then Create else if s.cm.value != data then Update else Ignore
  }

  predicate IsRunning(s: State)
    requires WellFormed(s)
  {
    s.fne.Some? && s.ctl[s.fne.value].held
  }

  predicate ManagerRunning(s: State)
    requires WellFormed(s)
  {
    s.fni.Some? && s.man[s.fni.value].held
  }

  function StopAt(us: seq<Unit>, k: Option<nat>): seq<Unit>
    requires k.Some? ==> k.value < |us|
  {
    if k.Some? then us[k.value := Stopped(us[k.value])] else us
  }

  function StopBoth(s: State): State
    requires WellFormed(s)
  {
    s.(man := StopAt(s.man, s.fni), ctl := StopAt(s.ctl, s.fne))
  }

  /** From the creation of the image manager on. */
  function Launch(s: State, data: string, a: Attempt): State {
    if !a.newManager then s.(fni := None) else
      var s1 := s.(fni := Some(|s.man|), man := s.man + [Started(Unit(data, false, false, false), a.startManager)]);
      if !a.startManager then s1 else
        var s2 := s1.(fne := Some(|s.ctl|),
                      ctl := s.ctl + [Started(Unit(data, false, false, false), a.startController)]);
        if a.startController && a.update then s2.(cm := Some(data)) else s2
  }

  /** The attempt is past the ignore branch and the parser. */
  predicate Proceeds(parses: string -> bool, s: State, a: Attempt)
    requires WellFormed(s)
  {
    a.found.Config? && !(CheckAction(s, a.found.data).Ignore? && IsRunning(s)) && parses(a.found.data)
  }

  predicate Creates(parses: string -> bool, s: State, a: Attempt)
    requires WellFormed(s)
  {
    Proceeds(parses, s, a) && a.newManager && a.startManager
  }

  /** rec.Reconcile. */
  function Reconcile(parses: string -> bool, s: State, a: Attempt): State
    requires WellFormed(s)
  {
    match a.found
    case Deleted => StopBoth(s)
    case Config(data) =>
      if !Proceeds(parses, s, a) then s
      else Launch(if CheckAction(s, data).Update? then StopBoth(s) else s, data, a)
    case _ => s
  }

  function Next(parses: string -> bool, s: State, e: Event): State
    requires WellFormed(s)
  {
    match e
    case Reconciled(a) => Reconcile(parses, s, a)
    case ControllerEnds(k) => if k < |s.ctl| && s.ctl[k].launched then s.(ctl := s.ctl[k := Crashed(s.ctl[k])]) else s
    case ManagerEnds(k) => if k < |s.man| then s.(man := s.man[k := Crashed(s.man[k])]) else s
  }

  function Fresh(): State { State(None, None, None, [], []) }

  function After(parses: string -> bool, events: seq<Event>): (s: State)
    ensures WellFormed(s)
    decreases |events|
  {
    if events == [] then Fresh() else Next(parses, After(parses, events[..|events| - 1]), events[|events| - 1])
  }

  // ------------------------------------------------------------------- leaks

  /** A controller nobody can stop any more although its handle was never called. */
  predicate LostController(s: State, k: nat) {
    k < |s.ctl| && s.ctl[k].held && s.fne != Some(k)
  }

  predicate LostManager(s: State, k: nat) {
    k < |s.man| && s.man[k].held && s.fni != Some(k)
  }

  ghost predicate SomeControllerLost(s: State) {
    exists k: nat :: LostController(s, k)
  }

  ghost predicate SomeManagerLost(s: State) {
    exists k: nat :: LostManager(s, k)
  }

  /** The attempt overwrites the pointer to a controller that was not stopped. */
  predicate DropsController(parses: string -> bool, s: State, e: Event)
    requires WellFormed(s)
  {
    e.Reconciled? && Creates(parses, s, e.a) && s.cm.None? && IsRunning(s)
  }

  /** The attempt overwrites the pointer to a manager that was not stopped. */
  predicate DropsManager(parses: string -> bool, s: State, e: Event)
    requires WellFormed(s)
  {
    e.Reconciled? && Proceeds(parses, s, e.a) && (s.cm.None? || s.cm.value == e.a.found.data) && ManagerRunning(s)
  }

  /** Controllers get lost by a dropping attempt, that one at that moment, and never come back. */
  lemma ControllersGetLost(parses: string -> bool, s: State, e: Event, k: nat)
    requires WellFormed(s)
    ensures LostController(Next(parses, s, e), k) <==>
            LostController(s, k) || (DropsController(parses, s, e) && s.fne == Some(k))
  {
  }

  lemma ManagersGetLost(parses: string -> bool, s: State, e: Event, k: nat)
    requires WellFormed(s)
    ensures LostManager(Next(parses, s, e), k) <==>
            LostManager(s, k) || (DropsManager(parses, s, e) && s.fni == Some(k))
  {
  }

  /** Before some event of the run, `drops` held of the state and the event. */
  predicate Once(parses: string -> bool, events: seq<Event>, drops: (State, Event) -> bool)
    decreases |events|
  {
    events != [] &&
    var before := events[..|events| - 1];
    Once(parses, before, drops) || drops(After(parses, before), events[|events| - 1])
  }

  predicate At(parses: string -> bool, events: seq<Event>, drops: (State, Event) -> bool, i: nat) {
    i < |events| && drops(After(parses, events[..i]), events[i])
  }

  lemma AtPrefix(parses: string -> bool, events: seq<Event>, drops: (State, Event) -> bool, i: nat)
    requires events != [] && i < |events| - 1
    ensures At(parses, events[..|events| - 1], drops, i) == At(parses, events, drops, i)
  {
    assert events[..|events| - 1][..i] == events[..i];
  }

  lemma {:induction false} OnceMeans(parses: string -> bool, events: seq<Event>, drops: (State, Event) -> bool)
    ensures Once(parses, events, drops) <==> exists i: nat :: At(parses, events, drops, i)
    decreases |events|
  {
    if events != [] {
      var n := |events| - 1;
      OnceMeans(parses, events[..n], drops);
      if Once(parses, events[..n], drops) {
        var i: nat :| At(parses, events[..n], drops, i);
        AtPrefix(parses, events, drops, i);
      } else if Once(parses, events, drops) {
        assert At(parses, events, drops, n);
      }
      if i: nat :| At(parses, events, drops, i) {
        if i < n {
          AtPrefix(parses, events, drops, i);
        }
      }
    }
  }

  function ControllerDrop(parses: string -> bool): (State, Event) -> bool {
    (s: State, e: Event) => WellFormed(s) && DropsController(parses, s, e)
  }

  function ManagerDrop(parses: string -> bool): (State, Event) -> bool {
    (s: State, e: Event) => WellFormed(s) && DropsManager(parses, s, e)
  }

  lemma AnotherControllerLost(parses: string -> bool, s: State, e: Event)
    requires WellFormed(s)
    ensures SomeControllerLost(Next(parses, s, e)) <==>
            SomeControllerLost(s) || DropsController(parses, s, e)
  {
    if k: nat :| LostController(Next(parses, s, e), k) {
      ControllersGetLost(parses, s, e, k);
    }
    if k: nat :| LostController(s, k) {
      ControllersGetLost(parses, s, e, k);
    }
    if DropsController(parses, s, e) {
      ControllersGetLost(parses, s, e, s.fne.value);
    }
  }

  lemma {:induction false} LostOnce(parses: string -> bool, events: seq<Event>)
    ensures SomeControllerLost(After(parses, events)) <==> Once(parses, events, ControllerDrop(parses))
    decreases |events|
  {
    if events != [] {
      LostOnce(parses, events[..|events| - 1]);
      var s, e := After(parses, events[..|events| - 1]), events[|events| - 1];
      AnotherControllerLost(parses, s, e);
      assert After(parses, events) == Next(parses, s, e);
      assert ControllerDrop(parses)(s, e) == DropsController(parses, s, e);
    }
  }

  lemma AnotherManagerLost(parses: string -> bool, s: State, e: Event)
    requires WellFormed(s)
    ensures SomeManagerLost(Next(parses, s, e)) <==>
            SomeManagerLost(s) || DropsManager(parses, s, e)
  {
    if k: nat :| LostManager(Next(parses, s, e), k) {
      ManagersGetLost(parses, s, e, k);
    }
    if k: nat :| LostManager(s, k) {
      ManagersGetLost(parses, s, e, k);
    }
    if DropsManager(parses, s, e) {
      ManagersGetLost(parses, s, e, s.fni.value);
    }
  }

  lemma {:induction false} ManagerLostOnce(parses: string -> bool, events: seq<Event>)
    ensures SomeManagerLost(After(parses, events)) <==> Once(parses, events, ManagerDrop(parses))
    decreases |events|
  {
    if events != [] {
      ManagerLostOnce(parses, events[..|events| - 1]);
      var s, e := After(parses, events[..|events| - 1]), events[|events| - 1];
      AnotherManagerLost(parses, s, e);
      assert After(parses, events) == Next(parses, s, e);
      assert ManagerDrop(parses)(s, e) == DropsManager(parses, s, e);
    }
  }

  /** Over any run: some controller is lost at the end iff some attempt met no recorded
      config, a controller that was not stopped, and got as far as creating the next one. */
  lemma ControllerLeak(parses: string -> bool, events: seq<Event>)
    ensures SomeControllerLost(After(parses, events)) <==>
            (exists i: nat :: i < |events| && DropsController(parses, After(parses, events[..i]), events[i]))
  {
    LostOnce(parses, events);
    OnceMeans(parses, events, ControllerDrop(parses));
    forall i: nat ensures At(parses, events, ControllerDrop(parses), i) <==>
                          i < |events| && DropsController(parses, After(parses, events[..i]), events[i]) {}
  }

  /** The same for image managers: here the recorded config may also be the one at hand. */
  lemma ManagerLeak(parses: string -> bool, events: seq<Event>)
    ensures SomeManagerLost(After(parses, events)) <==>
            (exists i: nat :: i < |events| && DropsManager(parses, After(parses, events[..i]), events[i]))
  {
    ManagerLostOnce(parses, events);
    OnceMeans(parses, events, ManagerDrop(parses));
    forall i: nat ensures At(parses, events, ManagerDrop(parses), i) <==>
                          i < |events| && DropsManager(parses, After(parses, events[..i]), events[i]) {}
  }

  // ------------------------------------------------------ the last known good config

  /** The recorded config parsed, and a controller was fully started for it. */
  predicate GoodConfig(parses: string -> bool, s: State) {
    s.cm.Some? ==>
      parses(s.cm.value) && s.fne.Some?
      && exists k :: 0 <= k < |s.ctl| && s.ctl[k].config == s.cm.value && s.ctl[k].launched
  }

  lemma LaunchedStays(parses: string -> bool, s: State, e: Event)
    requires WellFormed(s)
    ensures |s.ctl| <= |Next(parses, s, e).ctl|
    ensures forall k :: 0 <= k < |s.ctl| ==>
              Next(parses, s, e).ctl[k].config == s.ctl[k].config
              && Next(parses, s, e).ctl[k].launched == s.ctl[k].launched
  {
  }

  lemma GoodStep(parses: string -> bool, s: State, e: Event)
    requires WellFormed(s) && GoodConfig(parses, s)
    ensures GoodConfig(parses, Next(parses, s, e))
  {
    var s' := Next(parses, s, e);
    LaunchedStays(parses, s, e);
    if s'.cm.Some? {
      if s'.cm == s.cm {
        var k :| 0 <= k < |s.ctl| && s.ctl[k].config == s.cm.value && s.ctl[k].launched;
        assert s'.ctl[k].config == s'.cm.value && s'.ctl[k].launched;
      } else {
        assert s'.ctl[|s.ctl|].config == s'.cm.value && s'.ctl[|s.ctl|].launched;
      }
    }
  }

  lemma {:induction false} RecordedConfigIsGood(parses: string -> bool, events: seq<Event>)
    ensures GoodConfig(parses, After(parses, events))
    decreases |events|
  {
    if events != [] {
      var before := events[..|events| - 1];
      RecordedConfigIsGood(parses, before);
      GoodStep(parses, After(parses, before), events[|events| - 1]);
    }
  }

  /** An attempt that fails to parse changes nothing at all. */
  lemma BadConfigIsHarmless(parses: string -> bool, s: State, a: Attempt)
    requires WellFormed(s) && a.found.Config? && !parses(a.found.data)
    ensures Reconcile(parses, s, a) == s
  {
  }

  // -------------------------------------------------------------- undisturbed runs

  /** Whenever the exec controller is created, the attempt completes. */
  predicate Undisturbed(parses: string -> bool, events: seq<Event>) {
    forall i :: 0 <= i < |events| && events[i].Reconciled?
                && Creates(parses, After(parses, events[..i]), events[i].a) ==>
      events[i].a.startController && events[i].a.update
  }

  /** At most one controller is not stopped; it is the one the reconciler knows, and it runs
      the recorded config. */
  predicate InStep(s: State) {
    && (s.cm.None? <==> s.fne.None?)
    && (forall k :: 0 <= k < |s.ctl| && s.ctl[k].held ==>
          s.fne == Some(k) && s.cm == Some(s.ctl[k].config) && s.ctl[k].launched)
  }

  lemma {:induction false} UndisturbedStaysInStep(parses: string -> bool, events: seq<Event>)
    requires Undisturbed(parses, events)
    ensures InStep(After(parses, events))
    decreases |events|
  {
    if events != [] {
      var n := |events| - 1;
      var before, e := events[..n], events[n];
      forall i | 0 <= i < n ensures events[..i] == before[..i] && events[i] == before[i] {}
      assert Undisturbed(parses, before) by {
        forall i | 0 <= i < n && before[i].Reconciled? && Creates(parses, After(parses, before[..i]), before[i].a)
          ensures before[i].a.startController && before[i].a.update {
          assert events[i].Reconciled? && Creates(parses, After(parses, events[..i]), events[i].a);
        }
      }
      UndisturbedStaysInStep(parses, before);
      assert events[..n] == before;
      StepInStep(parses, After(parses, before), e);
    }
  }

  lemma StepInStep(parses: string -> bool, s: State, e: Event)
    requires WellFormed(s) && InStep(s)
    requires e.Reconciled? && Creates(parses, s, e.a) ==> e.a.startController && e.a.update
    ensures InStep(Next(parses, s, e))
  {
    if e.Reconciled? {
      AttemptInStep(parses, s, e.a);
    }
  }

  lemma AttemptInStep(parses: string -> bool, s: State, a: Attempt)
    requires WellFormed(s) && InStep(s) && (Creates(parses, s, a) ==> a.startController && a.update)
    ensures InStep(Reconcile(parses, s, a))
  {
  }

  // ------------------------------------------------------------ off the recorded config

  /** The known controller was not stopped and runs another config than the recorded one, or
      none is recorded. */
  predicate OffRecord(s: State)
    requires WellFormed(s)
  {
    IsRunning(s) && s.cm != Some(s.ctl[s.fne.value].config)
  }

  /** A controller is created for an unrecorded config, and the attempt does not complete. */
  predicate Strays(parses: string -> bool, s: State, e: Event)
    requires WellFormed(s)
  {
    && e.Reconciled? && Creates(parses, s, e.a)
    && !(e.a.startController && e.a.update) && s.cm != Some(e.a.found.data)
  }

  /** The known controller is stopped or replaced. */
  predicate Settles(parses: string -> bool, s: State, e: Event)
    requires WellFormed(s)
  {
    && e.Reconciled?
    && (|| e.a.found.Deleted? || Creates(parses, s, e.a)
        || (Proceeds(parses, s, e.a) && CheckAction(s, e.a.found.data).Update?))
  }

  lemma OffRecordStep(parses: string -> bool, s: State, e: Event)
    requires WellFormed(s)
    ensures OffRecord(Next(parses, s, e)) <==> Strays(parses, s, e) || (OffRecord(s) && !Settles(parses, s, e))
  {
  }

  /** Event `i` of the run started something, and no later one ended it. */
  ghost predicate SinceAt(parses: string -> bool, events: seq<Event>, starts: (State, Event) -> bool,
                          ends: (State, Event) -> bool, i: nat) {
    At(parses, events, starts, i) && forall j: nat :: i < j ==> !At(parses, events, ends, j)
  }

  lemma SinceBefore(parses: string -> bool, events: seq<Event>, starts: (State, Event) -> bool,
                    ends: (State, Event) -> bool, i: nat)
    requires events != [] && i < |events| - 1
    ensures SinceAt(parses, events, starts, ends, i) <==>
            SinceAt(parses, events[..|events| - 1], starts, ends, i) && !At(parses, events, ends, |events| - 1)
  {
    var n := |events| - 1;
    AtPrefix(parses, events, starts, i);
    forall j: nat | j < n ensures At(parses, events[..n], ends, j) == At(parses, events, ends, j) {
      AtPrefix(parses, events, ends, j);
    }
    assert forall j: nat :: At(parses, events, ends, j) ==> j <= n;
    assert forall j: nat :: At(parses, events[..n], ends, j) ==> j < n;
  }

  /** What is started and ended step by step holds after a run iff some event started it and
      no later one ended it. */
  lemma {:induction false} SinceThen(parses: string -> bool, events: seq<Event>, holds: State -> bool,
                                     starts: (State, Event) -> bool, ends: (State, Event) -> bool)
    requires !holds(Fresh())
    requires forall s, e :: WellFormed(s) ==> (holds(Next(parses, s, e)) <==> starts(s, e) || (holds(s) && !ends(s, e)))
    ensures holds(After(parses, events)) <==> exists i: nat :: SinceAt(parses, events, starts, ends, i)
    decreases |events|
  {
    if events != [] {
      var n := |events| - 1;
      var before := events[..n];
      SinceThen(parses, before, holds, starts, ends);
      assert SinceAt(parses, events, starts, ends, n) <==> starts(After(parses, before), events[n]);
      assert At(parses, events, ends, n) <==> ends(After(parses, before), events[n]);
      if i: nat :| SinceAt(parses, before, starts, ends, i) {
        SinceBefore(parses, events, starts, ends, i);
      }
      if i: nat :| SinceAt(parses, events, starts, ends, i) {
        if i < n {
          SinceBefore(parses, events, starts, ends, i);
        }
      }
    }
  }

  function Stray(parses: string -> bool): (State, Event) -> bool {
    (s: State, e: Event) => WellFormed(s) && Strays(parses, s, e)
  }

  function Settle(parses: string -> bool): (State, Event) -> bool {
    (s: State, e: Event) => WellFormed(s) && Settles(parses, s, e)
  }

  /** Over any run: the known controller runs another config than the recorded one iff some
      attempt created it for an unrecorded config without completing, and nothing after that
      stopped or replaced it. */
  lemma OffRecordRuns(parses: string -> bool, events: seq<Event>)
    ensures OffRecord(After(parses, events)) <==>
            exists i: nat :: SinceAt(parses, events, Stray(parses), Settle(parses), i)
  {
    forall s, e | WellFormed(s)
      ensures OffRecord(Next(parses, s, e)) <==> Strays(parses, s, e) || (OffRecord(s) && !Settles(parses, s, e)) {
      OffRecordStep(parses, s, e);
    }
    SinceThen(parses, events, s => WellFormed(s) && OffRecord(s), Stray(parses), Settle(parses));
  }

  // ------------------------------------------------------------------ dead but running

  /** The known controller counts as running although its context has ended. */
  predicate Dead(s: State)
    requires WellFormed(s)
  {
    IsRunning(s) && s.ctl[s.fne.value].ended
  }

  /** The known controller, fully started and not stopped, ends on its own. */
  predicate Dies(s: State, e: Event)
    requires WellFormed(s)
  {
    e.ControllerEnds? && IsRunning(s) && s.fne == Some(e.k) && s.ctl[e.k].launched
  }

  predicate DeadManager(s: State)
    requires WellFormed(s)
  {
    ManagerRunning(s) && s.man[s.fni.value].ended
  }

  predicate ManagerDies(s: State, e: Event)
    requires WellFormed(s)
  {
    e.ManagerEnds? && ManagerRunning(s) && s.fni == Some(e.k)
  }

  /** The known manager is stopped or given up. */
  predicate ManagerSettles(parses: string -> bool, s: State, e: Event)
    requires WellFormed(s)
  {
    e.Reconciled? && (e.a.found.Deleted? || Proceeds(parses, s, e.a))
  }

  lemma DeadStep(parses: string -> bool, s: State, e: Event)
    requires WellFormed(s)
    ensures Dead(Next(parses, s, e)) <==> Dies(s, e) || (Dead(s) && !Settles(parses, s, e))
  {
  }

  lemma DeadManagerStep(parses: string -> bool, s: State, e: Event)
    requires WellFormed(s)
    ensures DeadManager(Next(parses, s, e)) <==> ManagerDies(s, e) || (DeadManager(s) && !ManagerSettles(parses, s, e))
  {
  }

  function Death(): (State, Event) -> bool {
    (s: State, e: Event) => WellFormed(s) && Dies(s, e)
  }

  function ManagerDeath(): (State, Event) -> bool {
    (s: State, e: Event) => WellFormed(s) && ManagerDies(s, e)
  }

  function ManagerSettle(parses: string -> bool): (State, Event) -> bool {
    (s: State, e: Event) => WellFormed(s) && ManagerSettles(parses, s, e)
  }

  /** Over any run: the known controller is dead but counts as running iff it ended on its own
      at some point and nothing after that stopped or replaced it. */
  lemma DeadRuns(parses: string -> bool, events: seq<Event>)
    ensures Dead(After(parses, events)) <==>
            exists i: nat :: SinceAt(parses, events, Death(), Settle(parses), i)
  {
    forall s, e | WellFormed(s)
      ensures Dead(Next(parses, s, e)) <==> Dies(s, e) || (Dead(s) && !Settles(parses, s, e)) {
      DeadStep(parses, s, e);
    }
    SinceThen(parses, events, s => WellFormed(s) && Dead(s), Death(), Settle(parses));
  }

  /** The same for the known image manager, which every attempt that proceeds gives up. */
  lemma DeadManagerRuns(parses: string -> bool, events: seq<Event>)
    ensures DeadManager(After(parses, events)) <==>
            exists i: nat :: SinceAt(parses, events, ManagerDeath(), ManagerSettle(parses), i)
  {
    forall s, e | WellFormed(s)
      ensures DeadManager(Next(parses, s, e)) <==>
              ManagerDies(s, e) || (DeadManager(s) && !ManagerSettles(parses, s, e)) {
      DeadManagerStep(parses, s, e);
    }
    SinceThen(parses, events, s => WellFormed(s) && DeadManager(s), ManagerDeath(), ManagerSettle(parses));
  }

  /** Whoever was stopped has ended; only what was never stopped can still be alive. */
  predicate StoppedIsEnded(us: seq<Unit>) {
    forall k :: 0 <= k < |us| && !us[k].held ==> us[k].ended
  }

  lemma StoppedStep(parses: string -> bool, s: State, e: Event)
    requires WellFormed(s) && StoppedIsEnded(s.man) && StoppedIsEnded(s.ctl)
    ensures StoppedIsEnded(Next(parses, s, e).man) && StoppedIsEnded(Next(parses, s, e).ctl)
  {
  }

  lemma {:induction false} StoppedHaveEnded(parses: string -> bool, events: seq<Event>)
    ensures var s := After(parses, events); StoppedIsEnded(s.man) && StoppedIsEnded(s.ctl)
    decreases |events|
  {
    if events != [] {
      var before := events[..|events| - 1];
      StoppedHaveEnded(parses, before);
      StoppedStep(parses, After(parses, before), events[|events| - 1]);
    }
  }

  /** An attempt that gets so far makes a manager, and then a controller, for the config at
      hand and knows it from then on. */
  lemma CreatedForTheConfig(parses: string -> bool, s: State, a: Attempt)
    requires WellFormed(s) && Proceeds(parses, s, a) && a.newManager
    ensures var s', data := Reconcile(parses, s, a), a.found.data;
            && s'.fni == Some(|s.man|) && |s'.man| == |s.man| + 1
            && s'.man[|s.man|] == Unit(data, true, false, a.startManager)
            && (a.startManager ==>
                  && s'.fne == Some(|s.ctl|) && |s'.ctl| == |s.ctl| + 1
                  && s'.ctl[|s.ctl|] == Unit(data, true, false, a.startController))
            && (!a.startManager ==> s'.fne == s.fne && |s'.ctl| == |s.ctl| && s'.cm == s.cm)
  {
  }

  // --------------------------------------------------------------- stuck generations

  /** The reconciler is given nothing but the recorded config. */
  predicate Steady(events: seq<Event>, data: string) {
    forall i :: 0 <= i < |events| && events[i].Reconciled? ==>
      events[i].a.found.GetError? || events[i].a.found.Absent? || events[i].a.found == Config(data)
  }

  function Continue(parses: string -> bool, s: State, events: seq<Event>): (s': State)
    requires WellFormed(s)
    ensures WellFormed(s')
    decreases |events|
  {
    if events == [] then s else Next(parses, Continue(parses, s, events[..|events| - 1]), events[|events| - 1])
  }

  /** A controller whose handle was not called counts as running: with the recorded config
      unchanged nothing is created or replaced any more, even if that controller crashed and
      even if it runs another config than the recorded one. */
  lemma {:induction false} NeverReplaced(parses: string -> bool, s: State, events: seq<Event>)
    requires WellFormed(s) && s.cm.Some? && IsRunning(s) && Steady(events, s.cm.value)
    ensures var s' := Continue(parses, s, events);
            && s'.fne == s.fne && s'.fni == s.fni && s'.cm == s.cm && |s'.ctl| == |s.ctl| && |s'.man| == |s.man|
            && IsRunning(s') && s'.ctl[s.fne.value].config == s.ctl[s.fne.value].config
            && (s.ctl[s.fne.value].ended ==> s'.ctl[s.fne.value].ended)
    decreases |events|
  {
    if events != [] {
      var before := events[..|events| - 1];
      assert Steady(before, s.cm.value);
      NeverReplaced(parses, s, before);
      assert events[|events| - 1].Reconciled? ==> events[|events| - 1].a.found != Deleted;
    }
  }

  /** An attempt with the recorded config creates a controller iff the known one was stopped
      and the image manager comes up. */
  lemma RestartCondition(parses: string -> bool, events: seq<Event>, a: Attempt)
    requires After(parses, events).cm.Some? && a.found == Config(After(parses, events).cm.value)
    ensures After(parses, events).fne.Some?
    ensures var s := After(parses, events);
            |Reconcile(parses, s, a).ctl| == |s.ctl| + 1 <==> !s.ctl[s.fne.value].held && a.newManager && a.startManager
    ensures var s := After(parses, events);
            s.ctl[s.fne.value].held ==> Reconcile(parses, s, a) == s
  {
    RecordedConfigIsGood(parses, events);
  }

  /** Deleting the config map stops what the reconciler knows, whatever happened before. */
  lemma DeletionStops(parses: string -> bool, s: State, a: Attempt)
    requires WellFormed(s) && a.found.Deleted?
    ensures var s' := Reconcile(parses, s, a);
            && !IsRunning(s') && !ManagerRunning(s') && s'.cm == s.cm && s'.fne == s.fne && s'.fni == s.fni
            && (forall k: nat :: LostController(s', k) <==> LostController(s, k))
            && (forall k :: 0 <= k < |s'.ctl| && s'.ctl[k].held ==> LostController(s, k))
  {
  }

  // ------------------------------------------------------------------- witnesses

  function Succeeds(data: string): Event { Reconciled(Attempt(Config(data), true, true, true, true)) }
  function UpdateFails(data: string): Event { Reconciled(Attempt(Config(data), true, true, true, false)) }

  /** The first attempt starts everything but cannot write the config map back, so the
      second one starts everything again and loses the first generation. */
  lemma LostAfterFailedUpdate(parses: string -> bool, data: string)
    requires parses(data)
    ensures var s := After(parses, [UpdateFails(data), Succeeds(data)]);
            LostController(s, 0) && LostManager(s, 0) && s.fne == Some(1) && s.ctl[0].launched && !s.ctl[0].ended
  {
    var two := [UpdateFails(data), Succeeds(data)];
    assert two[..1] == [UpdateFails(data)] && two[..1][..0] == [];
    assert After(parses, two[..1]) == Next(parses, Fresh(), UpdateFails(data));
  }

  /** A config that was rolled out but not recorded keeps running after a return to the
      recorded one. */
  lemma RevertIsIgnored(parses: string -> bool, data: string, other: string)
    requires parses(data) && parses(other) && data != other
    ensures var s := After(parses, [Succeeds(data), UpdateFails(other), Succeeds(data)]);
            s.cm == Some(data) && IsRunning(s) && s.ctl[s.fne.value].config == other
  {
    var three := [Succeeds(data), UpdateFails(other), Succeeds(data)];
    var two := three[..2];
    assert two == [Succeeds(data), UpdateFails(other)] && two[..1] == [Succeeds(data)] && two[..1][..0] == [];
    assert After(parses, two[..1]) == Next(parses, Fresh(), Succeeds(data));
  }
}

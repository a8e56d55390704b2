/** The config-map reconciler at work: it overwrites its manager, controller and config
    fields one by one, returning at the first external call that fails. */
module Reconcilers {
  import opened Values
  import opened Lifecycle

  /** The cancel-handle state that image managers and exec controllers share. */
  class Process {
    const config: string
    var cancel: bool
    var ended: bool
    var launched: bool

    constructor (config: string)
      ensures this.config == config && View() == Unit(config, false, false, false)
    {
      this.config := config;
      cancel, ended, launched := false, false, false;
    }

    ghost function View(): Unit
      reads this
    {
      Unit(config, cancel, ended, launched)
    }

    /** A crashed process keeps its handle and so still counts as running. */
    predicate IsRunning()
      reads this
    {
      cancel
    }

    /** The handle is set first; `ok` is what the calls after that come to. */
    method Start(ok: bool) returns (started: bool)
      modifies this
      ensures View() == Started(old(View()), ok) && started == ok
    {
      cancel, ended := true, false;
      launched := ok;
      return ok;
    }

    method Stop()
      modifies this
      ensures View() == Stopped(old(View()))
    {
      if cancel {
        ended := true;
        cancel := false;
      }
    }

    /** A goroutine of the process returns. */
    method End()
      modifies this
      ensures View() == Crashed(old(View()))
    {
      if cancel {
        ended := true;
      }
    }
  }

  ghost function Units(ps: seq<Process>): (us: seq<Unit>)
    reads ps
    ensures |us| == |ps| && forall i :: 0 <= i < |ps| ==> us[i] == ps[i].View()
  {
    seq(|ps|, i requires 0 <= i < |ps| reads ps => ps[i].View())
  }

  lemma UnitsNext(ps: seq<Process>, p: Process)
    ensures Units(ps + [p]) == Units(ps) + [p.View()]
  {
  }

  ghost predicate Distinct(ps: seq<Process>) {
    forall i, j :: 0 <= i < j < |ps| ==> ps[i] != ps[j]
  }

  ghost predicate Points(p: Process?, at: Option<nat>, ps: seq<Process>) {
    if p == null then at.None? else at.Some? && at.value < |ps| && ps[at.value] == p
  }

  /** The attempt returns an error. */
  predicate Fails(parses: string -> bool, s: State, a: Attempt)
    requires WellFormed(s)
  {
    match a.found
    case GetError => true
    case Absent => false
    case Deleted => !a.update
    case Config(data) =>
      if CheckAction(s, data).Ignore? && IsRunning(s) then !a.update
      else !(parses(data) && a.newManager && a.startManager && a.startController && a.update)
  }

  /** The attempt meets the config it recorded last and a controller that was not stopped. */
  predicate Ignored(s: State, data: string)
    requires WellFormed(s)
  {
    s.cm == Some(data) && IsRunning(s)
  }

  /** What an error says. A config that is ignored is only written back. Any other one is
      reported as done iff the write-back succeeded and a controller was created for it, became
      the known one and was fully started; the config is recorded then. */
  lemma ErrorsMean(parses: string -> bool, s: State, a: Attempt)
    requires WellFormed(s)
    ensures var s', fails := Lifecycle.Reconcile(parses, s, a), Fails(parses, s, a);
            && (a.found.GetError? ==> fails && s' == s) && (a.found.Absent? ==> !fails && s' == s)
            && (a.found.Deleted? ==> fails == !a.update)
            && (a.found.Config? && Ignored(s, a.found.data) ==> fails == !a.update && s' == s)
            && (a.found.Config? && !Ignored(s, a.found.data) ==>
                  (!fails <==> && a.update && |s'.ctl| == |s.ctl| + 1 && s'.fne == Some(|s.ctl|)
                               && s'.ctl[|s.ctl|] == Unit(a.found.data, true, false, true)
                               && s'.cm == Some(a.found.data)))
  {
  }

  class Rec {
    const parses: string -> bool
    var fni: Process?
    var fne: Process?
    var cm: Option<string>
    ghost var man: seq<Process>
    ghost var ctl: seq<Process>
    ghost var fniAt: Option<nat>
    ghost var fneAt: Option<nat>

    constructor (parses: string -> bool)
      ensures Valid() && View() == Fresh() && this.parses == parses
    {
      this.parses := parses;
      fni, fne, cm := null, null, None;
      man, ctl, fniAt, fneAt := [], [], None, None;
    }

    ghost predicate Valid()
      reads this
    {
      && Distinct(man) && Distinct(ctl) && (forall i, j :: 0 <= i < |man| && 0 <= j < |ctl| ==> man[i] != ctl[j])
      && Points(fni, fniAt, man) && Points(fne, fneAt, ctl)
    }

    ghost function View(): (s: State)
      requires Valid()
      reads this, man, ctl
      ensures WellFormed(s)
    {
      State(fniAt, fneAt, cm, Units(man), Units(ctl))
    }

    method StopManager()
      requires Valid()
      modifies man
      ensures Valid() && View() == old(View()).(man := StopAt(old(View()).man, fniAt))
    {
      if fni != null {
        fni.Stop();
      }
      forall j | 0 <= j < |ctl| ensures ctl[j].View() == old(ctl[j].View()) {
        assert fni == null || man[fniAt.value] != ctl[j];
      }
      assert Units(man) == StopAt(old(Units(man)), fniAt);
      assert Units(ctl) == old(Units(ctl));
    }

    method StopController()
      requires Valid()
      modifies ctl
      ensures Valid() && View() == old(View()).(ctl := StopAt(old(View()).ctl, fneAt))
    {
      if fne != null {
        fne.Stop();
      }
      forall i | 0 <= i < |man| ensures man[i].View() == old(man[i].View()) {
        assert fne == null || man[i] != ctl[fneAt.value];
      }
      assert Units(ctl) == StopAt(old(Units(ctl)), fneAt);
      assert Units(man) == old(Units(man));
    }

    method StopKnown()
      requires Valid()
      modifies man, ctl
      ensures Valid() && View() == StopBoth(old(View()))
    {
      StopManager();
      StopController();
    }

    method NewManager(data: string, ok: bool, started: bool) returns (up: bool)
      requires Valid()
      modifies this`fni, this`fniAt, this`man
      ensures Valid() && up == (ok && started) && (forall p :: p in man ==> p in old(man) || fresh(p))
      ensures View() == if !ok then old(View()).(fni := None) else
                old(View()).(fni := Some(|old(View()).man|),
                             man := old(View()).man + [Lifecycle.Started(Unit(data, false, false, false), started)])
    {
      if !ok {
        fni, fniAt := null, None;
        return false;
      }
      var m := new Process(data);
      up := m.Start(started);
      fni, fniAt, man := m, Some(|man|), man + [m];
      UnitsNext(old(man), m);
      assert Units(old(man)) == old(Units(man));
      assert Units(ctl) == old(Units(ctl));
    }

    method NewController(data: string, started: bool) returns (up: bool)
      requires Valid()
      modifies this`fne, this`fneAt, this`ctl
      ensures Valid() && up == started && (forall p :: p in ctl ==> p in old(ctl) || fresh(p))
      ensures View() == old(View()).(fne := Some(|old(View()).ctl|),
                                     ctl := old(View()).ctl
                                            + [Lifecycle.Started(Unit(data, false, false, false), started)])
    {
      var c := new Process(data);
      up := c.Start(started);
      fne, fneAt, ctl := c, Some(|ctl|), ctl + [c];
      UnitsNext(old(ctl), c);
      assert Units(old(ctl)) == old(Units(ctl));
      assert Units(man) == old(Units(man));
    }

    function CheckAction(data: string): Action
      reads this
    {
      if cm.None? then Create else if cm.value != data then Update else Ignore
    }

    /** Manager first, then controller, then the write-back; the config is recorded last. */
    method Launch(data: string, a: Attempt) returns (err: bool)
      requires Valid()
      modifies this
      ensures Valid() && View() == Lifecycle.Launch(old(View()), data, a)
      ensures err == !(a.newManager && a.startManager && a.startController && a.update)
      ensures forall p :: p in man + ctl ==> p in old(man + ctl) || fresh(p)
    {
      var up := NewManager(data, a.newManager, a.startManager);
      if !up {
        return true;
      }
      up := NewController(data, a.startController);
      if !up {
        return true;
      }
      if !a.update {
        return true;
      }
      cm := Some(data);
      return false;
    }

    method Reconcile(a: Attempt) returns (requeue: bool, err: bool)
      requires Valid()
      modifies this, man, ctl
      ensures Valid() && View() == Lifecycle.Reconcile(parses, old(View()), a)
      ensures requeue == a.found.Absent? && err == Fails(parses, old(View()), a)
      ensures forall p :: p in man + ctl ==> p in old(man + ctl) || fresh(p)
    {
      match a.found {
        case GetError => return false, true;
        case Absent => return true, false;
        case Deleted =>
          StopKnown();
          return false, !a.update;
        case Config(data) =>
          err := ApplyConfig(data, a);
          return false, err;
      }
    }

    method ApplyConfig(data: string, a: Attempt) returns (err: bool)
      requires Valid() && a.found == Config(data)
      modifies this, man, ctl
      ensures Valid() && View() == Lifecycle.Reconcile(parses, old(View()), a) && err == Fails(parses, old(View()), a)
      ensures forall p :: p in man + ctl ==> p in old(man + ctl) || fresh(p)
    {
      var action := CheckAction(data);
      if action == Ignore {
        if fne != null && fne.IsRunning() {
          return !a.update;
        }
      }
      if !parses(data) {
        return true;
      }
      if action == Update {
        StopKnown();
      }
      err := Launch(data, a);
    }
  }
}

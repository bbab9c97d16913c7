/**
 * The audio hook: a play/stop toggle and a pattern setter that drive the
 * audio engine's scheduler. The scheduler itself is foreign; it is modelled by
 * the log of commands sent to it.
 */
module Strudel {
  import opened Wrappers

  /** A command sent to the scheduler. */
  datatype Command = Start | Stop | SetPattern(source: string)

  /** Whether the scheduler is running after `cmds`: the last start/stop command was a start. */
  function Running(cmds: seq<Command>): (running: bool)
    ensures running ==> Start in cmds
  {
    if |cmds| == 0 then false
    else match cmds[|cmds| - 1]
      case Start => true
      case Stop => false
      case SetPattern(_) => Running(cmds[..|cmds| - 1])
  }

  /** The pattern the scheduler plays after `cmds`: the source of the last `SetPattern`, if any. */
  function ActivePattern(cmds: seq<Command>): (active: Option<string>)
    ensures active.Some? ==> SetPattern(active.value) in cmds
  {
    if |cmds| == 0 then None
    else match cmds[|cmds| - 1]
      case SetPattern(p) => Some(p)
      case _ => ActivePattern(cmds[..|cmds| - 1])
  }

  predicate IsTransport(c: Command) { c.Start? || c.Stop? }

  /** `Running` read off directly: some start is followed by no stop. */
  lemma {:induction false} RunningIffStartNotStopped(cmds: seq<Command>)
    ensures Running(cmds) <==>
      exists i :: 0 <= i < |cmds| && cmds[i] == Start &&
        forall j :: i < j < |cmds| ==> !IsTransport(cmds[j])
  {
    if |cmds| > 0 {
      var n := |cmds| - 1;
      var init := cmds[..n];
      RunningIffStartNotStopped(init);
      assert forall k :: 0 <= k < n ==> init[k] == cmds[k];
      if cmds[n].SetPattern? {
        if Running(cmds) {
          var i :| 0 <= i < n && init[i] == Start && forall j :: i < j < n ==> !IsTransport(init[j]);
          assert cmds[i] == Start && forall j :: i < j < |cmds| ==> !IsTransport(cmds[j]);
        }
        if i :| 0 <= i < |cmds| && cmds[i] == Start && forall j :: i < j < |cmds| ==> !IsTransport(cmds[j]) {
          assert i < n && init[i] == Start && forall j :: i < j < n ==> !IsTransport(init[j]);
        }
      } else if cmds[n] == Stop {
        forall i | 0 <= i < |cmds| && cmds[i] == Start
          ensures exists j :: i < j < |cmds| && IsTransport(cmds[j])
        {
          assert IsTransport(cmds[n]);
        }
      }
    }
  }

  /** No pattern is active exactly when none was ever set. */
  lemma {:induction false} ActivePatternNoneIffNoneSet(cmds: seq<Command>)
    ensures ActivePattern(cmds).None? <==> forall i :: 0 <= i < |cmds| ==> !cmds[i].SetPattern?
  {
    if |cmds| > 0 {
      var n := |cmds| - 1;
      var init := cmds[..n];
      ActivePatternNoneIffNoneSet(init);
      assert forall k :: 0 <= k < n ==> init[k] == cmds[k];
    }
  }

  /** The active pattern is the one set by the last `SetPattern` of the log. */
  lemma {:induction false} ActivePatternIsLastSet(cmds: seq<Command>)
    requires ActivePattern(cmds).Some?
    ensures exists i ::
      && 0 <= i < |cmds| && cmds[i] == SetPattern(ActivePattern(cmds).value)
      && forall j :: i < j < |cmds| ==> !cmds[j].SetPattern?
  {
    var n := |cmds| - 1;
    if cmds[n].SetPattern? {
      assert cmds[n] == SetPattern(ActivePattern(cmds).value);
    } else {
      var init := cmds[..n];
      assert ActivePattern(init) == ActivePattern(cmds);
      ActivePatternIsLastSet(init);
      var i :| 0 <= i < n && init[i] == SetPattern(ActivePattern(init).value) &&
        forall j :: i < j < n ==> !init[j].SetPattern?;
      assert cmds[i] == init[i];
      forall j | i < j < |cmds| ensures !cmds[j].SetPattern? {
        if j < n {
          assert cmds[j] == init[j];
        }
      }
    }
  }

  /** The state of one `useStrudel` hook instance. */
  class Player {
    /** The `isPlaying` state shown by the play button. */
    var isPlaying: bool
    /** Whether `schedulerRef.current` holds a scheduler. */
    var hasScheduler: bool
    /** Every command sent so far to the scheduler the ref holds. */
    var commands: seq<Command>

    /** The button state agrees with the scheduler's transport. */
    ghost predicate InSync()
      reads this
    {
      isPlaying == Running(commands)
    }

    /** A fresh hook: not playing, no scheduler yet, nothing sent. */
    constructor ()
      ensures !isPlaying && !hasScheduler && commands == []
      ensures InSync()
    {
      isPlaying := false;
      hasScheduler := false;
      commands := [];
    }

    /**
     * The mount effect: create a fresh scheduler and store it in the ref. The
     * new scheduler has received nothing, so it neither runs nor plays a
     * pattern, whatever was sent to one an earlier mount created.
     */
    method Mount()
      modifies this
      ensures hasScheduler && commands == []
      ensures isPlaying == old(isPlaying)
      ensures !Running(commands) && ActivePattern(commands) == None
    {
      hasScheduler := true;
      commands := [];
    }

    /**
     * The effect's cleanup: stop the scheduler it created. The ref and the
     * `isPlaying` state are left as they are.
     */
    method Cleanup()
      requires hasScheduler
      modifies this
      ensures commands == old(commands) + [Stop]
      ensures isPlaying == old(isPlaying) && hasScheduler == old(hasScheduler)
      ensures !Running(commands)
      ensures old(InSync()) ==> (InSync() <==> !isPlaying)
    {
      commands := commands + [Stop];
    }

    /**
     * Hand a pattern to the scheduler. `evaluates` is the outcome of evaluating
     * `source` in the engine's namespace; a failed evaluation is swallowed.
     */
    method UpdatePattern(source: string, evaluates: bool)
      modifies this
      ensures isPlaying == old(isPlaying) && hasScheduler == old(hasScheduler)
      ensures commands == if old(hasScheduler) && evaluates then old(commands) + [SetPattern(source)] else old(commands)
      ensures ActivePattern(commands) == if old(hasScheduler) && evaluates then Some(source) else old(ActivePattern(commands))
      ensures Running(commands) == old(Running(commands))
      ensures old(InSync()) ==> InSync()
    {
      if hasScheduler {
        if evaluates {
          commands := commands + [SetPattern(source)];
          assert commands[..|commands| - 1] == old(commands);
        }
      }
    }

    /** The play button: stop when playing, start otherwise, then flip `isPlaying`. */
    method TogglePlay()
      modifies this
      ensures hasScheduler == old(hasScheduler)
      ensures !old(hasScheduler) ==> isPlaying == old(isPlaying) && commands == old(commands)
      ensures old(hasScheduler) ==> isPlaying == !old(isPlaying)
      ensures old(hasScheduler) ==> commands == old(commands) + [if old(isPlaying) then Stop else Start]
      ensures ActivePattern(commands) == old(ActivePattern(commands))
      ensures old(InSync()) ==> InSync()
    {
      if hasScheduler {
        if isPlaying {
          commands := commands + [Stop];
        } else {
          commands := commands + [Start];
        }
        assert commands[..|commands| - 1] == old(commands);
        isPlaying := !isPlaying;
      }
    }
  }

  /** Two toggles with a scheduler restore `isPlaying` and send a start/stop pair. */
  method ToggleTwice(p: Player)
    requires p.hasScheduler
    modifies p
    ensures p.isPlaying == old(p.isPlaying) && p.hasScheduler == old(p.hasScheduler)
    ensures p.commands == old(p.commands) + (if old(p.isPlaying) then [Stop, Start] else [Start, Stop])
    ensures old(p.InSync()) ==> p.InSync() && Running(p.commands) == old(Running(p.commands))
  {
    p.TogglePlay();
    p.TogglePlay();
  }
}

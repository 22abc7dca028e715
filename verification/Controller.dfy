/** The backlight controller as the object it is. The fade task, the
    controller and the world outside all hold the same panel, and the task and
    the controller the same `written`. */
module ControllerObject {
  import opened Types
  import B = Backlight

  class Panel {
    const max: nat
    var value: nat

    constructor (value: nat, max: nat)
      ensures this.value == value && this.max == max
    {
      this.value, this.max := value, max;
    }

    method Write(value: nat, works: bool) returns (ok: bool)
      modifies this
      ensures ok == works && this.value == if works then value else old(this.value)
    {
      if works {
        this.value := value;
      }
      ok := works;
    }
  }

  /** The last value the controller or its fade wrote. */
  class Written {
    var value: nat

    constructor ()
      ensures value == 0
    {
      value := 0;
    }
  }

  class Fade {
    const panel: Panel
    const written: Written
    const from: nat
    const to: nat
    const steps: nat
    var step: nat
    var alive: bool
    var cancelled: bool

    constructor (panel: Panel, written: Written, from: nat, to: nat, steps: nat)
      ensures this.panel == panel && this.written == written && !cancelled
      ensures View() == B.Ramp(from, to, steps, 0, true)
    {
      this.panel, this.written, this.from, this.to, this.steps := panel, written, from, to, steps;
      step, alive, cancelled := 0, true, false;
    }

    function View(): B.Ramp
      reads this
    {
      B.Ramp(from, to, steps, step, alive)
    }

    /** One turn of the task's loop, once it is past the cancel flag. */
    method Frame(works: bool)
      requires View().Running()
      modifies this`step, this`alive, panel, written
      ensures var d := old(B.Desk(true, panel.value, 0, false, None, written.value, 0, 0, Some(View())));
              B.Desk(true, panel.value, 0, false, None, written.value, 0, 0, Some(View())) == B.Frame(d, works)
    {
      hide B.Interpolate;
      var value := B.Interpolate(from, to, step + 1, steps);
      written.value := value;
      alive := panel.Write(value, works);
      if alive {
        step := step + 1;
      }
    }
  }

  class Controller {
    var panel: Panel?
    const written: Written
    var dimmed: bool
    var preDim: Option<nat>
    var minPercent: nat
    var transition: Duration
    var fade: Fade?

    ghost predicate Valid()
      reads this, fade
    {
      fade != null ==> panel != null && fade.panel == panel && fade.written == written && !fade.cancelled
    }

    function View(): B.Desk
      reads this, panel, written, fade
    {
      B.Desk(panel != null, if panel == null then 0 else panel.value, if panel == null then 0 else panel.max,
             dimmed, preDim, written.value, minPercent, transition, if fade == null then None else Some(fade.View()))
    }

    constructor (minPercent: nat, transition: Duration, panel: Panel?)
      ensures Valid() && this.panel == panel && fade == null
      ensures View() == B.Desk(panel != null, if panel == null then 0 else panel.value, if panel == null then 0 else panel.max,
                               false, None, 0, minPercent, transition, None)
    {
      this.panel, this.minPercent, this.transition := panel, minPercent, transition;
      written := new Written();
      dimmed, preDim, fade := false, None, null;
    }

    /** The task runs one frame on its own. */
    method TaskFrame(works: bool)
      requires Valid()
      modifies panel, written, fade
      ensures Valid() && View() == B.Frame(old(View()), works)
    {
      hide B.Interpolate;
      if fade != null && fade.View().Running() {
        fade.Frame(works);
      }
    }

    method StopFade(l: B.Luck)
      requires Valid()
      modifies this`fade, panel, written, fade
      ensures Valid() && fade == null && View() == B.StopFade(old(View()), l)
    {
      hide B.Frame;
      if fade != null {
        if l.late {
          TaskFrame(l.lateWorks);
        }
        fade.cancelled := true;
        fade := null;
      } else {
        assert B.Frame(View(), l.lateWorks) == View() by { NoFade(View(), l.lateWorks); }
      }
    }

    method FadeTo(from: nat, to: nat, works: bool)
      requires Valid() && panel != null && fade == null
      modifies this`fade, panel, written
      ensures Valid() && View() == B.FadeTo(old(View()), from, to, works)
    {
      hide B.Steps;
      if from == to {
        return;
      }
      var steps := B.Steps(transition);
      written.value := to;
      if steps == 1 {
        var _ := panel.Write(to, works);
      } else {
        fade := new Fade(panel, written, from, to, steps);
      }
    }

    method DimTo(percent: nat, l: B.Luck)
      requires Valid()
      modifies this`fade, this`preDim, this`dimmed, panel, written, fade
      ensures Valid() && View() == B.DimTo(old(View()), percent, l)
    {
      hide B.StopFade, B.FadeTo, B.TargetFor;
      if panel == null || dimmed {
        return;
      }
      StopKeeps(View(), l);
      StopFade(l);
      if !l.canRead {
        return;
      }
      var current := panel.value;
      var target := Min(B.TargetFor(panel.max, minPercent, percent), current);
      preDim := Some(current);
      dimmed := true;
      FadeTo(current, target, l.canWrite);
    }

    method Restore(l: B.Luck)
      requires Valid()
      modifies this`fade, this`preDim, this`dimmed, panel, written, fade
      ensures Valid() && View() == B.Restore(old(View()), l)
    {
      hide B.StopFade, B.FadeTo;
      if panel == null || !dimmed {
        return;
      }
      StopKeeps(View(), l);
      StopFade(l);
      var target := preDim;
      preDim, dimmed := None, false;
      if target.None? || !l.canRead {
        return;
      }
      if panel.value != written.value {
        return;
      }
      FadeTo(panel.value, target.value, l.canWrite);
    }

    /** Waits for the task: its loop, to the end. */
    method Settle(works: nat -> bool)
      requires Valid()
      modifies this`fade, panel, written, fade
      ensures Valid() && fade == null && View() == B.Settle(old(View()), works)
    {
      hide B.Frame, B.Interpolate;
      var i := 0;
      ghost var start := View();
      while fade != null && fade.View().Running()
        invariant Valid() && fade == old(fade) && panel == old(panel)
        invariant View() == start.(panel := View().panel, written := View().written, ramp := View().ramp)
        invariant B.RunOut(View(), works, i) == B.RunOut(start, works, 0)
        decreases if fade != null then fade.steps - fade.step else 0, fade != null && fade.alive
      {
        FrameFrame(View(), works(i));
        TaskFrame(works(i));
        i := i + 1;
      }
      fade := null;
    }

    /** `found` is what discovery finds under the new name. */
    method Reconfigure(minPercent: nat, transition: Duration, changed: bool, found: Panel?, l: B.Luck)
      requires Valid()
      modifies this, panel, written, fade
      ensures Valid() && (changed ==> panel == found)
      ensures View() == B.Reconfigure(old(View()), minPercent, transition,
                if !changed then None
                else Some(if found == null then None else Some(B.Found(found.value, found.max))), l)
    {
      hide B.Frame;
      this.minPercent := minPercent;
      this.transition := transition;
      if !changed {
        return;
      }
      StopFade(l);
      panel := found;
      preDim := None;
      dimmed := false;
    }
  }

  lemma NoFade(d: B.Desk, works: bool)
    requires d.ramp.None?
    ensures B.Frame(d, works) == d
  {
  }

  lemma FrameFrame(d: B.Desk, works: bool)
    requires d.ramp.Some? && d.ramp.value.Running()
    ensures var e := B.Frame(d, works);
            && e == d.(panel := e.panel, written := e.written, ramp := e.ramp) && e.ramp.Some?
            && (var r, r' := d.ramp.value, e.ramp.value;
                r' == r.(made := r.made + 1) || r' == r.(alive := false))
  {
  }

  lemma StopKeeps(d: B.Desk, l: B.Luck)
    ensures var e := B.StopFade(d, l);
            e == d.(panel := e.panel, written := e.written, ramp := None)
  {
  }
}

/**
 Nested and raising callbacks on the simulator object: the machine of module Nesting, with the heap in
 place of the list.
 */
module Interpreter {
  import opened Prelude
  import opened Kernel
  import N = Nesting
  import S = Simulator

  class Interpreter<H, L, T> {
    const sim: S.Simulator<T>
    const program: N.Host<H, L, T>
    var host: H
    /** The call stack, and what happens next on it. */
    var stack: seq<N.Frame<L>>
    var ctl: N.Control
    ghost var fired: set<nat>
    ghost var cancelled: set<nat>
    ghost var shots: seq<N.Shot>
    ghost var lost: nat

    ghost predicate Valid()
      reads this, sim, sim.order
    {
      sim.Valid()
    }

    ghost function View(): N.Machine<H, L, T>
      reads this, sim
    {
      N.Machine(sim.now, sim.queue, sim.nextId, sim.processed, sim.runUntil, stack, ctl, host, fired, cancelled,
                shots, lost)
    }

    constructor (program: N.Host<H, L, T>, host: H, main: L)
      ensures Valid() && fresh(sim) && fresh(sim.events) && this.program == program && View() == N.Boot(host, main)
    {
      sim := new S.Simulator<T>();
      this.program, this.host := program, host;
      stack, ctl := [N.Callback(main)], N.Tell(N.Start);
      fired, cancelled, shots, lost := {}, {}, [], 0;
    }

    /** Takes the peeked event and enters its callback. */
    method Fire()
      requires Valid() && sim.heap != [] && !sim.heap[0].cancelled && stack != []
      modifies this, sim
      ensures Valid() && sim.events <= old(sim.events)
      ensures old(View()).queue != [] && View() == N.Fire(program, old(View()))
    {
      HeapTop(sim.Whole());
      fired, shots := fired + {sim.heap[0].id}, shots + [N.Shot(sim.heap[0].time, |stack| - 1, sim.processed)];
      var tag := sim.Begin();
      stack := stack + [N.Callback(program.begin(tag))];
      ctl := N.Tell(N.Start);
    }

    method Schedule(c: N.Call<T>)
      requires Valid() && stack != [] && (c.Schedule? || c.At?)
      modifies this`ctl, sim
      ensures Valid() && fresh(sim.events - old(sim.events)) && View() == N.Perform(program, old(View()), c)
    {
      var id;
      if c.Schedule? {
        id := sim.Schedule(c.delay, c.tag, c.prio);
      } else {
        id := sim.At(c.time, c.tag, c.prio);
      }
      ctl := N.Tell(N.Scheduled(id));
    }

    method Cancel(c: N.Call<T>)
      requires Valid() && stack != [] && c.Cancel?
      modifies this`ctl, this`cancelled, sim, sim.events
      ensures Valid() && sim.events == old(sim.events) && View() == N.Perform(program, old(View()), c)
    {
      var ok := sim.Cancel(c.id);
      cancelled := if ok then cancelled + {c.id} else cancelled;
      ctl := N.Tell(N.Done(ok));
    }

    method Advance(time: int)
      requires Valid() && stack != []
      modifies this`ctl, sim
      ensures Valid() && sim.events <= old(sim.events) && View() == N.Perform(program, old(View()), N.Advance(time))
    {
      var ok := sim.AdvanceTo(time);
      ctl := N.Tell(N.Done(ok));
    }

    /** The beginning of `step`. */
    method Step()
      requires Valid() && stack != []
      modifies this, sim
      ensures Valid() && sim.events <= old(sim.events) && View() == N.Perform(program, old(View()), N.Step)
    {
      var e := sim.Peek();
      if e == null {
        ctl := N.Tell(N.Stepped(false));
        return;
      }
      stack := stack + [N.StepCall];
      Fire();
    }

    /** The beginning of `run`. */
    method Enter(until: Option<int>, max: Option<int>)
      requires Valid() && stack != []
      modifies this`stack, this`ctl, sim`runUntil
      ensures Valid() && View() == N.Perform(program, old(View()), N.Run(until, max))
    {
      stack := stack + [N.RunLoop(until, sim.runUntil, max, sim.processed, false)];
      var previous := sim.SetHorizon(until);
      ctl := N.Resume;
    }

    method Perform(c: N.Call<T>)
      requires Valid() && stack != []
      modifies this, sim, sim.events
      ensures Valid() && fresh(sim.events - old(sim.events)) && View() == N.Perform(program, old(View()), c)
    {
      match c
      case Step => Step();
      case Run(until, max) => Enter(until, max);
      case Return =>
        stack, ctl := N.Below(stack), N.Resume;
      case Raise =>
        stack, ctl := N.Below(stack), N.Unwind;
      case Cancel(id) => Cancel(c);
      case Advance(time) => Advance(time);
      case _ => Schedule(c);
    }

    /** The `finally` of `run`. */
    method Leave(reply: N.Reply)
      requires Valid() && stack != [] && N.Top(stack).RunLoop?
      modifies this`stack, this`ctl, sim`runUntil
      ensures Valid() && View() == N.Leave(old(View()), reply)
    {
      var previous := sim.SetHorizon(N.Top(stack).previous);
      stack, ctl := N.Below(stack), N.Tell(reply);
    }

    /** One round of the loop of `run`. */
    method Loop()
      requires Valid() && stack != [] && N.Top(stack).RunLoop?
      modifies this, sim, sim.events
      ensures Valid() && fresh(sim.events - old(sim.events)) && View() == N.Loop(program, old(View()))
    {
      var f := N.Top(stack);
      if f.busy {
        sim.Finish();
        stack := N.Below(stack) + [f.(busy := false)];
        return;
      }
      if f.max.Some? && f.max.value <= sim.processed - f.start {
        Leave(N.Ran(sim.processed - f.start));
        return;
      }
      var e := sim.Peek();
      if e == null || (f.until.Some? && f.until.value < e.time) {
        Leave(N.Ran(sim.processed - f.start));
        return;
      }
      stack := N.Below(stack) + [f.(busy := true)];
      Fire();
    }

    method Next()
      requires Valid() && !N.Over(View()) && N.InControl(View())
      modifies this, sim, sim.events
      ensures Valid() && fresh(sim.events - old(sim.events)) && View() == N.Next(program, old(View()))
    {
      match ctl
      case Tell(reply) =>
        var (h, l, c) := program.next(host, N.Top(stack).local, reply);
        host, stack := h, N.Below(stack) + [N.Callback(l)];
        Perform(c);
      case Resume =>
        if N.Top(stack).StepCall? {
          sim.Finish();
          stack, ctl := N.Below(stack), N.Tell(N.Stepped(true));
        } else {
          Loop();
        }
      case Unwind =>
        lost := lost + 1;
        if N.Top(stack).StepCall? {
          stack, ctl := N.Below(stack), N.Tell(N.Failed);
        } else {
          Leave(N.Failed);
        }
    }

    /** Any program, for at most `n` steps, on the heap and on the list: the same. */
    method Execute(n: nat)
      requires Valid() && N.Inv(View(), None)
      modifies this, sim, sim.events
      ensures Valid() && fresh(sim.events - old(sim.events)) && View() == N.Steps(program, old(View()), n)
      ensures N.Inv(View(), None) && (stack == [] ==> sim.runUntil == None)
    {
      var left := n;
      while left > 0 && stack != []
        invariant Valid() && fresh(sim.events - old(sim.events))
        invariant N.Inv(View(), None) && N.Steps(program, View(), left) == N.Steps(program, old(View()), n)
      {
        NextSoundly();
        left := left - 1;
      }
    }

    method NextSoundly()
      requires Valid() && N.Inv(View(), None) && stack != []
      modifies this, sim, sim.events
      ensures Valid() && fresh(sim.events - old(sim.events))
      ensures N.Inv(View(), None) && View() == N.Next(program, old(View()))
    {
      N.NextKeeps(program, View(), None);
      Next();
    }
  }
}

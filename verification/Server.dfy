/**
 * One `Runtime` serving many runs at once. Each run has its own `HostState` and
 * its own guest memory; the steps of different runs may interleave in any order.
 */
module Server {
  import opened Basics
  import opened Outside
  import opened Host

  /** What a guest does: compute, which may leave anything in its memory, or call the host. */
  datatype Action =
    | Compute(now: seq<byte>)
    | LogCall(level: int, ptr: u32, len: u32)
    | CapabilityCall(w: World, namePtr: u32, nameLen: u32, reqPtr: u32, reqLen: u32)
    | ReadCall(ptr: u32, len: u32)

  function ActOf(c: Action, mem: seq<byte>): Act
    requires !c.Compute?
  {
    match c
    case LogCall(level, ptr, len) => Act.Log(mem, level, ptr, len)
    case CapabilityCall(w, np, nl, rp, rl) => Act.Call(mem, w, np, nl, rp, rl)
    case ReadCall(ptr, len) => Act.ResponseRead(mem, ptr, len)
  }

  /** All there is of one run. */
  datatype Instance = Instance(h: State, mem: seq<byte>)

  /** What an action does to a run, and what the guest gets back. */
  function Outcome(s: Setup, i: Instance, c: Action): (Instance, int) {
    if c.Compute? then (if |c.now| == |i.mem| then i.(mem := c.now) else i, 0)
    else
      var e := Step(s, i.h, ActOf(c, i.mem));
      (Instance(e.h, e.mem), e.code)
  }

  /** A run that starts from the module's memory image, with no other run around. */
  function Alone(s: Setup, image: seq<byte>, actions: seq<Action>): Instance {
    if actions == [] then Instance(FRESH, image)
    else Outcome(s, Alone(s, image, actions[..|actions| - 1]), actions[|actions| - 1]).0
  }

  datatype Event = Event(run: nat, action: Action)

  /** The actions of one run, in the order it made them. */
  function Own(history: seq<Event>, run: nat): seq<Action> {
    if history == [] then []
    else
      var n := |history| - 1;
      var before := Own(history[..n], run);
      if history[n].run == run then before + [history[n].action] else before
  }

  lemma {:induction false} OwnStep(history: seq<Event>, e: Event, run: nat)
    ensures Own(history + [e], run) == if e.run == run then Own(history, run) + [e.action] else Own(history, run)
  {
    assert (history + [e])[..|history|] == history;
  }

  lemma {:induction false} OwnOfStranger(history: seq<Event>, run: nat)
    requires forall e | e in history :: e.run != run
    ensures Own(history, run) == []
  {
    if history != [] {
      OwnOfStranger(history[..|history| - 1], run);
    }
  }

  lemma AloneStep(s: Setup, image: seq<byte>, actions: seq<Action>, c: Action)
    ensures Alone(s, image, actions + [c]) == Outcome(s, Alone(s, image, actions), c).0
  {
    assert (actions + [c])[..|actions|] == actions;
  }

  /** The store of one run: its host state and its guest's memory. */
  datatype Vm = Vm(host: HostState, mem: array<byte>) {
    ghost function View(): Instance
      reads host, host.tools, mem
    {
      Instance(host.View(), mem[..])
    }

    /** It is in the state its own actions alone lead to. */
    ghost predicate Isolated(s: Setup, image: seq<byte>, actions: seq<Action>)
      reads host, host.tools, mem
    {
      host.Valid() && host.s == s && View() == Alone(s, image, actions)
    }

    predicate Apart(other: Vm) {
      host != other.host && host.tools != other.host.tools && mem != other.mem
    }

    /** One action keeps it so. */
    method DoIsolated(s: Setup, image: seq<byte>, ghost actions: seq<Action>, c: Action) returns (code: int)
      requires Isolated(s, image, actions)
      modifies host, host.tools, mem
      ensures Isolated(s, image, actions + [c])
      ensures (View(), code) == Outcome(s, Alone(s, image, actions), c)
    {
      hide Alone, Outcome, Run;
      AloneStep(s, image, actions, c);
      code := Do(c);
    }

    /** One action of this run's guest. */
    method Do(c: Action) returns (code: int)
      requires host.Valid()
      modifies host, host.tools, mem
      ensures host.Valid() && (View(), code) == Outcome(host.s, old(View()), c)
    {
      hide Run, Step;
      match c {
        case Compute(now) =>
          if |now| == mem.Length {
            forall i | 0 <= i < |now| {
              mem[i] := now[i];
            }
            assert mem[..] == now;
          }
          code := 0;
        case LogCall(level, ptr, len) =>
          LogReturnsNothing(host.s, host.View(), mem[..], level, ptr, len);
          host.Log(mem, level, ptr, len);
          code := 0;
        case CapabilityCall(w, np, nl, rp, rl) =>
          CallKeepsMemory(host.s, host.View(), mem[..], w, np, nl, rp, rl);
          code := host.Call(mem, w, np, nl, rp, rl);
        case ReadCall(ptr, len) => code := host.ResponseRead(mem, ptr, len);
      }
    }
  }

  lemma LogReturnsNothing(s: Setup, h: State, mem: seq<byte>, level: int, ptr: u32, len: u32)
    ensures var e := Step(s, h, Act.Log(mem, level, ptr, len));
            e.mem == mem && e.code == 0
  {
  }

  lemma CallKeepsMemory(s: Setup, h: State, mem: seq<byte>, w: World, np: u32, nl: u32, rp: u32, rl: u32)
    ensures Step(s, h, Act.Call(mem, w, np, nl, rp, rl)).mem == mem
  {
    hide CallOutcome;
  }

  class Runtime {
    const s: Setup
    const image: seq<byte>
    var runs: map<nat, Vm>
    ghost var history: seq<Event>

    ghost predicate Separate()
      reads this
    {
      forall i, j | i in runs && j in runs && i != j :: runs[i].Apart(runs[j])
    }

    /**
     * Isolation as an invariant: whatever has been interleaved so far, each run's
     * host state and memory are those its own actions alone lead to.
     */
    ghost predicate Valid()
      reads this, set id | id in runs :: runs[id].host
      reads set id | id in runs :: runs[id].host.tools, set id | id in runs :: runs[id].mem
    {
      && Separate()
      && (forall id | id in runs :: runs[id].Isolated(s, image, Own(history, id)))
      && (forall e | e in history :: e.run in runs)
    }

    constructor (s: Setup, image: seq<byte>)
      ensures Valid() && this.s == s && this.image == image && runs == map[] && history == []
    {
      this.s, this.image := s, image;
      runs, history := map[], [];
    }

    /** A new run's store, which shares nothing with any other. */
    method NewVm() returns (vm: Vm)
      ensures fresh(vm.host) && fresh(vm.host.tools) && fresh(vm.mem)
      ensures vm.Isolated(s, image, []) && vm.View() == Instance(FRESH, image)
    {
      hide Run;
      var host := new HostState(s);
      var mem := new byte[|image|](i requires 0 <= i < |image| => image[i]);
      assert mem[..] == image;
      vm := Vm(host, mem);
    }

    /** A run starts with a host state and a memory of its own. */
    method Begin(id: nat)
      requires Valid() && id !in runs
      modifies this`runs
      ensures Valid() && id in runs && runs == old(runs)[id := runs[id]] && history == old(history)
      ensures runs[id].View() == Instance(FRESH, image)
    {
      hide Alone, Vm.Isolated;
      var vm := NewVm();
      OwnOfStranger(history, id);
      runs := runs[id := vm];
      assert Separate();
      forall i | i in runs ensures runs[i].Isolated(s, image, Own(history, i)) {
        assert i != id ==> old(runs[i].Isolated(s, image, Own(history, i)));
      }
    }

    /**
     * One action by one run. It is answered as if no other run existed, and no
     * other run's host state or memory moves.
     */
    method Serve(id: nat, c: Action) returns (code: int)
      requires Valid() && id in runs
      modifies this`history, runs[id].host, runs[id].host.tools, runs[id].mem
      ensures Valid() && runs == old(runs) && history == old(history) + [Event(id, c)]
      ensures (runs[id].View(), code) == Outcome(s, Alone(s, image, Own(old(history), id)), c)
      ensures forall other | other in runs && other != id :: runs[other].View() == old(runs[other].View())
    {
      hide Alone, Outcome, Own, Vm.Isolated;
      var vm := runs[id];
      code := vm.DoIsolated(s, image, Own(history, id), c);
      forall other | other in runs && other != id
        ensures runs[other].View() == old(runs[other].View())
        ensures runs[other].Isolated(s, image, Own(history, other))
      {
        assert runs[other].Apart(vm) && old(runs[other].Isolated(s, image, Own(history, other)));
      }
      history := history + [Event(id, c)];
      forall i | i in runs ensures runs[i].Isolated(s, image, Own(history, i)) {
        OwnStep(old(history), Event(id, c), i);
      }
    }
  }
}

/** The packet registry of `packages/gendux/src/packet.ts`.

    A `Packet` holds the context it was created for, its name, and a
    registry of actions by name. `packet(name, initializer)` returns a
    function of a context that creates the packet, adds it to the context
    and only then runs the initializer on it. The initializer is modelled as
    the sequence of `packet.action(name, fn)` calls it issues, which is what
    a generated entry file's initializer consists of. */
module Packets {
  import opened Wrappers
  import opened ContextSlot
  import Actions

  /** A function value: its runtime `name` property and its identity. */
  datatype Fn = Fn(name: string, id: nat)

  datatype Packet = Packet(context: Context, name: string, actions: map<string, Fn>)

  /** One `packet.action(name, fn)` call. */
  datatype ActionCall = ActionCall(name: string, fn: Fn)

  /** The error `packet.action` throws. Its message names the function's own
      name and the name it was registered under, and those two names are
      what is kept. */
  datatype Mismatch = Mismatch(fnName: string, name: string)

  /** The packet after a call, and whether the call returned or threw. */
  datatype Attempt = Attempt(outcome: Result<(), Mismatch>, packet: Packet)

  /** `Packet.action(name, fn)`: throws when the function's own name differs
      from `name`, before touching the registry; otherwise registers `fn`
      under `name`, overwriting an earlier entry and leaving every other
      name as it was. */
  function RegisterAction(p: Packet, name: string, fn: Fn): (r: Attempt)
    ensures r.outcome.Err? <==> fn.name != name
    ensures r.outcome.Err? ==> r.outcome.error == Mismatch(fn.name, name) && r.packet == p
    ensures r.outcome.Ok? ==> name in r.packet.actions && r.packet.actions[name] == fn
    ensures r.outcome.Ok? ==> r.packet.actions.Keys == p.actions.Keys + {name}
    ensures forall k :: k != name && k in p.actions ==> k in r.packet.actions && r.packet.actions[k] == p.actions[k]
    ensures r.packet.context == p.context && r.packet.name == p.name
  {
    if fn.name != name then
      Attempt(Err(Mismatch(fn.name, name)), p)
    else
      Attempt(Ok(()), p.(actions := p.actions[name := fn]))
  }

  /** Runs the calls in order; the first mismatch throws, leaving the
      registrations made before it in place. */
  function RegisterAll(p: Packet, calls: seq<ActionCall>): Attempt
    decreases |calls|
  {
    if |calls| == 0 then Attempt(Ok(()), p)
    else
      var a := RegisterAction(p, calls[0].name, calls[0].fn);
      if a.outcome.Err? then a else RegisterAll(a.packet, calls[1..])
  }

  /** Reference registry: the calls applied as plain map updates, later
      ones winning. */
  function Apply(actions: map<string, Fn>, calls: seq<ActionCall>): map<string, Fn>
    decreases |calls|
  {
    if |calls| == 0 then actions
    else Apply(actions[calls[0].name := calls[0].fn], calls[1..])
  }

  predicate Matches(c: ActionCall) {
    c.fn.name == c.name
  }

  /** Index of the first call whose function name differs from its name. */
  function FirstMismatch(calls: seq<ActionCall>): (k: nat)
    requires exists i :: 0 <= i < |calls| && !Matches(calls[i])
    ensures k < |calls| && !Matches(calls[k])
    ensures forall j :: 0 <= j < k ==> Matches(calls[j])
    decreases |calls|
  {
    if !Matches(calls[0]) then 0
    else
      assert exists i :: 0 <= i < |calls[1..]| && !Matches(calls[1..][i]) by {
        var i :| 0 <= i < |calls| && !Matches(calls[i]);
        assert i > 0 && !Matches(calls[1..][i - 1]);
      }
      1 + FirstMismatch(calls[1..])
  }

  /** Running the initializer's calls never changes the packet's context
      or name. */
  lemma {:induction false} RegisterAllKeepsIdentity(p: Packet, calls: seq<ActionCall>)
    ensures RegisterAll(p, calls).packet.context == p.context
    ensures RegisterAll(p, calls).packet.name == p.name
    decreases |calls|
  {
    if |calls| > 0 {
      var a := RegisterAction(p, calls[0].name, calls[0].fn);
      if a.outcome.Ok? {
        RegisterAllKeepsIdentity(a.packet, calls[1..]);
      }
    }
  }

  /** When every call's names agree, the initializer returns normally and
      the registry is the plain map update of all calls, in order. */
  lemma {:induction false} RegisterAllSucceeds(p: Packet, calls: seq<ActionCall>)
    requires forall i :: 0 <= i < |calls| ==> Matches(calls[i])
    ensures RegisterAll(p, calls) == Attempt(Ok(()), p.(actions := Apply(p.actions, calls)))
    decreases |calls|
  {
    if |calls| > 0 {
      var a := RegisterAction(p, calls[0].name, calls[0].fn);
      assert Matches(calls[0]);
      assert forall i :: 0 <= i < |calls[1..]| ==> Matches(calls[1..][i]) by {
        forall i | 0 <= i < |calls[1..]| ensures Matches(calls[1..][i]) {
          assert calls[1..][i] == calls[i + 1];
        }
      }
      RegisterAllSucceeds(a.packet, calls[1..]);
    }
  }

  /** When call `k` is the first whose names disagree, the initializer
      throws that call's message and the registry holds exactly the calls
      before it. */
  lemma {:induction false} RegisterAllStops(p: Packet, calls: seq<ActionCall>, k: nat)
    requires k < |calls| && !Matches(calls[k])
    requires forall j :: 0 <= j < k ==> Matches(calls[j])
    ensures RegisterAll(p, calls)
      == Attempt(Err(Mismatch(calls[k].fn.name, calls[k].name)), p.(actions := Apply(p.actions, calls[..k])))
    decreases k
  {
    if k == 0 {
      assert calls[..0] == [];
    } else {
      var a := RegisterAction(p, calls[0].name, calls[0].fn);
      assert Matches(calls[0]);
      assert forall j :: 0 <= j < k - 1 ==> Matches(calls[1..][j]) by {
        forall j | 0 <= j < k - 1 ensures Matches(calls[1..][j]) {
          assert calls[1..][j] == calls[j + 1];
        }
      }
      RegisterAllStops(a.packet, calls[1..], k - 1);
      assert calls[1..][..k - 1] == calls[..k][1..];
    }
  }

  /** Every packet ever built, and the log of `context.addPacket` calls that
      returned, each naming the context and the index of the packet added
      to it. */
  datatype World = World(packets: seq<Packet>, added: seq<Added>)

  datatype Added = Added(context: Context, packet: nat)

  /** Why installing a packet threw: `context.addPacket` threw, or a
      registration in the initializer failed its name check. The context
      type `IContext` is `{}` and `createContext` returns a plain `{}`, so
      the call can fail. */
  datatype InstallError = AddPacketThrew(thrown: string) | NameMismatch(mismatch: Mismatch)

  /** The result of `packet(packetName, initializer)(context)`. */
  datatype Installed = Installed(outcome: Result<(), InstallError>, world: World)

  /** `packet(packetName, initializer)` applied to `context`: builds a packet
      holding `context` and `packetName`, calls `context.addPacket` on it
      (foreign code, whose ending is given as `addPacket`), and only then
      runs the initializer on that same packet. When `addPacket` throws,
      nothing is added and the initializer never runs. Otherwise the packet
      stays added whatever the initializer does, so when the initializer
      throws the context still holds it, with the registrations made
      before the throw. */
  function Install(w: World, packetName: string, initializer: seq<ActionCall>, context: Context, addPacket: Result<(), string>): (r: Installed)
    ensures |r.world.packets| == |w.packets| + 1
    ensures r.world.packets[..|w.packets|] == w.packets
    ensures r.world.packets[|w.packets|].context == context
    ensures r.world.packets[|w.packets|].name == packetName
    ensures addPacket.Err? ==>
      && r.outcome == Err(AddPacketThrew(addPacket.error))
      && r.world.added == w.added
      && r.world.packets[|w.packets|].actions == map[]
    ensures addPacket.Ok? ==>
      var done := RegisterAll(Packet(context, packetName, map[]), initializer);
      && r.world.added == w.added + [Added(context, |w.packets|)]
      && r.world.packets[|w.packets|] == done.packet
      && (done.outcome.Ok? <==> r.outcome.Ok?)
      && (done.outcome.Err? ==> r.outcome == Err(NameMismatch(done.outcome.error)))
  {
    var built := Packet(context, packetName, map[]);
    var ref := |w.packets|;
    if addPacket.Err? then
      Installed(Err(AddPacketThrew(addPacket.error)), w.(packets := w.packets + [built]))
    else
      var added := World(w.packets + [built], w.added + [Added(context, ref)]);
      var done := RegisterAll(added.packets[ref], initializer);
      assert done.packet.context == context && done.packet.name == packetName by {
        RegisterAllKeepsIdentity(built, initializer);
      }
      var outcome := if done.outcome.Ok? then Ok(()) else Err(NameMismatch(done.outcome.error));
      Installed(outcome, added.(packets := added.packets[ref := done.packet]))
  }

  /** Once `addPacket` returns, installing a packet whose initializer's names
      all agree returns normally and leaves the plain map of all its calls in
      the new packet; otherwise it throws the first mismatch, and the packet,
      still added to the context, holds exactly the calls before it. When
      `addPacket` throws, that is what installing throws, and no call runs. */
  lemma InstallOutcome(w: World, packetName: string, initializer: seq<ActionCall>, context: Context, addPacket: Result<(), string>)
    ensures addPacket.Err? ==>
      && Install(w, packetName, initializer, context, addPacket).outcome == Err(AddPacketThrew(addPacket.error))
      && Install(w, packetName, initializer, context, addPacket).world.packets[|w.packets|].actions == map[]
    ensures addPacket.Ok? && (forall i :: 0 <= i < |initializer| ==> Matches(initializer[i])) ==>
      && Install(w, packetName, initializer, context, addPacket).outcome.Ok?
      && Install(w, packetName, initializer, context, addPacket).world.packets[|w.packets|].actions == Apply(map[], initializer)
    ensures addPacket.Ok? && (exists i :: 0 <= i < |initializer| && !Matches(initializer[i])) ==>
      var k := FirstMismatch(initializer);
      && Install(w, packetName, initializer, context, addPacket).outcome
         == Err(NameMismatch(Mismatch(initializer[k].fn.name, initializer[k].name)))
      && Install(w, packetName, initializer, context, addPacket).world.packets[|w.packets|].actions
         == Apply(map[], initializer[..k])
  {
    if addPacket.Ok? {
      var built := Packet(context, packetName, map[]);
      if forall i :: 0 <= i < |initializer| ==> Matches(initializer[i]) {
        RegisterAllSucceeds(built, initializer);
      } else {
        RegisterAllStops(built, initializer, FirstMismatch(initializer));
      }
    }
  }

  /** The function value an action wrapper is at runtime: its `name`
      property is the one the wrapper copied from the generator. */
  function FnOf<A, S, V>(f: Actions.ActionFn<A, S, V>, id: nat): Fn {
    Fn(f.name, id)
  }

  /** Each generator's wrapped action, registered under the generator's
      own name: the name check cannot fail, and the registry maps every
      name to its wrapped action, later generators winning. */
  lemma WrappedActionsRegister<A, S, V>(p: Packet, generators: seq<Actions.Generator<A, S, V>>)
    ensures var calls := seq(|generators|, i requires 0 <= i < |generators| =>
        ActionCall(generators[i].name, FnOf(Actions.Wrap(generators[i]), i)));
      RegisterAll(p, calls) == Attempt(Ok(()), p.(actions := Apply(p.actions, calls)))
  {
    var calls := seq(|generators|, i requires 0 <= i < |generators| =>
        ActionCall(generators[i].name, FnOf(Actions.Wrap(generators[i]), i)));
    forall i | 0 <= i < |calls| ensures Matches(calls[i]) {
      assert calls[i].fn.name == Actions.Wrap(generators[i]).name;
    }
    RegisterAllSucceeds(p, calls);
  }
}

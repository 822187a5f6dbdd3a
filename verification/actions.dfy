/** The context-bound action wrapper of `packages/gendux/src/action.ts`.

    `action(input, output)(generator)` returns a function that, when called,
    captures the context in effect and starts the generator with it; the
    iterator it hands back brackets every resumption (`next`, `return`,
    `throw`) in `runWithContext(captured, …)`. The inner iterator is an
    abstract state machine; the ambient slot is the explicit `Slot` of
    `ContextSlot`, taken as the caller leaves it and given back afterwards. */
module Actions {
  import opened Wrappers
  import opened ContextSlot

  /** A resumption primitive and its argument (the value sent, the value
      returned early, or the error thrown in). */
  datatype Resumption<V> = Next(arg: V) | Return(arg: V) | Throw(arg: V)

  /** The `{value, done}` record an iterator step produces. */
  datatype IterResult<V> = IterResult(value: V, done: bool)

  /** One step of the inner iterator: what it produced or threw, its state
      afterwards, and the slot as its own code left it. */
  datatype Step<S, V> = Step(outcome: Result<IterResult<V>, V>, state: S, slot: Slot)

  /** A step function receives the iterator state, the resumption's
      argument and the slot value visible to the code it runs. */
  type StepFn<!S, !V> = (S, V, Slot) -> Step<S, V>

  /** The inner iterator as a state machine; `ret` and `thr` are `None` when
      the iterator has no `return` / `throw` method. */
  datatype Machine<!S, !V> = Machine(next: StepFn<S, V>, ret: Option<StepFn<S, V>>, thr: Option<StepFn<S, V>>)

  /** A generator function: its declared name, what calling it with the
      params and the context does (build the initial iterator state, or
      throw while binding the parameters, as a destructured parameter does
      on `undefined`), and its step functions. */
  datatype Generator<!A, !S, !V> = Generator(name: string, start: (A, Context) -> Result<S, V>, machine: Machine<S, V>)

  /** The function `action(input, output)(generator)` returns. The `input`
      and `output` shape descriptions are never used by the wrapper. */
  datatype ActionFn<!A, !S, !V> = ActionFn(name: string, generator: Generator<A, S, V>)

  /** The iterator object the wrapped generator hands back: the context it
      captured, and the inner iterator. */
  datatype Wrapped<!S, !V> = Wrapped(captured: Context, machine: Machine<S, V>, state: S)

  /** Why calling the wrapped function threw: no context was in effect, or
      the generator call itself threw. */
  datatype CallError<V> = NoContext(message: string) | StartThrew(thrown: V)

  /** What one resumption hands its caller: `Ok(None)` is `undefined`,
      `Err(e)` a throw; and the inner iterator's state afterwards. */
  datatype Resumed<S, V> = Resumed(outcome: Result<Option<IterResult<V>>, V>, state: S)

  /** `res` is `st` handed on unchanged: same value or same error, same
      iterator state. */
  ghost predicate Relays<S, V>(st: Step<S, V>, res: Resumed<S, V>) {
    && res.state == st.state
    && (st.outcome.Ok? ==> res.outcome == Ok(Some(st.outcome.value)))
    && (st.outcome.Err? ==> res.outcome == Err(st.outcome.error))
  }

  /** `action(input, output)(generator)`: the resulting function carries the
      generator's own name. */
  function Wrap<A, S, V>(generator: Generator<A, S, V>): (f: ActionFn<A, S, V>)
    ensures f.name == generator.name
    ensures f.generator == generator
  {
    ActionFn(generator.name, generator)
  }

  /** Calling the wrapped function with `args`: reads the current context,
      failing when there is none before the generator is called, then calls
      the generator with the args unchanged and that context. A throw from
      that call is what the wrapped call throws; otherwise the iterator is
      built around the state it returned. */
  function Invoke<A, S, V>(f: ActionFn<A, S, V>, slot: Slot, args: A): (r: Result<Wrapped<S, V>, CallError<V>>)
    ensures slot == None ==> r == Err(NoContext(MissingContext))
    ensures slot.Some? ==> (r.Ok? <==> f.generator.start(args, slot.value).Ok?)
    ensures slot.Some? && f.generator.start(args, slot.value).Err? ==>
      r == Err(StartThrew(f.generator.start(args, slot.value).error))
    ensures r.Ok? ==> slot == Some(r.value.captured)
    ensures r.Ok? ==> Ok(r.value.state) == f.generator.start(args, r.value.captured)
    ensures r.Ok? ==> r.value.machine == f.generator.machine
  {
    if slot.None? then Err(NoContext(MissingContext))
    else
      var context := slot.value;
      var started := f.generator.start(args, context);
      if started.Err? then Err(StartThrew(started.error))
      else Ok(Wrapped(context, f.generator.machine, started.value))
  }

  /** Calling the wrapped function inside `runWithContext(given, …)`, from
      any outer slot: the generator is called with `given` and the args as
      passed, whatever it does the call's result is that of the generator
      call, and the outer slot is back afterwards. */
  lemma CallSeesGivenContext<A, S, V>(f: ActionFn<A, S, V>, given: Context, slot: Slot, args: A)
    ensures var c := RunWithContext(slot, given, s => Completion(Invoke(f, s, args), s));
      && c.slot == slot
      && (f.generator.start(args, given).Ok? ==>
            && c.result.Ok?
            && c.result.value.captured == given
            && Ok(c.result.value.state) == f.generator.start(args, given))
      && (f.generator.start(args, given).Err? ==>
            c.result == Err(StartThrew(f.generator.start(args, given).error)))
  {
  }

  function Lift<S, V>(st: Step<S, V>): Completion<Resumed<S, V>> {
    var outcome := if st.outcome.Ok? then Ok(Some(st.outcome.value)) else Err(st.outcome.error);
    Completion(Resumed(outcome, st.state), st.slot)
  }

  /** The inner call a resumption delegates to, run with `slot` visible: a
      missing `return` / `throw` method yields `undefined` and runs nothing. */
  function Delegate<S, V>(m: Machine<S, V>, state: S, r: Resumption<V>, slot: Slot): Completion<Resumed<S, V>> {
    match r
    case Next(v) => Lift(m.next(state, v, slot))
    case Return(v) =>
      if m.ret.Some? then Lift(m.ret.value(state, v, slot)) else Completion(Resumed(Ok(None), state), slot)
    case Throw(e) =>
      if m.thr.Some? then Lift(m.thr.value(state, e, slot)) else Completion(Resumed(Ok(None), state), slot)
  }

  /** One resumption of the wrapped iterator, with the caller's slot as it
      is at that moment. The inner step runs with the captured context in
      the slot, whatever the caller's slot held, its value or error is handed
      back unchanged, and the caller's slot is given back afterwards, also
      when the step throws and whatever the step's own code left in it. */
  function Resume<S, V>(w: Wrapped<S, V>, slot: Slot, r: Resumption<V>): (c: Completion<Resumed<S, V>>)
    ensures c.slot == slot
    ensures r.Next? ==> Relays(w.machine.next(w.state, r.arg, Some(w.captured)), c.result)
    ensures r.Return? && w.machine.ret.Some? ==> Relays(w.machine.ret.value(w.state, r.arg, Some(w.captured)), c.result)
    ensures r.Throw? && w.machine.thr.Some? ==> Relays(w.machine.thr.value(w.state, r.arg, Some(w.captured)), c.result)
    ensures r.Return? && w.machine.ret.None? ==> c.result == Resumed(Ok(None), w.state)
    ensures r.Throw? && w.machine.thr.None? ==> c.result == Resumed(Ok(None), w.state)
  {
    RunWithContext(slot, w.captured, s => Delegate(w.machine, w.state, r, s))
  }

  /** The outcome of a resumption does not depend on what the caller's slot
      held at the time. */
  lemma ResumeIgnoresCallerSlot<S, V>(w: Wrapped<S, V>, s1: Slot, s2: Slot, r: Resumption<V>)
    ensures Resume(w, s1, r).result == Resume(w, s2, r).result
  {
  }

  /** Drives the wrapped iterator through the resumptions `rs`, the i-th one
      issued while the caller's slot holds `slots[i]`. */
  function DriveWrapped<S, V>(w: Wrapped<S, V>, slots: seq<Slot>, rs: seq<Resumption<V>>): seq<Completion<Resumed<S, V>>>
    requires |slots| == |rs|
    decreases |rs|
  {
    if |rs| == 0 then []
    else
      var c := Resume(w, slots[0], rs[0]);
      [c] + DriveWrapped(w.(state := c.result.state), slots[1..], rs[1..])
  }

  /** Reference semantics without an ambient slot: a scheduler hands the
      captured context to every step explicitly. */
  function StepExplicit<S, V>(m: Machine<S, V>, context: Context, state: S, r: Resumption<V>): Resumed<S, V> {
    var handler := match r
      case Next(_) => Some(m.next)
      case Return(_) => m.ret
      case Throw(_) => m.thr;
    if handler.None? then Resumed(Ok(None), state)
    else
      var st := handler.value(state, r.arg, Some(context));
      Resumed(if st.outcome.Ok? then Ok(Some(st.outcome.value)) else Err(st.outcome.error), st.state)
  }

  function DriveExplicit<S, V>(m: Machine<S, V>, context: Context, state: S, rs: seq<Resumption<V>>): seq<Resumed<S, V>>
    decreases |rs|
  {
    if |rs| == 0 then []
    else
      var res := StepExplicit(m, context, state, rs[0]);
      [res] + DriveExplicit(m, context, res.state, rs[1..])
  }

  /** Over any sequence of resumptions, issued under any caller slots, the
      wrapped iterator produces exactly what the explicit-context scheduler
      produces, and every resumption gives the caller's slot back. */
  lemma {:induction false} WrappedIsExplicit<S, V>(w: Wrapped<S, V>, slots: seq<Slot>, rs: seq<Resumption<V>>)
    requires |slots| == |rs|
    ensures |DriveWrapped(w, slots, rs)| == |rs|
    ensures |DriveExplicit(w.machine, w.captured, w.state, rs)| == |rs|
    ensures forall i :: 0 <= i < |rs| ==> DriveWrapped(w, slots, rs)[i].slot == slots[i]
    ensures forall i :: 0 <= i < |rs| ==>
      DriveWrapped(w, slots, rs)[i].result == DriveExplicit(w.machine, w.captured, w.state, rs)[i]
    decreases |rs|
  {
    if |rs| > 0 {
      var c := Resume(w, slots[0], rs[0]);
      var w' := w.(state := c.result.state);
      assert c.result == StepExplicit(w.machine, w.captured, w.state, rs[0]);
      WrappedIsExplicit(w', slots[1..], rs[1..]);
    }
  }
}

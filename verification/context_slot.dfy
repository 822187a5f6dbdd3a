/** The ambient context slot of `packages/gendux/src/context.ts`.

    The source keeps one module-level mutable variable holding the context
    currently in effect (or `null`). Here that variable is an explicit value
    of type `Slot` threaded through every operation: an operation takes the
    slot as it finds it and returns the slot as it leaves it. */
module ContextSlot {
  import opened Wrappers

  /** An opaque context object; `id` stands for its object identity. */
  datatype Context = Context(id: nat)

  /** The ambient slot: `None` is the source's `null`. */
  type Slot = Option<Context>

  /** The message thrown when no context is in effect. */
  const MissingContext: string := "Could not get context!"

  /** What a body passed to `RunWithContext` produced, and the slot as it
      left it. Wherever a body may throw, `result` holds a `Result`. */
  datatype Completion<+X> = Completion(result: X, slot: Slot)

  /** `getCurrentContext`: the context in effect, or the missing-context
      error when the slot is empty. The slot is only read. */
  function GetCurrentContext(slot: Slot): (r: Result<Context, string>)
    ensures r.Err? <==> slot == None
    ensures r.Err? ==> r.error == MissingContext
    ensures r.Ok? ==> slot == Some(r.value)
  {
    if slot.None? then Err(MissingContext) else Ok(slot.value)
  }

  /** `runWithContext(context, fn)`: saves the slot, installs `context`,
      runs `fn`, and restores the saved slot in a `finally`. The body's own
      outcome, returned value or thrown error alike, is handed back as is;
      the slot afterwards is the saved one, whatever the body left. */
  function RunWithContext<X>(slot: Slot, context: Context, fn: Slot -> Completion<X>): (r: Completion<X>)
    ensures r.slot == slot
    ensures r.result == fn(Some(context)).result
  {
    var saved := slot;
    var done := fn(Some(context));
    Completion(done.result, saved)
  }

  /** A service provider: its object identity, and how its `register` call
      ends, returning or throwing a value. `register` is foreign code, so
      its ending is given here rather than computed. */
  datatype Provider = Provider(id: nat, register: Result<(), string>)

  /** One `service.register(context)` call. */
  datatype Registration = Registration(provider: Provider, context: Context)

  /** `createContext(serviceProviders)`: allocates a fresh context (given
      here as `newContext`), calls `register` on it once per provider in list
      order, and returns it. A throwing `register` ends `forEach` at once, so
      `createContext` throws that value and calls no later provider. `calls`
      is the sequence of `register` calls made. */
  method CreateContext(providers: seq<Provider>, newContext: Context) returns (r: Result<Context, string>, calls: seq<Registration>)
    ensures r.Ok? <==> forall i :: 0 <= i < |providers| ==> providers[i].register.Ok?
    ensures r.Ok? ==> r.value == newContext && |calls| == |providers|
    ensures r.Err? ==>
      && 1 <= |calls| <= |providers|
      && providers[|calls| - 1].register == Err(r.error)
      && forall i :: 0 <= i < |calls| - 1 ==> providers[i].register.Ok?
    ensures |calls| <= |providers|
    ensures forall i :: 0 <= i < |calls| ==> calls[i] == Registration(providers[i], newContext)
  {
    calls := [];
    var i := 0;
    while i < |providers|
      invariant 0 <= i <= |providers|
      invariant |calls| == i
      invariant forall j :: 0 <= j < i ==> calls[j] == Registration(providers[j], newContext)
      invariant forall j :: 0 <= j < i ==> providers[j].register.Ok?
    {
      calls := calls + [Registration(providers[i], newContext)];
      if providers[i].register.Err? {
        return Err(providers[i].register.error), calls;
      }
      i := i + 1;
    }
    r := Ok(newContext);
  }

  // ---------------------------------------------------------------------
  // Nested use of the slot. A body handed to `runWithContext` is arbitrary
  // code; `Prog` is a small language of exactly the things such code can do
  // to the slot: query it, throw, catch, sequence, and nest another
  // `runWithContext`.

  datatype Prog =
    | Done(n: int)                          // return a value
    | Query                                 // getCurrentContext()
    | Raise(message: string)                // throw message
    | Then(first: Prog, second: Prog)       // first; second
    | Within(context: Context, body: Prog)  // runWithContext(context, () => body)
    | Recover(body: Prog, handler: Prog)    // try { body } catch { handler }

  datatype Value = Num(n: int) | Got(context: Context)

  /** A program's outcome and the slot value seen by each query, in order. */
  datatype Run = Run(outcome: Result<Value, string>, seen: seq<Slot>)

  function Observe(slot: Slot): Run {
    var got := GetCurrentContext(slot);
    Run(if got.Ok? then Ok(Got(got.value)) else Err(got.error), [slot])
  }

  /** Runs `p` against the single slot. Every program leaves the slot as it
      found it: the only writer is `RunWithContext`, which restores it. */
  function Exec(p: Prog, slot: Slot): (r: Completion<Run>)
    ensures r.slot == slot
  {
    match p
    case Done(n) => Completion(Run(Ok(Num(n)), []), slot)
    case Query => Completion(Observe(slot), slot)
    case Raise(m) => Completion(Run(Err(m), []), slot)
    case Then(a, b) =>
      var ra := Exec(a, slot);
      if ra.result.outcome.Err? then ra
      else
        var rb := Exec(b, ra.slot);
        Completion(Run(rb.result.outcome, ra.result.seen + rb.result.seen), rb.slot)
    case Within(c, body) => RunWithContext(slot, c, s => Exec(body, s))
    case Recover(body, h) =>
      var rb := Exec(body, slot);
      if rb.result.outcome.Ok? then rb
      else
        var rh := Exec(h, rb.slot);
        Completion(Run(rh.result.outcome, rb.result.seen + rh.result.seen), rh.slot)
  }

  /** The context in effect under an explicit stack of contexts pushed on
      top of a base slot value. */
  function Top(base: Slot, stack: seq<Context>): Slot {
    if |stack| == 0 then base else Some(stack[|stack| - 1])
  }

  /** Reference semantics: every `Within` pushes onto an explicit stack
      for the extent of its body, and a query reads the top. */
  function ExecStack(p: Prog, base: Slot, stack: seq<Context>): Run {
    match p
    case Done(n) => Run(Ok(Num(n)), [])
    case Query => Observe(Top(base, stack))
    case Raise(m) => Run(Err(m), [])
    case Then(a, b) =>
      var ra := ExecStack(a, base, stack);
      if ra.outcome.Err? then ra
      else
        var rb := ExecStack(b, base, stack);
        Run(rb.outcome, ra.seen + rb.seen)
    case Within(c, body) => ExecStack(body, base, stack + [c])
    case Recover(body, h) =>
      var rb := ExecStack(body, base, stack);
      if rb.outcome.Ok? then rb
      else
        var rh := ExecStack(h, base, stack);
        Run(rh.outcome, rb.seen + rh.seen)
  }

  /** The save/restore discipline on a single slot behaves exactly like an
      explicit stack of contexts of which only the top is materialised:
      same outcome, same observations at every query, and the slot is the
      top of the stack again afterwards. */
  lemma {:induction false} SlotIsStack(p: Prog, base: Slot, stack: seq<Context>)
    ensures Exec(p, Top(base, stack)).result == ExecStack(p, base, stack)
    ensures Exec(p, Top(base, stack)).slot == Top(base, stack)
  {
    var top := Top(base, stack);
    match p
    case Done(_) =>
    case Query =>
    case Raise(_) =>
    case Then(a, b) =>
      SlotIsStack(a, base, stack);
      SlotIsStack(b, base, stack);
    case Within(c, body) =>
      SlotIsStack(body, base, stack + [c]);
      assert Top(base, stack + [c]) == Some(c);
    case Recover(body, h) =>
      SlotIsStack(body, base, stack);
      SlotIsStack(h, base, stack);
  }

  /** While a body runs under `Within(c, …)`, every query outside any
      further nesting sees `c`, whatever the slot held before. */
  lemma WithinSeesContext(c: Context, slot: Slot)
    ensures Exec(Within(c, Query), slot).result == Run(Ok(Got(c)), [Some(c)])
    ensures Exec(Within(c, Query), slot).slot == slot
  {
  }

  /** Two nested calls: the inner body sees `y`, and right after the inner
      call returns the outer body sees `x` again. */
  lemma NestedRestoresOuter(x: Context, y: Context, slot: Slot)
    ensures Exec(Within(x, Then(Within(y, Query), Query)), slot).result.seen == [Some(y), Some(x)]
  {
    SlotIsStack(Within(x, Then(Within(y, Query), Query)), slot, []);
    assert Top(slot, []) == slot;
    assert [] + [x] == [x] && [x] + [y] == [x, y];
    assert ExecStack(Within(y, Query), slot, [x]) == Observe(Some(y));
    assert ExecStack(Query, slot, [x]) == Observe(Some(x));
    assert ExecStack(Then(Within(y, Query), Query), slot, [x]).seen == [Some(y), Some(x)];
  }

  /** The slot is restored even when the inner body throws: a handler in
      the outer body that catches the error sees the outer context, and the
      slot outside is back afterwards. */
  lemma RestoredAfterThrow(x: Context, y: Context, m: string, slot: Slot)
    ensures Exec(Within(x, Recover(Within(y, Raise(m)), Query)), slot).result == Run(Ok(Got(x)), [Some(x)])
    ensures Exec(Within(x, Recover(Within(y, Raise(m)), Query)), slot).slot == slot
  {
    SlotIsStack(Within(x, Recover(Within(y, Raise(m)), Query)), slot, []);
    assert Top(slot, []) == slot;
    assert [] + [x] == [x];
    assert ExecStack(Within(y, Raise(m)), slot, [x]) == Run(Err(m), []);
    assert ExecStack(Query, slot, [x]) == Observe(Some(x));
    assert ExecStack(Recover(Within(y, Raise(m)), Query), slot, [x]) == Run(Ok(Got(x)), [Some(x)]);
  }

  /** Once an outermost call returns, the slot is empty again, so an
      unguarded query fails with the missing-context error. */
  lemma EmptyAgainAfterOutermost(c: Context)
    ensures Exec(Then(Within(c, Done(0)), Query), None).result.outcome == Err(MissingContext)
  {
    SlotIsStack(Then(Within(c, Done(0)), Query), None, []);
    assert ExecStack(Within(c, Done(0)), None, []) == Run(Ok(Num(0)), []);
    assert ExecStack(Query, None, []) == Observe(None);
  }
}

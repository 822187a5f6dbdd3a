# gendux core in Dafny

gendux is a small framework for organising application logic into
*packets*. A packet is a named bundle of *actions*. An action is a generator
function that receives its parameters and the *context* in effect when it was
called. The framework's core keeps that context in one ambient slot:

- `runWithContext` installs a context for the extent of a call and restores
  the previous one afterwards, also when the call throws;
- `getCurrentContext` reads the slot, and throws when it is empty;
- `createContext` builds a context and lets every service provider register
  on it.

The `action` wrapper captures the context in effect when an action is
called. It then brackets every resumption of the resulting iterator (`next`,
`return`, `throw`) in `runWithContext` with that captured context. So
generator code always sees its own context, and the caller's slot is always
given back. `packet(name, initializer)` returns a function of a context. That
function builds a packet, adds it to the context with `context.addPacket`, and
then runs the initializer, which registers actions by name.
Registering checks that the function's own name equals the registration name.

The companion CLI reads a package manifest. Its `gendux` section declares
models and actions with paths. The CLI defaults every missing field and
writes an entry file, `src/index.ts`, beside the manifest. That module
re-exports every action. Its default export is a packet installer, a function
of a context, whose initializer registers all of them.

The Dafny model is split into modules that follow the source files:

- `Wrappers`: `Option` and `Result`.
- `ContextSlot` (`packages/gendux/src/context.ts`):
  - the slot is an explicit value, `Slot = Option<Context>`, threaded through
    every operation;
  - a small language `Prog` of what code running inside `runWithContext` can
    do to the slot: query, throw, catch, sequence, nest;
  - the language is given two semantics, the single save/restore slot (`Exec`)
    and a reference one with an explicit stack of contexts (`ExecStack`).
- `Actions` (`packages/gendux/src/action.ts`):
  - the inner iterator is an abstract state machine;
  - the wrapped iterator is compared with a reference scheduler that hands the
    captured context to every step explicitly.
- `Packets` (`packages/gendux/src/packet.ts`):
  - the registry, the name check and `packet(name, initializer)`;
  - the reference for the registry is a plain fold of map updates.
- `Manifest` (`getGenduxConfig`, `getPackageName` in
  `packages/gendux-cli/src/index.ts`):
  - the manifest arrives as a parsed value;
  - for the `gendux`, `models` and `actions` properties, `undefined`, `null`
    and present values are distinguished, because destructuring defaults
    apply only to `undefined`;
  - `Object.assign` cannot copy an own property named `__proto__`, so an
    entry under that key is lost while defaulting.
- `TextLines`: splitting text at newlines and joining it back. This is the
  vocabulary for the generated module.
- `EntryFile` (`generateEntryFile` in the same file):
  - the output path, through a model of POSIX `path.parse(...).dir`;
  - the exact generated text, with its whitespace as the template literals
    spell it, and its line structure.

## Model

| member | source | states |
|---|---|---|
| ContextSlot.GetCurrentContext | packages/gendux/src/context.ts:17-22 | Fails exactly when no context is in effect, always with the "Could not get context!" message; otherwise returns the context the slot holds. |
| ContextSlot.RunWithContext | packages/gendux/src/context.ts:7-15 | The body runs with the given context in the slot; its value or thrown error is handed back unchanged; afterwards the slot is the saved one, whatever the body left in it. |
| ContextSlot.CreateContext | packages/gendux/src/context.ts:24-32 | Calls `register` on the fresh context once per provider, in list order. It returns that context exactly when no `register` throws. Otherwise the first throwing `register` is the last call made, and its thrown value is what `createContext` throws. |
| ContextSlot.Exec | packages/gendux/src/context.ts:7-15 | Any code built from queries, throws, catches and nested `runWithContext` calls leaves the slot as it found it. |
| ContextSlot.SlotIsStack | packages/gendux/src/context.ts:6-22 | For every program, the single save/restore slot gives the same outcome and the same query observations as an explicit stack of contexts whose top is the context in effect; the slot ends at the stack's top. |
| ContextSlot.WithinSeesContext | packages/gendux/src/context.ts:7-22 | A query directly inside `runWithContext(c, …)` sees `c`, whatever was in effect outside. |
| ContextSlot.NestedRestoresOuter | packages/gendux/src/context.ts:7-15 | With two nested calls, the inner body sees the inner context, and the outer body sees the outer context again right after the inner call returns. |
| ContextSlot.RestoredAfterThrow | packages/gendux/src/context.ts:9-14 | From any outer slot: when the inner body throws, a handler in the outer body that catches the error sees the outer context, and the outer slot is back afterwards. The `finally` restores the slot on the throwing path too. |
| ContextSlot.EmptyAgainAfterOutermost | packages/gendux/src/context.ts:6-22 | After the outermost call returns, the slot is empty again and a query fails with the missing-context error. |
| Actions.Wrap | packages/gendux/src/action.ts:34-39 | The function built from a generator carries the generator's own name and drives that generator. |
| Actions.Invoke | packages/gendux/src/action.ts:13-15 | With no context in effect, calling the action fails with the missing-context error before the generator is called. Otherwise the generator is called with the args unchanged and the context in effect. If that call throws, the action call throws the same value. The call succeeds exactly when the generator call does, and the iterator then captures that context and starts from the state the generator built. |
| Actions.CallSeesGivenContext | packages/gendux/test/action.ts:5-33 | An action called inside `runWithContext(given, …)` calls its generator with `given` and the args as passed. It then either captures `given` or throws exactly what the generator call threw, and the outer slot is back afterwards. |
| Actions.Resume | packages/gendux/src/action.ts:17-30 | Each of `next`, `return` and `throw` runs the inner step with the captured context visible, whatever the caller's slot held, and relays its value or error and its new state unchanged. A missing `return`/`throw` method yields `undefined` and runs nothing. The caller's slot is given back in every case. |
| Actions.ResumeIgnoresCallerSlot | packages/gendux/src/action.ts:17-30 | The result of a resumption does not depend on the caller's slot at the time. |
| Actions.WrappedIsExplicit | packages/gendux/src/action.ts:13-31 | Over any sequence of resumptions, each issued under any caller slot, the wrapped iterator produces exactly the results of a scheduler that passes the captured context to every step explicitly. Every resumption gives the caller's slot back. |
| Packets.RegisterAction | packages/gendux/src/packet.ts:19-27 | Throws exactly when the function's own name differs from the registration name, and then leaves the packet untouched. Otherwise it maps the name to the function, adds no other key and keeps every other entry. Context and name never change. |
| Packets.FirstMismatch | packages/gendux/src/packet.ts:21-24 | Names the first registration whose function name differs from its registration name; every earlier one agrees. |
| Packets.RegisterAllKeepsIdentity | packages/gendux/src/packet.ts:8-17 | However many registrations run, the packet keeps the context and name it was built with. |
| Packets.RegisterAllSucceeds | packages/gendux/src/packet.ts:19-27 | When all names agree, the initializer's registrations return normally, and the registry equals the plain map update of all calls in order, later ones winning. |
| Packets.RegisterAllStops | packages/gendux/src/packet.ts:19-27 | When call k is the first mismatch, the registrations throw that call's mismatch, and the registry holds exactly the map update of the calls before k. |
| Packets.WrappedActionsRegister | packages/gendux/src/packet.ts:21-26 | The wrapped actions of any generators, each registered under its generator's own name, never trip the name check. The registry then maps each name to its wrapped action. This works because the wrapper copies the generator's name onto the function it returns. |
| Packets.Install | packages/gendux/src/packet.ts:30-36 | Builds exactly one new packet with the given context and name, and leaves earlier packets untouched. If `context.addPacket` throws, installing throws that value, nothing is added, and the initializer never runs. Otherwise the packet is added to that context, and only then does the initializer run on that same packet. The packet stays added even when the initializer throws, and a name mismatch is what installing then throws. |
| Packets.InstallOutcome | packages/gendux/src/packet.ts:30-36 | If `addPacket` throws, installing throws that value and the packet holds no registration. Once `addPacket` returns: when every name agrees, installing returns normally with all registrations; otherwise it throws the first mismatch, and the added packet holds exactly the registrations made before it. |
| Manifest.DefaultModel | packages/gendux-cli/src/index.ts:37-40 | A model entry keeps the `path` and `singleton` present in the manifest; a missing field or a falsy entry gives `""` and `false`. |
| Manifest.DefaultAction | packages/gendux-cli/src/index.ts:46-49 | An action entry keeps a present `path`; a missing one or a falsy entry gives `""`. |
| Manifest.Assign | packages/gendux-cli/src/index.ts:41 | `Object.assign({}, agg, {[key]: v})` maps the key to the new value. An existing key keeps its position and a new key is appended last. The key `__proto__` reaches the prototype setter and leaves the own keys and values unchanged. |
| Manifest.OwnKeysMembers | packages/gendux-cli/src/index.ts:41 | The keys that survive the copies are exactly the manifest's keys other than `__proto__`. |
| Manifest.FoldDomain | packages/gendux-cli/src/index.ts:36-43 | After folding the first n keys, the result holds exactly those keys other than `__proto__`. |
| Manifest.FoldKeys | packages/gendux-cli/src/index.ts:36-43 | Folding the first n keys lists them in the same order without `__proto__`, because the manifest's keys are distinct. |
| Manifest.FoldValid | packages/gendux-cli/src/index.ts:36-43 | Every intermediate result of the fold is a well-formed object: its keys are distinct and are exactly the keys it maps. |
| Manifest.FoldValue | packages/gendux-cli/src/index.ts:36-43 | Every key in the fold carries its own manifest entry with defaults applied. |
| Manifest.DefaultEntries | packages/gendux-cli/src/index.ts:36-52 | Defaulting a `models` or `actions` object gives the same keys in the same order, each mapped to its own entry with defaults applied. The only exception is an entry under `__proto__`, which is lost. |
| Manifest.GetGenduxConfig | packages/gendux-cli/src/index.ts:22-58 | Fails exactly when the file cannot be read or parsed, or a `gendux`, `models` or `actions` value is `null`; the failure is one message naming the path. Otherwise an absent section or object reads as empty, and a present one is defaulted entry by entry, keeping its keys in order except `__proto__`. |
| Manifest.GetPackageName | packages/gendux-cli/src/index.ts:60-69 | Fails with a message naming the path exactly when the file cannot be read or parsed, or the document is `null`. Otherwise it returns the root `name` as it is, including `undefined` or `null`. |
| TextLines.JoinLines | packages/gendux-cli/src/index.ts:86 | Splitting a text into lines and joining them with newlines gives the text back. |
| TextLines.LinesOfJoin | packages/gendux-cli/src/index.ts:86 | Joining newline-free lines with newlines and splitting again gives the same lines. |
| TextLines.LinesOfPieces | packages/gendux-cli/src/index.ts:79-93 | A fragment built from per-key pieces joined by `"\n"`, each piece starting with a newline, reads as the blocks of those pieces with one empty line between neighbours. |
| EntryFile.DirName | packages/gendux-cli/src/index.ts:75 | The directory of a path is always a prefix of it, and empty for a path without a separator. |
| EntryFile.DirNameOfChild | packages/gendux-cli/src/index.ts:75 | The directory of `dir + "/" + file`, for a file name without a separator, is `dir`. |
| EntryFile.EntryFilePath | packages/gendux-cli/src/index.ts:75-76 | The entry file path is the manifest's directory followed by `/src/index.ts`. |
| EntryFile.EntryBesideManifest | packages/gendux-cli/src/index.ts:75-76 | For a manifest at `dir/file`, the entry file is `dir/src/index.ts`. |
| EntryFile.ExportPieceLines | packages/gendux-cli/src/index.ts:80-84 | One action's export piece is a newline, then exactly two lines: the export line and the import line, both naming the quoted path. |
| EntryFile.RegisterPieceLines | packages/gendux-cli/src/index.ts:89-91 | One action's registration is a single line: the quoted name and the bare identifier. |
| EntryFile.EntrySourceLines | packages/gendux-cli/src/index.ts:95-103 | For action keys, quoted names and quoted paths that hold no newline, the generated module, line by line: the fixed header importing `packet`; an export and an import line per action key, in key order; the default export calling `packet` with the quoted package name; a registration per action key, in key order; and the fixed footer. |
| EntryFile.GenerateEntryFile | packages/gendux-cli/src/index.ts:71-106 | The config is read before the name, and the first failure is the one reported. Generation succeeds exactly when both reads succeed. The output then goes to the manifest's `src/index.ts`, and its text is the template over the defaulted actions: the manifest's action keys in order, without `__proto__`. |
| EntryFile.AddTodoEntryFile | packages/gendux-cli/src/index.ts:71-103 | For a manifest declaring the single action `addTodo` at `./addTodo` in package `demo`, the file goes beside the manifest, and its twelve lines are exactly the expected module. |
| EntryFile.ActionsOnlyConfig | packages/gendux-cli/src/index.ts:32-54 | A `gendux` section that holds only `actions` reads as no models and those actions with defaults applied. |
| EntryFile.SingleEntryDefaults | packages/gendux-cli/src/index.ts:36-52 | Defaulting a one-entry object gives the same key mapped to its entry with defaults applied, or the empty object when the key is `__proto__`. |
| EntryFile.ProtoActionDropped | packages/gendux-cli/src/index.ts:45-52 | An action declared under the key `__proto__` is lost while defaulting, so the generated module exports, imports and registers nothing for it. |

## Left out

- `watch` and the top-level script of `packages/gendux-cli/src/index.ts` are not modelled:
  - the TypeScript language service;
  - `fs.watchFile`;
  - recompilation on change;
  - diagnostics logging;
  - command-line handling.
- File I/O and `JSON.parse`:
  - the manifest arrives as a `ManifestFile` value, where an unreadable file or malformed JSON is a distinct case;
  - `getGenduxConfig` and `getPackageName` each read the file, and both reads are modelled as seeing the same contents;
  - the final `fs.writeFileSync` is returned as an `EntryFile(path, text)` value.
- `console.log` calls are left out as output with no effect on the model.
- `JSON.stringify` of a string is the abstract parameter `quote`. Its escaping rules are not modelled. A value of the abstract type is assumed only not to contain a newline, and only where a lemma about lines needs that.
- EntryFile.EntrySourceLines: the line structure is stated only for action keys without a newline. JSON allows such a key, and the source splices the key unquoted, so that key would produce extra lines. `EntryFile.EntrySource` still gives the exact text for every key.
- Parts of the manifest that are not objects are not modelled:
  - a non-object leaf value, such as `path: 3`;
  - a non-object, non-null `gendux`, `models` or `actions` value;
  - a `name` that is not a string.
- Manifest.Assign: `Object.keys` order is taken as insertion order. The rule that integer-like keys come first is not modelled.
- Manifest.DefaultModel: a `path` or `singleton` that is `null` in the manifest is kept by the source and printed as `null`. The model's entry fields are present or absent, so it cannot represent that case.
- Manifest.DefaultAction: the same holds for an action's `path` that is `null`.
- A root document that is not an object (`false`, `0`, a string, an array) has no `gendux` and no `name`. The source gives an empty config and an `undefined` name for it. The model represents it as `ObjectDocument(Absent, Absent)`, which reads the same.
- EntryFile.DirName: only the POSIX `path.parse` is modelled; the Windows variant is not.
- In `packages/gendux/src/action.ts`:
  - the `input` and `output` shape arguments of `action` are not modelled, because the wrapper never uses them;
  - the conversion to a mobx-state-tree `flow` is not modelled, since it is foreign code; the model drives the wrapped iterator directly;
  - `[Symbol.iterator]` is not modelled.
- Generator bodies are abstract step functions. Async suspension and the host runtime's scheduling are not modelled.
- In `packages/gendux/src/packet.ts`:
  - the registry is a plain map instead of an observable `shallowMap`;
  - the unused `entities` map is not modelled;
  - a successful `context.addPacket` call is a log entry. The context type `IContext` is `{}` (`packages/gendux/src/context.ts`, line 1), and `createContext` returns a plain `{}` (lines 25 and 31), so neither declares the method. How the call ends is therefore a parameter of `Packets.Install`. When it throws, the packet is not added and the initializer never runs;
  - the initializer is modelled as the sequence of `packet.action` calls it issues, which is what a generated entry file's initializer does.
- The thrown error of `packet.action` is the datatype `Packets.Mismatch`, holding the two names its message prints. The fixed wording around them is not modelled.
- Object identity of contexts, providers and functions is modelled as a numeric `id`.
- Not part of this model:
  - `packages/gendux-stack-router`;
  - the compiled `lib` and `test-lib` copies of the sources.

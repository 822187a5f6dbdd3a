/** Manifest reading of `packages/gendux-cli/src/index.ts`: the defaulting
    done by `getGenduxConfig` and the lookup done by `getPackageName`.

    The manifest arrives already parsed. A property is `Absent` when it is
    `undefined`, which is the only case in which a destructuring default
    applies; `Null` is kept as is, and destructuring or `Object.keys` of it
    throws. A failed read or parse is a value of `ManifestFile`. */
module Manifest {
  import opened Wrappers

  /** A property as destructuring sees it. */
  datatype Field<+T> = Absent | Null | Present(value: T)

  /** A parsed JSON object: its keys in `Object.keys` order, and its values. */
  datatype JsonObject<+V> = JsonObject(keys: seq<string>, vals: map<string, V>) {
    /** Keys are distinct and are exactly the keys of `vals`. */
    ghost predicate Valid() {
      && (forall i, j | 0 <= i < j < |keys| :: keys[i] != keys[j])
      && (forall k :: k in vals <==> k in keys)
    }
  }

  type Obj<+V> = o: JsonObject<V> | o.Valid() witness JsonObject([], map[])

  function Empty<V>(): (o: Obj<V>)
    ensures o.keys == []
  {
    JsonObject([], map[])
  }

  datatype RawModel = RawModel(path: Option<string>, singleton: Option<bool>)
  datatype RawAction = RawAction(path: Option<string>)

  /** The `gendux` section; an entry is `None` where the manifest holds a
      falsy value such as `null` for it. */
  datatype RawSection = RawSection(models: Field<Obj<Option<RawModel>>>, actions: Field<Obj<Option<RawAction>>>)

  /** The parsed document: `null`, or an object with the two properties read.
      Any other value (`false`, `0`, a string, an array) has neither
      property and reads exactly as `ObjectDocument(Absent, Absent)`. */
  datatype Document = NullDocument | ObjectDocument(gendux: Field<RawSection>, name: Field<string>)

  /** The outcome of reading and parsing the manifest file. */
  datatype ManifestFile = Unreadable | Malformed | Parsed(document: Document)

  datatype ModelConfig = ModelConfig(path: string, singleton: bool)
  datatype ActionConfig = ActionConfig(path: string)
  datatype Config = Config(models: Obj<ModelConfig>, actions: Obj<ActionConfig>)

  function ConfigError(manifestPath: string): string {
    "Error while getting gendux config from " + manifestPath
  }

  function NameError(manifestPath: string): string {
    "Error while getting package name from " + manifestPath
  }

  /** One model entry with defaults: a falsy entry counts as `{}`, a missing
      `path` becomes `""` and a missing `singleton` becomes `false`; present
      values are kept. */
  function DefaultModel(entry: Option<RawModel>): (m: ModelConfig)
    ensures entry.Some? && entry.value.path.Some? ==> m.path == entry.value.path.value
    ensures entry.None? || entry.value.path.None? ==> m.path == ""
    ensures entry.Some? && entry.value.singleton.Some? ==> m.singleton == entry.value.singleton.value
    ensures entry.None? || entry.value.singleton.None? ==> !m.singleton
  {
    var e := entry.GetOr(RawModel(None, None));
    ModelConfig(e.path.GetOr(""), e.singleton.GetOr(false))
  }

  /** One action entry with defaults: a falsy entry counts as `{}` and a
      missing `path` becomes `""`; a present one is kept. */
  function DefaultAction(entry: Option<RawAction>): (a: ActionConfig)
    ensures entry.Some? && entry.value.path.Some? ==> a.path == entry.value.path.value
    ensures entry.None? || entry.value.path.None? ==> a.path == ""
  {
    var e := entry.GetOr(RawAction(None));
    ActionConfig(e.path.GetOr(""))
  }

  /** The one key `Object.assign` cannot copy as an own property: writing
      it runs the inherited `__proto__` setter instead. */
  const ProtoKey: string := "__proto__"

  /** `keys` without `ProtoKey`, in order. */
  function OwnKeys(keys: seq<string>): seq<string>
    decreases |keys|
  {
    if |keys| == 0 then []
    else
      var rest := OwnKeys(keys[..|keys| - 1]);
      if keys[|keys| - 1] == ProtoKey then rest else rest + [keys[|keys| - 1]]
  }

  /** `OwnKeys` keeps exactly the keys other than `ProtoKey`. */
  lemma {:induction false} OwnKeysMembers(keys: seq<string>, k: string)
    ensures k in OwnKeys(keys) <==> k in keys && k != ProtoKey
    decreases |keys|
  {
    if |keys| > 0 {
      OwnKeysMembers(keys[..|keys| - 1], k);
      assert keys == keys[..|keys| - 1] + [keys[|keys| - 1]];
    }
  }

  /** `Object.assign({}, agg, {[key]: v})`. An existing key keeps its place
      and takes the new value, and a new key goes last. `ProtoKey` is the
      exception: the write reaches the prototype setter, so no own key is
      added. The changed prototype is lost at the next copy, and
      `Object.keys` never shows it. */
  function Assign<V>(agg: JsonObject<V>, key: string, v: V): (r: JsonObject<V>)
    ensures key == ProtoKey ==> r == agg
    ensures key != ProtoKey ==> r.vals == agg.vals[key := v]
    ensures key != ProtoKey && key in agg.vals ==> r.keys == agg.keys
    ensures key != ProtoKey && key !in agg.vals ==> r.keys == agg.keys + [key]
  {
    if key == ProtoKey then agg
    else if key in agg.vals then
      JsonObject(agg.keys, agg.vals[key := v])
    else
      JsonObject(agg.keys + [key], agg.vals[key := v])
  }

  /** The `map` + `reduce(Object.assign, {})` over the first `n` keys of
      `raw`, each entry passed through `fill`. */
  function Fold<R, C>(raw: Obj<R>, fill: R -> C, n: nat): JsonObject<C>
    requires n <= |raw.keys|
  {
    if n == 0 then JsonObject([], map[])
    else
      var key := raw.keys[n - 1];
      Assign(Fold(raw, fill, n - 1), key, fill(raw.vals[key]))
  }

  /** The fold holds exactly the first `n` keys other than `ProtoKey`. */
  lemma {:induction false} FoldDomain<R, C>(raw: Obj<R>, fill: R -> C, n: nat, k: string)
    requires n <= |raw.keys|
    ensures k in Fold(raw, fill, n).vals <==> k in raw.keys[..n] && k != ProtoKey
    decreases n
  {
    if n > 0 {
      FoldDomain(raw, fill, n - 1, k);
      assert raw.keys[..n] == raw.keys[..n - 1] + [raw.keys[n - 1]];
    }
  }

  /** The fold lists the first `n` keys other than `ProtoKey`, in order. */
  lemma {:induction false} FoldKeys<R, C>(raw: Obj<R>, fill: R -> C, n: nat)
    requires n <= |raw.keys|
    ensures Fold(raw, fill, n).keys == OwnKeys(raw.keys[..n])
    decreases n
  {
    if n > 0 {
      var key := raw.keys[n - 1];
      FoldKeys(raw, fill, n - 1);
      assert raw.keys[..n][..n - 1] == raw.keys[..n - 1];
      if key != ProtoKey {
        NotInPrefix(raw.keys, n - 1);
        FoldDomain(raw, fill, n - 1, key);
        assert Fold(raw, fill, n).keys == Fold(raw, fill, n - 1).keys + [key];
      }
    }
  }

  /** In a sequence of distinct keys, no key occurs before its own index. */
  lemma NotInPrefix(keys: seq<string>, i: nat)
    requires i < |keys|
    requires forall a, b | 0 <= a < b < |keys| :: keys[a] != keys[b]
    ensures keys[i] !in keys[..i]
  {
    assert forall a | 0 <= a < i :: keys[..i][a] == keys[a] != keys[i];
  }

  /** The fold's keys are distinct and are exactly the keys of its values. */
  lemma {:induction false} FoldValid<R, C>(raw: Obj<R>, fill: R -> C, n: nat)
    requires n <= |raw.keys|
    ensures Fold(raw, fill, n).Valid()
    decreases n
  {
    if n > 0 {
      FoldValid(raw, fill, n - 1);
    }
  }

  /** Every key the fold holds carries its entry passed through `fill`. */
  lemma {:induction false} FoldValue<R, C>(raw: Obj<R>, fill: R -> C, n: nat, k: string)
    requires n <= |raw.keys|
    requires k in Fold(raw, fill, n).vals
    ensures k in raw.vals && Fold(raw, fill, n).vals[k] == fill(raw.vals[k])
    decreases n
  {
    var key := raw.keys[n - 1];
    assert key in raw.vals;
    var prev := Fold(raw, fill, n - 1);
    if key == ProtoKey {
      FoldValue(raw, fill, n - 1, k);
    } else {
      assert Fold(raw, fill, n).vals == prev.vals[key := fill(raw.vals[key])];
      if k != key {
        assert k in prev.vals;
        FoldValue(raw, fill, n - 1, k);
      }
    }
  }

  /** The defaulting of a whole `models` or `actions` object: the same keys
      in the same order, each entry passed through `fill`, except that an
      entry under `ProtoKey` is lost. */
  function DefaultEntries<R, C>(raw: Obj<R>, fill: R -> C): (r: Obj<C>)
    ensures r.keys == OwnKeys(raw.keys)
    ensures forall k :: k in raw.vals && k != ProtoKey ==> k in r.vals && r.vals[k] == fill(raw.vals[k])
    ensures ProtoKey !in r.vals
  {
    var folded := Fold(raw, fill, |raw.keys|);
    FoldKeys(raw, fill, |raw.keys|);
    FoldValid(raw, fill, |raw.keys|);
    assert raw.keys[..|raw.keys|] == raw.keys;
    forall k | k in raw.vals && k != ProtoKey
      ensures k in folded.vals && folded.vals[k] == fill(raw.vals[k])
    {
      FoldDomain(raw, fill, |raw.keys|, k);
      FoldValue(raw, fill, |raw.keys|, k);
    }
    FoldDomain(raw, fill, |raw.keys|, ProtoKey);
    folded
  }

  /** `const {gendux = {}} = rawSchema || {}`. */
  function Section(document: Document): Field<RawSection> {
    if document.NullDocument? then Absent else document.gendux
  }

  function ModelsOf(section: Field<RawSection>): Field<Obj<Option<RawModel>>> {
    if section.Present? then section.value.models else Absent
  }

  function ActionsOf(section: Field<RawSection>): Field<Obj<Option<RawAction>>> {
    if section.Present? then section.value.actions else Absent
  }

  /** The object a `= {}` default yields. */
  function OrEmpty<V>(f: Field<Obj<V>>): Obj<V> {
    if f.Present? then f.value else Empty()
  }

  /** `out` is `raw` defaulted: an absent object becomes empty, a present
      one keeps its keys other than `ProtoKey` in order, with every entry
      passed through `fill`. */
  ghost predicate DefaultedFrom<R, C>(raw: Field<Obj<R>>, out: Obj<C>, fill: R -> C) {
    match raw
    case Absent => out.keys == []
    case Null => false
    case Present(o) =>
      && out.keys == OwnKeys(o.keys)
      && forall k :: k in o.vals && k != ProtoKey ==> k in out.vals && out.vals[k] == fill(o.vals[k])
  }

  /** The manifest can be read, parsed and destructured without a throw. */
  ghost predicate ConfigReadable(file: ManifestFile) {
    && file.Parsed?
    && !Section(file.document).Null?
    && !ModelsOf(Section(file.document)).Null?
    && !ActionsOf(Section(file.document)).Null?
  }

  /** `getGenduxConfig(packageJsonPath)` on the file's contents: every
      failure becomes one message naming the path; otherwise `models` and
      `actions` are defaulted entry by entry, keeping their keys. */
  function GetGenduxConfig(manifestPath: string, file: ManifestFile): (r: Result<Config, string>)
    ensures r.Err? <==> !ConfigReadable(file)
    ensures r.Err? ==> r.error == ConfigError(manifestPath)
    ensures r.Ok? ==> DefaultedFrom(ModelsOf(Section(file.document)), r.value.models, DefaultModel)
    ensures r.Ok? ==> DefaultedFrom(ActionsOf(Section(file.document)), r.value.actions, DefaultAction)
  {
    if !file.Parsed? then Err(ConfigError(manifestPath))
    else
      var section := Section(file.document);
      // destructuring `null` throws a TypeError
      if section.Null? then Err(ConfigError(manifestPath))
      else
        var models := ModelsOf(section);
        var actions := ActionsOf(section);
        // `Object.keys(null)` throws a TypeError
        if models.Null? || actions.Null? then Err(ConfigError(manifestPath))
        else Ok(Config(DefaultEntries(OrEmpty(models), DefaultModel), DefaultEntries(OrEmpty(actions), DefaultAction)))
  }

  /** `getPackageName(packageJsonPath)`: the root `name` property as it is
      (possibly `undefined` or `null`); reading, parsing or a `null` document
      fail with one message naming the path. */
  function GetPackageName(manifestPath: string, file: ManifestFile): (r: Result<Field<string>, string>)
    ensures r.Err? <==> !(file.Parsed? && file.document.ObjectDocument?)
    ensures r.Err? ==> r.error == NameError(manifestPath)
    ensures r.Ok? ==> r.value == file.document.name
  {
    match file
    case Parsed(ObjectDocument(_, name)) => Ok(name)
    case _ => Err(NameError(manifestPath))
  }
}

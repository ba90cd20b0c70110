/** The typed-configuration accessor: every call on a configuration
    interface is resolved to a (group key, item key) pair and becomes a
    read or a write against the untyped string store of the
    configuration manager. The reflection the handler uses to find the
    annotations and to run a method's default body is replaced by an
    explicit descriptor of the called method. */
module Config {
  import opened JavaLang

  /** The string store, keyed by (group key, item key). */
  type Store = map<(string, string), string>

  /** The arguments of a proxied call; Java passes null (`None`) when the
      method takes no parameters. */
  type Args<V> = Option<seq<Option<V>>>

  datatype Exception =
    | InvalidArgumentCount      // "Invalid number of arguents to configuration method"
    | NullArgument               // `args[0].toString()` on a null argument
    | DefaultMethodThrew(cause: string)

  /** How a call ends: a (possibly null) return value or a thrown exception. */
  datatype Outcome<V> = Returned(value: Option<V>) | Threw(exception: Exception)

  /** The configuration interface of the proxy: its `@ConfigGroup` key,
      `None` when the interface carries no such annotation. */
  datatype ConfigInterface = ConfigInterface(group: Option<string>)

  /** The invoked method: its `@ConfigItem` key (`None` when it carries no
      such annotation), the name of its declared return type, and, when it
      is a default method, what running its own default body on the
      given arguments yields. */
  datatype ConfigMethod<!V> = ConfigMethod(
    item: Option<string>,
    returnType: string,
    defaultBody: Option<Args<V> -> Outcome<V>>)

  /** The two conversions the handler delegates: `ConfigManager.stringToObject`
      (stored string and return type to value) and the argument's `toString`. */
  datatype Codec<!V> = Codec(stringToObject: (string, string) -> Option<V>, toString: V -> string)

  /** The result of one invocation together with the store after it. */
  datatype Step<V> = Step(result: Outcome<V>, store: Store)

  /** The (group, item) key a call resolves to, when both annotations are present. */
  function KeyOf<V>(iface: ConfigInterface, m: ConfigMethod<V>): Option<(string, string)> {
    if iface.group.Some? && m.item.Some? then Some((iface.group.value, m.item.value)) else None
  }

  /** A getter call: the stored string decoded to the return type, or,
      with nothing stored, the method's default body (or null). */
  function Get<V>(codec: Codec<V>, store: Store, m: ConfigMethod<V>, key: (string, string)): Outcome<V> {
    if key in store then
      Returned(codec.stringToObject(store[key], m.returnType))
    else if m.defaultBody.Some? then
      m.defaultBody.value(None)
    else
      Returned(None)
  }

  /** A setter call with argument array `a`. */
  function Set<V(==)>(codec: Codec<V>, store: Store, m: ConfigMethod<V>, key: (string, string), a: seq<Option<V>>): Step<V> {
    if |a| != 1 then
      Step(Threw(InvalidArgumentCount), store)
    else
      var newValue := a[0];
      var defaultValue := if m.defaultBody.Some? then Some(m.defaultBody.value(Some(a))) else None;
      if defaultValue.Some? && defaultValue.value.Threw? then
        Step(defaultValue.value, store)
      else if defaultValue.Some? && newValue == defaultValue.value.value then
        Step(Returned(None), store - {key})
      else if newValue.None? then
        Step(Threw(NullArgument), store)
      else
        Step(Returned(None), store[key := codec.toString(newValue.value)])
  }

  /** One call of the invocation handler on a store. */
  function Invoked<V(==)>(codec: Codec<V>, store: Store, iface: ConfigInterface, m: ConfigMethod<V>, args: Args<V>): Step<V> {
    match KeyOf(iface, m)
    case None => Step(Returned(None), store)
    case Some(key) =>
      if args.None? then Step(Get(codec, store, m, key), store)
      else Set(codec, store, m, key, args.value)
  }

  /** The configuration manager, seen only through the three store
      operations the handler calls. */
  class ConfigManager {
    var entries: Store

    constructor (initial: Store)
      ensures entries == initial
    {
      entries := initial;
    }

    method GetConfiguration(group: string, key: string) returns (value: Option<string>)
      ensures value.Some? <==> (group, key) in entries
      ensures value.Some? ==> value.value == entries[(group, key)]
    {
      if (group, key) in entries {
        value := Some(entries[(group, key)]);
      } else {
        value := None;
      }
    }

    method SetConfiguration(group: string, key: string, value: string)
      modifies this
      ensures entries == old(entries)[(group, key) := value]
    {
      entries := entries[(group, key) := value];
    }

    method UnsetConfiguration(group: string, key: string)
      modifies this
      ensures entries == old(entries) - {(group, key)}
    {
      entries := entries - {(group, key)};
    }
  }

  /** The proxy's invocation handler. */
  class ConfigInvocationHandler<V(==)> {
    const manager: ConfigManager
    const codec: Codec<V>

    constructor (manager: ConfigManager, codec: Codec<V>)
      ensures this.manager == manager && this.codec == codec
    {
      this.manager := manager;
      this.codec := codec;
    }

    method Invoke(iface: ConfigInterface, m: ConfigMethod<V>, args: Args<V>) returns (r: Outcome<V>)
      modifies manager
      ensures r == Invoked(codec, old(manager.entries), iface, m, args).result
      ensures manager.entries == Invoked(codec, old(manager.entries), iface, m, args).store
    {
      if iface.group.None? {
        return Returned(None);
      }
      if m.item.None? {
        return Returned(None);
      }
      var group, item := iface.group.value, m.item.value;
      if args.None? {
        var value := manager.GetConfiguration(group, item);
        if value.None? {
          if m.defaultBody.Some? {
            return m.defaultBody.value(args);
          }
          return Returned(None);
        }
        var objectValue := codec.stringToObject(value.value, m.returnType);
        return Returned(objectValue);
      } else {
        if |args.value| != 1 {
          return Threw(InvalidArgumentCount);
        }
        var newValue := args.value[0];
        if m.defaultBody.Some? {
          var defaultValue := m.defaultBody.value(args);
          if defaultValue.Threw? {
            return defaultValue;
          }
          if newValue == defaultValue.value {
            manager.UnsetConfiguration(group, item);
            return Returned(None);
          }
        }
        if newValue.None? {
          return Threw(NullArgument);
        }
        manager.SetConfiguration(group, item, codec.toString(newValue.value));
        return Returned(None);
      }
    }
  }

  // ---------------------------------------------------------------------
  // Properties of one call and of calls in sequence

  /** Without a group or an item annotation a call returns null and
      leaves the store as it was. */
  lemma MissingAnnotationIsNoOp<V>(codec: Codec<V>, store: Store, iface: ConfigInterface, m: ConfigMethod<V>, args: Args<V>)
    requires iface.group.None? || m.item.None?
    ensures Invoked(codec, store, iface, m, args) == Step(Returned(None), store)
  {
  }

  /** A getter never changes the store, and what it returns depends on the
      store only through the entry at its own key. */
  lemma GetterOnlyLooksUp<V>(codec: Codec<V>, s1: Store, s2: Store, iface: ConfigInterface, m: ConfigMethod<V>)
    requires KeyOf(iface, m).Some?
    requires var key := KeyOf(iface, m).value;
      (key in s1 <==> key in s2) && (key in s1 ==> s1[key] == s2[key])
    ensures Invoked(codec, s1, iface, m, None).store == s1
    ensures Invoked(codec, s1, iface, m, None).result == Invoked(codec, s2, iface, m, None).result
  {
  }

  /** A getter whose key is stored returns the decoded string, whether or
      not the method has a default. */
  lemma GetterDecodesStored<V>(codec: Codec<V>, store: Store, iface: ConfigInterface, m: ConfigMethod<V>)
    requires KeyOf(iface, m).Some? && KeyOf(iface, m).value in store
    ensures Invoked(codec, store, iface, m, None).result
         == Returned(codec.stringToObject(store[KeyOf(iface, m).value], m.returnType))
  {
  }

  /** A getter whose key is absent runs the default body, or returns null
      when the method has none. */
  lemma GetterFallsBackToDefault<V>(codec: Codec<V>, store: Store, iface: ConfigInterface, m: ConfigMethod<V>)
    requires KeyOf(iface, m).Some? && KeyOf(iface, m).value !in store
    ensures m.defaultBody.Some? ==> Invoked(codec, store, iface, m, None).result == m.defaultBody.value(None)
    ensures m.defaultBody.None? ==> Invoked(codec, store, iface, m, None).result == Returned(None)
  {
  }

  /** A setter given other than exactly one argument throws and changes nothing. */
  lemma SetterArity<V>(codec: Codec<V>, store: Store, iface: ConfigInterface, m: ConfigMethod<V>, a: seq<Option<V>>)
    requires KeyOf(iface, m).Some? && |a| != 1
    ensures Invoked(codec, store, iface, m, Some(a)) == Step(Threw(InvalidArgumentCount), store)
  {
  }

  /** Setting a default method's item to its default removes the entry,
      and a later getter for the same item then answers from its own
      default body, exactly as if the item had never been set. */
  lemma SetToDefaultIsUnset<V>(codec: Codec<V>, store: Store, iface: ConfigInterface, setter: ConfigMethod<V>, getter: ConfigMethod<V>, v: Option<V>)
    requires KeyOf(iface, setter).Some? && getter.item == setter.item
    requires setter.defaultBody.Some? && setter.defaultBody.value(Some([v])) == Returned(v)
    ensures var after := Invoked(codec, store, iface, setter, Some([v]));
      && after == Step(Returned(None), store - {KeyOf(iface, setter).value})
      && KeyOf(iface, setter).value !in after.store
      && Invoked(codec, after.store, iface, getter, None).result
         == Invoked(codec, map[], iface, getter, None).result
  {
  }

  /** In every other successful case the setter writes the argument's
      string form at its key and nowhere else. */
  lemma SetterWritesString<V>(codec: Codec<V>, store: Store, iface: ConfigInterface, m: ConfigMethod<V>, v: V)
    requires KeyOf(iface, m).Some?
    requires m.defaultBody.Some? ==> m.defaultBody.value(Some([Some(v)])).Returned?
    requires m.defaultBody.Some? ==> m.defaultBody.value(Some([Some(v)])).value != Some(v)
    ensures var after := Invoked(codec, store, iface, m, Some([Some(v)]));
      && after.result == Returned(None)
      && after.store == store[KeyOf(iface, m).value := codec.toString(v)]
  {
  }

  /** Whatever the call, no key other than the call's own changes. */
  lemma OnlyOwnKeyChanges<V>(codec: Codec<V>, store: Store, iface: ConfigInterface, m: ConfigMethod<V>, args: Args<V>, other: (string, string))
    requires KeyOf(iface, m) != Some(other)
    ensures var after := Invoked(codec, store, iface, m, args).store;
      (other in after <==> other in store) && (other in store ==> after[other] == store[other])
  {
  }

  /** A setter never returns a value, and repeating the same call leaves
      the store as the first call left it. */
  lemma SetterIdempotent<V>(codec: Codec<V>, store: Store, iface: ConfigInterface, m: ConfigMethod<V>, a: seq<Option<V>>)
    ensures var once := Invoked(codec, store, iface, m, Some(a));
      && (once.result.Returned? ==> once.result == Returned(None))
      && Invoked(codec, once.store, iface, m, Some(a)) == once
  {
  }

  /** The conversions agree on `v` for return type `t`: decoding its string
      form yields `v` again. The handler does not establish this; it is
      what a codec for `t` has to provide. */
  ghost predicate RoundTrips<V>(codec: Codec<V>, t: string, v: V) {
    codec.stringToObject(codec.toString(v), t) == Some(v)
  }

  /** An override persists: when the codec round-trips `v`, a getter after
      a setter that stored `v` returns `v`. */
  lemma OverridePersists<V>(codec: Codec<V>, store: Store, iface: ConfigInterface, setter: ConfigMethod<V>, getter: ConfigMethod<V>, v: V)
    requires KeyOf(iface, setter).Some? && getter.item == setter.item
    requires setter.defaultBody.Some? ==> setter.defaultBody.value(Some([Some(v)])).Returned?
    requires setter.defaultBody.Some? ==> setter.defaultBody.value(Some([Some(v)])).value != Some(v)
    requires RoundTrips(codec, getter.returnType, v)
    ensures var after := Invoked(codec, store, iface, setter, Some([Some(v)])).store;
      Invoked(codec, after, iface, getter, None).result == Returned(Some(v))
  {
  }

  /** An integer item `maxItems` whose getter and setter are both default
      methods answering 10: unset it reads 10; setting 7 stores the string
      form of 7 and it reads 7; setting 10 removes the entry and it reads 10
      again; a setter call with an empty argument array throws. */
  lemma MaxItemsScenario(codec: Codec<int>, store: Store, iface: ConfigInterface, getter: ConfigMethod<int>, setter: ConfigMethod<int>)
    requires iface.group.Some? && getter.item == Some("maxItems") && setter.item == Some("maxItems")
    requires (iface.group.value, "maxItems") !in store
    requires getter.defaultBody.Some? && getter.defaultBody.value(None) == Returned(Some(10))
    requires setter.defaultBody.Some?
    requires setter.defaultBody.value(Some([Some(7)])) == Returned(Some(10))
    requires setter.defaultBody.value(Some([Some(10)])) == Returned(Some(10))
    requires RoundTrips(codec, getter.returnType, 7)
    ensures var key := (iface.group.value, "maxItems");
      var s1 := Invoked(codec, store, iface, setter, Some([Some(7)])).store;
      var s2 := Invoked(codec, s1, iface, setter, Some([Some(10)])).store;
      && Invoked(codec, store, iface, getter, None).result == Returned(Some(10))
      && s1 == store[key := codec.toString(7)]
      && Invoked(codec, s1, iface, getter, None).result == Returned(Some(7))
      && s2 == store
      && Invoked(codec, s2, iface, getter, None).result == Returned(Some(10))
      && Invoked(codec, s2, iface, setter, Some([])) == Step(Threw(InvalidArgumentCount), s2)
  {
    var key := (iface.group.value, "maxItems");
    var s1 := Invoked(codec, store, iface, setter, Some([Some(7)])).store;
    assert s1 - {key} == store;
  }

  /** One proxied call: the interface, the method and the arguments. */
  datatype Call<!V> = Call(iface: ConfigInterface, m: ConfigMethod<V>, args: Args<V>)

  /** The store after a sequence of calls, in order. */
  function Replay<V(==)>(codec: Codec<V>, store: Store, calls: seq<Call<V>>): Store
    decreases |calls|
  {
    if calls == [] then store
    else
      var c := calls[0];
      Replay(codec, Invoked(codec, store, c.iface, c.m, c.args).store, calls[1..])
  }

  /** Replaying two sequences one after the other is replaying their concatenation. */
  lemma {:induction false} ReplayAppend<V>(codec: Codec<V>, store: Store, a: seq<Call<V>>, b: seq<Call<V>>)
    ensures Replay(codec, store, a + b) == Replay(codec, Replay(codec, store, a), b)
    decreases |a|
  {
    if a == [] {
      assert a + b == b;
    } else {
      var c := a[0];
      assert (a + b)[0] == c && (a + b)[1..] == a[1..] + b;
      ReplayAppend(codec, Invoked(codec, store, c.iface, c.m, c.args).store, a[1..], b);
    }
  }

  /** Calls that resolve to other keys never change the entry at `k`. */
  lemma {:induction false} UntouchedKeyKeepsEntry<V>(codec: Codec<V>, store: Store, calls: seq<Call<V>>, k: (string, string))
    requires forall i :: 0 <= i < |calls| ==> KeyOf(calls[i].iface, calls[i].m) != Some(k)
    ensures var after := Replay(codec, store, calls);
      (k in after <==> k in store) && (k in store ==> after[k] == store[k])
    decreases |calls|
  {
    if calls != [] {
      var c := calls[0];
      OnlyOwnKeyChanges(codec, store, c.iface, c.m, c.args, k);
      UntouchedKeyKeepsEntry(codec, Invoked(codec, store, c.iface, c.m, c.args).store, calls[1..], k);
    }
  }

  /** Last write wins: when the last call that resolves to `k` is a plain
      write of `v`, the store ends up holding the string form of `v` at `k`,
      whatever came before and whatever other keys were touched after. */
  lemma LastWriteWins<V>(codec: Codec<V>, store: Store, before: seq<Call<V>>, write: Call<V>, after: seq<Call<V>>, v: V)
    requires KeyOf(write.iface, write.m).Some? && write.args == Some([Some(v)])
    requires write.m.defaultBody.Some? ==> write.m.defaultBody.value(Some([Some(v)])).Returned?
    requires write.m.defaultBody.Some? ==> write.m.defaultBody.value(Some([Some(v)])).value != Some(v)
    requires forall i :: 0 <= i < |after| ==> KeyOf(after[i].iface, after[i].m) != KeyOf(write.iface, write.m)
    ensures var k := KeyOf(write.iface, write.m).value;
      var final := Replay(codec, store, before + [write] + after);
      k in final && final[k] == codec.toString(v)
  {
    var k := KeyOf(write.iface, write.m).value;
    var mid := Replay(codec, store, before);
    ReplayAppend(codec, store, before + [write], after);
    ReplayAppend(codec, store, before, [write]);
    SetterWritesString(codec, mid, write.iface, write.m, v);
    assert Replay(codec, mid, [write]) == Invoked(codec, mid, write.iface, write.m, write.args).store;
    UntouchedKeyKeepsEntry(codec, Replay(codec, mid, [write]), after, k);
  }
}

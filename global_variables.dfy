/** The global variable store of the Bukkit host (VariableManager). Reads and
    writes go to an in-memory cache; every write is also handed, as a task, to
    a single-thread pool that applies it to a second configuration (the file
    mirror) later. The pool is modelled as the explicit queue of its pending
    writes and a step that runs the oldest one. Keys are flat strings. */
module GlobalVariables {
  import opened Wrappers
  import opened Values

  /** One pool task: varFileConfig.set(key, value), where None is Java null. */
  datatype Write = Write(key: string, value: Option<Value>)

  /** ConfigurationSection.set on a flat key: a null value removes the key. */
  function Set(m: map<string, Value>, key: string, value: Option<Value>): (r: map<string, Value>)
    ensures key in r <==> value.Some?
    ensures value.Some? ==> r[key] == value.value
    ensures forall k | k in m && k != key :: k in r && r[k] == m[k]
    ensures forall k | k in r && k != key :: k in m
  {
    match value
    case Some(v) => m[key := v]
    case None => m - {key}
  }

  /** ConfigurationSection.get: the value under key, or null. */
  function Lookup(m: map<string, Value>, key: string): (r: Option<Value>)
    ensures r.Some? <==> key in m
    ensures r.Some? ==> r.value == m[key]
  {
    if key in m then Some(m[key]) else None
  }

  /** get after set: the key reads back the value set (null when it was
      removed), and every other key reads as before. */
  lemma LookupAfterSet(m: map<string, Value>, key: string, value: Option<Value>, other: string)
    ensures Lookup(Set(m, key, value), key) == value
    ensures other != key ==> Lookup(Set(m, key, value), other) == Lookup(m, other)
  {
  }

  /** The mirror after the pool has run the given writes, oldest first. */
  function ApplyAll(m: map<string, Value>, writes: seq<Write>): (r: map<string, Value>)
    ensures forall k | k in r && k !in m :: exists i | 0 <= i < |writes| :: writes[i].key == k
    decreases |writes|
  {
    if writes == [] then m
    else ApplyAll(Set(m, writes[0].key, writes[0].value), writes[1..])
  }

  /** Running one more write after a batch is applying it to the batch's result. */
  lemma {:induction false} ApplyAllAppend(m: map<string, Value>, writes: seq<Write>, w: Write)
    ensures ApplyAll(m, writes + [w]) == Set(ApplyAll(m, writes), w.key, w.value)
    decreases |writes|
  {
    if writes == [] {
      assert writes + [w] == [w];
      assert [w][1..] == [];
    } else {
      assert (writes + [w])[0] == writes[0];
      assert (writes + [w])[1..] == writes[1..] + [w];
      ApplyAllAppend(Set(m, writes[0].key, writes[0].value), writes[1..], w);
    }
  }

  /** Writes to other keys leave a key's mirrored value alone. */
  lemma {:induction false} ApplyAllOtherKeys(m: map<string, Value>, writes: seq<Write>, key: string)
    requires forall i | 0 <= i < |writes| :: writes[i].key != key
    ensures Lookup(ApplyAll(m, writes), key) == Lookup(m, key)
    decreases |writes|
  {
    if writes != [] {
      ApplyAllOtherKeys(Set(m, writes[0].key, writes[0].value), writes[1..], key);
    }
  }

  /** Running two batches one after the other is running their concatenation. */
  lemma {:induction false} ApplyAllConcat(m: map<string, Value>, a: seq<Write>, b: seq<Write>)
    ensures ApplyAll(m, a + b) == ApplyAll(ApplyAll(m, a), b)
    decreases |a|
  {
    if a == [] {
      assert a + b == b;
    } else {
      assert (a + b)[0] == a[0];
      assert (a + b)[1..] == a[1..] + b;
      ApplyAllConcat(Set(m, a[0].key, a[0].value), a[1..], b);
    }
  }

  /** The pool runs its writes in the order they were queued, so a key ends
      with the value of the last write to it, whatever writes to other keys
      follow that one. */
  lemma {:induction false} LastWriteWins(m: map<string, Value>, before: seq<Write>, key: string, value: Option<Value>, after: seq<Write>)
    requires forall i | 0 <= i < |after| :: after[i].key != key
    ensures Lookup(ApplyAll(m, before + [Write(key, value)] + after), key) == value
  {
    var w := Write(key, value);
    ApplyAllConcat(m, before + [w], after);
    ApplyAllAppend(m, before, w);
    ApplyAllOtherKeys(ApplyAll(m, before + [w]), after, key);
  }

  /** A Location of a Bukkit version in which Location is not ConfigurationSerializable. */
  predicate IsLegacyLocation(v: Value)
  {
    v.Location? && !v.serializable
  }

  /** put's first step: a legacy Location becomes a SerializableLocation with the same place. */
  function Upgrade(v: Value): (r: Value)
    ensures !IsLegacyLocation(r)
    ensures r.Location? <==> v.Location?
    ensures r.Location? ==> r.world == v.world && r.x == v.x && r.y == v.y && r.z == v.z
    ensures !v.Location? ==> r == v
  {
    if IsLegacyLocation(v) then v.(serializable := true) else v
  }

  /** The kinds put accepts: String, Number, Boolean and ConfigurationSerializable. */
  predicate Storable(v: Value): (b: bool)
    ensures b <==> !(v.PlayerRef? || v.EntityRef? || v.Opaque? || IsLegacyLocation(v))
  {
    v.Str? || v.Num? || v.Bool? || v.Serializable? || (v.Location? && v.serializable)
  }

  /** put accepts exactly the strings, numbers, booleans, serializable objects
      and locations of either kind; it changes only legacy locations, and only
      by making them serializable. */
  lemma UpgradeAccepts(v: Value)
    ensures Storable(Upgrade(v)) <==> v.Str? || v.Num? || v.Bool? || v.Serializable? || v.Location?
    ensures Upgrade(v) == v <==> !IsLegacyLocation(v)
    ensures Upgrade(v).Location? ==> Upgrade(v) == v.(serializable := true)
  {
  }

  /** Why put throws. */
  datatype PutError =
    | NullValue              // value.getClass() on null
    | NotStorable(v: Value)  // "[...] is not a valid type to be saved."

  class VariableManager {
    /** varCache: what get, has and the adapter read */
    var cache: map<string, Value>
    /** varFileConfig: the mirror that the pool writes and saveAll saves */
    var fileConfig: map<string, Value>
    /** the tasks queued on sequencialPool and not yet run */
    var pending: seq<Write>

    /** Running every queued write turns the mirror into the cache. */
    ghost predicate Valid()
      reads this
    {
      ApplyAll(fileConfig, pending) == cache
    }

    /** The store right after loading: both configurations hold the stored variables. */
    constructor (stored: map<string, Value>)
      ensures Valid()
      ensures cache == stored && fileConfig == stored && pending == []
    {
      cache := stored;
      fileConfig := stored;
      pending := [];
    }

    /** get: the cached value, or null; the mirror is not consulted. */
    method Get(key: string) returns (r: Option<Value>)
      ensures r.Some? <==> key in cache
      ensures r.Some? ==> r.value == cache[key]
    {
      r := Lookup(cache, key);
    }

    /** has: whether the cache holds the key; the mirror is not consulted. */
    method Has(key: string) returns (b: bool)
      ensures b <==> key in cache
    {
      b := key in cache;
    }

    /** put: stores a String, Number, Boolean or ConfigurationSerializable (a
        legacy Location converted first) in the cache and queues the same
        write for the mirror; any other value throws and changes nothing. */
    method Put(key: string, value: Option<Value>) returns (r: Result<(), PutError>)
      requires Valid()
      modifies this
      ensures Valid()
      ensures value.None? ==> r == Err(NullValue)
      ensures value.Some? && !Storable(Upgrade(value.value)) ==> r == Err(NotStorable(value.value))
      ensures r.Err? ==> cache == old(cache) && pending == old(pending) && fileConfig == old(fileConfig)
      ensures value.Some? && Storable(Upgrade(value.value)) ==>
        && r == Ok(())
        && cache == old(cache)[key := Upgrade(value.value)]
        && pending == old(pending) + [Write(key, Some(Upgrade(value.value)))]
        && fileConfig == old(fileConfig)
    {
      if value.None? {
        return Err(NullValue);
      }
      var v := Upgrade(value.value);
      if Storable(v) {
        cache := cache[key := v];
        ApplyAllAppend(fileConfig, pending, Write(key, Some(v)));
        pending := pending + [Write(key, Some(v))];
        return Ok(());
      } else {
        return Err(NotStorable(value.value));
      }
    }

    /** remove: drops the key from the cache and queues its removal from the mirror. */
    method Remove(key: string)
      requires Valid()
      modifies this
      ensures Valid()
      ensures cache == old(cache) - {key}
      ensures pending == old(pending) + [Write(key, None)]
      ensures fileConfig == old(fileConfig)
    {
      cache := cache - {key};
      ApplyAllAppend(fileConfig, pending, Write(key, None));
      pending := pending + [Write(key, None)];
    }

    /** VariableAdapter.get: null for a key that is not a String, otherwise the cached value. */
    method AdapterGet(key: Value) returns (r: Option<Value>)
      ensures !key.Str? ==> r == None
      ensures key.Str? ==> (r.Some? <==> key.s in cache)
      ensures key.Str? && r.Some? ==> r.value == cache[key.s]
    {
      r := None;
      if key.Str? {
        r := Lookup(cache, key.s);
      }
    }

    /** VariableAdapter.containsKey: false for a key that is not a String,
        otherwise whether the cache holds it. */
    method AdapterContainsKey(key: Value) returns (b: bool)
      ensures b <==> key.Str? && key.s in cache
    {
      b := false;
      if key.Str? {
        b := key.s in cache;
      }
    }

    /** VariableAdapter.put: installs any value (null removes the key) without
        a type check, queues the same write, and returns the previous value. */
    method AdapterPut(key: string, value: Option<Value>) returns (before: Option<Value>)
      requires Valid()
      modifies this
      ensures Valid()
      ensures before == Lookup(old(cache), key)
      ensures cache == Set(old(cache), key, value)
      ensures pending == old(pending) + [Write(key, value)]
      ensures fileConfig == old(fileConfig)
    {
      before := Lookup(cache, key);
      cache := Set(cache, key, value);
      ApplyAllAppend(fileConfig, pending, Write(key, value));
      pending := pending + [Write(key, value)];
    }

    /** The pool thread runs the oldest queued write, if there is one. */
    method RunNext() returns (ran: bool)
      requires Valid()
      modifies this
      ensures Valid()
      ensures ran <==> old(pending) != []
      ensures cache == old(cache)
      ensures ran ==> fileConfig == Set(old(fileConfig), old(pending)[0].key, old(pending)[0].value)
      ensures ran ==> pending == old(pending)[1..]
      ensures !ran ==> fileConfig == old(fileConfig) && pending == old(pending)
    {
      ran := pending != [];
      if ran {
        var w := pending[0];
        fileConfig := Set(fileConfig, w.key, w.value);
        pending := pending[1..];
      }
    }

    /** Runs the pool until it is idle: the mirror then equals the cache. */
    method Drain()
      requires Valid()
      modifies this
      ensures Valid()
      ensures pending == []
      ensures cache == old(cache)
      ensures fileConfig == cache
      ensures fileConfig == ApplyAll(old(fileConfig), old(pending))
    {
      while pending != []
        invariant Valid()
        invariant cache == old(cache)
        decreases |pending|
      {
        var _ := RunNext();
      }
    }
  }

  /** put then get, has and a drained pool: the key reads back the value
      stored, from the cache and, once drained, from the mirror. */
  method PutThenRead(vm: VariableManager, key: string, v: Value) returns (got: Option<Value>, present: bool)
    requires vm.Valid() && Storable(v)
    modifies vm
    ensures got == Some(v) && present
    ensures vm.Valid() && vm.pending == [] && Lookup(vm.fileConfig, key) == Some(v)
  {
    var r := vm.Put(key, Some(v));
    got := vm.Get(key);
    present := vm.Has(key);
    vm.Drain();
  }

  /** remove then get and has: the key is gone, and every other key keeps its value. */
  method RemoveThenRead(vm: VariableManager, key: string, other: string) returns (got: Option<Value>, present: bool)
    requires vm.Valid() && other != key
    modifies vm
    ensures got == None && !present
    ensures (other in vm.cache <==> other in old(vm.cache))
    ensures other in vm.cache ==> vm.cache[other] == old(vm.cache)[other]
  {
    vm.Remove(key);
    got := vm.Get(key);
    present := vm.Has(key);
  }
}

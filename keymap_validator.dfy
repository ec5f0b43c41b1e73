/**
 * Vedeu::KeymapValidator.check, as its tests state it: a key may be bound
 * for an interface only when it is neither a system key nor already bound
 * globally or by that interface; a key for no interface ('') must be free in
 * every keymap. The implementation file is not part of this model; the
 * system keys come from the configuration, which is passed in.
 */
module Keymaps {
  import opened Common

  type Key = string

  /** The name of the keymap of global keys. */
  const GlobalKeymap: string := "_global_keymap_"

  datatype KeyInUse = KeyInUse(key: Key)

  /** `key` is bound in the keymap called `name`. */
  predicate BoundIn<A>(storage: map<string, map<Key, A>>, name: string, key: Key) {
    name in storage && key in storage[name]
  }

  /** `key` is bound in some keymap. */
  predicate BoundAnywhere<A>(storage: map<string, map<Key, A>>, key: Key) {
    exists name | name in storage :: key in storage[name]
  }

  class KeymapValidator<A> {
    const storage: map<string, map<Key, A>>
    const key: Key
    const interface: string

    constructor (storage: map<string, map<Key, A>>, key: Key, interface: string)
      ensures this.storage == storage && this.key == key && this.interface == interface
    {
      this.storage := storage;
      this.key := key;
      this.interface := interface;
    }

    /** `check`. */
    function Check(systemKeys: set<Key>): Result<bool, KeyInUse> {
      CheckKey(storage, key, interface, systemKeys)
    }
  }

  /**
   * `KeymapValidator.check(storage, key, interface)`: true, or KeyInUse for
   * a system key, a global key, or a key bound where it would be bound.
   */
  function CheckKey<A>(storage: map<string, map<Key, A>>, key: Key, interface: string, systemKeys: set<Key>): (r: Result<bool, KeyInUse>)
    ensures r.Ok? ==> r.value
    ensures r.Err? ==> r.error == KeyInUse(key)
    ensures r.Ok? <==>
              key !in systemKeys && !BoundIn(storage, GlobalKeymap, key) &&
              (interface == "" ==> forall name :: name in storage ==> key !in storage[name]) &&
              (interface != "" ==> !BoundIn(storage, interface, key))
  {
    if key in systemKeys || BoundIn(storage, GlobalKeymap, key) then Err(KeyInUse(key))
    else if interface == "" && BoundAnywhere(storage, key) then Err(KeyInUse(key))
    else if interface != "" && BoundIn(storage, interface, key) then Err(KeyInUse(key))
    else Ok(true)
  }

  /** A key free for no interface is free for every interface, since a binding anywhere is a binding in some keymap. */
  lemma FreeGloballyIsFreeEverywhere<A>(storage: map<string, map<Key, A>>, key: Key, interface: string, systemKeys: set<Key>)
    requires CheckKey(storage, key, "", systemKeys).Ok?
    ensures CheckKey(storage, key, interface, systemKeys).Ok?
  {
    if interface != "" && BoundIn(storage, interface, key) {
      assert BoundAnywhere(storage, key);
    }
  }

  /** The storage of the tests: 'a' bound by 'dubnium', 'g' bound globally. */
  function TestStorage(): map<string, map<Key, nat>> {
    map["dubnium" := map["a" := 0], GlobalKeymap := map["g" := 0]]
  }

  /** The outcomes the tests assert, with shift_tab among the system keys. */
  lemma CheckExamples(systemKeys: set<Key>)
    requires "shift_tab" in systemKeys && "h" !in systemKeys && "b" !in systemKeys
    ensures CheckKey(TestStorage(), "shift_tab", "dubnium", systemKeys).Err?
    ensures CheckKey(TestStorage(), "g", "dubnium", systemKeys).Err?
    ensures CheckKey(TestStorage(), "a", "dubnium", systemKeys).Err?
    ensures CheckKey(TestStorage(), "a", "", systemKeys).Err?
    ensures CheckKey(TestStorage(), "h", "", systemKeys) == Ok(true)
    ensures CheckKey(TestStorage(), "b", "dubnium", systemKeys) == Ok(true)
  {
    var s := TestStorage();
    assert BoundIn(s, "dubnium", "a");
    assert s.Keys == {"dubnium", GlobalKeymap};
    assert !BoundAnywhere(s, "h") by {
      forall name | name in s ensures "h" !in s[name] {
        assert name == "dubnium" || name == GlobalKeymap;
      }
    }
  }
}

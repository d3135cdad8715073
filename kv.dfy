/**
 * The key/value side of src/service-consul.mjs: the key paths of `registerService`,
 * `unregisterService` and `serviceURLs`, the store operations they issue (`kv.set`, and
 * `kv.del` with `recurse`, which removes every key with the given string prefix), and the
 * dictionary the `kv` endpoint's data provider builds from a `kv.get` answer.
 */
module Kv {
  import opened Wrappers

  /** One entry of a `kv.get` answer (`Key` and `Value`). */
  datatype KvEntry = KvEntry(key: string, value: string)

  /** The registry's key/value store. */
  type Store = map<string, string>

  /** The root of every key the service writes. */
  const ServicesRoot: string := "services/"

  /** `services/${name}`: the subtree `serviceURLs` fetches; the name can be read back. */
  function ServiceKey(name: string): (k: string)
    ensures ServicesRoot <= k && k[|ServicesRoot|..] == name
  {
    assert (ServicesRoot + name)[|ServicesRoot|..] == name;
    ServicesRoot + name
  }

  /**
   * `services/${name}/${id}`: the subtree `unregisterService` deletes. It lies under the
   * service's subtree and the id can be read back.
   */
  function InstanceKey(name: string, id: string): (k: string)
    ensures ServiceKey(name) + "/" <= k && k[|ServiceKey(name)| + 1..] == id
  {
    assert (ServiceKey(name) + "/" + id)[|ServiceKey(name)| + 1..] == id;
    ServiceKey(name) + "/" + id
  }

  /** `services/${name}/${owner.id}/url`: the key `registerService` writes. */
  function RegisteredKey(name: string, ownerId: string): (k: string)
    ensures ServiceKey(name) <= k && InstanceKey(name, ownerId) <= k
  {
    assert (InstanceKey(name, ownerId) + "/url")[..|ServiceKey(name)|] == ServiceKey(name);
    InstanceKey(name, ownerId) + "/url"
  }

  /** `kv.set({key, value})`. */
  function KvSet(st: Store, key: string, value: string): (r: Store)
    ensures key in r && r[key] == value
    ensures forall k | k in st && k != key :: k in r && r[k] == st[k]
    ensures forall k | k in r :: k == key || k in st
  {
    st[key := value]
  }

  /** `kv.del({key: prefix, recurse: true})`: every key starting with `prefix` goes. */
  function KvDeleteTree(st: Store, prefix: string): (r: Store)
    ensures forall k :: k in r <==> k in st && !(prefix <= k)
    ensures forall k | k in r :: r[k] == st[k]
  {
    map k | k in st && !(prefix <= k) :: st[k]
  }

  /** A common prefix cancels out of the prefix relation on strings. */
  lemma PrefixCancel(p: string, a: string, b: string)
    ensures p + a <= p + b <==> a <= b
  {
    if p + a <= p + b {
      assert a == (p + a)[|p|..] == (p + b)[|p|..|p| + |a|] == b[..|a|];
    }
    if a <= b {
      assert (p + b)[..|p + a|] == p + b[..|a|];
    }
  }

  /**
   * `unregisterService` deletes the subtree of `this.id`, `registerService` writes under
   * `owner.id`: the recursive delete covers the registered key exactly when `this.id` is a
   * string prefix of `owner.id + "/url"`, in particular when the two ids coincide.
   */
  lemma DeleteCoversRegisteredKey(name: string, thisId: string, ownerId: string)
    ensures InstanceKey(name, thisId) <= RegisteredKey(name, ownerId) <==> thisId <= ownerId + "/url"
    ensures thisId == ownerId ==> InstanceKey(name, thisId) <= RegisteredKey(name, ownerId)
  {
    var p := ServiceKey(name) + "/";
    assert InstanceKey(name, thisId) == p + thisId;
    assert RegisteredKey(name, ownerId) == p + (ownerId + "/url");
    PrefixCancel(p, thisId, ownerId + "/url");
  }

  /** Registering then unregistering removes the written key iff the delete covers it. */
  lemma RegisterThenUnregister(st: Store, name: string, thisId: string, ownerId: string, url: string)
    ensures var after := KvDeleteTree(KvSet(st, RegisteredKey(name, ownerId), url), InstanceKey(name, thisId));
      RegisteredKey(name, ownerId) !in after <==> thisId <= ownerId + "/url"
  {
    DeleteCoversRegisteredKey(name, thisId, ownerId);
  }

  /** With different ids such as "consul" and "node1" the registration survives unregistering. */
  lemma UnregisterWithOtherIdKeepsKey(st: Store, name: string, url: string)
    ensures RegisteredKey(name, "node1") in
      KvDeleteTree(KvSet(st, RegisteredKey(name, "node1"), url), InstanceKey(name, "consul"))
  {
    RegisterThenUnregister(st, name, "consul", "node1", url);
    assert ("node1" + "/url")[0] == 'n' != "consul"[0];
  }

  /** The delete is by string prefix: unregistering id "a" also removes the key of owner "ab". */
  lemma UnregisterRemovesSiblingPrefix(st: Store, name: string, url: string)
    ensures RegisteredKey(name, "ab") !in
      KvDeleteTree(KvSet(st, RegisteredKey(name, "ab"), url), InstanceKey(name, "a"))
  {
    RegisterThenUnregister(st, name, "a", "ab", url);
    assert "a" <= "ab" + "/url";
  }

  // ---------------------------------------------------------------------------
  // The `kv` endpoint's data provider.

  /** No entry after position `i` and before `n` has the key of entry `i`. */
  ghost predicate LastBefore(es: seq<KvEntry>, i: int, n: int)
    requires 0 <= i < |es|
  {
    forall j | i < j < n && 0 <= j < |es| :: es[j].key != es[i].key
  }

  /**
   * The dictionary built from `r[0]` of a `kv.get` answer (`None` when `r[0]` is undefined):
   * every entry's key maps to its value, and a later entry with the same key wins.
   */
  method KvDictionary(data: Option<seq<KvEntry>>) returns (dict: map<string, string>)
    ensures data.None? ==> dict == map[]
    ensures data.Some? ==>
      forall k :: k in dict <==> exists i | 0 <= i < |data.value| :: data.value[i].key == k
    ensures data.Some? ==>
      forall i | 0 <= i < |data.value| && LastBefore(data.value, i, |data.value|) ::
        data.value[i].key in dict && dict[data.value[i].key] == data.value[i].value
  {
    dict := map[];
    if data.Some? {
      var es := data.value;
      var n := 0;
      while n < |es|
        invariant 0 <= n <= |es|
        invariant forall k :: k in dict <==> exists i | 0 <= i < n :: es[i].key == k
        invariant forall i | 0 <= i < n && LastBefore(es, i, n) ::
                    es[i].key in dict && dict[es[i].key] == es[i].value
      {
        dict := dict[es[n].key := es[n].value];
        n := n + 1;
      }
    }
  }
}

/**
 * The per-shop aggregate (`LeafletCollection` in main.py): an insertion-ordered
 * dictionary from shop name to a list of leaflets, with `append` and the
 * serialisation that feeds the JSON writer.
 */
module Collection {
  import opened Leaflets

  /**
   * An insertion-ordered dictionary from string keys to lists, as a Python
   * `dict[str, list]` behaves: `keys` is the insertion order, `lists` the content.
   */
  datatype OrderedLists<T> = OrderedLists(keys: seq<string>, lists: map<string, seq<T>>) {
    /** Each key is listed once, and exactly the keys of the map are listed. */
    ghost predicate Valid() {
      (forall i, j | 0 <= i < j < |keys| :: keys[i] != keys[j]) &&
      (forall k :: k in lists <==> k in keys)
    }
  }

  function Empty<T>(): (r: OrderedLists<T>)
    ensures r.Valid() && r.keys == [] && r.lists == map[]
  {
    OrderedLists([], map[])
  }

  /**
   * `append(key, data)`: a missing key is first created with an empty list at the
   * end of the order; then the key's list is extended with `data`.
   */
  function Extend<T>(om: OrderedLists<T>, key: string, data: seq<T>): (r: OrderedLists<T>)
    ensures om.Valid() ==> r.Valid()
    ensures key in r.lists && r.lists.Keys == om.lists.Keys + {key}
    ensures key in om.lists ==> r.keys == om.keys && r.lists[key] == om.lists[key] + data
    ensures key !in om.lists ==> r.keys == om.keys + [key] && r.lists[key] == data
    ensures forall k | k in om.lists && k != key :: r.lists[k] == om.lists[k]
  {
    var created := if key in om.lists then om else OrderedLists(om.keys + [key], om.lists[key := []]);
    OrderedLists(created.keys, created.lists[key := created.lists[key] + data])
  }

  /** Two appends to one key equal one append of both lists. */
  lemma ExtendTwice<T>(om: OrderedLists<T>, key: string, a: seq<T>, b: seq<T>)
    ensures Extend(Extend(om, key, a), key, b) == Extend(om, key, a + b)
  {
    var once, twice := Extend(om, key, a + b), Extend(Extend(om, key, a), key, b);
    assert twice.keys == once.keys;
    assert twice.lists.Keys == once.lists.Keys;
    forall k | k in once.lists ensures twice.lists[k] == once.lists[k] {
      if k == key && key in om.lists {
        assert twice.lists[key] == om.lists[key] + a + b;
      }
    }
    assert twice.lists == once.lists;
  }

  /** Appending nothing to an existing key changes nothing. */
  lemma ExtendNothing<T>(om: OrderedLists<T>, key: string)
    requires key in om.lists
    ensures Extend(om, key, []) == om
  {
    var r := Extend(om, key, []);
    assert r.lists.Keys == om.lists.Keys;
    assert om.lists[key] + [] == om.lists[key];
    assert r.lists == om.lists;
  }

  /** The leaflet objects a dictionary of leaflet lists refers to. */
  ghost function Members(om: OrderedLists<Leaflet>): set<Leaflet>
  {
    set k, l | k in om.lists && l in om.lists[k] :: l
  }

  /** The contents of a dictionary of leaflet lists: each object replaced by its record. */
  ghost function Snapshot(om: OrderedLists<Leaflet>): (r: OrderedLists<Record>)
    reads Members(om)
    ensures r.keys == om.keys && r.lists.Keys == om.lists.Keys
    ensures forall k | k in om.lists :: r.lists[k] == Values(om.lists[k])
  {
    OrderedLists(om.keys, map k | k in om.lists :: Values(om.lists[k]))
  }

  /** Taking contents commutes with `append`. */
  lemma SnapshotExtend(om: OrderedLists<Leaflet>, key: string, data: seq<Leaflet>)
    ensures Snapshot(Extend(om, key, data)) == Extend(Snapshot(om), key, Values(data))
  {
    var grown, snap := Extend(om, key, data), Snapshot(om);
    var lhs, rhs := Snapshot(grown), Extend(snap, key, Values(data));
    assert lhs.keys == rhs.keys;
    assert lhs.lists.Keys == rhs.lists.Keys;
    forall k | k in lhs.lists ensures lhs.lists[k] == rhs.lists[k] {
      if k != key {
        assert lhs.lists[k] == Values(om.lists[k]) == snap.lists[k];
      } else if key in om.lists {
        ValuesAppend(om.lists[key], data);
        assert lhs.lists[k] == Values(om.lists[key] + data);
      } else {
        assert lhs.lists[k] == Values(data);
      }
    }
    assert lhs.lists == rhs.lists;
  }

  /** A snapshot depends only on the leaflets it holds: untouched leaflets give the same snapshot. */
  twostate lemma SnapshotUnchanged(om: OrderedLists<Leaflet>)
    requires unchanged(Members(om))
    ensures Snapshot(om) == old(Snapshot(om))
  {
  }

  /** A state change that changes no list's contents leaves every snapshot as it was. */
  twostate lemma SnapshotAcross(om: OrderedLists<Leaflet>)
    requires old(allocated(om))
    requires forall ls: seq<Leaflet> | old(allocated(ls)) :: Values(ls) == old(Values(ls))
    ensures Snapshot(om) == old(Snapshot(om))
  {
    forall k | k in om.lists ensures Snapshot(om).lists[k] == old(Snapshot(om)).lists[k] {
      assert Values(om.lists[k]) == old(Values(om.lists[k]));
    }
  }

  /** The shop collection object. */
  class LeafletCollection {
    var keys: seq<string>
    var lists: map<string, seq<Leaflet>>

    /** The dictionary the object holds. */
    function Contents(): OrderedLists<Leaflet>
      reads this
    {
      OrderedLists(keys, lists)
    }

    ghost predicate Valid()
      reads this
    {
      Contents().Valid()
    }

    /** An empty collection. */
    constructor ()
      ensures Valid() && Contents() == Empty()
    {
      keys := [];
      lists := map[];
    }

    /** `append`: create the key if absent, then extend its list in place. */
    method Append(key: string, data: seq<Leaflet>)
      requires Valid()
      modifies this
      ensures Valid()
      ensures Contents() == Extend(old(Contents()), key, data)
      ensures forall ls: seq<Leaflet> | old(allocated(ls)) :: Values(ls) == old(Values(ls))
    {
      if key !in lists {
        keys := keys + [key];
        lists := lists[key := []];
      }
      lists := lists[key := lists[key] + data];
    }

    /**
     * `__serialize`: the same keys in the same order, each list replaced by the
     * `to_dict` of its leaflets, in order.  The collection is only read.
     */
    method Serialize() returns (out: OrderedLists<Dict>)
      requires Valid()
      ensures out.Valid()
      ensures out.keys == keys && out.lists.Keys == lists.Keys
      ensures forall k | k in lists ::
                |out.lists[k]| == |lists[k]| &&
                forall i | 0 <= i < |lists[k]| :: out.lists[k][i] == lists[k][i].ToDict()
    {
      var order: seq<string> := [];
      var dicts: map<string, seq<Dict>> := map[];
      for n := 0 to |keys|
        invariant order == keys[..n]
        invariant forall k :: k in dicts <==> k in order
        invariant forall k | k in dicts ::
                    |dicts[k]| == |lists[k]| &&
                    forall i | 0 <= i < |lists[k]| :: dicts[k][i] == lists[k][i].ToDict()
      {
        var name := keys[n];
        var leaflets := lists[name];
        assert name !in order;
        order := order + [name];
        var serialized: seq<Dict> := [];
        for j := 0 to |leaflets|
          invariant |serialized| == j
          invariant forall i | 0 <= i < j :: serialized[i] == leaflets[i].ToDict()
        {
          serialized := serialized + [leaflets[j].ToDict()];
        }
        dicts := dicts[name := serialized];
      }
      assert order == keys;
      out := OrderedLists(order, dicts);
    }
  }
}

/**
 * The in-memory instance table of the web back end (core/instances.py): records keyed by
 * an opaque id, listed in the order they were created.
 */
module InstanceManager {
  import opened Wrappers

  datatype ManagedInstance = ManagedInstance(id: string, name: string, status: string)

  class Manager {
    /** The dict from id to record. */
    var table: map<string, ManagedInstance>
    /** The dict's keys in insertion order. */
    var order: seq<string>

    /** Every key is listed once, and every record sits under its own id. */
    predicate Valid()
      reads this
    {
      && (forall i, j :: 0 <= i < j < |order| ==> order[i] != order[j])
      && table.Keys == Listing(order)
      && (forall k :: k in table ==> table[k].id == k)
    }

    /** `InstanceManager()`: an empty table. */
    constructor ()
      ensures table == map[] && order == [] && Valid()
    {
      table := map[];
      order := [];
    }

    /** `list_instances`: one record per stored instance, in creation order. */
    function ListInstances(): (r: seq<ManagedInstance>)
      reads this
      requires Valid()
      ensures |r| == |table| && |r| == |order|
      ensures forall i :: 0 <= i < |r| ==> order[i] in table && r[i] == table[order[i]]
      ensures forall k :: k in table ==> table[k] in r
    {
      KeysListed(order, table);
      assert forall i :: 0 <= i < |order| ==> order[i] in table;
      var t, o := table, order;
      seq(|o|, i requires 0 <= i < |o| && o[i] in t => t[o[i]])
    }

    /** `get_instance`: the record under `id`, or None for an unknown id. */
    function GetInstance(id: string): (r: Option<ManagedInstance>)
      reads this
      ensures r.None? <==> id !in table
      ensures r.Some? ==> r.value == table[id]
    {
      if id in table then Some(table[id]) else None
    }

    /**
     * `create_instance`: one new record with the given name and status "idle" under
     * `freshId`, which stands for the generated uuid and so is not yet in use.
     */
    method CreateInstance(name: string, freshId: string) returns (r: ManagedInstance)
      requires Valid() && freshId !in table
      modifies this
      ensures Valid()
      ensures r == ManagedInstance(freshId, name, "idle")
      ensures table == old(table)[freshId := r] && order == old(order) + [freshId]
    {
      r := ManagedInstance(freshId, name, "idle");
      Listed(order, freshId);
      table := table[freshId := r];
      order := order + [freshId];
    }

    /** `set_status`: only the named record's status changes; an unknown id changes nothing. */
    method SetStatus(id: string, status: string) returns (r: Option<ManagedInstance>)
      requires Valid()
      modifies this
      ensures Valid()
      ensures order == old(order)
      ensures id !in old(table) ==> r.None? && table == old(table)
      ensures id in old(table) ==>
                && r == Some(old(table)[id].(status := status))
                && table == old(table)[id := r.value]
    {
      if id !in table {
        return None;
      }
      var updated := table[id].(status := status);
      table := table[id := updated];
      return Some(updated);
    }
  }

  /** The keys a list names. */
  function Listing(order: seq<string>): set<string> {
    set i | 0 <= i < |order| :: order[i]
  }

  /** The keys listed by `order + [k]`. */
  lemma Listed(order: seq<string>, k: string)
    ensures Listing(order + [k]) == Listing(order) + {k}
  {
    var o := order + [k];
    forall x | x in Listing(order) ensures x in Listing(o) {
      var i :| 0 <= i < |order| && order[i] == x;
      assert o[i] == x;
    }
    assert o[|order|] == k;
  }

  /** A duplicate-free key list covering the map's keys has one position per key. */
  lemma KeysListed(order: seq<string>, table: map<string, ManagedInstance>)
    requires forall i, j :: 0 <= i < j < |order| ==> order[i] != order[j]
    requires table.Keys == Listing(order)
    ensures |order| == |table|
  {
    DistinctCard(order);
  }

  lemma {:induction false} DistinctCard(xs: seq<string>)
    requires forall i, j :: 0 <= i < j < |xs| ==> xs[i] != xs[j]
    ensures |Listing(xs)| == |xs|
    decreases |xs|
  {
    if xs != [] {
      var init, last := xs[..|xs| - 1], xs[|xs| - 1];
      assert xs == init + [last];
      assert forall i, j :: 0 <= i < j < |init| ==> init[i] != init[j] by {
        forall i, j | 0 <= i < j < |init| ensures init[i] != init[j] {
          assert init[i] == xs[i] && init[j] == xs[j];
        }
      }
      DistinctCard(init);
      Listed(init, last);
      assert last !in Listing(init);
    }
  }
}

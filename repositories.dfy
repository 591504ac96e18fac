/**
 * The repository ports (CustomersRepository, MethodsRepository,
 * PaymentsRepository): store, update, remove, findAll and findById over the
 * records of one entity. The persistence engine behind them is abstracted
 * to a map from auto-increment id to record, plus the ids in the order
 * findAll lists them (ascending, which is insertion order).
 */
module Repositories {
  import opened Optional

  /** A mutating call made on a repository, recorded so that handlers can promise which calls they make. */
  datatype Call<T> = StoreCall(record: T) | UpdateCall(id: int, record: T) | RemoveCall(id: int)

  predicate StrictlyIncreasing(s: seq<int>) {
    forall i, j :: 0 <= i < j < |s| ==> s[i] < s[j]
  }

  /** s with x taken out. */
  function Without(s: seq<int>, x: int): (r: seq<int>)
    ensures forall k :: k in r <==> k in s && k != x
    ensures StrictlyIncreasing(s) ==> StrictlyIncreasing(r)
    ensures |r| <= |s|
  {
    if s == [] then []
    else if s[0] == x then Without(s[1..], x)
    else
      var w := Without(s[1..], x);
      assert StrictlyIncreasing(s) ==> StrictlyIncreasing([s[0]] + w) by {
        if StrictlyIncreasing(s) {
          assert forall k :: k in s[1..] ==> s[0] < k;
          PrependIncreasing(s[0], w);
        }
      }
      [s[0]] + w
  }

  lemma PrependIncreasing(a: int, w: seq<int>)
    requires StrictlyIncreasing(w)
    requires forall k :: k in w ==> a < k
    ensures StrictlyIncreasing([a] + w)
  {
    forall i, j | 0 <= i < j < |[a] + w| ensures ([a] + w)[i] < ([a] + w)[j] {
      assert ([a] + w)[j] == w[j - 1] && w[j - 1] in w;
      if i > 0 { assert ([a] + w)[i] == w[i - 1]; }
    }
  }

  lemma AppendIncreasing(w: seq<int>, a: int)
    requires StrictlyIncreasing(w)
    requires forall k :: k in w ==> k < a
    ensures StrictlyIncreasing(w + [a])
  {
    forall i, j | 0 <= i < j < |w + [a]| ensures (w + [a])[i] < (w + [a])[j] {
      assert (w + [a])[i] == w[i] && w[i] in w;
    }
  }

  /** A strictly increasing sequence of ids has as many elements as the set of ids it lists. */
  lemma {:induction false} ListedKeysCount(order: seq<int>, keys: set<int>)
    requires StrictlyIncreasing(order)
    requires forall k :: k in order <==> k in keys
    ensures |order| == |keys|
  {
    if order == [] {
      assert forall k :: k !in keys;
    } else {
      var k := order[0];
      forall x ensures x in order[1..] <==> x in keys - {k} {
        if x in order[1..] {
          var i :| 0 <= i < |order[1..]| && order[1..][i] == x;
          assert order[i + 1] == x;
        }
      }
      ListedKeysCount(order[1..], keys - {k});
    }
  }

  /** The (id, record) pairs for the ids in order, in that order. */
  function Listing<T>(order: seq<int>, entries: map<int, T>): (all: seq<(int, T)>)
    requires forall i :: 0 <= i < |order| ==> order[i] in entries
    ensures |all| == |order|
    ensures forall i :: 0 <= i < |all| ==> all[i] == (order[i], entries[order[i]])
  {
    if order == [] then [] else [(order[0], entries[order[0]])] + Listing(order[1..], entries)
  }

  /** Every id that order lists has its pair in the listing. */
  lemma ListingCovers<T>(order: seq<int>, entries: map<int, T>, id: int)
    requires forall i :: 0 <= i < |order| ==> order[i] in entries
    requires id in order
    ensures id in entries
    ensures exists i :: 0 <= i < |Listing(order, entries)| && Listing(order, entries)[i] == (id, entries[id])
  {
    var i :| 0 <= i < |order| && order[i] == id;
    assert Listing(order, entries)[i] == (id, entries[id]);
  }

  class Repository<T> {
    var entries: map<int, T>
    var order: seq<int>
    var nextId: int
    ghost var calls: seq<Call<T>>

    /** Ids are positive and below the next one to assign; order lists every stored id once, ascending. */
    ghost predicate Valid()
      reads this
    {
      && 1 <= nextId
      && StrictlyIncreasing(order)
      && (forall k :: k in order <==> k in entries)
      && (forall k :: k in entries ==> 1 <= k < nextId)
    }

    constructor ()
      ensures Valid()
      ensures entries == map[] && order == [] && nextId == 1 && calls == []
    {
      entries := map[];
      order := [];
      nextId := 1;
      calls := [];
    }

    /** findById: the record stored under id, or nothing. */
    function FindById(id: int): (r: Option<T>)
      reads this
      ensures r.Some? <==> id in entries
      ensures r.Some? ==> r.value == entries[id]
    {
      if id in entries then Some(entries[id]) else None
    }

    /** findAll: every stored record once, with its id, in ascending id order. */
    function FindAll(): (all: seq<(int, T)>)
      reads this
      requires Valid()
      ensures |all| == |entries|
      ensures all == [] <==> entries == map[]
      ensures forall i :: 0 <= i < |all| ==> all[i].0 in entries && all[i].1 == entries[all[i].0]
      ensures forall i, j :: 0 <= i < j < |all| ==> all[i].0 < all[j].0
    {
      ListedKeysCount(order, entries.Keys);
      assert forall i :: 0 <= i < |order| ==> order[i] in entries;
      Listing(order, entries)
    }

    /** findAll misses no stored record: its position in the listing. */
    lemma FindAllCovers(id: int) returns (i: nat)
      requires Valid() && id in entries
      ensures i < |FindAll()| && FindAll()[i] == (id, entries[id])
    {
      assert forall i :: 0 <= i < |order| ==> order[i] in entries;
      ListingCovers(order, entries, id);
      i :| 0 <= i < |Listing(order, entries)| && Listing(order, entries)[i] == (id, entries[id]);
    }

    /**
     * store: a fresh id is assigned to the record and it is persisted; when
     * the engine fails (`fails`, chosen by the environment) nothing is
     * persisted and None comes back.
     */
    method Store(record: T, fails: bool) returns (id: Option<int>)
      requires Valid()
      modifies this
      ensures Valid()
      ensures calls == old(calls) + [StoreCall(record)]
      ensures fails ==> id.None? && entries == old(entries) && order == old(order) && nextId == old(nextId)
      ensures !fails ==> && id == Some(old(nextId))
                         && old(nextId) !in old(entries)
                         && entries == old(entries)[old(nextId) := record]
                         && order == old(order) + [old(nextId)]
                         && nextId == old(nextId) + 1
    {
      calls := calls + [StoreCall(record)];
      if fails {
        id := None;
      } else {
        id := Some(nextId);
        AppendIncreasing(order, nextId);
        entries := entries[nextId := record];
        order := order + [nextId];
        nextId := nextId + 1;
      }
    }

    /** update: the record under an existing id is overwritten. */
    method Update(id: int, record: T)
      requires Valid() && id in entries
      modifies this
      ensures Valid()
      ensures entries == old(entries)[id := record]
      ensures order == old(order) && nextId == old(nextId)
      ensures calls == old(calls) + [UpdateCall(id, record)]
    {
      entries := entries[id := record];
      calls := calls + [UpdateCall(id, record)];
    }

    /** remove: the record under an existing id is deleted; the others stay. */
    method Remove(id: int)
      requires Valid() && id in entries
      modifies this
      ensures Valid()
      ensures entries == old(entries) - {id}
      ensures order == Without(old(order), id) && nextId == old(nextId)
      ensures calls == old(calls) + [RemoveCall(id)]
    {
      entries := entries - {id};
      order := Without(order, id);
      calls := calls + [RemoveCall(id)];
    }
  }
}

/** The customer list the page loads once at mount, and the index by `_id`
    it keeps as page state (page.tsx, lines 16-34). */
module Customers {
  import opened Wrappers
  import Json

  /** A customer profile as the list endpoint returns it: `id` is the
      record key `_id`, `reference` the displayed `id`; an absent occupation
      or address is `None`. */
  datatype Customer = Customer(
    id: string,
    reference: string,
    firstName: string,
    lastName: string,
    occupation: Option<string>,
    riskRating: string,
    address: Option<Json.Value>)

  /** The address as the index stores it: an object-typed address (object,
      array or `null`) is replaced by its `JSON.stringify` text; any other
      address is kept as it is. */
  function StoredAddress(address: Option<Json.Value>): (r: Option<Json.Value>)
    ensures r.None? <==> address.None?
    ensures r.Some? ==> !Json.IsObjectType(r.value)
    ensures address.Some? && !Json.IsObjectType(address.value) ==> r == address
    ensures address.Some? && Json.IsObjectType(address.value)
            ==> r == Some(Json.JString(Json.Stringify(address.value)))
                && |r.value.s| > 0 && (r.value.s[0] == '{' <==> address.value.JObject?)
  {
    match address
    case Some(v) => if Json.IsObjectType(v) then Some(Json.JString(Json.Stringify(v))) else address
    case None => None
  }

  /** The record the index keeps for a customer: the same fields, with the
      address normalised. */
  function Stored(c: Customer): Customer {
    c.(address := StoredAddress(c.address))
  }

  /** No later entry of `data` has the same `_id` as entry `i`. */
  predicate IsLastWithId(data: seq<Customer>, i: int)
    requires 0 <= i < |data|
  {
    forall j :: i < j < |data| ==> data[j].id != data[i].id
  }

  /** `data.reduce((acc, user) => { acc[user._id] = ...; return acc }, {})`:
      every `_id` maps to the stored form of the last customer carrying it,
      so a later duplicate overwrites an earlier one. */
  function BuildIndex(data: seq<Customer>): (idx: map<string, Customer>)
    ensures idx.Keys == set i | 0 <= i < |data| :: data[i].id
    ensures forall k :: k in idx ==> idx[k].id == k
    ensures forall i :: 0 <= i < |data| && IsLastWithId(data, i) ==> idx[data[i].id] == Stored(data[i])
    ensures forall k :: k in idx ==> exists i :: 0 <= i < |data| && idx[k] == Stored(data[i])
    decreases |data|
  {
    if |data| == 0 then map[]
    else
      var init := data[..|data| - 1];
      var last := data[|data| - 1];
      var prev := BuildIndex(init);
      var idx := prev[last.id := Stored(last)];
      IndexExtends(data, prev, idx);
      idx
  }

  /** The step of `BuildIndex`: storing the last customer over the index of
      the others gives the index of the whole list. */
  lemma IndexExtends(data: seq<Customer>, prev: map<string, Customer>, idx: map<string, Customer>)
    requires |data| > 0
    requires var init := data[..|data| - 1];
             && prev.Keys == (set i | 0 <= i < |init| :: init[i].id)
             && (forall k :: k in prev ==> prev[k].id == k)
             && (forall i :: 0 <= i < |init| && IsLastWithId(init, i) ==> prev[init[i].id] == Stored(init[i]))
             && (forall k :: k in prev ==> exists i :: 0 <= i < |init| && prev[k] == Stored(init[i]))
    requires idx == prev[data[|data| - 1].id := Stored(data[|data| - 1])]
    ensures idx.Keys == set i | 0 <= i < |data| :: data[i].id
    ensures forall k :: k in idx ==> idx[k].id == k
    ensures forall i :: 0 <= i < |data| && IsLastWithId(data, i) ==> idx[data[i].id] == Stored(data[i])
    ensures forall k :: k in idx ==> exists i :: 0 <= i < |data| && idx[k] == Stored(data[i])
  {
    IndexExtendsKeys(data, prev, idx);
    IndexExtendsLast(data, prev, idx);
    IndexExtendsValues(data, prev, idx);
  }

  lemma IndexExtendsKeys(data: seq<Customer>, prev: map<string, Customer>, idx: map<string, Customer>)
    requires |data| > 0
    requires var init := data[..|data| - 1];
             prev.Keys == (set i | 0 <= i < |init| :: init[i].id)
    requires idx == prev[data[|data| - 1].id := Stored(data[|data| - 1])]
    ensures idx.Keys == set i | 0 <= i < |data| :: data[i].id
  {
    var n := |data| - 1;
    var init := data[..n];
    forall i | 0 <= i < n
      ensures init[i] == data[i]
    {
    }
    assert prev.Keys == (set i | 0 <= i < n :: data[i].id);
    forall k | k in idx
      ensures k in set i | 0 <= i < |data| :: data[i].id
    {
      if k != data[n].id {
        var i :| 0 <= i < n && data[i].id == k;
      }
    }
    forall k | k in set i | 0 <= i < |data| :: data[i].id
      ensures k in idx
    {
      var i :| 0 <= i < |data| && data[i].id == k;
      if i < n {
        assert k in prev;
      }
    }
  }

  lemma IndexExtendsLast(data: seq<Customer>, prev: map<string, Customer>, idx: map<string, Customer>)
    requires |data| > 0
    requires var init := data[..|data| - 1];
             && prev.Keys == (set i | 0 <= i < |init| :: init[i].id)
             && (forall i :: 0 <= i < |init| && IsLastWithId(init, i) ==> prev[init[i].id] == Stored(init[i]))
    requires idx == prev[data[|data| - 1].id := Stored(data[|data| - 1])]
    ensures forall i :: 0 <= i < |data| && IsLastWithId(data, i)
                        ==> data[i].id in idx && idx[data[i].id] == Stored(data[i])
  {
    var n := |data| - 1;
    var init := data[..n];
    forall i | 0 <= i < |data| && IsLastWithId(data, i)
      ensures data[i].id in idx && idx[data[i].id] == Stored(data[i])
    {
      if i < n {
        assert data[i].id != data[n].id;
        assert init[i] == data[i];
        assert IsLastWithId(init, i);
      }
    }
  }

  lemma IndexExtendsValues(data: seq<Customer>, prev: map<string, Customer>, idx: map<string, Customer>)
    requires |data| > 0
    requires var init := data[..|data| - 1];
             && (forall k :: k in prev ==> prev[k].id == k)
             && (forall k :: k in prev ==> exists i :: 0 <= i < |init| && prev[k] == Stored(init[i]))
    requires idx == prev[data[|data| - 1].id := Stored(data[|data| - 1])]
    ensures forall k :: k in idx ==> idx[k].id == k
    ensures forall k :: k in idx ==> exists i :: 0 <= i < |data| && idx[k] == Stored(data[i])
  {
    var n := |data| - 1;
    var init := data[..n];
    forall k | k in idx
      ensures exists i :: 0 <= i < |data| && idx[k] == Stored(data[i])
    {
      if k == data[n].id {
        assert idx[k] == Stored(data[n]);
      } else {
        var i :| 0 <= i < n && prev[k] == Stored(init[i]);
        assert init[i] == data[i];
        assert idx[k] == Stored(data[i]);
      }
    }
  }

  /** The selection after loading: the first customer's `_id` when the list
      is non-empty, otherwise the selection is left as it was. */
  function InitialSelection(data: seq<Customer>, current: string): (sel: string)
    ensures |data| > 0 ==> sel == data[0].id && sel in BuildIndex(data)
    ensures |data| == 0 ==> sel == current
  {
    if |data| > 0 then data[0].id else current
  }
}

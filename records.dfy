/**
 * The collection-level operations the handlers use: strict id equality, `find` and
 * `findIndex` (the first match), `filter` (every non-match), the object spread of an update
 * and the id assignment of a create. Ids are not assumed unique: the first-match lookups and
 * the remove-all filter behave differently when they repeat.
 */
module Records {
  import opened Wrappers
  import opened Json

  /**
   * `u.id === id`: only a string `id` field with exactly these characters matches; a record
   * without `id`, or whose `id` is a number or any other non-string value, matches no id.
   */
  predicate HasId(u: Record, id: string)
    ensures HasId(u, id) <==> "id" in u && u["id"].Str? && u["id"].s == id
    ensures "id" !in u || !u["id"].Str? ==> !HasId(u, id)
  {
    "id" in u && u["id"] == Str(id)
  }

  /** No record of the collection has the id. */
  predicate Absent(users: seq<Record>, id: string)
  {
    forall j :: 0 <= j < |users| ==> !HasId(users[j], id)
  }

  /** `users.findIndex(u => u.id === id)`: the index of the first match, or -1. */
  function FindIndex(users: seq<Record>, id: string): (i: int)
    ensures -1 <= i < |users|
    ensures i == -1 <==> Absent(users, id)
    ensures 0 <= i ==> HasId(users[i], id) && forall j :: 0 <= j < i ==> !HasId(users[j], id)
  {
    if users == [] then -1
    else if HasId(users[0], id) then 0
    else
      var k := FindIndex(users[1..], id);
      assert forall j :: 1 <= j < |users| ==> users[j] == users[1..][j - 1];
      if k == -1 then -1 else k + 1
  }

  /** `users.find(u => u.id === id)`: the first match, if any. */
  function Find(users: seq<Record>, id: string): (r: Option<Record>)
    ensures r.None? <==> Absent(users, id)
    ensures r.Some? ==> HasId(r.value, id) && r.value in users
  {
    if users == [] then None
    else if HasId(users[0], id) then Some(users[0])
    else
      assert forall j :: 1 <= j < |users| ==> users[j] == users[1..][j - 1];
      Find(users[1..], id)
  }

  /** `find` and `findIndex` agree: `find` gives the record at the index `findIndex` gives. */
  lemma {:induction false} FindIsFirstMatch(users: seq<Record>, id: string)
    ensures Find(users, id) == if FindIndex(users, id) == -1 then None else Some(users[FindIndex(users, id)])
  {
    if users != [] && !HasId(users[0], id) {
      FindIsFirstMatch(users[1..], id);
    }
  }

  /** `users.filter(u => u.id !== id)`: every record without the id, in the original order. */
  function Without(users: seq<Record>, id: string): (r: seq<Record>)
    ensures |r| <= |users|
    ensures forall x :: x in r <==> x in users && !HasId(x, id)
    ensures |r| == |users| <==> Absent(users, id)
    ensures Absent(users, id) ==> r == users
  {
    if users == [] then []
    else
      var rest := Without(users[1..], id);
      assert forall j :: 1 <= j < |users| ==> users[j] == users[1..][j - 1];
      assert users == [users[0]] + users[1..];
      if HasId(users[0], id) then rest else [users[0]] + rest
  }

  /**
   * The filter works record by record: filtering a concatenation filters each part, so the
   * records it keeps stay in their original order.
   */
  lemma {:induction false} WithoutConcat(a: seq<Record>, b: seq<Record>, id: string)
    ensures Without(a + b, id) == Without(a, id) + Without(b, id)
  {
    if a == [] {
      assert a + b == b;
    } else {
      assert (a + b)[1..] == a[1..] + b;
      assert (a + b)[0] == a[0];
      WithoutConcat(a[1..], b, id);
    }
  }

  /** A single record is kept exactly when it does not have the id. */
  lemma WithoutSingle(u: Record, id: string)
    ensures Without([u], id) == if HasId(u, id) then [] else [u]
  {
  }

  /** The number of records with the id. */
  function Matches(users: seq<Record>, id: string): nat
  {
    if users == [] then 0 else (if HasId(users[0], id) then 1 else 0) + Matches(users[1..], id)
  }

  /** The filter removes exactly as many records as have the id. */
  lemma {:induction false} WithoutRemovesEveryMatch(users: seq<Record>, id: string)
    ensures |Without(users, id)| == |users| - Matches(users, id)
  {
    if users != [] {
      WithoutRemovesEveryMatch(users[1..], id);
    }
  }

  /** `{ ...base, ...patch }`: a shallow merge in which the fields of `patch` win. */
  function Merge(base: Record, patch: Record): (r: Record)
    ensures r.Keys == base.Keys + patch.Keys
    ensures forall k :: k in patch ==> r[k] == patch[k]
    ensures forall k :: k in base && k !in patch ==> r[k] == base[k]
  {
    base + patch
  }

  /** `newUser.id = newId`: the body with its `id` set to the new id, any earlier `id` replaced. */
  function WithId(body: Record, newId: string): (r: Record)
    ensures HasId(r, newId)
    ensures r.Keys == body.Keys + {"id"}
    ensures forall k :: k in body && k != "id" ==> r[k] == body[k]
  {
    body["id" := Str(newId)]
  }

  /**
   * Create then get: when no earlier record has the new id, looking it up in the grown
   * collection finds the created record.
   */
  lemma GetAfterCreate(users: seq<Record>, body: Record, newId: string)
    requires Absent(users, newId)
    ensures Find(users + [WithId(body, newId)], newId) == Some(WithId(body, newId))
  {
    var grown := users + [WithId(body, newId)];
    FindIsFirstMatch(grown, newId);
    var i := FindIndex(grown, newId);
    assert grown[|users|] == WithId(body, newId);
    assert forall j :: 0 <= j < |users| ==> grown[j] == users[j];
  }

  /**
   * Create with an id that an earlier record already has: the lookup keeps finding that
   * earlier record, and the created one is shadowed.
   */
  lemma {:induction false} GetAfterCreateShadowed(users: seq<Record>, body: Record, newId: string)
    requires !Absent(users, newId)
    ensures Find(users + [WithId(body, newId)], newId) == Find(users, newId)
    ensures Find(users + [WithId(body, newId)], newId) != Some(WithId(body, newId)) || WithId(body, newId) in users
  {
    assert users != [];
    assert (users + [WithId(body, newId)])[0] == users[0];
    if !HasId(users[0], newId) {
      assert (users + [WithId(body, newId)])[1..] == users[1..] + [WithId(body, newId)];
      assert !Absent(users[1..], newId) by {
        var j :| 0 <= j < |users| && HasId(users[j], newId);
        assert users[1..][j - 1] == users[j];
      }
      GetAfterCreateShadowed(users[1..], body, newId);
    }
  }

  /**
   * Update then get: when the body leaves `id` alone or sets it to the same id, looking the
   * id up again finds the merged record at the same index.
   */
  lemma GetAfterUpdate(users: seq<Record>, id: string, body: Record)
    requires FindIndex(users, id) != -1
    requires "id" !in body || body["id"] == Str(id)
    ensures var i := FindIndex(users, id);
      Find(users[i := Merge(users[i], body)], id) == Some(Merge(users[i], body))
  {
  }

  /**
   * Update whose body sets a different `id`: the record leaves the id behind, so the next
   * lookup finds the next record with the id after it, if any.
   */
  lemma GetAfterUpdateRenamed(users: seq<Record>, id: string, body: Record)
    requires FindIndex(users, id) != -1
    requires "id" in body && body["id"] != Str(id)
    ensures var i := FindIndex(users, id);
      Find(users[i := Merge(users[i], body)], id) == Find(users[i + 1..], id)
  {
    var i := FindIndex(users, id);
    var updated := users[i := Merge(users[i], body)];
    assert !HasId(updated[i], id);
    assert forall j :: 0 <= j < i ==> updated[j] == users[j];
    FindSkipsNonMatches(updated, i + 1, id);
    assert updated[i + 1..] == users[i + 1..];
  }

  /** A lookup passes over the first n records when none of them has the id. */
  lemma {:induction false} FindSkipsNonMatches(users: seq<Record>, n: nat, id: string)
    requires n <= |users|
    requires forall j :: 0 <= j < n ==> !HasId(users[j], id)
    ensures Find(users, id) == Find(users[n..], id)
  {
    if n == 0 {
      assert users[n..] == users;
    } else {
      var rest := users[1..];
      assert Find(users, id) == Find(rest, id) by { assert !HasId(users[0], id); }
      forall j | 0 <= j < n - 1 ensures !HasId(rest[j], id) {
        assert rest[j] == users[j + 1];
      }
      FindSkipsNonMatches(rest, n - 1, id);
      assert rest[n - 1..] == users[n..];
    }
  }

  /** Delete then get: after the filter no record has the id, so the lookup finds nothing. */
  lemma GetAfterDelete(users: seq<Record>, id: string)
    ensures Find(Without(users, id), id) == None
  {
  }
}

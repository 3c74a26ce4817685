/** The API-key lists: a map of slices, each with a backing array of its own. */
module KeyTables {
  import opened Domain
  import opened Db
  import opened Slices

  type Table = map<Id, Slice<APIKey>>

  ghost function TableArrays(t: Table): set<object> {
    set u | u in t :: t[u].arr
  }

  /** No two lists share a backing array. */
  ghost predicate ValidTable(t: Table) {
    && (forall u <- t :: t[u].Valid())
    && (forall u <- t, v <- t :: u != v ==> t[u].arr != t[v].arr)
  }

  /** The lists by value; an empty list is no list. */
  ghost function TableLists(t: Table): map<Id, seq<APIKey>>
    requires ValidTable(t)
    reads TableArrays(t)
  {
    map u | u in t && t[u].len > 0 :: t[u].Contents()
  }

  method ReplaceKey(t: Table, u: Id, idx: nat, key: APIKey)
    requires ValidTable(t) && u in t && idx < t[u].len
    modifies t[u].arr
    ensures TableLists(t) == old(TableLists(t))[u := old(TableLists(t))[u][idx := key]]
  {
    ghost var before := TableLists(t);
    t[u].arr[idx] := key;
    forall v | v in before ensures TableLists(t)[v] == if v == u then before[u][idx := key] else before[v] {
    }
    assert TableLists(t) == before[u := before[u][idx := key]];
  }

  lemma PutList(t: Table, u: Id, list: Slice<APIKey>)
    requires ValidTable(t) && ValidTable(t[u := list]) && list.Valid() && list.len > 0
    ensures TableLists(t[u := list]) == TableLists(t)[u := list.Contents()]
  {
  }

  method AddToList(t: Table, u: Id, key: APIKey) returns (r: Table)
    requires ValidTable(t) && u in t
    modifies t[u].arr
    ensures ValidTable(r) && fresh(TableArrays(r) - TableArrays(t))
    ensures TableLists(r) == old(TableLists(t))[u := ListOf(old(TableLists(t)), u) + [key]]
  {
    ghost var before := TableLists(t);
    assert t[u].Contents() == ListOf(before, u);
    var list := Append(t[u], key);
    forall v | v in t ensures t[v].Contents() == old(t[v].Contents()) {
    }
    assert TableLists(t) == before;
    r := t[u := list];
    PutList(t, u, list);
  }

  method AddList(t: Table, u: Id, key: APIKey) returns (r: Table)
    requires ValidTable(t) && u !in t
    ensures ValidTable(r) && fresh(TableArrays(r) - TableArrays(t))
    ensures TableLists(r) == TableLists(t)[u := ListOf(TableLists(t), u) + [key]]
  {
    var list := FromSeq([key]);
    r := t[u := list];
    assert ListOf(TableLists(t), u) + [key] == [key];
    assert TableLists(r) == TableLists(t)[u := [key]];
  }

  // ---------------------------------------------------------------- flat lists

  /** What regrouping a flat list by owner yields. */
  function Group(keys: seq<APIKey>): map<Id, seq<APIKey>> {
    if keys == [] then map[]
    else
      var lists := Group(keys[..|keys| - 1]);
      var key := keys[|keys| - 1];
      lists[key.userID := (if key.userID in lists then lists[key.userID] else []) + [key]]
  }

  /** Appending keys of one owner appends them to that owner's list and to no other. */
  lemma {:induction false} GroupExtend(keys: seq<APIKey>, more: seq<APIKey>, owner: Id)
    requires KeysOwned(more, owner) && more != []
    ensures Group(keys + more) == Group(keys)[owner := ListOf(Group(keys), owner) + more]
  {
    var n := |more| - 1;
    assert (keys + more)[..|keys + more| - 1] == keys + more[..n];
    if n > 0 {
      GroupExtend(keys, more[..n], owner);
      assert ListOf(Group(keys), owner) + more == ListOf(Group(keys), owner) + more[..n] + [more[n]];
    } else {
      assert keys + more[..n] == keys;
      assert more == [more[n]];
    }
  }

  lemma FlattenStep(before: seq<APIKey>, lists: map<Id, seq<APIKey>>, todo: set<Id>, v: Id)
    requires APIKeysKeyed(lists) && v in todo
    requires Group(before) == lists - todo
    ensures Group(before + ListOf(lists, v)) == lists - (todo - {v})
  {
    if v in lists {
      hide Group;
      GroupExtend(before, lists[v], v);
      assert [] + lists[v] == lists[v];
      LessTodo(lists, todo, v);
    } else {
      hide *;
      assert before + [] == before;
      LessTodo(lists, todo, v);
    }
  }

  lemma LessTodo(lists: map<Id, seq<APIKey>>, todo: set<Id>, v: Id)
    requires v in todo
    ensures lists - (todo - {v}) == if v in lists then (lists - todo)[v := lists[v]] else lists - todo
    ensures v !in lists - todo
  {
  }

  /** The loop over state.apiKeys in snapshotStateLocked. */
  method Flatten(t: Table) returns (flat: Slice<APIKey>)
    requires ValidTable(t)
    requires APIKeysKeyed(TableLists(t))
    ensures flat.Valid() && fresh(flat.arr) && Group(flat.Contents()) == TableLists(t)
  {
    flat := FromSeq([]);
    var todo := t.Keys;
    ghost var lists := TableLists(t);
    while todo != {}
      invariant todo <= t.Keys
      invariant flat.Valid() && fresh(flat.arr)
      invariant unchanged(TableArrays(t))
      invariant Group(flat.Contents()) == lists - todo
    {
      var v :| v in todo;
      FlattenStep(flat.Contents(), lists, todo, v);
      assert t[v].Contents() == ListOf(lists, v);
      flat := AppendAll(flat, t[v]);
      todo := todo - {v};
    }
    assert lists - {} == lists;
  }

  /** The API-key loop of restoreStateSnapshot: regroup by owner, appending to the owner's list. */
  method Regroup(flat: Slice<APIKey>) returns (t: Table)
    requires flat.Valid()
    ensures ValidTable(t) && fresh(TableArrays(t)) && TableLists(t) == Group(flat.Contents())
  {
    t := map[];
    ghost var all := flat.Contents();
    for i := 0 to flat.len
      invariant flat.Contents() == all
      invariant ValidTable(t) && fresh(TableArrays(t))
      invariant TableLists(t) == Group(all[..i])
    {
      var key := flat.arr[i];
      assert all[..i + 1][..i] == all[..i];
      assert key.userID in t ==> t[key.userID].arr in TableArrays(t);
      if key.userID in t {
        t := AddToList(t, key.userID, key);
      } else {
        t := AddList(t, key.userID, key);
      }
    }
    assert all[..flat.len] == all;
  }
}

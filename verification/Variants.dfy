/** mergeVariants: variants keyed by kind, in first-seen order, the newest value winning. */
module Variants {
  import opened Domain
  import opened Db

  /** The non-empty kinds in the order they first occur. */
  function Kinds(vs: seq<Variant>): seq<string> {
    if vs == [] then []
    else
      var before := Kinds(vs[..|vs| - 1]);
      var kind := vs[|vs| - 1].kind;
      if kind == "" || kind in before then before else before + [kind]
  }

  predicate HasKind(vs: seq<Variant>, kind: string) {
    exists v :: v in vs && v.kind == kind
  }

  /** The last variant of a kind. */
  function Newest(vs: seq<Variant>, kind: string): Variant
    requires HasKind(vs, kind)
  {
    if vs[|vs| - 1].kind == kind then vs[|vs| - 1]
    else
      assert forall v :: v in vs ==> v in vs[..|vs| - 1] || v == vs[|vs| - 1];
      Newest(vs[..|vs| - 1], kind)
  }

  lemma {:induction false} KindsOccur(vs: seq<Variant>)
    ensures forall k :: k in Kinds(vs) <==> k != "" && HasKind(vs, k)
    ensures forall i, j :: 0 <= i < j < |Kinds(vs)| ==> Kinds(vs)[i] != Kinds(vs)[j]
  {
    if vs != [] {
      var prev := vs[..|vs| - 1];
      KindsOccur(prev);
      assert vs == prev + [vs[|vs| - 1]];
      forall k ensures HasKind(vs, k) <==> HasKind(prev, k) || k == vs[|vs| - 1].kind {
        assert vs[|vs| - 1] in vs;
      }
    }
  }

  /** One variant per kind of the list: what both loops of mergeVariants leave behind. */
  function Collapse(vs: seq<Variant>): (r: seq<Variant>)
    ensures |r| == |Kinds(vs)|
    ensures forall i :: 0 <= i < |r| ==> r[i].kind == Kinds(vs)[i]
  {
    KindsOccur(vs);
    NewestKind(vs);
    seq(|Kinds(vs)|, i requires 0 <= i < |Kinds(vs)| => Newest(vs, Kinds(vs)[i]))
  }

  lemma {:induction false} NewestKind(vs: seq<Variant>)
    ensures forall k :: HasKind(vs, k) ==> Newest(vs, k).kind == k && Newest(vs, k) in vs
  {
    if vs != [] {
      NewestKind(vs[..|vs| - 1]);
      forall k | HasKind(vs, k) ensures Newest(vs, k).kind == k && Newest(vs, k) in vs {
        if vs[|vs| - 1].kind != k {
          assert Newest(vs, k) == Newest(vs[..|vs| - 1], k);
        }
      }
    }
  }

  /** mergeVariants by value. Without generated variants the old list is returned as it is. */
  function Merge(existing: seq<Variant>, generated: seq<Variant>): seq<Variant> {
    if generated == [] then existing else Collapse(existing + generated)
  }

  /** The map the collecting loops build. */
  function ByKind(vs: seq<Variant>): map<string, Variant> {
    if vs == [] then map[]
    else
      var before := ByKind(vs[..|vs| - 1]);
      var v := vs[|vs| - 1];
      if v.kind == "" then before else before[v.kind := v]
  }

  lemma {:induction false} ByKindNewest(vs: seq<Variant>)
    ensures forall k :: k in ByKind(vs) <==> k in Kinds(vs)
    ensures forall k <- ByKind(vs) :: HasKind(vs, k) && ByKind(vs)[k] == Newest(vs, k)
  {
    KindsOccur(vs);
    if vs != [] {
      ByKindNewest(vs[..|vs| - 1]);
    }
  }

  method MergeVariants(existing: seq<Variant>, generated: seq<Variant>) returns (out: seq<Variant>)
    ensures out == Merge(existing, generated)
  {
    if |generated| == 0 {
      return existing;
    }
    ghost var all := existing + generated;
    var byKind, order := Collect(existing, map[], [], []);
    assert [] + existing == existing;
    byKind, order := Collect(generated, byKind, order, existing);
    ByKindNewest(all);
    out := [];
    for i := 0 to |order|
      invariant |out| == i
      invariant forall j :: 0 <= j < i ==> out[j] == Collapse(all)[j]
    {
      out := out + [byKind[order[i]]];
    }
  }

  lemma CollectNext(seen: seq<Variant>, v: Variant)
    ensures Kinds(seen + [v]) == if v.kind == "" || v.kind in ByKind(seen) then Kinds(seen) else Kinds(seen) + [v.kind]
    ensures ByKind(seen + [v]) == if v.kind == "" then ByKind(seen) else ByKind(seen)[v.kind := v]
  {
    assert (seen + [v])[..|seen|] == seen;
    ByKindNewest(seen);
  }

  /** One of the two collecting loops; `seen` is what was collected before it. */
  method Collect(vs: seq<Variant>, byKind0: map<string, Variant>, order0: seq<string>, ghost seen: seq<Variant>)
    returns (byKind: map<string, Variant>, order: seq<string>)
    requires order0 == Kinds(seen) && byKind0 == ByKind(seen)
    ensures order == Kinds(seen + vs) && byKind == ByKind(seen + vs)
  {
    hide Kinds, ByKind;
    byKind, order := byKind0, order0;
    assert seen + vs[..0] == seen;
    for i := 0 to |vs|
      invariant order == Kinds(seen + vs[..i]) && byKind == ByKind(seen + vs[..i])
    {
      assert seen + vs[..i + 1] == seen + vs[..i] + [vs[i]];
      CollectNext(seen + vs[..i], vs[i]);
      if vs[i].kind == "" {
        continue;
      }
      if vs[i].kind !in byKind {
        order := order + [vs[i].kind];
      }
      byKind := byKind[vs[i].kind := vs[i]];
    }
    assert vs[..|vs|] == vs;
  }

  predicate DistinctKinds(vs: seq<Variant>) {
    && (forall i :: 0 <= i < |vs| ==> vs[i].kind != "")
    && (forall i, j :: 0 <= i < j < |vs| ==> vs[i].kind != vs[j].kind)
  }

  /** The kinds of the result are distinct exactly when something was generated or they already were. */
  lemma MergeDistinct(existing: seq<Variant>, generated: seq<Variant>)
    ensures DistinctKinds(Merge(existing, generated)) <==> generated != [] || DistinctKinds(existing)
  {
    if generated != [] {
      var all := existing + generated;
      KindsOccur(all);
      assert forall i :: 0 <= i < |Kinds(all)| ==> Kinds(all)[i] in Kinds(all);
    }
  }

  /** Every generated kind ends up with its newest generated value, every other kind keeps its newest old one. */
  lemma {:induction false} MergeValues(existing: seq<Variant>, generated: seq<Variant>, kind: string)
    requires kind != "" && generated != []
    requires HasKind(existing, kind) || HasKind(generated, kind)
    ensures HasKind(existing + generated, kind)
    ensures Newest(existing + generated, kind) in Merge(existing, generated)
    ensures Newest(existing + generated, kind) ==
            if HasKind(generated, kind) then Newest(generated, kind) else Newest(existing, kind)
  {
    var all := existing + generated;
    KindsOccur(all);
    assert HasKind(all, kind) by {
      var v :| (v in existing || v in generated) && v.kind == kind;
      assert v in all;
    }
    var i :| 0 <= i < |Kinds(all)| && Kinds(all)[i] == kind;
    assert Merge(existing, generated)[i] == Newest(all, kind);
    NewestOfSum(existing, generated, kind);
  }

  lemma {:induction false} NewestOfSum(a: seq<Variant>, b: seq<Variant>, kind: string)
    requires HasKind(a + b, kind)
    ensures HasKind(b, kind) || HasKind(a, kind)
    ensures Newest(a + b, kind) == if HasKind(b, kind) then Newest(b, kind) else Newest(a, kind)
    decreases |b|
  {
    if b == [] {
      assert a + b == a;
    } else {
      var n := |b| - 1;
      assert (a + b)[..|a + b| - 1] == a + b[..n] && (a + b)[|a + b| - 1] == b[n];
      assert b[n] in b;
      if b[n].kind != kind {
        var v :| v in a + b && v.kind == kind;
        assert v in a + b[..n];
        NewestOfSum(a, b[..n], kind);
        assert HasKind(b, kind) <==> HasKind(b[..n], kind) by {
          assert forall w :: w in b <==> w in b[..n] || w == b[n];
        }
      }
    }
  }

  /** A list that already has one variant per kind collapses to itself. */
  lemma {:induction false} CollapseDistinct(vs: seq<Variant>)
    requires DistinctKinds(vs)
    ensures |Kinds(vs)| == |vs| && forall i :: 0 <= i < |vs| ==> Kinds(vs)[i] == vs[i].kind
    ensures Collapse(vs) == vs
  {
    if vs != [] {
      var prev := vs[..|vs| - 1];
      CollapseDistinct(prev);
      forall i | 0 <= i < |vs| ensures Kinds(vs)[i] == vs[i].kind && Collapse(vs)[i] == vs[i] {
        NewestDistinct(vs, i);
      }
    }
  }

  lemma {:induction false} NewestDistinct(vs: seq<Variant>, i: nat)
    requires DistinctKinds(vs) && i < |vs|
    ensures vs[i] in vs && Newest(vs, vs[i].kind) == vs[i]
    decreases |vs|
  {
    if i < |vs| - 1 {
      NewestDistinct(vs[..|vs| - 1], i);
    }
  }

  lemma {:induction false} KindsAbsorb(a: seq<Variant>, b: seq<Variant>)
    requires forall v :: v in b && v.kind != "" ==> v.kind in Kinds(a)
    ensures Kinds(a + b) == Kinds(a)
  {
    if b == [] {
      assert a + b == a;
    } else {
      var n := |b| - 1;
      assert (a + b)[..|a + b| - 1] == a + b[..n] && (a + b)[|a + b| - 1] == b[n];
      assert b[n] in b;
      KindsAbsorb(a, b[..n]);
    }
  }

  /** Redelivery: merging the same generated variants again changes nothing. */
  lemma {:induction false} MergeIdempotent(existing: seq<Variant>, generated: seq<Variant>)
    ensures Merge(Merge(existing, generated), generated) == Merge(existing, generated)
  {
    if generated != [] {
      var all := existing + generated;
      var m := Collapse(all);
      MergeDistinct(existing, generated);
      CollapseDistinct(m);
      KindsOccur(all);
      assert Kinds(m) == Kinds(all);
      forall v | v in generated && v.kind != "" ensures v.kind in Kinds(m) {
        assert v in all;
      }
      KindsAbsorb(m, generated);
      KindsOccur(m + generated);
      NewestKind(all);
      forall i | 0 <= i < |m| ensures Collapse(m + generated)[i] == m[i] {
        var k := Kinds(all)[i];
        assert m[i].kind == k && k in Kinds(all) && k in Kinds(m + generated);
        NewestDistinct(m, i);
        NewestOfSum(m, generated, k);
        NewestOfSum(existing, generated, k);
      }
    }
  }

  /** The kinds of a merged list come in the order they first occur. */
  predicate FirstAt(vs: seq<Variant>, kind: string, i: nat) {
    i < |vs| && vs[i].kind == kind && forall j :: 0 <= j < i ==> vs[j].kind != kind
  }

  lemma {:induction false} KindsInOrder(vs: seq<Variant>, a: nat, b: nat, i: nat, j: nat)
    requires a < b < |Kinds(vs)| && FirstAt(vs, Kinds(vs)[a], i) && FirstAt(vs, Kinds(vs)[b], j)
    ensures i < j
  {
    var n := |vs| - 1;
    var before := Kinds(vs[..n]);
    KindsOccur(vs[..n]);
    KindsOccur(vs);
    assert Kinds(vs)[a] == before[a];
    assert before[a] in before;
    SomeFirst(vs[..n], before[a], i);
    if b < |before| {
      assert before[b] in before;
      SomeFirst(vs[..n], before[b], j);
      KindsInOrder(vs[..n], a, b, i, j);
    } else {
      assert Kinds(vs)[b] !in before;
      assert forall k :: 0 <= k < n ==> vs[..n][k] in vs[..n] && vs[..n][k] == vs[k];
    }
  }

  /** The first occurrence of a kind in the list is that in any prefix that has the kind. */
  lemma SomeFirst(front: seq<Variant>, kind: string, i: nat)
    requires HasKind(front, kind)
    requires forall j :: 0 <= j < i && j < |front| ==> front[j].kind != kind
    requires i < |front| ==> front[i].kind == kind
    ensures i < |front| && FirstAt(front, kind, i)
  {
    var v :| v in front && v.kind == kind;
    var k :| 0 <= k < |front| && front[k] == v;
  }

  /** In the merged list an earlier kind occurred earlier among the old variants followed by the generated ones. */
  lemma MergeOrder(existing: seq<Variant>, generated: seq<Variant>, a: nat, b: nat, i: nat, j: nat)
    requires generated != [] && a < b < |Merge(existing, generated)|
    requires FirstAt(existing + generated, Merge(existing, generated)[a].kind, i)
    requires FirstAt(existing + generated, Merge(existing, generated)[b].kind, j)
    ensures i < j
  {
    hide Kinds, FirstAt;
    KindsInOrder(existing + generated, a, b, i, j);
  }
}

/** Go slices on the heap: a header over a shared backing array. */
module Slices {

  datatype Slice<T> = Slice(arr: array<T>, len: nat) {
    predicate Valid() {
      len <= arr.Length
    }

    ghost function Contents(): (s: seq<T>)
      requires Valid()
      reads arr
    {
      arr[..len]
    }
  }

  /** The built-in append: it writes the spare capacity of the backing array in place when there is
      any, and otherwise moves to a larger array. */
  method Append<T>(s: Slice<T>, x: T) returns (r: Slice<T>)
    requires s.Valid()
    modifies s.arr
    ensures r.Valid() && r.Contents() == old(s.Contents()) + [x]
    ensures s.Contents() == old(s.Contents())
    ensures r.arr == s.arr || fresh(r.arr)
  {
    if s.len < s.arr.Length {
      s.arr[s.len] := x;
      r := Slice(s.arr, s.len + 1);
    } else {
      var capacity: nat :| capacity > s.len;
      var bigger := new T[capacity](i requires 0 <= i < capacity reads s.arr => if i < s.len then s.arr[i] else x);
      r := Slice(bigger, s.len + 1);
    }
  }

  /** append([]T(nil), s...): the same elements in an array of their own. */
  method Clone<T>(s: Slice<T>) returns (r: Slice<T>)
    requires s.Valid()
    ensures r.Valid() && fresh(r.arr)
    ensures r.Contents() == s.Contents()
  {
    var own := new T[s.len](i requires 0 <= i < s.len reads s.arr => s.arr[i]);
    r := Slice(own, s.len);
  }

  /** append(s, t...): element by element onto s. */
  method AppendAll<T>(s: Slice<T>, t: Slice<T>) returns (r: Slice<T>)
    requires s.Valid() && t.Valid() && s.arr != t.arr
    modifies s.arr
    ensures r.Valid() && r.Contents() == old(s.Contents()) + old(t.Contents())
    ensures r.arr == s.arr || fresh(r.arr)
  {
    r := s;
    for i := 0 to t.len
      invariant r.Valid() && r.Contents() == old(s.Contents()) + old(t.Contents())[..i]
      invariant t.Contents() == old(t.Contents())
      invariant r.arr == s.arr || fresh(r.arr)
    {
      r := Append(r, t.arr[i]);
      assert old(t.Contents())[..i] + [old(t.arr[i])] == old(t.Contents())[..i + 1];
    }
    assert old(t.Contents())[..t.len] == old(t.Contents());
  }

  method FromSeq<T>(elems: seq<T>) returns (r: Slice<T>)
    ensures r.Valid() && fresh(r.arr) && r.Contents() == elems
  {
    var own := new T[|elems|](i requires 0 <= i < |elems| => elems[i]);
    r := Slice(own, |elems|);
  }
}

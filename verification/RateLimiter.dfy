/** The fixed-window rate limiter in front of every route. */
module RateLimiting {
  import opened Domain

  const MINUTE: int := 60 * SECOND

  datatype Window = Window(count: nat, ends: Time)

  datatype Request = Request(key: string, limit: int, now: Time)

  type Windows = map<string, Window>

  /** The window a request falls into: a new one when the key has none or its window is over. */
  function WindowFor(windows: Windows, r: Request): Window {
    if r.key !in windows || r.now > windows[r.key].ends then Window(1, r.now + MINUTE)
    else Window(windows[r.key].count + 1, windows[r.key].ends)
  }

  class Limiter {
    var windows: Windows

    constructor ()
      ensures windows == map[]
    {
      windows := map[];
    }

    /** rateLimit. */
    method Admit(r: Request) returns (admitted: bool)
      modifies this
      ensures windows == old(windows)[r.key := WindowFor(old(windows), r)]
      ensures admitted <==> WindowFor(old(windows), r).count <= r.limit
    {
      var window := if r.key in windows then windows[r.key] else Window(0, r.now - 1);
      if r.now > window.ends {
        window := Window(0, r.now + MINUTE);
      }
      window := window.(count := window.count + 1);
      windows := windows[r.key := window];
      admitted := window.count <= r.limit;
    }
  }

  // ---------------------------------------------------------------- runs over any mix of keys

  function After(rs: seq<Request>): Windows {
    if rs == [] then map[]
    else
      var before := After(rs[..|rs| - 1]);
      before[rs[|rs| - 1].key := WindowFor(before, rs[|rs| - 1])]
  }

  predicate LastAdmitted(rs: seq<Request>)
    requires rs != []
  {
    WindowFor(After(rs[..|rs| - 1]), rs[|rs| - 1]).count <= rs[|rs| - 1].limit
  }

  /** A limiter that has seen `rs` answers as the function says. */
  method Replay(rs: seq<Request>) returns (limiter: Limiter, answers: seq<bool>)
    ensures limiter.windows == After(rs)
    ensures |answers| == |rs| && forall i :: 0 <= i < |rs| ==> answers[i] == LastAdmitted(rs[..i + 1])
  {
    limiter := new Limiter();
    answers := [];
    for i := 0 to |rs|
      invariant fresh(limiter) && limiter.windows == After(rs[..i])
      invariant |answers| == i && forall j :: 0 <= j < i ==> answers[j] == LastAdmitted(rs[..j + 1])
    {
      var admitted := limiter.Admit(rs[i]);
      assert rs[..i + 1][..i] == rs[..i];
      answers := answers + [admitted];
    }
    assert rs[..|rs|] == rs;
  }

  /** The requests of the key admitted in the closed minute that begins at `a`. */
  function AdmittedIn(rs: seq<Request>, key: string, a: Time): nat {
    if rs == [] then 0
    else
      var r := rs[|rs| - 1];
      AdmittedIn(rs[..|rs| - 1], key, a)
      + if r.key == key && a <= r.now <= a + 60_000_000_000 && LastAdmitted(rs) then 1 else 0
  }

  /** The requests of the key admitted since its current window was opened. */
  function AdmittedInWindow(rs: seq<Request>, key: string): nat {
    if rs == [] then 0
    else
      var r := rs[|rs| - 1];
      var before := rs[..|rs| - 1];
      if r.key != key then AdmittedInWindow(before, key)
      else (if WindowFor(After(before), r).count == 1 then 0 else AdmittedInWindow(before, key))
           + if LastAdmitted(rs) then 1 else 0
  }

  /** The key's requests carry one limit, and their times never go back. */
  predicate Regular(rs: seq<Request>, key: string, limit: nat) {
    && (forall i :: 0 <= i < |rs| && rs[i].key == key ==> rs[i].limit == limit)
    && (forall i, j :: 0 <= i < j < |rs| && rs[i].key == key && rs[j].key == key ==> rs[i].now <= rs[j].now)
  }

  function Least(a: nat, b: nat): nat {
    if a <= b then a else b
  }

  /** In each of the limiter's own windows as many requests are admitted as arrive, up to the limit. */
  lemma {:induction false} OwnWindowBound(rs: seq<Request>, key: string, limit: nat)
    requires Regular(rs, key, limit)
    ensures AdmittedInWindow(rs, key) == if key in After(rs) then Least(After(rs)[key].count, limit) else 0
    ensures AdmittedInWindow(rs, key) <= limit
    ensures key in After(rs) ==> After(rs)[key].count >= 1
  {
    if rs != [] {
      OwnWindowBound(rs[..|rs| - 1], key, limit);
    }
  }

  /** The window was opened by a request of the key, and no later request of it is earlier. */
  lemma {:induction false} OpenedBefore(rs: seq<Request>, key: string, limit: nat, now: Time)
    requires Regular(rs, key, limit) && key in After(rs)
    requires forall i :: 0 <= i < |rs| && rs[i].key == key ==> rs[i].now <= now
    ensures After(rs)[key].ends - MINUTE <= now
  {
    OwnWindowBound(rs[..|rs| - 1], key, limit);
    if rs[|rs| - 1].key != key || WindowFor(After(rs[..|rs| - 1]), rs[|rs| - 1]).count != 1 {
      OpenedBefore(rs[..|rs| - 1], key, limit, now);
    }
  }

  /** How much of the minute from `a` the windows so far can have used. A window that began before `a` has spent
      its first admission outside. */
  function Room(w: Window, limit: nat, a: Time): int {
    var begins := w.ends - MINUTE;
    if limit == 0 || w.ends < a then 0
    else if begins < a then Least(w.count, limit) - 1
    else if begins == a then Least(w.count, limit)
    else if begins <= a + MINUTE then limit - 1 + Least(w.count, limit)
    else 2 * limit - 1
  }

  lemma {:induction false} RoomSuffices(rs: seq<Request>, key: string, limit: nat, a: Time)
    requires Regular(rs, key, limit)
    ensures AdmittedIn(rs, key, a) <= if key in After(rs) then Room(After(rs)[key], limit, a) else 0
  {
    if rs != [] {
      var before := rs[..|rs| - 1];
      var r := rs[|rs| - 1];
      RoomSuffices(before, key, limit, a);
      OwnWindowBound(before, key, limit);
      if r.key == key && key in After(before) {
        OpenedBefore(before, key, limit, r.now);
      }
    }
  }

  /** In any closed minute, however it lies across the windows, fewer than twice the limit are admitted. */
  lemma SlidingBound(rs: seq<Request>, key: string, limit: nat, a: Time)
    requires Regular(rs, key, limit)
    ensures AdmittedIn(rs, key, a) <= if limit == 0 then 0 else 2 * limit - 1
  {
    RoomSuffices(rs, key, limit, a);
    OwnWindowBound(rs, key, limit);
  }

  /** No smaller bound holds: with a limit of two, three requests pass within a minute. */
  lemma SlidingBoundReached(key: string)
    ensures var rs := [Request(key, 2, 0), Request(key, 2, MINUTE), Request(key, 2, MINUTE + 1), Request(key, 2, MINUTE + 1)];
            Regular(rs, key, 2) && AdmittedIn(rs, key, 1) == 3
  {
    var r0, r1, r2 := Request(key, 2, 0), Request(key, 2, MINUTE), Request(key, 2, MINUTE + 1);
    var s1, s2, s3, s4 := [r0], [r0, r1], [r0, r1, r2], [r0, r1, r2, r2];
    assert s1[..0] == [] && s2[..1] == s1 && s3[..2] == s2 && s4[..3] == s3;
    assert After(s1) == map[key := Window(1, MINUTE)];
    assert After(s2) == map[key := Window(2, MINUTE)];
    assert After(s3) == map[key := Window(1, 2 * MINUTE + 1)];
    assert AdmittedIn(s1, key, 1) == 0;
    assert AdmittedIn(s2, key, 1) == 1;
    assert AdmittedIn(s3, key, 1) == 2;
  }
}

/** The key slots of an HKRO keyboard report and of a consumer report. */
module KeySlots {
  import opened Words

  /** The first slot at or after `i` that holds `code`, the number of slots if there is none. */
  function Find(keys: seq<nat>, code: nat, i: nat): (at: nat)
    requires i <= |keys|
    ensures i <= at <= |keys| && (forall j | i <= j < at :: keys[j] != code) && (at < |keys| ==> keys[at] == code)
    decreases |keys| - i
  {
    if i == |keys| || keys[i] == code then i else Find(keys, code, i + 1)
  }

  /** A press looks for `code`, then for a free slot to store `stored` in. */
  function Press(keys: seq<nat>, code: nat, stored: nat): (r: seq<nat>)
    ensures |r| == |keys|
  {
    if Find(keys, code, 0) < |keys| then keys
    else
      var free := Find(keys, 0, 0);
      if free < |keys| then keys[free := stored] else keys
  }

  function Release(keys: seq<nat>, code: nat): (r: seq<nat>)
    ensures |r| == |keys|
  {
    seq(|keys|, i requires 0 <= i < |keys| => if keys[i] == code then 0 else keys[i])
  }

  // ----- What the slots report -----

  datatype Edge = Down(code: nat) | Up(code: nat)

  function Run(n: nat, edges: seq<Edge>): (r: seq<nat>)
    ensures |r| == n
  {
    if edges == [] then Zeros(n)
    else
      var before := Run(n, edges[..|edges| - 1]);
      match edges[|edges| - 1]
      case Down(code) => Press(before, code, code)
      case Up(code) => Release(before, code)
  }

  function Held(edges: seq<Edge>): set<nat> {
    if edges == [] then {}
    else
      var before := Held(edges[..|edges| - 1]);
      match edges[|edges| - 1]
      case Down(code) => before + {code}
      case Up(code) => before - {code}
  }

  /** Codes that fit the slots' width. */
  predicate Codes(edges: seq<Edge>) {
    forall i | 0 <= i < |edges| :: edges[i].code != 0
  }

  /** Never more than `n` keys are held. */
  predicate Fits(n: nat, edges: seq<Edge>) {
    |Held(edges)| <= n && (edges == [] || Fits(n, edges[..|edges| - 1]))
  }

  ghost predicate Distinct(keys: seq<nat>) {
    forall i, j | 0 <= i < j < |keys| :: keys[i] == keys[j] ==> keys[i] == 0
  }

  function Codeset(keys: seq<nat>): set<nat> {
    set i | 0 <= i < |keys| :: keys[i]
  }

  lemma {:induction false} DistinctSize(keys: seq<nat>)
    requires Distinct(keys) && 0 !in keys
    ensures |Codeset(keys)| == |keys|
  {
    if keys != [] {
      var rest, x := keys[..|keys| - 1], keys[|keys| - 1];
      forall i, j | 0 <= i < j < |rest|
        ensures rest[i] == rest[j] ==> rest[i] == 0
      {
        assert keys[i] == rest[i] && keys[j] == rest[j];
      }
      DistinctSize(rest);
      assert x !in Codeset(rest);
      assert Codeset(keys) == Codeset(rest) + {x} by {
        forall c | c in Codeset(keys) ensures c in Codeset(rest) + {x} {
          var i :| 0 <= i < |keys| && keys[i] == c;
          assert i < |rest| ==> rest[i] == c;
        }
        forall c | c in Codeset(rest) ensures c in Codeset(keys) {
          var i :| 0 <= i < |rest| && rest[i] == c;
          assert keys[i] == c;
        }
        assert keys[|keys| - 1] == x;
      }
    }
  }

  /** Full slots that all belong to held keys leave no room for another held key. */
  lemma RoomLeft(keys: seq<nat>, held: set<nat>, code: nat)
    requires Distinct(keys) && 0 !in keys && code !in keys && code in held
    requires forall k | k in keys :: k in held
    ensures |held| > |keys|
  {
    DistinctSize(keys);
    assert Codeset(keys) <= held - {code};
    SubsetSize(Codeset(keys), held - {code});
  }

  /** The slots hold exactly the held keys, each once. */
  ghost predicate Mirrors(keys: seq<nat>, held: set<nat>) {
    Distinct(keys) && forall k | k != 0 :: k in keys <==> k in held
  }

  lemma PressMirrors(keys: seq<nat>, held: set<nat>, code: nat)
    requires Mirrors(keys, held) && code != 0 && 0 !in held && |held + {code}| <= |keys|
    ensures Mirrors(Press(keys, code, code), held + {code})
  {
    var at, free := Find(keys, code, 0), Find(keys, 0, 0);
    if at == |keys| {
      if free == |keys| {
        RoomLeft(keys, held + {code}, code);
      }
      var r := keys[free := code];
      assert r[free] == code;
      forall k | k != 0
        ensures k in r <==> k in held + {code}
      {
        if k in keys {
          var i :| 0 <= i < |keys| && keys[i] == k;
          assert r[i] == k;
        }
      }
    }
  }

  lemma ReleaseMirrors(keys: seq<nat>, held: set<nat>, code: nat)
    requires Mirrors(keys, held)
    ensures Mirrors(Release(keys, code), held - {code})
  {
    var r := Release(keys, code);
    forall k | k != 0
      ensures k in r <==> k in held - {code}
    {
      if k in keys && k != code {
        var i :| 0 <= i < |keys| && keys[i] == k;
        assert r[i] == k;
      }
    }
  }

  /** As long as no more keys are held than there are slots, a key is in the report if and only if it is held, and
      no key is there twice. */
  lemma {:induction false} SlotsMirrorHeldKeys(n: nat, edges: seq<Edge>)
    requires Codes(edges) && Fits(n, edges)
    ensures Mirrors(Run(n, edges), Held(edges)) && 0 !in Held(edges)
  {
    if edges != [] {
      var before := edges[..|edges| - 1];
      SlotsMirrorHeldKeys(n, before);
      match edges[|edges| - 1] {
        case Down(code) => PressMirrors(Run(n, before), Held(before), code);
        case Up(code) => ReleaseMirrors(Run(n, before), Held(before), code);
      }
    }
  }

  // ----- Two positions with one code -----

  /** How many key positions hold a code. */
  function Positions(edges: seq<Edge>, code: nat): nat {
    if edges == [] then 0
    else
      var before := Positions(edges[..|edges| - 1], code);
      match edges[|edges| - 1]
      case Down(k) => if k == code then before + 1 else before
      case Up(k) => if k == code && before > 0 then before - 1 else before
  }

  ghost predicate SamePositions(edges: seq<Edge>) {
    forall code :: code in Held(edges) <==> Positions(edges, code) > 0
  }

  /** Every release is of a code that at most one position holds. */
  ghost predicate Unshared(edges: seq<Edge>) {
    forall i | 0 <= i < |edges| && edges[i].Up? :: Positions(edges[..i], edges[i].code) <= 1
  }

  lemma EdgePositions(edges: seq<Edge>, n: nat)
    requires n < |edges| && SamePositions(edges[..n])
    ensures SamePositions(edges[..n + 1]) <==> (edges[n].Up? ==> Positions(edges[..n], edges[n].code) <= 1)
  {
    assert edges[..n + 1][..n] == edges[..n];
    var code := edges[n].code;
    assert code in Held(edges[..n + 1]) <==> edges[n].Down?;
    assert forall k | k != code :: Positions(edges[..n + 1], k) == Positions(edges[..n], k);
  }

  lemma {:induction false} UnsharedPrefix(edges: seq<Edge>, n: nat)
    requires Unshared(edges) && n <= |edges|
    ensures SamePositions(edges[..n])
  {
    if n > 0 {
      UnsharedPrefix(edges, n - 1);
      EdgePositions(edges, n - 1);
    }
  }

  /** The slots forget a code at its first release. So throughout a stream a code counts as held exactly while some key
      position holds it if and only if no code is released while two positions hold it. */
  lemma HeldMeansSomePosition(edges: seq<Edge>)
    ensures (forall n | 0 <= n <= |edges| :: SamePositions(edges[..n])) <==> Unshared(edges)
  {
    if Unshared(edges) {
      forall n | 0 <= n <= |edges| ensures SamePositions(edges[..n]) { UnsharedPrefix(edges, n); }
    }
    if forall n | 0 <= n <= |edges| :: SamePositions(edges[..n]) {
      forall i | 0 <= i < |edges| && edges[i].Up?
        ensures Positions(edges[..i], edges[i].code) <= 1
      {
        assert SamePositions(edges[..i]) && SamePositions(edges[..i + 1]);
        EdgePositions(edges, i);
      }
    }
  }

  /** Two positions press the same code and one lets go: the other still holds it, and the report does not show it. */
  lemma SharedCodeDropped(n: nat, code: nat, edges: seq<Edge>)
    requires 0 < code && edges == [Down(code)] + [Down(code)] + [Up(code)]
    ensures Positions(edges, code) == 1 && code !in Run(n, edges)
  {
    assert edges[..2] == [Down(code)] + [Down(code)] && edges[..2][..1] == [Down(code)];
    assert [Down(code)][..0] == [];
    assert Positions(edges[..2][..1], code) == 1;
    assert Run(n, edges) == Release(Run(n, edges[..2]), code);
  }

  // ----- The slots as an array -----

  class KeyArray {
    const keys: array<nat>
    ghost var view: seq<nat>

    ghost predicate Valid()
      reads this, keys
    {
      view == keys[..]
    }

    constructor (n: nat)
      ensures Valid() && view == Zeros(n) && fresh(keys)
    {
      keys := new nat[n](_ => 0);
      view := Zeros(n);
      new;
      assert keys[..] == Zeros(n);
    }

    /** The first slot that holds `code`. */
    method IndexOf(code: nat) returns (at: nat)
      requires Valid()
      ensures at == Find(view, code, 0)
    {
      at := 0;
      while at < keys.Length && keys[at] != code
        invariant at <= keys.Length && Find(view, code, 0) == Find(view, code, at)
      {
        at := at + 1;
      }
    }

    method Add(code: nat, stored: nat)
      requires Valid()
      modifies this, keys
      ensures Valid() && view == Press(old(view), code, stored)
    {
      var at := IndexOf(code);
      if at < keys.Length {
        return;
      }
      at := IndexOf(0);
      if at < keys.Length {
        keys[at] := stored;
        view := view[at := stored];
      }
    }

    method Remove(code: nat)
      requires Valid()
      modifies this, keys
      ensures Valid() && view == Release(old(view), code)
    {
      ghost var was := view;
      var i := 0;
      while i < keys.Length
        invariant 0 <= i <= keys.Length && Valid() && |view| == |was|
        invariant forall j | 0 <= j < i :: view[j] == Release(was, code)[j]
        invariant forall j | i <= j < keys.Length :: view[j] == was[j]
      {
        if keys[i] == code {
          keys[i] := 0;
          view := view[i := 0];
        }
        i := i + 1;
      }
    }
  }
}

/**
 * The set of clips scheduled on one beat. The source keeps a skip-list set
 * ordered by a comparator on hashCode(), so the set compares clips by key
 * alone: two clips with the same key occupy one slot, and iteration goes in
 * ascending key order. A set is modelled as the sequence of its members in
 * iteration order.
 */
module BeatSet {
  import opened Sounds

  /** Members strictly ascend by key: the set's iteration order, which also
      leaves room for at most one member per key. */
  predicate KeyOrdered(s: seq<Clip>)
  {
    forall i, j :: 0 <= i < j < |s| ==> Key(s[i]) < Key(s[j])
  }

  /** The keys of the members. */
  function KeySet(s: seq<Clip>): set<int>
  {
    if s == [] then {} else {Key(s[0])} + KeySet(s[1..])
  }

  /** Membership as the set decides it: by key, not by identity. */
  predicate Contains(s: seq<Clip>, c: Clip)
  {
    Key(c) in KeySet(s)
  }

  /** Every member's key is in the key set. */
  lemma {:induction false} KeysOfMembers(s: seq<Clip>, x: Clip)
    requires x in s
    ensures Key(x) in KeySet(s)
  {
    if x != s[0] {
      KeysOfMembers(s[1..], x);
    }
  }

  /** Every key in the key set is held by a member. */
  lemma {:induction false} MemberOfKey(s: seq<Clip>, k: int) returns (x: Clip)
    requires k in KeySet(s)
    ensures x in s && Key(x) == k
  {
    if Key(s[0]) == k {
      x := s[0];
    } else {
      x := MemberOfKey(s[1..], k);
    }
  }

  /** The first member of an ordered set has the least key. */
  lemma HeadIsLeast(s: seq<Clip>)
    requires KeyOrdered(s) && s != []
    ensures forall x :: x in s[1..] ==> Key(s[0]) < Key(x)
    ensures forall k :: k in KeySet(s[1..]) ==> Key(s[0]) < k
  {
    forall k | k in KeySet(s[1..])
      ensures Key(s[0]) < k
    {
      var x := MemberOfKey(s[1..], k);
    }
  }

  /** A clip whose key is below every member's can head the set. */
  lemma ConsOrdered(x: Clip, t: seq<Clip>)
    requires KeyOrdered(t)
    requires forall y :: y in t ==> Key(x) < Key(y)
    ensures KeyOrdered([x] + t)
  {
    forall i, j | 0 <= i < j < |[x] + t|
      ensures Key(([x] + t)[i]) < Key(([x] + t)[j])
    {
      if i == 0 {
        assert ([x] + t)[j] == t[j - 1];
        assert t[j - 1] in t;
      }
    }
  }

  /** How many members carry key k. */
  function Occurrences(s: seq<Clip>, k: int): nat
  {
    if s == [] then 0
    else (if Key(s[0]) == k then 1 else 0) + Occurrences(s[1..], k)
  }

  /** In an ordered set no key is held twice. */
  lemma {:induction false} AtMostOnce(s: seq<Clip>, k: int)
    requires KeyOrdered(s)
    ensures Occurrences(s, k) == if k in KeySet(s) then 1 else 0
  {
    if s != [] {
      HeadIsLeast(s);
      AtMostOnce(s[1..], k);
    }
  }

  /** The set's add: a clip whose key is already held leaves the set as it
      was (the member already there stays); otherwise the clip joins at the
      place its key orders it. */
  function Add(s: seq<Clip>, c: Clip): (r: seq<Clip>)
    requires KeyOrdered(s)
    ensures KeyOrdered(r)
    ensures KeySet(r) == KeySet(s) + {Key(c)}
    ensures forall x :: x in r <==> x in s || (x == c && !Contains(s, c))
    ensures Contains(s, c) ==> r == s
  {
    if s == [] then [c]
    else if Key(c) < Key(s[0]) then
      HeadIsLeast(s);
      ConsOrdered(c, s);
      var r := [c] + s;
      assert r[0] == c && r[1..] == s;
      r
    else if Key(c) == Key(s[0]) then s
    else
      assert s == [s[0]] + s[1..];
      assert Contains(s, c) <==> Contains(s[1..], c);
      var rest := Add(s[1..], c);
      HeadIsLeast(s);
      ConsOrdered(s[0], rest);
      var r := [s[0]] + rest;
      assert r[0] == s[0] && r[1..] == rest;
      r
  }

  /** Dropping the head of an ordered set removes exactly its key. */
  lemma DropHead(s: seq<Clip>, c: Clip)
    requires KeyOrdered(s) && s != [] && Key(s[0]) == Key(c)
    ensures KeyOrdered(s[1..])
    ensures KeySet(s[1..]) == KeySet(s) - {Key(c)}
    ensures forall x :: x in s[1..] <==> x in s && Key(x) != Key(c)
  {
    assert s == [s[0]] + s[1..];
    HeadIsLeast(s);
  }

  /** Keeping the head of an ordered set in front of the tail with c's key
      removed removes c's key from the whole set. */
  lemma KeepHead(s: seq<Clip>, c: Clip, rest: seq<Clip>)
    requires KeyOrdered(s) && s != [] && Key(s[0]) != Key(c)
    requires KeyOrdered(rest) && KeySet(rest) == KeySet(s[1..]) - {Key(c)}
    requires forall x :: x in rest <==> x in s[1..] && Key(x) != Key(c)
    ensures KeyOrdered([s[0]] + rest)
    ensures KeySet([s[0]] + rest) == KeySet(s) - {Key(c)}
    ensures forall x :: x in [s[0]] + rest <==> x in s && Key(x) != Key(c)
  {
    assert s == [s[0]] + s[1..];
    HeadIsLeast(s);
    ConsOrdered(s[0], rest);
    var r := [s[0]] + rest;
    assert r[0] == s[0] && r[1..] == rest;
  }

  /** The set's remove: the member holding c's key, whichever clip that is,
      leaves; everything else stays in order. */
  function Remove(s: seq<Clip>, c: Clip): (r: seq<Clip>)
    requires KeyOrdered(s)
    ensures KeyOrdered(r)
    ensures KeySet(r) == KeySet(s) - {Key(c)}
    ensures forall x :: x in r <==> x in s && Key(x) != Key(c)
    ensures !Contains(s, c) ==> r == s
  {
    if s == [] then []
    else if Key(s[0]) == Key(c) then
      DropHead(s, c);
      s[1..]
    else
      assert s == [s[0]] + s[1..];
      assert Contains(s, c) <==> Contains(s[1..], c);
      DropHead(s, s[0]);
      var rest := Remove(s[1..], c);
      KeepHead(s, c, rest);
      [s[0]] + rest
  }

  /** Removing a clip that was just added to a set that lacked its key gives
      back the original set. */
  lemma {:induction false} RemoveUndoesAdd(s: seq<Clip>, c: Clip)
    requires KeyOrdered(s) && !Contains(s, c)
    ensures Remove(Add(s, c), c) == s
  {
    if s == [] {
      assert [c][1..] == [];
    } else if Key(c) < Key(s[0]) {
      assert Add(s, c) == [c] + s;
      assert ([c] + s)[1..] == s;
    } else {
      assert Key(s[0]) in KeySet(s);
      assert Contains(s, c) <==> Contains(s[1..], c);
      RemoveUndoesAdd(s[1..], c);
      var rest := Add(s[1..], c);
      assert Add(s, c) == [s[0]] + rest;
      assert ([s[0]] + rest)[0] == s[0] && ([s[0]] + rest)[1..] == rest;
      assert Remove(Add(s, c), c) == [s[0]] + Remove(rest, c);
      assert s == [s[0]] + s[1..];
    }
  }
}

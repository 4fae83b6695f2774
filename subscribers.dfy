/**
 Subscriber lists as both stores keep them: plain arrays of callbacks that are
 compared by identity, searched with `includes` and `indexOf`, and shortened
 with `splice`. A callback is an opaque identity `S`; calling it is recorded as
 a `Call` in a log instead of being run.
 */
module Subscribers {

  datatype Option<T> = None | Some(value: T)

  /** One invocation of a subscriber, with the argument it received. */
  datatype Call<S, X> = Call(subscriber: S, arg: X)

  /** No callback occurs twice in the list. */
  predicate NoDuplicates<S(==)>(s: seq<S>)
  {
    forall i, j :: 0 <= i < j < |s| ==> s[i] != s[j]
  }

  /**
   A notification loop over a subscriber list: every subscriber is called
   once, in list order, and all of them with the same argument.
   */
  function CallsFor<S, X>(subs: seq<S>, arg: X): (r: seq<Call<S, X>>)
    ensures |r| == |subs|
    ensures forall i :: 0 <= i < |subs| ==> r[i] == Call(subs[i], arg)
  {
    if |subs| == 0 then []
    else CallsFor(subs[..|subs| - 1], arg) + [Call(subs[|subs| - 1], arg)]
  }

  /** A subscriber receives a call from the loop exactly when it is in the list. */
  lemma CallsForMembership<S, X>(subs: seq<S>, arg: X, c: Call<S, X>)
    ensures c in CallsFor(subs, arg) <==> c.subscriber in subs && c.arg == arg
  {
    var r := CallsFor(subs, arg);
    if c in r {
      var i :| 0 <= i < |r| && r[i] == c;
      assert subs[i] == c.subscriber;
    }
    if c.subscriber in subs && c.arg == arg {
      var i :| 0 <= i < |subs| && subs[i] == c.subscriber;
      assert r[i] == c;
    }
  }

  /**
   `Array.prototype.indexOf`: the position of the first occurrence, or -1
   when the element is absent.
   */
  function IndexOf<S(==)>(s: seq<S>, x: S): (r: int)
    ensures -1 <= r < |s|
    ensures r == -1 <==> x !in s
    ensures 0 <= r ==> s[r] == x && forall j :: 0 <= j < r ==> s[j] != x
  {
    if |s| == 0 then -1
    else if s[0] == x then 0
    else
      var rest := IndexOf(s[1..], x);
      if rest == -1 then -1 else rest + 1
  }

  /**
   `splice(start, 1)`: a negative start counts from the end (and is clamped
   to 0), a start past the end is clamped to the length, and the one element
   at the resulting position is removed if there is one.
   */
  function SpliceOne<S>(s: seq<S>, start: int): seq<S>
  {
    var at :=
      if start < 0 then (if |s| + start < 0 then 0 else |s| + start)
      else if start > |s| then |s|
      else start;
    if at < |s| then s[..at] + s[at + 1..] else s
  }

  /**
   The unsubscribe closure of both stores, `splice(indexOf(callback), 1)`.
   A present callback loses its first occurrence and the rest keep their
   order. An absent one makes `indexOf` give -1, so the LAST entry is
   removed instead (nothing, on an empty list).
   */
  function Remove<S(==)>(s: seq<S>, x: S): (r: seq<S>)
    ensures x in s ==>
      |r| == |s| - 1 && r == s[..IndexOf(s, x)] + s[IndexOf(s, x) + 1..]
    ensures x !in s ==> r == if |s| == 0 then [] else s[..|s| - 1]
  {
    var r := SpliceOne(s, IndexOf(s, x));
    assert x in s ==> s == s[..IndexOf(s, x)] + s[IndexOf(s, x)..IndexOf(s, x) + 1] + s[IndexOf(s, x) + 1..];
    assert x !in s && |s| > 0 ==> s == s[..|s| - 1] + [s[|s| - 1]];
    r
  }

  /** Dropping the entry at `i` from a list without duplicates. */
  lemma DropKeepsNoDuplicates<S>(s: seq<S>, i: int)
    requires NoDuplicates(s) && 0 <= i < |s|
    ensures NoDuplicates(s[..i] + s[i + 1..])
    ensures s[i] !in s[..i] + s[i + 1..]
  {
    var r := s[..i] + s[i + 1..];
    forall a, b | 0 <= a < b < |r| ensures r[a] != r[b] {
      var a' := if a < i then a else a + 1;
      var b' := if b < i then b else b + 1;
      assert r[a] == s[a'] && r[b] == s[b'];
    }
    forall k | 0 <= k < |r| ensures r[k] != s[i] {
      var k' := if k < i then k else k + 1;
      assert r[k] == s[k'];
    }
  }

  /**
   In a list without duplicates, removing a callback leaves a list without
   duplicates in which that callback no longer occurs.
   */
  lemma RemoveKeepsNoDuplicates<S>(s: seq<S>, x: S)
    requires NoDuplicates(s)
    ensures NoDuplicates(Remove(s, x))
    ensures x !in Remove(s, x)
  {
    if x in s {
      DropKeepsNoDuplicates(s, IndexOf(s, x));
    } else if |s| > 0 {
      var r := s[..|s| - 1];
      assert Remove(s, x) == r;
      assert forall k :: 0 <= k < |r| ==> r[k] == s[k];
    }
  }

  /**
   Calling the same unsubscribe closure twice: the second call finds the
   callback gone and removes the entry that was last in the list, a
   different subscriber.
   */
  lemma RemoveTwice<S>(s: seq<S>, x: S)
    requires NoDuplicates(s) && x in s && |s| >= 2
    ensures Remove(Remove(s, x), x) == Remove(s, x)[..|s| - 2]
    ensures |Remove(Remove(s, x), x)| == |s| - 2
    ensures Remove(s, x)[|s| - 2] != x
  {
    RemoveKeepsNoDuplicates(s, x);
  }
}

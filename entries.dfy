/**
 A JavaScript object seen as its list of entries: the pairs `Object.entries`
 gives and `Object.fromEntries` takes, in key order. The store builds every
 object it hands out from such lists: the computed values come from
 `Object.fromEntries`, and the spread `{ ...a, ...b }` keeps `a`'s keys and
 lets `b`'s entries overwrite them.
 */
module Entries {

  /** The keys of an entry list, in order (`Object.keys`). */
  function Names<X>(es: seq<(string, X)>): seq<string>
  {
    seq(|es|, i requires 0 <= i < |es| => es[i].0)
  }

  /** A list of entries that a real object can have: no key twice. */
  predicate UniqueKeys<X>(es: seq<(string, X)>)
  {
    forall i, j :: 0 <= i < j < |es| ==> es[i].0 != es[j].0
  }

  /** Entry `i` is the last one that names its key. */
  predicate LastFor<X>(es: seq<(string, X)>, i: int)
    requires 0 <= i < |es|
  {
    forall j :: i < j < |es| ==> es[j].0 != es[i].0
  }

  /**
   `Object.fromEntries`: the entries are written into an empty object one
   after the other, so a later entry overwrites an earlier one of the same key.
   */
  function FromEntries<X>(es: seq<(string, X)>): map<string, X>
  {
    if |es| == 0 then map[]
    else FromEntries(es[..|es| - 1])[es[|es| - 1].0 := es[|es| - 1].1]
  }

  /** The object built from a list has exactly the keys the list names. */
  lemma {:induction false} FromEntriesKeys<X>(es: seq<(string, X)>)
    ensures forall k :: k in FromEntries(es) <==> k in Names(es)
  {
    if |es| > 0 {
      FromEntriesKeys(es[..|es| - 1]);
      assert Names(es) == Names(es[..|es| - 1]) + [es[|es| - 1].0];
    }
  }

  /** A key that occurs more than once takes the value of its last entry. */
  lemma {:induction false} FromEntriesLast<X>(es: seq<(string, X)>, i: int)
    requires 0 <= i < |es| && LastFor(es, i)
    ensures es[i].0 in FromEntries(es) && FromEntries(es)[es[i].0] == es[i].1
  {
    if i < |es| - 1 {
      FromEntriesLast(es[..|es| - 1], i);
    }
  }

  /** With no key repeated, every entry's value ends up in the object. */
  lemma FromEntriesUnique<X>(es: seq<(string, X)>)
    requires UniqueKeys(es)
    ensures forall i :: 0 <= i < |es| ==> es[i].0 in FromEntries(es) && FromEntries(es)[es[i].0] == es[i].1
  {
    forall i | 0 <= i < |es|
      ensures es[i].0 in FromEntries(es) && FromEntries(es)[es[i].0] == es[i].1
    {
      FromEntriesLast(es, i);
    }
  }

  /**
   Building one object from two lists in a row is the same as spreading the
   object of the second list over the object of the first.
   */
  lemma {:induction false} FromEntriesAppend<X>(a: seq<(string, X)>, b: seq<(string, X)>)
    ensures FromEntries(a + b) == FromEntries(a) + FromEntries(b)
  {
    if |b| == 0 {
      assert a + b == a;
    } else {
      var b' := b[..|b| - 1];
      var e := b[|b| - 1];
      assert (a + b)[..|a + b| - 1] == a + b';
      FromEntriesAppend(a, b');
    }
  }

  /**
   `{ ...base, ...changes }`: the keys of `base` and of `changes`; a key in
   `changes` takes the value given there, every other key keeps its value.
   */
  function Spread<X>(base: map<string, X>, changes: seq<(string, X)>): (r: map<string, X>)
    ensures forall k :: k in r <==> k in base || k in Names(changes)
    ensures forall i :: 0 <= i < |changes| ==> changes[i].0 in r
    ensures forall k :: k in base && k !in Names(changes) ==> r[k] == base[k]
    ensures UniqueKeys(changes) ==>
      forall i :: 0 <= i < |changes| ==> r[changes[i].0] == changes[i].1
  {
    FromEntriesKeys(changes);
    assert forall i :: 0 <= i < |changes| ==> changes[i].0 == Names(changes)[i];
    assert UniqueKeys(changes) ==>
      forall i :: 0 <= i < |changes| ==> FromEntries(changes)[changes[i].0] == changes[i].1
    by {
      if UniqueKeys(changes) { FromEntriesUnique(changes); }
    }
    base + FromEntries(changes)
  }

  /** Two spreads in a row are one spread of the two change lists joined. */
  lemma SpreadTwice<X>(base: map<string, X>, first: seq<(string, X)>, second: seq<(string, X)>)
    ensures Spread(Spread(base, first), second) == Spread(base, first + second)
  {
    var a, b := FromEntries(first), FromEntries(second);
    assert (base + a) + b == base + (a + b);
    FromEntriesAppend(first, second);
  }
}

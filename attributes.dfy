/** The attribute object of an xml-js element: a JavaScript object whose
    properties are strings. It is kept as a list of key/value pairs in property
    order. For property names that are not array indices (all the names this
    library uses), that is how such an object behaves: assigning to an existing
    property replaces its value in place, assigning to a new one appends it,
    and `delete` takes one property out and leaves the others in order.
    JavaScript lists array-index names ("0", "12") first, in ascending order;
    that ordering is not modelled. */
module Attributes {
  import opened Outcomes

  /** The set of property names. */
  function KeysOf(a: seq<(string, string)>): set<string>
  {
    if |a| == 0 then {} else {a[0].0} + KeysOf(a[1..])
  }

  /** No property name occurs twice, as in any JavaScript object. */
  predicate UniqueKeys(a: seq<(string, string)>)
  {
    |a| == 0 || (a[0].0 !in KeysOf(a[1..]) && UniqueKeys(a[1..]))
  }

  type Attrs = a: seq<(string, string)> | UniqueKeys(a)

  /** Reading property `k` (`obj[k]`): its value, or None when it is absent. */
  function Lookup(a: Attrs, k: string): (r: Option<string>)
    ensures r.Some? <==> k in KeysOf(a)
  {
    if |a| == 0 then None
    else if a[0].0 == k then Some(a[0].1)
    else Lookup(a[1..], k)
  }

  /** Property assignment `obj[k] = v`. */
  function Set(a: Attrs, k: string, v: string): (r: Attrs)
    ensures KeysOf(r) == KeysOf(a) + {k}
    ensures |r| == if k in KeysOf(a) then |a| else |a| + 1
    ensures forall i :: 0 <= i < |a| ==> r[i].0 == a[i].0
    ensures k !in KeysOf(a) ==> r[|a|] == (k, v)
  {
    if |a| == 0 then
      assert [(k, v)][1..] == [];
      [(k, v)]
    else if a[0].0 == k then
      assert ([(k, v)] + a[1..])[1..] == a[1..];
      [(k, v)] + a[1..]
    else
      var rest := Set(a[1..], k, v);
      assert ([a[0]] + rest)[1..] == rest;
      [a[0]] + rest
  }

  /** `delete obj[k]`: the pair named k is taken out and the other pairs keep
      their order (RemoveInOrder); without such a pair the object is unchanged. */
  function Remove(a: Attrs, k: string): (r: Attrs)
    ensures KeysOf(r) == KeysOf(a) - {k}
    ensures |r| == if k in KeysOf(a) then |a| - 1 else |a|
    ensures k !in KeysOf(a) ==> r == a
  {
    if |a| == 0 then []
    else if a[0].0 == k then a[1..]
    else
      var rest := Remove(a[1..], k);
      assert ([a[0]] + rest)[1..] == rest;
      [a[0]] + rest
  }

  /** What `delete obj[k]` leaves of an object holding k: the pairs before
      k's pair and the pairs after it, each in their order. */
  lemma {:induction false} RemoveInOrder(a: Attrs, k: string)
    requires k in KeysOf(a)
    ensures exists j :: 0 <= j < |a| && a[j].0 == k && Remove(a, k) == a[..j] + a[j + 1..]
  {
    if a[0].0 == k {
      assert a[..0] + a[1..] == a[1..];
    } else {
      RemoveInOrder(a[1..], k);
      var j :| 0 <= j < |a| - 1 && a[1..][j].0 == k && Remove(a[1..], k) == a[1..][..j] + a[1..][j + 1..];
      assert Remove(a, k) == [a[0]] + Remove(a[1..], k);
      PrependAround(a, j, Remove(a[1..], k));
      assert a[j + 1].0 == k;
    }
  }

  /** Putting the head back in front of a tail with its j-th pair taken out
      gives the whole list with its (j+1)-th pair taken out. */
  lemma PrependAround(a: seq<(string, string)>, j: nat, rest: seq<(string, string)>)
    requires j < |a| - 1
    requires rest == a[1..][..j] + a[1..][j + 1..]
    ensures [a[0]] + rest == a[..j + 1] + a[j + 2..]
  {
    assert [a[0]] + a[1..][..j] == a[..j + 1];
    assert a[1..][j + 1..] == a[j + 2..];
  }

  /** After `obj[k] = v`, property k reads v and every other property reads as before. */
  lemma {:induction false} LookupSet(a: Attrs, k: string, v: string)
    ensures forall k' :: Lookup(Set(a, k, v), k') == if k' == k then Some(v) else Lookup(a, k')
  {
    if |a| > 0 && a[0].0 != k {
      LookupSet(a[1..], k, v);
    }
  }

  /** After `delete obj[k]`, property k is absent and every other property reads as before. */
  lemma {:induction false} LookupRemove(a: Attrs, k: string)
    ensures forall k' :: Lookup(Remove(a, k), k') == if k' == k then None else Lookup(a, k')
  {
    if |a| > 0 && a[0].0 != k {
      LookupRemove(a[1..], k);
    }
  }

  /** Assigning a property the value it already has changes nothing. */
  lemma {:induction false} SetSameValue(a: Attrs, k: string, v: string)
    requires Lookup(a, k) == Some(v)
    ensures Set(a, k, v) == a
  {
    if a[0].0 != k {
      SetSameValue(a[1..], k, v);
    }
  }

  /** Deleting a property just assigned undoes the assignment: what is left is
      the object with that property deleted (the object itself when it lacked it). */
  lemma {:induction false} RemoveSet(a: Attrs, k: string, v: string)
    ensures Remove(Set(a, k, v), k) == Remove(a, k)
    ensures k !in KeysOf(a) ==> Remove(a, k) == a
  {
    if |a| > 0 && a[0].0 != k {
      RemoveSet(a[1..], k, v);
    }
  }
}

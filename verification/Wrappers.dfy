/** What may be missing, and what is done to lists whose entries have numbers. */
module Wrappers {
  datatype Option<+T> = None | Some(value: T)

  function Min(a: nat, b: nat): nat { if a < b then a else b }

  /** `retain`: the entries that do not have the number. */
  function Without<T(!new)>(list: seq<T>, number: T -> nat, n: nat): (r: seq<T>)
    ensures forall e :: e in r <==> e in list && number(e) != n
    decreases |list|
  {
    if list == [] then []
    else if number(list[0]) == n then Without(list[1..], number, n)
    else [list[0]] + Without(list[1..], number, n)
  }

  lemma WithoutNext<T(!new)>(list: seq<T>, number: T -> nat, n: nat, k: nat)
    requires k < |list|
    ensures Without(list[k..], number, n)
            == (if number(list[k]) == n then [] else [list[k]]) + Without(list[k + 1..], number, n)
  {
    assert list[k..][1..] == list[k + 1..];
    assert [] + Without(list[k + 1..], number, n) == Without(list[k + 1..], number, n);
  }

  /** No two entries have one number. */
  predicate Distinct<T(!new)>(list: seq<T>, number: T -> nat)
  {
    forall i, j :: 0 <= i < j < |list| ==> number(list[i]) != number(list[j])
  }

  lemma {:induction false} WithoutDistinct<T(!new)>(list: seq<T>, number: T -> nat, n: nat)
    requires Distinct(list, number)
    ensures Distinct(Without(list, number, n), number)
    decreases |list|
  {
    if list == [] {
    } else {
      WithoutDistinct(list[1..], number, n);
      var rest := Without(list[1..], number, n);
      forall j | 0 <= j < |rest| ensures number(rest[j]) != number(list[0]) {
        assert rest[j] in list[1..];
      }
      if number(list[0]) == n {
        assert Without(list, number, n) == rest;
      } else {
        assert Without(list, number, n) == [list[0]] + rest;
      }
    }
  }
}

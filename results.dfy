module Results {
  datatype Option<T> = None | Some(value: T)

  datatype Result<T, E> = Ok(value: T) | Fail(error: E)

  /** `acc` followed by the list in `r`, or the error of `r`. */
  function Prepend<T, E>(acc: seq<T>, r: Result<seq<T>, E>): (p: Result<seq<T>, E>)
    ensures p.Ok? <==> r.Ok?
    ensures p.Ok? ==> |p.value| == |acc| + |r.value|
  {
    match r
    case Ok(v) => Ok(acc + v)
    case Fail(e) => Fail(e)
  }

  lemma PrependAssoc<T, E>(a: seq<T>, b: seq<T>, r: Result<seq<T>, E>)
    ensures Prepend(a, Prepend(b, r)) == Prepend(a + b, r)
  {
    if r.Ok? {
      assert a + (b + r.value) == (a + b) + r.value;
    }
  }

  lemma PrependNothing<T, E>(acc: seq<T>, r: Result<seq<T>, E>)
    ensures Prepend([], r) == r
    ensures Prepend<T, E>(acc, Ok([])) == Ok(acc)
  {
    if r.Ok? {
      assert [] + r.value == r.value;
    }
    assert acc + [] == acc;
  }
}

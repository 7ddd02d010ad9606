// Vocabulary shared by the models: optional values, results with a reason, a partial map over a
// sequence that fails as soon as one element fails, and two facts about collections.
module Prelude {

  datatype Option<+T> = None | Some(value: T)

  datatype Result<+T, +E> = Success(value: T) | Failure(reason: E) {
    predicate IsFailure() {
      Failure?
    }

    function PropagateFailure<U>(): Result<U, E>
      requires Failure?
    {
      Failure(reason)
    }

    function Extract(): T
      requires Success?
    {
      value
    }
  }

  /** Both succeed with one value, or both fail. Which failure is met first may differ. */
  ghost predicate Agree<T, E>(a: Result<T, E>, b: Result<T, E>) {
    a.Success? == b.Success? && (a.Success? ==> a.value == b.value)
  }

  /** Apply `f` to every element in order; the first failure is the result. */
  function Traverse<T, U, E>(f: T -> Result<U, E>, xs: seq<T>): (r: Result<seq<U>, E>)
    ensures r.Success? <==> forall i :: 0 <= i < |xs| ==> f(xs[i]).Success?
    ensures r.Success? ==> |r.value| == |xs|
    ensures r.Success? ==> forall i :: 0 <= i < |xs| ==> r.value[i] == f(xs[i]).value
  {
    if xs == [] then Success([]) else
      var head :- f(xs[0]);
      var tail :- Traverse(f, xs[1..]);
      Success([head] + tail)
  }

  lemma Associates<T>(a: seq<T>, b: seq<T>, c: seq<T>)
    ensures a + b + c == a + (b + c)
  {
  }

  lemma SubsetIsSmaller<T>(a: set<T>, b: set<T>)
    requires a <= b
    ensures |a| <= |b|
  {
    if a != {} {
      var x :| x in a;
      SubsetIsSmaller(a - {x}, b - {x});
    }
  }
}

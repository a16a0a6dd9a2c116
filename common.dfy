/**
 * Optional values and the outcome of a call that may raise, shared by every
 * other module.
 */
module Common {

  datatype Option<+T> = None | Some(value: T)

  /**
   * The outcome of a Python call that either returns a value or raises an
   * exception; `message` is what `str(e)` gives for the exception.
   * Failure-compatible, so `:-` propagates a raise the way Python does.
   */
  datatype Reply<+T> = Ok(value: T) | Raised(message: string) {
    predicate IsFailure() {
      Raised?
    }

    function PropagateFailure<U>(): Reply<U>
      requires Raised?
    {
      Raised(message)
    }

    function Extract(): T
      requires Ok?
    {
      value
    }
  }

  /** Applies `f` to each element in order, the way a loop or comprehension does; the first raise stops it. */
  function MapReply<A, B>(f: A -> Reply<B>, xs: seq<A>): (r: Reply<seq<B>>)
    ensures r.Ok? <==> forall i :: 0 <= i < |xs| ==> f(xs[i]).Ok?
    ensures r.Ok? ==> |r.value| == |xs| && forall i :: 0 <= i < |xs| ==> r.value[i] == f(xs[i]).value
    decreases |xs|
  {
    if xs == [] then Ok([])
    else
      var init := xs[..|xs| - 1];
      var earlier :- MapReply(f, init);
      var last :- f(xs[|xs| - 1]);
      assert forall i :: 0 <= i < |init| ==> xs[i] == init[i];
      Ok(earlier + [last])
  }

  /** Once a prefix raises, the whole walk raises with the same error. */
  lemma {:induction false} MapReplyRaiseSticks<A, B>(f: A -> Reply<B>, xs: seq<A>, j: nat)
    requires j <= |xs|
    requires MapReply(f, xs[..j]).Raised?
    ensures MapReply(f, xs) == MapReply(f, xs[..j])
    decreases |xs|
  {
    if j < |xs| {
      var init := xs[..|xs| - 1];
      assert init[..j] == xs[..j];
      MapReplyRaiseSticks(f, init, j);
    } else {
      assert xs[..j] == xs;
    }
  }

  /** Walking one more element that succeeds appends its value. */
  lemma MapReplyStep<A, B>(f: A -> Reply<B>, xs: seq<A>, i: nat, ys: seq<B>, y: B)
    requires i < |xs| && MapReply(f, xs[..i]) == Ok(ys) && f(xs[i]) == Ok(y)
    ensures MapReply(f, xs[..i + 1]) == Ok(ys + [y])
  {
    assert xs[..i + 1][..i] == xs[..i];
  }

  /** `[] + [a] + [b]` is the display `[a, b]`; the same for three elements below. */
  lemma DisplayOfTwo<T>(a: T, b: T)
    ensures [] + [a] + [b] == [a, b]
  {
  }

  lemma DisplayOfThree<T>(a: T, b: T, c: T)
    ensures [] + [a] + [b] + [c] == [a, b, c]
  {
  }

  /**
   * The loop behind MapReply: append `f(x)` for each `x` in order, and stop
   * at the first raise.
   */
  method MapEach<A, B>(f: A -> Reply<B>, xs: seq<A>) returns (r: Reply<seq<B>>)
    ensures r == MapReply(f, xs)
  {
    var ys: seq<B> := [];
    var i := 0;
    while i < |xs|
      invariant 0 <= i <= |xs|
      invariant MapReply(f, xs[..i]) == Ok(ys)
    {
      var y := f(xs[i]);
      if y.Raised? {
        assert xs[..i + 1][..i] == xs[..i];
        MapReplyRaiseSticks(f, xs, i + 1);
        return Raised(y.message);
      }
      MapReplyStep(f, xs, i, ys, y.value);
      ys := ys + [y.value];
      i := i + 1;
    }
    assert xs[..i] == xs;
    r := Ok(ys);
  }
}

/** Python-level outcomes shared by every part of the model: an optional value,
    the exceptions the pipeline raises or swallows, and a fetch from the network. */
module Python {

  /** `None` or a value. */
  datatype Option<+T> = None | Some(value: T)

  /** The exceptions that can occur inside the pipeline's `try` blocks. */
  datatype Exc =
    | TypeError        // subscripting or iterating a value of the wrong type
    | KeyError         // a dictionary lookup of a missing key
    | AttributeError   // `.text` on the `None` that a failed `find` returned
    | JsonDecodeError  // `json.loads` on text that is not JSON
    | FetchError       // raise_for_status, transport failure or retries exhausted

  /** The value of an expression, or the exception its evaluation raised. */
  datatype Result<+T> = Ok(value: T) | Raised(exc: Exc)

  /** One HTTP GET as seen by its caller: the response text, or a raised error. */
  datatype FetchOutcome = Fetched(text: string) | FetchFailed

  /** `[f(x) for x in xs]`. */
  function Map<A, B>(f: A -> B, xs: seq<A>): (ys: seq<B>)
    ensures |ys| == |xs|
  {
    if xs == [] then [] else Map(f, xs[..|xs| - 1]) + [f(xs[|xs| - 1])]
  }

  /** Element `k` of the mapped list is `f` of element `k`. */
  lemma {:induction false} MapAt<A, B>(f: A -> B, xs: seq<A>, k: nat)
    requires k < |xs|
    ensures Map(f, xs)[k] == f(xs[k])
  {
    var init := xs[..|xs| - 1];
    if k < |init| {
      MapAt(f, init, k);
    }
  }

  /** Mapping a concatenation maps each part. */
  lemma {:induction false} MapAppend<A, B>(f: A -> B, xs: seq<A>, ys: seq<A>)
    ensures Map(f, xs + ys) == Map(f, xs) + Map(f, ys)
    decreases |ys|
  {
    if ys == [] {
      assert xs + ys == xs;
    } else {
      var init := ys[..|ys| - 1];
      assert (xs + ys)[..|xs + ys| - 1] == xs + init;
      MapAppend(f, xs, init);
    }
  }
}

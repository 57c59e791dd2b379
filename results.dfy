/** Result types standing for the loader's `std::expected` returns, and the
    fail-fast collection that the loader's option loops perform: run the checks
    in order, keep every value, and stop at the first failure. */
module Results {

  datatype Option<+T> = None | Some(value: T)

  /** `std::expected<T, E>`: a value or an error. */
  datatype Result<+T, +E> = Ok(value: T) | Err(error: E)

  /** `std::expected<void, E>`: success without a value, or an error. */
  datatype Outcome<+E> = Pass | Fail(error: E)

  /** The result of running the checks `rs` in order, stopping at the first one
      that fails: either every value, in order, or the first error. */
  function Collect<T, E>(rs: seq<Result<T, E>>): Result<seq<T>, E>
  {
    if rs == [] then Ok([])
    else
      var last := rs[|rs| - 1];
      match Collect(rs[..|rs| - 1])
      case Err(e) => Err(e)
      case Ok(vs) => if last.Err? then Err(last.error) else Ok(vs + [last.value])
  }

  /** Collecting succeeds exactly when every check succeeds, and then it keeps
      every value at its position. */
  lemma {:induction false} CollectOk<T, E>(rs: seq<Result<T, E>>)
    ensures Collect(rs).Ok? <==> forall i :: 0 <= i < |rs| ==> rs[i].Ok?
    ensures Collect(rs).Ok? ==>
              |Collect(rs).value| == |rs| &&
              forall i :: 0 <= i < |rs| ==> Collect(rs).value[i] == rs[i].value
  {
    if rs != [] {
      var front := rs[..|rs| - 1];
      CollectOk(front);
      assert forall i :: 0 <= i < |front| ==> front[i] == rs[i];
    }
  }

  /** When check `k` is the first one that fails, collecting reports its error. */
  lemma {:induction false} CollectFirstError<T, E>(rs: seq<Result<T, E>>, k: nat)
    requires k < |rs| && rs[k].Err?
    requires forall j :: 0 <= j < k ==> rs[j].Ok?
    ensures Collect(rs) == Err(rs[k].error)
  {
    var front := rs[..|rs| - 1];
    if k < |rs| - 1 {
      assert front[k] == rs[k];
      CollectFirstError(front, k);
    } else {
      CollectOk(front);
    }
  }

  /** One more successful check extends the collected prefix by its value. */
  lemma CollectExtend<T, E>(rs: seq<Result<T, E>>, i: nat, vs: seq<T>)
    requires i < |rs| && rs[i].Ok?
    requires Collect(rs[..i]) == Ok(vs)
    ensures Collect(rs[..i + 1]) == Ok(vs + [rs[i].value])
  {
    assert rs[..i + 1][..i] == rs[..i];
  }
}

/** Option and Result, and the collection of a sequence of results into one. */
module Wrappers {

  datatype Option<T> = None | Some(value: T)

  datatype Result<T, E> = Ok(value: T) | Err(error: E)

  /** Collects a sequence of results: the values of all of them when every one
      succeeded, otherwise the error of the first one that failed. */
  function AllOk<T, E>(rs: seq<Result<T, E>>): (r: Result<seq<T>, E>)
    ensures r.Ok? <==> forall i :: 0 <= i < |rs| ==> rs[i].Ok?
    ensures r.Ok? ==> |r.value| == |rs| && forall i :: 0 <= i < |rs| ==> rs[i] == Ok(r.value[i])
    ensures r.Err? ==>
      exists i :: 0 <= i < |rs| && rs[i] == Err(r.error) && forall j :: 0 <= j < i ==> rs[j].Ok?
  {
    if |rs| == 0 then Ok([])
    else
      var init := rs[..|rs| - 1];
      assert forall j :: 0 <= j < |init| ==> init[j] == rs[j];
      match AllOk(init)
      case Err(e) => Err(e)
      case Ok(vs) =>
        match rs[|rs| - 1]
        case Err(e) => Err(e)
        case Ok(v) =>
          assert forall j :: 0 <= j < |rs| ==> rs[j] == Ok((vs + [v])[j]);
          Ok(vs + [v])
  }

  /** When result i is the first failure, the collection fails with its error. */
  lemma AllOkFirstFailure<T, E>(rs: seq<Result<T, E>>, i: nat)
    requires i < |rs| && rs[i].Err?
    requires forall j :: 0 <= j < i ==> rs[j].Ok?
    ensures AllOk(rs) == Err(rs[i].error)
  {
    var r := AllOk(rs);
    assert r.Err?;
    var k :| 0 <= k < |rs| && rs[k] == Err(r.error) && forall j :: 0 <= j < k ==> rs[j].Ok?;
    assert k == i;
  }

  /** Collecting one more successful result extends the collected prefix by its value. */
  lemma AllOkExtend<T, E>(rs: seq<Result<T, E>>, i: nat, vs: seq<T>, v: T)
    requires i < |rs|
    requires AllOk(rs[..i]) == Ok(vs)
    requires rs[i] == Ok(v)
    ensures AllOk(rs[..i + 1]) == Ok(vs + [v])
  {
    var next := rs[..i + 1];
    assert next[..|next| - 1] == rs[..i];
    assert next[|next| - 1] == rs[i];
  }

  /** When every result before i succeeded and result i failed, the whole
      collection fails with the error of result i. */
  lemma AllOkPrefixThenFailure<T, E>(rs: seq<Result<T, E>>, i: nat)
    requires i < |rs| && rs[i].Err?
    requires AllOk(rs[..i]).Ok?
    ensures AllOk(rs) == Err(rs[i].error)
  {
    var init := rs[..i];
    assert forall j :: 0 <= j < i ==> init[j] == rs[j];
    AllOkFirstFailure(rs, i);
  }
}

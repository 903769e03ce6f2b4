/** Option and Result, the failure-carrying values the rest of the model returns
    where the adapter would return `None` or raise. */
module Wrappers {

  datatype Option<+T> = None | Some(value: T)

  datatype Result<+R, +E> = Success(value: R) | Failure(error: E)

  /** Runs a list of steps in order: the first failure is the answer,
      otherwise the list of all their values. */
  function Collect<R, E>(rs: seq<Result<R, E>>): (r: Result<seq<R>, E>)
    ensures r.Success? <==> forall i :: 0 <= i < |rs| ==> rs[i].Success?
    ensures r.Success? ==> |r.value| == |rs|
    ensures r.Success? ==> forall i :: 0 <= i < |rs| ==> rs[i] == Success(r.value[i])
    ensures r.Failure? ==> exists i :: 0 <= i < |rs| && rs[i] == Failure(r.error)
  {
    if |rs| == 0 then Success([])
    else
      match rs[0]
      case Failure(e) => Failure(e)
      case Success(v) =>
        match Collect(rs[1..])
        case Failure(e) => assert rs[1..][0] == rs[1]; Failure(e)
        case Success(vs) => Success([v] + vs)
  }

  /** Collecting two lists one after the other is collecting their
      concatenation. */
  lemma CollectAppend<R, E>(a: seq<Result<R, E>>, b: seq<Result<R, E>>)
    ensures var ra := Collect(a); var rb := Collect(b); var rab := Collect(a + b);
      && (rab.Success? <==> ra.Success? && rb.Success?)
      && (rab.Success? ==> rab.value == ra.value + rb.value)
  {
    var ra := Collect(a);
    var rb := Collect(b);
    var rab := Collect(a + b);
    if rab.Success? {
      forall i | 0 <= i < |a| ensures a[i].Success? {
        assert (a + b)[i] == a[i];
      }
      forall i | 0 <= i < |b| ensures b[i].Success? {
        assert (a + b)[|a| + i] == b[i];
      }
      assert ra.Success? && rb.Success?;
    }
    if ra.Success? && rb.Success? {
      forall i | 0 <= i < |a + b| ensures (a + b)[i] == Success((ra.value + rb.value)[i]) {
        if i < |a| {
          assert (a + b)[i] == a[i];
        } else {
          assert (a + b)[i] == b[i - |a|];
        }
      }
      assert rab.Success?;
      assert rab.value == ra.value + rb.value;
    }
  }
}

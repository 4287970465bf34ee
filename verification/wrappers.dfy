/** Option and Result: the model's stand-ins for Python's `None` and for raised exceptions. */
module Wrappers {

  datatype Option<+T> = None | Some(value: T) {

    function GetOr(default: T): T {
      match this
      case Some(v) => v
      case None => default
    }
  }

  datatype Result<+T, +E> = Ok(value: T) | Err(error: E)

  /** All the values, in order, or `None` if any of them is missing. */
  function Collect<T>(rs: seq<Option<T>>): (r: Option<seq<T>>)
    ensures r.Some? <==> forall i :: 0 <= i < |rs| ==> rs[i].Some?
    ensures r.Some? ==> |r.value| == |rs| && forall i :: 0 <= i < |rs| ==> r.value[i] == rs[i].value
  {
    if |rs| == 0 then Some([])
    else
      var prefix := rs[..|rs| - 1];
      assert forall i :: 0 <= i < |prefix| ==> prefix[i] == rs[i];
      var init := Collect(prefix);
      var last := rs[|rs| - 1];
      if init.None? then
        assert exists i :: 0 <= i < |prefix| && prefix[i].None?;
        None
      else if last.None? then None
      else Some(init.value + [last.value])
  }

  /** `Collect` of present values is those values. */
  lemma CollectAllSome<T>(rs: seq<Option<T>>, vs: seq<T>)
    requires |vs| == |rs| && forall i :: 0 <= i < |rs| ==> rs[i] == Some(vs[i])
    ensures Collect(rs) == Some(vs)
  {
    var r := Collect(rs);
    assert r.value == vs;
  }

  /** Values read so far from the present prefix of `rs`, extended by the next one. */
  lemma ExtendPresent<T>(rs: seq<Option<T>>, vs: seq<T>, v: T)
    requires |vs| < |rs| && rs[|vs|] == Some(v)
    requires forall j :: 0 <= j < |vs| ==> rs[j] == Some(vs[j])
    ensures forall j :: 0 <= j < |vs| + 1 ==> rs[j] == Some((vs + [v])[j])
  {
  }

  /** The first present value, if any. */
  function FirstSome<T>(rs: seq<Option<T>>): Option<T> {
    if |rs| == 0 then None
    else if rs[0].Some? then rs[0]
    else FirstSome(rs[1..])
  }

  /** `FirstSome` finds the value at the first present position, and is absent iff none is. */
  lemma {:induction false} FirstSomeIsFirst<T>(rs: seq<Option<T>>)
    ensures FirstSome(rs).Some? <==> exists k :: 0 <= k < |rs| && rs[k].Some?
    ensures FirstSome(rs).Some? ==> exists k :: 0 <= k < |rs| && FirstSome(rs) == rs[k]
    ensures forall k :: 0 <= k < |rs| && rs[k].Some? && (forall j :: 0 <= j < k ==> rs[j].None?)
                        ==> FirstSome(rs) == rs[k]
  {
    if |rs| > 0 {
      var rest := rs[1..];
      FirstSomeIsFirst(rest);
      assert forall k :: 1 <= k < |rs| ==> rs[k] == rest[k - 1];
      if FirstSome(rest).Some? && rs[0].None? {
        var k :| 0 <= k < |rest| && FirstSome(rest) == rest[k];
        assert FirstSome(rs) == rs[k + 1];
      }
      if exists k :: 0 <= k < |rest| && rest[k].Some? {
        var k :| 0 <= k < |rest| && rest[k].Some?;
        assert rs[k + 1].Some?;
      }
    }
  }
}

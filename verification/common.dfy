/** Definitions shared by every module. */
module Common {
  datatype Option<+T> = None | Some(value: T)

  function Abs(x: real): real {
    if x < 0.0 then -x else x
  }

  predicate Distinct(s: seq<int>) {
    forall i, j :: 0 <= i < j < |s| ==> s[i] != s[j]
  }
}

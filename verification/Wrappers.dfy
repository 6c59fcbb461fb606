/** The optional value used wherever the program writes `undefined`. */
module Wrappers {
  datatype Option<+T> = None | Some(value: T)
  {
    function GetOr(default: T): T {
      match this
      case Some(v) => v
      case None => default
    }
  }

  datatype Result<+T> = Ok(value: T) | Failed

  function Min(a: int, b: int): int { if a <= b then a else b }

  function Max(a: int, b: int): int { if a <= b then b else a }

  lemma HasMinimum(s: set<int>)
    requires exists x :: x in s
    ensures exists m :: m in s && forall x | x in s :: m <= x
  {
    var e :| e in s;
    var rest := s - {e};
    if x :| x in rest {
      HasMinimum(rest);
      var m :| m in rest && forall x | x in rest :: m <= x;
      var least := if m <= e then m else e;
      assert forall x | x in s :: x == e || x in rest;
      assert least in s;
    } else {
      assert forall y | y in s :: y == e || y in rest;
    }
  }

  function Minimum(s: set<int>): (m: int)
    requires exists x :: x in s
    ensures m in s && forall x | x in s :: m <= x
  {
    HasMinimum(s);
    var m :| m in s && forall x | x in s :: m <= x;
    m
  }

  lemma ConcatAssociates<T>(a: seq<T>, b: seq<T>, c: seq<T>)
    ensures a + (b + c) == (a + b) + c
  {}

  /** A stretch is its first element and the rest of it. */
  lemma StretchStarts<T>(s: seq<T>, i: nat, e: nat)
    requires i < e <= |s|
    ensures s[i..e] == [s[i]] + s[i + 1..e]
  {}
}

/**
 * Either.java with its two implementations Left.java and Right.java: a value of
 * one of two types, Left conventionally a failure and Right a success. `Fold`
 * is the only primitive; every other query is written through it.
 */
module Eithers {
  import opened Nullable

  datatype Either<L, R> = Left(left: L) | Right(right: R)
  {
    /** Applies `ifLeft` to a Left's value or `ifRight` to a Right's value. */
    function Fold<B>(ifLeft: L -> B, ifRight: R -> B): (b: B)
      ensures Left? ==> b == ifLeft(left)
      ensures Right? ==> b == ifRight(right)
    {
      match this
      case Left(l) => ifLeft(l)
      case Right(r) => ifRight(r)
    }

    function IsLeft(): (b: bool)
      ensures b <==> Left?
    {
      Fold(l => true, r => false)
    }

    function IsRight(): (b: bool)
      ensures b <==> Right?
    {
      Fold(l => false, r => true)
    }

    /** The Left value, or null on a Right. */
    function LeftOrNull(): (o: Option<L>)
      ensures o.Some? <==> IsLeft()
      ensures o.Some? ==> this == Left(o.value)
    {
      Fold(l => Some(l), r => None)
    }

    /** The Right value, or null on a Left. */
    function RightOrNull(): (o: Option<R>)
      ensures o.Some? <==> IsRight()
      ensures o.Some? ==> this == Right(o.value)
    {
      Fold(l => None, r => Some(r))
    }

    /** `ifLeft` applied to a Left's value, or null on a Right. */
    function FoldLeft<B>(ifLeft: L -> B): (o: Option<B>)
      ensures o.Some? <==> IsLeft()
      ensures IsLeft() ==> o == Some(ifLeft(LeftOrNull().value))
    {
      Fold(l => Some(ifLeft(l)), r => None)
    }

    /** `ifRight` applied to a Right's value, or null on a Left. */
    function FoldRight<B>(ifRight: R -> B): (o: Option<B>)
      ensures o.Some? <==> IsRight()
      ensures IsRight() ==> o == Some(ifRight(RightOrNull().value))
    {
      Fold(l => None, r => Some(ifRight(r)))
    }

    /** `Left.getValue()`: only a Left has it. */
    function LeftValue(): (v: L)
      requires Left?
      ensures this == Left(v)
    {
      left
    }

    /** `Right.getValue()`: only a Right has it. */
    function RightValue(): (v: R)
      requires Right?
      ensures this == Right(v)
    {
      right
    }
  }

  /** `Either.left(value)`. */
  function MakeLeft<L, R>(value: L): (e: Either<L, R>)
    ensures e.IsLeft() && !e.IsRight()
    ensures e.LeftOrNull() == Some(value) && e.RightOrNull() == None
  {
    Left(value)
  }

  /** `Either.right(value)`. */
  function MakeRight<L, R>(value: R): (e: Either<L, R>)
    ensures e.IsRight() && !e.IsLeft()
    ensures e.RightOrNull() == Some(value) && e.LeftOrNull() == None
  {
    Right(value)
  }

  /** Every value is exactly one of the two variants, as seen through `Fold`. */
  lemma IsLeftIsNotRight<L, R>(e: Either<L, R>)
    ensures e.IsLeft() != e.IsRight()
  {
  }

  /** `Fold` on a Left never consults `ifRight`, and on a Right never consults `ifLeft`. */
  lemma FoldUsesOneBranch<L, R, B>(e: Either<L, R>, f: L -> B, f': L -> B, g: R -> B, g': R -> B)
    ensures e.IsLeft() ==> e.Fold(f, g) == e.Fold(f, g') == f(e.LeftValue())
    ensures e.IsRight() ==> e.Fold(f, g) == e.Fold(f', g) == g(e.RightValue())
  {
  }

  /**
   * `Left.equals` / `Right.equals`: the other object is of the same variant and
   * holds an equal value (`Objects.equals`).
   */
  function Equals<L(==), R(==)>(e: Either<L, R>, o: Either<L, R>): (b: bool)
    ensures b <==> e == o
    ensures e.Left? && o.Right? ==> !b
    ensures e.Right? && o.Left? ==> !b
  {
    match e
    case Left(v) => o.Left? && o.left == v
    case Right(v) => o.Right? && o.right == v
  }

  /** `hashCode` is the hash of the stored value (`Objects.hashCode`). */
  function HashCode<L, R>(e: Either<L, R>, hashLeft: L -> int, hashRight: R -> int): (h: int)
    ensures e.Left? ==> h == hashLeft(e.left)
    ensures e.Right? ==> h == hashRight(e.right)
  {
    match e
    case Left(v) => hashLeft(v)
    case Right(v) => hashRight(v)
  }

  /** `hashCode` is consistent with `equals`. */
  lemma EqualsImpliesEqualHash<L, R>(a: Either<L, R>, b: Either<L, R>, hashLeft: L -> int, hashRight: R -> int)
    requires Equals(a, b)
    ensures HashCode(a, hashLeft, hashRight) == HashCode(b, hashLeft, hashRight)
  {
  }

  /** `toString`: "Left(" + value + ")" or "Right(" + value + ")", `show` rendering the value. */
  function ToString<L, R>(e: Either<L, R>, showLeft: L -> string, showRight: R -> string): (s: string)
    ensures e.Left? ==> |s| >= 6 && s[..5] == "Left(" && s[5..|s| - 1] == showLeft(e.left)
    ensures e.Right? ==> |s| >= 7 && s[..6] == "Right(" && s[6..|s| - 1] == showRight(e.right)
    ensures s[|s| - 1] == ')'
  {
    match e
    case Left(v) => "Left(" + showLeft(v) + ")"
    case Right(v) => "Right(" + showRight(v) + ")"
  }

  /** The printed form always tells the variants apart. */
  lemma ToStringTellsVariantsApart<L, R>(a: L, b: R, showLeft: L -> string, showRight: R -> string)
    ensures ToString(Left(a), showLeft, showRight) != ToString(Right(b), showLeft, showRight)
  {
    var sl := ToString(Left(a), showLeft, showRight);
    var sr := ToString(Right(b), showLeft, showRight);
    assert sl[0] == 'L' && sr[0] == 'R';
  }
}

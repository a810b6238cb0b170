/** Reading one fact back from a history of marks. */
module History {

  /** What one event does to the fact: makes it true afresh, ends it, or leaves it. */
  datatype Mark = Sets | Clears | Keeps

  /** The event that last made the fact true, if nothing ended it before `n`; otherwise -1. */
  function LastSet(marks: seq<Mark>, n: nat): (j: int)
    requires n <= |marks|
    ensures -1 <= j < n
  {
    if n == 0 then -1
    else match marks[n - 1]
      case Sets => n - 1
      case Clears => -1
      case Keeps => LastSet(marks, n - 1)
  }

  lemma {:induction false} LastSetMeaning(marks: seq<Mark>, n: nat, j: nat)
    requires n <= |marks|
    ensures LastSet(marks, n) == j <==> j < n && marks[j] == Sets && forall m :: j < m < n ==> marks[m] == Keeps
    decreases n
  {
    if n > 0 {
      LastSetMeaning(marks, n - 1, j);
    }
  }
}

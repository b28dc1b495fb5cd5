/**
 * Rows of on/off marks, as the site renders them: one flag per image, per
 * indicator dot or per navigation link, saying whether that element is the
 * highlighted one.
 */
module Marks {

  /** The number of marks that are on. */
  function CountTrue(s: seq<bool>): (c: nat)
    ensures c <= |s|
    ensures c == 0 <==> forall j :: 0 <= j < |s| ==> !s[j]
  {
    if s == [] then 0 else (if s[0] then 1 else 0) + CountTrue(s[1..])
  }

  /** Exactly the mark at index i is on. */
  ghost predicate OnlyAt(s: seq<bool>, i: nat)
  {
    i < |s| && forall j :: 0 <= j < |s| ==> (s[j] <==> j == i)
  }

  /** A row in which exactly one mark is on has exactly one mark on. */
  lemma {:induction false} OnlyAtCountsOne(s: seq<bool>, i: nat)
    requires OnlyAt(s, i)
    ensures CountTrue(s) == 1
  {
    if i == 0 {
      assert forall j :: 0 <= j < |s[1..]| ==> !s[1..][j] by {
        forall j | 0 <= j < |s[1..]| ensures !s[1..][j] {
          assert s[1..][j] == s[j + 1];
        }
      }
    } else {
      assert OnlyAt(s[1..], i - 1) by {
        forall j | 0 <= j < |s[1..]| ensures s[1..][j] <==> j == i - 1 {
          assert s[1..][j] == s[j + 1];
        }
      }
      OnlyAtCountsOne(s[1..], i - 1);
    }
  }

}

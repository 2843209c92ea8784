/** Bytes and words as integers, and the white space that the text formats strip. */
module Basics {
  type Byte = x: int | 0 <= x < 256
  type Word = x: int | 0 <= x < 65536

  predicate Space(c: char) { c in " \t\n\r" || c as int == 11 || c as int == 12 }

  /** Trailing white space removed. */
  function Chomp(s: string): (t: string)
    ensures t <= s && (t != "" ==> !Space(t[|t| - 1]))
  {
    if s != "" && Space(s[|s| - 1]) then Chomp(s[..|s| - 1]) else s
  }

  /** Nothing else is removed. */
  lemma {:induction false} ChompRemoves(s: string, i: nat)
    requires |Chomp(s)| <= i < |s|
    ensures Space(s[i])
  {
    if i < |s| - 1 {
      ChompRemoves(s[..|s| - 1], i);
    }
  }
}

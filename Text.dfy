/** ASCII case folding, standing for Java's `String.toLowerCase`. */
module Text {

  function LowerChar(c: char): char
  {
    if 'A' <= c <= 'Z' then (c as int + ('a' as int - 'A' as int)) as char else c
  }

  /** `s` with every ASCII upper-case letter replaced by its lower-case counterpart: the
      result has no upper-case letter left, every other character stays where it was, and
      a letter differs from its image only by upper/lower case. */
  function Lower(s: string): (r: string)
    ensures |r| == |s|
    ensures forall i :: 0 <= i < |r| ==> !('A' <= r[i] <= 'Z')
    ensures forall i :: 0 <= i < |s| && !('A' <= s[i] <= 'Z') ==> r[i] == s[i]
    ensures forall i :: 0 <= i < |s| && 'A' <= s[i] <= 'Z' ==>
      'a' <= r[i] <= 'z' && r[i] as int - s[i] as int == 'a' as int - 'A' as int
  {
    seq(|s|, i requires 0 <= i < |s| => LowerChar(s[i]))
  }

  /** Lower-casing twice is lower-casing once. */
  lemma LowerIdempotent(s: string)
    ensures Lower(Lower(s)) == Lower(s)
  {
    var l := Lower(s);
    assert forall i :: 0 <= i < |l| ==> Lower(l)[i] == l[i];
  }

  /** A lower-cased string contains a lower-case letter exactly when the original contains
      that letter in either case: this is what makes the read/write flag test
      case-insensitive. */
  lemma LowerContains(s: string, upper: char, lower: char)
    requires 'A' <= upper <= 'Z' && lower == LowerChar(upper)
    ensures lower in Lower(s) <==> lower in s || upper in s
  {
    if lower in Lower(s) {
      var i :| 0 <= i < |s| && Lower(s)[i] == lower;
      assert s[i] == lower || s[i] == upper;
    }
    if lower in s {
      var i :| 0 <= i < |s| && s[i] == lower;
      assert Lower(s)[i] == lower;
    }
    if upper in s {
      var i :| 0 <= i < |s| && s[i] == upper;
      assert Lower(s)[i] == lower;
    }
  }
}

/**
 * `hashSeed`: the string hash both lobby components derive their per-player pseudo-random
 * choices from (the two components carry identical copies of it).
 */
module Seeds {

  const HashModulus: nat := 10000

  /**
   * The hash of a string: a base-31 polynomial over the character codes, reduced modulo
   * 10000 after every step. Always in [0, 9999].
   */
  function SeedHash(s: string): (h: nat)
    ensures h < HashModulus
  {
    if s == [] then 0 else (SeedHash(s[..|s| - 1]) * 31 + s[|s| - 1] as int) % HashModulus
  }

  /** The source's loop, which folds the characters from left to right. */
  method HashSeed(s: string) returns (h: nat)
    ensures h == SeedHash(s)
    ensures h < HashModulus
    ensures s == "" ==> h == 0
  {
    h := 0;
    for i := 0 to |s|
      invariant h == SeedHash(s[..i])
    {
      assert s[..i + 1][..i] == s[..i];
      h := (h * 31 + s[i] as int) % HashModulus;
    }
    assert s[..|s|] == s;
  }

  /** Appending a character steps the hash exactly as the loop body does. */
  lemma SeedHashAppend(s: string, c: char)
    ensures SeedHash(s + [c]) == (SeedHash(s) * 31 + c as int) % HashModulus
  {
    assert (s + [c])[..|s|] == s;
  }
}

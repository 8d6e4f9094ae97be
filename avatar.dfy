/**
 * The avatar helpers of the lobby player bubbles: initials, the colour class of a player's
 * avatar, the label shown in it, and the seeded random generator that places the bubbles.
 */
module Avatar {
  import opened Wrappers
  import opened Text
  import opened Seeds

  /** The eight avatar colours, as (key, CSS class) pairs, in the source's order. */
  const AvatarColors: seq<(string, string)> := [
    ("pink", "bg-gradient-to-br from-rose-400 to-pink-500"),
    ("orange", "bg-gradient-to-br from-amber-300 to-orange-400"),
    ("blue", "bg-gradient-to-br from-sky-300 to-blue-500"),
    ("teal", "bg-gradient-to-br from-emerald-300 to-teal-500"),
    ("purple", "bg-gradient-to-br from-purple-400 to-indigo-500"),
    ("magenta", "bg-gradient-to-br from-fuchsia-400 to-pink-500"),
    ("yellow", "bg-gradient-to-br from-yellow-300 to-amber-400"),
    ("cyan", "bg-gradient-to-br from-cyan-300 to-sky-500")
  ]

  const AvatarSize: nat := 64

  predicate IsAvatarClass(c: string) {
    exists k :: 0 <= k < |AvatarColors| && AvatarColors[k].1 == c
  }

  /** Index of the first colour whose key is `color` (`Array.prototype.find`). */
  function FindColor(color: string, from: nat): (r: Option<nat>)
    requires from <= |AvatarColors|
    ensures r.Some? ==> from <= r.value < |AvatarColors| && AvatarColors[r.value].0 == color
    ensures r.Some? ==> forall k :: from <= k < r.value ==> AvatarColors[k].0 != color
    ensures r.None? ==> forall k :: from <= k < |AvatarColors| ==> AvatarColors[k].0 != color
    decreases |AvatarColors| - from
  {
    if from == |AvatarColors| then None
    else if AvatarColors[from].0 == color then Some(from)
    else FindColor(color, from + 1)
  }

  /**
   * `getAvatarClass(seed, color)`: the class of the colour named `color` when it is one of
   * the eight keys, otherwise the colour the hash of `seed` selects.
   */
  function GetAvatarClass(seed: string, color: Option<string>): (r: string)
    ensures IsAvatarClass(r)
    ensures forall k :: 0 <= k < |AvatarColors| && color == Some(AvatarColors[k].0) ==>
              r == AvatarColors[k].1
    ensures (color.None? || forall k :: 0 <= k < |AvatarColors| ==> AvatarColors[k].0 != color.value) ==>
              r == AvatarColors[SeedHash(seed) % |AvatarColors|].1
  {
    var matched := if Truthy(color) then FindColor(color.value, 0) else None;
    if matched.Some? then AvatarColors[matched.value].1
    else AvatarColors[SeedHash(seed) % |AvatarColors|].1
  }

  /** Without a known colour, two players with the same seed get the same class. */
  lemma AvatarClassDependsOnSeedOnly(seed: string, c1: Option<string>, c2: Option<string>)
    requires forall k :: 0 <= k < |AvatarColors| ==> c1 != Some(AvatarColors[k].0)
    requires forall k :: 0 <= k < |AvatarColors| ==> c2 != Some(AvatarColors[k].0)
    ensures GetAvatarClass(seed, c1) == GetAvatarClass(seed, c2)
  {
  }

  /**
   * `getInitials(name)`: the first letters of the first two words, or the first two letters
   * of a single word, upper-cased; "--" when the name is empty or only whitespace.
   */
  function GetInitials(name: string): (r: string)
    ensures AllWhitespace(name) ==> r == "--"
    ensures !AllWhitespace(name) ==> 1 <= |r| <= 2 && NoWhitespace(r)
    ensures !AllWhitespace(name) ==> r[0] == UpperChar(Trim(name)[0])
    ensures |Words(name)| >= 2 ==> r == ToUpper([Words(name)[0][0], Words(name)[1][0]])
    ensures |Words(name)| == 1 && |Words(name)[0]| >= 2 ==> r == ToUpper(Words(name)[0][..2])
    ensures |Words(name)| == 1 && |Words(name)[0]| == 1 ==> r == ToUpper(Words(name)[0])
  {
    var parts := Words(name);
    var first := if |parts| > 0 then [parts[0][0]] else "";
    var second := if |parts| > 1 then [parts[1][0]]
                  else if |parts| > 0 && |parts[0]| > 1 then [parts[0][1]]
                  else "";
    var joined := ToUpper(first + second);
    assert |parts| == 1 && |parts[0]| >= 2 ==> parts[0][..2] == first + second;
    assert |parts| == 1 && |parts[0]| == 1 ==> parts[0] == first + second;
    if joined == "" then "--" else joined
  }

  /** `getAvatarLabel(name, avatar)`: the avatar glyph when there is one, else the initials. */
  function GetAvatarLabel(name: string, avatar: Option<string>): (r: string)
    ensures Truthy(avatar) ==> r == avatar.value
    ensures !Truthy(avatar) ==> r == GetInitials(name)
    ensures r != ""
  {
    if Truthy(avatar) then avatar.value else GetInitials(name)
  }

  // ---- seededRandom: the Park-Miller "minimal standard" generator ----

  const Modulus: int := 2147483647
  const Multiplier: int := 16807

  /** JavaScript's `%` on integers: the remainder takes the sign of the dividend. */
  function JsRem(a: int, b: int): (r: int)
    requires b > 0
    ensures a >= 0 ==> r == a % b
    ensures -b < r < b
    ensures a < 0 ==> r <= 0
  {
    if a >= 0 then a % b else -((-a) % b)
  }

  /** The generator's state right after `seededRandom(seed)`. */
  function InitialState(seed: int): (v: int)
    ensures seed >= 0 ==> 1 <= v <= Modulus - 1
    ensures seed >= 0 && seed % Modulus != 0 ==> v == seed % Modulus
    ensures seed == 0 ==> v == Modulus - 1
  {
    var v := JsRem(seed, Modulus);
    if v <= 0 then v + 2147483646 else v
  }

  /** One step of the generator. */
  function NextState(v: int): int {
    JsRem(v * Multiplier, Modulus)
  }

  /** The value a step returns for the new state. */
  function Output(v: int): real {
    (v - 1) as real / 2147483646.0
  }

  /** A state in [0, 2147483646] stays there. */
  lemma NextStateInRange(v: int)
    requires 0 <= v < Modulus
    ensures 0 <= NextState(v) < Modulus
  {
  }

  /**
   * A state in [1, 2147483646] never reaches 0. 16807 has the inverse 1407677000 modulo
   * 2147483647, so a multiple of the modulus times that inverse would give back a multiple
   * of the modulus in [1, 2147483646], and there is none.
   */
  lemma {:induction false} NextStateNonZero(v: int)
    requires 1 <= v < Modulus
    ensures 1 <= NextState(v) < Modulus
  {
    var w := v * Multiplier;
    var k := w / Modulus;
    var r := w % Modulus;
    assert w == Modulus * k + r;
    assert Multiplier * 1407677000 == Modulus * 11017 + 1;
    assert v == 1407677000 * w - Modulus * (11017 * v);
    assert v == Modulus * (1407677000 * k - 11017 * v) + 1407677000 * r;
    assert NextState(v) == r;
  }

  /** The closure returned by `seededRandom`, as an object holding its `value`. */
  class SeededRandom {
    var value: int

    constructor (seed: int)
      ensures value == InitialState(seed)
    {
      value := InitialState(seed);
    }

    /** One call of the closure: advance the state and return a number in [0, 1). */
    method Next() returns (x: real)
      modifies this
      ensures value == NextState(old(value))
      ensures x == Output(value)
      ensures 1 <= old(value) < Modulus ==> 1 <= value < Modulus && 0.0 <= x < 1.0
    {
      if 1 <= value < Modulus {
        NextStateNonZero(value);
      }
      value := NextState(value);
      x := Output(value);
    }
  }
}

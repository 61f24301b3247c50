/** The string operations the pages and helpers rely on: `toLowerCase`,
    `includes`, and JavaScript truthiness of a possibly missing string. */
module Text {
  import opened Options

  /** `toLowerCase` of one character, restricted to ASCII letters. */
  function LowerChar(c: char): char
  {
    if 'A' <= c <= 'Z' then (c as int + 32) as char else c
  }

  /** `toLowerCase` of a string, ASCII letters only. */
  function Lower(s: string): (r: string)
    ensures |r| == |s|
    ensures forall i :: 0 <= i < |s| ==> r[i] == LowerChar(s[i])
    ensures forall i :: 0 <= i < |r| ==> !('A' <= r[i] <= 'Z')
  {
    seq(|s|, i requires 0 <= i < |s| => LowerChar(s[i]))
  }

  /** `hay.includes(needle)`: some position of `hay` starts a copy of `needle`. */
  function Includes(hay: string, needle: string): bool
    decreases |hay|
  {
    needle <= hay || (hay != [] && Includes(hay[1..], needle))
  }

  /** `needle` occurs in `hay` starting at index `k`. */
  ghost predicate OccursAt(hay: string, needle: string, k: int)
  {
    0 <= k && k + |needle| <= |hay| && hay[k..k + |needle|] == needle
  }

  /** `Includes` is exactly "occurs somewhere". */
  lemma {:induction false} IncludesIff(hay: string, needle: string)
    ensures Includes(hay, needle) <==> exists k :: OccursAt(hay, needle, k)
    decreases |hay|
  {
    if needle <= hay {
      assert OccursAt(hay, needle, 0);
    } else if hay == [] {
      assert forall k :: !OccursAt(hay, needle, k);
    } else {
      IncludesIff(hay[1..], needle);
      if k :| OccursAt(hay[1..], needle, k) {
        assert hay[k + 1..k + 1 + |needle|] == hay[1..][k..k + |needle|];
        assert OccursAt(hay, needle, k + 1);
      }
      if k :| OccursAt(hay, needle, k) {
        assert k != 0;
        assert hay[1..][k - 1..k - 1 + |needle|] == hay[k..k + |needle|];
        assert OccursAt(hay[1..], needle, k - 1);
      }
    }
  }

  /** The empty string is included in every string. */
  lemma EmptyIncluded(hay: string)
    ensures Includes(hay, "")
  {
  }

  /** A JavaScript string that is neither missing nor empty. */
  predicate Truthy(s: Option<string>)
  {
    s.Some? && s.value != ""
  }
}

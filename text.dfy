/**
  The two JavaScript string built-ins the marketplace filter relies on,
  `String.prototype.toLowerCase` (restricted to ASCII letters) and
  `String.prototype.includes`, together with the facts the filter lemmas use.
 */
module Text {

  /** `toLowerCase` on one character: 'A'..'Z' become 'a'..'z', everything else is kept. */
  function LowerChar(c: char): char
  {
    if 'A' <= c <= 'Z' then (c as int + 32) as char else c
  }

  /** `s.toLowerCase()`, character by character. */
  function Lower(s: string): string
  {
    if s == [] then [] else [LowerChar(s[0])] + Lower(s[1..])
  }

  /** `s.includes(t)`: t is a prefix of s or of some suffix of s. */
  predicate Contains(s: string, t: string)
  {
    t <= s || (s != [] && Contains(s[1..], t))
  }

  /** The reference definition of `includes`: t occurs at some position i of s. */
  ghost predicate OccursAt(s: string, t: string, i: nat)
  {
    i <= |s| && t <= s[i..]
  }

  /** Lowercasing keeps the length and maps each character on its own. */
  lemma {:induction false} LowerAt(s: string)
    ensures |Lower(s)| == |s|
    ensures forall i :: 0 <= i < |s| ==> Lower(s)[i] == LowerChar(s[i])
  {
    if s != [] {
      LowerAt(s[1..]);
      assert forall i :: 1 <= i < |s| ==> Lower(s)[i] == Lower(s[1..])[i - 1];
    }
  }

  /** The result of lowercasing holds no upper-case ASCII letter. */
  lemma LowerHasNoUpper(s: string)
    ensures forall i :: 0 <= i < |Lower(s)| ==> !('A' <= Lower(s)[i] <= 'Z')
  {
    LowerAt(s);
  }

  /** Lowercasing twice is lowercasing once. */
  lemma {:induction false} LowerIdempotent(s: string)
    ensures Lower(Lower(s)) == Lower(s)
  {
    if s != [] {
      LowerIdempotent(s[1..]);
      assert Lower(s)[1..] == Lower(s[1..]);
    }
  }

  /** `includes` holds exactly when t occurs at some position of s. */
  lemma {:induction false} ContainsIff(s: string, t: string)
    ensures Contains(s, t) <==> exists i: nat :: OccursAt(s, t, i)
  {
    if s == [] {
      assert s[0..] == s;
      if t <= s {
        assert OccursAt(s, t, 0);
      }
    } else {
      ContainsIff(s[1..], t);
      if t <= s {
        assert s[0..] == s;
        assert OccursAt(s, t, 0);
      }
      if Contains(s[1..], t) {
        var i: nat :| OccursAt(s[1..], t, i);
        assert s[1..][i..] == s[i + 1..];
        assert OccursAt(s, t, i + 1);
      }
      if exists i: nat :: OccursAt(s, t, i) {
        var i: nat :| OccursAt(s, t, i);
        if i == 0 {
          assert s[0..] == s;
        } else {
          assert s[1..][i - 1..] == s[i..];
          assert OccursAt(s[1..], t, i - 1);
        }
      }
    }
  }

  /** A string contains every piece it was glued together from. */
  lemma ConcatContains(a: string, t: string, b: string)
    ensures Contains(a + t + b, t)
  {
    var s := a + t + b;
    assert s[|a|..] == t + b;
    assert OccursAt(s, t, |a|);
    ContainsIff(s, t);
  }
}

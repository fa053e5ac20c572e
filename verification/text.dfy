/** Substring search over strings, as used by Python's `needle in hay`.

    `Occurs` is the declarative meaning (some index where the needle sits);
    `Contains` is a left-to-right scan that can be executed. The two are
    proved to agree for every pair of strings.
 */
module Text {

  /** `needle` sits in `hay` starting at index `i`. */
  predicate OccursAt(hay: string, needle: string, i: nat) {
    i + |needle| <= |hay| && hay[i..i + |needle|] == needle
  }

  /** `needle` sits somewhere in `hay`; the empty needle occurs in every string. */
  ghost predicate Occurs(hay: string, needle: string) {
    exists i: nat :: OccursAt(hay, needle, i)
  }

  /** Scan `hay` from the left, testing at each position whether `needle` is a prefix of what remains. */
  predicate Contains(hay: string, needle: string)
    decreases |hay|
  {
    needle <= hay || (|hay| > 0 && Contains(hay[1..], needle))
  }

  /** An occurrence in the tail of `hay` is an occurrence in `hay`, one index further on. */
  lemma OccursAtTail(hay: string, needle: string, i: nat)
    requires |hay| > 0
    ensures OccursAt(hay[1..], needle, i) <==> OccursAt(hay, needle, i + 1)
  {
    if i + |needle| <= |hay[1..]| {
      assert hay[1..][i..i + |needle|] == hay[i + 1..i + 1 + |needle|];
    }
  }

  /** The scan finds the needle exactly when it occurs. */
  lemma {:induction false} ContainsIffOccurs(hay: string, needle: string)
    ensures Contains(hay, needle) <==> Occurs(hay, needle)
    decreases |hay|
  {
    if needle <= hay {
      assert hay[0..|needle|] == needle;
      assert OccursAt(hay, needle, 0);
    } else if |hay| == 0 {
      NothingOccursInEmpty(needle);
    } else {
      ContainsIffOccurs(hay[1..], needle);
      if Contains(hay[1..], needle) {
        var i: nat :| OccursAt(hay[1..], needle, i);
        OccursAtTail(hay, needle, i);
      }
      if Occurs(hay, needle) {
        var i: nat :| OccursAt(hay, needle, i);
        if i > 0 {
          OccursAtTail(hay, needle, i - 1);
        }
      }
    }
  }

  /** A string that is glued around the needle contains it, wherever it is placed. */
  lemma OccursInside(before: string, needle: string, after: string)
    ensures Occurs(before + needle + after, needle)
    ensures Contains(before + needle + after, needle)
  {
    var hay := before + needle + after;
    assert hay[|before|..|before| + |needle|] == needle;
    assert OccursAt(hay, needle, |before|);
    ContainsIffOccurs(hay, needle);
  }

  /** A non-empty needle never occurs in the empty string. */
  lemma NothingOccursInEmpty(needle: string)
    ensures Occurs([], needle) <==> needle == []
  {
    if needle == [] {
      assert OccursAt([], needle, 0);
    }
  }
}

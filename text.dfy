/**
 * The two string operations the product filter uses: `String.prototype.toLowerCase`
 * (modelled on ASCII letters only) and `String.prototype.includes`.
 */
module Text {

  predicate IsUpper(c: char) {
    'A' <= c <= 'Z'
  }

  /** Lower-cases one character: an ASCII capital becomes its small letter, anything else is kept. */
  function LowerChar(c: char): (d: char)
    ensures !IsUpper(d)
    ensures !IsUpper(c) ==> d == c
    ensures IsUpper(c) ==> d as int - c as int == 'a' as int - 'A' as int
  {
    if IsUpper(c) then (c as int + ('a' as int - 'A' as int)) as char else c
  }

  /** `s.toLowerCase()`: the same length, every character lower-cased in place. */
  function Lower(s: string): (r: string)
    ensures |r| == |s|
    ensures forall i :: 0 <= i < |s| ==> r[i] == LowerChar(s[i])
  {
    if s == [] then [] else [LowerChar(s[0])] + Lower(s[1..])
  }

  /** `query` sits in `text` starting at position `i`. */
  ghost predicate OccursAt(query: string, text: string, i: nat) {
    i + |query| <= |text| && text[i..i + |query|] == query
  }

  /** The meaning of "contains as a substring": some position where `query` occurs. */
  ghost predicate IsSubstring(query: string, text: string) {
    exists i: nat :: OccursAt(query, text, i)
  }

  /** `text.includes(query)`: tries each starting position from the left. */
  function Includes(text: string, query: string): (b: bool)
    ensures query == [] ==> b
    ensures b ==> |query| <= |text|
    decreases |text|
  {
    if |query| > |text| then false
    else if text[..|query|] == query then true
    else Includes(text[1..], query)
  }

  /** `Includes` decides substring-hood, in both directions. */
  lemma {:induction false} IncludesIsSubstring(text: string, query: string)
    ensures Includes(text, query) <==> IsSubstring(query, text)
    decreases |text|
  {
    if |query| > |text| {
      // no starting position leaves room for `query`
    } else if text[..|query|] == query {
      assert OccursAt(query, text, 0);
    } else {
      IncludesIsSubstring(text[1..], query);
      if IsSubstring(query, text) {
        var i: nat :| OccursAt(query, text, i);
        assert i != 0;
        assert text[1..][i - 1..i - 1 + |query|] == text[i..i + |query|];
        assert OccursAt(query, text[1..], i - 1);
      }
      if IsSubstring(query, text[1..]) {
        var i: nat :| OccursAt(query, text[1..], i);
        assert text[1..][i..i + |query|] == text[i + 1..i + 1 + |query|];
        assert OccursAt(query, text, i + 1);
      }
    }
  }
}

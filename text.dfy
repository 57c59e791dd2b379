/** Error-message helpers: when a message mentions a piece of text, and the
    decimal rendering of an integer that `std::format` would print. */
module Text {

  /** `part` occurs in `text` starting at position `i`. */
  predicate OccursAt(text: string, part: string, i: nat)
  {
    i + |part| <= |text| && text[i..i + |part|] == part
  }

  /** `part` occurs somewhere in `text`. */
  predicate Mentions(text: string, part: string)
  {
    exists i: nat | i <= |text| :: OccursAt(text, part, i)
  }

  /** A text ending in `part` mentions it. */
  lemma MentionsAtEnd(prefix: string, part: string)
    ensures Mentions(prefix + part, part)
  {
    assert OccursAt(prefix + part, part, |prefix|);
  }

  /** Appending to a text keeps what it mentions. */
  lemma MentionsExtended(text: string, part: string, more: string)
    requires Mentions(text, part)
    ensures Mentions(text + more, part)
  {
    var i: nat :| i <= |text| && OccursAt(text, part, i);
    assert (text + more)[i..i + |part|] == text[i..i + |part|];
    assert OccursAt(text + more, part, i);
  }

  function DecimalDigit(d: nat): char
    requires d < 10
  {
    "0123456789"[d]
  }

  function NaturalString(n: nat): string
    decreases n
  {
    if n < 10 then [DecimalDigit(n)] else NaturalString(n / 10) + [DecimalDigit(n % 10)]
  }

  /** The decimal rendering of `n`, with a leading '-' when negative. */
  function IntString(n: int): string
  {
    if n < 0 then "-" + NaturalString(-n) else NaturalString(n)
  }
}

/**
 * The opening sentence that every revision of the settings store puts at the
 * head of its summary prompt, and a reader that takes it apart again.
 */
module PromptText {
  import opened Outcomes
  import opened Host

  const Opening := "Summarize the above text for the topic "
  const LengthPhrase := " in at most "
  const Closing := " words."

  /** "Summarize the above text for the topic {topic} in at most {length} words." */
  function LeadSentence(topicName: string, length: int): string {
    Opening + topicName + LengthPhrase + DecimalString(length) + Closing
  }

  /** The longest prefix of `s` without a space. */
  function Word(s: string): (w: string)
    ensures w <= s && ' ' !in w
  {
    if s == [] || s[0] == ' ' then [] else [s[0]] + Word(s[1..])
  }

  lemma {:induction false} WordBeforeSpace(w: string, rest: string)
    requires ' ' !in w
    requires rest == [] || rest[0] == ' '
    ensures Word(w + rest) == w
  {
    if w == [] {
      assert w + rest == rest;
    } else {
      assert w[0] in w;
      assert (w + rest)[1..] == w[1..] + rest;
      assert forall c :: c in w[1..] ==> c in w;
      WordBeforeSpace(w[1..], rest);
      assert [w[0]] + w[1..] == w;
    }
  }

  /** Reads " in at most {length} words." off the front of `s`: the length and the text after it. */
  function ReadLength(s: string): Option<(int, string)> {
    if !(LengthPhrase <= s) then None
    else
      var afterPhrase := s[|LengthPhrase|..];
      var digits := Word(afterPhrase);
      var afterDigits := afterPhrase[|digits|..];
      match ParseDecimal(digits)
      case None => None
      case Some(n) => if Closing <= afterDigits then Some((n, afterDigits[|Closing|..])) else None
  }

  /** Reads a lead sentence off the front of `s`: the topic name, the length, and the text after the sentence. */
  function ParseLead(s: string): Option<(string, int, string)> {
    if !(Opening <= s) then None
    else
      var afterOpening := s[|Opening|..];
      var name := Word(afterOpening);
      match ReadLength(afterOpening[|name|..])
      case None => None
      case Some((n, rest)) => Some((name, n, rest))
  }

  lemma {:induction false} ReadLengthRoundTrip(length: int, rest: string)
    ensures ReadLength(LengthPhrase + DecimalString(length) + Closing + rest) == Some((length, rest))
  {
    var digits := DecimalString(length);
    var s := LengthPhrase + digits + Closing + rest;
    var afterPhrase := digits + Closing + rest;
    assert s == LengthPhrase + afterPhrase;
    assert s[|LengthPhrase|..] == afterPhrase;
    var afterDigits := Closing + rest;
    assert afterPhrase == digits + afterDigits;
    WordBeforeSpace(digits, afterDigits);
    assert afterPhrase[|digits|..] == afterDigits;
    assert afterDigits[|Closing|..] == rest;
  }

  /** The lead sentence can be read back: topic name, length and whatever follows are recovered exactly. */
  lemma {:induction false} LeadSentenceRoundTrip(topicName: string, length: int, rest: string)
    requires ' ' !in topicName
    ensures ParseLead(LeadSentence(topicName, length) + rest) == Some((topicName, length, rest))
  {
    var s := LeadSentence(topicName, length) + rest;
    var afterName := LengthPhrase + DecimalString(length) + Closing + rest;
    var afterOpening := topicName + afterName;
    assert s == Opening + afterOpening;
    assert s[|Opening|..] == afterOpening;
    WordBeforeSpace(topicName, afterName);
    assert afterOpening[|topicName|..] == afterName;
    ReadLengthRoundTrip(length, rest);
  }
}

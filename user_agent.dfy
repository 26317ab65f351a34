/**
 * `checkMobile`: the effect treats the device as mobile when one of a fixed
 * list of keywords occurs in the browser's user-agent string. None of the
 * keywords contains a regular-expression metacharacter, so `String.match`
 * with a keyword is a plain substring search.
 */
module UserAgent {
  /** The keywords, in the order the source tries them. */
  const MOBILE_KEYWORDS: seq<string> := [
    "iPhone", "iPod", "BlackBerry", "Android", "Windows CE",
    "LG", "MOT", "SAMSUNG", "SonyEricsson", "Windows Phone"
  ]

  /** `word` stands in `text` starting at position `i`. */
  predicate MatchesAt(word: string, text: string, i: nat) {
    i + |word| <= |text| && text[i..i + |word|] == word
  }

  /** Reference definition: `word` occurs at some position of `text`. */
  ghost predicate OccursIn(word: string, text: string) {
    exists i: nat :: MatchesAt(word, text, i)
  }

  /** Substring search, trying each start position of `text` in turn. */
  predicate Occurs(word: string, text: string)
    decreases |text|
  {
    |word| <= |text| && (text[..|word|] == word || Occurs(word, text[1..]))
  }

  /** The search finds `word` exactly when it occurs somewhere in `text`. */
  lemma {:induction false} OccursCorrect(word: string, text: string)
    ensures Occurs(word, text) <==> OccursIn(word, text)
    decreases |text|
  {
    if |word| <= |text| {
      if text[..|word|] == word {
        assert MatchesAt(word, text, 0);
      } else {
        OccursCorrect(word, text[1..]);
        if OccursIn(word, text[1..]) {
          var i: nat :| MatchesAt(word, text[1..], i);
          assert text[i + 1..i + 1 + |word|] == text[1..][i..i + |word|];
          assert MatchesAt(word, text, i + 1);
        }
        if OccursIn(word, text) {
          var i: nat :| MatchesAt(word, text, i);
          assert i != 0;
          assert text[1..][i - 1..i - 1 + |word|] == text[i..i + |word|];
          assert MatchesAt(word, text[1..], i - 1);
        }
      }
    }
  }

  /**
   * The keyword loop with its early return: the device is mobile exactly
   * when some keyword occurs in the user agent.
   */
  method CheckMobile(userAgent: string) returns (isMobile: bool)
    ensures isMobile <==> exists k :: 0 <= k < |MOBILE_KEYWORDS| && OccursIn(MOBILE_KEYWORDS[k], userAgent)
  {
    var word := 0;
    while word < |MOBILE_KEYWORDS|
      invariant 0 <= word <= |MOBILE_KEYWORDS|
      invariant forall k :: 0 <= k < word ==> !OccursIn(MOBILE_KEYWORDS[k], userAgent)
    {
      OccursCorrect(MOBILE_KEYWORDS[word], userAgent);
      if Occurs(MOBILE_KEYWORDS[word], userAgent) {
        return true;
      }
      word := word + 1;
    }
    return false;
  }

  /** An iPhone's user agent is recognised as mobile, by its first keyword. */
  lemma IPhoneIsMobile()
    ensures exists k :: (0 <= k < |MOBILE_KEYWORDS| &&
                         OccursIn(MOBILE_KEYWORDS[k], "Mozilla/5.0 (iPhone; CPU iPhone OS 16_0 like Mac OS X)"))
  {
    var agent := "Mozilla/5.0 (iPhone; CPU iPhone OS 16_0 like Mac OS X)";
    assert agent[13] == 'i' && agent[14] == 'P' && agent[15] == 'h';
    assert agent[16] == 'o' && agent[17] == 'n' && agent[18] == 'e';
    assert agent[13..19] == "iPhone";
    assert MatchesAt(MOBILE_KEYWORDS[0], agent, 13);
  }
}

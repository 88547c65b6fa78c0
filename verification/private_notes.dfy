/**
 * Private-note analysis of one activity: word-bounded keyword extraction over five
 * word lists, and a sentiment from counting lexicon words the note contains.
 */
module PrivateNotes {
  import opened Common

  datatype Sentiment = Positive | Neutral | Negative

  const FeelingWords: seq<string> :=
    ["tired", "exhausted", "fresh", "strong", "weak", "good", "great", "bad", "awful", "amazing"]
  const BodyWords: seq<string> := ["legs", "heart", "breathing", "pain", "sore", "stiff", "tight", "loose"]
  const WeatherWords: seq<string> := ["hot", "cold", "windy", "rain", "sunny", "humid", "dry"]
  const EquipmentWords: seq<string> := ["bike", "wheel", "tire", "chain", "brake", "gear"]
  const EffortWords: seq<string> := ["easy", "hard", "tough", "struggle", "smooth", "fast", "slow"]

  /** The five keyword patterns, in the order the note is searched. */
  const KeywordPatterns: seq<seq<string>> := [FeelingWords, BodyWords, WeatherWords, EquipmentWords, EffortWords]

  const PositiveWords: seq<string> := ["good", "great", "amazing", "strong", "fresh", "smooth", "fast", "easy"]
  const NegativeWords: seq<string> :=
    ["bad", "awful", "tired", "exhausted", "weak", "pain", "sore", "struggle", "tough"]

  predicate IsKeyword(w: string) {
    w in FeelingWords || w in BodyWords || w in WeatherWords || w in EquipmentWords || w in EffortWords
  }

  /** `toLowerCase` on the ASCII letters. */
  function LowerChar(c: char): char {
    if 'A' <= c <= 'Z' then (c as int + 32) as char else c
  }

  function ToLower(s: string): (r: string)
    ensures |r| == |s|
    ensures forall i :: 0 <= i < |s| ==> r[i] == LowerChar(s[i])
  {
    if |s| == 0 then [] else [LowerChar(s[0])] + ToLower(s[1..])
  }

  /** A character of the regular-expression class `\w`. */
  predicate IsWordChar(c: char) {
    'a' <= c <= 'z' || 'A' <= c <= 'Z' || '0' <= c <= '9' || c == '_'
  }

  predicate IsWord(w: string) {
    |w| > 0 && forall i :: 0 <= i < |w| ==> IsWordChar(w[i])
  }

  /** Length of the run of word characters that starts `s`. */
  function WordLength(s: string): (n: nat)
    ensures n <= |s|
    ensures forall i :: 0 <= i < n ==> IsWordChar(s[i])
    ensures n == |s| || !IsWordChar(s[n])
  {
    if |s| == 0 || !IsWordChar(s[0]) then 0 else 1 + WordLength(s[1..])
  }

  /**
   * The maximal runs of word characters of `s`, in order. A pattern `\b(w1|...|wn)\b`
   * matches exactly those runs that equal one of the wi, since both ends of a match
   * must be word boundaries and every wi consists of word characters.
   */
  function Words(s: string): (ws: seq<string>)
    ensures forall i :: 0 <= i < |ws| ==> IsWord(ws[i])
    decreases |s|
  {
    if |s| == 0 then []
    else if !IsWordChar(s[0]) then Words(s[1..])
    else
      var n := WordLength(s);
      [s[..n]] + Words(s[n..])
  }

  /** The matches of one global pattern: the words of the note in its list, in note order, repeats kept. */
  function PatternMatches(words: seq<string>, pattern: seq<string>): (m: seq<string>)
    ensures forall w :: w in m <==> w in words && w in pattern
  {
    if |words| == 0 then []
    else (if words[0] in pattern then [words[0]] else []) + PatternMatches(words[1..], pattern)
  }

  /** The keyword list as pushed pattern after pattern. */
  function AllMatches(words: seq<string>, patterns: seq<seq<string>>): seq<string> {
    if |patterns| == 0 then []
    else AllMatches(words, patterns[..|patterns| - 1]) + PatternMatches(words, patterns[|patterns| - 1])
  }

  lemma {:induction false} AllMatchesMembers(words: seq<string>, patterns: seq<seq<string>>, w: string)
    ensures w in AllMatches(words, patterns) <==>
      w in words && exists k :: 0 <= k < |patterns| && w in patterns[k]
  {
    if |patterns| > 0 {
      var init := patterns[..|patterns| - 1];
      AllMatchesMembers(words, init, w);
      if w in words && exists k :: 0 <= k < |patterns| && w in patterns[k] {
        var k :| 0 <= k < |patterns| && w in patterns[k];
        if k < |patterns| - 1 {
          assert w in init[k];
        }
      }
    }
  }

  predicate NoDuplicates(s: seq<string>) {
    forall i, j :: 0 <= i < j < |s| ==> s[i] != s[j]
  }

  /** `[...new Set(s)]`: the first occurrence of every element, in order. */
  function Dedup(s: seq<string>): (r: seq<string>)
    ensures NoDuplicates(r)
    ensures forall w :: w in r <==> w in s
  {
    if |s| == 0 then []
    else
      var d := Dedup(s[..|s| - 1]);
      if s[|s| - 1] in d then d else d + [s[|s| - 1]]
  }

  /** A list that already has no repeats passes through the set unchanged. */
  lemma {:induction false} DedupOfDistinct(s: seq<string>)
    requires NoDuplicates(s)
    ensures Dedup(s) == s
  {
    if |s| > 0 {
      var init := s[..|s| - 1];
      DedupOfDistinct(init);
      assert s[|s| - 1] !in init;
      assert init + [s[|s| - 1]] == s;
    }
  }

  /** `String.prototype.includes`: `w` occurs in `s` as a substring. */
  function Includes(s: string, w: string): bool {
    if |s| < |w| then false
    else if s[..|w|] == w then true
    else Includes(s[1..], w)
  }

  /** `w` occurs in `s` starting at index `i`. */
  predicate OccursAt(s: string, w: string, i: int) {
    0 <= i && i + |w| <= |s| && s[i..i + |w|] == w
  }

  /** `Includes` agrees with the reference definition of a substring. */
  lemma {:induction false} IncludesIsSubstring(s: string, w: string)
    ensures Includes(s, w) <==> exists i :: OccursAt(s, w, i)
  {
    if |s| < |w| {
    } else if s[..|w|] == w {
      assert OccursAt(s, w, 0);
    } else {
      IncludesIsSubstring(s[1..], w);
      if exists i :: OccursAt(s, w, i) {
        var i :| OccursAt(s, w, i);
        assert i != 0;
        assert s[1..][i - 1..i - 1 + |w|] == s[i..i + |w|];
        assert OccursAt(s[1..], w, i - 1);
      }
      if exists i :: OccursAt(s[1..], w, i) {
        var i :| OccursAt(s[1..], w, i);
        assert s[1..][i..i + |w|] == s[i + 1..i + 1 + |w|];
        assert OccursAt(s, w, i + 1);
      }
    }
  }

  /** A substring of a suffix is a substring of the whole text. */
  lemma {:induction false} IncludesSuffix(s: string, w: string, k: nat)
    requires k <= |s|
    requires Includes(s[k..], w)
    ensures Includes(s, w)
    decreases k
  {
    if k > 0 {
      assert s[k..] == s[1..][k - 1..];
      IncludesSuffix(s[1..], w, k - 1);
    }
  }

  /** `lexicon.filter(word => s.includes(word)).length`. */
  function CountIncluded(s: string, lexicon: seq<string>): nat {
    if |lexicon| == 0 then 0
    else CountIncluded(s, lexicon[..|lexicon| - 1]) + (if Includes(s, lexicon[|lexicon| - 1]) then 1 else 0)
  }

  function SentimentOf(lowerNote: string): Sentiment {
    var positiveCount := CountIncluded(lowerNote, PositiveWords);
    var negativeCount := CountIncluded(lowerNote, NegativeWords);
    if positiveCount > negativeCount then Positive
    else if negativeCount > positiveCount then Negative
    else Neutral
  }

  predicate Blank(note: Option<string>) {
    note.None? || note.value == ""
  }

  /** Keywords of a note: each lexicon word that stands as a whole word of the lower-cased note, once. */
  function NoteKeywords(note: Option<string>): (r: seq<string>)
    ensures Blank(note) ==> r == []
    ensures NoDuplicates(r)
    ensures note.Some? ==> forall w :: w in r <==> IsKeyword(w) && w in Words(ToLower(note.value))
  {
    if Blank(note) then []
    else
      var words := Words(ToLower(note.value));
      var r := Dedup(AllMatches(words, KeywordPatterns));
      assert forall w :: w in r <==> IsKeyword(w) && w in words by {
        forall w ensures w in r <==> IsKeyword(w) && w in words {
          AllMatchesMembers(words, KeywordPatterns, w);
          if IsKeyword(w) {
            if w in FeelingWords { assert w in KeywordPatterns[0]; }
            else if w in BodyWords { assert w in KeywordPatterns[1]; }
            else if w in WeatherWords { assert w in KeywordPatterns[2]; }
            else if w in EquipmentWords { assert w in KeywordPatterns[3]; }
            else { assert w in KeywordPatterns[4]; }
          }
        }
      }
      r
  }

  /** Sentiment of a note: absent exactly for a missing or empty note. */
  function NoteSentiment(note: Option<string>): (r: Option<Sentiment>)
    ensures r.None? <==> Blank(note)
  {
    if Blank(note) then None else Some(SentimentOf(ToLower(note.value)))
  }

  /** Every whole word of a text is also a substring of it. */
  lemma {:induction false} WordsAreIncluded(s: string, w: string)
    requires w in Words(s)
    ensures Includes(s, w)
    decreases |s|
  {
    if !IsWordChar(s[0]) {
      WordsAreIncluded(s[1..], w);
      IncludesSuffix(s, w, 1);
    } else {
      var n := WordLength(s);
      if w != s[..n] {
        assert w in Words(s[n..]);
        WordsAreIncluded(s[n..], w);
        IncludesSuffix(s, w, n);
      }
    }
  }

  /** A lexicon word found in the text adds to the lexicon's count. */
  lemma {:induction false} IncludedWordCounts(s: string, lexicon: seq<string>, w: string)
    requires w in lexicon && Includes(s, w)
    ensures CountIncluded(s, lexicon) >= 1
  {
    if w != lexicon[|lexicon| - 1] {
      assert w in lexicon[..|lexicon| - 1];
      IncludedWordCounts(s, lexicon[..|lexicon| - 1], w);
    }
  }

  /** A positive word extracted as a keyword always counts towards the positive side of the sentiment. */
  lemma PositiveKeywordCounts(note: Option<string>, w: string)
    requires note.Some? && w in NoteKeywords(note) && w in PositiveWords
    ensures CountIncluded(ToLower(note.value), PositiveWords) >= 1
  {
    WordsAreIncluded(ToLower(note.value), w);
    IncludedWordCounts(ToLower(note.value), PositiveWords, w);
  }

  lemma {:induction false} NoMatchesWithoutListedWord(words: seq<string>, pattern: seq<string>)
    requires forall i :: 0 <= i < |words| ==> words[i] !in pattern
    ensures PatternMatches(words, pattern) == []
  {
    if |words| > 0 {
      NoMatchesWithoutListedWord(words[1..], pattern);
    }
  }

  lemma {:induction false} AllMatchesWithoutListedWord(words: seq<string>, patterns: seq<seq<string>>)
    requires forall k, i :: 0 <= k < |patterns| && 0 <= i < |words| ==> words[i] !in patterns[k]
    ensures AllMatches(words, patterns) == []
  {
    if |patterns| > 0 {
      AllMatchesWithoutListedWord(words, patterns[..|patterns| - 1]);
      NoMatchesWithoutListedWord(words, patterns[|patterns| - 1]);
    }
  }

  /** A note none of whose whole words is in a list yields no keyword at all. */
  lemma NoKeywordWithoutListedWord(note: Option<string>)
    requires note.Some?
    requires forall i :: 0 <= i < |Words(ToLower(note.value))| ==> !IsKeyword(Words(ToLower(note.value))[i])
    ensures NoteKeywords(note) == []
  {
    if !Blank(note) {
      AllMatchesWithoutListedWord(Words(ToLower(note.value)), KeywordPatterns);
    }
  }

  /** The converse fails: "goods" yields no keyword, since its only word is in no list ... */
  lemma GoodsHasNoKeyword()
    ensures NoteKeywords(Some("goods")) == []
  {
    var s := "goods";
    assert ToLower(s) == s;
    assert WordLength(s) == 5;
    assert s[..5] == s;
    assert Words(s[5..]) == [];
    assert Words(s) == [s];
    assert s !in FeelingWords;
    assert s !in BodyWords;
    assert s !in WeatherWords;
    assert s !in EquipmentWords;
    assert s !in EffortWords;
    NoKeywordWithoutListedWord(Some(s));
  }

  /** ... yet it counts towards a positive sentiment, because it contains "good". */
  lemma GoodsCountsAsPositive()
    ensures CountIncluded(ToLower("goods"), PositiveWords) >= 1
  {
    var s := "goods";
    assert ToLower(s) == s;
    assert s[..4] == "good";
    IncludedWordCounts(s, PositiveWords, "good");
  }

  /** The note processing of one activity, pushing the matches of each pattern in turn. */
  method ProcessPrivateNote(note: Option<string>) returns (keywords: seq<string>, sentiment: Option<Sentiment>)
    ensures keywords == NoteKeywords(note)
    ensures sentiment == NoteSentiment(note)
  {
    if note.None? || note.value == "" {
      return [], None;
    }
    var lowerNote := ToLower(note.value);
    var words := Words(lowerNote);
    var found: seq<string> := [];
    var i := 0;
    while i < |KeywordPatterns|
      invariant 0 <= i <= |KeywordPatterns|
      invariant found == AllMatches(words, KeywordPatterns[..i])
    {
      found := found + PatternMatches(words, KeywordPatterns[i]);
      assert KeywordPatterns[..i + 1][..i] == KeywordPatterns[..i];
      i := i + 1;
    }
    assert KeywordPatterns[..i] == KeywordPatterns;
    var positiveCount := CountIncluded(lowerNote, PositiveWords);
    var negativeCount := CountIncluded(lowerNote, NegativeWords);
    sentiment := Some(Neutral);
    if positiveCount > negativeCount {
      sentiment := Some(Positive);
    } else if negativeCount > positiveCount {
      sentiment := Some(Negative);
    }
    keywords := Dedup(found);
  }
}

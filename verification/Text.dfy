/** The little text handling the durable rows depend on. */
module Text {
  predicate IsSpace(c: char) {
    c == ' ' || c == '\n' || c == '\r' || c == '\t'
  }

  function StripLeft(s: string): string {
    if s != [] && IsSpace(s[0]) then StripLeft(s[1..]) else s
  }

  function StripRight(s: string): string {
    if s != [] && IsSpace(s[|s| - 1]) then StripRight(s[..|s| - 1]) else s
  }

  function Strip(s: string): string {
    StripRight(StripLeft(s))
  }

  /** Only white space stands before `i` and from `j` on. */
  predicate SpacesAround(s: string, i: nat, j: nat)
    requires i <= j <= |s|
  {
    forall k :: 0 <= k < |s| && (k < i || j <= k) ==> s[k] in " \t\r\n"
  }

  /** `r` is `s` less the white space at its ends. */
  ghost predicate IsStripped(s: string, r: string) {
    && (exists i, j :: 0 <= i <= j <= |s| && r == s[i..j] && SpacesAround(s, i, j))
    && (r != "" ==> r[0] !in " \t\r\n" && r[|r| - 1] !in " \t\r\n")
  }

  lemma {:induction false} StripLeftKeeps(s: string) returns (i: nat)
    ensures i <= |s| && StripLeft(s) == s[i..] && SpacesAround(s, i, |s|)
    ensures i < |s| ==> s[i] !in " \t\r\n"
  {
    i := 0;
    if s != [] && IsSpace(s[0]) {
      var k := StripLeftKeeps(s[1..]);
      i := k + 1;
    }
  }

  lemma {:induction false} StripRightKeeps(s: string) returns (j: nat)
    ensures j <= |s| && StripRight(s) == s[..j] && SpacesAround(s, 0, j)
    ensures j > 0 ==> s[j - 1] !in " \t\r\n"
  {
    j := |s|;
    if s != [] && IsSpace(s[|s| - 1]) {
      j := StripRightKeeps(s[..|s| - 1]);
    }
  }

  /** Stripping takes away the white space at both ends, and nothing else. */
  lemma StripKeeps(s: string)
    ensures IsStripped(s, Strip(s))
  {
    var i := StripLeftKeeps(s);
    var t := StripLeft(s);
    var j := StripRightKeeps(t);
    assert t[..j] == s[i..i + j];
    assert SpacesAround(s, i, i + j);
    if j > 0 {
      assert t[0] == s[i];
    }
  }

  // -- words ---------------------------------------------------------------------------------

  /** The maximal runs of characters that do not separate words. */
  function Words(s: string, separates: char -> bool): (r: seq<string>)
    ensures s != "" && !separates(s[|s| - 1]) ==> r != []
    ensures forall i :: 0 <= i < |r| ==> r[i] != ""
  {
    if s == "" then []
    else
      var n := |s| - 1;
      var earlier := Words(s[..n], separates);
      if separates(s[n]) then earlier
      else if n == 0 || separates(s[n - 1]) then earlier + [[s[n]]]
      else Longer(earlier, s[n])
  }

  function Joined(words: seq<string>): string {
    if words == [] then ""
    else if |words| == 1 then words[0]
    else Joined(words[..|words| - 1]) + " " + words[|words| - 1]
  }

  lemma JoinedMore(words: seq<string>, word: string)
    ensures Joined(words + [word]) == if words == [] then word else Joined(words) + " " + word
  {
  }

  lemma JoinedLonger(words: seq<string>, c: char)
    requires words != []
    ensures Joined(Longer(words, c)) == Joined(words) + [c]
  {
    var init, word := words[..|words| - 1], words[|words| - 1];
    JoinedMore(init, word);
    JoinedMore(init, word + [c]);
    assert words == init + [word];
    Associates(Joined(init) + " ", word, [c]);
  }

  lemma Associates(s: string, t: string, u: string)
    ensures s + (t + u) == (s + t) + u
  {
  }

  /** The last word with one more character. */
  function Longer(words: seq<string>, c: char): seq<string>
    requires words != []
  {
    words[..|words| - 1] + [words[|words| - 1] + [c]]
  }

  lemma {:induction false} JoinedEmpty(words: seq<string>)
    requires forall i :: 0 <= i < |words| ==> words[i] != ""
    ensures Joined(words) == "" <==> words == []
  {
  }

  // -- summaries -----------------------------------------------------------------------------

  /** The text so far with each run of white space made one space, and whether such a run follows. */
  function Gathered(s: string): (string, bool) {
    if s == "" then ("", false)
    else
      var (text, gap) := Gathered(s[..|s| - 1]);
      var c := s[|s| - 1];
      if IsSpace(c) then (text, true)
      else (text + (if gap && text != "" then " " else "") + [c], false)
  }

  /** White space collapsed, and of a text that is still too long both ends. */
  function Compact(text: string, max: nat): string {
    var compact := Gathered(text).0;
    if |compact| <= max then compact
    else if max < 5 then compact[..max]
    else
      var head := if (max - 3) * 7 / 10 >= 1 then (max - 3) * 7 / 10 else 1;
      var tail := max - head - 3;
      compact[..head] + "..." + compact[|compact| - tail..]
  }

  /** No white space but single spaces between words. */
  predicate IsCollapsed(s: string) {
    && (forall i :: 0 <= i < |s| && IsSpace(s[i]) ==> s[i] == ' ')
    && (s != "" ==> !IsSpace(s[0]) && !IsSpace(s[|s| - 1]))
    && (forall i :: 0 < i < |s| && IsSpace(s[i]) ==> !IsSpace(s[i - 1]))
  }

  /** Collapsing white space joins the words of a text by single spaces. */
  lemma {:induction false} GatheredJoins(s: string)
    ensures Gathered(s).0 == Joined(Words(s, IsSpace))
    ensures Gathered(s).1 <==> s != "" && IsSpace(s[|s| - 1])
  {
    if s != "" {
      var n := |s| - 1;
      var earlier := Words(s[..n], IsSpace);
      GatheredJoins(s[..n]);
      JoinedEmpty(earlier);
      if !IsSpace(s[n]) {
        if n == 0 || IsSpace(s[n - 1]) {
          JoinedMore(earlier, [s[n]]);
        } else {
          JoinedLonger(earlier, s[n]);
        }
      }
    }
  }

  lemma {:induction false} GatheredIsCollapsed(s: string)
    ensures IsCollapsed(Gathered(s).0)
  {
    if s != "" {
      GatheredIsCollapsed(s[..|s| - 1]);
    }
  }

  lemma {:induction false} CollapsedPrefix(s: string, k: nat)
    requires IsCollapsed(s) && k <= |s|
    ensures Gathered(s[..k]) == if k > 0 && s[k - 1] == ' ' then (s[..k - 1], true) else (s[..k], false)
  {
    if k > 0 {
      CollapsedPrefix(s, k - 1);
      var p := s[..k];
      assert p[..|p| - 1] == s[..k - 1] && p[|p| - 1] == s[k - 1];
      if k > 1 && s[k - 2] == ' ' {
        assert s[..k] == s[..k - 2] + " " + [s[k - 1]];
      } else {
        assert s[..k] == s[..k - 1] + "" + [s[k - 1]];
      }
    }
  }

  lemma CompactCollapsed(text: string, max: nat)
    requires max >= 5
    ensures |Compact(text, max)| <= max && IsCollapsed(Compact(text, max))
  {
    GatheredIsCollapsed(text);
    hide Gathered;
    var compact := Gathered(text).0;
    if |compact| > max {
      var head := (max - 3) * 7 / 10;
      EndsCollapsed(compact, if head >= 1 then head else 1, max);
    }
  }

  lemma EndsCollapsed(s: string, head: nat, max: nat)
    requires IsCollapsed(s) && 1 <= head < max - 3 && max < |s|
    ensures IsCollapsed(s[..head] + "..." + s[|s| - (max - head - 3)..])
  {
  }

  lemma CollapsedStays(text: string)
    requires IsCollapsed(text)
    ensures Gathered(text).0 == text
  {
    CollapsedPrefix(text, |text|);
    assert text[..|text|] == text;
  }

  /** `r` starts as `s` does, for seven tenths of its room, and ends as `s` does. */
  predicate BothEnds(s: string, r: string, head: nat, max: nat) {
    && 1 <= head && head + 3 < max < |s| && 0 <= (max - 3) * 7 - head * 10 < 10
    && r == s[..head] + "..." + s[|s| - (max - 3 - head)..]
  }

  /** The words joined by single spaces when they fit; of a longer text, seven tenths from its start and the
      rest from its end. */
  lemma CompactEnds(text: string, max: nat)
    requires max >= 5
    ensures var joined, r := Joined(Words(text, IsSpace)), Compact(text, max);
            && (|joined| <= max ==> r == joined)
            && (|joined| > max ==>
                  |r| == max && exists head: nat :: BothEnds(joined, r, head, max))
  {
    GatheredJoins(text);
    hide Gathered, Joined, Words;
    var joined := Joined(Words(text, IsSpace));
    if |joined| > max {
      var head := if (max - 3) * 7 / 10 >= 1 then (max - 3) * 7 / 10 else 1;
      assert BothEnds(joined, Compact(text, max), head, max);
    }
  }

  /** A summary fits, is free of runs of white space, and summarizing it again changes nothing; a text is
      its own summary exactly when it fits and is free of them. */
  lemma CompactFits(text: string, max: nat)
    requires max >= 5
    ensures |Compact(text, max)| <= max && IsCollapsed(Compact(text, max))
    ensures Compact(text, max) == text <==> IsCollapsed(text) && |text| <= max
    ensures Compact(Compact(text, max), max) == Compact(text, max)
  {
    hide IsCollapsed, Gathered;
    CompactCollapsed(text, max);
    CollapsedStays(Compact(text, max));
    if IsCollapsed(text) {
      CollapsedStays(text);
    }
  }

  // -- motif labels --------------------------------------------------------------------------

  predicate IsWord(c: char) {
    'a' <= c <= 'z' || 'A' <= c <= 'Z' || '0' <= c <= '9' || c == '_'
  }

  function Lower(c: char): (r: char)
    ensures IsWord(c) ==> IsWord(r) && !('A' <= r <= 'Z')
    ensures r as int == c as int + if 'A' <= c <= 'Z' then 32 else 0
  {
    if 'A' <= c <= 'Z' then 'a' + (c - 'A') else c
  }

  /** The words of a prefix, joined by single spaces, and whether a gap follows them. */
  function Squeezed(s: string): (string, bool) {
    if s == "" then ("", false)
    else
      var (words, gap) := Squeezed(s[..|s| - 1]);
      var c := s[|s| - 1];
      if !IsWord(c) then (words, true)
      else (words + (if gap && words != "" then " " else "") + [Lower(c)], false)
  }

  function NormalizeLabel(text: string): string {
    Squeezed(text).0
  }

  function LowerWords(words: seq<string>): (r: seq<string>)
    ensures |r| == |words|
    ensures forall i :: 0 <= i < |words| ==>
              |r[i]| == |words[i]| && forall k :: 0 <= k < |words[i]| ==> r[i][k] == Lower(words[i][k])
  {
    seq(|words|, i requires 0 <= i < |words| =>
      seq(|words[i]|, k requires 0 <= k < |words[i]| => Lower(words[i][k])))
  }

  predicate IsGap(c: char) {
    !IsWord(c)
  }

  lemma LowerMore(words: seq<string>, c: char)
    ensures LowerWords(words + [[c]]) == LowerWords(words) + [[Lower(c)]]
    ensures words != [] ==>
              LowerWords(Longer(words, c)) == Longer(LowerWords(words), Lower(c))
  {
    var u, v := LowerWords(words + [[c]]), LowerWords(words) + [[Lower(c)]];
    forall i | 0 <= i < |u| ensures u[i] == v[i] {
      assert |u[i]| == |v[i]|;
    }
    if words != [] {
      var x, y := LowerWords(Longer(words, c)), Longer(LowerWords(words), Lower(c));
      forall i | 0 <= i < |words| ensures x[i] == y[i] {
        assert |x[i]| == |y[i]|;
      }
    }
  }

  /** A label is the words of a text in lower case, joined by single spaces; everything but letters, digits
      and underscores separates words. */
  lemma {:induction false} LabelJoins(s: string)
    ensures NormalizeLabel(s) == Joined(LowerWords(Words(s, IsGap)))
    ensures Squeezed(s).1 <==> s != "" && IsGap(s[|s| - 1])
  {
    if s != "" {
      var n := |s| - 1;
      var earlier := Words(s[..n], IsGap);
      LabelJoins(s[..n]);
      JoinedEmpty(LowerWords(earlier));
      LowerMore(earlier, s[n]);
      if IsWord(s[n]) {
        if n == 0 || IsGap(s[n - 1]) {
          JoinedMore(LowerWords(earlier), [Lower(s[n])]);
        } else {
          JoinedLonger(LowerWords(earlier), Lower(s[n]));
        }
      }
    }
  }

  /** Lower-case words with single spaces between them. */
  predicate IsNormal(s: string) {
    && (forall i :: 0 <= i < |s| ==> s[i] == ' ' || (IsWord(s[i]) && !('A' <= s[i] <= 'Z')))
    && (s != "" ==> s[0] != ' ' && s[|s| - 1] != ' ')
    && (forall i :: 0 < i < |s| && s[i] == ' ' ==> s[i - 1] != ' ')
  }

  lemma {:induction false} NormalizedIsNormal(s: string)
    ensures IsNormal(NormalizeLabel(s))
  {
    if s != "" {
      NormalizedIsNormal(s[..|s| - 1]);
    }
  }

  lemma {:induction false} NormalPrefix(s: string, k: nat)
    requires IsNormal(s) && k <= |s|
    ensures Squeezed(s[..k]) == if k > 0 && s[k - 1] == ' ' then (s[..k - 1], true) else (s[..k], false)
  {
    if k > 0 {
      NormalPrefix(s, k - 1);
      var p := s[..k];
      assert p[..|p| - 1] == s[..k - 1] && p[|p| - 1] == s[k - 1];
      if k > 1 && s[k - 2] == ' ' {
        assert s[..k] == s[..k - 2] + " " + [s[k - 1]];
      } else {
        assert s[..k] == s[..k - 1] + "" + [s[k - 1]];
      }
    }
  }

  /** A label is normal exactly when normalizing leaves it alone, so normalizing twice is normalizing once. */
  lemma NormalizeTwice(s: string)
    ensures IsNormal(s) <==> NormalizeLabel(s) == s
    ensures NormalizeLabel(NormalizeLabel(s)) == NormalizeLabel(s)
  {
    NormalizedIsNormal(s);
    var n := NormalizeLabel(s);
    NormalPrefix(n, |n|);
    assert n[..|n|] == n;
    if IsNormal(s) {
      NormalPrefix(s, |s|);
      assert s[..|s|] == s;
    }
  }
}

/** Whole-word chat censoring (internal/contentfilter/filter.go). */
module ContentFilter {
  import opened Common

  /** The Unicode tables the filter consults, as far as it can observe them. */
  datatype Unicode = Unicode(lower: char -> char, letter: char -> bool, digit: char -> bool) {
    ghost predicate Valid() {
      && lower(' ') == ' ' && lower('*') == '*'
      && (forall c :: lower(c) == ' ' ==> c == ' ')
      && !letter(' ') && !digit(' ') && !letter('*') && !digit('*')
      && (forall c :: c in LEET ==> letter(LEET[c]))
    }
  }

  const LEET: map<char, char> := map[
    '0' := 'o', '1' := 'i', '3' := 'e', '4' := 'a', '5' := 's', '7' := 't', '8' := 'b', '9' := 'g',
    '@' := 'a', '$' := 's', '!' := 'i', '\U{A1}' := 'i', '+' := 't', '(' := 'c', '|' := 'l'
  ]

  datatype NormalizedRune = NormalizedRune(value: char, originalIndex: nat)

  /** What one rune contributes to the text that is matched; None when it is skipped. */
  function Fold(u: Unicode, c: char): (r: Option<char>) {
    var lower := u.lower(c);
    if lower in LEET then Some(LEET[lower])
    else if u.letter(lower) || u.digit(lower) || lower == ' ' then Some(lower)
    else None
  }

  predicate WordCharacter(u: Unicode, value: char) {
    u.letter(value) || u.digit(value)
  }

  lemma FoldFacts(u: Unicode, c: char)
    requires u.Valid()
    ensures Fold(u, '*') == None && Fold(u, ' ') == Some(' ')
    ensures Fold(u, c).Some? ==> (Fold(u, c).value == ' ' <==> c == ' ')
    ensures Fold(u, c).Some? ==> (WordCharacter(u, Fold(u, c).value) <==> c != ' ')
  {
  }

  function Normalized(u: Unicode, message: seq<char>): (n: seq<NormalizedRune>) {
    if message == [] then []
    else
      var k := |message| - 1;
      var front := Normalized(u, message[..k]);
      match Fold(u, message[k])
      case Some(value) => front + [NormalizedRune(value, k)]
      case None => front
  }

  /** `word` occurs at `start` and is bounded by the text's ends or by non-word runes. */
  predicate MatchesAt(u: Unicode, text: seq<NormalizedRune>, word: seq<char>, start: nat) {
    && start + |word| <= |text|
    && (start > 0 ==> !WordCharacter(u, text[start - 1].value))
    && (start + |word| < |text| ==> !WordCharacter(u, text[start + |word|].value))
    && (forall k :: 0 <= k < |word| ==> text[start + k].value == word[k])
  }

  /** Original position `i` lies in the span of the match of `word` at `start`. */
  predicate CoveredAt(u: Unicode, text: seq<NormalizedRune>, word: seq<char>, start: nat, i: nat) {
    && word != []
    && MatchesAt(u, text, word, start)
    && text[start].originalIndex <= i <= text[start + |word| - 1].originalIndex
  }

  ghost predicate CoveredBefore(u: Unicode, text: seq<NormalizedRune>, word: seq<char>, limit: nat, i: nat) {
    exists start: nat :: start < limit && CoveredAt(u, text, word, start, i)
  }

  ghost predicate Covered(u: Unicode, text: seq<NormalizedRune>, words: seq<seq<char>>, i: nat) {
    exists w: nat, start: nat :: w < |words| && CoveredAt(u, text, words[w], start, i)
  }

  /** The promise: a rune that is not a space turns into a star exactly inside a matched span. */
  ghost function Censored(u: Unicode, words: seq<seq<char>>, message: seq<char>): (r: seq<char>)
    ensures |r| == |message|
  {
    var text := Normalized(u, message);
    seq(|message|, i requires 0 <= i < |message| =>
      if message[i] != ' ' && Covered(u, text, words, i) then '*' else message[i])
  }

  /** A list phrase as the loader leaves it: no outer space, no two spaces in a row. */
  predicate Phrase(word: seq<char>) {
    && word != [] && word[0] != ' ' && word[|word| - 1] != ' '
    && (forall k :: 0 <= k < |word| - 1 ==> !(word[k] == ' ' && word[k + 1] == ' '))
  }

  predicate Phrases(words: seq<seq<char>>) {
    forall w :: 0 <= w < |words| ==> Phrase(words[w])
  }

  // ---------- The imperative filter ----------

  method Normalize(u: Unicode, message: seq<char>) returns (text: seq<NormalizedRune>)
    ensures text == Normalized(u, message)
  {
    text := [];
    for index := 0 to |message|
      invariant text == Normalized(u, message[..index])
    {
      assert message[..index + 1][..index] == message[..index];
      var lower := u.lower(message[index]);
      if lower in LEET {
        text := text + [NormalizedRune(LEET[lower], index)];
      } else if u.letter(lower) || u.digit(lower) || lower == ' ' {
        text := text + [NormalizedRune(lower, index)];
      }
    }
    assert message[..|message|] == message;
  }

  ghost predicate Starred(before: char, now: char, covered: bool) {
    now == if before != ' ' && covered then '*' else before
  }

  /** Stars one matched span in place, leaving its spaces. */
  method StarSpan(original: array<char>, from: nat, to: nat)
    requires from <= to <= original.Length
    modifies original
    ensures forall i :: 0 <= i < original.Length ==>
      original[i] == if from <= i < to && old(original[i]) != ' ' then '*' else old(original[i])
  {
    for index := from to to
      invariant forall i :: 0 <= i < original.Length ==>
        original[i] == if from <= i < index && old(original[i]) != ' ' then '*' else old(original[i])
    {
      if original[index] != ' ' {
        original[index] := '*';
      }
    }
  }

  method MatchWord(u: Unicode, text: seq<NormalizedRune>, word: seq<char>, start: nat) returns (matched: bool)
    requires start + |word| <= |text|
    ensures matched == MatchesAt(u, text, word, start)
  {
    var end := start + |word|;
    if start > 0 && WordCharacter(u, text[start - 1].value) {
      return false;
    }
    if end < |text| && WordCharacter(u, text[end].value) {
      return false;
    }
    for offset := 0 to |word|
      invariant forall k :: 0 <= k < offset ==> text[start + k].value == word[k]
    {
      if text[start + offset].value != word[offset] {
        return false;
      }
    }
    return true;
  }

  method CensorWord(u: Unicode, text: seq<NormalizedRune>, word: seq<char>, original: array<char>)
    requires word != []
    requires forall k :: 0 <= k < |text| ==> text[k].originalIndex < original.Length
    requires forall j, k :: 0 <= j < k < |text| ==> text[j].originalIndex < text[k].originalIndex
    modifies original
    ensures forall i :: 0 <= i < original.Length ==>
      Starred(old(original[i]), original[i], CoveredBefore(u, text, word, |text|, i))
  {
    var start := 0;
    while start + |word| <= |text|
      invariant start <= |text|
      invariant forall i :: 0 <= i < original.Length ==>
        Starred(old(original[i]), original[i], CoveredBefore(u, text, word, start, i))
      decreases |text| - start
    {
      var matched := MatchWord(u, text, word, start);
      ghost var before := original[..];
      if matched {
        StarSpan(original, text[start].originalIndex, text[start + |word| - 1].originalIndex + 1);
      }
      forall i | 0 <= i < original.Length
        ensures CoveredBefore(u, text, word, start + 1, i)
            <==> CoveredBefore(u, text, word, start, i) || CoveredAt(u, text, word, start, i)
        ensures Starred(old(original[i]), original[i], CoveredBefore(u, text, word, start + 1, i))
      {
        assert Starred(old(original[i]), before[i], CoveredBefore(u, text, word, start, i));
        if CoveredAt(u, text, word, start, i) {
          assert start < start + 1;
        }
      }
      start := start + 1;
    }
    forall i | 0 <= i < original.Length
      ensures CoveredBefore(u, text, word, start, i) <==> CoveredBefore(u, text, word, |text|, i)
    {
      forall s: nat | s < |text| && CoveredAt(u, text, word, s, i) ensures s < start {
      }
    }
  }

  /** The first `w` phrases have been starred in `now`. */
  ghost predicate Progress(u: Unicode, text: seq<NormalizedRune>, words: seq<seq<char>>, w: nat,
                           message: seq<char>, now: seq<char>)
    requires w <= |words|
  {
    && |now| == |message|
    && (forall i :: 0 <= i < |now| ==> Starred(message[i], now[i], Covered(u, text, words[..w], i)))
  }

  lemma ProgressByOneMore(u: Unicode, text: seq<NormalizedRune>, words: seq<seq<char>>, w: nat,
                          message: seq<char>, before: seq<char>, now: seq<char>)
    requires w < |words| && Progress(u, text, words, w, message, before) && |now| == |before|
    requires forall i :: 0 <= i < |now| ==> Starred(before[i], now[i], CoveredBefore(u, text, words[w], |text|, i))
    ensures Progress(u, text, words, w + 1, message, now)
  {
    forall i | 0 <= i < |now| ensures Starred(message[i], now[i], Covered(u, text, words[..w + 1], i)) {
      CoveredByOneMore(u, text, words, w, i);
      assert Starred(message[i], before[i], Covered(u, text, words[..w], i));
      assert Starred(before[i], now[i], CoveredBefore(u, text, words[w], |text|, i));
    }
  }

  lemma NoProgress(u: Unicode, text: seq<NormalizedRune>, words: seq<seq<char>>, message: seq<char>)
    ensures Progress(u, text, words, 0, message, message)
  {
  }

  lemma FullProgress(u: Unicode, words: seq<seq<char>>, message: seq<char>, now: seq<char>)
    requires Progress(u, Normalized(u, message), words, |words|, message, now)
    ensures now == Censored(u, words, message)
  {
    assert words[..|words|] == words;
    forall i | 0 <= i < |now| ensures now[i] == Censored(u, words, message)[i] {
      assert Starred(message[i], now[i], Covered(u, Normalized(u, message), words, i));
    }
  }

  method CensorChat(u: Unicode, words: seq<seq<char>>, message: seq<char>) returns (r: seq<char>)
    requires forall w :: 0 <= w < |words| ==> words[w] != []
    ensures r == Censored(u, words, message)
  {
    var original := new char[|message|](i requires 0 <= i < |message| => message[i]);
    var text := Normalize(u, message);
    NormalizedIndices(u, message);
    assert original[..] == message;
    NoProgress(u, text, words, message);
    var w := 0;
    while w < |words|
      invariant 0 <= w <= |words|
      invariant Progress(u, text, words, w, message, original[..])
    {
      ghost var before := original[..];
      CensorWord(u, text, words[w], original);
      ProgressByOneMore(u, text, words, w, message, before, original[..]);
      w := w + 1;
    }
    FullProgress(u, words, message, original[..]);
    r := original[..];
  }

  lemma CoveredByOneMore(u: Unicode, text: seq<NormalizedRune>, words: seq<seq<char>>, w: nat, i: nat)
    requires w < |words|
    ensures Covered(u, text, words[..w + 1], i)
        <==> Covered(u, text, words[..w], i) || CoveredBefore(u, text, words[w], |text|, i)
  {
    var more := words[..w + 1];
    if Covered(u, text, more, i) {
      var v: nat, start: nat :| v < |more| && CoveredAt(u, text, more[v], start, i);
      if v < w {
        assert words[..w][v] == more[v];
      } else {
        assert start < |text|;
      }
    }
    if Covered(u, text, words[..w], i) {
      var v: nat, start: nat :| v < |words[..w]| && CoveredAt(u, text, words[..w][v], start, i);
      assert more[v] == words[..w][v];
    }
    if CoveredBefore(u, text, words[w], |text|, i) {
      var start: nat :| start < |text| && CoveredAt(u, text, words[w], start, i);
      assert more[w] == words[w];
    }
  }

  // ---------- Facts about normalised text ----------

  /** Entries carry their rune and come in the order of the message. */
  lemma {:induction false} NormalizedIndices(u: Unicode, message: seq<char>)
    ensures var n := Normalized(u, message);
      && |n| <= |message|
      && (forall k :: 0 <= k < |n| ==> n[k].originalIndex < |message|)
      && (forall k :: 0 <= k < |n| ==> Fold(u, message[n[k].originalIndex]) == Some(n[k].value))
      && (forall j, k :: 0 <= j < k < |n| ==> n[j].originalIndex < n[k].originalIndex)
  {
    if message != [] {
      NormalizedIndices(u, message[..|message| - 1]);
    }
  }

  /** Where a visible rune is found in the normalised text. */
  function Rank(u: Unicode, message: seq<char>, i: nat): (r: nat)
    requires i <= |message|
  {
    |Normalized(u, message[..i])|
  }

  lemma {:induction false} NormalizedAt(u: Unicode, message: seq<char>, i: nat)
    requires i < |message| && Fold(u, message[i]).Some?
    ensures var n := Normalized(u, message);
      Rank(u, message, i) < |n| && n[Rank(u, message, i)] == NormalizedRune(Fold(u, message[i]).value, i)
  {
    var k := |message| - 1;
    if i < k {
      NormalizedAt(u, message[..k], i);
      assert message[..k][..i] == message[..i];
    }
  }

  // ---------- The promises of the filter ----------

  lemma CensoredIsExact(u: Unicode, words: seq<seq<char>>, message: seq<char>, i: nat)
    requires u.Valid() && i < |message|
    ensures var r := Censored(u, words, message);
      && |r| == |message|
      && (r[i] == ' ' <==> message[i] == ' ')
      && (message[i] != ' ' && message[i] != '*' ==>
            (r[i] == '*' <==> Covered(u, Normalized(u, message), words, i)))
      && (r[i] != '*' ==> r[i] == message[i])
  {
  }

  /** Only the set of phrases counts. */
  lemma CensoredIgnoresOrder(u: Unicode, words: seq<seq<char>>, other: seq<seq<char>>, message: seq<char>)
    requires forall w :: w in words <==> w in other
    ensures Censored(u, words, message) == Censored(u, other, message)
  {
    var text := Normalized(u, message);
    forall i: nat | i < |message| ensures Covered(u, text, words, i) <==> Covered(u, text, other, i) {
      CoveredByFewer(u, text, words, other, i);
      CoveredByFewer(u, text, other, words, i);
    }
  }

  lemma CoveredByFewer(u: Unicode, text: seq<NormalizedRune>, words: seq<seq<char>>, more: seq<seq<char>>, i: nat)
    requires forall w :: w in words ==> w in more
    ensures Covered(u, text, words, i) ==> Covered(u, text, more, i)
  {
    if Covered(u, text, words, i) {
      var w: nat, start: nat :| w < |words| && CoveredAt(u, text, words[w], start, i);
      assert words[w] in more;
      var v :| 0 <= v < |more| && more[v] == words[w];
      assert CoveredAt(u, text, more[v], start, i);
    }
  }

  // ---------- Idempotence ----------

  /** One pass over `m`: its text, its result and the text a second pass would read. */
  ghost predicate FirstPass(u: Unicode, words: seq<seq<char>>, m: seq<char>, n: seq<NormalizedRune>,
                            m': seq<char>, n': seq<NormalizedRune>) {
    u.Valid() && n == Normalized(u, m) && m' == Censored(u, words, m) && n' == Normalized(u, m')
  }

  /** A rune the first pass left visible is in both normalised texts. */
  lemma KeptEntry(u: Unicode, words: seq<seq<char>>, m: seq<char>, n: seq<NormalizedRune>,
                  m': seq<char>, n': seq<NormalizedRune>, i: nat)
    requires FirstPass(u, words, m, n, m', n') && i < |m'| && Fold(u, m'[i]).Some?
    ensures i < |m| && m'[i] == m[i] && m[i] != '*'
    ensures Rank(u, m, i) < |n| && Rank(u, m', i) < |n'|
    ensures n[Rank(u, m, i)] == n'[Rank(u, m', i)] == NormalizedRune(Fold(u, m[i]).value, i)
  {
    FoldFacts(u, '*');
    NormalizedAt(u, m, i);
    NormalizedAt(u, m', i);
  }

  lemma RemovedIsCovered(u: Unicode, words: seq<seq<char>>, m: seq<char>, n: seq<NormalizedRune>,
                         m': seq<char>, n': seq<NormalizedRune>, y: nat) returns (w: nat, a: nat)
    requires FirstPass(u, words, m, n, m', n') && y < |n|
    requires n[y].originalIndex < |m'| ==> Fold(u, m'[n[y].originalIndex]).None?
    ensures w < |words| && words[w] != [] && MatchesAt(u, n, words[w], a) && a <= y < a + |words[w]|
    ensures forall z :: a <= z < a + |words[w]| ==> CoveredAt(u, n, words[w], a, n[z].originalIndex)
  {
    NormalizedIndices(u, m);
    var p := n[y].originalIndex;
    assert m'[p] != m[p];
    w, a :| w < |words| && CoveredAt(u, n, words[w], a, p);
    var b := a + |words[w]|;
    if y < a || b <= y {
      assert false;
    }
  }

  lemma EntryValue(u: Unicode, m: seq<char>, z: nat)
    requires z < |Normalized(u, m)|
    ensures
      var entry := Normalized(u, m)[z];
      entry.originalIndex < |m| && Fold(u, m[entry.originalIndex]) == Some(entry.value)
  {
    NormalizedIndices(u, m);
  }

  /** A match goes on to its word characters' neighbours. */
  lemma NeighbourIsMatched(u: Unicode, n: seq<NormalizedRune>, word: seq<char>, a: nat, y: nat, z: nat)
    requires MatchesAt(u, n, word, a) && a <= y < a + |word| && z < |n| && (z == y + 1 || y == z + 1)
    requires WordCharacter(u, n[z].value)
    ensures a <= z < a + |word|
  {
  }

  /** Next to a rune the first pass removed, only spaces can survive. */
  lemma SurvivorsBesideRemovedAreSpaces(u: Unicode, words: seq<seq<char>>, m: seq<char>, n: seq<NormalizedRune>,
                                        m': seq<char>, n': seq<NormalizedRune>, y: nat, z: nat)
    requires FirstPass(u, words, m, n, m', n')
    requires y < |n| && z < |n| && (z == y + 1 || y == z + 1)
    requires n[y].originalIndex < |m'| ==> Fold(u, m'[n[y].originalIndex]).None?
    requires n[z].originalIndex < |m'| && Fold(u, m'[n[z].originalIndex]).Some?
    ensures n[z].value == ' '
  {
    var q := n[z].originalIndex;
    KeptEntry(u, words, m, n, m', n', q);
    FoldFacts(u, m[q]);
    EntryValue(u, m, z);
    if m[q] != ' ' {
      NormalizedIndices(u, m);
      var w, a := RemovedIsCovered(u, words, m, n, m', n', y);
      NeighbourIsMatched(u, n, words[w], a, y, z);
      assert false;
    }
  }

  /** What survives on both sides of a removed run is space. */
  lemma EndsOfRemovedAreSpaces(u: Unicode, words: seq<seq<char>>, m: seq<char>, n: seq<NormalizedRune>,
                               m': seq<char>, n': seq<NormalizedRune>, y: nat, r: nat)
    requires FirstPass(u, words, m, n, m', n') && y + 1 < r < |n|
    requires n == Normalized(u, m)
    requires n[y].originalIndex < |m'| && Fold(u, m'[n[y].originalIndex]).Some?
    requires n[r].originalIndex < |m'| && Fold(u, m'[n[r].originalIndex]).Some?
    requires forall z :: y < z < r ==> n[z].originalIndex < |m'| && Fold(u, m'[n[z].originalIndex]).None?
    ensures n[y].value == ' ' && n[r].value == ' '
  {
    SurvivorsBesideRemovedAreSpaces(u, words, m, n, m', n', y + 1, y);
    SurvivorsBesideRemovedAreSpaces(u, words, m, n, m', n', r - 1, r);
  }

  /** What lies between two consecutive survivors was removed. */
  lemma NothingSurvivesBetween(u: Unicode, words: seq<seq<char>>, m: seq<char>, n: seq<NormalizedRune>,
                               m': seq<char>, n': seq<NormalizedRune>, x: nat, y: nat, r: nat)
    requires FirstPass(u, words, m, n, m', n') && |m'| == |m|
    requires x + 1 < |n'| && y < r < |n| && n[y] == n'[x] && n[r] == n'[x + 1]
    ensures forall z :: y < z < r ==> n[z].originalIndex < |m'| && Fold(u, m'[n[z].originalIndex]).None?
  {
    NormalizedIndices(u, m);
    NormalizedIndices(u, m');
    forall z | y < z < r ensures Fold(u, m'[n[z].originalIndex]).None? {
      if Fold(u, m'[n[z].originalIndex]).Some? {
        KeptEntry(u, words, m, n, m', n', n[z].originalIndex);
        assert false;
      }
    }
  }

  /** Consecutive survivors inside a phrase were consecutive before the first pass. */
  lemma SurvivorsAreAdjacent(u: Unicode, words: seq<seq<char>>, m: seq<char>, n: seq<NormalizedRune>,
                             m': seq<char>, n': seq<NormalizedRune>, x: nat, y: nat)
    requires FirstPass(u, words, m, n, m', n')
    requires x + 1 < |n'| && y < |n| && n[y] == n'[x]
    requires !(n'[x].value == ' ' && n'[x + 1].value == ' ')
    ensures y + 1 < |n| && n[y + 1] == n'[x + 1]
  {
    NormalizedIndices(u, m);
    NormalizedIndices(u, m');
    var q := n'[x + 1].originalIndex;
    KeptEntry(u, words, m, n, m', n', q);
    var r := Rank(u, m, q);
    assert n[r] == n'[x + 1] && y < r;
    if y + 1 < r {
      NothingSurvivesBetween(u, words, m, n, m', n', x, y, r);
      EndsOfRemovedAreSpaces(u, words, m, n, m', n', y, r);
      assert false;
    }
  }

  ghost predicate Agree(n: seq<NormalizedRune>, y: nat, n': seq<NormalizedRune>, x: nat, k: nat) {
    y + k < |n| && x + k < |n'| && n[y + k] == n'[x + k]
  }

  ghost predicate SameRun(n: seq<NormalizedRune>, y: nat, n': seq<NormalizedRune>, x: nat, length: nat) {
    forall k: nat :: k < length ==> Agree(n, y, n', x, k)
  }

  lemma PhraseHasNoDoubleSpace(u: Unicode, n: seq<NormalizedRune>, word: seq<char>, x: nat, k: nat)
    requires Phrase(word) && MatchesAt(u, n, word, x) && 0 < k < |word|
    ensures !(n[x + k - 1].value == ' ' && n[x + k].value == ' ')
  {
    var j := k - 1;
    assert n[x + j].value == word[j] && n[x + k].value == word[k];
    assert !(word[j] == ' ' && word[j + 1] == ' ');
  }

  lemma {:induction false} PhraseRunIsKept(
      u: Unicode, words: seq<seq<char>>, m: seq<char>, n: seq<NormalizedRune>,
      m': seq<char>, n': seq<NormalizedRune>, word: seq<char>, x: nat, y: nat, k: nat)
    requires FirstPass(u, words, m, n, m', n')
    requires Phrase(word) && MatchesAt(u, n', word, x) && k < |word|
    requires y < |n| && n[y] == n'[x]
    ensures SameRun(n, y, n', x, k + 1)
  {
    if k > 0 {
      PhraseRunIsKept(u, words, m, n, m', n', word, x, y, k - 1);
      assert Agree(n, y, n', x, k - 1);
      PhraseHasNoDoubleSpace(u, n', word, x, k);
      SurvivorsAreAdjacent(u, words, m, n, m', n', x + k - 1, y + k - 1);
    }
  }

  ghost predicate InOrder(n: seq<NormalizedRune>) {
    forall j, k :: 0 <= j < k < |n| ==> n[j].originalIndex < n[k].originalIndex
  }

  lemma PassIsInOrder(u: Unicode, words: seq<seq<char>>, m: seq<char>, n: seq<NormalizedRune>,
                      m': seq<char>, n': seq<NormalizedRune>)
    requires FirstPass(u, words, m, n, m', n')
    ensures InOrder(n) && InOrder(n')
  {
    NormalizedIndices(u, m);
    NormalizedIndices(u, m');
  }

  /** The first text's entry for a rune of the second. */
  lemma InFirst(u: Unicode, words: seq<seq<char>>, m: seq<char>, n: seq<NormalizedRune>,
                m': seq<char>, n': seq<NormalizedRune>, x: nat) returns (y: nat)
    requires FirstPass(u, words, m, n, m', n') && x < |n'|
    ensures y < |n| && n[y] == n'[x]
  {
    NormalizedIndices(u, m');
    KeptEntry(u, words, m, n, m', n', n'[x].originalIndex);
    y := Rank(u, m, n'[x].originalIndex);
  }

  /** The second text's entry for the neighbour of a surviving rune that is not a space. */
  lemma NeighbourInSecond(u: Unicode, words: seq<seq<char>>, m: seq<char>, n: seq<NormalizedRune>,
                          m': seq<char>, n': seq<NormalizedRune>, x: nat, y: nat, z: nat) returns (v: nat)
    requires FirstPass(u, words, m, n, m', n')
    requires x < |n'| && y < |n| && n[y] == n'[x] && n[y].value != ' '
    requires z < |n| && (z == y + 1 || y == z + 1)
    ensures v < |n'| && n'[v] == n[z]
  {
    NormalizedIndices(u, m);
    NormalizedIndices(u, m');
    var t := n[z].originalIndex;
    if Fold(u, m'[t]).None? {
      SurvivorsBesideRemovedAreSpaces(u, words, m, n, m', n', z, y);
      assert false;
    }
    KeptEntry(u, words, m, n, m', n', t);
    v := Rank(u, m', t);
  }

  lemma Squeezed(n: seq<NormalizedRune>, n': seq<NormalizedRune>, x: nat, y: nat, v: nat, w: nat)
    requires InOrder(n) && InOrder(n') && x < |n'| && y < |n| && n[y] == n'[x]
    requires v < |n'| && w < |n|
    ensures 0 < y && n'[v] == n[y - 1] ==> v < x && (n[w] == n'[x - 1] ==> v == x - 1)
    ensures y + 1 < |n| && n'[v] == n[y + 1] ==> x < v && (n[w] == n'[x + 1] ==> v == x + 1)
  {
    if 0 < y && n'[v] == n[y - 1] && n[w] == n'[x - 1] {
      assert v < x && w < y && y - 1 <= w;
    }
    if y + 1 < |n| && n'[v] == n[y + 1] && n[w] == n'[x + 1] {
      assert x < v && y < w && w <= y + 1;
    }
  }

  lemma LeftBoundarySurvives(u: Unicode, words: seq<seq<char>>, m: seq<char>, n: seq<NormalizedRune>,
                             m': seq<char>, n': seq<NormalizedRune>, x: nat, y: nat)
    requires FirstPass(u, words, m, n, m', n')
    requires x < |n'| && 0 < y < |n| && n[y] == n'[x] && n[y].value != ' '
    ensures x > 0 && n[y - 1] == n'[x - 1]
  {
    PassIsInOrder(u, words, m, n, m', n');
    var v := NeighbourInSecond(u, words, m, n, m', n', x, y, y - 1);
    Squeezed(n, n', x, y, v, y);
    var w := InFirst(u, words, m, n, m', n', x - 1);
    Squeezed(n, n', x, y, v, w);
  }

  lemma RightBoundarySurvives(u: Unicode, words: seq<seq<char>>, m: seq<char>, n: seq<NormalizedRune>,
                              m': seq<char>, n': seq<NormalizedRune>, x: nat, y: nat)
    requires FirstPass(u, words, m, n, m', n')
    requires x < |n'| && y + 1 < |n| && n[y] == n'[x] && n[y].value != ' '
    ensures x + 1 < |n'| && n[y + 1] == n'[x + 1]
  {
    PassIsInOrder(u, words, m, n, m', n');
    var v := NeighbourInSecond(u, words, m, n, m', n', x, y, y + 1);
    Squeezed(n, n', x, y, v, y);
    var w := InFirst(u, words, m, n, m', n', x + 1);
    Squeezed(n, n', x, y, v, w);
  }

  lemma SameRunMatches(u: Unicode, n: seq<NormalizedRune>, y: nat, n': seq<NormalizedRune>, x: nat, word: seq<char>)
    requires word != [] && MatchesAt(u, n', word, x) && SameRun(n, y, n', x, |word|)
    ensures y + |word| <= |n|
    ensures n[y] == n'[x] && n[y].value == word[0]
    ensures n[y + |word| - 1] == n'[x + |word| - 1] && n[y + |word| - 1].value == word[|word| - 1]
    ensures forall k :: 0 <= k < |word| ==> n[y + k].value == word[k]
  {
    var last := |word| - 1;
    assert Agree(n, y, n', x, last);
    forall k: nat | k < |word| ensures n[y + k] == n'[x + k] && n[y + k].value == word[k] {
      assert Agree(n, y, n', x, k);
      assert n'[x + k].value == word[k];
    }
    assert Agree(n, y, n', x, 0) && n[y + 0].value == word[0];
    assert n[y + last].value == word[last];
  }

  /** Every match in the censored text was already a match, on the same runes. */
  lemma SecondMatchIsAFirstMatch(u: Unicode, words: seq<seq<char>>, m: seq<char>, n: seq<NormalizedRune>,
                                 m': seq<char>, n': seq<NormalizedRune>, word: seq<char>, x: nat) returns (y: nat)
    requires FirstPass(u, words, m, n, m', n')
    requires Phrase(word) && MatchesAt(u, n', word, x)
    ensures MatchesAt(u, n, word, y) && SameRun(n, y, n', x, |word|)
  {
    y := FirstPassRun(u, words, m, n, m', n', word, x);
    SameRunMatches(u, n, y, n', x, word);
    if y > 0 {
      LeftBoundarySurvives(u, words, m, n, m', n', x, y);
    }
    if y + |word| < |n| {
      RightBoundarySurvives(u, words, m, n, m', n', x + |word| - 1, y + |word| - 1);
    }
  }

  lemma FirstPassRun(u: Unicode, words: seq<seq<char>>, m: seq<char>, n: seq<NormalizedRune>,
                     m': seq<char>, n': seq<NormalizedRune>, word: seq<char>, x: nat) returns (y: nat)
    requires FirstPass(u, words, m, n, m', n')
    requires Phrase(word) && MatchesAt(u, n', word, x)
    ensures SameRun(n, y, n', x, |word|)
  {
    y := InFirst(u, words, m, n, m', n', x);
    PhraseRunIsKept(u, words, m, n, m', n', word, x, y, |word| - 1);
  }

  lemma CoveredAgainWasCovered(u: Unicode, words: seq<seq<char>>, m: seq<char>, n: seq<NormalizedRune>,
                               m': seq<char>, n': seq<NormalizedRune>, i: nat)
    requires FirstPass(u, words, m, n, m', n') && Phrases(words)
    requires Covered(u, n', words, i)
    ensures Covered(u, n, words, i)
  {
    var w: nat, x: nat :| w < |words| && CoveredAt(u, n', words[w], x, i);
    var y := SecondMatchIsAFirstMatch(u, words, m, n, m', n', words[w], x);
    SameRunMatches(u, n, y, n', x, words[w]);
    assert CoveredAt(u, n, words[w], y, i);
  }

  /** Censoring what was censored changes nothing. */
  lemma CensoringTwiceIsCensoringOnce(u: Unicode, words: seq<seq<char>>, message: seq<char>)
    requires u.Valid() && Phrases(words)
    ensures Censored(u, words, Censored(u, words, message)) == Censored(u, words, message)
  {
    var once := Censored(u, words, message);
    forall i: nat | i < |once| && once[i] != ' ' && Covered(u, Normalized(u, once), words, i)
      ensures once[i] == '*'
    {
      CoveredAgainWasCovered(u, words, message, Normalized(u, message), once, Normalized(u, once), i);
    }
  }

  // ---------- The shape of the list matters ----------

  const LOOKALIKES := "01345789@$!\U{A1}+(|"

  /** Look-alikes are read as the letters they stand for. */
  lemma LookalikesAreRead(u: Unicode, k: nat)
    requires k < |LOOKALIKES| && u.lower(LOOKALIKES[k]) == LOOKALIKES[k]
    ensures Fold(u, LOOKALIKES[k]) == Some("oieastbgasiitcl"[k])
  {
  }

  /** All other letters, digits and spaces are read as their lower case, and nothing else is. */
  lemma OthersAreReadAsTheyAre(u: Unicode, c: char)
    requires u.lower(c) !in LOOKALIKES
    ensures Fold(u, c) == if u.letter(u.lower(c)) || u.digit(u.lower(c)) || u.lower(c) == ' ' then Some(u.lower(c)) else None
  {
    assert forall l :: l in LEET ==> l in LOOKALIKES by {
      assert LOOKALIKES[0] == '0' && LOOKALIKES[1] == '1' && LOOKALIKES[2] == '3' && LOOKALIKES[3] == '4' && LOOKALIKES[4] == '5';
      assert LOOKALIKES[5] == '7' && LOOKALIKES[6] == '8' && LOOKALIKES[7] == '9' && LOOKALIKES[8] == '@' && LOOKALIKES[9] == '$';
      assert LOOKALIKES[10] == '!' && LOOKALIKES[11] == '\U{A1}' && LOOKALIKES[12] == '+' && LOOKALIKES[13] == '(';
      assert LOOKALIKES[14] == '|';
    }
  }

  /** What a message reads like, once look-alikes are letters and ornaments are skipped. */
  function Reading(u: Unicode, message: seq<char>): (r: seq<char>) {
    var n := Normalized(u, message);
    seq(|n|, k requires 0 <= k < |n| => n[k].value)
  }

  /** A message that reads like a listed phrase, in whatever guise, is starred altogether. */
  lemma DisguisedPhrasesAreStarred(u: Unicode, words: seq<seq<char>>, message: seq<char>, w: nat)
    requires u.Valid() && w < |words| && words[w] != [] && Reading(u, message) == words[w]
    requires message != [] && Fold(u, message[0]).Some? && Fold(u, message[|message| - 1]).Some?
    ensures forall i :: 0 <= i < |message| ==> Censored(u, words, message)[i] == if message[i] == ' ' then ' ' else '*'
  {
    var n := Normalized(u, message);
    NormalizedIndices(u, message);
    NormalizedAt(u, message, 0);
    NormalizedAt(u, message, |message| - 1);
    assert forall k :: 0 <= k < |n| ==> Reading(u, message)[k] == n[k].value;
    assert MatchesAt(u, n, words[w], 0);
    FirstIndex(u, message);
    forall i: nat | i < |message| ensures Covered(u, n, words, i) {
      assert CoveredAt(u, n, words[w], 0, i);
    }
  }

  lemma FirstIndex(u: Unicode, message: seq<char>)
    requires message != [] && Fold(u, message[0]).Some? && Fold(u, message[|message| - 1]).Some?
    ensures
      var n := Normalized(u, message);
      n != [] && n[0].originalIndex == 0 && n[|n| - 1].originalIndex == |message| - 1
  {
    NormalizedIndices(u, message);
    NormalizedAt(u, message, 0);
    NormalizedAt(u, message, |message| - 1);
    assert message[..0] == [];
  }

  /** A word is kept whatever listed words are parts of it. */
  lemma PartsOfAWordAreKept(u: Unicode, words: seq<seq<char>>, message: seq<char>)
    requires u.Valid() && ' ' !in message
    requires forall w :: 0 <= w < |words| ==> words[w] != Reading(u, message)
    ensures Censored(u, words, message) == message
  {
    var n := Normalized(u, message);
    NormalizedIndices(u, message);
    forall k | 0 <= k < |n| ensures WordCharacter(u, n[k].value) {
      FoldFacts(u, message[n[k].originalIndex]);
    }
    forall w: nat, start: nat, i: nat | w < |words| && CoveredAt(u, n, words[w], start, i) ensures false {
      OnlyTheWholeMatches(u, n, words[w], start);
    }
  }

  lemma OnlyTheWholeMatches(u: Unicode, n: seq<NormalizedRune>, word: seq<char>, start: nat)
    requires word != [] && MatchesAt(u, n, word, start) && forall k :: 0 <= k < |n| ==> WordCharacter(u, n[k].value)
    ensures word == seq(|n|, k requires 0 <= k < |n| => n[k].value)
  {
    assert start == 0 && |word| == |n|;
    assert forall k :: 0 <= k < |n| ==> n[0 + k].value == word[k];
  }

  /**
   * The single-space shape of the list is needed: removing `x` from "a x b" brings two
   * spaces together, so a phrase holding two spaces matches only in the second pass.
   */
  lemma DoubleSpacedPhraseBreaksIdempotence(u: Unicode)
    requires u.Valid() && u.lower('a') == 'a' && u.lower('b') == 'b' && u.lower('x') == 'x'
    requires u.letter('a') && u.letter('b') && u.letter('x')
    ensures Censored(u, ["x", "a  b"], "a x b") == "a * b"
    ensures Censored(u, ["x", "a  b"], "a * b") == "* * *"
  {
    FirstPassCensorsTheMiddle(u);
    SecondPassCensorsTheRest(u);
  }

  lemma FirstPassCensorsTheMiddle(u: Unicode)
    requires u.Valid() && u.lower('a') == 'a' && u.lower('b') == 'b' && u.lower('x') == 'x'
    requires u.letter('a') && u.letter('b') && u.letter('x')
    ensures Censored(u, ["x", "a  b"], "a x b") == "a * b"
  {
    var words := ["x", "a  b"];
    var n := [NormalizedRune('a', 0), NormalizedRune(' ', 1), NormalizedRune('x', 2), NormalizedRune(' ', 3), NormalizedRune('b', 4)];
    UnrollNormalized(u, "a x b");
    assert Normalized(u, "a x b") == n;
    assert CoveredAt(u, n, words[0], 2, 2);
    forall w: nat, start: nat, i: nat | w < 2 && CoveredAt(u, n, words[w], start, i) ensures i == 2 {
      assert n[start + 0].value == words[w][0];
    }
  }

  lemma SecondPassCensorsTheRest(u: Unicode)
    requires u.Valid() && u.lower('a') == 'a' && u.lower('b') == 'b' && u.letter('a') && u.letter('b')
    ensures Censored(u, ["x", "a  b"], "a * b") == "* * *"
  {
    var words := ["x", "a  b"];
    var n := [NormalizedRune('a', 0), NormalizedRune(' ', 1), NormalizedRune(' ', 3), NormalizedRune('b', 4)];
    UnrollNormalized(u, "a * b");
    assert Normalized(u, "a * b") == n;
    assert MatchesAt(u, n, words[1], 0);
    forall i: nat | i < 5 ensures Covered(u, n, words, i) {
      assert CoveredAt(u, n, words[1], 0, i);
    }
  }

  function Entry(u: Unicode, c: char, k: nat): (r: seq<NormalizedRune>) {
    match Fold(u, c)
    case Some(v) => [NormalizedRune(v, k)]
    case None => []
  }

  lemma UnrollNormalized(u: Unicode, m: seq<char>)
    requires |m| == 5
    ensures Normalized(u, m)
      == Entry(u, m[0], 0) + Entry(u, m[1], 1) + Entry(u, m[2], 2) + Entry(u, m[3], 3) + Entry(u, m[4], 4)
  {
    assert m[..4][..3] == m[..3] && m[..3][..2] == m[..2] && m[..2][..1] == m[..1] && m[..1][..0] == [];
    assert Normalized(u, m[..1]) == Entry(u, m[0], 0);
    assert Normalized(u, m[..2]) == Normalized(u, m[..1]) + Entry(u, m[1], 1);
    assert Normalized(u, m[..3]) == Normalized(u, m[..2]) + Entry(u, m[2], 2);
    assert Normalized(u, m[..4]) == Normalized(u, m[..3]) + Entry(u, m[3], 3);
  }
}

/** Canonicalisation of text for cache keys (`crates/embeddings/src/canonical.rs`). */
module Canonical {
  // Which characters count as whitespace; the space does.
  type Whitespace = char -> bool

  predicate EndsInSpace(t: string, ws: Whitespace) {
    t != [] && ws(t[|t| - 1])
  }

  // The maximal runs of characters that are not whitespace, left to right.
  function Words(t: string, ws: Whitespace): seq<string> {
    if t == [] then []
    else
      var (front, c) := (t[..|t| - 1], t[|t| - 1]);
      var words := Words(front, ws);
      if ws(c) then words
      else if words == [] || EndsInSpace(front, ws) then words + [[c]]
      else words[..|words| - 1] + [words[|words| - 1] + [c]]
  }

  function Join(words: seq<string>): string {
    if words == [] then ""
    else if |words| == 1 then words[0]
    else Join(words[..|words| - 1]) + " " + words[|words| - 1]
  }

  function Canon(t: string, ws: Whitespace): string {
    Join(Words(t, ws))
  }

  // What the character loop has written after reading `t`.
  function Collapsed(t: string, ws: Whitespace): string {
    if t == [] then ""
    else
      var (front, c) := (t[..|t| - 1], t[|t| - 1]);
      if !ws(c) then Collapsed(front, ws) + [c]
      else if EndsInSpace(front, ws) then Collapsed(front, ws)
      else Collapsed(front, ws) + " "
  }

  lemma JoinExtendLast(words: seq<string>, c: char)
    requires words != []
    ensures Join(words[..|words| - 1] + [words[|words| - 1] + [c]]) == Join(words) + [c]
  {
    var n := |words| - 1;
    var longer := words[..n] + [words[n] + [c]];
    assert longer[..n] == words[..n];
    if n > 0 {
      assert (Join(words[..n]) + " " + words[n]) + [c] == Join(words[..n]) + " " + (words[n] + [c]);
    }
  }

  lemma JoinAppend(words: seq<string>, w: string)
    requires words != []
    ensures Join(words + [w]) == Join(words) + " " + w
  {
    assert (words + [w])[..|words|] == words;
  }

  // On text that does not start with whitespace the loop writes the joined words, and a space it
  // still owes a word for.
  lemma {:induction false} CollapsedIsJoined(t: string, ws: Whitespace)
    requires t != [] ==> !ws(t[0])
    ensures Collapsed(t, ws) == Join(Words(t, ws)) + (if EndsInSpace(t, ws) then " " else "")
    ensures t != [] ==> Words(t, ws) != []
  {
    if t != [] {
      var (front, c) := (t[..|t| - 1], t[|t| - 1]);
      CollapsedIsJoined(front, ws);
      var words := Words(front, ws);
      if !ws(c) {
        if words == [] {
          assert front == [];
        } else if EndsInSpace(front, ws) {
          JoinAppend(words, [c]);
        } else {
          JoinExtendLast(words, c);
        }
      }
    }
  }

  lemma {:induction false} LeadingSpaceIsNoWord(c: char, t: string, ws: Whitespace)
    requires ws(c)
    ensures Words([c] + t, ws) == Words(t, ws)
  {
    var u := [c] + t;
    if t == [] {
      assert u[..0] == [];
    } else {
      var front := t[..|t| - 1];
      LeadingSpaceIsNoWord(c, front, ws);
      assert u[..|u| - 1] == [c] + front && u[|u| - 1] == t[|t| - 1];
      SameEnding(c, front, ws);
    }
  }

  lemma SameEnding(c: char, t: string, ws: Whitespace)
    requires ws(c)
    ensures if t == [] then Words(t, ws) == [] else EndsInSpace([c] + t, ws) == EndsInSpace(t, ws)
  {
    if t != [] {
      assert ([c] + t)[|t|] == t[|t| - 1];
    }
  }

  method Trim(text: string, ws: Whitespace) returns (trimmed: string)
    ensures Words(trimmed, ws) == Words(text, ws)
    ensures trimmed != [] ==> !ws(trimmed[0]) && !EndsInSpace(trimmed, ws)
  {
    trimmed := text;
    while trimmed != [] && ws(trimmed[0])
      invariant Words(trimmed, ws) == Words(text, ws)
    {
      assert trimmed == [trimmed[0]] + trimmed[1..];
      LeadingSpaceIsNoWord(trimmed[0], trimmed[1..], ws);
      trimmed := trimmed[1..];
    }
    while trimmed != [] && ws(trimmed[|trimmed| - 1])
      invariant trimmed != [] ==> !ws(trimmed[0])
      invariant Words(trimmed, ws) == Words(text, ws)
    {
      trimmed := trimmed[..|trimmed| - 1];
    }
  }

  /** The loop over the trimmed text computes the words joined by single spaces. */
  method Canonicalise(text: string, ws: Whitespace) returns (out: string)
    requires ws(' ')
    ensures out == Canon(text, ws)
  {
    var trimmed := Trim(text, ws);
    out := "";
    var lastWasSpace := false;
    for i := 0 to |trimmed|
      invariant out == Collapsed(trimmed[..i], ws)
      invariant lastWasSpace == EndsInSpace(trimmed[..i], ws)
    {
      var ch := trimmed[i];
      assert trimmed[..i + 1][..i] == trimmed[..i];
      if ws(ch) {
        if !lastWasSpace {
          out := out + " ";
          lastWasSpace := true;
        }
      } else {
        out := out + [ch];
        lastWasSpace := false;
      }
    }
    assert trimmed[..|trimmed|] == trimmed;
    CollapsedIsJoined(trimmed, ws);
  }

  // -------------------------------------------------------------------------
  // Keys and words
  // -------------------------------------------------------------------------

  predicate IsWord(w: string, ws: Whitespace) {
    w != [] && forall i :: 0 <= i < |w| ==> !ws(w[i])
  }

  ghost predicate AllWords(words: seq<string>, ws: Whitespace) {
    forall i :: 0 <= i < |words| ==> IsWord(words[i], ws)
  }

  lemma {:induction false} WordsAreWords(t: string, ws: Whitespace)
    ensures AllWords(Words(t, ws), ws)
  {
    if t != [] {
      WordsAreWords(t[..|t| - 1], ws);
    }
  }

  lemma NextCharacter(t: string, c: char, ws: Whitespace)
    requires !ws(c)
    ensures var words := Words(t, ws);
            Words(t + [c], ws) == if words == [] || EndsInSpace(t, ws) then words + [[c]]
                                  else words[..|words| - 1] + [words[|words| - 1] + [c]]
  {
    assert (t + [c])[..|t|] == t;
  }

  lemma {:induction false} AppendWord(t: string, w: string, ws: Whitespace)
    requires IsWord(w, ws) && (t == [] || EndsInSpace(t, ws))
    ensures Words(t + w, ws) == Words(t, ws) + [w]
  {
    var (front, c) := (w[..|w| - 1], w[|w| - 1]);
    assert w == front + [c] && t + w == (t + front) + [c];
    NextCharacter(t + front, c, ws);
    if front == [] {
      assert t + front == t;
    } else {
      AppendWord(t, front, ws);
      assert !EndsInSpace(t + front, ws) by {
        assert (t + front)[|t + front| - 1] == w[|w| - 2];
      }
    }
  }

  lemma SpaceAddsNoWord(t: string, ws: Whitespace)
    requires ws(' ')
    ensures Words(t + " ", ws) == Words(t, ws) && EndsInSpace(t + " ", ws)
  {
    assert (t + " ")[..|t|] == t;
  }

  lemma WordsOfTwo(t: string, w: string, ws: Whitespace)
    requires ws(' ') && IsWord(w, ws)
    ensures Words(t + " " + w, ws) == Words(t, ws) + [w]
  {
    SpaceAddsNoWord(t, ws);
    AppendWord(t + " ", w, ws);
  }

  lemma OneWord(w: string, ws: Whitespace)
    requires IsWord(w, ws)
    ensures Words(w, ws) == [w]
  {
    AppendWord([], w, ws);
    assert [] + w == w;
  }

  lemma LastWordOfJoin(front: seq<string>, w: string, words: seq<string>, ws: Whitespace)
    requires ws(' ') && front != [] && IsWord(w, ws) && Words(Join(front), ws) == front && words == front + [w]
    ensures Words(Join(words), ws) == words
  {
    var t := Join(front);
    assert Join(words) == t + " " + w by {
      JoinAppend(front, w);
    }
    WordsOfTwo(t, w, ws);
  }

  /** Splitting undoes joining. */
  lemma {:induction false} WordsOfJoin(words: seq<string>, ws: Whitespace)
    requires ws(' ') && AllWords(words, ws)
    ensures Words(Join(words), ws) == words
  {
    if |words| == 1 {
      OneWord(words[0], ws);
    } else if words != [] {
      var (front, w) := (words[..|words| - 1], words[|words| - 1]);
      assert words == front + [w];
      WordsOfJoin(front, ws);
      LastWordOfJoin(front, w, words, ws);
    }
  }

  /** Canonicalisation is idempotent. */
  lemma CanonIsIdempotent(t: string, ws: Whitespace)
    requires ws(' ')
    ensures Canon(Canon(t, ws), ws) == Canon(t, ws)
  {
    WordsAreWords(t, ws);
    WordsOfJoin(Words(t, ws), ws);
  }

  /** Two texts share a key exactly when their word sequences agree. */
  lemma SameKeyIffSameWords(t: string, u: string, ws: Whitespace)
    requires ws(' ')
    ensures Canon(t, ws) == Canon(u, ws) <==> Words(t, ws) == Words(u, ws)
  {
    WordsAreWords(t, ws);
    WordsAreWords(u, ws);
    WordsOfJoin(Words(t, ws), ws);
    WordsOfJoin(Words(u, ws), ws);
  }
}

/**
 * The hero banner (`HeroSection`): the typing words drawn from the hero
 * title, the typewriter that types a word out letter by letter, holds it,
 * deletes it and moves on to the next word, and the split of the owner's
 * name into its first word and the rest.
 *
 * Each timer callback of the typing effect is one `Tick`; the 1.8-second
 * pause before deleting is folded into the tick that finishes typing.
 */
module HeroSection {
  import opened Strings

  /** `typingWords`: 'Developer' for an empty title, otherwise the comma-separated, trimmed, non-empty pieces. */
  function TypingWords(heroTitle: string): (r: seq<string>)
    ensures heroTitle == "" ==> r == ["Developer"]
    ensures forall k :: 0 <= k < |r| ==> r[k] != "" && Trimmed(r[k]) && ',' !in r[k]
  {
    if heroTitle == "" then ["Developer"] else ParseList(heroTitle, ',')
  }

  /** A title written as the words joined by ", " gives back exactly those words. */
  lemma TypingWordsOfJoined(words: seq<string>)
    requires |words| > 0
    requires forall k :: 0 <= k < |words| ==> words[k] != "" && Trimmed(words[k]) && ',' !in words[k]
    ensures TypingWords(Join(words, ", ")) == words
  {
    assert [','] + " " == ", ";
    ParseJoinedList(words, ',', " ", "");
    assert "" + Join(words, ", ") == Join(words, ", ");
    assert Join(words, ", ") != "" by {
      if |words| > 1 {
        JoinedHead(words, ", ");
      }
    }
  }

  /** `typingWords[wordIndex % typingWords.length] || ''`. */
  function Current(words: seq<string>, wordIndex: nat): (w: string)
    ensures words == [] ==> w == ""
    ensures words != [] ==> w in words
  {
    if |words| == 0 then "" else words[wordIndex % |words|]
  }

  /** The typewriter's state: the text on screen, the word, the position in it and the phase. */
  datatype Typing = Typing(typedText: string, wordIndex: nat, charIndex: int, deleting: bool)

  const Start := Typing("", 0, 0, false)

  /** One timer callback of the typing effect. */
  function Step(words: seq<string>, s: Typing): (r: Typing)
    ensures Current(words, s.wordIndex) == "" ==> r == s
    ensures Current(words, s.wordIndex) != "" ==> r.typedText <= Current(words, s.wordIndex)
    ensures r.wordIndex != s.wordIndex ==>
      s.deleting && s.charIndex == 1 && r == Typing("", (s.wordIndex + 1) % |words|, 0, false)
    ensures var word := Current(words, s.wordIndex);
      word != "" && !s.deleting && 0 <= s.charIndex < |word| ==> r.typedText == word[..s.charIndex + 1]
    ensures var word := Current(words, s.wordIndex);
      word != "" && s.deleting && 1 <= s.charIndex <= |word| ==> r.typedText == word[..s.charIndex - 1]
  {
    var word := Current(words, s.wordIndex);
    if word == "" then s
    else if !s.deleting then
      var typed := SliceTo(word, s.charIndex + 1);
      if s.charIndex + 1 == |word| then s.(typedText := typed, deleting := true)
      else s.(typedText := typed, charIndex := s.charIndex + 1)
    else
      var typed := SliceTo(word, s.charIndex - 1);
      if s.charIndex - 1 == 0 then Typing(typed, (s.wordIndex + 1) % |words|, 0, false)
      else s.(typedText := typed, charIndex := s.charIndex - 1)
  }

  /** `k` ticks in a row. */
  function Steps(words: seq<string>, s: Typing, k: nat): Typing
    decreases k
  {
    if k == 0 then s else Steps(words, Step(words, s), k - 1)
  }

  lemma {:induction false} StepsAdd(words: seq<string>, s: Typing, a: nat, b: nat)
    ensures Steps(words, s, a + b) == Steps(words, Steps(words, s, a), b)
    decreases a
  {
    if a > 0 {
      StepsAdd(words, Step(words, s), a - 1, b);
    }
  }

  /** Typing from position `c` shows one more letter per tick and ends holding the whole word, ready to delete. */
  lemma {:induction false} TypeOut(words: seq<string>, t: string, w: nat, c: int)
    requires 0 <= c < |Current(words, w)|
    ensures Steps(words, Typing(t, w, c, false), |Current(words, w)| - c)
         == Typing(Current(words, w), w, |Current(words, w)| - 1, true)
    decreases |Current(words, w)| - c
  {
    var word := Current(words, w);
    var next := Step(words, Typing(t, w, c, false));
    if c + 1 < |word| {
      assert next == Typing(word[..c + 1], w, c + 1, false);
      TypeOut(words, word[..c + 1], w, c + 1);
    } else {
      assert next == Typing(word, w, c, true);
    }
  }

  /** Deleting from position `c` takes `c` ticks and ends on the next word with nothing on screen. */
  lemma {:induction false} EraseWord(words: seq<string>, t: string, w: nat, c: int)
    requires Current(words, w) != "" && c >= 1
    ensures Steps(words, Typing(t, w, c, true), c) == Typing("", (w + 1) % |words|, 0, false)
    decreases c
  {
    var word := Current(words, w);
    var next := Step(words, Typing(t, w, c, true));
    if c > 1 {
      assert next == Typing(SliceTo(word, c - 1), w, c - 1, true);
      EraseWord(words, SliceTo(word, c - 1), w, c - 1);
    }
  }

  /** A word of two or more letters is typed and deleted in `2L - 1` ticks, after which the next word starts from scratch. */
  lemma WordCycle(words: seq<string>, w: nat)
    requires |Current(words, w)| >= 2
    ensures var len := |Current(words, w)|;
      Steps(words, Typing("", w, 0, false), 2 * len - 1) == Typing("", (w + 1) % |words|, 0, false)
  {
    var len := |Current(words, w)|;
    StepsAdd(words, Typing("", w, 0, false), len, len - 1);
    TypeOut(words, "", w, 0);
    EraseWord(words, Current(words, w), w, len - 1);
  }

  /**
   * A one-letter word never hands over: once deleting starts at position 0
   * the position only falls below 0, the screen stays blank and the word
   * index never moves.
   */
  lemma {:induction false} OneLetterWordStalls(words: seq<string>, t: string, w: nat, c: int, k: nat)
    requires |Current(words, w)| == 1 && c <= 0
    ensures k > 0 ==> Steps(words, Typing(t, w, c, true), k) == Typing("", w, c - k, true)
    decreases k
  {
    if k > 0 {
      assert Step(words, Typing(t, w, c, true)) == Typing("", w, c - 1, true);
      if k > 1 {
        OneLetterWordStalls(words, "", w, c - 1, k - 1);
      }
    }
  }

  /** The typing effect's state, changed by the timer callbacks. */
  class Typewriter {
    var typedText: string
    var wordIndex: nat
    var charIndex: int
    var deleting: bool

    function State(): Typing
      reads this
    {
      Typing(typedText, wordIndex, charIndex, deleting)
    }

    constructor()
      ensures State() == Start
    {
      typedText, wordIndex, charIndex, deleting := "", 0, 0, false;
    }

    /** One timer callback: types or deletes one letter of the current word. */
    method Tick(words: seq<string>)
      modifies this
      ensures State() == Step(words, old(State()))
    {
      var word := Current(words, wordIndex);
      if word == "" {
        return;
      }
      if !deleting {
        typedText := SliceTo(word, charIndex + 1);
        if charIndex + 1 == |word| {
          deleting := true;
        } else {
          charIndex := charIndex + 1;
        }
      } else {
        typedText := SliceTo(word, charIndex - 1);
        if charIndex - 1 == 0 {
          deleting := false;
          wordIndex := (wordIndex + 1) % |words|;
          charIndex := 0;
        } else {
          charIndex := charIndex - 1;
        }
      }
    }
  }

  /** `firstWord` and `restOfName`: the name's first space-separated part and the rest, with fixed fallbacks. */
  function NameSplit(name: string): (r: (string, string))
    ensures name == "" ==> r == ("PHYO", "MIN THEIN")
    ensures r.0 != ""
  {
    var parts := if name == "" then [] else Split(name, ' ');
    (Or(if |parts| > 0 then parts[0] else "", "PHYO"),
     if |parts| > 1 then Join(parts[1..], " ") else "MIN THEIN")
  }

  /** A name with a space splits at its first space, and the two parts rebuild the name. */
  lemma NameSplitAtFirstSpace(first: string, rest: string)
    requires first != "" && ' ' !in first
    ensures NameSplit(first + " " + rest) == (first, rest)
    ensures NameSplit(first + " " + rest).0 + " " + NameSplit(first + " " + rest).1 == first + " " + rest
  {
    SplitAtSeparator(first, rest, ' ');
    JoinSplit(rest, ' ');
    assert [' '] == " ";
  }

  /** A one-word name keeps the word and gets the fixed rest. */
  lemma OneWordName(name: string)
    requires name != "" && ' ' !in name
    ensures NameSplit(name) == (name, "MIN THEIN")
  {
    SplitWithoutSeparator(name, ' ');
  }
}

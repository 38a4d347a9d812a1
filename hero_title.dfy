/**
  The hero title's letter layout, shared by the image hero and the video hero:
  the title is split on single spaces into words, each word becomes a group of
  letters, and every letter gets a global index that counts one virtual slot
  for each space. Also the `clamp` helper and the per-letter hover state.
 */
module HeroTitle {
  import opened Wrappers
  import opened Text

  /** `Math.max(min, Math.min(max, n))`. */
  function Clamp(n: real, min: real, max: real): (r: real)
    ensures min <= max ==> min <= r <= max
    ensures min <= n <= max ==> r == n
    ensures n < min ==> r == min
    ensures min <= max < n ==> r == max
    ensures max < min ==> r == min
  {
    var inner := if max < n then max else n;
    if min > inner then min else inner
  }

  /** The start of word `w`: the lengths of the words before it, plus one per space. */
  function Offset(words: seq<string>, w: nat): nat
    requires w <= |words|
  {
    if w == 0 then 0 else Offset(words, w - 1) + |words[w - 1]| + 1
  }

  /** The `starts` loop: `acc` runs over the words, adding each word's length and one
      virtual index for the space after every word but the last. */
  method WordStarts(words: seq<string>) returns (starts: seq<nat>)
    ensures |starts| == |words|
    ensures forall w :: 0 <= w < |words| ==> starts[w] == Offset(words, w)
  {
    starts := [];
    var acc := 0;
    for i := 0 to |words|
      invariant |starts| == i
      invariant forall w :: 0 <= w < i ==> starts[w] == Offset(words, w)
      invariant acc + (if 0 < i == |words| then 1 else 0) == Offset(words, i)
    {
      starts := starts + [acc];
      acc := acc + |words[i]|;
      if i < |words| - 1 {
        acc := acc + 1;
      }
    }
  }

  datatype Letter = Letter(ch: char, idx: nat)

  /** One rendered word: its text, its letters with their global indices, and its position. */
  datatype WordGroup = WordGroup(word: string, letters: seq<Letter>, wIdx: nat)

  /** The letters of word `w`, letter `j` indexed `starts[w] + j`. */
  function LettersOf(words: seq<string>, w: nat): (letters: seq<Letter>)
    requires w < |words|
    ensures |letters| == |words[w]|
    ensures forall j :: 0 <= j < |letters| ==>
              letters[j] == Letter(words[w][j], Offset(words, w) + j)
  {
    seq(|words[w]|, j requires 0 <= j < |words[w]| => Letter(words[w][j], Offset(words, w) + j))
  }

  /** `wordLetters`: one group per space-separated word of the title, in order. */
  function WordLetters(title: string): (groups: seq<WordGroup>)
    ensures |groups| == |Split(title, ' ')| >= 1
    ensures forall w :: 0 <= w < |groups| ==>
              groups[w].word == Split(title, ' ')[w] && groups[w].wIdx == w
              && ' ' !in groups[w].word
              && groups[w].letters == LettersOf(Split(title, ' '), w)
  {
    var words := Split(title, ' ');
    seq(|words|, w requires 0 <= w < |words| => WordGroup(words[w], LettersOf(words, w), w))
  }

  /** A word's start, seen from the second word on. */
  lemma {:induction false} OffsetTail(words: seq<string>, w: nat)
    requires 1 <= w <= |words|
    ensures Offset(words, w) == |words[0]| + 1 + Offset(words[1..], w - 1)
  {
    if w > 1 {
      OffsetTail(words, w - 1);
    }
  }

  /** Later words start after earlier words and their following space. */
  lemma {:induction false} OffsetGrows(words: seq<string>, v: nat, w: nat)
    requires v < w <= |words|
    ensures Offset(words, v) + |words[v]| + 1 <= Offset(words, w)
  {
    if w > v + 1 {
      OffsetGrows(words, v, w - 1);
    }
  }

  /** In the space-joined words, letter `j` of word `w` sits at `Offset(words, w) + j`. */
  lemma {:induction false} JoinAt(words: seq<string>, w: nat, j: nat)
    requires w < |words| && j < |words[w]|
    ensures Offset(words, w) + j < |Join(words, " ")|
    ensures Join(words, " ")[Offset(words, w) + j] == words[w][j]
  {
    if |words| > 1 {
      var rest := words[1..];
      assert Join(words, " ") == words[0] + " " + Join(rest, " ");
      if w > 0 {
        JoinAt(rest, w - 1, j);
        OffsetTail(words, w);
      }
    }
  }

  /** Letter `j` of word `w` has the global index `p`. */
  predicate Locates(words: seq<string>, p: nat, w: nat, j: nat) {
    w < |words| && j < |words[w]| && Offset(words, w) + j == p
  }

  /** Every non-space position of the space-joined words is some letter's index. */
  lemma {:induction false} NonSpaceIsLetter(words: seq<string>, p: nat)
    requires |words| >= 1
    requires p < |Join(words, " ")| && Join(words, " ")[p] != ' '
    ensures exists w: nat, j: nat :: Locates(words, p, w, j)
  {
    if |words| == 1 {
      assert Locates(words, p, 0, p);
    } else if p < |words[0]| {
      assert Join(words, " ") == words[0] + " " + Join(words[1..], " ");
      assert Locates(words, p, 0, p);
    } else {
      var rest := words[1..];
      assert Join(words, " ") == words[0] + " " + Join(rest, " ");
      var q := p - |words[0]| - 1;
      assert Join(words, " ")[p] == Join(rest, " ")[q];
      NonSpaceIsLetter(rest, q);
      var w: nat, j: nat :| Locates(rest, q, w, j);
      OffsetTail(words, w + 1);
      assert Locates(words, p, w + 1, j);
    }
  }

  /** Every letter's index points at that very character of the title, which is never a space. */
  lemma LetterIndexPointsAtChar(title: string, w: nat, j: nat)
    requires w < |WordLetters(title)| && j < |WordLetters(title)[w].letters|
    ensures var l := WordLetters(title)[w].letters[j];
            l.idx < |title| && title[l.idx] == l.ch && l.ch != ' '
  {
    var words := Split(title, ' ');
    var group := WordLetters(title)[w];
    assert group.letters == LettersOf(words, w) && ' ' !in words[w];
    LetterOfWordInJoin(words, w, j);
  }

  /** Letter `j` of a space-free word `w` sits at its index in the space-joined words. */
  lemma LetterOfWordInJoin(words: seq<string>, w: nat, j: nat)
    requires w < |words| && j < |words[w]| && ' ' !in words[w]
    ensures var l := LettersOf(words, w)[j];
            l.idx < |Join(words, " ")| && Join(words, " ")[l.idx] == l.ch && l.ch != ' '
  {
    JoinAt(words, w, j);
  }

  /** Letter indices strictly increase in reading order, so no two letters share one. */
  lemma LetterIndicesIncrease(title: string, v: nat, i: nat, w: nat, j: nat)
    requires v < |WordLetters(title)| && i < |WordLetters(title)[v].letters|
    requires w < |WordLetters(title)| && j < |WordLetters(title)[w].letters|
    requires v < w || (v == w && i < j)
    ensures WordLetters(title)[v].letters[i].idx < WordLetters(title)[w].letters[j].idx
  {
    if v < w {
      OffsetGrows(Split(title, ' '), v, w);
    }
  }

  /** The positions the indices skip are exactly the title's spaces: a position holds a
      non-space character if and only if some letter carries it as its index. */
  lemma SkippedPositionsAreSpaces(title: string, p: nat)
    requires p < |title|
    ensures title[p] != ' ' <==>
              exists w, j :: 0 <= w < |WordLetters(title)| && 0 <= j < |WordLetters(title)[w].letters|
                             && WordLetters(title)[w].letters[j].idx == p
  {
    var groups := WordLetters(title);
    var words := Split(title, ' ');
    if title[p] != ' ' {
      NonSpaceIsLetter(words, p);
      var w: nat, j: nat :| Locates(words, p, w, j);
      assert groups[w].letters[j].idx == p;
    } else {
      if exists w, j :: 0 <= w < |groups| && 0 <= j < |groups[w].letters| && groups[w].letters[j].idx == p {
        var w, j :| 0 <= w < |groups| && 0 <= j < |groups[w].letters| && groups[w].letters[j].idx == p;
        LetterIndexPointsAtChar(title, w, j);
      }
    }
  }

  /** The hover tilt: -1 degree on even indices, +1 on odd ones. */
  function Tilt(idx: nat): (deg: int)
    ensures deg == -1 <==> idx % 2 == 0
    ensures deg == 1 <==> idx % 2 == 1
  {
    if idx % 2 == 0 then -1 else 1
  }

  /** Neighbouring letters tilt opposite ways, starting with -1 on the first letter. */
  lemma TiltAlternates(idx: nat)
    ensures Tilt(idx) == -Tilt(idx + 1)
    ensures Tilt(0) == -1
  {
  }

  /** The hover state of the title: the index of the letter under the pointer, if any. */
  class TitleHover {
    var active: Option<nat>

    constructor ()
      ensures active == None
    {
      active := None;
    }

    /** A letter is dimmed exactly while another letter is hovered: with no hover every
        letter is bright, and while one is hovered it is the only bright one. */
    function DimOthers(idx: nat): (dim: bool)
      reads this
      ensures active.None? ==> !dim
      ensures active.Some? ==> (!dim <==> idx == active.value)
    {
      active != None && active != Some(idx)
    }

    /** The pointer enters the letter with index `idx`: it alone stays bright. */
    method EnterLetter(idx: nat)
      modifies this
      ensures active == Some(idx)
      ensures !DimOthers(idx)
      ensures forall k: nat :: k != idx ==> DimOthers(k)
    {
      active := Some(idx);
    }

    /** The pointer leaves a letter: nothing is dimmed. */
    method LeaveLetter()
      modifies this
      ensures active == None
      ensures forall k: nat :: !DimOthers(k)
    {
      active := None;
    }

    /** `onLeave` for the whole section: the hover is cleared (the parallax reset is not modelled). */
    method LeaveSection()
      modifies this
      ensures active == None
      ensures forall k: nat :: !DimOthers(k)
    {
      active := None;
    }
  }
}

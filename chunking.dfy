/** The exploratory loader's `chunk_text`: a text is cut into pieces of at
    most max_tokens words, each piece being its words joined by single
    blanks. The generator is modelled as the list of what it yields; a step
    of zero makes Python's `range` raise ValueError. */
module Chunking {
  import opened Wrappers
  import opened Text
  import Seqs

  function Min(a: nat, b: nat): nat { if a < b then a else b }

  /** `[" ".join(words[i:i + n]) for i in range(0, len(words), n)]` for n > 0. */
  function Pieces(words: seq<string>, n: nat): (r: seq<string>)
    requires n > 0
    decreases |words|
  {
    if words == [] then []
    else
      var k := Min(n, |words|);
      [Join(" ", words[..k])] + Pieces(words[k..], n)
  }

  lemma MulStep(x: int, n: int)
    ensures (x + 1) * n == x * n + n
  {
  }

  /** There are ceil(|words| / n) pieces: the fewest pieces of n words that
      hold all the words. */
  lemma {:induction false} PiecesCount(words: seq<string>, n: nat)
    requires n > 0
    ensures (|Pieces(words, n)| - 1) * n < |words| <= |Pieces(words, n)| * n || (words == [] && Pieces(words, n) == [])
    decreases |words|
  {
    if words != [] {
      var k := Min(n, |words|);
      PiecesCount(words[k..], n);
      var m := |Pieces(words[k..], n)|;
      MulStep(m, n);
      MulStep(m - 1, n);
    }
  }

  /** The words of the pieces, one piece after another. */
  function FlatWords(ps: seq<string>): seq<string> {
    if ps == [] then [] else Words(ps[0]) + FlatWords(ps[1..])
  }

  /** Both sides of a cut of a list of words are lists of words. */
  lemma CutWords(words: seq<string>, k: nat)
    requires k <= |words| && forall j :: 0 <= j < |words| ==> IsWord(words[j])
    ensures forall j :: 0 <= j < |words[..k]| ==> IsWord(words[..k][j])
    ensures forall j :: 0 <= j < |words[k..]| ==> IsWord(words[k..][j])
  {
    assert forall j :: 0 <= j < k ==> words[..k][j] == words[j];
    assert forall j :: 0 <= j < |words| - k ==> words[k..][j] == words[k + j];
  }

  /** The first piece: the first n words (or all of them) joined. */
  lemma FirstPiece(words: seq<string>, n: nat)
    requires n > 0 && words != [] && forall j :: 0 <= j < |words| ==> IsWord(words[j])
    ensures var k := Min(n, |words|);
      Pieces(words, n) == [Join(" ", words[..k])] + Pieces(words[k..], n)
      && Words(Join(" ", words[..k])) == words[..k]
  {
    var k := Min(n, |words|);
    CutWords(words, k);
    WordsOfJoin(words[..k]);
  }

  /** Each piece holds between one and n of the words. */
  lemma {:induction false} PiecesSize(words: seq<string>, n: nat)
    requires n > 0 && forall k :: 0 <= k < |words| ==> IsWord(words[k])
    ensures forall i :: 0 <= i < |Pieces(words, n)| ==> 1 <= |Words(Pieces(words, n)[i])| <= n
    decreases |words|
  {
    if words != [] {
      var k := Min(n, |words|);
      FirstPiece(words, n);
      CutWords(words, k);
      PiecesSize(words[k..], n);
      var ps := Pieces(words, n);
      var rest := Pieces(words[k..], n);
      forall i | 0 <= i < |ps| ensures 1 <= |Words(ps[i])| <= n {
        if i > 0 {
          assert ps[i] == rest[i - 1];
        }
      }
    }
  }

  lemma FlatCons(p: string, ps: seq<string>)
    ensures FlatWords([p] + ps) == Words(p) + FlatWords(ps)
  {
    assert ([p] + ps)[0] == p && ([p] + ps)[1..] == ps;
  }

  /** Re-splitting the pieces gives the words back, in order. */
  lemma {:induction false} PiecesWords(words: seq<string>, n: nat)
    requires n > 0 && forall k :: 0 <= k < |words| ==> IsWord(words[k])
    ensures FlatWords(Pieces(words, n)) == words
    decreases |words|
  {
    if words != [] {
      var k := Min(n, |words|);
      FirstPiece(words, n);
      CutWords(words, k);
      PiecesWords(words[k..], n);
      FlatCons(Join(" ", words[..k]), Pieces(words[k..], n));
      Seqs.SplitAt(words, k);
    }
  }

  /** `chunk_text(text, max_tokens)`: nothing for a missing, empty or blank
      text; a ValueError for a zero step over some words; nothing for a
      negative step; the pieces otherwise. */
  function ChunkText(text: Option<string>, maxTokens: int): (r: Result<seq<string>, string>)
    ensures text.None? || text.value == "" ==> r == Success([])
    ensures text.Some? && (forall i :: 0 <= i < |text.value| ==> PySpace(text.value[i])) ==> r == Success([])
    ensures r.Failure? <==> maxTokens == 0 && text.Some? && Words(text.value) != []
    ensures maxTokens > 0 && text.Some? ==>
      r.Success? && ((|r.value| - 1) * maxTokens < |Words(text.value)| <= |r.value| * maxTokens
       || (Words(text.value) == [] && r.value == []))
  {
    if text.None? || text.value == "" then Success([])
    else
      var words := Words(text.value);
      WordsEmptyIff(text.value);
      if words == [] then Success([])
      else if maxTokens == 0 then Failure("ValueError: range() arg 3 must not be zero")
      else if maxTokens < 0 then Success([])
      else
        PiecesCount(words, maxTokens);
        Success(Pieces(words, maxTokens))
  }

  /** With a positive step every chunk has between one and max_tokens words,
      and the words of all chunks, in order, are `text.split()`. */
  lemma ChunksKeepWords(text: string, maxTokens: nat)
    requires maxTokens > 0
    ensures var r := ChunkText(Some(text), maxTokens).value;
      (forall i :: 0 <= i < |r| ==> 1 <= |Words(r[i])| <= maxTokens)
      && FlatWords(r) == Words(text)
  {
    WordsAreWords(text);
    PiecesSize(Words(text), maxTokens);
    PiecesWords(Words(text), maxTokens);
  }
}

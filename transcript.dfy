/** The ASL transcript: each predicted letter is appended unless it repeats
    the transcript's last character, so holding a sign produces one letter.
 */
module Transcript {

  datatype Option<T> = None | Some(value: T)

  /** No two neighbouring characters are equal. */
  predicate NoAdjacentRepeats(s: string)
  {
    forall i :: 0 <= i < |s| - 1 ==> s[i] != s[i + 1]
  }

  /** The last character of `s` as a string, empty when `s` is (`s.slice(-1)`). */
  function LastOf(s: string): (t: string)
    ensures |t| == if s == [] then 0 else 1
    ensures s == s[..|s| - |t|] + t
  {
    if s == [] then [] else [s[|s| - 1]]
  }

  /** The state updater: append `newLetter` unless it equals the last character. */
  function UpdateTranscript(prev: string, newLetter: char): (next: string)
    ensures prev <= next && |next| <= |prev| + 1
    ensures next == prev + [newLetter] <==> prev == [] || prev[|prev| - 1] != newLetter
    ensures next == prev <==> prev != [] && prev[|prev| - 1] == newLetter
    ensures |next| > 0 && next[|next| - 1] == newLetter
    ensures NoAdjacentRepeats(prev) ==> NoAdjacentRepeats(next)
  {
    if LastOf(prev) != [newLetter] then prev + [newLetter] else prev
  }

  /** A prediction event: the transcript changes only when a letter came with it. */
  function HandlePrediction(prev: string, topPrediction: Option<char>): (next: string)
    ensures topPrediction.None? ==> next == prev
    ensures topPrediction.Some? ==> prev <= next && |next| > 0 && next[|next| - 1] == topPrediction.value
    ensures topPrediction.Some? ==> (next == prev <==> prev != [] && prev[|prev| - 1] == topPrediction.value)
    ensures topPrediction.Some? ==> next == prev || next == prev + [topPrediction.value]
    ensures topPrediction.Some? ==> next == UpdateTranscript(prev, topPrediction.value)
    ensures NoAdjacentRepeats(prev) ==> NoAdjacentRepeats(next)
  {
    match topPrediction
    case None => prev
    case Some(letter) => UpdateTranscript(prev, letter)
  }

  /** The transcript after a stream of predicted letters, oldest first. */
  function Replay(prev: string, letters: seq<char>): string
    decreases |letters|
  {
    if letters == [] then prev else Replay(UpdateTranscript(prev, letters[0]), letters[1..])
  }

  /** Any stream of predictions keeps a repeat-free transcript repeat-free and
      only ever extends it. */
  lemma {:induction false} ReplayKeepsNoRepeats(prev: string, letters: seq<char>)
    requires NoAdjacentRepeats(prev)
    ensures NoAdjacentRepeats(Replay(prev, letters))
    ensures prev <= Replay(prev, letters)
    ensures |Replay(prev, letters)| <= |prev| + |letters|
    decreases |letters|
  {
    if letters != [] {
      ReplayKeepsNoRepeats(UpdateTranscript(prev, letters[0]), letters[1..]);
    }
  }

  /** The reference definition: collapse each run of equal characters to one. */
  function Collapse(s: string): string
    decreases |s|
  {
    if |s| <= 1 then s
    else if s[0] == s[1] then Collapse(s[1..])
    else [s[0]] + Collapse(s[1..])
  }

  /** Collapsing ignores a doubled character anywhere in the string. */
  lemma {:induction false} CollapseDropsRepeat(a: string, c: char, b: string)
    ensures Collapse(a + [c, c] + b) == Collapse(a + [c] + b)
    decreases |a|
  {
    var long, short := a + [c, c] + b, a + [c] + b;
    if a == [] {
      assert long[1..] == short;
    } else {
      assert long[0] == short[0] == a[0];
      assert long[1] == short[1];
      assert long[1..] == a[1..] + [c, c] + b;
      assert short[1..] == a[1..] + [c] + b;
      CollapseDropsRepeat(a[1..], c, b);
    }
  }

  /** Appending through the updater and then collapsing is the same as
      appending the letter outright and collapsing. */
  lemma CollapseAfterUpdate(prev: string, c: char, rest: string)
    ensures Collapse(UpdateTranscript(prev, c) + rest) == Collapse(prev + [c] + rest)
  {
    if prev != [] && prev[|prev| - 1] == c {
      var k := |prev| - 1;
      var front := prev[..k];
      assert prev == front + [c];
      assert prev + [c] + rest == front + [c, c] + rest;
      assert prev + rest == front + [c] + rest;
      CollapseDropsRepeat(front, c, rest);
    }
  }

  /** Starting from a repeat-free transcript, replaying a stream gives the
      collapse of the transcript followed by the stream. */
  lemma {:induction false} ReplayIsCollapse(prev: string, letters: seq<char>)
    requires NoAdjacentRepeats(prev)
    ensures Replay(prev, letters) == Collapse(prev + letters)
    decreases |letters|
  {
    if letters == [] {
      assert prev + letters == prev;
      CollapseOfRepeatFree(prev);
    } else {
      var c, rest := letters[0], letters[1..];
      ReplayIsCollapse(UpdateTranscript(prev, c), rest);
      CollapseAfterUpdate(prev, c, rest);
      assert prev + letters == prev + [c] + rest;
    }
  }

  /** A repeat-free string is its own collapse. */
  lemma {:induction false} CollapseOfRepeatFree(s: string)
    requires NoAdjacentRepeats(s)
    ensures Collapse(s) == s
    decreases |s|
  {
    if |s| > 1 {
      assert NoAdjacentRepeats(s[1..]) by {
        forall i | 0 <= i < |s[1..]| - 1 ensures s[1..][i] != s[1..][i + 1] {
          assert s[1..][i] == s[i + 1] && s[1..][i + 1] == s[i + 2];
        }
      }
      CollapseOfRepeatFree(s[1..]);
      assert s == [s[0]] + s[1..];
    }
  }

  /** The transcript built from an empty one is exactly the stream with each
      run of repeated predictions collapsed to a single letter. */
  lemma TranscriptFromEmpty(letters: seq<char>)
    ensures Replay([], letters) == Collapse(letters)
    ensures NoAdjacentRepeats(Replay([], letters))
  {
    ReplayIsCollapse([], letters);
    assert [] + letters == letters;
    ReplayKeepsNoRepeats([], letters);
  }
}

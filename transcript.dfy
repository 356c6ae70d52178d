/**
 * The transcript buffer of the video feed: the text assembled from the
 * detector's `letter_event`s and the manual Space / Backspace / Clear buttons.
 * Each edit is the updater passed to `setDecodedText`.
 */
module Transcript {
  import opened Base

  const BackspaceToken: string := "BACKSPACE"
  const SpaceToken: string := "SPACE"

  /** `prev.slice(0, -1)`: drops the last character; an empty text stays empty. */
  function Backspace(t: string): (r: string)
    ensures |t| == 0 ==> r == []
    ensures |t| > 0 ==> |r| == |t| - 1 && r + [t[|t| - 1]] == t
  {
    if |t| == 0 then t else t[..|t| - 1]
  }

  /** `prev + " "`: exactly one space at the end. */
  function AppendSpace(t: string): (r: string)
    ensures |r| == |t| + 1 && r[..|t|] == t && r[|t|] == ' '
  {
    t + " "
  }

  /** `prev + (data.letter || "")`: the letter verbatim at the end; a missing or empty letter adds nothing. */
  function AppendLetter(t: string, letter: Option<string>): (r: string)
    ensures |t| <= |r| && r[..|t|] == t
    ensures TruthyString(letter) ==> r[|t|..] == letter.value
    ensures !TruthyString(letter) ==> r == t
  {
    t + OrEmpty(letter)
  }

  /** `handleClear`. */
  function Clear(t: string): (r: string)
    ensures |r| == 0
  {
    ""
  }

  /** Whether a letter event carries one of the two editing sentinels. */
  predicate IsEditToken(letter: Option<string>) {
    letter == Some(BackspaceToken) || letter == Some(SpaceToken)
  }

  /** The `letter_event` handler: `"BACKSPACE"` and `"SPACE"` edit, anything else is appended. */
  function LetterEvent(t: string, letter: Option<string>): (r: string)
    ensures letter == Some(BackspaceToken) ==> r == Backspace(t)
    ensures letter == Some(SpaceToken) ==> r == AppendSpace(t)
    ensures !IsEditToken(letter) ==> r == AppendLetter(t, letter)
  {
    if letter == Some(BackspaceToken) then Backspace(t)
    else if letter == Some(SpaceToken) then AppendSpace(t)
    else AppendLetter(t, letter)
  }

  /** The transcript after a stream of letter events, in arrival order. */
  function ApplyLetterEvents(t: string, letters: seq<Option<string>>): string
    decreases |letters|
  {
    if letters == [] then t else ApplyLetterEvents(LetterEvent(t, letters[0]), letters[1..])
  }

  /** What plain letters contribute: their concatenation, missing ones contributing nothing. */
  function Concat(letters: seq<Option<string>>): string
    decreases |letters|
  {
    if letters == [] then "" else OrEmpty(letters[0]) + Concat(letters[1..])
  }

  /** A letter that is not a sentinel is appended. */
  lemma PlainLetterAppends(t: string, letter: Option<string>)
    requires !IsEditToken(letter)
    ensures LetterEvent(t, letter) == t + OrEmpty(letter)
  {
  }

  /** A stream with no editing sentinel appends its letters, in order, to the transcript. */
  lemma {:induction false} PlainLettersConcatenate(t: string, letters: seq<Option<string>>)
    requires forall i :: 0 <= i < |letters| ==> !IsEditToken(letters[i])
    ensures ApplyLetterEvents(t, letters) == t + Concat(letters)
    decreases |letters|
  {
    if letters != [] {
      var head, rest := OrEmpty(letters[0]), letters[1..];
      calc {
        ApplyLetterEvents(t, letters);
        ApplyLetterEvents(LetterEvent(t, letters[0]), rest);
        { PlainLetterAppends(t, letters[0]); }
        ApplyLetterEvents(t + head, rest);
        { assert forall i :: 0 <= i < |rest| ==> rest[i] == letters[i + 1];
          PlainLettersConcatenate(t + head, rest); }
        (t + head) + Concat(rest);
        t + (head + Concat(rest));
        t + Concat(letters);
      }
    }
  }

  /** Backspace undoes a one-character letter and a space. */
  lemma BackspaceUndoesAppend(t: string, c: char)
    ensures LetterEvent(LetterEvent(t, Some([c])), Some(BackspaceToken)) == t
    ensures LetterEvent(LetterEvent(t, Some(SpaceToken)), Some(BackspaceToken)) == t
  {
    assert (t + [c])[..|t|] == t;
  }

  /** The events A, B, BACKSPACE, SPACE, C yield "A C". */
  lemma LetterScenario()
    ensures ApplyLetterEvents("", [Some("A"), Some("B"), Some(BackspaceToken), Some(SpaceToken), Some("C")]) == "A C"
  {
    var evs := [Some("A"), Some("B"), Some(BackspaceToken), Some(SpaceToken), Some("C")];
    assert ApplyLetterEvents("A C", []) == "A C";
    assert ApplyLetterEvents("A ", evs[4..]) == "A C" by { assert evs[4..][1..] == []; }
    assert ApplyLetterEvents("A", evs[3..]) == "A C" by { assert evs[3..][1..] == evs[4..]; assert LetterEvent("A", evs[3]) == "A "; }
    assert ApplyLetterEvents("AB", evs[2..]) == "A C" by { assert evs[2..][1..] == evs[3..]; assert LetterEvent("AB", evs[2]) == "AB"[..1] == "A"; }
    assert ApplyLetterEvents("A", evs[1..]) == "A C" by { assert evs[1..][1..] == evs[2..]; }
  }
}

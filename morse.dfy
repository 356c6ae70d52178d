/**
 * The Morse reference table shown by the video feed: the 26 letters of
 * International Morse Code (Recommendation ITU-R M.1677-1, Part I, section
 * 1.1.1), in the order the component lists them.
 */
module Morse {
  import opened Base

  /** `MORSE_MAP`: the table lists exactly the letters A to Z, in alphabetical order. */
  function MorseMap(): (table: seq<(char, string)>)
    ensures |table| == 26
    ensures forall i :: 0 <= i < |table| ==> table[i].0 as int == 'A' as int + i
  {
    [
      ('A', ".-"), ('B', "-..."), ('C', "-.-."), ('D', "-.."), ('E', "."), ('F', "..-."),
      ('G', "--."), ('H', "...."), ('I', ".."), ('J', ".---"), ('K', "-.-"), ('L', ".-.."),
      ('M', "--"), ('N', "-."), ('O', "---"), ('P', ".--."), ('Q', "--.-"), ('R', ".-."),
      ('S', "..."), ('T', "-"), ('U', "..-"), ('V', "...-"), ('W', ".--"), ('X', "-..-"),
      ('Y', "-.--"), ('Z', "--..")
    ]
  }

  /** A code of one to four dots and dashes. */
  predicate IsCode(s: string) {
    1 <= |s| <= 4 && forall k :: 0 <= k < |s| ==> s[k] == '.' || s[k] == '-'
  }

  /** The code listed for `c` in `table`, if any. */
  function Lookup(table: seq<(char, string)>, c: char): (r: Option<string>)
    ensures r.Some? <==> exists i :: 0 <= i < |table| && table[i].0 == c
    ensures r.Some? ==> exists i :: 0 <= i < |table| && table[i] == (c, r.value)
    decreases |table|
  {
    if table == [] then None
    else if table[0].0 == c then Some(table[0].1)
    else
      var r := Lookup(table[1..], c);
      assert forall i :: 0 <= i < |table| - 1 ==> table[1..][i] == table[i + 1];
      r
  }

  /** The letter whose code in `table` is `code`, if any (the first one). */
  function ReverseLookup(table: seq<(char, string)>, code: string): (r: Option<char>)
    ensures r.Some? <==> exists i :: 0 <= i < |table| && table[i].1 == code
    ensures r.Some? ==> exists i :: 0 <= i < |table| && table[i] == (r.value, code)
    decreases |table|
  {
    if table == [] then None
    else if table[0].1 == code then Some(table[0].0)
    else
      var r := ReverseLookup(table[1..], code);
      assert forall i :: 0 <= i < |table| - 1 ==> table[1..][i] == table[i + 1];
      r
  }

  /** Every code is one to four dots and dashes. */
  lemma CodesWellFormed()
    ensures var table := MorseMap(); forall i :: 0 <= i < |table| ==> IsCode(table[i].1)
  {
  }

  /** No two letters share a code. */
  lemma CodesDistinct()
    ensures var table := MorseMap(); forall i, j :: 0 <= i < j < |table| ==> table[i].1 != table[j].1
  {
  }

  /** In a table whose codes are distinct, the code listed for a letter leads back to that letter. */
  lemma {:induction false} LookupInverse(table: seq<(char, string)>, i: nat)
    requires i < |table|
    requires forall a, b :: 0 <= a < b < |table| ==> table[a].0 != table[b].0
    requires forall a, b :: 0 <= a < b < |table| ==> table[a].1 != table[b].1
    ensures Lookup(table, table[i].0) == Some(table[i].1)
    ensures ReverseLookup(table, table[i].1) == Some(table[i].0)
    decreases i
  {
    if i > 0 {
      LookupInverse(table[1..], i - 1);
    }
  }

  /** Every upper-case letter has a code, and that code leads back to the letter. */
  lemma LookupRoundTrip(c: char)
    requires 'A' <= c <= 'Z'
    ensures Lookup(MorseMap(), c).Some?
    ensures ReverseLookup(MorseMap(), Lookup(MorseMap(), c).value) == Some(c)
  {
    var table := MorseMap();
    CodesDistinct();
    var i := c as int - 'A' as int;
    assert table[i].0 == c;
    LookupInverse(table, i);
  }
}

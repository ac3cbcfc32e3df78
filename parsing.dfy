/**
 * The driver-info text that a user types after pressing "add driver"
 * (driver_bot.py:155-167): the text is split on whitespace with Python's
 * str.split(), exactly two words are required, and the second must consist
 * of decimal digits whose value is positive.
 */
module Parsing {
  import opened Wrappers

  /**
   * The characters for which Python's str.isspace() holds; str.split() separates
   * words at them. They include space, tab and newline, and no decimal digit.
   */
  predicate IsSpace(c: char)
    ensures c == ' ' || c == '\t' || c == '\n' ==> IsSpace(c)
    ensures '0' <= c <= '9' ==> !IsSpace(c)
  {
    || c == ' '
    || ('\t' <= c <= '\r')
    || ('\U{1C}' <= c <= '\U{1F}')
    || c == '\U{85}' || c == '\U{A0}' || c == '\U{1680}'
    || ('\U{2000}' <= c <= '\U{200A}')
    || c == '\U{2028}' || c == '\U{2029}' || c == '\U{202F}' || c == '\U{205F}' || c == '\U{3000}'
  }

  predicate NoSpace(s: string) {
    forall i :: 0 <= i < |s| ==> !IsSpace(s[i])
  }

  /** A word as str.split() returns it: non-empty and free of whitespace. */
  predicate IsWord(w: string) {
    w != [] && NoSpace(w)
  }

  /** The length of the run of non-whitespace characters at the front of `s`. */
  function WordLength(s: string): (n: nat)
    ensures n <= |s|
    ensures NoSpace(s[..n])
    ensures n == |s| || IsSpace(s[n])
  {
    if s == [] || IsSpace(s[0]) then 0
    else
      var m := WordLength(s[1..]);
      1 + m
  }

  /** Python's str.split() without arguments: the maximal runs of non-whitespace characters, in order. */
  function Split(s: string): (words: seq<string>)
    ensures forall w :: w in words ==> IsWord(w)
    decreases |s|
  {
    if s == [] then []
    else if IsSpace(s[0]) then Split(s[1..])
    else
      var n := WordLength(s);
      [s[..n]] + Split(s[n..])
  }

  /** The words separated by single spaces: what a user types to produce them. */
  function Unwords(words: seq<string>): string {
    if words == [] then []
    else if |words| == 1 then words[0]
    else words[0] + " " + Unwords(words[1..])
  }

  lemma {:induction false} WordLengthOfWord(w: string, rest: string)
    requires NoSpace(w)
    requires rest == [] || IsSpace(rest[0])
    ensures WordLength(w + rest) == |w|
  {
    if w == [] {
      assert w + rest == rest;
    } else {
      assert (w + rest)[1..] == w[1..] + rest;
      WordLengthOfWord(w[1..], rest);
    }
  }

  /** Whitespace before the text never changes the words. */
  lemma SplitSkipsLeadingSpace(c: char, s: string)
    requires IsSpace(c)
    ensures Split([c] + s) == Split(s)
  {
  }

  /** Splitting undoes joining with spaces, for words that str.split() could return. */
  lemma {:induction false} SplitUnwords(words: seq<string>)
    requires forall w :: w in words ==> IsWord(w)
    ensures Split(Unwords(words)) == words
  {
    if words == [] {
    } else if |words| == 1 {
      var w := words[0];
      assert w in words;
      WordLengthOfWord(w, []);
      assert w + [] == w;
      assert w[..|w|] == w && w[|w|..] == [];
    } else {
      var w, rest := words[0], Unwords(words[1..]);
      var s := w + " " + rest;
      assert w in words;
      assert s == w + (" " + rest);
      WordLengthOfWord(w, " " + rest);
      assert s[..|w|] == w;
      assert s[|w|..] == [' '] + rest;
      SplitSkipsLeadingSpace(' ', rest);
      assert forall x :: x in words[1..] ==> x in words;
      SplitUnwords(words[1..]);
      assert words == [w] + words[1..];
    }
  }

  /** The words one after another, with nothing between them. */
  function Concat(words: seq<string>): string {
    if words == [] then [] else words[0] + Concat(words[1..])
  }

  /** The text with every whitespace character removed. */
  function Strip(s: string): string {
    if s == [] then []
    else if IsSpace(s[0]) then Strip(s[1..])
    else [s[0]] + Strip(s[1..])
  }

  /** Removing whitespace from a word followed by more text keeps the word whole. */
  lemma {:induction false} StripWord(w: string, rest: string)
    requires NoSpace(w)
    ensures Strip(w + rest) == w + Strip(rest)
  {
    if w == [] {
      assert w + rest == rest;
    } else {
      assert (w + rest)[0] == w[0] && !IsSpace(w[0]);
      assert (w + rest)[1..] == w[1..] + rest;
      StripWord(w[1..], rest);
      assert w == [w[0]] + w[1..];
    }
  }

  /** The split drops whitespace only: every other character survives, in order. */
  lemma {:induction false} SplitKeepsEveryCharacter(s: string)
    ensures Concat(Split(s)) == Strip(s)
    decreases |s|
  {
    if s == [] {
    } else if IsSpace(s[0]) {
      SplitKeepsEveryCharacter(s[1..]);
    } else {
      var n := WordLength(s);
      assert s == s[..n] + s[n..];
      StripWord(s[..n], s[n..]);
      SplitKeepsEveryCharacter(s[n..]);
    }
  }

  predicate IsDigit(c: char) {
    '0' <= c <= '9'
  }

  /** Python's str.isdigit(), restricted to ASCII: non-empty and every character a decimal digit. */
  predicate IsDigits(s: string): (b: bool)
    ensures b ==> IsWord(s)
  {
    |s| > 0 && forall i :: 0 <= i < |s| ==> IsDigit(s[i])
  }

  /**
   * Python's int(s) on a string of decimal digits. The value is positive
   * exactly when some digit is not '0', so "0" and "00" are refused as seat counts.
   */
  function DigitsValue(s: string): (n: nat)
    requires forall i :: 0 <= i < |s| ==> IsDigit(s[i])
    ensures n > 0 <==> exists i :: 0 <= i < |s| && s[i] != '0'
    decreases |s|
  {
    if s == [] then 0
    else
      var init, last := s[..|s| - 1], s[|s| - 1];
      assert IsDigit(last);
      assert forall i :: 0 <= i < |init| ==> init[i] == s[i];
      assert (exists i :: 0 <= i < |s| && s[i] != '0') <==>
        (exists i :: 0 <= i < |init| && init[i] != '0') || last != '0' by {
        if exists i :: 0 <= i < |s| && s[i] != '0' {
          var i :| 0 <= i < |s| && s[i] != '0';
          if i < |init| {
            assert init[i] != '0';
          }
        }
      }
      10 * DigitsValue(init) + (last as int - '0' as int)
  }

  function DigitChar(d: nat): (c: char)
    requires d < 10
    ensures IsDigit(c) && c as int - '0' as int == d
  {
    ('0' as int + d) as char
  }

  /** The decimal notation of `n`, as Python's str(n) writes it. */
  function ShowNat(n: nat): (s: string)
    ensures IsDigits(s)
    ensures |s| > 1 ==> s[0] != '0'
  {
    if n < 10 then [DigitChar(n)]
    else ShowNat(n / 10) + [DigitChar(n % 10)]
  }

  /** int(str(n)) == n. */
  lemma {:induction false} DigitsValueShowNat(n: nat)
    ensures DigitsValue(ShowNat(n)) == n
  {
    if n >= 10 {
      var s := ShowNat(n);
      assert s[..|s| - 1] == ShowNat(n / 10);
      DigitsValueShowNat(n / 10);
    }
  }

  /** Leading zeros do not change the value: int("03") == int("3"). */
  lemma {:induction false} DigitsValueLeadingZero(s: string)
    requires forall i :: 0 <= i < |s| ==> IsDigit(s[i])
    ensures DigitsValue("0" + s) == DigitsValue(s)
    decreases |s|
  {
    var z := "0" + s;
    if s == [] {
      assert z[..0] == [];
    } else {
      assert z[..|z| - 1] == "0" + s[..|s| - 1];
      DigitsValueLeadingZero(s[..|s| - 1]);
    }
  }

  /** What the user supplied for a new driver. */
  datatype DriverInfo = DriverInfo(name: string, seats: nat)

  /** Why driver info is refused; the user is asked again either way. */
  datatype InfoError =
    | WrongWordCount  // not two words, driver_bot.py:158-160
    | InvalidSeats    // seat count not digits or not positive, driver_bot.py:163-167

  /**
   * The acceptance rule in its own terms: two words, the second made of digits
   * of which at least one is not zero.
   */
  predicate AcceptableInfo(text: string) {
    var words := Split(text);
    && |words| == 2
    && IsDigits(words[1])
    && exists i :: 0 <= i < |words[1]| && words[1][i] != '0'
  }

  /** The validation of add_driver_callback, driver_bot.py:157-167. */
  function ParseDriverInfo(text: string): (r: Result<DriverInfo, InfoError>)
    ensures r.Success? <==> AcceptableInfo(text)
    ensures r == Failure(WrongWordCount) <==> |Split(text)| != 2
    ensures r.Success? ==> IsWord(r.value.name) && r.value.seats > 0
    ensures r.Success? ==> Split(text)[0] == r.value.name
    ensures r.Success? ==> IsDigits(Split(text)[1]) && r.value.seats == DigitsValue(Split(text)[1])
  {
    var words := Split(text);
    if |words| != 2 then Failure(WrongWordCount)
    else if !IsDigits(words[1]) then Failure(InvalidSeats)
    else if DigitsValue(words[1]) <= 0 then Failure(InvalidSeats)
    else Success(DriverInfo(words[0], DigitsValue(words[1])))
  }

  /** The text a user types for a driver: name, one space, seat count ("Ivan 3"). */
  function FormatDriverInfo(info: DriverInfo): string {
    Unwords([info.name, ShowNat(info.seats)])
  }

  /** Every driver the bot can register is accepted back from its own typed form. */
  lemma ParseFormatRoundTrip(info: DriverInfo)
    requires IsWord(info.name) && info.seats > 0
    ensures ParseDriverInfo(FormatDriverInfo(info)) == Success(info)
  {
    var words := [info.name, ShowNat(info.seats)];
    assert forall w :: w in words ==> IsWord(w) by {
      var s := ShowNat(info.seats);
      assert forall i :: 0 <= i < |s| ==> !IsSpace(s[i]) by {
        forall i | 0 <= i < |s| ensures !IsSpace(s[i]) {
          assert IsDigit(s[i]);
        }
      }
    }
    SplitUnwords(words);
    DigitsValueShowNat(info.seats);
  }

  /**
   * Extra whitespace around and between the words never matters: text parses
   * like its words joined by single spaces.
   */
  lemma ParseIgnoresSpacing(text: string)
    ensures ParseDriverInfo(Unwords(Split(text))) == ParseDriverInfo(text)
  {
    SplitUnwords(Split(text));
  }

  /** "Ivan" alone is one word: refused for its word count. */
  lemma OneWordRefused()
    ensures ParseDriverInfo("Ivan") == Failure(WrongWordCount)
  {
  }

  /** "Ivan three" has two words, but the seat count is not made of digits. */
  lemma WordSeatsRefused()
    ensures ParseDriverInfo("Ivan three") == Failure(InvalidSeats)
  {
    assert Unwords(["Ivan", "three"]) == "Ivan three";
    SplitUnwords(["Ivan", "three"]);
    assert "three"[0] == 't' && !IsDigit('t');
  }
}

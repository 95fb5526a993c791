/** The two-line save format shared by the pause menu, which writes it, and the main menu, which
    reads it: the level index and the target score, each written with Python's `str` and read
    back line by line with `int`. */
module SaveData {

  datatype Option<T> = None | Some(value: T)

  /** The saved values: a level index and a score. */
  datatype SaveRecord = SaveRecord(levelIndex: int, score: int)

  predicate IsDigit(c: char)
  {
    48 <= c as int <= 57
  }

  /** The ASCII characters Python counts as whitespace: tab, line feed, vertical tab, form feed,
      carriage return, the four separators 0x1C to 0x1F, and space. */
  predicate IsSpace(c: char)
  {
    var k := c as int;
    k == 32 || 9 <= k <= 13 || 28 <= k <= 31
  }

  function DigitChar(d: nat): (c: char)
    requires d < 10
    ensures IsDigit(c) && c as int == 48 + d
  {
    (48 + d) as char
  }

  /** The decimal digits of `n`, most significant first, without leading zeros. */
  function NatDigits(n: nat): (s: string)
    ensures |s| > 0 && forall k :: 0 <= k < |s| ==> IsDigit(s[k])
    decreases n
  {
    if n < 10 then [DigitChar(n)] else NatDigits(n / 10) + [DigitChar(n % 10)]
  }

  /** Python's `str` on an integer. */
  function IntToString(n: int): (s: string)
    ensures |s| > 0 && !IsSpace(s[0]) && !IsSpace(s[|s| - 1])
    ensures forall k :: 0 <= k < |s| ==> s[k] != '\n' && s[k] != '\r'
  {
    if n < 0 then "-" + NatDigits(-n) else NatDigits(n)
  }

  predicate AllDigits(s: string)
  {
    forall k :: 0 <= k < |s| ==> IsDigit(s[k])
  }

  /** The value of a run of decimal digits. */
  function DigitsValue(s: string): nat
    requires AllDigits(s)
    decreases |s|
  {
    if s == [] then 0
    else
      assert IsDigit(s[|s| - 1]);
      10 * DigitsValue(s[..|s| - 1]) + (s[|s| - 1] as int - 48)
  }

  /** The digits of a number read back as that number. */
  lemma {:induction false} DigitsOfNatReadBack(n: nat)
    ensures DigitsValue(NatDigits(n)) == n
    decreases n
  {
    if n >= 10 {
      DigitsOfNatReadBack(n / 10);
      var s := NatDigits(n);
      assert s[..|s| - 1] == NatDigits(n / 10);
    }
  }

  function TrimStart(s: string): string
    decreases |s|
  {
    if s != [] && IsSpace(s[0]) then TrimStart(s[1..]) else s
  }

  function TrimEnd(s: string): string
    decreases |s|
  {
    if s != [] && IsSpace(s[|s| - 1]) then TrimEnd(s[..|s| - 1]) else s
  }

  /** Python's `int` on a string, in base 10: surrounding whitespace is ignored, an optional
      sign is followed by at least one decimal digit and nothing else; anything else is the
      `ValueError` case, `None`. */
  function ParseInt(s: string): Option<int>
  {
    var t := TrimStart(TrimEnd(s));
    var negative := |t| > 0 && t[0] == '-';
    var digits := if |t| > 0 && (t[0] == '-' || t[0] == '+') then t[1..] else t;
    if |digits| > 0 && AllDigits(digits) then
      var value: int := DigitsValue(digits);
      Some(if negative then -value else value)
    else None
  }

  /** The text a file opened in text mode yields: Python's universal newlines turn every
      "\r\n" and every lone '\r' of the file's raw text into '\n'. */
  function Newlines(raw: string): (text: string)
    ensures forall k :: 0 <= k < |text| ==> text[k] != '\r'
    decreases |raw|
  {
    if raw == [] then []
    else if raw[0] == '\r' then
      if |raw| > 1 && raw[1] == '\n' then "\n" + Newlines(raw[2..]) else "\n" + Newlines(raw[1..])
    else [raw[0]] + Newlines(raw[1..])
  }

  /** Text without carriage returns reads as it is stored. */
  lemma {:induction false} NewlinesKeepPlainText(raw: string)
    requires forall k :: 0 <= k < |raw| ==> raw[k] != '\r'
    ensures Newlines(raw) == raw
    decreases |raw|
  {
    if raw != [] {
      NewlinesKeepPlainText(raw[1..]);
      assert raw == [raw[0]] + raw[1..];
    }
  }

  /** A line break stored as "\r\n", '\r' or '\n' between two lines that hold no break of
      their own reads as one '\n'. */
  lemma {:induction false} NewlinesOfLineBreak(first: string, lineBreak: string, second: string)
    requires lineBreak == "\r\n" || lineBreak == "\r" || lineBreak == "\n"
    requires forall k :: 0 <= k < |first| ==> first[k] != '\r' && first[k] != '\n'
    requires forall k :: 0 <= k < |second| ==> second[k] != '\r' && second[k] != '\n'
    ensures Newlines(first + lineBreak + second) == first + "\n" + second
    decreases |first|
  {
    var raw := first + lineBreak + second;
    if first == [] {
      assert raw == lineBreak + second;
      NewlinesKeepPlainText(second);
      if lineBreak == "\r\n" {
        assert raw[2..] == second;
      } else {
        assert raw[1..] == second;
        assert second != [] ==> raw[1] == second[0];
      }
    } else {
      NewlinesOfLineBreak(first[1..], lineBreak, second);
      assert raw[0] == first[0] && raw[1..] == first[1..] + lineBreak + second;
      assert [first[0]] + (first[1..] + "\n" + second) == first + "\n" + second;
    }
  }

  /** `file.readline()` on the unread text after `Newlines`, where every line break is a line
      feed: everything up to and including the first line feed (or all of it if there is none),
      and the text that remains. */
  function ReadLine(s: string): (string, string)
    decreases |s|
  {
    if s == [] then ([], [])
    else if s[0] == '\n' then (['\n'], s[1..])
    else
      var (line, rest) := ReadLine(s[1..]);
      ([s[0]] + line, rest)
  }

  /** The text the pause menu writes: the level index, a line feed, and the target score. */
  function SaveText(levelIndex: int, targetScore: int): string
  {
    IntToString(levelIndex) + "\n" + IntToString(targetScore)
  }

  /** The menu's two `int(file.readline())` calls on the file's raw text, opened in text mode. */
  function ParseSave(raw: string): Option<SaveRecord>
  {
    var (first, rest) := ReadLine(Newlines(raw));
    var (second, _) := ReadLine(rest);
    match (ParseInt(first), ParseInt(second))
    case (Some(levelIndex), Some(score)) => Some(SaveRecord(levelIndex, score))
    case _ => None
  }

  lemma {:induction false} ReadLineStopsAtLineFeed(line: string, rest: string)
    requires forall k :: 0 <= k < |line| ==> line[k] != '\n'
    ensures ReadLine(line + "\n" + rest) == (line + "\n", rest)
    decreases |line|
  {
    if line != [] {
      ReadLineStopsAtLineFeed(line[1..], rest);
      var s := line + "\n" + rest;
      assert s[0] == line[0] && s[0] != '\n';
      assert s[1..] == line[1..] + "\n" + rest;
      assert [line[0]] + (line[1..] + "\n") == line + "\n";
    } else {
      assert line + "\n" + rest == ['\n'] + rest;
    }
  }

  lemma {:induction false} ReadLineWithoutLineFeed(line: string)
    requires forall k :: 0 <= k < |line| ==> line[k] != '\n'
    ensures ReadLine(line) == (line, [])
    decreases |line|
  {
    if line != [] {
      ReadLineWithoutLineFeed(line[1..]);
      assert line == [line[0]] + line[1..];
    }
  }

  /** `int(str(n))` is `n`, with or without a trailing line feed. */
  lemma IntToStringReadsBack(n: int)
    ensures ParseInt(IntToString(n)) == Some(n)
    ensures ParseInt(IntToString(n) + "\n") == Some(n)
  {
    var s := IntToString(n);
    assert TrimEnd(s + "\n") == TrimEnd(s) by {
      assert (s + "\n")[..|s + "\n"| - 1] == s;
    }
    if n < 0 {
      DigitsOfNatReadBack(-n);
      assert s[1..] == NatDigits(-n);
    } else {
      DigitsOfNatReadBack(n);
    }
  }

  /** What the menu reads is what the pause menu wrote. */
  lemma SaveRoundTrip(levelIndex: int, targetScore: int)
    ensures ParseSave(SaveText(levelIndex, targetScore)) == Some(SaveRecord(levelIndex, targetScore))
  {
    NewlinesOfLineBreak(IntToString(levelIndex), "\n", IntToString(targetScore));
    ReadLineStopsAtLineFeed(IntToString(levelIndex), IntToString(targetScore));
    ReadLineWithoutLineFeed(IntToString(targetScore));
    IntToStringReadsBack(levelIndex);
    IntToStringReadsBack(targetScore);
  }

  /** A save whose line break was stored as "\r\n" or '\r' (as another platform's editor may
      leave it) reads back as the same level index and score. */
  lemma SaveReadAcrossLineEndings(levelIndex: int, targetScore: int, lineBreak: string)
    requires lineBreak == "\r\n" || lineBreak == "\r"
    ensures ParseSave(IntToString(levelIndex) + lineBreak + IntToString(targetScore)) == Some(SaveRecord(levelIndex, targetScore))
  {
    NewlinesOfLineBreak(IntToString(levelIndex), lineBreak, IntToString(targetScore));
    NewlinesOfLineBreak(IntToString(levelIndex), "\n", IntToString(targetScore));
    SaveRoundTrip(levelIndex, targetScore);
  }

  /** `int` refuses text whose first non-blank character is neither a sign nor a digit. */
  lemma NonDigitRefused(s: string)
    requires var t := TrimStart(TrimEnd(s)); |t| > 0 && !IsDigit(t[0]) && t[0] != '-' && t[0] != '+'
    ensures ParseInt(s) == None
  {
    var t := TrimStart(TrimEnd(s));
    assert !IsDigit(t[0]);
  }

  /** Text that is not two integer lines is refused: an empty file, a single line, a word. */
  lemma EmptySaveRefused()
    ensures ParseSave("") == None
  {
    NewlinesKeepPlainText("");
    assert ReadLine("") == ("", "");
    assert TrimStart(TrimEnd("")) == "";
  }

  lemma OneLineSaveRefused()
    ensures ParseSave("3\n") == None
  {
    NewlinesKeepPlainText("3\n");
    ReadLineStopsAtLineFeed("3", "");
    assert "3" + "\n" + "" == "3\n";
    assert ReadLine("") == ("", "");
    assert TrimStart(TrimEnd("")) == "";
  }

  lemma WordSaveRefused()
    ensures ParseSave("three\n40") == None
  {
    NewlinesKeepPlainText("three\n40");
    ReadLineStopsAtLineFeed("three", "40");
    assert "three" + "\n" + "40" == "three\n40";
    var word := "three";
    assert TrimEnd(word + "\n") == TrimEnd(word) by {
      assert (word + "\n")[..5] == word;
    }
    assert TrimEnd(word) == word && TrimStart(word) == word;
    assert "three\n" == word + "\n";
    NonDigitRefused("three\n");
  }
}

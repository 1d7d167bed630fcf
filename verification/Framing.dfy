/** The line framer of `streamProxy`: a growing buffer, split at line feeds, of which the last piece is kept back. */
module Framing {
  import opened Types

  /** The lines of a text that are terminated. */
  function Lines(text: string): seq<string> {
    if text == "" then []
    else
      var front := text[..|text| - 1];
      Lines(front) + if text[|text| - 1] == '\n' then [Tail(front)] else []
  }

  /** What follows the last line feed. */
  function Tail(text: string): string {
    if text == "" then ""
    else
      var front, c := text[..|text| - 1], text[|text| - 1];
      if c == '\n' then "" else Tail(front) + [c]
  }

  lemma NoText()
    ensures Lines("") == [] && Tail("") == "" && Split("") == [""]
  {
  }

  lemma TextSnoc(text: string, c: char)
    ensures Lines(text + [c]) == Lines(text) + if c == '\n' then [Tail(text)] else []
    ensures Tail(text + [c]) == if c == '\n' then "" else Tail(text) + [c]
  {
    assert (text + [c])[..|text|] == text;
  }

  /** Framing in two steps: what is kept back goes in front of what comes next. */
  lemma {:induction false} LinesOfConcat(a: string, b: string)
    ensures Lines(a + b) == Lines(a) + Lines(Tail(a) + b)
    ensures Tail(a + b) == Tail(Tail(a) + b)
  {
    hide Lines, Tail;
    if b == "" {
      assert a + b == a && Tail(a) + b == Tail(a);
      TailIsOpen(a);
    } else {
      var front, c := b[..|b| - 1], b[|b| - 1];
      assert a + b == (a + front) + [c] && Tail(a) + b == (Tail(a) + front) + [c];
      TextSnoc(a + front, c);
      TextSnoc(Tail(a) + front, c);
      LinesOfConcat(a, front);
    }
  }

  lemma {:induction false} TailIsOpen(text: string)
    ensures Lines(Tail(text)) == [] && Tail(Tail(text)) == Tail(text)
  {
    hide Lines, Tail;
    NoText();
    if text != "" {
      var front, c := text[..|text| - 1], text[|text| - 1];
      assert front + [c] == text;
      TextSnoc(front, c);
      TailIsOpen(front);
      TextSnoc(Tail(front), c);
    }
  }

  /** A further character at the front and one at the end do not get in each other's way. */
  function Prepend(c: char, parts: seq<string>): (r: seq<string>)
    requires parts != []
    ensures r != []
  {
    if c == '\n' then [""] + parts else [[c] + parts[0]] + parts[1..]
  }

  function Append(parts: seq<string>, c: char): (r: seq<string>)
    requires parts != []
    ensures r != []
  {
    if c == '\n' then parts + [""] else parts[..|parts| - 1] + [parts[|parts| - 1] + [c]]
  }

  /** `text.split("\n")` */
  function Split(text: string): (parts: seq<string>)
    ensures parts != []
  {
    if text == "" then [""]
    else Prepend(text[0], Split(text[1..]))
  }

  lemma Prepended(a: char, parts: seq<string>, c: char)
    requires parts != []
    ensures Prepend(a, Append(parts, c)) == Append(Prepend(a, parts), c)
  {
    if |parts| == 1 {
      Associate([a], parts[0], [c]);
    }
  }

  lemma {:induction false} SplitSnoc(text: string, c: char)
    ensures Split(text + [c]) == Append(Split(text), c)
  {
    if text == "" {
      assert text + [c] == [c] && [c][1..] == "" && [""][1..] == [] && [c] + "" == [c] && "" + [c] == [c];
    } else {
      hide Append, Prepend;
      assert (text + [c])[1..] == text[1..] + [c] && (text + [c])[0] == text[0];
      SplitSnoc(text[1..], c);
      Prepended(text[0], Split(text[1..]), c);
    }
  }

  /** `split` and `pop` part the terminated lines from the rest. */
  lemma {:induction false} SplitThenPop(text: string)
    ensures Split(text) == Lines(text) + [Tail(text)]
  {
    hide Lines, Tail, Split;
    NoText();
    if text != "" {
      var front, c := text[..|text| - 1], text[|text| - 1];
      assert front + [c] == text;
      SplitThenPop(front);
      SplitSnoc(front, c);
      TextSnoc(front, c);
      assert (Lines(front) + [Tail(front)])[..|Lines(front)|] == Lines(front);
    }
  }

  function Unlines(lines: seq<string>): string {
    if lines == [] then "" else Unlines(lines[..|lines| - 1]) + lines[|lines| - 1] + "\n"
  }

  lemma NoLines()
    ensures Unlines([]) == ""
  {
  }

  lemma UnlinesSnoc(lines: seq<string>, line: string)
    ensures Unlines(lines + [line]) == Unlines(lines) + line + "\n"
  {
    assert (lines + [line])[..|lines|] == lines;
  }

  /** Nothing is lost or reordered: the lines and the tail make up the text, and have no line feed in them. */
  lemma {:induction false} LinesMakeUpText(text: string)
    ensures Unlines(Lines(text)) + Tail(text) == text
    ensures '\n' !in Tail(text) && forall k :: 0 <= k < |Lines(text)| ==> '\n' !in Lines(text)[k]
  {
    hide Lines, Tail, Unlines;
    NoText();
    NoLines();
    if text != "" {
      var front, c := text[..|text| - 1], text[|text| - 1];
      assert front + [c] == text;
      LinesMakeUpText(front);
      TextSnoc(front, c);
      UnlinesSnoc(Lines(front), Tail(front));
      Associate(Unlines(Lines(front)), Tail(front), [c]);
      assert "\n" == ['\n'] && text + "" == text;
      assert Lines(front) + [] == Lines(front);
    }
  }

  /** And this is the only way to part it so. */
  lemma {:induction false} LinesAreUnique(lines: seq<string>, tail: string)
    requires '\n' !in tail && forall k :: 0 <= k < |lines| ==> '\n' !in lines[k]
    ensures Lines(Unlines(lines) + tail) == lines && Tail(Unlines(lines) + tail) == tail
  {
    hide Lines, Tail, Unlines;
    NoText();
    NoLines();
    if tail != "" {
      var front, c := tail[..|tail| - 1], tail[|tail| - 1];
      LinesAreUnique(lines, front);
      assert Unlines(lines) + tail == (Unlines(lines) + front) + [c];
      TextSnoc(Unlines(lines) + front, c);
    } else if lines != [] {
      var front, line := lines[..|lines| - 1], lines[|lines| - 1];
      LinesAreUnique(front, line);
      TextSnoc(Unlines(front) + line, '\n');
      assert front + [line] == lines;
      UnlinesSnoc(front, line);
      assert Unlines(lines) + tail == (Unlines(front) + line) + ['\n'];
    } else {
      assert Unlines(lines) + tail == "";
    }
  }

  // ----- One line -----

  const PREFIX: string := "data: "

  /** The characters that `trim` removes: white space and line terminators. */
  predicate IsBlank(c: char) {
    || c == ' ' || c == '\t' || c == '\n' || c == '\r' || c == '\U{000B}' || c == '\U{000C}' || c == '\U{00A0}'
    || c == '\U{FEFF}' || c == '\U{1680}' || '\U{2000}' <= c <= '\U{200A}' || c == '\U{2028}' || c == '\U{2029}'
    || c == '\U{202F}' || c == '\U{205F}' || c == '\U{3000}'
  }

  function TrimStart(s: string): string {
    if s != "" && IsBlank(s[0]) then TrimStart(s[1..]) else s
  }

  function TrimEnd(s: string): string {
    if s != "" && IsBlank(s[|s| - 1]) then TrimEnd(s[..|s| - 1]) else s
  }

  function Trim(s: string): string {
    TrimEnd(TrimStart(s))
  }

  /** What a line carries, if anything: `data` events only, and no empty ones. */
  function Payload(line: string): Option<string> {
    if PREFIX <= line && Trim(line[|PREFIX|..]) != "" then Some(Trim(line[|PREFIX|..])) else None
  }

  lemma {:induction false} TrimEndOfBlank(s: string, c: char)
    requires IsBlank(c)
    ensures Trim(s + [c]) == Trim(s)
  {
    if s == "" {
      assert s + [c] == [c] && [c][1..] == "";
    } else if IsBlank(s[0]) {
      assert (s + [c])[1..] == s[1..] + [c];
      TrimEndOfBlank(s[1..], c);
    } else {
      assert (s + [c])[0] == s[0];
      assert (s + [c])[..|s|] == s;
    }
  }

  /** Lines that end in a carriage return and a line feed carry the same. */
  lemma CarriageReturnsAreIgnored(line: string)
    ensures Payload(line + "\r") == Payload(line)
  {
    hide IsBlank, Trim;
    if PREFIX <= line {
      assert (line + "\r")[|PREFIX|..] == line[|PREFIX|..] + ['\r'];
      ReturnIsBlank();
      TrimEndOfBlank(line[|PREFIX|..], '\r');
    } else {
      assert |line| == 5 ==> (line + "\r")[5] == '\r' && PREFIX[5] == ' ';
      assert |line| > 5 ==> (line + "\r")[..6] == line[..6];
    }
  }

  lemma ReturnIsBlank()
    ensures IsBlank('\r')
  {
  }

  // ----- What a line carries -----

  /** White space and line terminators of ECMAScript, by their code points. */
  lemma BlankCodes(c: char)
    ensures var code := c as int;
            IsBlank(c) <==>
              || code in {9, 10, 11, 12, 13, 32, 0xA0, 0xFEFF, 0x1680}
              || code in {0x2028, 0x2029, 0x202F, 0x205F, 0x3000}
              || 0x2000 <= code <= 0x200A
  {
  }

  ghost predicate AllBlank(s: string) {
    forall k :: 0 <= k < |s| ==> IsBlank(s[k])
  }

  /** Not empty, and without blanks around it. */
  predicate Bare(s: string) {
    s != "" && !IsBlank(s[0]) && !IsBlank(s[|s| - 1])
  }

  lemma {:induction false} StartIsDropped(a: string, s: string)
    requires AllBlank(a) && s != "" && !IsBlank(s[0])
    ensures TrimStart(a + s) == s
  {
    hide IsBlank;
    if a == "" {
      assert a + s == s;
    } else {
      assert (a + s)[1..] == a[1..] + s;
      StartIsDropped(a[1..], s);
    }
  }

  lemma {:induction false} EndIsDropped(s: string, b: string)
    requires AllBlank(b) && s != "" && !IsBlank(s[|s| - 1])
    ensures TrimEnd(s + b) == s
  {
    hide IsBlank;
    if b == "" {
      assert s + b == s;
    } else {
      assert (s + b)[..|s + b| - 1] == s + b[..|b| - 1];
      EndIsDropped(s, b[..|b| - 1]);
    }
  }

  lemma {:induction false} StartDrops(s: string) returns (a: string)
    ensures AllBlank(a) && s == a + TrimStart(s) && (TrimStart(s) != "" ==> !IsBlank(TrimStart(s)[0]))
  {
    hide IsBlank;
    if s != "" && IsBlank(s[0]) {
      a := StartDrops(s[1..]);
      a := [s[0]] + a;
    } else {
      a := "";
    }
  }

  lemma {:induction false} EndDrops(s: string) returns (b: string)
    ensures AllBlank(b) && s == TrimEnd(s) + b && (TrimEnd(s) != "" ==> !IsBlank(TrimEnd(s)[|TrimEnd(s)| - 1]))
  {
    hide IsBlank;
    if s != "" && IsBlank(s[|s| - 1]) {
      b := EndDrops(s[..|s| - 1]);
      b := b + [s[|s| - 1]];
    } else {
      b := "";
    }
  }

  /** The line is the prefix, this payload, and blanks around it. */
  ghost predicate IsDataLine(line: string, payload: string, a: string, b: string) {
    Bare(payload) && AllBlank(a) && AllBlank(b) && line == "data: " + a + payload + b
  }

  lemma DataLineCarries(line: string, payload: string, a: string, b: string)
    requires IsDataLine(line, payload, a, b)
    ensures Payload(line) == Some(payload)
  {
    hide IsBlank, TrimStart, TrimEnd;
    assert line[|PREFIX|..] == a + (payload + b);
    StartIsDropped(a, payload + b);
    EndIsDropped(payload, b);
  }

  lemma CarriedIsDataLine(line: string) returns (a: string, b: string)
    ensures Payload(line).Some? ==> IsDataLine(line, Payload(line).value, a, b)
  {
    hide IsBlank, TrimStart, TrimEnd;
    a, b := "", "";
    if PREFIX <= line {
      var s := line[|PREFIX|..];
      a := StartDrops(s);
      b := EndDrops(TrimStart(s));
      assert line == PREFIX + s;
      Associate(a, Trim(s), b);
      if Trim(s) != "" {
        assert TrimStart(s)[0] == Trim(s)[0];
        Associate(PREFIX, a, Trim(s));
        Associate(PREFIX + a, Trim(s), b);
        Associate(PREFIX, a + Trim(s), b);
      }
    }
  }

  /** What a line carries, for every line: it is the prefix, blanks, the payload, and blanks; otherwise it carries
      nothing. */
  lemma PayloadIsBetweenBlanks(line: string, payload: string)
    ensures Payload(line) == Some(payload) <==> exists a, b :: IsDataLine(line, payload, a, b)
  {
    hide IsDataLine, Payload;
    var a, b := CarriedIsDataLine(line);
    forall a', b' | IsDataLine(line, payload, a', b') ensures Payload(line) == Some(payload) {
      DataLineCarries(line, payload, a', b');
    }
  }
}

/** A text and its lines, as Python's `splitlines` cuts them: at a newline, but also at a
    carriage return, a vertical tab, a form feed and the separators of Unicode. */
module TextLines {
  import opened Common

  predicate IsBreak(c: char) {
    || c == '\n' || c == '\r' || c == '\U{0B}' || c == '\U{0C}'
    || c == '\U{1C}' || c == '\U{1D}' || c == '\U{1E}' || c == '\U{85}' || c == '\U{2028}' || c == '\U{2029}'
  }

  /** A text that is one line. */
  predicate OneLine(s: string) {
    forall c | c in s :: !IsBreak(c)
  }

  predicate AllOneLine(lines: seq<string>) {
    forall s | s in lines :: OneLine(s)
  }

  /** Where the first line ends. */
  function LineEnd(text: string): (k: nat)
    ensures k <= |text| && OneLine(text[..k])
    ensures k < |text| ==> IsBreak(text[k])
  {
    if text == "" || IsBreak(text[0]) then 0 else
      var k := 1 + LineEnd(text[1..]);
      assert text[..k] == [text[0]] + text[1..][..k - 1];
      k
  }

  /** Where the next line starts: a carriage return and a newline are one break. */
  function NextLine(text: string): (n: nat)
    requires text != ""
    ensures 0 < n <= |text|
  {
    var k := LineEnd(text);
    if k == |text| then k
    else if text[k] == '\r' && k + 1 < |text| && text[k + 1] == '\n' then k + 2
    else k + 1
  }

  function Lines(text: string): (lines: seq<string>)
    ensures AllOneLine(lines)
    decreases |text|
  {
    if text == "" then [] else [text[..LineEnd(text)]] + Lines(text[NextLine(text)..])
  }

  /** Each line ended by a newline. */
  function Unlines(lines: seq<string>): string {
    if lines == [] then "" else lines[0] + "\n" + Unlines(lines[1..])
  }

  // ---------- Lines that are put together come back ----------

  lemma {:induction false} LineEndOf(line: string, rest: string)
    requires OneLine(line) && rest != "" && IsBreak(rest[0])
    ensures LineEnd(line + rest) == |line|
  {
    if line == "" {
      assert line + rest == rest;
    } else {
      assert (line + rest)[1..] == line[1..] + rest;
      LineEndOf(line[1..], rest);
    }
  }

  /** A line, a break and what follows it. */
  lemma {:induction false} LinesOfBroken(line: string, c: char, rest: string)
    requires OneLine(line) && IsBreak(c)
    requires c == '\r' && rest != "" ==> rest[0] != '\n'
    ensures Lines(line + [c] + rest) == [line] + Lines(rest)
  {
    var text := line + [c] + rest;
    assert text == line + ([c] + rest);
    LineEndOf(line, [c] + rest);
    assert text[..|line|] == line && text[|line| + 1..] == rest;
    assert |line| + 1 < |text| ==> text[|line| + 1] == rest[0];
  }

  /** Lines put together are read back as they were exactly when none holds a break. */
  lemma {:induction false} UnlinesIff(lines: seq<string>)
    ensures Lines(Unlines(lines)) == lines <==> AllOneLine(lines)
  {
    if lines != [] && AllOneLine(lines) {
      assert lines == [lines[0]] + lines[1..];
      UnlinesIff(lines[1..]);
      LinesOfBroken(lines[0], '\n', Unlines(lines[1..]));
    }
  }

  // ---------- Texts one after another ----------

  lemma {:induction false} LineEndStays(a: string, b: string)
    requires a != "" && Last(a) == '\n'
    ensures LineEnd(a + b) == LineEnd(a) < |a|
  {
    if !IsBreak(a[0]) {
      assert (a + b)[1..] == a[1..] + b;
      LineEndStays(a[1..], b);
    }
  }

  /** After a newline, lines start afresh. */
  lemma {:induction false} LinesAfter(a: string, b: string)
    requires a != "" && Last(a) == '\n'
    ensures Lines(a + b) == Lines(a) + Lines(b)
    decreases |a|
  {
    var k, n := LineEnd(a), NextLine(a);
    LineEndStays(a, b);
    assert NextLine(a + b) == n;
    assert (a + b)[..k] == a[..k] && (a + b)[n..] == a[n..] + b;
    if n < |a| {
      LinesAfter(a[n..], b);
      Assoc([a[..k]], Lines(a[n..]), Lines(b));
    } else {
      assert a[n..] == "" && a[n..] + b == b;
    }
  }

  /** A text with a newline at its end, added where there is none. */
  function Ended(text: string): string {
    if text != "" && Last(text) == '\n' then text else text + "\n"
  }

  /** Whether the newline that ends a text makes a line of its own: it does after nothing, and
      after a break that does not join it. */
  predicate EndsInBlank(text: string) {
    text == "" || (IsBreak(Last(text)) && Last(text) != '\n' && Last(text) != '\r')
  }

  lemma {:induction false} EndOfUnended(text: string)
    ensures LineEnd(text + "\n") == LineEnd(text)
  {
    if text == "" {
      assert "" + "\n" == "\n";
    } else if !IsBreak(text[0]) {
      assert (text + "\n")[1..] == text[1..] + "\n";
      EndOfUnended(text[1..]);
    }
  }

  /** Ending a text adds at most a blank line. */
  lemma {:induction false} EndedLines(text: string)
    ensures Lines(Ended(text)) == Lines(text) + if EndsInBlank(text) then [""] else []
    decreases |text|
  {
    if text == "" {
      assert "" + "\n" == "\n";
      assert Lines("\n") == [""];
    } else if Last(text) != '\n' {
      var n := NextLine(text);
      if n < |text| {
        EndedLines(text[n..]);
        EndedFirstLine(text);
        Assoc([text[..LineEnd(text)]], Lines(text[n..]), if EndsInBlank(text) then [""] else []);
      } else {
        EndedOneLine(text);
      }
    }
  }

  /** A first line that is not the last stays as it is. */
  lemma {:induction false} EndedFirstLine(text: string)
    requires text != "" && Last(text) != '\n' && NextLine(text) < |text|
    ensures Lines(text + "\n") == [text[..LineEnd(text)]] + Lines(text[NextLine(text)..] + "\n")
    ensures Last(text[NextLine(text)..]) == Last(text)
  {
    var k, n := LineEnd(text), NextLine(text);
    EndOfUnended(text);
    assert NextLine(text + "\n") == n;
    assert (text + "\n")[..k] == text[..k] && (text + "\n")[n..] == text[n..] + "\n";
  }

  /** The same for a text of one line. */
  lemma {:induction false} EndedOneLine(text: string)
    requires text != "" && Last(text) != '\n' && NextLine(text) == |text|
    ensures Lines(text + "\n") == Lines(text) + if EndsInBlank(text) then [""] else []
  {
    var k := LineEnd(text);
    EndOfUnended(text);
    var all := text + "\n";
    assert all[..k] == text[..k] && text[|text|..] == "" && all[|text|..] == "\n" && all[|text| + 1..] == "";
    assert Lines("\n") == [""];
    assert k < |text| ==> k == |text| - 1 && text[k] == Last(text);
    if k == |text| {
      assert text[..k] == text;
    }
  }
}

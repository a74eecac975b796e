/** The round trip on texts: what a patch says is read back from the text it is printed to, and
    from the texts of several patches joined.  A line of a patch may hold line breaks of its own:
    it is then read as several, and exactly which of these the reader passes over is shown. */
module PatchTexts {
  import opened Common
  import opened Text
  import opened TextLines
  import opened Diffs
  import opened Patches

  // ---------- Printed lines are lines ----------

  predicate OneLinePath(path: Option<string>) {
    path.Some? ==> OneLine(path.value)
  }

  predicate OneLineOps(ops: seq<Op>) {
    forall op | op in ops && !op.Note? :: OneLine(op.text)
  }

  predicate OneLineSegments(segments: seq<Segment>) {
    forall s | s in segments && s.Hunk? :: OneLine(s.section) && OneLineOps(s.ops)
  }

  /** No path, section or line of the file holds a line break. */
  predicate OneLineFile(d: FileDiff) {
    OneLinePath(d.oldPath) && OneLinePath(d.newPath) && AllOneLine(d.extra) && OneLineSegments(d.segments)
  }

  predicate OneLineFiles(ds: seq<FileDiff>) {
    forall d | d in ds :: OneLineFile(d)
  }

  lemma {:induction false} DecimalIsOneLine(n: nat)
    ensures OneLine(Decimal(n))
  {
    forall c | c in Decimal(n) ensures !IsBreak(c) {
      assert IsDigit(c);
    }
  }

  lemma {:induction false} RangeIsOneLine(start: nat, count: nat)
    ensures OneLine(PrintRange(start, count))
  {
    DecimalIsOneLine(start);
    DecimalIsOneLine(PrintedStart(start, 0));
    DecimalIsOneLine(count);
  }

  lemma {:induction false} HeaderIsOneLine(before: seq<Op>, ops: seq<Op>, section: string)
    requires OneLine(section)
    ensures OneLine(HeaderAfter(before, ops, section))
  {
    RangeIsOneLine(OldCount(before) + 1, OldCount(ops));
    RangeIsOneLine(NewCount(before) + 1, NewCount(ops));
    PartsAreOneLine(PrintRange(OldCount(before) + 1, OldCount(ops)),
                    PrintRange(NewCount(before) + 1, NewCount(ops)), section);
  }

  lemma {:induction false} PartsAreOneLine(first: string, second: string, section: string)
    requires OneLine(first) && OneLine(second) && OneLine(section)
    ensures OneLine("@@ -" + (first + (" +" + (second + (" @@" + section)))))
  {
    assert OneLine(" @@" + section);
    assert OneLine(" +" + (second + (" @@" + section)));
  }

  lemma {:induction false} OpIsOneLine(op: Op)
    requires op.Note? || OneLine(op.text)
    ensures OneLine(PrintOp(op))
  {
  }

  lemma {:induction false} OpsAreLines(ops: seq<Op>)
    requires OneLineOps(ops)
    ensures AllOneLine(PrintOps(ops))
  {
    if ops != [] {
      assert Last(ops) in ops;
      assert OneLineOps(Front(ops)) by {
        assert forall op | op in Front(ops) :: op in ops;
      }
      OpsAreLines(Front(ops));
      OpIsOneLine(Last(ops));
    }
  }

  lemma {:induction false} SegmentsAreLines(segments: seq<Segment>)
    requires OneLineSegments(segments)
    ensures AllOneLine(PrintSegments(segments))
  {
    if segments != [] {
      var most, last := Front(segments), Last(segments);
      assert last in segments && forall s | s in most :: s in segments;
      SegmentsAreLines(most);
      if last.Hunk? {
        HeaderIsOneLine(Flatten(most), last.ops, last.section);
        OpsAreLines(last.ops);
      }
    }
  }

  lemma {:induction false} HeadersAreLines(d: FileDiff)
    requires Sided(d) && OneLinePath(d.oldPath) && OneLinePath(d.newPath) && AllOneLine(d.extra)
    ensures AllOneLine(PrintHeaders(d))
  {
    PathIsOneLine(OLD, "a/", d.oldPath);
    PathIsOneLine(NEW, "b/", d.newPath);
    assert OneLine(RENAME) && OneLine("rename to ");
    GitIsOneLine(Key(d), if d.newPath.Some? then d.newPath.value else Key(d));
  }

  lemma {:induction false} PathIsOneLine(mark: string, prefix: string, path: Option<string>)
    requires OneLine(mark) && OneLine(prefix) && OneLinePath(path)
    ensures OneLine(PrintPath(mark, prefix, path))
  {
    assert OneLine(NULL);
  }

  lemma {:induction false} GitIsOneLine(base: string, path: string)
    requires OneLine(base) && OneLine(path)
    ensures OneLine(PrintGit(base, path))
  {
    assert OneLine(base + (" b/" + path));
  }

  lemma {:induction false} PatchIsLines(ds: seq<FileDiff>)
    requires (forall i | 0 <= i < |ds| :: Sided(ds[i])) && OneLineFiles(ds)
    ensures AllOneLine(PrintPatch(ds))
  {
    if ds != [] {
      assert Last(ds) in ds && forall d | d in Front(ds) :: d in ds;
      PatchIsLines(Front(ds));
      HeadersAreLines(Last(ds));
      SegmentsAreLines(Last(ds).segments);
    }
  }

  // ---------- Lines that hold a break ----------

  /** What a line is read as. */
  function Pieces(line: string): seq<string> {
    Lines(line + "\n")
  }

  /** What follows the first break of a line. */
  function Tail(line: string): seq<string> {
    if |Pieces(line)| == 0 then [] else Pieces(line)[1..]
  }

  /** The line up to its first break is its first piece. */
  lemma {:induction false} FirstPiece(line: string)
    ensures Pieces(line) == [line[..LineEnd(line)]] + Tail(line)
  {
    EndOfUnended(line);
    assert (line + "\n")[..LineEnd(line)] == line[..LineEnd(line)];
  }

  /** Breaks are where they were when something without one is put in front. */
  lemma {:induction false} EndBehind(a: string, text: string)
    requires OneLine(a)
    ensures LineEnd(a + text) == |a| + LineEnd(text)
  {
    if a == "" {
      assert a + text == text;
    } else {
      assert (a + text)[1..] == a[1..] + text;
      EndBehind(a[1..], text);
    }
  }

  lemma {:induction false} NextBehind(a: string, text: string)
    requires OneLine(a) && text != ""
    ensures NextLine(a + text) == |a| + NextLine(text) && (a + text)[NextLine(a + text)..] == text[NextLine(text)..]
  {
    EndBehind(a, text);
    var k := LineEnd(text);
    assert k < |text| ==> (a + text)[|a| + k] == text[k];
    assert k + 1 < |text| ==> (a + text)[|a| + k + 1] == text[k + 1];
  }

  lemma {:induction false} TailOf(line: string)
    ensures Tail(line) == Lines((line + "\n")[NextLine(line + "\n")..])
  {
  }

  lemma {:induction false} TailBehind(a: string, text: string)
    requires OneLine(a)
    ensures Tail(a + text) == Tail(text)
  {
    TailOf(a + text);
    TailOf(text);
    assert a + text + "\n" == a + (text + "\n");
    NextBehind(a, text + "\n");
  }

  lemma {:induction false} StartBehind(a: string, text: string)
    requires OneLine(a)
    ensures (a + text)[..LineEnd(a + text)] == a + text[..LineEnd(text)]
  {
    EndBehind(a, text);
  }

  lemma {:induction false} OneLineTail(line: string)
    requires OneLine(line)
    ensures Tail(line) == []
  {
    UnlinesIff([line]);
    assert Unlines([line]) == line + "\n";
  }

  /** Lines that the reader takes notice of wherever it stands in a hunk. */
  predicate Noticed(raw: string) {
    IsHeader(raw) || ReadHunk(raw).Some? || StartsWith(raw, "-") || StartsWith(raw, " ")
  }

  /** Lines that it passes over; `plus` says that an inserted line would go where one is already
      put down. */
  predicate Quiet(lines: seq<string>, plus: bool) {
    forall raw | raw in lines :: !Noticed(raw) && (plus || !StartsWith(raw, "+"))
  }

  /** What follows a break in this line goes unnoticed. */
  predicate QuietOp(op: Op) {
    op.Note? || Quiet(Tail(op.text), !op.Keep?)
  }

  /** The reader in a hunk, at some line of the base. */
  predicate InHunk(st: State) {
    st.cur.Some? && st.cur.value in st.files && st.oldLine >= 1
  }

  /** The line is read as if it were one, wherever in a hunk. */
  ghost predicate ReadsAsOne(op: Op) {
    forall st | InHunk(st) :: Fold(st, Pieces(PrintOp(op))) == Step(st, PrintOp(op))
  }

  /** What a line of a hunk does to the reader. */
  function After(st: State, op: Op): State {
    match op
    case Keep(_) => st.(oldLine := st.oldLine + 1)
    case Delete(_) => Touch(st, st.oldLine).(oldLine := st.oldLine + 1)
    case Insert(_) => Touch(st, Max(st.oldLine - 1, 1))
    case Note => st
  }

  lemma {:induction false} OpAfter(st: State, op: Op)
    requires PlainOp(op) && st.cur.Some?
    ensures Step(st, PrintOp(op)) == After(st, op)
  {
    OpLine(st, op);
  }

  /** The pieces of a printed line: its own beginning, and the rest. */
  lemma {:induction false} OpPieces(st: State, op: Op)
    requires PlainOp(op) && st.cur.Some?
    ensures Fold(st, Pieces(PrintOp(op))) == Fold(After(st, op), if op.Note? then [] else Tail(op.text))
  {
    var line := PrintOp(op);
    FirstPiece(line);
    var first := line[..LineEnd(line)];
    FoldConcat(st, [first], Tail(line));
    FoldOne(st, first);
    OpAfter(st, op);
    if op.Note? {
      OpIsOneLine(op);
      OneLineTail(line);
      WholeLine(line);
    } else {
      TailBehind([line[0]], op.text);
      StartBehind([line[0]], op.text);
      assert line == [line[0]] + op.text;
      ShortOp(st, op, LineEnd(op.text));
    }
  }

  lemma {:induction false} WholeLine(line: string)
    requires OneLine(line)
    ensures line[..LineEnd(line)] == line
  {
    EndBehind(line, "");
    assert line + "" == line;
  }

  /** A line cut short has the same effect. */
  lemma {:induction false} ShortOp(st: State, op: Op, k: nat)
    requires PlainOp(op) && st.cur.Some? && !op.Note? && k <= |op.text|
    ensures Step(st, [PrintOp(op)[0]] + op.text[..k]) == Step(st, PrintOp(op))
  {
    var short := op.(text := op.text[..k]);
    assert PrintOp(short) == [PrintOp(op)[0]] + op.text[..k];
    ShortPrefix(op.text, k, "-- ");
    ShortPrefix(op.text, k, "++ ");
    OpLine(st, op);
    OpLine(st, short);
  }

  lemma {:induction false} ShortPrefix(s: string, k: nat, prefix: string)
    requires k <= |s|
    ensures StartsWith(s[..k], prefix) ==> StartsWith(s, prefix)
  {
    if StartsWith(s[..k], prefix) {
      assert s[..|prefix|] == s[..k][..|prefix|];
    }
  }

  lemma {:induction false} TouchTwice(st: State, line: int)
    ensures Touch(Touch(st, line), line) == Touch(st, line)
  {
    if st.cur.Some? && st.cur.value in st.files {
      var f := st.files[st.cur.value];
      assert f.oldLines + {line} + {line} == f.oldLines + {line};
    }
  }

  /** The reader passes over a line it does not notice, also over an insertion where one is put
      down already. */
  lemma {:induction false} QuietStep(st: State, raw: string)
    requires !Noticed(raw) && (StartsWith(raw, "+") ==> Touch(st, Max(st.oldLine - 1, 1)) == st)
    ensures Step(st, raw) == st
  {
  }

  lemma {:induction false} QuietLines(st: State, lines: seq<string>, plus: bool)
    requires Quiet(lines, plus) && (plus ==> Touch(st, Max(st.oldLine - 1, 1)) == st)
    ensures Fold(st, lines) == st
  {
    forall raw | raw in lines ensures Step(st, raw) == st {
      QuietStep(st, raw);
    }
    FoldIdle(st, lines);
  }

  /** After a deleted line an insertion is put down to that line. */
  lemma {:induction false} DeletedThenPlus(st: State)
    requires st.oldLine >= 1
    ensures var next := Touch(st, st.oldLine).(oldLine := st.oldLine + 1);
            Touch(next, Max(next.oldLine - 1, 1)) == next
  {
    TouchTwice(st, st.oldLine);
  }

  /** After an edit line an insertion goes where one is put down already. */
  lemma {:induction false} AfterEdit(st: State, op: Op)
    requires op.Insert? || (op.Delete? && st.oldLine >= 1)
    ensures var at := After(st, op); Touch(at, Max(at.oldLine - 1, 1)) == at
  {
    if op.Insert? {
      TouchTwice(st, Max(st.oldLine - 1, 1));
    } else {
      DeletedThenPlus(st);
    }
  }

  lemma {:induction false} QuietAfter(at: State, op: Op)
    requires QuietOp(op) && !op.Note? && (!op.Keep? ==> Touch(at, Max(at.oldLine - 1, 1)) == at)
    ensures Fold(at, Tail(op.text)) == at
  {
    QuietLines(at, Tail(op.text), !op.Keep?);
  }

  lemma {:induction false} QuietReads(st: State, op: Op)
    requires PlainOp(op) && QuietOp(op) && st.cur.Some? && (op.Delete? ==> st.oldLine >= 1)
    ensures Fold(st, Pieces(PrintOp(op))) == Step(st, PrintOp(op))
  {
    OpPieces(st, op);
    OpAfter(st, op);
    QuietGoesOn(st, op);
  }

  lemma {:induction false} QuietGoesOn(st: State, op: Op)
    requires QuietOp(op) && (op.Delete? ==> st.oldLine >= 1)
    ensures Fold(After(st, op), if op.Note? then [] else Tail(op.text)) == After(st, op)
  {
    if !op.Note? {
      if !op.Keep? {
        AfterEdit(st, op);
      }
      QuietAfter(After(st, op), op);
    }
  }

  // ---------- What the reader notices leaves a trace ----------

  ghost predicate Extends(a: map<string, FileChange>, b: map<string, FileChange>) {
    forall k | k in a :: k in b && a[k].oldLines <= b[k].oldLines
  }

  /** The reader has left where it stood, and cannot come back with that many lines to go. */
  ghost predicate Off(at: State, st: State, left: nat) {
    || st.oldPath != at.oldPath || st.newPath != at.newPath
    || st.oldLine > at.oldLine || st.oldLine + left < at.oldLine
    || !Extends(st.files, at.files)
  }

  /** Lines too short to name the paths the reader has, and with numbers far below its line. */
  predicate Far(at: State, raw: string, left: nat) {
    && at.oldPath.Some? && at.newPath.Some? && |raw| < |at.oldPath.value| && |raw| < |at.newPath.value|
    && at.oldPath == at.cur && at.oldPath.value in at.files && at.files.Keys == {at.oldPath.value}
    && (ReadHunk(raw).Some? ==> ReadHunk(raw).value + left < at.oldLine)
  }

  lemma {:induction false} PathShorter(raw: string, prefix: string)
    requires |raw| >= 4
    ensures ReadPath(raw, prefix).Some? ==> |ReadPath(raw, prefix).value| < |raw|
  {
    StripShorter(raw[4..]);
  }

  lemma {:induction false} StepExtends(st: State, raw: string)
    ensures Extends(st.files, Step(st, raw).files)
  {
  }

  lemma {:induction false} ExtendsOn(a: map<string, FileChange>, b: map<string, FileChange>,
                                     c: map<string, FileChange>)
    requires Extends(a, b) && Extends(b, c)
    ensures Extends(a, c)
  {
  }

  /** The paths a line sets are none of the reader's own. */
  lemma {:induction false} OldPathMoves(at: State, st: State, raw: string, left: nat)
    requires Far(at, raw, left) && (st.oldPath != at.oldPath || StartsWith(raw, GIT) || StartsWith(raw, OLD))
    ensures Step(st, raw).oldPath != at.oldPath
  {
    if !StartsWith(raw, GIT) && StartsWith(raw, OLD) {
      PathShorter(raw, "a/");
    } else {
      StepPaths(st, raw);
    }
  }

  lemma {:induction false} NewPathMoves(at: State, st: State, raw: string, left: nat)
    requires Far(at, raw, left)
    requires st.newPath != at.newPath || StartsWith(raw, GIT) || (!StartsWith(raw, OLD) && StartsWith(raw, NEW))
    ensures Step(st, raw).newPath != at.newPath
  {
    if !StartsWith(raw, GIT) && !StartsWith(raw, OLD) && StartsWith(raw, NEW) {
      PathShorter(raw, "b/");
    }
    StepPaths(st, raw);
  }

  /** Where the reader's paths come from. */
  lemma {:induction false} StepPaths(st: State, raw: string)
    ensures var next := Step(st, raw);
            if StartsWith(raw, GIT) then next.oldPath == ReadGit(raw).0 && next.newPath == ReadGit(raw).1
            else if StartsWith(raw, OLD) then next.oldPath == ReadPath(raw, "a/") && next.newPath == st.newPath
            else if StartsWith(raw, NEW) then next.oldPath == st.oldPath && next.newPath == ReadPath(raw, "b/")
            else next.oldPath == st.oldPath && next.newPath == st.newPath
  {
  }

  lemma {:induction false} LineMoves(at: State, st: State, raw: string, left: nat)
    requires Far(at, raw, left) && (st.oldLine > at.oldLine || st.oldLine + (left + 1) < at.oldLine)
    ensures var line := Step(st, raw).oldLine; line > at.oldLine || line + left < at.oldLine
  {
  }

  lemma {:induction false} StaysOff(at: State, st: State, raw: string, left: nat)
    requires Far(at, raw, left) && Off(at, st, left + 1)
    ensures Off(at, Step(st, raw), left)
  {
    if st.oldPath != at.oldPath {
      OldPathMoves(at, st, raw, left);
    } else if st.newPath != at.newPath {
      NewPathMoves(at, st, raw, left);
    } else if st.oldLine > at.oldLine || st.oldLine + (left + 1) < at.oldLine {
      LineMoves(at, st, raw, left);
    } else {
      StepExtends(st, raw);
      if Extends(Step(st, raw).files, at.files) {
        ExtendsOn(st.files, Step(st, raw).files, at.files);
      }
    }
  }

  /** Any line the reader notices takes it off. */
  lemma {:induction false} NoticedIsOff(at: State, raw: string, left: nat)
    requires Far(at, raw, left)
    requires Noticed(raw)
             || (StartsWith(raw, "+") && Max(at.oldLine - 1, 1) !in at.files[at.oldPath.value].oldLines)
    ensures Off(at, Step(at, raw), left)
  {
    if StartsWith(raw, GIT) || StartsWith(raw, OLD) {
      OldPathMoves(at, at, raw, left);
    } else if StartsWith(raw, NEW) {
      NewPathMoves(at, at, raw, left);
    } else if StartsWith(raw, RENAME) {
      StripShorter(raw[|RENAME|..]);
      assert Strip(raw[|RENAME|..], IsPythonSpace) !in at.files;
    } else if ReadHunk(raw).None? && StartsWith(raw, "+") {
      assert Max(at.oldLine - 1, 1) in Step(at, raw).files[at.oldPath.value].oldLines;
    }
  }

  ghost predicate AllFar(at: State, lines: seq<string>, left: nat) {
    forall raw | raw in lines :: Far(at, raw, |lines| + left)
  }

  /** After lines of which one is noticed the reader is not where it was. */
  lemma {:induction false} NoticedShows(at: State, lines: seq<string>, plus: bool, left: nat)
    requires AllFar(at, lines, left)
    requires plus ==> Touch(at, Max(at.oldLine - 1, 1)) == at
    requires !plus && at.oldPath.Some? && at.oldPath.value in at.files
             ==> Max(at.oldLine - 1, 1) !in at.files[at.oldPath.value].oldLines
    ensures if Quiet(lines, plus) then Fold(at, lines) == at else Off(at, Fold(at, lines), left)
  {
    if lines == [] {
    } else {
      var most, raw := Front(lines), Last(lines);
      assert lines == most + [raw] && raw in lines && forall x | x in most :: x in lines;
      NoticedShows(at, most, plus, left + 1);
      if !Quiet(most, plus) {
        StaysOff(at, Fold(at, most), raw, left);
      } else if Noticed(raw) || (!plus && StartsWith(raw, "+")) {
        NoticedIsOff(at, raw, left);
      } else {
        QuietStep(at, raw);
      }
    }
  }

  /** A number above all hunk headers among the lines, and a length above theirs. */
  function Above(lines: seq<string>): (n: nat)
    ensures forall raw | raw in lines :: |raw| < n && (ReadHunk(raw).Some? ==> ReadHunk(raw).value < n)
  {
    if lines == [] then 1 else
      var raw := Last(lines);
      assert forall x | x in lines :: x in Front(lines) || x == raw;
      Above(Front(lines)) + |raw| + 1 + if ReadHunk(raw).Some? then ReadHunk(raw).value else 0
  }

  /** A reader far away from everything the lines name. */
  function Witness(lines: seq<string>): State {
    var key := seq(Above(lines), _ => 'x');
    State(map[key := FileChange(key, Modified, {})], Some(key), Above(lines) + |lines|, Some(key), Some(key))
  }

  /** From there the line is read, and everything after its break is still far away. */
  lemma {:induction false} FarAfter(op: Op, lines: seq<string>)
    requires !op.Note?
    ensures AllFar(After(Witness(lines), op), lines, 0)
    ensures var at, key := After(Witness(lines), op), seq(Above(lines), _ => 'x');
            at.oldPath == Some(key) && key in at.files
            && (op.Keep? ==> Max(at.oldLine - 1, 1) !in at.files[key].oldLines)
  {
  }

  lemma {:induction false} LinesShow(at: State, lines: seq<string>, plus: bool, key: string)
    requires AllFar(at, lines, 0) && at.oldPath == Some(key) && key in at.files && !Quiet(lines, plus)
    requires if plus then Touch(at, Max(at.oldLine - 1, 1)) == at
             else Max(at.oldLine - 1, 1) !in at.files[key].oldLines
    ensures Fold(at, lines) != at
  {
    NoticedShows(at, lines, plus, 0);
  }

  lemma {:induction false} TailShows(st: State, op: Op, lines: seq<string>, key: string)
    requires !op.Note? && !Quiet(lines, !op.Keep?) && st.oldLine >= 1
    requires var at := After(st, op);
             AllFar(at, lines, 0) && at.oldPath == Some(key) && key in at.files
             && (op.Keep? ==> Max(at.oldLine - 1, 1) !in at.files[key].oldLines)
    ensures Fold(After(st, op), lines) != After(st, op)
  {
    if op.Keep? {
      LinesShow(After(st, op), lines, false, key);
    } else {
      AfterEdit(st, op);
      LinesShow(After(st, op), lines, true, key);
    }
  }

  lemma {:induction false} BreakShows(op: Op)
    requires PlainOp(op) && !QuietOp(op)
    ensures var st := Witness(Tail(op.text));
            InHunk(st) && Fold(st, Pieces(PrintOp(op))) != Step(st, PrintOp(op))
  {
    var tail := Tail(op.text);
    var st := Witness(tail);
    OpPieces(st, op);
    OpAfter(st, op);
    FarAfter(op, tail);
    TailShows(st, op, tail, seq(Above(tail), _ => 'x'));
  }

  /** A line with breaks in it is read as the one line it is, wherever it stands in a hunk, if and
      only if the reader takes no notice of anything that follows its first break -- or only of
      insertions, where the line itself is an edit. */
  lemma {:induction false} ReadsAsOneIff(op: Op)
    requires PlainOp(op)
    ensures ReadsAsOne(op) <==> QuietOp(op)
  {
    if QuietOp(op) {
      forall st | InHunk(st) ensures Fold(st, Pieces(PrintOp(op))) == Step(st, PrintOp(op)) {
        QuietReads(st, op);
      }
    } else {
      BreakShows(op);
    }
  }

  // ---------- Texts of quiet lines ----------

  lemma {:induction false} UnlinesConcat(a: seq<string>, b: seq<string>)
    ensures Unlines(a + b) == Unlines(a) + Unlines(b)
  {
    if a == [] {
      assert a + b == b;
    } else {
      assert (a + b)[1..] == a[1..] + b;
      UnlinesConcat(a[1..], b);
    }
  }

  lemma {:induction false} LinesOfParts(a: seq<string>, b: seq<string>)
    ensures Lines(Unlines(a + b)) == Lines(Unlines(a)) + Lines(Unlines(b))
  {
    UnlinesConcat(a, b);
    if a == [] {
      assert "" + Unlines(b) == Unlines(b);
    } else {
      UnlinesEnd(a);
      LinesAfter(Unlines(a), Unlines(b));
    }
  }

  lemma {:induction false} UnlinesEnd(lines: seq<string>)
    requires lines != []
    ensures Unlines(lines) != "" && Last(Unlines(lines)) == '\n'
  {
    if |lines| > 1 {
      UnlinesEnd(lines[1..]);
    }
  }

  predicate QuietOps(ops: seq<Op>) {
    forall op | op in ops :: QuietOp(op)
  }

  predicate QuietSegments(segments: seq<Segment>) {
    forall s | s in segments && s.Hunk? :: Quiet(Tail(s.section), false) && QuietOps(s.ops)
  }

  /** No path of the file holds a line break, and of its hunks nothing that follows a break inside
      a line is noticed. */
  predicate QuietFile(d: FileDiff) {
    OneLinePath(d.oldPath) && OneLinePath(d.newPath) && AllOneLine(d.extra) && QuietSegments(d.segments)
  }

  predicate QuietFiles(ds: seq<FileDiff>) {
    forall d | d in ds :: QuietFile(d)
  }

  /** The text of lines is read as the lines themselves. */
  ghost predicate SameRead(st: State, lines: seq<string>) {
    Fold(st, Lines(Unlines(lines))) == Fold(st, lines)
  }

  lemma {:induction false} SameReadConcat(st: State, a: seq<string>, b: seq<string>)
    requires SameRead(st, a) && SameRead(Fold(st, a), b)
    ensures SameRead(st, a + b)
  {
    LinesOfParts(a, b);
    FoldConcat(st, Lines(Unlines(a)), Lines(Unlines(b)));
    FoldConcat(st, a, b);
  }

  lemma {:induction false} SameReadOne(st: State, line: string)
    requires Fold(st, Pieces(line)) == Step(st, line)
    ensures SameRead(st, [line])
  {
    assert Unlines([line]) == line + "\n";
    FoldOne(st, line);
  }

  lemma {:induction false} SectionLast(before: seq<Op>, ops: seq<Op>, section: string)
    ensures HeaderAfter(before, ops, section) == HeaderAfter(before, ops, "") + section
  {
    var first := PrintRange(OldCount(before) + 1, OldCount(ops));
    var second := PrintRange(NewCount(before) + 1, NewCount(ops));
    AssocFive("@@ -", first, " +", second, " @@", section);
    assert " @@" + "" == " @@";
  }

  lemma {:induction false} AssocFive(a: string, b: string, c: string, d: string, e: string, f: string)
    ensures a + (b + (c + (d + (e + f)))) == a + (b + (c + (d + e))) + f
  {
    assert d + (e + f) == d + e + f;
    assert c + (d + e + f) == c + (d + e) + f;
    assert b + (c + (d + e) + f) == b + (c + (d + e)) + f;
  }

  /** A hunk header is read the same whatever its section. */
  lemma {:induction false} SectionsAreIdle(st: State, before: seq<Op>, ops: seq<Op>, one: string, other: string)
    ensures Step(st, HeaderAfter(before, ops, one)) == Step(st, HeaderAfter(before, ops, other))
  {
    HeaderSteps(st, OldCount(before) + 1, OldCount(ops), NewCount(before) + 1, NewCount(ops), one);
    HeaderSteps(st, OldCount(before) + 1, OldCount(ops), NewCount(before) + 1, NewCount(ops), other);
  }

  lemma {:induction false} HeaderReads(st: State, before: seq<Op>, ops: seq<Op>, section: string)
    requires Quiet(Tail(section), false)
    ensures SameRead(st, [HeaderAfter(before, ops, section)])
  {
    var line, bare := HeaderAfter(before, ops, section), HeaderAfter(before, ops, "");
    var short := section[..LineEnd(section)];
    SectionLast(before, ops, section);
    SectionLast(before, ops, short);
    HeaderIsOneLine(before, ops, "");
    TailBehind(bare, section);
    StartBehind(bare, section);
    FirstPiece(line);
    FoldConcat(st, [HeaderAfter(before, ops, short)], Tail(section));
    FoldOne(st, HeaderAfter(before, ops, short));
    SectionsAreIdle(st, before, ops, short, section);
    QuietLines(Step(st, line), Tail(section), false);
    SameReadOne(st, line);
  }

  lemma {:induction false} OpsRead(st: State, key: string, files: map<string, FileChange>, before: seq<Op>,
                                   ops: seq<Op>)
    requires st.cur == Some(key) && key in files && st.files == AddLines(files, key, Touched(before))
    requires st.oldLine == OldCount(before) + 1 && (forall op | op in ops :: PlainOp(op)) && QuietOps(ops)
    ensures SameRead(st, PrintOps(ops))
  {
    if ops != [] {
      var most, op := Front(ops), Last(ops);
      assert op in ops && forall x | x in most :: x in ops;
      OpsRead(st, key, files, before, most);
      OpsAdd(st, key, files, before, most);
      QuietReads(Fold(st, PrintOps(most)), op);
      SameReadOne(Fold(st, PrintOps(most)), PrintOp(op));
      SameReadConcat(st, PrintOps(most), [PrintOp(op)]);
    }
  }

  lemma {:induction false} InsertsRead(st: State, key: string, ops: seq<Op>)
    requires st.cur == Some(key) && key in st.files && OnlyInserts(ops) && QuietOps(ops)
    ensures SameRead(st, PrintOps(ops))
  {
    if ops != [] {
      var most, op := Front(ops), Last(ops);
      assert op in ops && forall x | x in most :: x in ops;
      InsertsRead(st, key, most);
      InsertedLines(st, key, most);
      QuietReads(Fold(st, PrintOps(most)), op);
      SameReadOne(Fold(st, PrintOps(most)), PrintOp(op));
      SameReadConcat(st, PrintOps(most), [PrintOp(op)]);
    }
  }

  lemma {:induction false} HunkReads(st: State, key: string, files: map<string, FileChange>, before: seq<Op>,
                                     ops: seq<Op>, section: string)
    requires st.cur == Some(key) && key in files && st.files == AddLines(files, key, Touched(before))
    requires (forall op | op in ops :: PlainOp(op)) && QuietOps(ops) && Quiet(Tail(section), false)
    ensures SameRead(st, [HeaderAfter(before, ops, section)] + PrintOps(ops))
  {
    var header := HeaderAfter(before, ops, section);
    HeaderReads(st, before, ops, section);
    HeaderSteps(st, OldCount(before) + 1, OldCount(ops), NewCount(before) + 1, NewCount(ops), section);
    FoldOne(st, header);
    if OldCount(ops) > 0 {
      OpsRead(Step(st, header), key, files, before, ops);
    } else {
      NothingCountedOnlyInserts(ops);
      InsertsRead(Step(st, header), key, ops);
    }
    SameReadConcat(st, [header], PrintOps(ops));
  }

  lemma {:induction false} SegmentsRead(st: State, key: string, files: map<string, FileChange>, segments: seq<Segment>)
    requires st.cur == Some(key) && key in files && st.files == files
    requires PlainSegments(segments) && QuietSegments(segments)
    ensures SameRead(st, PrintSegments(segments))
  {
    if segments != [] {
      var most, last := Front(segments), Last(segments);
      assert last in segments && forall s | s in most :: s in segments;
      SegmentsRead(st, key, files, most);
      SegmentsAdd(st, key, files, most);
      if last.Hunk? {
        HunkReads(Fold(st, PrintSegments(most)), key, files, Flatten(most), last.ops, last.section);
      }
      SameReadConcat(st, PrintSegments(most), PrintSegment(Flatten(most), last));
    }
  }

  lemma {:induction false} FileReads(st: State, d: FileDiff)
    requires Printable(d) && QuietFile(d)
    ensures SameRead(st, PrintFile(d))
  {
    HeadersAreLines(d);
    UnlinesIff(PrintHeaders(d));
    HeadersFold(st, d);
    var at := Fold(st, PrintHeaders(d));
    SegmentsRead(at, Key(d), at.files, d.segments);
    SameReadConcat(st, PrintHeaders(d), PrintSegments(d.segments));
  }

  lemma {:induction false} PatchReads(st: State, ds: seq<FileDiff>)
    requires AllPrintable(ds) && QuietFiles(ds)
    ensures SameRead(st, PrintPatch(ds))
  {
    if ds != [] {
      assert Last(ds) in ds && forall d | d in Front(ds) :: d in ds;
      PatchReads(st, Front(ds));
      FileReads(Fold(st, PrintPatch(Front(ds))), Last(ds));
      SameReadConcat(st, PrintPatch(Front(ds)), PrintFile(Last(ds)));
    }
  }

  /** Lines without a break hold nothing to be noticed. */
  lemma {:induction false} OneLineIsQuiet(ds: seq<FileDiff>)
    requires OneLineFiles(ds)
    ensures QuietFiles(ds)
  {
    forall d, s | d in ds && s in d.segments && s.Hunk? ensures Quiet(Tail(s.section), false) && QuietOps(s.ops) {
      OneLineTail(s.section);
      forall op | op in s.ops && !op.Note? ensures QuietOp(op) {
        OneLineTail(op.text);
      }
    }
  }

  // ---------- The round trip ----------

  function PatchText(ds: seq<FileDiff>): string
    requires forall i | 0 <= i < |ds| :: Sided(ds[i])
  {
    Unlines(PrintPatch(ds))
  }

  /** Reading the text of a printed patch recovers, per file, its status, the base lines it
      deletes and those its insertions follow, also where a line ends with a carriage return or
      holds another break, as long as the reader does not notice what follows it; without breaks
      the text's lines are the printed ones. */
  lemma {:induction false} TextReadsBack(ds: seq<FileDiff>)
    requires AllPrintable(ds) && QuietFiles(ds)
    ensures Parsed(Lines(PatchText(ds))) == Changes(map[], ds)
    ensures OneLineFiles(ds) ==> Lines(PatchText(ds)) == PrintPatch(ds)
  {
    PatchReads(START, ds);
    PatchReadsBack(START, ds);
    if OneLineFiles(ds) {
      PatchIsLines(ds);
      UnlinesIff(PrintPatch(ds));
    }
  }

  /** In a patch that names each file once, the text gives every file its own change, and no
      other files. */
  lemma {:induction false} EachFileTextReadsBack(ds: seq<FileDiff>)
    requires AllPrintable(ds) && QuietFiles(ds) && DistinctKeys(ds)
    ensures var files := Parsed(Lines(PatchText(ds)));
            && (forall i | 0 <= i < |ds| :: Key(ds[i]) in files && files[Key(ds[i])] == Change(ds[i]))
            && forall k | k in files :: exists i :: 0 <= i < |ds| && Key(ds[i]) == k
  {
    TextReadsBack(ds);
    ChangesOfEach(ds);
  }

  /** A line that ends with a carriage return, as in a file with such line ends, holds nothing
      after its break. */
  lemma {:induction false} CarriageReturnIsQuiet(text: string)
    requires OneLine(text)
    ensures QuietOp(Keep(text + "\r")) && QuietOp(Delete(text + "\r")) && QuietOp(Insert(text + "\r"))
  {
    TailBehind(text, "\r");
    assert "\r" + "\n" == "\r\n" && LineEnd("\r\n") == 0 && NextLine("\r\n") == 2;
  }

  // ---------- Several patches ----------

  function AllFiles(patches: seq<seq<FileDiff>>): seq<FileDiff> {
    if patches == [] then [] else AllFiles(Front(patches)) + Last(patches)
  }

  ghost predicate EachPrintable(patches: seq<seq<FileDiff>>) {
    && (forall i | 0 <= i < |patches| :: AllPrintable(patches[i]))
    && forall i | 0 <= i < |patches| :: QuietFiles(patches[i])
  }

  ghost function TextsOf(patches: seq<seq<FileDiff>>): (texts: seq<string>)
    requires EachPrintable(patches)
    ensures |texts| == |patches| && forall i | 0 <= i < |patches| :: texts[i] == PatchText(patches[i])
  {
    seq(|patches|, i requires 0 <= i < |patches| => PatchText(patches[i]))
  }

  lemma {:induction false} ChangesConcat(files: map<string, FileChange>, a: seq<FileDiff>, b: seq<FileDiff>)
    requires AllPrintable(a) && AllPrintable(b)
    ensures AllPrintable(a + b) && Changes(files, a + b) == Changes(Changes(files, a), b)
  {
    assert forall i | 0 <= i < |a + b| :: (a + b)[i] == if i < |a| then a[i] else b[i - |a|];
    if b == [] {
      assert a + b == a;
    } else {
      ChangesConcat(files, a, Front(b));
      assert Front(a + b) == a + Front(b) && Last(a + b) == Last(b);
    }
  }

  /** The patch texts of a case, joined, read exactly as one patch with the files of all. */
  lemma {:induction false} JoinedPatchesReadBack(patches: seq<seq<FileDiff>>)
    requires EachPrintable(patches)
    ensures AllPrintable(AllFiles(patches))
    ensures Parsed(Lines(JoinTexts(TextsOf(patches)))) == Changes(map[], AllFiles(patches))
  {
    if patches != [] {
      var most, last := Front(patches), Last(patches);
      var texts := TextsOf(patches);
      assert Front(texts) == TextsOf(most) && Last(texts) == PatchText(last);
      JoinedPatchesReadBack(most);
      ChangesConcat(map[], AllFiles(most), last);
      var st := Fold(START, Lines(JoinTexts(TextsOf(most))));
      PatchReads(st, last);
      PatchReadsBack(st, last);
      if most == [] {
        EndedParses(START, PatchText(last));
      } else {
        JoinedEnds(TextsOf(most));
        TextAfterText(JoinTexts(TextsOf(most)), PatchText(last));
      }
    }
  }

  // ---------- What the condition on lines is for ----------

  /** A line with a break inside it, put down as one, is read as two. */
  lemma {:induction false} BreakMakesTwo(line: string, c: char, next: string)
    requires OneLine(line) && IsBreak(c) && OneLine(next) && next != ""
    ensures Lines(Unlines([line + [c] + next])) == [line, next]
  {
    var text := Unlines([line + [c] + next]);
    assert text == line + [c] + (next + "\n");
    assert (next + "\n")[0] == next[0] && next[0] in next;
    LinesOfBroken(line, c, next + "\n");
    UnlinesIff([next]);
    assert Unlines([next]) == next + "\n";
  }

  /** A kept line with a break in it prints as two lines. */
  lemma {:induction false} BreakSplitsALine(a: string, c: char, b: string)
    requires OneLine(a) && IsBreak(c) && OneLine(b)
    ensures Lines(Unlines([PrintOp(Keep(a + [c] + (" " + b)))])) == [PrintOp(Keep(a)), PrintOp(Keep(b))]
  {
    OpIsOneLine(Keep(a));
    OpIsOneLine(Keep(b));
    assert PrintOp(Keep(a + [c] + (" " + b))) == PrintOp(Keep(a)) + [c] + PrintOp(Keep(b));
    BreakMakesTwo(PrintOp(Keep(a)), c, PrintOp(Keep(b)));
  }

  /** Such a line counts twice: after it, every line of the hunk is taken for the one below. */
  lemma {:induction false} BreakCountsTwice(st: State, a: string, c: char, b: string)
    requires OneLine(a) && IsBreak(c) && OneLine(b) && st.cur.Some?
    ensures Fold(st, [PrintOp(Keep(a + [c] + (" " + b)))]) == st.(oldLine := st.oldLine + 1)
    ensures Fold(st, Lines(Unlines([PrintOp(Keep(a + [c] + (" " + b)))]))) == st.(oldLine := st.oldLine + 2)
  {
    BreakSplitsALine(a, c, b);
    FoldOne(st, PrintOp(Keep(a + [c] + (" " + b))));
    OpLine(st, Keep(a + [c] + (" " + b)));
    FoldConcat(st, [PrintOp(Keep(a))], [PrintOp(Keep(b))]);
    FoldOne(st, PrintOp(Keep(a)));
    OpLine(st, Keep(a));
    FoldOne(Step(st, PrintOp(Keep(a))), PrintOp(Keep(b)));
    OpLine(Step(st, PrintOp(Keep(a))), Keep(b));
  }

  /** A file whose first line holds a form feed and whose second line is deleted; and the
      script its text reads as. */
  const SCRIPT := [Keep("a" + ['\U{0C}'] + (" " + "b")), Delete("x")]
  const READ := [Keep("a"), Keep("b"), Delete("x")]

  function FormFeedFile(path: string): FileDiff {
    FileDiff(Some(path), Some(path), [], [Hunk(SCRIPT, "")])
  }

  /** Two lines of a script, the first with a break in it. */
  lemma {:induction false} SplitTwo(a: string, c: char, b: string, x: string)
    requires OneLine(a) && IsBreak(c) && OneLine(b) && OneLine(x)
    ensures Lines(Unlines(PrintOps([Keep(a + [c] + (" " + b)), Delete(x)]))) == PrintOps([Keep(a), Keep(b), Delete(x)])
  {
    var kept, deleted := Keep(a + [c] + (" " + b)), Delete(x);
    TwoOps(kept, deleted);
    TwoOps(Keep(a), Keep(b));
    assert Front([Keep(a), Keep(b), deleted]) == [Keep(a), Keep(b)];
    BreakSplitsALine(a, c, b);
    OpIsOneLine(deleted);
    OneMoreLine([PrintOp(kept)], PrintOp(deleted));
  }

  lemma {:induction false} OneMoreLine(lines: seq<string>, line: string)
    requires OneLine(line)
    ensures Lines(Unlines(lines + [line])) == Lines(Unlines(lines)) + [line]
  {
    LinesOfParts(lines, [line]);
    UnlinesIff([line]);
  }

  lemma {:induction false} TwoOps(a: Op, b: Op)
    ensures PrintOps([a, b]) == [PrintOp(a)] + [PrintOp(b)]
  {
    assert Front([a, b]) == [a] && Last([a, b]) == b;
    assert Front([a]) == [] && PrintOps([]) == [];
    assert PrintOps([a]) == [PrintOp(a)];
  }

  lemma {:induction false} OneHunk(ops: seq<Op>)
    ensures Flatten([Hunk(ops, "")]) == ops
    ensures PrintSegments([Hunk(ops, "")]) == [HeaderAfter([], ops, "")] + PrintOps(ops)
  {
    var segments := [Hunk(ops, "")];
    assert Front(segments) == [] && Last(segments) == Hunk(ops, "");
    assert Flatten(Front(segments)) == [] && PrintSegments(Front(segments)) == [];
    assert [] + ops == ops;
    var lines := PrintSegment([], Hunk(ops, ""));
    assert [] + lines == lines;
  }

  /** A printed file of one hunk, in parts. */
  lemma {:induction false} OneFile(d: FileDiff, ops: seq<Op>)
    requires Sided(d) && d.segments == [Hunk(ops, "")]
    ensures PrintPatch([d]) == PrintHeaders(d) + ([HeaderAfter([], ops, "")] + PrintOps(ops))
  {
    OneHunk(ops);
    assert Front([d]) == [] && PrintPatch([]) == [];
    assert [] + PrintFile(d) == PrintFile(d);
  }

  /** The lines of a text in three parts, of which the first two are lines already. */
  lemma {:induction false} LinesOfThree(a: seq<string>, b: seq<string>, c: seq<string>)
    requires AllOneLine(a) && AllOneLine(b)
    ensures Lines(Unlines(a + (b + c))) == a + (b + Lines(Unlines(c)))
  {
    LinesOfParts(a, b + c);
    LinesOfParts(b, c);
    UnlinesIff(a);
    UnlinesIff(b);
  }

  lemma {:induction false} FormFeedLines(path: string)
    requires OneLine(path)
    ensures Lines(PatchText([FormFeedFile(path)]))
         == PrintHeaders(FormFeedFile(path)) + ([HeaderAfter([], SCRIPT, "")] + PrintOps(READ))
  {
    var d := FormFeedFile(path);
    OneFile(d, SCRIPT);
    SplitTwo("a", '\U{0C}', "b", "x");
    HeadersAreLines(d);
    HeaderIsOneLine([], SCRIPT, "");
    LinesOfThree(PrintHeaders(d), [HeaderAfter([], SCRIPT, "")], PrintOps(SCRIPT));
  }

  lemma {:induction false} TouchedOf()
    ensures Touched(SCRIPT) == {2} && Touched(READ) == {3}
  {
    assert Touched([]) == {};
    TouchedAppend([], SCRIPT[0]);
    assert [] + [SCRIPT[0]] == [SCRIPT[0]] && [SCRIPT[0]] + [SCRIPT[1]] == SCRIPT;
    TouchedAppend([SCRIPT[0]], SCRIPT[1]);
    TouchedAppend([], READ[0]);
    TouchedAppend([READ[0]], READ[1]);
    TouchedAppend([READ[0], READ[1]], READ[2]);
    assert [] + [READ[0]] == [READ[0]] && [READ[0]] + [READ[1]] == [READ[0], READ[1]];
    assert [READ[0], READ[1]] + [READ[2]] == READ;
    assert Front([READ[0], READ[1]]) == [READ[0]] && Front([READ[0]]) == [] && Front([SCRIPT[0]]) == [];
  }

  /** Reading the lines of another script under the header of this one. */
  lemma {:induction false} ReadUnder(st: State, key: string, script: seq<Op>, read: seq<Op>)
    requires st.cur == Some(key) && key in st.files && OldCount(script) > 0 && forall op | op in read :: PlainOp(op)
    ensures Fold(st, [HeaderAfter([], script, "")] + PrintOps(read)).files == AddLines(st.files, key, Touched(read))
  {
    var header := HeaderAfter([], script, "");
    HeaderSteps(st, 1, OldCount(script), NewCount([]) + 1, NewCount(script), "");
    FoldOne(st, header);
    FoldConcat(st, [header], PrintOps(read));
    ReadFromTheTop(Step(st, header), key, read);
  }

  lemma {:induction false} ReadFromTheTop(st: State, key: string, read: seq<Op>)
    requires st.cur == Some(key) && key in st.files && st.oldLine == 1 && forall op | op in read :: PlainOp(op)
    ensures Fold(st, PrintOps(read)).files == AddLines(st.files, key, Touched(read))
  {
    assert Touched([]) == {};
    AddNone(st.files, key);
    OpsAdd(st, key, st.files, [], read);
    assert [] + read == read;
  }

  lemma {:induction false} FormFeedIsPlain(path: string)
    requires PlainPath(Some(path))
    ensures Printable(FormFeedFile(path)) && OldCount(SCRIPT) > 0 && forall op | op in READ :: PlainOp(op)
  {
    var segments := FormFeedFile(path).segments;
    assert Front(segments) == [] && Last(segments) == Hunk(SCRIPT, "");
    NotPrefix("x", "-- ");
    assert PlainSegments(Front(segments));
    assert PlainSegment(Flatten([]), Last(segments));
  }

  /** Line 2 is the one the patch deletes; read from the text, it is line 3. */
  lemma {:induction false} FormFeedShiftsLines(path: string)
    requires PlainPath(Some(path)) && OneLine(path)
    ensures Printable(FormFeedFile(path)) && Touched(Flatten(FormFeedFile(path).segments)) == {2}
    ensures var files := Parsed(Lines(PatchText([FormFeedFile(path)])));
            path in files && files[path].oldLines == {3}
  {
    var d := FormFeedFile(path);
    FormFeedIsPlain(path);
    OneHunk(SCRIPT);
    TouchedOf();
    FormFeedLines(path);
    var rest := [HeaderAfter([], SCRIPT, "")] + PrintOps(READ);
    FoldConcat(START, PrintHeaders(d), rest);
    HeadersFold(START, d);
    ReadUnder(Opened(START, d), path, SCRIPT, READ);
    AddedLines(Opened(START, d).files, path, Touched(READ));
    assert {} + {3} == {3};
  }
}

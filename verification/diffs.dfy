/** The reader of unified diffs: which files a patch changes, and which lines of the base
    each change touches.  It is proved to undo a printer of edit scripts. */
module Diffs {
  import opened Common
  import opened Text
  import opened TextLines

  datatype Status = Modified | Added | Deleted | Renamed

  datatype FileChange = FileChange(path: string, status: Status, oldLines: set<int>)

  // ---------- The two patterns ----------

  /** A line number, with an optional count after a comma: its number and what follows. */
  function ReadRange(s: string): Option<(nat, string)> {
    var n := DigitRun(s);
    if n == 0 then None
    else
      var rest := s[n..];
      var more := if StartsWith(rest, ",") then DigitRun(rest[1..]) else 0;
      assert forall c | c in s[..n] :: IsDigit(c);
      Some((Value(s[..n]), if more > 0 then rest[1 + more..] else rest))
  }

  /** A hunk header, `@@ -l,c +l,c @@`: the old side's line number. */
  function ReadHunk(raw: string): Option<nat> {
    if !StartsWith(raw, "@@ -") then None
    else
      match ReadRange(raw[4..])
      case None => None
      case Some((line, rest)) =>
        if !StartsWith(rest, " +") then None
        else
          match ReadRange(rest[2..])
          case None => None
          case Some((_, tail)) => if StartsWith(tail, " @@") then Some(line) else None
  }

  /** The first place from `i` on where ` b/` splits the text in two non-empty paths. */
  function SplitAt(s: string, i: nat): (k: nat)
    requires i <= |s|
    ensures k <= |s|
    ensures k < |s| ==> StartsWith(s[k..], " b/") && k + 3 < |s|
    decreases |s| - i
  {
    if i == |s| then i
    else if i >= 1 && StartsWith(s[i..], " b/") && i + 3 < |s| then i
    else SplitAt(s, i + 1)
  }

  const GIT := "diff --git "
  const OLD := "--- "
  const NEW := "+++ "
  const RENAME := "rename from "
  const NULL := "/dev/null"

  /** The two paths of a `diff --git a/... b/...` line. */
  function ReadGit(raw: string): (Option<string>, Option<string>) {
    if !StartsWith(raw, GIT + "a/") then (None, None)
    else
      var body := raw[|GIT| + 2..];
      var k := SplitAt(body, 0);
      if k == |body| then (None, None) else (Some(body[..k]), Some(body[k + 3..]))
  }

  /** The path of a `---` or `+++` line, without its side's prefix. */
  function ReadPath(raw: string, prefix: string): Option<string>
    requires |raw| >= 4
  {
    var p := Strip(raw[4..], IsPythonSpace);
    if p == NULL then None else if StartsWith(p, prefix) then Some(p[|prefix|..]) else Some(p)
  }

  // ---------- The reader ----------

  datatype State = State(
    files: map<string, FileChange>,
    cur: Option<string>,             // the file being read, by its key
    oldLine: int,
    oldPath: Option<string>,
    newPath: Option<string>)

  const START := State(map[], None, 0, None, None)

  /** Takes up a file, keeping what is already known of it. */
  function SetDefault(st: State, path: string, status: Status): State {
    st.(files := if path in st.files then st.files else st.files[path := FileChange(path, status, {})],
        cur := Some(path))
  }

  predicate Present(p: Option<string>) {
    p.Some? && p.value != ""
  }

  function OpenFile(st: State): State {
    if st.oldPath.None? && Present(st.newPath) then SetDefault(st, st.newPath.value, Added)
    else if st.newPath.None? && Present(st.oldPath) then SetDefault(st, st.oldPath.value, Deleted)
    else if Present(st.oldPath) then
      SetDefault(st, st.oldPath.value, if Present(st.newPath) && st.newPath != st.oldPath then Renamed else Modified)
    else st
  }

  function Touch(st: State, line: int): State {
    if st.cur.Some? && st.cur.value in st.files then
      var f := st.files[st.cur.value];
      st.(files := st.files[st.cur.value := f.(oldLines := f.oldLines + {line})])
    else st
  }

  /** An edit line of the current file. */
  function Edit(st: State, raw: string): State {
    if StartsWith(raw, "-") then Touch(st, st.oldLine).(oldLine := st.oldLine + 1)
    else if StartsWith(raw, "+") then Touch(st, Max(st.oldLine - 1, 1))
    else if StartsWith(raw, " ") then st.(oldLine := st.oldLine + 1)
    else st
  }

  function Step(st: State, raw: string): State {
    if StartsWith(raw, GIT) then
      var (o, n) := ReadGit(raw);
      st.(oldPath := o, newPath := n, cur := None)
    else if StartsWith(raw, OLD) then st.(oldPath := ReadPath(raw, "a/"))
    else if StartsWith(raw, NEW) then OpenFile(st.(newPath := ReadPath(raw, "b/")))
    else if StartsWith(raw, RENAME) then SetDefault(st, Strip(raw[|RENAME|..], IsPythonSpace), Renamed)
    else if ReadHunk(raw).Some? then st.(oldLine := ReadHunk(raw).value)
    else if st.cur.None? then st
    else Edit(st, raw)
  }

  function Fold(st: State, lines: seq<string>): State {
    if lines == [] then st else Step(Fold(st, lines[..|lines| - 1]), lines[|lines| - 1])
  }

  function Parsed(lines: seq<string>): map<string, FileChange> {
    Fold(START, lines).files
  }

  /** The reader as the program runs it. */
  method ParsePatch(text: string) returns (files: map<string, FileChange>)
    ensures files == Parsed(Lines(text))
  {
    var lines := Lines(text);
    files := map[];
    var cur: Option<string> := None;
    var oldLine: int := 0;
    var oldPath: Option<string>, newPath: Option<string> := None, None;
    for i := 0 to |lines|
      invariant Fold(START, lines[..i]) == State(files, cur, oldLine, oldPath, newPath)
    {
      assert lines[..i + 1][..i] == lines[..i];
      var raw := lines[i];
      if StartsWith(raw, GIT) {
        oldPath, newPath := ReadGit(raw).0, ReadGit(raw).1;
        cur := None;
        continue;
      }
      if StartsWith(raw, OLD) {
        oldPath := ReadPath(raw, "a/");
        continue;
      }
      if StartsWith(raw, NEW) {
        newPath := ReadPath(raw, "b/");
        var next := OpenFile(State(files, cur, oldLine, oldPath, newPath));
        files, cur := next.files, next.cur;
        continue;
      }
      if StartsWith(raw, RENAME) {
        var source := Strip(raw[|RENAME|..], IsPythonSpace);
        var next := SetDefault(State(files, cur, oldLine, oldPath, newPath), source, Renamed);
        files, cur := next.files, next.cur;
        continue;
      }
      var hunk := ReadHunk(raw);
      if hunk.Some? {
        oldLine := hunk.value;
        continue;
      }
      if cur.None? { continue; }
      if StartsWith(raw, "-") {
        files := Touch(State(files, cur, oldLine, oldPath, newPath), oldLine).files;
        oldLine := oldLine + 1;
      } else if StartsWith(raw, "+") {
        files := Touch(State(files, cur, oldLine, oldPath, newPath), Max(oldLine - 1, 1)).files;
      } else if StartsWith(raw, " ") {
        oldLine := oldLine + 1;
      }
    }
    assert lines[..|lines|] == lines;
  }

  lemma {:induction false} FoldConcat(st: State, a: seq<string>, b: seq<string>)
    ensures Fold(st, a + b) == Fold(Fold(st, a), b)
  {
    if b == [] {
      assert a + b == a;
    } else {
      FoldConcat(st, a, b[..|b| - 1]);
      assert (a + b)[..|a + b| - 1] == a + b[..|b| - 1];
    }
  }

  lemma {:induction false} FoldOne(st: State, line: string)
    ensures Fold(st, [line]) == Step(st, line)
  {
    assert [line][..0] == [];
  }

  // ---------- Edit scripts and their printer ----------

  /** One line of an edit script over a base file. */
  datatype Op =
    | Keep(text: string)
    | Delete(text: string)
    | Insert(text: string)
    | Note              // the marker for a missing newline at the end of the file

  /** A stretch of the base left out of the patch, or a hunk of it. */
  datatype Segment = Skip(lines: nat) | Hunk(ops: seq<Op>, section: string)

  /** The two sides of a file's change, of which at least one exists, and the lines between its
      first header and the others that say more about it: modes, similarity, the blobs' names. */
  datatype FileDiff = FileDiff(
    oldPath: Option<string>,
    newPath: Option<string>,
    extra: seq<string>,
    segments: seq<Segment>)

  /** How many lines of the base, and of the result, a script covers. */
  function OldCount(ops: seq<Op>): nat {
    if ops == [] then 0 else OldCount(Front(ops)) + if Last(ops).Keep? || Last(ops).Delete? then 1 else 0
  }

  function NewCount(ops: seq<Op>): nat {
    if ops == [] then 0 else NewCount(Front(ops)) + if Last(ops).Keep? || Last(ops).Insert? then 1 else 0
  }

  /** A segment as a script: the lines left out are kept. */
  function Script(s: Segment): seq<Op> {
    match s
    case Skip(n) => seq(n, _ => Keep(""))
    case Hunk(ops, _) => ops
  }

  /** The whole file's script. */
  function Flatten(segments: seq<Segment>): seq<Op> {
    if segments == [] then [] else Flatten(Front(segments)) + Script(Last(segments))
  }

  /** The base line the i-th operation, an edit, is put down to. */
  function LineOf(ops: seq<Op>, i: nat): int
    requires i < |ops|
  {
    if ops[i].Delete? then OldCount(ops[..i]) + 1 else Max(OldCount(ops[..i]), 1)
  }

  /** The base lines a script touches: each deleted line, and for each insertion the line it
      follows, or line 1. */
  ghost function Touched(ops: seq<Op>): set<int> {
    set i | 0 <= i < |ops| && (ops[i].Delete? || ops[i].Insert?) :: LineOf(ops, i)
  }

  function PrintOp(op: Op): string {
    match op
    case Keep(text) => " " + text
    case Delete(text) => "-" + text
    case Insert(text) => "+" + text
    case Note => "\\ No newline at end of file"
  }

  function PrintOps(ops: seq<Op>): seq<string> {
    if ops == [] then [] else PrintOps(Front(ops)) + [PrintOp(Last(ops))]
  }

  /** A range of `count` lines from `start`; an empty one is printed at the line before. */
  function PrintRange(start: nat, count: nat): string {
    if count == 0 then Decimal(PrintedStart(start, 0)) + ("," + "0")
    else if count == 1 then Decimal(start)
    else Decimal(start) + ("," + Decimal(count))
  }

  function PrintHeader(oldStart: nat, oldCount: nat, newStart: nat, newCount: nat, section: string): string {
    "@@ -" + (PrintRange(oldStart, oldCount) + (" +" + (PrintRange(newStart, newCount) + (" @@" + section))))
  }

  /** The header of a hunk that comes after the script `before`. */
  function HeaderAfter(before: seq<Op>, ops: seq<Op>, section: string): string {
    PrintHeader(OldCount(before) + 1, OldCount(ops), NewCount(before) + 1, NewCount(ops), section)
  }

  /** A segment that comes after the script `before`; what is left out prints nothing. */
  function PrintSegment(before: seq<Op>, s: Segment): seq<string> {
    match s
    case Skip(_) => []
    case Hunk(ops, section) => [HeaderAfter(before, ops, section)] + PrintOps(ops)
  }

  function PrintSegments(segments: seq<Segment>): seq<string> {
    if segments == [] then []
    else PrintSegments(Front(segments)) + PrintSegment(Flatten(Front(segments)), Last(segments))
  }

  function PrintPath(mark: string, prefix: string, path: Option<string>): string {
    mark + if path.Some? then prefix + path.value else NULL
  }

  function PrintGit(base: string, path: string): string {
    GIT + ("a/" + (base + (" b/" + path)))
  }

  /** A file with two sides, under two paths. */
  predicate Moved(d: FileDiff) {
    d.oldPath.Some? && d.newPath.Some? && d.oldPath != d.newPath
  }

  /** A moved file names both paths once more; one that is only moved prints nothing else. */
  function PrintRename(d: FileDiff): seq<string> {
    if Moved(d) then [RENAME + d.oldPath.value, "rename to " + d.newPath.value] else []
  }

  function PrintPaths(d: FileDiff): seq<string> {
    if Moved(d) && PrintSegments(d.segments) == [] then []
    else [PrintPath(OLD, "a/", d.oldPath), PrintPath(NEW, "b/", d.newPath)]
  }

  function PrintHeaders(d: FileDiff): seq<string>
    requires Sided(d)
  {
    [PrintGit(Key(d), if d.newPath.Some? then d.newPath.value else Key(d))] + d.extra + PrintRename(d) + PrintPaths(d)
  }

  function PrintFile(d: FileDiff): seq<string>
    requires Sided(d)
  {
    PrintHeaders(d) + PrintSegments(d.segments)
  }

  predicate Sided(d: FileDiff) {
    d.oldPath.Some? || d.newPath.Some?
  }

  /** The base path of a file, or its new path when it is added. */
  function Key(d: FileDiff): string
    requires Sided(d)
  {
    if d.oldPath.Some? then d.oldPath.value else d.newPath.value
  }

  function Kind(d: FileDiff): Status {
    if d.oldPath.None? then Added
    else if d.newPath.None? then Deleted
    else if d.newPath != d.oldPath then Renamed
    else Modified
  }

  // ---------- What can be printed ----------

  /** A path whose header line is read back: not empty, and no space at its end. */
  predicate PlainPath(p: Option<string>) {
    p.Some? ==> p.value != "" && !IsPythonSpace(p.value[|p.value| - 1])
  }

  /** No edit line that reads as a file header. */
  predicate PlainOp(op: Op) {
    && (op.Delete? ==> !StartsWith(op.text, "-- "))
    && (op.Insert? ==> !StartsWith(op.text, "++ "))
  }

  predicate Inserts(ops: seq<Op>) {
    exists op :: op in ops && op.Insert?
  }

  /** A hunk without base lines whose place does not matter: it inserts nothing, or follows at
      most one line, or the line it follows and the one before that are touched anyway. */
  ghost predicate Placed(before: seq<Op>, ops: seq<Op>) {
    !Inserts(ops) || OldCount(before) <= 1 || {OldCount(before) - 1, OldCount(before)} <= Touched(before)
  }

  /** A segment after the script `before`. */
  ghost predicate PlainSegment(before: seq<Op>, s: Segment) {
    s.Hunk? ==>
      && (forall op | op in s.ops :: PlainOp(op))
      && (OldCount(s.ops) > 0 || Placed(before, s.ops))
  }

  ghost predicate PlainSegments(segments: seq<Segment>) {
    segments != [] ==> PlainSegments(Front(segments)) && PlainSegment(Flatten(Front(segments)), Last(segments))
  }

  /** A line that the reader passes over wherever it stands. */
  predicate PassedOver(raw: string) {
    && !StartsWith(raw, GIT) && !StartsWith(raw, OLD) && !StartsWith(raw, NEW) && !StartsWith(raw, RENAME)
    && ReadHunk(raw).None?
    && !StartsWith(raw, "-") && !StartsWith(raw, "+") && !StartsWith(raw, " ")
  }

  /** A moved file's base path has no space in front either, as nothing is put before it. */
  predicate PlainMove(d: FileDiff) {
    Moved(d) && d.oldPath.value != "" ==> !IsPythonSpace(d.oldPath.value[0])
  }

  predicate PlainExtra(d: FileDiff) {
    forall raw | raw in d.extra :: PassedOver(raw)
  }

  ghost predicate Printable(d: FileDiff) {
    && Sided(d) && PlainPath(d.oldPath) && PlainPath(d.newPath) && PlainMove(d) && PlainExtra(d)
    && PlainSegments(d.segments)
  }

  // ---------- Header lines are read back ----------

  lemma {:induction false} NotPrefix(s: string, prefix: string)
    requires s != "" && prefix != "" && s[0] != prefix[0]
    ensures !StartsWith(s, prefix)
  {
    assert |prefix| <= |s| ==> s[..|prefix|][0] == s[0];
  }

  /** A prefix of two texts that start with the same character. */
  lemma {:induction false} AfterFirst(c: char, text: string, prefix: string)
    requires StartsWith([c] + text, [c] + prefix)
    ensures StartsWith(text, prefix)
  {
    var n := |prefix|;
    assert text[..n] == ([c] + text)[..n + 1][1..] == ([c] + prefix)[1..];
  }

  lemma {:induction false} BareRange(digits: string, tail: string)
    requires digits != [] && (forall c | c in digits :: IsDigit(c)) && tail != [] && tail[0] == ' '
    ensures ReadRange(digits + tail) == Some((Value(digits), tail))
  {
    DigitRunOf(digits, tail);
    NotPrefix(tail, ",");
    var s := digits + tail;
    assert s[..|digits|] == digits && s[|digits|..] == tail;
  }

  lemma {:induction false} CountedRange(digits: string, count: string, tail: string)
    requires digits != [] && (forall c | c in digits :: IsDigit(c))
    requires count != [] && (forall c | c in count :: IsDigit(c)) && tail != [] && tail[0] == ' '
    ensures ReadRange(digits + ("," + (count + tail))) == Some((Value(digits), tail))
  {
    var rest := "," + (count + tail);
    var s := digits + rest;
    DigitRunOf(digits, rest);
    assert s[..|digits|] == digits && s[|digits|..] == rest;
    assert rest[1..] == count + tail;
    DigitRunOf(count, tail);
    assert rest[1 + |count|..] == tail;
  }

  /** The line number a printed range starts with. */
  function PrintedStart(start: nat, count: nat): nat {
    if count == 0 && start > 0 then start - 1 else start
  }

  lemma {:induction false} RangeReadsBack(start: nat, count: nat, tail: string)
    requires tail != [] && tail[0] == ' '
    ensures ReadRange(PrintRange(start, count) + tail) == Some((PrintedStart(start, count), tail))
  {
    if count == 1 {
      DecimalValue(start);
      BareRange(Decimal(start), tail);
    } else if count == 0 {
      CountedRangeReadsBack(PrintedStart(start, 0), "0", tail);
    } else {
      CountedRangeReadsBack(start, Decimal(count), tail);
    }
  }

  lemma {:induction false} CountedRangeReadsBack(line: nat, count: string, tail: string)
    requires count != [] && (forall c | c in count :: IsDigit(c)) && tail != [] && tail[0] == ' '
    ensures ReadRange(Decimal(line) + ("," + count) + tail) == Some((line, tail))
  {
    DecimalValue(line);
    CountedRange(Decimal(line), count, tail);
    Assoc(Decimal(line), "," + count, tail);
    Assoc(",", count, tail);
  }

  lemma {:induction false} HeaderReadsBack(l1: nat, c1: nat, l2: nat, c2: nat, section: string)
    ensures PrintHeader(l1, c1, l2, c2, section) != "" && PrintHeader(l1, c1, l2, c2, section)[0] == '@'
    ensures ReadHunk(PrintHeader(l1, c1, l2, c2, section)) == Some(PrintedStart(l1, c1))
  {
    var first, second := PrintRange(l1, c1), PrintRange(l2, c2);
    var tail := " @@" + section;
    var rest := " +" + (second + tail);
    RangeReadsBack(l1, c1, rest);
    RangeReadsBack(l2, c2, tail);
    HunkParts(first + rest, rest, second + tail, tail, PrintedStart(l1, c1));
  }

  /** Reading a printed hunk header sets the line count. */
  lemma {:induction false} HeaderSteps(st: State, l1: nat, c1: nat, l2: nat, c2: nat, section: string)
    ensures Step(st, PrintHeader(l1, c1, l2, c2, section)) == st.(oldLine := PrintedStart(l1, c1))
  {
    HeaderReadsBack(l1, c1, l2, c2, section);
    HunkLine(st, PrintHeader(l1, c1, l2, c2, section), PrintedStart(l1, c1));
  }

  /** A line known to be a hunk header. */
  lemma {:induction false} HunkLine(st: State, raw: string, line: nat)
    requires raw != "" && raw[0] == '@' && ReadHunk(raw) == Some(line)
    ensures Step(st, raw) == st.(oldLine := line)
  {
    NotPrefix(raw, GIT);
    NotPrefix(raw, OLD);
    NotPrefix(raw, NEW);
    NotPrefix(raw, RENAME);
  }

  lemma {:induction false} HunkParts(s: string, rest: string, t: string, tail: string, line: nat)
    requires ReadRange(s) == Some((line, rest)) && rest == " +" + t
    requires ReadRange(t).Some? && ReadRange(t).value.1 == tail && StartsWith(tail, " @@")
    ensures ReadHunk("@@ -" + s) == Some(line)
  {
    var raw := "@@ -" + s;
    assert raw[..4] == "@@ -" && raw[4..] == s;
    assert rest[..2] == " +" && rest[2..] == t;
  }

  lemma {:induction false} StripIdle(s: string)
    requires s != "" ==> !IsPythonSpace(s[0]) && !IsPythonSpace(s[|s| - 1])
    ensures Strip(s, IsPythonSpace) == s
  {
  }

  lemma {:induction false} PathReadsBack(mark: string, prefix: string, path: Option<string>)
    requires |mark| == 4 && (prefix == "a/" || prefix == "b/") && PlainPath(path)
    ensures ReadPath(PrintPath(mark, prefix, path), prefix) == path
  {
    var raw := PrintPath(mark, prefix, path);
    if path.Some? {
      var p := prefix + path.value;
      assert raw[4..] == p && p[|p| - 1] == path.value[|path.value| - 1];
      StripIdle(p);
      assert p[0] != NULL[0];
      assert p[..2] == prefix && p[2..] == path.value;
    } else {
      assert raw[4..] == NULL;
      StripIdle(NULL);
    }
  }

  // ---------- A file ----------

  /** The state once a file's headers are read. */
  function Opened(st: State, d: FileDiff): State
    requires Sided(d)
  {
    SetDefault(State(st.files, None, st.oldLine, d.oldPath, d.newPath), Key(d), Kind(d))
  }

  lemma {:induction false} FoldTwo(st: State, a: string, b: string)
    ensures Fold(st, [a, b]) == Step(Step(st, a), b)
  {
    FoldOne(st, a);
    FoldOne(Step(st, a), b);
    FoldConcat(st, [a], [b]);
    assert [a] + [b] == [a, b];
  }

  lemma {:induction false} FoldIdle(st: State, lines: seq<string>)
    requires forall raw | raw in lines :: Step(st, raw) == st
    ensures Fold(st, lines) == st
  {
    if lines != [] {
      assert Last(lines) in lines && forall raw | raw in Front(lines) :: raw in lines;
      FoldIdle(st, Front(lines));
    }
  }

  /** The lines that say more about a file change nothing. */
  lemma {:induction false} ExtraIsIdle(st: State, lines: seq<string>)
    requires forall raw | raw in lines :: PassedOver(raw)
    ensures Fold(st, lines) == st
  {
    FoldIdle(st, lines);
  }

  lemma {:induction false} PathsFold(st: State, d: FileDiff)
    requires Sided(d) && PlainPath(d.oldPath) && PlainPath(d.newPath)
    ensures Fold(st, [PrintPath(OLD, "a/", d.oldPath), PrintPath(NEW, "b/", d.newPath)])
         == OpenFile(st.(oldPath := d.oldPath, newPath := d.newPath))
  {
    var o, n := PrintPath(OLD, "a/", d.oldPath), PrintPath(NEW, "b/", d.newPath);
    PathReadsBack(OLD, "a/", d.oldPath);
    PathReadsBack(NEW, "b/", d.newPath);
    FoldTwo(st, o, n);
    HeaderLine(OLD, o);
    HeaderLine(NEW, n);
  }

  /** A `rename from` line takes its file up under the base path exactly when that path has no
      space at its ends; otherwise it takes up the file the stripped path names. */
  lemma {:induction false} RenameReadsIff(st: State, path: string)
    requires path != ""
    ensures Step(st, RENAME + path) == SetDefault(st, Strip(path, IsPythonSpace), Renamed)
    ensures Strip(path, IsPythonSpace) == path <==> !IsPythonSpace(path[0]) && !IsPythonSpace(path[|path| - 1])
  {
    var raw := RENAME + path;
    assert raw[..|RENAME|] == RENAME && raw[|RENAME|..] == path && raw[0] == 'r';
    NotPrefix(raw, GIT);
    NotPrefix(raw, OLD);
    NotPrefix(raw, NEW);
    if IsPythonSpace(path[0]) {
      StripShorter(path[1..]);
    } else if IsPythonSpace(path[|path| - 1]) {
      StripShorter(path[..|path| - 1]);
    }
  }

  lemma {:induction false} StripShorter(s: string)
    ensures |Strip(s, IsPythonSpace)| <= |s|
    decreases |s|
  {
    if s != [] && IsPythonSpace(s[0]) {
      StripShorter(s[1..]);
    } else if s != [] && IsPythonSpace(s[|s| - 1]) {
      StripShorter(s[..|s| - 1]);
    }
  }

  lemma {:induction false} RenameToIsIdle(path: string)
    ensures PassedOver("rename to " + path)
  {
    var raw := "rename to " + path;
    assert raw[0] == 'r' && raw[7] == 't' && RENAME[7] == 'f';
    NotPrefix(raw, GIT);
    NotPrefix(raw, OLD);
    NotPrefix(raw, NEW);
    NotPrefix(raw, "@@ -");
    NotPrefix(raw, "-");
    NotPrefix(raw, "+");
    NotPrefix(raw, " ");
    assert |RENAME| <= |raw| ==> raw[..|RENAME|][7] == raw[7];
  }

  lemma {:induction false} RenameFolds(st: State, d: FileDiff)
    requires Moved(d) && PlainPath(d.oldPath) && PlainMove(d)
    ensures Fold(st, PrintRename(d)) == SetDefault(st, d.oldPath.value, Renamed)
  {
    var base := d.oldPath.value;
    RenameReadsIff(st, base);
    RenameToIsIdle(d.newPath.value);
    FoldTwo(st, RENAME + base, "rename to " + d.newPath.value);
  }

  lemma {:induction false} HeaderLine(mark: string, raw: string)
    requires (mark == OLD || mark == NEW) && StartsWith(raw, mark)
    ensures !StartsWith(raw, GIT) && (mark == NEW ==> !StartsWith(raw, OLD))
  {
    assert raw[0] == mark[0];
    assert GIT[0] == 'd';
  }

  /** Reading one printed line of a hunk. */
  lemma {:induction false} OpLine(st: State, op: Op)
    requires st.cur.Some? && PlainOp(op)
    ensures Step(st, PrintOp(op)) == (match op
                                      case Keep(_) => st.(oldLine := st.oldLine + 1)
                                      case Delete(_) => Touch(st, st.oldLine).(oldLine := st.oldLine + 1)
                                      case Insert(_) => Touch(st, Max(st.oldLine - 1, 1))
                                      case Note => st)
  {
    var raw := PrintOp(op);
    NotPrefix(raw, GIT);
    NotPrefix(raw, RENAME);
    NotPrefix(raw, "@@ -");
    if !op.Delete? {
      NotPrefix(raw, OLD);
    }
    if !op.Insert? {
      NotPrefix(raw, NEW);
    }
    if StartsWith(raw, OLD) {
      AfterFirst('-', op.text, "-- ");
    }
    if StartsWith(raw, NEW) {
      AfterFirst('+', op.text, "++ ");
    }
  }

  /** What touching lines does to the files read so far. */
  function AddLines(files: map<string, FileChange>, key: string, lines: set<int>): map<string, FileChange>
    requires key in files
  {
    files[key := files[key].(oldLines := files[key].oldLines + lines)]
  }

  lemma {:induction false} TouchedAppend(ops: seq<Op>, op: Op)
    ensures Touched(ops + [op]) == Touched(ops) + (match op
                                                   case Delete(_) => {OldCount(ops) + 1}
                                                   case Insert(_) => {Max(OldCount(ops), 1)}
                                                   case _ => {})
  {
    var all := ops + [op];
    forall i | 0 <= i < |ops| ensures all[i] == ops[i] && LineOf(all, i) == LineOf(ops, i) {
      assert all[..i] == ops[..i];
    }
    assert all[..|ops|] == ops && all[|ops|] == op;
    if op.Delete? || op.Insert? {
      assert LineOf(all, |ops|) in Touched(all);
    }
    forall x | x in Touched(ops) ensures x in Touched(all) {
      var i :| 0 <= i < |ops| && (ops[i].Delete? || ops[i].Insert?) && LineOf(ops, i) == x;
      assert all[i] == ops[i] && LineOf(all, i) == x;
    }
    forall x | x in Touched(all) ensures x in Touched(ops) || ((op.Delete? || op.Insert?) && x == LineOf(all, |ops|)) {
      var i :| 0 <= i < |all| && (all[i].Delete? || all[i].Insert?) && LineOf(all, i) == x;
      if i < |ops| {
        assert LineOf(ops, i) in Touched(ops);
      }
    }
  }

  lemma {:induction false} OldCountConcat(a: seq<Op>, b: seq<Op>)
    ensures OldCount(a + b) == OldCount(a) + OldCount(b)
  {
    if b == [] {
      assert a + b == a;
    } else {
      OldCountConcat(a, Front(b));
      assert Front(a + b) == a + Front(b);
    }
  }

  /** Touching more lines after some. */
  lemma {:induction false} AddTwice(files: map<string, FileChange>, key: string, lines: set<int>, more: set<int>)
    requires key in files
    ensures AddLines(AddLines(files, key, lines), key, more) == AddLines(files, key, lines + more)
  {
    assert files[key].oldLines + lines + more == files[key].oldLines + (lines + more);
  }

  lemma {:induction false} AddNone(files: map<string, FileChange>, key: string)
    requires key in files
    ensures AddLines(files, key, {}) == files
  {
    assert files[key].oldLines + {} == files[key].oldLines;
  }

  /** Touching a line of the current file. */
  lemma {:induction false} TouchAdds(st: State, key: string, files: map<string, FileChange>, lines: set<int>, line: int)
    requires st.cur == Some(key) && key in files && st.files == AddLines(files, key, lines)
    ensures Touch(st, line) == st.(files := AddLines(files, key, lines + {line}))
  {
    AddTwice(files, key, lines, {line});
  }

  /** Reading one more line of a hunk, from the right place. */
  lemma {:induction false} OpAdds(st: State, key: string, files: map<string, FileChange>, done: seq<Op>, op: Op)
    requires st.cur == Some(key) && key in files && st.files == AddLines(files, key, Touched(done))
    requires st.oldLine == OldCount(done) + 1 && PlainOp(op)
    ensures Step(st, PrintOp(op))
         == st.(oldLine := OldCount(done + [op]) + 1, files := AddLines(files, key, Touched(done + [op])))
  {
    OpLine(st, op);
    TouchedAppend(done, op);
    assert Front(done + [op]) == done;
    if op.Delete? {
      TouchAdds(st, key, files, Touched(done), OldCount(done) + 1);
    } else if op.Insert? {
      TouchAdds(st, key, files, Touched(done), Max(OldCount(done), 1));
    } else {
      assert Touched(done) + {} == Touched(done);
    }
  }

  /** A hunk's lines, read from the right place, add what the script touches there. */
  lemma {:induction false} OpsAdd(st: State, key: string, files: map<string, FileChange>, before: seq<Op>, ops: seq<Op>)
    requires st.cur == Some(key) && key in files && st.files == AddLines(files, key, Touched(before))
    requires st.oldLine == OldCount(before) + 1 && forall op | op in ops :: PlainOp(op)
    ensures Fold(st, PrintOps(ops))
         == st.(oldLine := OldCount(before + ops) + 1, files := AddLines(files, key, Touched(before + ops)))
  {
    if ops == [] {
      assert before + ops == before;
    } else {
      var most, op := Front(ops), Last(ops);
      OpsAdd(st, key, files, before, most);
      assert before + ops == before + most + [op];
      assert Front(PrintOps(ops)) == PrintOps(most);
      OpAdds(Fold(st, PrintOps(most)), key, files, before + most, op);
    }
  }

  // ---------- Hunks without base lines ----------

  /** The lines insertions after a line are put down to. */
  function Put(any: bool, line: int): set<int> {
    if any then {Max(line, 1)} else {}
  }

  /** No line of the base in the hunk. */
  predicate OnlyInserts(ops: seq<Op>) {
    forall op | op in ops :: PlainOp(op) && (op.Insert? || op.Note?)
  }

  lemma {:induction false} OnlyInsertsCountNothing(ops: seq<Op>)
    requires OnlyInserts(ops)
    ensures OldCount(ops) == 0
  {
    if ops != [] {
      OnlyInsertsCountNothing(Front(ops));
      assert Last(ops) in ops;
    }
  }

  lemma {:induction false} InsertedLines(st: State, key: string, ops: seq<Op>)
    requires st.cur == Some(key) && key in st.files && OnlyInserts(ops)
    ensures Fold(st, PrintOps(ops)) == Credited(st, key, Inserts(ops))
  {
    if ops == [] {
      AddNone(st.files, key);
    } else {
      InsertedLines(st, key, Front(ops));
      assert Front(PrintOps(ops)) == PrintOps(Front(ops));
      assert Last(ops) in ops;
      InsertsSplit(ops);
      InsertedLine(st, key, Last(ops), Inserts(Front(ops)));
    }
  }

  function Credited(st: State, key: string, any: bool): State
    requires key in st.files
  {
    st.(files := AddLines(st.files, key, Put(any, st.oldLine - 1)))
  }

  lemma {:induction false} InsertedLine(st: State, key: string, op: Op, any: bool)
    requires st.cur == Some(key) && key in st.files && PlainOp(op) && (op.Insert? || op.Note?)
    ensures Step(Credited(st, key, any), PrintOp(op)) == Credited(st, key, any || op.Insert?)
  {
    OpLine(Credited(st, key, any), op);
    var line := {Max(st.oldLine - 1, 1)};
    AddTwice(st.files, key, if any then line else {}, line);
    assert line + line == line && {} + line == line;
  }

  lemma {:induction false} InsertsSplit(ops: seq<Op>)
    requires ops != []
    ensures Inserts(ops) <==> Inserts(Front(ops)) || Last(ops).Insert?
  {
    assert Last(ops) in ops;
    forall op | op in ops && op.Insert? ensures Inserts(Front(ops)) || Last(ops).Insert? {
      var i :| 0 <= i < |ops| && ops[i] == op;
      if i < |ops| - 1 {
        assert Front(ops)[i] == op && op in Front(ops);
      }
    }
  }

  /** What the script touches in a hunk without base lines. */
  lemma {:induction false} InsertedTouch(before: seq<Op>, ops: seq<Op>)
    requires OnlyInserts(ops)
    ensures Touched(before + ops) == Touched(before) + Put(Inserts(ops), OldCount(before))
  {
    if ops == [] {
      assert before + ops == before;
    } else {
      InsertedTouch(before, Front(ops));
      assert before + ops == before + Front(ops) + [Last(ops)];
      TouchedAppend(before + Front(ops), Last(ops));
      OldCountConcat(before, Front(ops));
      OnlyInsertsCountNothing(Front(ops));
      InsertsSplit(ops);
    }
  }

  lemma {:induction false} EmptyOldSide(st: State, key: string, before: seq<Op>, ops: seq<Op>, section: string)
    requires st.cur == Some(key) && key in st.files && OnlyInserts(ops)
    ensures Fold(st, [HeaderAfter(before, ops, section)] + PrintOps(ops))
         == Credited(st.(oldLine := OldCount(before)), key, Inserts(ops))
  {
    var header := HeaderAfter(before, ops, section);
    OnlyInsertsCountNothing(ops);
    HeaderSteps(st, OldCount(before) + 1, 0, NewCount(before) + 1, NewCount(ops), section);
    FoldOne(st, header);
    FoldConcat(st, [header], PrintOps(ops));
    InsertedLines(Step(st, header), key, ops);
  }

  // ---------- Whole patches ----------

  /** Reading one more hunk. */
  lemma {:induction false} HunkAdds(st: State, key: string, files: map<string, FileChange>, before: seq<Op>,
                                    ops: seq<Op>, section: string)
    requires st.cur == Some(key) && key in files && st.files == AddLines(files, key, Touched(before))
    requires OldCount(ops) > 0 && forall op | op in ops :: PlainOp(op)
    ensures Fold(st, [HeaderAfter(before, ops, section)] + PrintOps(ops))
         == st.(oldLine := OldCount(before + ops) + 1, files := AddLines(files, key, Touched(before + ops)))
  {
    var header := HeaderAfter(before, ops, section);
    HeaderSteps(st, OldCount(before) + 1, OldCount(ops), NewCount(before) + 1, NewCount(ops), section);
    FoldOne(st, header);
    FoldConcat(st, [header], PrintOps(ops));
    OpsAdd(Step(st, header), key, files, before, ops);
  }

  /** Reading one more hunk that has no base line. */
  lemma {:induction false} InsertsAdd(st: State, key: string, files: map<string, FileChange>, before: seq<Op>,
                                      ops: seq<Op>, section: string)
    requires st.cur == Some(key) && key in files && st.files == AddLines(files, key, Touched(before))
    requires OldCount(ops) == 0 && (forall op | op in ops :: PlainOp(op)) && Placed(before, ops)
    ensures Fold(st, [HeaderAfter(before, ops, section)] + PrintOps(ops))
         == st.(oldLine := OldCount(before), files := AddLines(files, key, Touched(before + ops)))
  {
    NothingCountedOnlyInserts(ops);
    InsertsGoEarlier(st, key, files, before, ops, section);
    PlacedIff(before, ops);
  }

  lemma {:induction false} InsertsGoEarlier(st: State, key: string, files: map<string, FileChange>, before: seq<Op>,
                                            ops: seq<Op>, section: string)
    requires st.cur == Some(key) && key in files && st.files == AddLines(files, key, Touched(before))
    requires OnlyInserts(ops)
    ensures Fold(st, [HeaderAfter(before, ops, section)] + PrintOps(ops))
         == st.(oldLine := OldCount(before),
                files := AddLines(files, key, Touched(before) + Put(Inserts(ops), OldCount(before) - 1)))
  {
    EmptyOldSide(st, key, before, ops, section);
    AddTwice(files, key, Touched(before), Put(Inserts(ops), OldCount(before) - 1));
  }

  /** Putting a hunk's insertions one line too early goes unnoticed exactly when its place does
      not matter. */
  lemma {:induction false} PlacedIff(before: seq<Op>, ops: seq<Op>)
    requires OnlyInserts(ops)
    ensures Touched(before) + Put(Inserts(ops), OldCount(before) - 1) == Touched(before + ops) <==> Placed(before, ops)
  {
    InsertedTouch(before, ops);
    PutEarlierIff(Touched(before), Inserts(ops), OldCount(before));
  }

  lemma {:induction false} PutEarlierIff(lines: set<int>, any: bool, count: nat)
    ensures lines + Put(any, count - 1) == lines + Put(any, count)
       <==> !any || count <= 1 || {count - 1, count} <= lines
  {
    if any && count > 1 {
      var early, right := lines + {count - 1}, lines + {count};
      assert count - 1 in early && count in right;
      if early == right {
        assert count - 1 in lines && count in lines;
      }
    }
  }

  lemma {:induction false} NothingCountedOnlyInserts(ops: seq<Op>)
    requires OldCount(ops) == 0 && forall op | op in ops :: PlainOp(op)
    ensures OnlyInserts(ops)
  {
    if ops != [] {
      NothingCountedOnlyInserts(Front(ops));
      forall op | op in ops ensures op in Front(ops) || op == Last(ops) {
        var i :| 0 <= i < |ops| && ops[i] == op;
        assert i < |ops| - 1 ==> Front(ops)[i] == op;
      }
    }
  }

  lemma {:induction false} SegmentAdds(st: State, key: string, files: map<string, FileChange>, before: seq<Op>,
                                       s: Segment)
    requires st.cur == Some(key) && key in files && st.files == AddLines(files, key, Touched(before))
              && PlainSegment(before, s)
    ensures var r := Fold(st, PrintSegment(before, s));
            r == st.(oldLine := r.oldLine, files := AddLines(files, key, Touched(before + Script(s))))
  {
    match s
    case Skip(n) => SkipTouches(before, n);
    case Hunk(ops, section) =>
      if OldCount(ops) > 0 {
        HunkAdds(st, key, files, before, ops, section);
      } else {
        InsertsAdd(st, key, files, before, ops, section);
      }
  }

  /** Reading a file's hunks, from wherever the line count was left. */
  lemma {:induction false} SegmentsAdd(st: State, key: string, files: map<string, FileChange>, segments: seq<Segment>)
    requires st.cur == Some(key) && key in files && st.files == files
    requires PlainSegments(segments)
    ensures var r := Fold(st, PrintSegments(segments));
            r == st.(oldLine := r.oldLine, files := AddLines(files, key, Touched(Flatten(segments))))
  {
    if segments == [] {
      assert Flatten(segments) == [] && Touched([]) == {};
      assert files[key].oldLines + {} == files[key].oldLines;
      assert AddLines(files, key, {}) == files;
    } else {
      var most, last := Front(segments), Last(segments);
      SegmentsAdd(st, key, files, most);
      FoldConcat(st, PrintSegments(most), PrintSegment(Flatten(most), last));
      SegmentAdds(Fold(st, PrintSegments(most)), key, files, Flatten(most), last);
    }
  }

  /** Lines left out touch nothing. */
  lemma {:induction false} SkipTouches(before: seq<Op>, n: nat)
    ensures Touched(before + seq(n, _ => Keep(""))) == Touched(before)
  {
    if n == 0 {
      assert before + seq(0, _ => Keep("")) == before;
    } else {
      SkipTouches(before, n - 1);
      TouchedAppend(before + seq(n - 1, _ => Keep("")), Keep(""));
      assert before + seq(n, _ => Keep("")) == before + seq(n - 1, _ => Keep("")) + [Keep("")];
    }
  }

  /** A file's change, added to what is already known: the lines join, and the first status
      stays. */
  function Merge(files: map<string, FileChange>, key: string, f: FileChange): map<string, FileChange> {
    if key in files then files[key := files[key].(oldLines := files[key].oldLines + f.oldLines)] else files[key := f]
  }

  ghost function Change(d: FileDiff): FileChange
    requires Sided(d)
  {
    FileChange(Key(d), Kind(d), Touched(Flatten(d.segments)))
  }

  /** Taking up a file and then touching its lines is merging its change. */
  lemma {:induction false} OpenedThenTouched(st: State, d: FileDiff, lines: set<int>)
    requires Sided(d)
    ensures Key(d) in Opened(st, d).files && Opened(st, d).cur == Some(Key(d))
    ensures AddLines(Opened(st, d).files, Key(d), lines)
         == Merge(st.files, Key(d), FileChange(Key(d), Kind(d), lines))
  {
    assert {} + lines == lines;
  }

  /** Reading a printed file, after anything, recovers exactly its change. */
  lemma {:induction false} FileReadsBack(st: State, d: FileDiff)
    requires Printable(d)
    ensures Fold(st, PrintFile(d)).files == Merge(st.files, Key(d), Change(d))
  {
    var open := Fold(st, PrintHeaders(d));
    HeadersFold(st, d);
    OpenedThenTouched(st, d, Touched(Flatten(d.segments)));
    FoldConcat(st, PrintHeaders(d), PrintSegments(d.segments));
    SegmentsAdd(open, Key(d), open.files, d.segments);
  }

  /** Where the reader is after a file's headers: in that file, under its base path, with the
      status of its kind.  Only for a file that prints its two paths are these the reader's own. */
  lemma {:induction false} HeadersFold(st: State, d: FileDiff)
    requires Printable(d)
    ensures var r := Fold(st, PrintHeaders(d));
            && r.files == Opened(st, d).files && r.cur == Some(Key(d)) && r.oldLine == st.oldLine
            && (PrintPaths(d) != [] ==> r == Opened(st, d))
  {
    var git := PrintGit(Key(d), if d.newPath.Some? then d.newPath.value else Key(d));
    assert StartsWith(git, GIT);
    var at := Step(st, git);
    FoldOne(st, git);
    FoldConcat(st, [git], d.extra);
    ExtraIsIdle(at, d.extra);
    FoldConcat(st, [git] + d.extra, PrintRename(d));
    FoldConcat(st, [git] + d.extra + PrintRename(d), PrintPaths(d));
    AfterGit(at, d);
  }

  lemma {:induction false} AfterGit(at: State, d: FileDiff)
    requires Printable(d) && at.cur.None?
    ensures var r := Fold(Fold(at, PrintRename(d)), PrintPaths(d));
            && r.files == Opened(at, d).files && r.cur == Some(Key(d)) && r.oldLine == at.oldLine
            && (PrintPaths(d) != [] ==> r == Opened(at, d))
  {
    if Moved(d) {
      RenameFolds(at, d);
    }
    if PrintPaths(d) != [] {
      PathsFold(Fold(at, PrintRename(d)), d);
    }
  }

  function PrintPatch(ds: seq<FileDiff>): seq<string>
    requires forall i | 0 <= i < |ds| :: Sided(ds[i])
  {
    if ds == [] then [] else PrintPatch(Front(ds)) + PrintFile(Last(ds))
  }

  ghost function Changes(files: map<string, FileChange>, ds: seq<FileDiff>): map<string, FileChange>
    requires forall i | 0 <= i < |ds| :: Sided(ds[i])
  {
    if ds == [] then files else Merge(Changes(files, Front(ds)), Key(Last(ds)), Change(Last(ds)))
  }

  ghost predicate AllPrintable(ds: seq<FileDiff>) {
    && (forall i | 0 <= i < |ds| :: Sided(ds[i]))
    && (forall i | 0 <= i < |ds| :: Printable(ds[i]))
  }

  /** Round trip: reading a printed patch recovers, per file, exactly the base lines its edit
      script deletes and those its insertions follow. */
  lemma {:induction false} PatchReadsBack(st: State, ds: seq<FileDiff>)
    requires AllPrintable(ds)
    ensures Fold(st, PrintPatch(ds)).files == Changes(st.files, ds)
  {
    if ds != [] {
      PatchReadsBack(st, Front(ds));
      FoldConcat(st, PrintPatch(Front(ds)), PrintFile(Last(ds)));
      FileReadsBack(Fold(st, PrintPatch(Front(ds))), Last(ds));
    }
  }

  predicate DistinctKeys(ds: seq<FileDiff>)
    requires forall i | 0 <= i < |ds| :: Sided(ds[i])
  {
    forall i, j | 0 <= i < j < |ds| :: Key(ds[i]) != Key(ds[j])
  }

  /** Every key read is a file of the patch. */
  lemma {:induction false} KeyOfSome(ds: seq<FileDiff>, k: string) returns (i: nat)
    requires (forall i | 0 <= i < |ds| :: Sided(ds[i])) && k in Changes(map[], ds)
    ensures i < |ds| && Key(ds[i]) == k
  {
    if k == Key(Last(ds)) {
      i := |ds| - 1;
    } else {
      i := KeyOfSome(Front(ds), k);
    }
  }

  lemma {:induction false} ChangeOfOne(ds: seq<FileDiff>, i: nat)
    requires (forall i | 0 <= i < |ds| :: Sided(ds[i])) && DistinctKeys(ds) && i < |ds|
    ensures Key(ds[i]) in Changes(map[], ds) && Changes(map[], ds)[Key(ds[i])] == Change(ds[i])
  {
    if i < |ds| - 1 {
      ChangeOfOne(Front(ds), i);
    } else if Key(ds[i]) in Changes(map[], Front(ds)) {
      var j := KeyOfSome(Front(ds), Key(ds[i]));
    }
  }

  lemma {:induction false} ChangesOfEach(ds: seq<FileDiff>)
    requires (forall i | 0 <= i < |ds| :: Sided(ds[i])) && DistinctKeys(ds)
    ensures forall i | 0 <= i < |ds| :: Key(ds[i]) in Changes(map[], ds)
              && Changes(map[], ds)[Key(ds[i])] == Change(ds[i])
    ensures forall k | k in Changes(map[], ds) :: exists i :: 0 <= i < |ds| && Key(ds[i]) == k
  {
    forall i | 0 <= i < |ds|
      ensures Key(ds[i]) in Changes(map[], ds) && Changes(map[], ds)[Key(ds[i])] == Change(ds[i])
    {
      ChangeOfOne(ds, i);
    }
    forall k | k in Changes(map[], ds) ensures exists i :: 0 <= i < |ds| && Key(ds[i]) == k {
      var i := KeyOfSome(ds, k);
    }
  }

  /** In a patch that names each file once, reading gives every file its own change, and no
      other files. */
  lemma {:induction false} EachFileReadsBack(ds: seq<FileDiff>)
    requires AllPrintable(ds) && DistinctKeys(ds)
    ensures var files := Parsed(PrintPatch(ds));
            && (forall i | 0 <= i < |ds| :: Key(ds[i]) in files && files[Key(ds[i])] == Change(ds[i]))
            && forall k | k in files :: exists i :: 0 <= i < |ds| && Key(ds[i]) == k
  {
    PatchReadsBack(START, ds);
    ChangesOfEach(ds);
  }

  // ---------- What the conditions on a hunk are for ----------

  /** A hunk with an empty old side is printed one line earlier, so its insertions are put
      down to the line before the one they follow: it is read back exactly when its place
      does not matter. */
  lemma {:induction false} EmptyOldSideIsOffIff(st: State, key: string, before: seq<Op>, ops: seq<Op>, section: string)
    requires st.cur == Some(key) && key in st.files && st.files[key].oldLines == Touched(before)
    requires OnlyInserts(ops)
    ensures var r := Fold(st, [HeaderAfter(before, ops, section)] + PrintOps(ops));
            && key in r.files
            && r.files[key].oldLines == Touched(before) + Put(Inserts(ops), OldCount(before) - 1)
            && (r.files[key].oldLines == Touched(before + ops) <==> Placed(before, ops))
  {
    EmptyOldSideLines(st, key, before, ops, section);
    PlacedIff(before, ops);
  }

  lemma {:induction false} EmptyOldSideLines(st: State, key: string, before: seq<Op>, ops: seq<Op>, section: string)
    requires st.cur == Some(key) && key in st.files && OnlyInserts(ops)
    ensures var r := Fold(st, [HeaderAfter(before, ops, section)] + PrintOps(ops));
            key in r.files && r.files[key].oldLines == st.files[key].oldLines + Put(Inserts(ops), OldCount(before) - 1)
  {
    EmptyOldSide(st, key, before, ops, section);
    AddedLines(st.files, key, Put(Inserts(ops), OldCount(before) - 1));
  }

  lemma {:induction false} AddedLines(files: map<string, FileChange>, key: string, lines: set<int>)
    requires key in files
    ensures key in AddLines(files, key, lines)
    ensures AddLines(files, key, lines)[key].oldLines == files[key].oldLines + lines
  {
  }

  /** A deleted line is counted and passed over exactly when it does not start with two dashes
      and a space.  One that does is taken for a file header: it moves nothing, so every later
      line of the hunk is taken for the one before it, and it replaces the base path. */
  lemma {:induction false} DeletedLineReadsIff(st: State, text: string)
    requires st.cur.Some?
    ensures StartsWith(text, "-- ") ==>
              Step(st, PrintOp(Delete(text))) == st.(oldPath := ReadPath(PrintOp(Delete(text)), "a/"))
    ensures Step(st, PrintOp(Delete(text))) == Touch(st, st.oldLine).(oldLine := st.oldLine + 1)
       <==> !StartsWith(text, "-- ")
  {
    var raw := PrintOp(Delete(text));
    if StartsWith(text, "-- ") {
      assert raw[..4] == ['-'] + text[..3];
      NotPrefix(raw, GIT);
    } else {
      OpLine(st, Delete(text));
    }
  }

  /** An inserted line is put down to its base line exactly when it does not start with two
      pluses and a space, or that changes nothing: one that does is taken for the new path of a
      file, and opens the file that path and the base path make. */
  lemma {:induction false} InsertedLineReadsIff(st: State, text: string)
    requires st.cur.Some?
    ensures var line := Max(st.oldLine - 1, 1);
            var r := Step(st, PrintOp(Insert(text)));
            if StartsWith(text, "++ ") then
              var path := ReadPath(PrintOp(Insert(text)), "b/");
              && r == OpenFile(st.(newPath := path))
              && (r == Touch(st, line) <==> path == st.newPath && OpenFile(st) == st && Touch(st, line) == st)
            else r == Touch(st, line)
  {
    var raw := PrintOp(Insert(text));
    if StartsWith(text, "++ ") {
      assert raw[..4] == ['+'] + text[..3];
      NotPrefix(raw, GIT);
      NotPrefix(raw, OLD);
      var path := ReadPath(raw, "b/");
      var r := OpenFile(st.(newPath := path));
      if r == Touch(st, Max(st.oldLine - 1, 1)) {
        assert st.(newPath := path) == st;
        assert OpenFile(st).files.Keys == st.files.Keys;
      }
    } else {
      OpLine(st, Insert(text));
    }
  }

  /** In a file with a base such an insertion is lost; in an added file it opens a file that
      the patch does not have, to which the rest of the hunk is then put down. */
  lemma {:induction false} PlusesOpenAFile(st: State, text: string)
    requires st.cur.Some? && st.cur.value in st.files && StartsWith(text, "++ ")
    ensures var r := Step(st, PrintOp(Insert(text)));
            var path := ReadPath(PrintOp(Insert(text)), "b/");
            && (st.oldPath == st.cur && Present(st.oldPath) ==> r == st.(newPath := path))
            && (st.oldPath.None? && Present(path) && path.value !in st.files ==>
                  r.cur == path && r.files == st.files[path.value := FileChange(path.value, Added, {})])
  {
    InsertedLineReadsIff(st, text);
  }

  /** And after a deleted line that starts with dashes, it opens a file that the deleted line
      names, whatever file is being read. */
  lemma {:induction false} DashesThenPlusesOpenAFile(st: State, dashes: string, pluses: string)
    requires st.cur.Some? && StartsWith(dashes, "-- ") && StartsWith(pluses, "++ ")
    ensures var path := ReadPath(PrintOp(Delete(dashes)), "a/");
            var r := Step(Step(st, PrintOp(Delete(dashes))), PrintOp(Insert(pluses)));
            Present(path) && path.value !in st.files ==>
              r.cur == path && r.files.Keys == st.files.Keys + {path.value} && r.files[path.value].oldLines == {}
  {
    DeletedLineReadsIff(st, dashes);
    InsertedLineReadsIff(Step(st, PrintOp(Delete(dashes))), pluses);
  }

  // ---------- Files that are only moved ----------

  /** A file that is moved and not changed has no paths and no hunks: its `rename from` line is all
      that says so, and it is read as renamed under its base path, with no line touched. */
  lemma {:induction false} PureMoveReadsBack(st: State, base: string, path: string, extra: seq<string>)
    requires base != "" && !IsPythonSpace(base[0]) && !IsPythonSpace(base[|base| - 1]) && base != path
    requires PlainPath(Some(path)) && forall raw | raw in extra :: PassedOver(raw)
    ensures var lines := [PrintGit(base, path)] + extra + [RENAME + base, "rename to " + path];
            Fold(st, lines).files == Merge(st.files, base, FileChange(base, Renamed, {}))
  {
    var d := FileDiff(Some(base), Some(path), extra, []);
    FileReadsBack(st, d);
    assert Touched([]) == {};
    assert PrintHeaders(d) == [PrintGit(base, path)] + extra + [RENAME + base, "rename to " + path] + [];
    assert PrintFile(d) == [PrintGit(base, path)] + extra + [RENAME + base, "rename to " + path];
  }

  // ---------- The first header ----------

  lemma {:induction false} SplitAtFirst(s: string, i: nat, k: nat)
    requires i <= k < |s| && k >= 1 && StartsWith(s[k..], " b/") && k + 3 < |s|
    requires forall j | i <= j < k && j >= 1 :: !(StartsWith(s[j..], " b/") && j + 3 < |s|)
    ensures SplitAt(s, i) == k
    decreases k - i
  {
    if i < k {
      SplitAtFirst(s, i + 1, k);
    }
  }

  lemma {:induction false} SplitAtEarlier(s: string, i: nat, j: nat)
    requires i <= j < |s| && j >= 1 && StartsWith(s[j..], " b/") && j + 3 < |s|
    ensures SplitAt(s, i) <= j
    decreases j - i
  {
    if i < j {
      SplitAtEarlier(s, i + 1, j);
    }
  }

  /** The two paths of a file's first header come back exactly when ` b/` is not in between them any
      earlier. */
  lemma {:induction false} GitReadsBackIff(base: string, path: string)
    requires base != "" && path != ""
    ensures var body := base + (" b/" + path);
            && (ReadGit(PrintGit(base, path)) == (Some(base), Some(path))
                <==> forall j | 1 <= j < |base| :: !StartsWith(body[j..], " b/"))
  {
    var body := base + (" b/" + path);
    var raw := PrintGit(base, path);
    assert raw == GIT + "a/" + body && raw[..|GIT| + 2] == GIT + "a/" && raw[|GIT| + 2..] == body;
    assert body[|base|..] == " b/" + path && (" b/" + path)[..3] == " b/";
    assert body[..|base|] == base && body[|base| + 3..] == path;
    if j :| 1 <= j < |base| && StartsWith(body[j..], " b/") {
      SplitAtEarlier(body, 0, j);
    } else {
      SplitAtFirst(body, 0, |base|);
    }
  }

  // ---------- Headers that no printer here prints ----------

  /** The two path lines alone, without a first header, open the file they name, with the status of
      its kind: renamed where the two sides differ. */
  lemma {:induction false} PathsAloneOpen(st: State, d: FileDiff)
    requires Sided(d) && PlainPath(d.oldPath) && PlainPath(d.newPath)
    ensures var r := Fold(st, [PrintPath(OLD, "a/", d.oldPath), PrintPath(NEW, "b/", d.newPath)]);
            && r.cur == Some(Key(d))
            && r.files == Merge(st.files, Key(d), FileChange(Key(d), Kind(d), {}))
  {
    PathsFold(st, d);
    if Key(d) in st.files {
      assert st.files[Key(d)].oldLines + {} == st.files[Key(d)].oldLines;
    }
  }

  /** A path line whose path is blank opens nothing. */
  lemma {:induction false} BlankPathOpensNothing(st: State)
    requires st.oldPath.None? || st.oldPath == Some("")
    ensures Step(st, NEW) == st.(newPath := Some(""))
  {
    HeaderLine(NEW, NEW);
    assert NEW[4..] == "";
  }

  /** A path comes back also without its side's prefix. */
  lemma {:induction false} BarePathReads(mark: string, prefix: string, path: string)
    requires |mark| == 4 && path != "" && path != NULL && !StartsWith(path, prefix)
    requires !IsPythonSpace(path[0]) && !IsPythonSpace(path[|path| - 1])
    ensures ReadPath(mark + path, prefix) == Some(path)
  {
    assert (mark + path)[4..] == path;
    StripIdle(path);
  }

  predicate AllDigits(s: string) {
    s != "" && forall c | c in s :: IsDigit(c)
  }

  /** A line number, with or without a count. */
  ghost predicate IsRange(s: string, line: nat) {
    || (AllDigits(s) && Value(s) == line)
    || exists digits, count ::
         AllDigits(digits) && AllDigits(count) && s == digits + ("," + count) && Value(digits) == line
  }

  lemma {:induction false} DigitRunIsDigits(s: string)
    requires DigitRun(s) > 0
    ensures AllDigits(s[..DigitRun(s)])
  {
  }

  lemma {:induction false} RangeMeans(s: string) returns (range: string)
    requires ReadRange(s).Some?
    ensures s == range + ReadRange(s).value.1 && IsRange(range, ReadRange(s).value.0)
  {
    var n := DigitRun(s);
    DigitRunIsDigits(s);
    var digits, rest := s[..n], s[n..];
    if StartsWith(rest, ",") && DigitRun(rest[1..]) > 0 {
      range := CountedMeans(digits, rest);
    } else {
      range := digits;
      assert s == range + rest;
    }
    assert s == digits + rest;
  }

  lemma {:induction false} CountedMeans(digits: string, rest: string) returns (range: string)
    requires AllDigits(digits) && StartsWith(rest, ",") && DigitRun(rest[1..]) > 0
    ensures IsRange(range, Value(digits)) && digits + rest == range + rest[1 + DigitRun(rest[1..])..]
  {
    var more := DigitRun(rest[1..]);
    DigitRunIsDigits(rest[1..]);
    var count := rest[1..][..more];
    range := digits + ("," + count);
    assert rest == "," + count + rest[1 + more..];
    Assoc(digits, "," + count, rest[1 + more..]);
  }

  lemma {:induction false} RangeReads(range: string, line: nat, tail: string)
    requires IsRange(range, line) && tail != "" && tail[0] == ' '
    ensures ReadRange(range + tail) == Some((line, tail))
  {
    if AllDigits(range) && Value(range) == line {
      BareRange(range, tail);
    } else {
      var digits, count :| AllDigits(digits) && AllDigits(count) && range == digits + ("," + count)
                           && Value(digits) == line;
      CountedRange(digits, count, tail);
      Assoc(digits, "," + count, tail);
      Assoc(",", count, tail);
    }
  }

  /** The parts of a hunk header. */
  ghost predicate IsHunkHeader(raw: string, line: nat) {
    exists left, right, other: nat, section ::
      IsRange(left, line) && IsRange(right, other) && raw == "@@ -" + (left + (" +" + (right + (" @@" + section))))
  }

  /** A line is taken for a hunk header exactly when it is two at signs, a range for each side, two more
      and anything; what it gives is the first range's line. */
  lemma {:induction false} ReadHunkIff(raw: string, line: nat)
    ensures ReadHunk(raw) == Some(line) <==> IsHunkHeader(raw, line)
  {
    if ReadHunk(raw) == Some(line) {
      HunkMeans(raw, line);
    }
    if IsHunkHeader(raw, line) {
      var left, right, other: nat, section :|
        IsRange(left, line) && IsRange(right, other) && raw == "@@ -" + (left + (" +" + (right + (" @@" + section))));
      var tail := " @@" + section;
      RangeReads(left, line, " +" + (right + tail));
      RangeReads(right, other, tail);
      HunkParts(left + (" +" + (right + tail)), " +" + (right + tail), right + tail, tail, line);
    }
  }

  lemma {:induction false} HunkMeans(raw: string, line: nat)
    requires ReadHunk(raw) == Some(line)
    ensures IsHunkHeader(raw, line)
  {
    var s := raw[4..];
    var left := RangeMeans(s);
    var rest := ReadRange(s).value.1;
    var t := rest[2..];
    var right := RangeMeans(t);
    var tail := ReadRange(t).value.1;
    var section := tail[3..];
    assert tail == " @@" + section && rest == " +" + t && raw == "@@ -" + s;
    assert raw == "@@ -" + (left + (" +" + (right + (" @@" + section))));
  }
}

/** Patches read one after another: how the source patch and the test patch of a case are joined
    into one text, and that reading the text is reading both. */
module Patches {
  import opened Common
  import opened Text
  import opened TextLines
  import opened Diffs

  // ---------- Patches one after another ----------

  /** Two readings joined: the lines of a path in both come together, under the first status. */
  function Union(a: map<string, FileChange>, b: map<string, FileChange>): map<string, FileChange> {
    map k | k in a.Keys + b.Keys ::
      if k !in b then a[k]
      else if k !in a then b[k]
      else a[k].(oldLines := a[k].oldLines + b[k].oldLines)
  }

  predicate IsHeader(raw: string) {
    StartsWith(raw, GIT) || StartsWith(raw, OLD) || StartsWith(raw, NEW) || StartsWith(raw, RENAME)
  }

  predicate IsHunkLine(raw: string) {
    !IsHeader(raw) && ReadHunk(raw).Some?
  }

  predicate IsEditLine(raw: string) {
    StartsWith(raw, "-") || StartsWith(raw, "+") || StartsWith(raw, " ")
  }

  /** Which parts of the reader's state a patch has set for itself. */
  datatype Own = Own(cur: bool, line: bool, base: bool, path: bool)

  /** Whether a file's two paths name one to read. */
  predicate Opens(st: State) {
    Present(st.oldPath) || (st.oldPath.None? && Present(st.newPath))
  }

  function OwnNext(own: Own, st: State, raw: string): Own {
    if StartsWith(raw, GIT) then Own(true, own.line, true, true)
    else if StartsWith(raw, OLD) then own.(base := true)
    else if StartsWith(raw, NEW) then
      own.(path := true, cur := own.cur || Opens(st.(newPath := ReadPath(raw, "b/"))))
    else if StartsWith(raw, RENAME) then own.(cur := true)
    else if ReadHunk(raw).Some? then own.(line := true)
    else own
  }

  /** Reading the line depends on nothing that the patch has not said itself. */
  predicate Ready(own: Own, st: State, raw: string) {
    if StartsWith(raw, GIT) || StartsWith(raw, OLD) then true
    else if StartsWith(raw, NEW) then own.base
    else if StartsWith(raw, RENAME) || ReadHunk(raw).Some? then true
    else IsEditLine(raw) ==> own.cur && (st.cur.Some? ==> own.line)
  }

  function OwnOf(lines: seq<string>): Own {
    if lines == [] then Own(false, false, false, false)
    else OwnNext(OwnOf(Front(lines)), Fold(START, Front(lines)), Last(lines))
  }

  /** A patch that says for itself which file and line its edits are about, be it with a
      `diff --git` line, with `---` and `+++` lines alone, or with a rename. */
  predicate Anchored(lines: seq<string>) {
    lines != [] ==>
      Anchored(Front(lines)) && Ready(OwnOf(Front(lines)), Fold(START, Front(lines)), Last(lines))
  }

  /** Reading goes on the same way over the files already known, as far as the patch has said. */
  predicate Alike(files: map<string, FileChange>, alone: State, after: State, own: Own) {
    && after.files == Union(files, alone.files)
    && (own.cur ==> after.cur == alone.cur) && (own.line ==> after.oldLine == alone.oldLine)
    && (own.base ==> after.oldPath == alone.oldPath) && (own.path ==> after.newPath == alone.newPath)
    && (alone.cur.Some? ==> alone.cur.value in alone.files)
  }

  lemma {:induction false} TouchAlike(files: map<string, FileChange>, alone: State, after: State, line: int, own: Own)
    requires Alike(files, alone, after, own) && own.cur
    ensures Alike(files, Touch(alone, line), Touch(after, line), own)
  {
    if alone.cur.Some? {
      var k := alone.cur.value;
      var x, y := Touch(alone, line).files, Touch(after, line).files;
      if k in files {
        Joined(files[k].oldLines, alone.files[k].oldLines, line);
      }
      assert y.Keys == Union(files, x).Keys;
      assert forall j | j in y :: y[j] == Union(files, x)[j];
      assert y == Union(files, x);
    }
  }

  lemma {:induction false} Joined(a: set<int>, b: set<int>, line: int)
    ensures a + b + {line} == a + (b + {line})
  {
  }

  lemma {:induction false} SetDefaultAlike(files: map<string, FileChange>, alone: State, after: State,
                                           path: string, status: Status, own: Own)
    requires Alike(files, alone, after, own)
    ensures Alike(files, SetDefault(alone, path, status), SetDefault(after, path, status), own.(cur := true))
  {
    var x, y := SetDefault(alone, path, status).files, SetDefault(after, path, status).files;
    assert path in files ==> files[path].oldLines + {} == files[path].oldLines;
    assert y.Keys == Union(files, x).Keys;
    assert forall j | j in y :: y[j] == Union(files, x)[j];
    assert y == Union(files, x);
  }

  lemma {:induction false} OpenAlike(files: map<string, FileChange>, alone: State, after: State, own: Own)
    requires Alike(files, alone, after, own) && own.base && own.path
    ensures Alike(files, OpenFile(alone), OpenFile(after), own.(cur := own.cur || Opens(alone)))
  {
    if alone.oldPath.None? && Present(alone.newPath) {
      SetDefaultAlike(files, alone, after, alone.newPath.value, Added, own);
    } else if alone.newPath.None? && Present(alone.oldPath) {
      SetDefaultAlike(files, alone, after, alone.oldPath.value, Deleted, own);
    } else if Present(alone.oldPath) {
      SetDefaultAlike(files, alone, after, alone.oldPath.value,
                      if Present(alone.newPath) && alone.newPath != alone.oldPath then Renamed else Modified, own);
    }
  }

  lemma {:induction false} EditAlike(files: map<string, FileChange>, alone: State, after: State, raw: string, own: Own)
    requires Alike(files, alone, after, own) && !IsHeader(raw) && ReadHunk(raw).None? && Ready(own, alone, raw)
    ensures Alike(files, Step(alone, raw), Step(after, raw), own)
  {
    if alone.cur.Some? && StartsWith(raw, "-") {
      TouchAlike(files, alone, after, alone.oldLine, own);
    } else if alone.cur.Some? && StartsWith(raw, "+") {
      TouchAlike(files, alone, after, Max(alone.oldLine - 1, 1), own);
    }
  }

  lemma {:induction false} StepAlike(files: map<string, FileChange>, alone: State, after: State, raw: string, own: Own)
    requires Alike(files, alone, after, own) && Ready(own, alone, raw)
    ensures Alike(files, Step(alone, raw), Step(after, raw), OwnNext(own, alone, raw))
  {
    if StartsWith(raw, GIT) || StartsWith(raw, OLD) {
    } else if StartsWith(raw, NEW) {
      var p := ReadPath(raw, "b/");
      OpenAlike(files, alone.(newPath := p), after.(newPath := p), own.(path := true));
    } else if StartsWith(raw, RENAME) {
      SetDefaultAlike(files, alone, after, Strip(raw[|RENAME|..], IsPythonSpace), Renamed, own);
    } else if ReadHunk(raw).None? {
      EditAlike(files, alone, after, raw, own);
    }
  }

  lemma {:induction false} FoldAlike(st: State, lines: seq<string>)
    requires Anchored(lines)
    ensures Alike(st.files, Fold(START, lines), Fold(st, lines), OwnOf(lines))
  {
    if lines == [] {
      assert Union(st.files, map[]) == st.files;
    } else {
      var most := Front(lines);
      FoldAlike(st, most);
      StepAlike(st.files, Fold(START, most), Fold(st, most), Last(lines), OwnOf(most));
    }
  }

  /** A patch after any state. */
  lemma {:induction false} ReadAfter(st: State, b: seq<string>)
    requires Anchored(b)
    ensures Fold(st, b).files == Union(st.files, Parsed(b))
  {
    FoldAlike(st, b);
  }

  /** Reading one patch after another gives, path by path, the union of the two. */
  lemma {:induction false} ConcatenationIsUnion(a: seq<string>, b: seq<string>)
    requires Anchored(b)
    ensures Parsed(a + [""] + b) == Union(Parsed(a), Parsed(b))
  {
    FoldConcat(START, a, [""]);
    FoldConcat(START, a + [""], b);
    BlankIsIdle(Fold(START, a));
    ReadAfter(Fold(START, a), b);
  }

  lemma {:induction false} BlankIsIdle(st: State)
    ensures Fold(st, [""]) == st
  {
    FoldOne(st, "");
  }

  // ---------- Lines before a patch's own headers ----------

  /** A line without a header, read inside a file: what it makes of the line count, and the
      lines it touches. */
  function NextCount(line: int, raw: string): int {
    if ReadHunk(raw).Some? then ReadHunk(raw).value
    else if StartsWith(raw, "-") || StartsWith(raw, " ") then line + 1
    else line
  }

  function StrayOne(line: int, raw: string): set<int> {
    if ReadHunk(raw).Some? then {}
    else if StartsWith(raw, "-") then {line}
    else if StartsWith(raw, "+") then {Max(line - 1, 1)}
    else {}
  }

  function LineAfter(line: int, lines: seq<string>): int {
    if lines == [] then line else NextCount(LineAfter(line, Front(lines)), Last(lines))
  }

  function Stray(line: int, lines: seq<string>): set<int> {
    if lines == [] then {}
    else Stray(line, Front(lines)) + StrayOne(LineAfter(line, Front(lines)), Last(lines))
  }

  predicate NoHeaders(lines: seq<string>) {
    forall raw | raw in lines :: !IsHeader(raw)
  }

  lemma {:induction false} StrayRead(st: State, key: string, lines: seq<string>)
    requires st.cur == Some(key) && key in st.files && NoHeaders(lines)
    ensures Fold(st, lines)
         == st.(oldLine := LineAfter(st.oldLine, lines), files := AddLines(st.files, key, Stray(st.oldLine, lines)))
  {
    if lines == [] {
      AddNone(st.files, key);
    } else {
      var most, raw := Front(lines), Last(lines);
      StrayRead(st, key, most);
      assert raw in lines;
      StrayStep(st, key, Stray(st.oldLine, most), LineAfter(st.oldLine, most), raw);
    }
  }

  lemma {:induction false} StrayStep(st: State, key: string, lines: set<int>, line: int, raw: string)
    requires st.cur == Some(key) && key in st.files && !IsHeader(raw)
    ensures Step(st.(oldLine := line, files := AddLines(st.files, key, lines)), raw)
         == st.(oldLine := NextCount(line, raw), files := AddLines(st.files, key, lines + StrayOne(line, raw)))
  {
    var at := st.(oldLine := line, files := AddLines(st.files, key, lines));
    assert lines + {} == lines;
    if ReadHunk(raw).None? {
      if StartsWith(raw, "-") {
        NotPrefix(raw, "+");
        TouchAdds(at, key, st.files, lines, line);
      } else if StartsWith(raw, "+") {
        NotPrefix(raw, " ");
        TouchAdds(at, key, st.files, lines, Max(line - 1, 1));
      }
    }
  }

  /** Outside a file such lines touch nothing. */
  lemma {:induction false} StrayIdle(st: State, lines: seq<string>)
    requires st.cur.None? && NoHeaders(lines)
    ensures Fold(st, lines) == st.(oldLine := Fold(st, lines).oldLine)
  {
    if lines != [] {
      StrayIdle(st, Front(lines));
      assert Last(lines) in lines;
    }
  }

  /** The file being read is always one of those taken up. */
  lemma {:induction false} CurIsKnown(lines: seq<string>)
    ensures var st := Fold(START, lines); st.cur.Some? ==> st.cur.value in st.files
  {
    if lines != [] {
      CurIsKnown(Front(lines));
    }
  }

  function LinesOf(files: map<string, FileChange>, key: string): set<int> {
    if key in files then files[key].oldLines else {}
  }

  lemma {:induction false} UnionAddIff(a: map<string, FileChange>, b: map<string, FileChange>, key: string,
                                       lines: set<int>)
    requires key in a
    ensures Union(AddLines(a, key, lines), b) == Union(a, b) <==> lines <= a[key].oldLines + LinesOf(b, key)
  {
    var x, y := Union(AddLines(a, key, lines), b), Union(a, b);
    assert x.Keys == y.Keys;
    assert x[key].oldLines == a[key].oldLines + lines + LinesOf(b, key);
    assert y[key].oldLines == a[key].oldLines + LinesOf(b, key);
    if lines <= a[key].oldLines + LinesOf(b, key) {
      assert x[key].oldLines == y[key].oldLines;
      assert x == y;
    } else {
      assert x[key].oldLines != y[key].oldLines;
    }
  }

  /** The lines that would go to the file being read are touched by it or by the later patch. */
  predicate StrayTouchedAnyway(st: State, before: seq<string>, later: map<string, FileChange>) {
    st.cur.Some? ==>
      Stray(st.oldLine, before) <= LinesOf(st.files, st.cur.value) + LinesOf(later, st.cur.value)
  }

  /** What a later patch says before its first header goes to the file the earlier one ended
      in: the two read as their union exactly when every line that touches there is touched
      anyway. */
  lemma {:induction false} ConcatenationIsUnionIff(a: seq<string>, before: seq<string>, b: seq<string>)
    requires NoHeaders(before) && Anchored(b)
    ensures Parsed(a + [""] + (before + b)) == Union(Parsed(a), Parsed(before + b))
       <==> StrayTouchedAnyway(Fold(START, a), before, Parsed(b))
  {
    var st := Fold(START, a);
    FoldConcat(START, a, [""]);
    BlankIsIdle(st);
    FoldConcat(START, a + [""], before + b);
    FoldConcat(st, before, b);
    ReadAfter(Fold(st, before), b);
    FoldConcat(START, before, b);
    StrayIdle(START, before);
    ReadAfter(Fold(START, before), b);
    assert Union(map[], Parsed(b)) == Parsed(b);
    CurIsKnown(a);
    if st.cur.Some? {
      StrayRead(st, st.cur.value, before);
      UnionAddIff(st.files, Parsed(b), st.cur.value, Stray(st.oldLine, before));
    } else {
      StrayIdle(st, before);
    }
  }

  // ---------- Printed patches ----------

  predicate AllOwn(own: Own) {
    own.cur && own.line && own.base && own.path
  }

  /** What a patch has said for itself stays said. */
  lemma {:induction false} OwnStays(own: Own, st: State, raw: string)
    ensures var next := OwnNext(own, st, raw);
            && (own.cur ==> next.cur) && (own.line ==> next.line)
            && (own.base ==> next.base) && (own.path ==> next.path)
  {
  }

  /** Once everything is said, every line is ready to be read. */
  lemma {:induction false} AnchoredOn(lines: seq<string>, more: seq<string>)
    requires Anchored(lines) && AllOwn(OwnOf(lines))
    ensures Anchored(lines + more) && AllOwn(OwnOf(lines + more))
  {
    if more == [] {
      assert lines + more == lines;
    } else {
      AnchoredOn(lines, Front(more));
      assert Front(lines + more) == lines + Front(more) && Last(lines + more) == Last(more);
      OwnStays(OwnOf(lines + Front(more)), Fold(START, lines + Front(more)), Last(more));
    }
  }

  predicate OwnsMore(a: Own, b: Own) {
    (b.cur ==> a.cur) && (b.line ==> a.line) && (b.base ==> a.base) && (b.path ==> a.path)
  }

  lemma {:induction false} AnchoredConcat(a: seq<string>, b: seq<string>)
    requires Anchored(a) && Anchored(b)
    ensures Anchored(a + b) && OwnsMore(OwnOf(a + b), OwnOf(b))
  {
    if b == [] {
      assert a + b == a;
    } else {
      var most, last := Front(b), Last(b);
      AnchoredConcat(a, most);
      assert Front(a + b) == a + most && Last(a + b) == last;
      FoldConcat(START, a, most);
      FoldAlike(Fold(START, a), most);
      OwnsMoreNext(Fold(START, a).files, Fold(START, most), Fold(START, a + most), last, OwnOf(most), OwnOf(a + most));
    }
  }

  lemma {:induction false} OwnsMoreNext(files: map<string, FileChange>, alone: State, after: State, raw: string,
                                        own: Own, more: Own)
    requires Alike(files, alone, after, own) && OwnsMore(more, own) && Ready(own, alone, raw)
    ensures Ready(more, after, raw) && OwnsMore(OwnNext(more, after, raw), OwnNext(own, alone, raw))
  {
  }

  lemma {:induction false} SegmentsStartWithHunk(segments: seq<Segment>)
    ensures PrintSegments(segments) != [] ==> IsHunkLine(PrintSegments(segments)[0])
  {
    if segments != [] {
      var most, last := Front(segments), Last(segments);
      SegmentsStartWithHunk(most);
      if last.Hunk? {
        HeaderIsHunkLine(Flatten(most), last.ops, last.section);
      }
    }
  }

  lemma {:induction false} HeaderIsHunkLine(before: seq<Op>, ops: seq<Op>, section: string)
    ensures IsHunkLine(HeaderAfter(before, ops, section))
  {
    HeaderReadsBack(OldCount(before) + 1, OldCount(ops), NewCount(before) + 1, NewCount(ops), section);
    AtIsNoHeader(HeaderAfter(before, ops, section));
  }

  lemma {:induction false} AtIsNoHeader(raw: string)
    requires raw != "" && raw[0] == '@'
    ensures !IsHeader(raw)
  {
    NotPrefix(raw, GIT);
    NotPrefix(raw, OLD);
    NotPrefix(raw, NEW);
    NotPrefix(raw, RENAME);
  }

  /** Headers, and lines that the reader passes over, need no line count. */
  predicate IsHead(raw: string) {
    IsHeader(raw) || PassedOver(raw)
  }

  lemma {:induction false} HeadsAnchored(top: seq<string>, more: seq<string>)
    requires Anchored(top) && forall raw | raw in more :: IsHead(raw)
    requires var own := OwnOf(top); own.cur && own.base && own.path
    ensures Anchored(top + more)
    ensures var own := OwnOf(top + more); own.cur && own.base && own.path
  {
    if more == [] {
      assert top + more == top;
    } else {
      var most, raw := Front(more), Last(more);
      assert raw in more && forall x | x in most :: x in more;
      HeadsAnchored(top, most);
      assert Front(top + more) == top + most && Last(top + more) == raw;
      OwnStays(OwnOf(top + most), Fold(START, top + most), raw);
    }
  }

  lemma {:induction false} GitAnchored(git: string)
    requires StartsWith(git, GIT)
    ensures Anchored([git]) && OwnOf([git]) == Own(true, false, true, true)
  {
    assert Front([git]) == [];
  }

  lemma {:induction false} HeadersAnchored(d: FileDiff)
    requires Sided(d) && PlainExtra(d)
    ensures Anchored(PrintHeaders(d))
    ensures var own := OwnOf(PrintHeaders(d)); own.cur && own.base && own.path
  {
    var git := PrintGit(Key(d), if d.newPath.Some? then d.newPath.value else Key(d));
    GitAnchored(git);
    HeadsAnchored([git], d.extra);
    if Moved(d) {
      RenameToIsIdle(d.newPath.value);
      assert StartsWith(RENAME + d.oldPath.value, RENAME);
    }
    HeadsAnchored([git] + d.extra, PrintRename(d));
    HeadsAnchored([git] + d.extra + PrintRename(d), PrintPaths(d));
  }

  lemma {:induction false} FileIsAnchored(d: FileDiff)
    requires Sided(d) && PlainExtra(d)
    ensures Anchored(PrintFile(d))
  {
    HeadersAnchored(d);
    SegmentsStartWithHunk(d.segments);
    HunksAnchored(PrintHeaders(d), PrintSegments(d.segments));
  }

  lemma {:induction false} HunksAnchored(top: seq<string>, body: seq<string>)
    requires Anchored(top) && (body != [] ==> IsHunkLine(body[0]))
    requires var own := OwnOf(top); own.cur && own.base && own.path
    ensures Anchored(top + body)
  {
    if body == [] {
      assert top + body == top;
    } else {
      HunkThenLines(top, body[0], body[1..]);
      assert body == [body[0]] + body[1..];
    }
  }

  lemma {:induction false} HunkThenLines(top: seq<string>, header: string, rest: seq<string>)
    requires Anchored(top) && IsHunkLine(header)
    requires var own := OwnOf(top); own.cur && own.base && own.path
    ensures Anchored(top + ([header] + rest))
  {
    HunkIsOwn(top, header);
    AnchoredOn(top + [header], rest);
    Assoc(top, [header], rest);
  }

  lemma {:induction false} HunkIsOwn(top: seq<string>, header: string)
    requires Anchored(top) && IsHunkLine(header)
    requires var own := OwnOf(top); own.cur && own.base && own.path
    ensures Anchored(top + [header]) && AllOwn(OwnOf(top + [header]))
  {
    assert Front(top + [header]) == top && Last(top + [header]) == header;
  }

  /** A printed patch says for itself which file and line its edits are about. */
  lemma {:induction false} PrintedIsAnchored(ds: seq<FileDiff>)
    requires forall i | 0 <= i < |ds| :: Sided(ds[i]) && PlainExtra(ds[i])
    ensures Anchored(PrintPatch(ds))
  {
    if ds != [] {
      PrintedIsAnchored(Front(ds));
      FileIsAnchored(Last(ds));
      AnchoredConcat(PrintPatch(Front(ds)), PrintFile(Last(ds)));
    }
  }

  // ---------- The text of several patches ----------

  /** The patch texts one after another, each ended by a newline, a newline between them. */
  function JoinTexts(texts: seq<string>): string {
    if texts == [] then ""
    else if |texts| == 1 then Ended(texts[0])
    else JoinTexts(Front(texts)) + "\n" + Ended(Last(texts))
  }

  lemma {:induction false} EndedParses(st: State, text: string)
    ensures Fold(st, Lines(Ended(text))) == Fold(st, Lines(text))
  {
    EndedLines(text);
    FoldConcat(st, Lines(text), if EndsInBlank(text) then [""] else []);
    BlankIsIdle(Fold(st, Lines(text)));
  }

  function UnionAll(texts: seq<string>): map<string, FileChange> {
    if texts == [] then map[] else Union(UnionAll(Front(texts)), Parsed(Lines(Last(texts))))
  }

  /** One more text after texts that end with a newline. */
  lemma {:induction false} TextAfterText(a: string, b: string)
    requires a != "" && Last(a) == '\n'
    ensures Fold(START, Lines(a + "\n" + Ended(b))) == Fold(Fold(START, Lines(a)), Lines(b))
    ensures Fold(START, Lines(a + "\n" + Ended(b))) == Fold(START, Lines(a) + [""] + Lines(b))
  {
    LinesAfter(a + "\n", Ended(b));
    LinesAfter(a, "\n");
    assert Lines("\n") == [""];
    var before := Lines(a) + [""];
    EndedParses(Fold(START, before), b);
    FoldConcat(START, before, Lines(Ended(b)));
    FoldConcat(START, before, Lines(b));
    FoldConcat(START, Lines(a), [""]);
    BlankIsIdle(Fold(START, Lines(a)));
  }

  lemma {:induction false} OneMoreText(a: string, b: string)
    requires a != "" && Last(a) == '\n' && Anchored(Lines(b))
    ensures Parsed(Lines(a + "\n" + Ended(b))) == Union(Parsed(Lines(a)), Parsed(Lines(b)))
  {
    TextAfterText(a, b);
    ConcatenationIsUnion(Lines(a), Lines(b));
  }

  lemma {:induction false} JoinedEnds(texts: seq<string>)
    requires texts != []
    ensures JoinTexts(texts) != "" && Last(JoinTexts(texts)) == '\n'
  {
  }

  /** The patch texts of a case, joined and read, give the union of what each one says, whether
      or not a text ends with a newline. */
  lemma {:induction false} JoinedTextsParse(texts: seq<string>)
    requires forall i | 1 <= i < |texts| :: Anchored(Lines(texts[i]))
    ensures Parsed(Lines(JoinTexts(texts))) == UnionAll(texts)
  {
    if |texts| == 1 {
      EndedParses(START, texts[0]);
      assert Front(texts) == [];
      assert Union(map[], Parsed(Lines(texts[0]))) == Parsed(Lines(texts[0]));
    } else if texts != [] {
      JoinedTextsParse(Front(texts));
      JoinedEnds(Front(texts));
      OneMoreText(JoinTexts(Front(texts)), Last(texts));
    }
  }
}

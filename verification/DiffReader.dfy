/** Reading a diff of new files back: names, contents and added lines, file by file. */
module DiffReader {
  import opened Options
  import opened Text
  import opened AddPatch

  /** One file of a diff, how many lines its hunk adds, and the rest of the diff. */
  datatype Reading = Reading(file: File, added: nat, rest: string)

  const NO_FINAL := "\\ No newline at end of file\n"

  /** Four header lines that agree on the name, a hunk with that many added lines, possibly the missing-newline marker. */
  function ReadFile(s: string): Option<Reading> {
    var names := FirstLine(s);
    var mode := FirstLine(names.1);
    var source := FirstLine(mode.1);
    var target := FirstLine(source.1);
    var hunk := FirstLine(target.1);
    if mode.0 != "new file mode 100644" || source.0 != "--- /dev/null" || !("+++ b/" <= target.0) then None
    else
      var name := target.0[6..];
      if names.0 != "diff --git a/" + name + " b/" + name then None
      else if !("@@ -0,0 +1," <= hunk.0) || |hunk.0| < 14 || hunk.0[|hunk.0| - 3..] != " @@" then None
      else
        var count := Number(hunk.0[11..|hunk.0| - 3]);
        if count.None? then None
        else
          var added := Added(hunk.1, count.value);
          if added.None? then None
          else if NO_FINAL <= added.value.1 && added.value.0 != "" then
            Some(Reading(File(name, added.value.0[..|added.value.0| - 1]), count.value, added.value.1[|NO_FINAL|..]))
          else Some(Reading(File(name, added.value.0), count.value, added.value.1))
  }

  /** All files of a diff. */
  function ReadDiff(s: string): Option<seq<Reading>>
    decreases |s|
  {
    if s == "" then Some([])
    else
      var first := ReadFile(s);
      if first.None? || |first.value.rest| >= |s| then None
      else
        var others := ReadDiff(first.value.rest);
        if others.None? then None else Some([first.value] + others.value)
  }

  function AddedLines(rs: seq<Reading>): nat {
    if rs == [] then 0 else rs[0].added + AddedLines(rs[1..])
  }

  /** What follows a file's patch cannot be taken for its marker. */
  predicate NewFile(rest: string) {
    rest == "" || rest[0] == 'd'
  }

  lemma HeadersRead(rel: string, rest: string)
    requires NL !in rel
    ensures var s := Preamble(rel) + rest;
            && FirstLine(s).0 == "diff --git a/" + rel + " b/" + rel
            && FirstLine(FirstLine(s).1).0 == "new file mode 100644"
            && FirstLine(FirstLine(FirstLine(s).1).1).0 == "--- /dev/null"
            && FirstLine(FirstLine(FirstLine(FirstLine(s).1).1).1) == ("+++ b/" + rel, rest)
  {
    hide FirstLine, Preamble;
    PreambleShape(rel, rest);
    var r3 := ToLine(rel) + [NL] + rest;
    var r2 := FROM + [NL] + r3;
    FirstLineOf(NameLine(rel), MODE + [NL] + r2);
    FirstLineOf(MODE, r2);
    FirstLineOf(FROM, r3);
    FirstLineOf(ToLine(rel), rest);
    assert NameLine(rel) == "diff --git a/" + rel + " b/" + rel;
  }

  lemma HunkRead(n: nat, rest: string)
    ensures var h := FirstLine(HUNK + Decimal(n) + " @@" + [NL] + rest);
            && h.0 == "@@ -0,0 +1," + Decimal(n) + " @@" && h.1 == rest
  {
    hide FirstLine, Decimal;
    FirstLineOf(HUNK + Decimal(n) + " @@", rest);
  }

  /** The text of the hunk after its header line, with what follows. */
  function HunkBody(content: string, rest: string): string {
    Written(Plus(Split(Body(content)))) + ((if HasFinalNewline(content) then "" else NO_FINAL) + rest)
  }

  lemma PatchThen(rel: string, content: string, rest: string)
    ensures SynthesizeAddPatch(rel, content) + rest ==
            Preamble(rel) + (HUNK + Decimal(|Split(Body(content))|) + " @@" + [NL] + HunkBody(content, rest))
  {
    hide Preamble, Decimal, Split, SynthesizeAddPatch, Written, Plus;
    PatchParts(rel, content);
    assert MARKER + [NL] == NO_FINAL;
  }

  /** A patch is read back as its own name and content, whatever other files follow. */
  lemma PatchRead(rel: string, content: string, rest: string)
    requires NL !in rel && NewFile(rest)
    ensures ReadFile(SynthesizeAddPatch(rel, content) + rest) == Some(Reading(File(rel, content), Additions(content), rest))
  {
    hide Preamble, Decimal, Split, FirstLine, Added, Number, Written, SynthesizeAddPatch, Plus, Additions;
    var lines := Split(Body(content));
    PatchThen(rel, content, rest);
    HeadersRead(rel, HUNK + Decimal(|lines|) + " @@" + [NL] + HunkBody(content, rest));
    HunkRead(|lines|, HunkBody(content, rest));
    CountRead(rel, |lines|);
    WrittenBody(content);
    AddedWritten(lines, (if HasFinalNewline(content) then "" else NO_FINAL) + rest);
    HunkCountIsShare(content);
    assert (Body(content) + [NL])[..|Body(content)|] == Body(content);
    if HasFinalNewline(content) {
      assert Body(content) + [NL] == content && "" + rest == rest;
    } else {
      assert (NO_FINAL + rest)[|NO_FINAL|..] == rest;
    }
  }

  lemma CountRead(rel: string, n: nat)
    ensures var h := "@@ -0,0 +1," + Decimal(n) + " @@";
            && "@@ -0,0 +1," <= h && |h| >= 14 && h[|h| - 3..] == " @@" && Number(h[11..|h| - 3]) == Some(n)
    ensures ("+++ b/" + rel)[6..] == rel && "+++ b/" <= "+++ b/" + rel
  {
    NumberOfDecimal(n);
    var h := "@@ -0,0 +1," + Decimal(n) + " @@";
    assert h[11..|h| - 3] == Decimal(n);
  }

  lemma PatchStarts(rel: string, content: string, rest: string)
    ensures var s := SynthesizeAddPatch(rel, content) + rest;
            s != "" && NewFile(s) && |s| > |rest|
  {
  }

  lemma DiffStarts(files: seq<File>)
    ensures NewFile(Diff(files)) && (files != [] ==> Diff(files) != "")
  {
    if files != [] { PatchStarts(files[0].rel, files[0].content, Diff(files[1..])); }
  }

  ghost predicate OneLineNames(files: seq<File>) {
    forall i :: 0 <= i < |files| ==> NL !in files[i].rel
  }

  /** Reading the diff gives back the visited files, names and contents in order, and the added lines of its hunks are
    * together the count shown beside it. */
  lemma {:induction false} DiffReads(files: seq<File>)
    requires OneLineNames(files)
    ensures var rs := ReadDiff(Diff(files));
            && rs.Some? && |rs.value| == |files|
            && (forall i :: 0 <= i < |files| ==> rs.value[i].file == files[i])
            && AddedLines(rs.value) == TotalAdditions(files)
  {
    hide SynthesizeAddPatch, ReadFile, Additions;
    if files != [] {
      DiffReads(files[1..]);
      DiffStarts(files[1..]);
      PatchStarts(files[0].rel, files[0].content, Diff(files[1..]));
      PatchRead(files[0].rel, files[0].content, Diff(files[1..]));
      var rs := ReadDiff(Diff(files));
      assert rs.value[1..] == ReadDiff(Diff(files[1..])).value;
      assert File(files[0].rel, files[0].content) == files[0];
    }
  }
}

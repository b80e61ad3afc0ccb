/** Untracked files in the working-tree diff: synthesized all-add patches, and the `+N` count beside them. */
module AddPatch {
  import opened Text
  import opened Options

  const NL := '\n'

  predicate HasFinalNewline(s: string) {
    s != "" && s[|s| - 1] == NL
  }

  /** The pieces between line feeds. */
  function Split(s: string): (r: seq<string>)
    ensures |r| >= 1
  {
    if s == "" then [""]
    else if s[0] == NL then [""] + Split(s[1..])
    else
      var rest := Split(s[1..]);
      [[s[0]] + rest[0]] + rest[1..]
  }

  function Plus(ls: seq<string>): (r: seq<string>)
    ensures |r| == |ls| && forall i :: 0 <= i < |ls| ==> r[i] == "+" + ls[i]
  {
    if ls == [] then [] else ["+" + ls[0]] + Plus(ls[1..])
  }

  function Body(content: string): string {
    if HasFinalNewline(content) then content[..|content| - 1] else content
  }

  const HUNK := "@@ -0,0 +1,"
  const MARKER := "\\ No newline at end of file"
  const GIT := "diff --git "

  function Preamble(rel: string): string {
    GIT + "a/" + rel + " b/" + rel + [NL] + "new file mode 100644" + [NL] + "--- /dev/null" + [NL] + "+++ b/" + rel + [NL]
  }

  /** A git-style all-add patch for a new file. */
  function SynthesizeAddPatch(rel: string, content: string): string {
    var lines := Split(Body(content));
    Preamble(rel) + HUNK + Decimal(|lines|) + " @@" + [NL] + Join(Plus(lines), [NL]) + [NL]
    + (if HasFinalNewline(content) then "" else MARKER + [NL])
  }

  /** How many lines a file adds to `+N`. */
  function Additions(content: string): nat {
    if HasFinalNewline(content) then |Split(content)| - 1 else |Split(content)|
  }

  datatype File = File(rel: string, content: string)

  function TotalAdditions(files: seq<File>): nat {
    if files == [] then 0 else Additions(files[0].content) + TotalAdditions(files[1..])
  }

  function Diff(files: seq<File>): string {
    if files == [] then "" else SynthesizeAddPatch(files[0].rel, files[0].content) + Diff(files[1..])
  }

  method CountUntrackedAdditions(files: seq<File>) returns (additions: nat)
    ensures additions == TotalAdditions(files)
  {
    additions := 0;
    for i := 0 to |files|
      invariant additions + TotalAdditions(files[i..]) == TotalAdditions(files)
    {
      assert files[i..][1..] == files[i + 1..];
      var lines := |Split(files[i].content)|;
      additions := additions + if HasFinalNewline(files[i].content) then lines - 1 else lines;
    }
  }

  method BuildUntrackedDiff(files: seq<File>) returns (diff: string)
    ensures diff == Diff(files)
  {
    hide SynthesizeAddPatch;
    diff := "";
    for i := 0 to |files|
      invariant diff + Diff(files[i..]) == Diff(files)
    {
      assert files[i..][1..] == files[i + 1..];
      diff := diff + SynthesizeAddPatch(files[i].rel, files[i].content);
    }
    assert diff + "" == diff;
  }

  // ---- Applying a patch to an empty file ----

  /** The text up to the first line feed, and what follows it. */
  function FirstLine(s: string): (r: (string, string))
    ensures |r.1| <= |s| && (s != "" ==> |r.1| < |s|)
  {
    if s == "" then ("", "")
    else if s[0] == NL then ("", s[1..])
    else
      var r := FirstLine(s[1..]);
      ([s[0]] + r.0, r.1)
  }

  /** Reads `n` added lines: each starts with a plus sign and ends with a line feed. */
  function Added(s: string, n: nat): Option<(string, string)>
    decreases n
  {
    if n == 0 then Some(("", s))
    else if s == "" || s[0] != '+' then None
    else
      var line := FirstLine(s[1..]);
      var rest := Added(line.1, n - 1);
      if rest.None? then None else Some((line.0 + [NL] + rest.value.0, rest.value.1))
  }

  /** Applies an all-add patch to an empty file: four header lines, a hunk header with a line count, that many added
    * lines, and possibly the marker that takes the last line feed away. */
  function Apply(patch: string): Option<string> {
    var hunk := FirstLine(FirstLine(FirstLine(FirstLine(patch).1).1).1).1;
    var header := FirstLine(hunk);
    if !(HUNK <= header.0) || |header.0| < |HUNK| + 3 then None
    else
      var count := Number(header.0[|HUNK|..|header.0| - 3]);
      if count.None? then None
      else
        var added := Added(header.1, count.value);
        if added.None? then None
        else if added.value.1 == "" then Some(added.value.0)
        else if added.value.1 == MARKER + [NL] && added.value.0 != "" then Some(added.value.0[..|added.value.0| - 1])
        else None
  }

  lemma {:induction false} FirstLineOf(line: string, rest: string)
    requires NL !in line
    ensures FirstLine(line + [NL] + rest) == (line, rest)
  {
    var s := line + [NL] + rest;
    if line == "" {
      assert s[1..] == rest;
    } else {
      FirstLineOf(line[1..], rest);
      assert s[1..] == line[1..] + [NL] + rest && s[0] == line[0];
      assert [line[0]] + line[1..] == line;
    }
  }

  predicate Flat(ls: seq<string>) {
    forall i :: 0 <= i < |ls| ==> NL !in ls[i]
  }

  lemma {:induction false} SplitIsFlat(s: string)
    ensures Flat(Split(s)) && Join(Split(s), [NL]) == s
  {
    if s != "" {
      SplitIsFlat(s[1..]);
      var rest := Split(s[1..]);
      if s[0] == NL {
        assert Split(s)[1..] == rest;
      } else {
        assert Split(s)[1..] == rest[1..];
        assert s == [s[0]] + s[1..];
      }
    }
  }

  /** Every line written out with its line feed. */
  function Written(ls: seq<string>): string {
    if ls == [] then "" else ls[0] + [NL] + Written(ls[1..])
  }

  lemma {:induction false} JoinWritten(ls: seq<string>)
    requires ls != []
    ensures Join(ls, [NL]) + [NL] == Written(ls)
  {
    if |ls| > 1 {
      JoinWritten(ls[1..]);
    }
  }

  lemma {:induction false} AddedWritten(ls: seq<string>, tail: string)
    requires Flat(ls)
    ensures Added(Written(Plus(ls)) + tail, |ls|) == Some((Written(ls), tail))
  {
    if ls == [] {
      assert Written(Plus(ls)) + tail == tail;
    } else {
      var rest := Written(Plus(ls[1..])) + tail;
      var s := Written(Plus(ls)) + tail;
      assert Plus(ls)[1..] == Plus(ls[1..]);
      assert s == ("+" + ls[0] + [NL]) + rest && s[1..] == ls[0] + [NL] + rest;
      FirstLineOf(ls[0], rest);
      AddedWritten(ls[1..], tail);
    }
  }

  function NameLine(rel: string): string { GIT + "a/" + rel + " b/" + rel }

  const MODE := "new file mode 100644"
  const FROM := "--- /dev/null"

  function ToLine(rel: string): string { "+++ b/" + rel }

  lemma PreambleShape(rel: string, rest: string)
    ensures Preamble(rel) + rest == NameLine(rel) + [NL] + (MODE + [NL] + (FROM + [NL] + (ToLine(rel) + [NL] + rest)))
  {
  }

  lemma PreambleLines(rel: string, rest: string)
    requires NL !in rel
    ensures FirstLine(FirstLine(FirstLine(FirstLine(Preamble(rel) + rest).1).1).1).1 == rest
  {
    hide FirstLine, Preamble;
    PreambleShape(rel, rest);
    var r3 := ToLine(rel) + [NL] + rest;
    var r2 := FROM + [NL] + r3;
    FirstLineOf(NameLine(rel), MODE + [NL] + r2);
    FirstLineOf(MODE, r2);
    FirstLineOf(FROM, r3);
    FirstLineOf(ToLine(rel), rest);
  }

  /** The hunk of a patch: its header, the added lines, and the marker if the file has no final line feed. */
  function HunkOf(content: string): string {
    var lines := Split(Body(content));
    HUNK + Decimal(|lines|) + " @@" + [NL] + (Written(Plus(lines)) + (if HasFinalNewline(content) then "" else MARKER + [NL]))
  }

  lemma PatchParts(rel: string, content: string)
    ensures SynthesizeAddPatch(rel, content) == Preamble(rel) + HunkOf(content)
  {
    hide Preamble, Decimal, Split;
    JoinWritten(Plus(Split(Body(content))));
  }

  lemma WrittenBody(content: string)
    ensures Written(Split(Body(content))) == Body(content) + [NL] && Flat(Split(Body(content)))
  {
    SplitIsFlat(Body(content));
    JoinWritten(Split(Body(content)));
  }

  lemma HeaderReads(n: nat, rest: string)
    ensures var h := FirstLine(HUNK + Decimal(n) + " @@" + [NL] + rest);
            && HUNK <= h.0 && |h.0| >= |HUNK| + 3 && h.0[|HUNK|..|h.0| - 3] == Decimal(n) && h.1 == rest
  {
    hide FirstLine, Decimal;
    FirstLineOf(HUNK + Decimal(n) + " @@", rest);
  }

  /** Applying the synthesized patch to an empty file rebuilds the content exactly, final line feed or none. */
  lemma ApplyRebuilds(rel: string, content: string)
    requires NL !in rel
    ensures Apply(SynthesizeAddPatch(rel, content)) == Some(content)
  {
    hide Preamble, Decimal, Split, FirstLine, Added, Number, Written, SynthesizeAddPatch, Plus;
    var lines := Split(Body(content));
    var tail := if HasFinalNewline(content) then "" else MARKER + [NL];
    PatchParts(rel, content);
    PreambleLines(rel, HunkOf(content));
    HeaderReads(|lines|, Written(Plus(lines)) + tail);
    NumberOfDecimal(|lines|);
    WrittenBody(content);
    AddedWritten(lines, tail);
    assert (Body(content) + [NL])[..|Body(content)|] == Body(content);
    if HasFinalNewline(content) { assert Body(content) + [NL] == content; }
  }

  lemma {:induction false} SplitFinal(s: string)
    ensures Split(s + [NL]) == Split(s) + [""]
  {
    if s == "" {
      assert (s + [NL])[1..] == "" && Split("") == [""];
    } else {
      SplitFinal(s[1..]);
      assert (s + [NL])[1..] == s[1..] + [NL];
    }
  }

  /** The count in the hunk header is the file's share of `+N`. */
  lemma HunkCountIsShare(content: string)
    ensures |Split(Body(content))| == Additions(content)
  {
    if HasFinalNewline(content) {
      SplitFinal(Body(content));
      assert Body(content) + [NL] == content;
    }
  }

  // ---- Counting file headers ----

  /** The characters after which a multi-line pattern may start. */
  predicate Terminator(c: char) {
    c == NL || Soft(c)
  }

  /** Terminators other than the line feed, which content may hold inside a line. */
  predicate Soft(c: char) {
    c == '\r' || c == '\U{2028}' || c == '\U{2029}'
  }

  /** Occurrences of a git header at a line start of `s`, which follows `prev`. */
  function Headers(prev: char, s: string): nat
    decreases |s|
  {
    if s == "" then 0
    else (if Terminator(prev) && GIT <= s then 1 else 0) + Headers(s[0], s[1..])
  }

  /** The file count: headers at line starts of the whole diff. */
  function FileCount(diff: string): nat {
    Headers(NL, diff)
  }

  /** A content that forges a header: one inside a line, after a bare carriage return or a Unicode separator. */
  predicate ForgedAt(s: string, i: nat) {
    0 < i <= |s| && Soft(s[i - 1]) && GIT <= s[i..]
  }

  function Last(prev: char, s: string): char {
    if s == "" then prev else s[|s| - 1]
  }

  /** A text that ends a line can be counted apart from what follows. */
  lemma {:induction false} HeadersConcat(prev: char, a: string, b: string)
    requires a == "" || a[|a| - 1] == NL
    ensures Headers(prev, a + b) == Headers(prev, a) + Headers(Last(prev, a), b)
    decreases |a|
  {
    if a == "" {
      assert a + b == b;
    } else {
      assert (a + b)[1..] == a[1..] + b;
      HeadersConcat(a[0], a[1..], b);
      PrefixOfLine(a, b);
    }
  }

  lemma PrefixOfLine(a: string, b: string)
    requires a != "" && a[|a| - 1] == NL
    ensures GIT <= a + b <==> GIT <= a
  {
    if |a| < |GIT| {
      ShortLine(a, b);
      ShortLine(a, "");
      assert a + "" == a;
    } else {
      assert a[..|GIT|] == (a + b)[..|GIT|];
    }
  }

  /** A line shorter than a header holds none. */
  lemma ShortLine(a: string, b: string)
    requires a != "" && a[|a| - 1] == NL && |a| < |GIT|
    ensures !(GIT <= a + b)
  {
    if |a + b| >= |GIT| {
      assert (a + b)[..|GIT|][|a| - 1] == NL && GIT[|a| - 1] != NL;
    }
  }

  /** Forged headers of a text that follows `prev`. */
  function SoftHeaders(prev: char, s: string): nat
    decreases |s|
  {
    if s == "" then 0
    else (if Soft(prev) && GIT <= s then 1 else 0) + SoftHeaders(s[0], s[1..])
  }

  predicate Forges(s: string) {
    exists i :: 0 < i <= |s| && ForgedAt(s, i)
  }

  lemma {:induction false} SoftHeadersIff(prev: char, s: string)
    ensures SoftHeaders(prev, s) == 0 <==> !(Soft(prev) && GIT <= s) && !Forges(s)
    decreases |s|
  {
    if s != "" {
      SoftHeadersIff(s[0], s[1..]);
      if Forges(s) {
        var i :| 0 < i <= |s| && ForgedAt(s, i);
        assert s[1..][i - 1..] == s[i..];
        if i > 1 { assert ForgedAt(s[1..], i - 1); }
      }
      if Forges(s[1..]) {
        var i :| 0 < i <= |s[1..]| && ForgedAt(s[1..], i);
        assert s[1..][i..] == s[i + 1..];
        assert ForgedAt(s, i + 1);
      }
      if Soft(s[0]) && GIT <= s[1..] { assert ForgedAt(s, 1); }
    } else {
      assert !(GIT <= s);
    }
  }

  /** A header holds no line feed, so none runs over a line's end. */
  lemma LineEndsHeader(l: string, rest: string)
    ensures GIT <= l + [NL] + rest <==> GIT <= l
  {
    var s := l + [NL] + rest;
    if |l| < |GIT| {
      ShortLineEnd(l, rest);
    } else {
      assert s[..|GIT|] == l[..|GIT|];
    }
  }

  lemma ShortLineEnd(l: string, rest: string)
    requires |l| < |GIT|
    ensures !(GIT <= l + [NL] + rest)
  {
    var s := l + [NL] + rest;
    if |s| >= |GIT| {
      assert s[..|GIT|][|l|] == NL && GIT[|l|] != NL;
    }
  }

  lemma {:induction false} SoftConcat(prev: char, l: string, rest: string)
    requires NL !in l
    ensures SoftHeaders(prev, l + [NL] + rest) == SoftHeaders(prev, l) + SoftHeaders(NL, rest)
    decreases |l|
  {
    var s := l + [NL] + rest;
    LineEndsHeader(l, rest);
    if l == "" {
      assert s[1..] == rest;
    } else {
      assert s[1..] == l[1..] + [NL] + rest;
      SoftConcat(l[0], l[1..], rest);
    }
  }

  lemma SoftPrev(a: char, b: char, s: string)
    requires !Soft(a) && !Soft(b)
    ensures SoftHeaders(a, s) == SoftHeaders(b, s)
  {
  }

  /** One line: a header at its start, if it follows a line feed, and the forged ones within. */
  lemma {:induction false} LineHeaders(prev: char, l: string)
    requires NL !in l
    ensures Headers(prev, l + [NL]) == (if prev == NL && GIT <= l then 1 else 0) + SoftHeaders(prev, l)
    decreases |l|
  {
    var s := l + [NL];
    assert l + [NL] + "" == s;
    LineEndsHeader(l, "");
    if l == "" {
      assert s[1..] == "" && !(GIT <= s);
    } else {
      assert s[1..] == l[1..] + [NL];
      LineHeaders(l[0], l[1..]);
    }
  }

  predicate Plain(s: string) {
    forall i :: 0 <= i < |s| ==> !Terminator(s[i])
  }

  lemma {:induction false} PlainSoft(prev: char, s: string)
    requires Plain(s) && !Soft(prev)
    ensures SoftHeaders(prev, s) == 0
    decreases |s|
  {
    if s != "" { PlainSoft(s[0], s[1..]); }
  }

  /** A plain line followed by more: its only header can be at its start. */
  lemma PlainLine(l: string, rest: string)
    requires Plain(l)
    ensures Headers(NL, l + [NL] + rest) == (if GIT <= l then 1 else 0) + Headers(NL, rest)
  {
    HeadersConcat(NL, l + [NL], rest);
    LineHeaders(NL, l);
    PlainSoft(NL, l);
  }

  lemma NamesPlain(rel: string)
    requires Plain(rel)
    ensures Plain(NameLine(rel)) && Plain(ToLine(rel)) && GIT <= NameLine(rel)
  {
  }

  /** A text that starts otherwise than a header is none. */
  lemma OtherStart(l: string)
    requires l != "" && l[0] != 'd'
    ensures !(GIT <= l)
  {
    assert GIT[0] == 'd';
  }

  lemma PreambleHeaders(rel: string, rest: string)
    requires Plain(rel)
    ensures Headers(NL, Preamble(rel) + rest) == 1 + Headers(NL, rest)
  {
    hide Headers, Preamble, NameLine;
    PreambleShape(rel, rest);
    NamesPlain(rel);
    OtherStart(MODE);
    OtherStart(FROM);
    OtherStart(ToLine(rel));
    hide ToLine;
    var r3 := ToLine(rel) + [NL] + rest;
    var r2 := FROM + [NL] + r3;
    PlainLine(NameLine(rel), MODE + [NL] + r2);
    PlainLine(MODE, r2);
    PlainLine(FROM, r3);
    PlainLine(ToLine(rel), rest);
  }

  lemma {:induction false} AddedHeaders(ls: seq<string>, tail: string)
    requires Flat(ls) && ls != []
    ensures Headers(NL, Written(Plus(ls)) + tail) == SoftHeaders('+', Join(ls, [NL])) + Headers(NL, tail)
    decreases |ls|
  {
    hide Headers, SoftHeaders;
    var l, rest := ls[0], Written(Plus(ls[1..])) + tail;
    assert Plus(ls)[1..] == Plus(ls[1..]);
    var line := "+" + l;
    assert Written(Plus(ls)) + tail == (line + [NL]) + rest;
    HeadersConcat(NL, line + [NL], rest);
    LineHeaders(NL, line);
    PlusLine(l);
    if |ls| == 1 {
      assert rest == tail;
    } else {
      AddedHeaders(ls[1..], tail);
      SoftConcat('+', l, Join(ls[1..], [NL]));
      SoftPrev(NL, '+', Join(ls[1..], [NL]));
    }
  }

  lemma PlusLine(l: string)
    ensures !(GIT <= "+" + l) && SoftHeaders(NL, "+" + l) == SoftHeaders('+', l)
  {
    assert ("+" + l)[1..] == l && GIT[0] == 'd';
  }

  /** One file's patch: its own header, and those its content forges. */
  lemma PatchHeaders(rel: string, content: string, rest: string)
    requires Plain(rel)
    ensures Headers(NL, SynthesizeAddPatch(rel, content) + rest) == 1 + SoftHeaders('+', Body(content)) + Headers(NL, rest)
  {
    hide Headers, SoftHeaders, Preamble, Decimal, Split, SynthesizeAddPatch, Written;
    var lines := Split(Body(content));
    var tail := (if HasFinalNewline(content) then "" else MARKER + [NL]) + rest;
    var header := HUNK + Decimal(|lines|) + " @@";
    PatchParts(rel, content);
    assert SynthesizeAddPatch(rel, content) + rest == Preamble(rel) + (HunkOf(content) + rest);
    PreambleHeaders(rel, HunkOf(content) + rest);
    assert HunkOf(content) + rest == header + [NL] + (Written(Plus(lines)) + tail);
    OtherStart(header);
    OtherStart(MARKER);
    PlainLine(header, Written(Plus(lines)) + tail);
    SplitIsFlat(Body(content));
    AddedHeaders(lines, tail);
    if HasFinalNewline(content) {
      assert tail == rest;
    } else {
      PlainLine(MARKER, rest);
    }
  }

  function Forgeries(files: seq<File>): nat {
    if files == [] then 0 else SoftHeaders('+', Body(files[0].content)) + Forgeries(files[1..])
  }

  predicate PlainNames(files: seq<File>) {
    forall k :: 0 <= k < |files| ==> Plain(files[k].rel)
  }

  lemma {:induction false} DiffHeaders(files: seq<File>)
    requires PlainNames(files)
    ensures FileCount(Diff(files)) == |files| + Forgeries(files)
  {
    hide Headers, SoftHeaders, SynthesizeAddPatch;
    if files == [] {
      NoHeaders();
    } else {
      DiffHeaders(files[1..]);
      PatchHeaders(files[0].rel, files[0].content, Diff(files[1..]));
    }
  }

  lemma NoHeaders()
    ensures Headers(NL, "") == 0
  {
  }

  lemma BodyForges(content: string)
    ensures SoftHeaders('+', Body(content)) == 0 <==> !Forges(content)
  {
    SoftHeadersIff('+', Body(content));
    SoftHeadersIff('+', content);
    if HasFinalNewline(content) {
      assert Body(content) + [NL] == content;
      FinalSoft('+', Body(content));
    }
  }

  lemma {:induction false} FinalSoft(prev: char, s: string)
    ensures SoftHeaders(prev, s + [NL]) == SoftHeaders(prev, s)
    decreases |s|
  {
    assert s + [NL] + "" == s + [NL];
    LineEndsHeader(s, "");
    if s == "" {
      assert (s + [NL])[1..] == "" && !(GIT <= s + [NL]);
    } else {
      assert (s + [NL])[1..] == s[1..] + [NL];
      FinalSoft(s[0], s[1..]);
    }
  }

  lemma {:induction false} NoForgeriesIff(files: seq<File>)
    ensures Forgeries(files) == 0 <==> forall k :: 0 <= k < |files| ==> !Forges(files[k].content)
  {
    hide SoftHeaders, Forges;
    if files != [] {
      BodyForges(files[0].content);
      NoForgeriesIff(files[1..]);
      assert forall k :: 0 < k < |files| ==> files[k] == files[1..][k - 1];
    }
  }

  /** The headers counted in the diff are the files visited exactly when no content forges one after a bare carriage
    * return, U+2028 or U+2029. */
  lemma FileCountIff(files: seq<File>)
    requires PlainNames(files)
    ensures FileCount(Diff(files)) >= |files|
    ensures FileCount(Diff(files)) == |files| <==> forall k :: 0 <= k < |files| ==> !Forges(files[k].content)
  {
    hide FileCount, Forgeries, Forges;
    DiffHeaders(files);
    NoForgeriesIff(files);
  }
}

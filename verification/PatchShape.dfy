/**
 Which patches are accepted and what their plans say, line by line: the shape of a hunk header, the lines
 that belong to a hunk, and the counts that its header must announce.
 */
module PatchShape {
  import opened Wrappers
  import opened HunkParser

  // ---------- Headers ----------

  predicate Digits(s: string) {
    s != "" && forall i :: 0 <= i < |s| ==> '0' <= s[i] <= '9'
  }

  /** A start, and a comma with a count unless the count is left out. */
  function RangeText(start: string, count: Option<string>): string {
    if count.Some? then start + "," + count.value else start
  }

  predicate SoundRange(start: string, count: Option<string>) {
    Digits(start) && (count.Some? ==> Digits(count.value))
  }

  /** A count that is left out is 1. */
  function CountOf(count: Option<string>): nat
    requires count.Some? ==> Digits(count.value)
  {
    if count.Some? then Value(count.value) else 1
  }

  /** The line is a hunk header with these numbers, and maybe a section heading behind them. */
  ghost predicate IsHeader(line: string, h: Header) {
    exists a, b, c, d, section :: HeaderText(line, h, a, b, c, d, section)
  }

  ghost predicate HeaderText(line: string, h: Header, a: string, b: Option<string>, c: string, d: Option<string>,
                             section: string) {
    && SoundRange(a, b) && SoundRange(c, d)
    && line == "@@ -" + (RangeText(a, b) + (" +" + (RangeText(c, d) + (" @@" + section))))
    && h == Header(Value(a), CountOf(b), Value(c), CountOf(d))
  }

  lemma {:induction false} NumberRead(digits: string, rest: string)
    requires Digits(digits) && (rest != [] ==> !IsDigit(rest[0]))
    ensures ParseNumber(digits + rest) == Some((Value(digits), rest))
  {
    DigitsLengthOf(digits, rest);
    assert (digits + rest)[..|digits|] == digits && (digits + rest)[|digits|..] == rest;
  }

  lemma {:induction false} RangeRead(start: string, count: Option<string>, rest: string)
    requires SoundRange(start, count) && rest != [] && !IsDigit(rest[0]) && rest[0] != ','
    ensures ParseRange(RangeText(start, count) + rest) == Some((Value(start), CountOf(count), rest))
  {
    hide ParseNumber, Value, Digits;
    match count
    case None =>
      NumberRead(start, rest);
    case Some(digits) =>
      var tail := "," + digits + rest;
      assert RangeText(start, count) + rest == start + tail;
      NumberRead(start, tail);
      assert tail[1..] == digits + rest;
      NumberRead(digits, rest);
  }

  lemma {:induction false} HeaderRead(line: string, h: Header, a: string, b: Option<string>, c: string,
                                      d: Option<string>, section: string)
    requires HeaderText(line, h, a, b, c, d, section)
    ensures ParseHeader(line) == Some(h)
  {
    hide ParseRange, StartsWith, RangeText, SoundRange, Value, CountOf;
    var tail := " @@" + section;
    var second := RangeText(c, d) + tail;
    var first := RangeText(a, b) + (" +" + second);
    PrefixDropped("@@ -", first);
    RangeRead(a, b, " +" + second);
    PrefixDropped(" +", second);
    RangeRead(c, d, tail);
    PrefixDropped(" @@", section);
  }

  lemma {:induction false} NumberFound(s: string) returns (digits: string)
    requires ParseNumber(s).Some?
    ensures Digits(digits) && s == digits + ParseNumber(s).value.1 && ParseNumber(s).value.0 == Value(digits)
  {
    digits := s[..DigitsLength(s)];
    assert s == digits + s[DigitsLength(s)..];
  }

  lemma {:induction false} RangeFound(s: string) returns (start: string, count: Option<string>)
    requires ParseRange(s).Some?
    ensures SoundRange(start, count) && s == RangeText(start, count) + ParseRange(s).value.2
    ensures ParseRange(s).value.0 == Value(start) && ParseRange(s).value.1 == CountOf(count)
  {
    hide ParseNumber, Value, Digits;
    start := NumberFound(s);
    var rest := ParseNumber(s).value.1;
    if rest != [] && rest[0] == ',' && ParseNumber(rest[1..]).Some? {
      var digits := NumberFound(rest[1..]);
      count := Some(digits);
      assert rest == "," + rest[1..];
    } else {
      count := None;
    }
  }

  lemma {:induction false} PrefixFound(s: string, prefix: string)
    requires StartsWith(s, prefix)
    ensures s == prefix + s[|prefix|..]
  {
  }

  /** A line is read as a header exactly when it has a header's shape, with the numbers it shows. */
  lemma {:induction false} HeadersAreReadExactly(line: string, h: Header)
    ensures ParseHeader(line) == Some(h) <==> IsHeader(line, h)
  {
    hide ParseRange, RangeText, SoundRange, Value, CountOf;
    if IsHeader(line, h) {
      var a, b, c, d, section :| HeaderText(line, h, a, b, c, d, section);
      HeaderRead(line, h, a, b, c, d, section);
    }
    if ParseHeader(line) == Some(h) {
      PrefixFound(line, "@@ -");
      var a, b := RangeFound(line[4..]);
      var rest := ParseRange(line[4..]).value.2;
      PrefixFound(rest, " +");
      var c, d := RangeFound(rest[2..]);
      var after := ParseRange(rest[2..]).value.2;
      PrefixFound(after, " @@");
      assert HeaderText(line, h, a, b, c, d, after[3..]);
    }
  }

  // ---------- Bodies ----------

  predicate IsMarker(line: string) {
    StartsWith(line, "\\ No newline at end of file")
  }

  predicate BelongsToBody(line: string) {
    !StartsWith(line, "@@ ") && (line == "" || line[0] == '+' || line[0] == '-' || line[0] == ' ' || IsMarker(line))
  }

  predicate IsContext(line: string) {
    line == "" || line[0] == ' '
  }

  predicate IsTagged(line: string, tag: char) {
    line != "" && line[0] == tag
  }

  function TaggedIn(lines: seq<string>, tag: char): nat {
    if lines == [] then 0 else (if IsTagged(lines[0], tag) then 1 else 0) + TaggedIn(lines[1..], tag)
  }

  function ContextIn(lines: seq<string>): nat {
    if lines == [] then 0 else (if IsContext(lines[0]) then 1 else 0) + ContextIn(lines[1..])
  }

  lemma {:induction false} TallyMeans(line: string)
    ensures Tally(line).Some? <==> BelongsToBody(line)
    ensures BelongsToBody(line) ==>
      Tally(line) == Some(Counts(if IsTagged(line, '+') then 1 else 0, if IsTagged(line, '-') then 1 else 0,
                                 if IsContext(line) then 1 else 0))
  {
    var marker := "\\ No newline at end of file";
    assert NO_NEWLINE == marker && marker[0] == '\\' && "@@ "[0] == '@';
    assert |line| >= |marker| ==> line[..|marker|][0] == line[0];
    assert |line| >= 3 ==> line[..3][0] == line[0];
  }

  /** The body of a hunk: the lines from here on, up to the first that does not belong to it. */
  function BodyLines(lines: seq<string>): seq<string> {
    if lines == [] || !BelongsToBody(lines[0]) then [] else [lines[0]] + BodyLines(lines[1..])
  }

  /** What a body adds, deletes and keeps: a marker for a missing newline is none of them. */
  function CountsIn(body: seq<string>): Counts {
    Counts(TaggedIn(body, '+'), TaggedIn(body, '-'), ContextIn(body))
  }

  lemma {:induction false} InSplit(a: seq<string>, line: string)
    ensures forall tag :: TaggedIn(a + [line], tag) == TaggedIn(a, tag) + if IsTagged(line, tag) then 1 else 0
    ensures ContextIn(a + [line]) == ContextIn(a) + if IsContext(line) then 1 else 0
  {
    if a == [] {
      assert [] + [line] == [line] && [line][1..] == [];
    } else {
      assert (a + [line])[1..] == a[1..] + [line];
      InSplit(a[1..], line);
    }
  }

  lemma {:induction false} TotalCounts(body: seq<string>)
    requires forall i :: 0 <= i < |body| ==> Tally(body[i]).Some?
    ensures Total(body) == CountsIn(body)
  {
    hide Tally, IsTagged, IsContext;
    if body != [] {
      var front, last := body[..|body| - 1], body[|body| - 1];
      TotalCounts(front);
      TallyMeans(last);
      InSplit(front, last);
      assert front + [last] == body;
    }
  }

  lemma {:induction false} BodyFound(lines: seq<string>)
    ensures BodyLines(lines) == lines[..BodyLength(lines)]
  {
    hide Tally, BelongsToBody;
    if lines != [] {
      TallyMeans(lines[0]);
      BodyFound(lines[1..]);
      if Tally(lines[0]).Some? {
        assert lines[..BodyLength(lines)] == [lines[0]] + lines[1..][..BodyLength(lines[1..])];
      }
    }
  }

  lemma {:induction false} BodyIsCounted(lines: seq<string>)
    ensures Total(lines[..BodyLength(lines)]) == CountsIn(BodyLines(lines))
  {
    BodyFound(lines);
    TotalCounts(lines[..BodyLength(lines)]);
  }

  // ---------- Whole patches ----------

  function HeadersIn(lines: seq<string>): nat {
    if lines == [] then 0 else (if ParseHeader(lines[0]).Some? then 1 else 0) + HeadersIn(lines[1..])
  }

  /** If line `p` is a header, it announces just what its body holds. */
  predicate Fits(lines: seq<string>, p: nat)
    requires p < |lines|
  {
    ParseHeader(lines[p]).Some? ==> Agrees(ParseHeader(lines[p]).value, CountsIn(BodyLines(lines[p + 1..])))
  }

  /** If line `p` is a header, its hunk has its numbers, the counts of its body, and its place. */
  predicate Stands(lines: seq<string>, p: nat, hunks: seq<HunkPlan>, index: nat)
    requires p < |lines|
  {
    ParseHeader(lines[p]).Some? ==>
      var k := HeadersIn(lines[..p]);
      && k < |hunks|
      && hunks[k] == HunkPlan(index + k, ParseHeader(lines[p]).value, CountsIn(BodyLines(lines[p + 1..])))
  }

  lemma {:induction false} HeadersSplit(a: seq<string>, b: seq<string>)
    ensures HeadersIn(a + b) == HeadersIn(a) + HeadersIn(b)
  {
    hide ParseHeader;
    if a == [] {
      assert a + b == b;
    } else {
      assert (a + b)[1..] == a[1..] + b;
      HeadersSplit(a[1..], b);
    }
  }

  lemma {:induction false} HeaderStart(line: string)
    ensures StartsWith(line, "@@ -") ==> StartsWith(line, "@@ ")
  {
    if StartsWith(line, "@@ -") {
      assert line[..3] == line[..4][..3];
    }
  }

  lemma {:induction false} NoHeaderInBody(line: string)
    requires BelongsToBody(line)
    ensures ParseHeader(line).None?
  {
    HeaderStart(line);
  }

  lemma {:induction false} NoHeadersInBody(body: seq<string>)
    requires forall i :: 0 <= i < |body| ==> BelongsToBody(body[i])
    ensures HeadersIn(body) == 0
    ensures forall i :: 0 <= i < |body| ==> ParseHeader(body[i]).None?
  {
    hide ParseHeader, BelongsToBody;
    if body != [] {
      NoHeaderInBody(body[0]);
      NoHeadersInBody(body[1..]);
    }
  }

  lemma {:induction false} BodyBelongs(lines: seq<string>)
    ensures forall i :: 0 <= i < BodyLength(lines) ==> BelongsToBody(lines[i])
  {
    hide Tally, BelongsToBody;
    forall i | 0 <= i < BodyLength(lines) ensures BelongsToBody(lines[i]) {
      TallyMeans(lines[i]);
    }
  }

  ghost predicate AllFit(lines: seq<string>) {
    forall p :: 0 <= p < |lines| ==> Fits(lines, p)
  }

  ghost predicate AllStand(lines: seq<string>, hunks: seq<HunkPlan>, index: nat) {
    forall p :: 0 <= p < |lines| ==> Stands(lines, p, hunks, index)
  }

  /** Among the first `m` lines at most the very first is a header. */
  predicate AloneFrom(lines: seq<string>, m: nat)
    requires m <= |lines|
  {
    forall p :: 0 < p < m ==> ParseHeader(lines[p]).None?
  }

  lemma {:induction false} FitsFurtherOn(lines: seq<string>, m: nat, p: nat)
    requires m <= p < |lines|
    ensures Fits(lines, p) <==> Fits(lines[m..], p - m)
  {
    hide ParseHeader, BodyLines, CountsIn, Agrees;
    assert lines[m..][p - m] == lines[p] && lines[m..][p - m + 1..] == lines[p + 1..];
  }

  lemma {:induction false} StandsFurtherOn(lines: seq<string>, m: nat, p: nat, first: seq<HunkPlan>,
                                           rest: seq<HunkPlan>, index: nat)
    requires m <= p < |lines| && HeadersIn(lines[..m]) == |first|
    requires Stands(lines[m..], p - m, rest, index + |first|)
    ensures Stands(lines, p, first + rest, index)
  {
    hide ParseHeader, HeadersIn, BodyLines, CountsIn, Agrees;
    assert lines[m..][p - m] == lines[p] && lines[m..][p - m + 1..] == lines[p + 1..];
    assert lines[..p] == lines[..m] + lines[m..][..p - m];
    HeadersSplit(lines[..m], lines[m..][..p - m]);
  }

  lemma {:induction false} AllFitFurtherOn(lines: seq<string>, m: nat)
    requires 0 < m <= |lines| && AloneFrom(lines, m)
    ensures AllFit(lines) <==> Fits(lines, 0) && AllFit(lines[m..])
  {
    forall p | 0 < p < m ensures Fits(lines, p) {
    }
    hide Fits, ParseHeader;
    forall p | m <= p < |lines| ensures Fits(lines, p) <==> Fits(lines[m..], p - m) {
      FitsFurtherOn(lines, m, p);
    }
    if AllFit(lines) {
      forall p | 0 <= p < |lines[m..]| ensures Fits(lines[m..], p) {
        assert Fits(lines, p + m);
      }
    }
  }

  lemma {:induction false} AllStandFurtherOn(lines: seq<string>, m: nat, first: seq<HunkPlan>, rest: seq<HunkPlan>,
                                             index: nat)
    requires 0 < m <= |lines| && AloneFrom(lines, m) && HeadersIn(lines[..m]) == |first|
    requires Stands(lines, 0, first + rest, index) && AllStand(lines[m..], rest, index + |first|)
    ensures AllStand(lines, first + rest, index)
  {
    forall p | 0 < p < m ensures Stands(lines, p, first + rest, index) {
    }
    hide Stands, ParseHeader, HeadersIn;
    forall p | m <= p < |lines| ensures Stands(lines, p, first + rest, index) {
      assert Stands(lines[m..], p - m, rest, index + |first|);
      StandsFurtherOn(lines, m, p, first, rest, index);
    }
  }

  /**
   What parsing these lines must give: plans exactly when every header announces what its body holds, and then
   one hunk for each header line, in order, with its numbers and the counts of its body.
   */
  ghost predicate IsReading(lines: seq<string>, index: nat, r: Parsed) {
    && (r.Plans? <==> AllFit(lines))
    && (r.Refused? ==> r.reason == BodyMismatch)
    && (r.Plans? ==> |r.hunks| == HeadersIn(lines) && AllStand(lines, r.hunks, index))
  }

  lemma {:induction false} HunksStandExactly(lines: seq<string>, index: nat)
    ensures IsReading(lines, index, ParseFrom(lines, index))
    decreases |lines|
  {
    if lines != [] {
      hide IsReading, BodyLength, ParseFrom;
      if ParseHeader(lines[0]).None? {
        HunksStandExactly(lines[1..], index);
        TextLine(lines, index);
      } else {
        HunksStandExactly(lines[1..][BodyLength(lines[1..])..], index + 1);
        HunkLine(lines, index);
      }
    }
  }

  lemma {:induction false} FirstLine(lines: seq<string>)
    requires lines != []
    ensures HeadersIn(lines[..1]) == if ParseHeader(lines[0]).Some? then 1 else 0
    ensures HeadersIn(lines[..0]) == 0
  {
    assert lines[..1][1..] == [];
  }

  lemma {:induction false} TextLine(lines: seq<string>, index: nat)
    requires lines != [] && ParseHeader(lines[0]).None?
    requires IsReading(lines[1..], index, ParseFrom(lines[1..], index))
    ensures IsReading(lines, index, ParseFrom(lines, index))
  {
    hide ParseFrom, ParseHeader, Fits, Stands, AllFit, AllStand, HeadersIn;
    var r := ParseFrom(lines[1..], index);
    TextRead(lines, index, if r.Plans? then r.hunks else []);
    FirstLine(lines);
    AllFitFurtherOn(lines, 1);
    assert lines == lines[..1] + lines[1..];
    HeadersSplit(lines[..1], lines[1..]);
    if r.Plans? {
      assert [] + r.hunks == r.hunks;
      AllStandFurtherOn(lines, 1, [], r.hunks, index);
    }
  }

  lemma {:induction false} TextRead(lines: seq<string>, index: nat, hunks: seq<HunkPlan>)
    requires lines != [] && ParseHeader(lines[0]).None?
    ensures ParseFrom(lines, index) == ParseFrom(lines[1..], index)
    ensures Fits(lines, 0) && Stands(lines, 0, hunks, index) && AloneFrom(lines, 1)
  {
    hide ParseHeader;
  }

  lemma {:induction false} HunkLine(lines: seq<string>, index: nat)
    requires lines != [] && ParseHeader(lines[0]).Some?
    requires var rest := lines[1..][BodyLength(lines[1..])..]; IsReading(rest, index + 1, ParseFrom(rest, index + 1))
    ensures IsReading(lines, index, ParseFrom(lines, index))
  {
    hide ParseFrom, ParseHeader, Fits, Stands, AllFit, AllStand, HeadersIn, BodyLength, Agrees, Total, CountsIn;
    hide BodyLines;
    var header, n := ParseHeader(lines[0]).value, BodyLength(lines[1..]);
    var hunk, m := HunkPlan(index, header, CountsIn(BodyLines(lines[1..]))), 1 + n;
    var r := ParseFrom(lines[m..], index + 1);
    assert lines[1..][n..] == lines[m..];
    BodyIsCounted(lines[1..]);
    HunkRead(lines, index, header, n);
    HeadersOfHunk(lines, n);
    AllFitFurtherOn(lines, m);
    if r.Plans? {
      HunkIsFirst(lines, index, hunk, r.hunks);
      if Agrees(header, hunk.counts) {
        AllStandFurtherOn(lines, m, [hunk], r.hunks, index);
        assert lines == lines[..m] + lines[m..];
        HeadersSplit(lines[..m], lines[m..]);
      }
    } else {
      HunkIsFirst(lines, index, hunk, []);
    }
  }

  lemma {:induction false} HunkIsFirst(lines: seq<string>, index: nat, hunk: HunkPlan, more: seq<HunkPlan>)
    requires lines != [] && ParseHeader(lines[0]).Some?
    requires hunk == HunkPlan(index, ParseHeader(lines[0]).value, CountsIn(BodyLines(lines[1..])))
    ensures Fits(lines, 0) <==> Agrees(hunk.header, hunk.counts)
    ensures Stands(lines, 0, [hunk] + more, index)
  {
    hide ParseHeader, BodyLines, CountsIn, Agrees;
    FirstLine(lines);
  }

  lemma {:induction false} HunkRead(lines: seq<string>, index: nat, header: Header, n: nat)
    requires lines != [] && ParseHeader(lines[0]) == Some(header) && n == BodyLength(lines[1..])
    ensures var counts, r := Total(lines[1..][..n]), ParseFrom(lines[1 + n..], index + 1);
            && (!Agrees(header, counts) ==> ParseFrom(lines, index) == Refused(BodyMismatch))
            && (Agrees(header, counts) && r.Refused? ==> ParseFrom(lines, index) == r)
            && (Agrees(header, counts) && r.Plans? ==>
                  ParseFrom(lines, index) == Plans([HunkPlan(index, header, counts)] + r.hunks))
  {
    hide ParseHeader, BodyLength, Total, Agrees;
  }

  lemma {:induction false} HeadersOfHunk(lines: seq<string>, n: nat)
    requires lines != [] && ParseHeader(lines[0]).Some? && n == BodyLength(lines[1..])
    ensures HeadersIn(lines[..1 + n]) == 1 && AloneFrom(lines, 1 + n)
  {
    hide ParseHeader, BelongsToBody;
    var body := lines[1..][..n];
    BodyBelongs(lines[1..]);
    NoHeadersInBody(body);
    assert lines[..1 + n] == lines[..1] + body;
    HeadersSplit(lines[..1], body);
    FirstLine(lines);
    forall p | 0 < p <= n ensures ParseHeader(lines[p]).None? {
      assert lines[p] == body[p - 1];
    }
  }

  // ---------- Refusals ----------

  predicate AtMostOne(lines: seq<string>, prefix: string) {
    forall i, j :: 0 <= i < j < |lines| && StartsWith(lines[i], prefix) ==> !StartsWith(lines[j], prefix)
  }

  lemma {:induction false} CountMeans(lines: seq<string>, prefix: string)
    ensures Count(lines, prefix) == 0 <==> forall i :: 0 <= i < |lines| ==> !StartsWith(lines[i], prefix)
    ensures Count(lines, prefix) <= 1 <==> AtMostOne(lines, prefix)
  {
    hide StartsWith;
    if lines != [] {
      var front := lines[..|lines| - 1];
      CountMeans(front, prefix);
      assert forall i :: 0 <= i < |front| ==> front[i] == lines[i];
      if AtMostOne(lines, prefix) {
        assert AtMostOne(front, prefix);
      }
    }
  }

  /**
   A patch is accepted exactly when it names at most one file, has a hunk header, and every header in it
   announces what its body holds; otherwise the first of these that fails is the reason for the refusal.
   */
  lemma {:induction false} AcceptedExactly(lines: seq<string>)
    ensures var oneFile := AtMostOne(lines, "diff --git ") && AtMostOne(lines, "--- ") && AtMostOne(lines, "+++ ");
            var fits := AllFit(lines);
            && (Parse(lines).Plans? <==> oneFile && fits && HeadersIn(lines) > 0)
            && (!oneFile ==> Parse(lines) == Refused(MultipleFiles))
            && (oneFile && !fits ==> Parse(lines) == Refused(BodyMismatch))
            && (oneFile && fits && HeadersIn(lines) == 0 ==> Parse(lines) == Refused(NoHunks))
    ensures Parse(lines).Plans? ==>
      |Parse(lines).hunks| == HeadersIn(lines) && AllStand(lines, Parse(lines).hunks, 0)
  {
    hide AtMostOne, AllFit, AllStand, ParseFrom, Count;
    HunksStandExactly(lines, 0);
    CountMeans(lines, "diff --git ");
    CountMeans(lines, "--- ");
    CountMeans(lines, "+++ ");
  }
}

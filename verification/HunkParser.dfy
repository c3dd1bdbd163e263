/**
 Unified-diff hunks: headers, bodies and the counts that must agree (POSIX.1-2017, `diff` utility,
 "Diff -u or -U Output Format"; `coding_agent/action_safety/patch_plan.py`). A patch is given as
 its lines.
 */
module HunkParser {
  import opened Wrappers

  // ---------- Numbers ----------

  predicate IsDigit(c: char) {
    '0' <= c <= '9'
  }

  function DigitsLength(s: string): (n: nat)
    ensures n <= |s|
    ensures forall i :: 0 <= i < n ==> IsDigit(s[i])
    ensures n < |s| ==> !IsDigit(s[n])
  {
    if s == [] || !IsDigit(s[0]) then 0 else 1 + DigitsLength(s[1..])
  }

  function Value(digits: string): nat
    requires forall i :: 0 <= i < |digits| ==> IsDigit(digits[i])
  {
    if digits == [] then 0
    else 10 * Value(digits[..|digits| - 1]) + DigitValue(digits[|digits| - 1])
  }

  function DigitValue(c: char): nat
    requires IsDigit(c)
  {
    (c as int) - ('0' as int)
  }

  function Digit(n: nat): (c: char)
    requires n < 10
    ensures IsDigit(c) && DigitValue(c) == n
  {
    (('0' as int) + n) as char
  }

  function Render(n: nat): (digits: string)
    ensures |digits| > 0 && forall i :: 0 <= i < |digits| ==> IsDigit(digits[i])
  {
    (if n < 10 then "" else Render(n / 10)) + [Digit(n % 10)]
  }

  lemma {:induction false} ValueOfAppended(front: string, c: char)
    requires (forall i :: 0 <= i < |front| ==> IsDigit(front[i])) && IsDigit(c)
    ensures Value(front + [c]) == 10 * Value(front) + DigitValue(c)
  {
    assert (front + [c])[..|front|] == front;
  }

  lemma {:induction false} RenderedValue(n: nat)
    ensures Value(Render(n)) == n
  {
    hide DigitValue, Digit;
    var front := if n < 10 then "" else Render(n / 10);
    if n >= 10 {
      RenderedValue(n / 10);
    }
    assert Render(n) == front + [Digit(n % 10)];
    ValueOfAppended(front, Digit(n % 10));
  }

  lemma {:induction false} DigitsLengthOf(digits: string, rest: string)
    requires forall i :: 0 <= i < |digits| ==> IsDigit(digits[i])
    requires rest != [] ==> !IsDigit(rest[0])
    ensures DigitsLength(digits + rest) == |digits|
  {
    if digits == [] {
      assert digits + rest == rest;
    } else {
      assert (digits + rest)[1..] == digits[1..] + rest;
      DigitsLengthOf(digits[1..], rest);
    }
  }

  // ---------- Hunk headers ----------

  datatype Header = Header(oldStart: nat, oldCount: nat, newStart: nat, newCount: nat)

  predicate StartsWith(s: string, prefix: string) {
    |prefix| <= |s| && s[..|prefix|] == prefix
  }

  /** `(\d+)` and the rest. */
  function ParseNumber(s: string): Option<(nat, string)> {
    var n := DigitsLength(s);
    if n == 0 then None else Some((Value(s[..n]), s[n..]))
  }

  /** `(\d+)(?:,(\d+))?` and the rest; a missing count is 1. */
  function ParseRange(s: string): Option<(nat, nat, string)> {
    match ParseNumber(s)
    case None => None
    case Some((start, rest)) =>
      if rest != [] && rest[0] == ',' && ParseNumber(rest[1..]).Some? then
        var (count, after) := ParseNumber(rest[1..]).value;
        Some((start, count, after))
      else Some((start, 1, rest))
  }

  /** `^@@ -(\d+)(?:,(\d+))? \+(\d+)(?:,(\d+))? @@` */
  function ParseHeader(line: string): Option<Header> {
    if !StartsWith(line, "@@ -") then None
    else
      match ParseRange(line[4..])
      case None => None
      case Some((oldStart, oldCount, rest)) =>
        if !StartsWith(rest, " +") then None
        else
          match ParseRange(rest[2..])
          case None => None
          case Some((newStart, newCount, after)) =>
            if StartsWith(after, " @@") then Some(Header(oldStart, oldCount, newStart, newCount)) else None
  }

  function RenderRange(start: nat, count: nat): string {
    Render(start) + "," + Render(count)
  }

  function RenderHeader(h: Header): string {
    "@@ -" + RenderRange(h.oldStart, h.oldCount) + " +" + RenderRange(h.newStart, h.newCount) + " @@"
  }

  lemma {:induction false} NumberRoundTrip(n: nat, rest: string)
    requires rest != [] ==> !IsDigit(rest[0])
    ensures ParseNumber(Render(n) + rest) == Some((n, rest))
  {
    DigitsLengthOf(Render(n), rest);
    RenderedValue(n);
    assert (Render(n) + rest)[..|Render(n)|] == Render(n);
    assert (Render(n) + rest)[|Render(n)|..] == rest;
  }

  lemma {:induction false} RangeRoundTrip(start: nat, count: nat, rest: string)
    requires rest != [] ==> !IsDigit(rest[0])
    ensures ParseRange(RenderRange(start, count) + rest) == Some((start, count, rest))
  {
    hide Render, ParseNumber;
    var tail := "," + Render(count) + rest;
    assert RenderRange(start, count) + rest == Render(start) + tail;
    NumberRoundTrip(start, tail);
    assert tail[1..] == Render(count) + rest;
    NumberRoundTrip(count, rest);
  }

  lemma {:induction false} PrefixDropped(prefix: string, rest: string)
    ensures StartsWith(prefix + rest, prefix) && (prefix + rest)[|prefix|..] == rest
  {
    assert (prefix + rest)[..|prefix|] == prefix;
  }

  lemma {:induction false} HeaderRoundTrip(h: Header)
    ensures ParseHeader(RenderHeader(h)) == Some(h)
  {
    hide RenderRange, ParseRange, StartsWith;
    var second := RenderRange(h.newStart, h.newCount) + " @@";
    var first := RenderRange(h.oldStart, h.oldCount) + (" +" + second);
    assert RenderHeader(h) == "@@ -" + first;
    PrefixDropped("@@ -", first);
    RangeRoundTrip(h.oldStart, h.oldCount, " +" + second);
    PrefixDropped(" +", second);
    RangeRoundTrip(h.newStart, h.newCount, " @@");
    PrefixDropped(" @@", "");
    assert " @@" + "" == " @@";
  }

  // ---------- Hunk bodies ----------

  const NO_NEWLINE := "\\ No newline at end of file"

  datatype Counts = Counts(additions: nat, deletions: nat, context: nat)

  /** Whether a line ends the body, and otherwise what it adds to the counts. */
  function Tally(line: string): Option<Counts> {
    if StartsWith(line, "@@ ") then None
    else if StartsWith(line, NO_NEWLINE) then Some(Counts(0, 0, 0))
    else if line == "" then Some(Counts(0, 0, 1))
    else if line[0] == '+' then Some(Counts(1, 0, 0))
    else if line[0] == '-' then Some(Counts(0, 1, 0))
    else if line[0] == ' ' then Some(Counts(0, 0, 1))
    else None
  }

  function Plus(a: Counts, b: Counts): Counts {
    Counts(a.additions + b.additions, a.deletions + b.deletions, a.context + b.context)
  }

  /** How many lines from the front belong to a body. */
  function BodyLength(lines: seq<string>): (n: nat)
    ensures n <= |lines|
    ensures forall i :: 0 <= i < n ==> Tally(lines[i]).Some?
    ensures n < |lines| ==> Tally(lines[n]).None?
  {
    if lines == [] || Tally(lines[0]).None? then 0 else 1 + BodyLength(lines[1..])
  }

  /** The counts of body lines. */
  function Total(lines: seq<string>): Counts
    requires forall i :: 0 <= i < |lines| ==> Tally(lines[i]).Some?
  {
    if lines == [] then Counts(0, 0, 0)
    else Plus(Total(lines[..|lines| - 1]), Tally(lines[|lines| - 1]).value)
  }

  // ---------- Parsing a patch ----------

  datatype HunkPlan = HunkPlan(index: nat, header: Header, counts: Counts)

  datatype Refusal = MultipleFiles | BodyMismatch | NoHunks

  datatype Parsed = Plans(hunks: seq<HunkPlan>) | Refused(reason: Refusal)

  /** The header's counts are the body's. */
  predicate Agrees(h: Header, c: Counts) {
    h.oldCount == c.deletions + c.context && h.newCount == c.additions + c.context
  }

  /** The hunks from here on; the first one gets `index`. */
  function ParseFrom(lines: seq<string>, index: nat): Parsed
    decreases |lines|
  {
    if lines == [] then Plans([])
    else
      match ParseHeader(lines[0])
      case None => ParseFrom(lines[1..], index)
      case Some(header) =>
        var n := BodyLength(lines[1..]);
        var counts := Total(lines[1..][..n]);
        if !Agrees(header, counts) then Refused(BodyMismatch)
        else
          match ParseFrom(lines[1 + n..], index + 1)
          case Refused(reason) => Refused(reason)
          case Plans(hunks) => Plans([HunkPlan(index, header, counts)] + hunks)
  }

  function Count(lines: seq<string>, prefix: string): nat {
    if lines == [] then 0
    else Count(lines[..|lines| - 1], prefix) + if StartsWith(lines[|lines| - 1], prefix) then 1 else 0
  }

  predicate SingleFile(lines: seq<string>) {
    Count(lines, "diff --git ") <= 1 && Count(lines, "--- ") <= 1 && Count(lines, "+++ ") <= 1
  }

  function Parse(lines: seq<string>): Parsed {
    if !SingleFile(lines) then Refused(MultipleFiles)
    else if ParseFrom(lines, 0) == Plans([]) then Refused(NoHunks)
    else ParseFrom(lines, 0)
  }

  method CountPrefix(lines: seq<string>, prefix: string) returns (count: nat)
    ensures count == Count(lines, prefix)
  {
    count := 0;
    for i := 0 to |lines|
      invariant count == Count(lines[..i], prefix)
    {
      assert lines[..i + 1][..i] == lines[..i];
      if StartsWith(lines[i], prefix) {
        count := count + 1;
      }
    }
    assert lines[..|lines|] == lines;
  }

  /** The inner loop of `_parse_hunk_plans`. */
  method ReadBody(lines: seq<string>, start: nat) returns (i: nat, counts: Counts)
    requires start <= |lines|
    ensures i == start + BodyLength(lines[start..])
    ensures counts == Total(lines[start..][..i - start])
  {
    hide Tally, Plus, Total;
    ghost var rest := lines[start..];
    NothingTotalled(rest);
    i := start;
    var additions, deletions, context := 0, 0, 0;
    while i < |lines|
      invariant start <= i <= |lines| && i - start <= BodyLength(rest)
      invariant Counts(additions, deletions, context) == Total(rest[..i - start])
    {
      assert lines[i] == rest[i - start];
      var ended;
      additions, deletions, context, ended := ReadLine(lines[i], additions, deletions, context);
      if ended {
        break;
      }
      TotalOneMore(rest, i - start);
      i := i + 1;
    }
    counts := Counts(additions, deletions, context);
  }

  lemma {:induction false} NothingTotalled(lines: seq<string>)
    ensures Total(lines[..0]) == Counts(0, 0, 0)
  {
  }

  lemma {:induction false} TotalOneMore(lines: seq<string>, n: nat)
    requires n < |lines| && forall i :: 0 <= i <= n ==> Tally(lines[i]).Some?
    ensures Total(lines[..n + 1]) == Plus(Total(lines[..n]), Tally(lines[n]).value)
  {
    assert lines[..n + 1][..n] == lines[..n];
  }

  /** The branches of the inner loop on one line. */
  method ReadLine(raw: string, additions: nat, deletions: nat, context: nat)
      returns (a: nat, d: nat, c: nat, ended: bool)
    ensures ended <==> Tally(raw).None?
    ensures ended ==> a == additions && d == deletions && c == context
    ensures !ended ==> Counts(a, d, c) == Plus(Counts(additions, deletions, context), Tally(raw).value)
  {
    a, d, c, ended := additions, deletions, context, false;
    if StartsWith(raw, "@@ ") {
      ended := true;
    } else if StartsWith(raw, NO_NEWLINE) {
    } else if raw == "" {
      c := c + 1;
    } else if raw[0] == '+' {
      a := a + 1;
    } else if raw[0] == '-' {
      d := d + 1;
    } else if raw[0] == ' ' {
      c := c + 1;
    } else {
      ended := true;
    }
  }

  /** `_parse_hunk_plans`. */
  method ParseHunkPlans(lines: seq<string>) returns (r: Parsed)
    ensures r == Parse(lines)
    ensures r.Plans? ==> r.hunks != [] && forall k :: 0 <= k < |r.hunks| ==>
      r.hunks[k].index == k && Agrees(r.hunks[k].header, r.hunks[k].counts)
  {
    hide ParseHeader, Total, BodyLength, Count, Agrees;
    var diffs := CountPrefix(lines, "diff --git ");
    var olds := CountPrefix(lines, "--- ");
    var news := CountPrefix(lines, "+++ ");
    if diffs > 1 || olds > 1 || news > 1 {
      return Refused(MultipleFiles);
    }
    var hunks: seq<HunkPlan> := [];
    var i := 0;
    assert lines[0..] == lines;
    while i < |lines|
      invariant 0 <= i <= |lines|
      invariant forall k :: 0 <= k < |hunks| ==> hunks[k].index == k && Agrees(hunks[k].header, hunks[k].counts)
      invariant Prepended(hunks, ParseFrom(lines[i..], |hunks|)) == ParseFrom(lines, 0)
      decreases |lines| - i
    {
      ghost var rest := lines[i..];
      assert rest[1..] == lines[i + 1..];
      var header := ParseHeader(lines[i]);
      if header.None? {
        i := i + 1;
      } else {
        var next, counts := ReadBody(lines, i + 1);
        assert rest[1 + (next - (i + 1))..] == lines[next..];
        if !Agrees(header.value, counts) {
          return Refused(BodyMismatch);
        }
        hunks := hunks + [HunkPlan(|hunks|, header.value, counts)];
        i := next;
      }
    }
    if hunks == [] {
      return Refused(NoHunks);
    }
    return Plans(hunks);
  }

  function Prepended(hunks: seq<HunkPlan>, p: Parsed): Parsed {
    match p
    case Refused(reason) => Refused(reason)
    case Plans(more) => Plans(hunks + more)
  }

  // ---------- Accepted plans ----------

  function SumAdditions(hunks: seq<HunkPlan>): nat {
    if hunks == [] then 0 else SumAdditions(hunks[..|hunks| - 1]) + hunks[|hunks| - 1].counts.additions
  }

  function SumDeletions(hunks: seq<HunkPlan>): nat {
    if hunks == [] then 0 else SumDeletions(hunks[..|hunks| - 1]) + hunks[|hunks| - 1].counts.deletions
  }

  function HeaderSums(hunks: seq<HunkPlan>): (sums: (nat, nat)) {
    if hunks == [] then (0, 0)
    else
      var front := HeaderSums(hunks[..|hunks| - 1]);
      var last := hunks[|hunks| - 1].header;
      (front.0 + last.oldCount, front.1 + last.newCount)
  }

  /** What the patch adds beyond what it deletes is what its headers announce. */
  lemma {:induction false} TotalsMatchHeaders(hunks: seq<HunkPlan>)
    requires forall k :: 0 <= k < |hunks| ==> Agrees(hunks[k].header, hunks[k].counts)
    ensures HeaderSums(hunks).0 + SumAdditions(hunks) == HeaderSums(hunks).1 + SumDeletions(hunks)
  {
    if hunks != [] {
      TotalsMatchHeaders(hunks[..|hunks| - 1]);
    }
  }

  datatype Operation = Modify | Create | Delete

  datatype PatchPlan = PatchPlan(operation: Operation, hunks: seq<HunkPlan>, additions: nat, deletions: nat)

  /** `build_patch_plan` without the risk labels; `fileExists` is what the caller knows, if anything. */
  method BuildPatchPlan(lines: seq<string>, fileExists: Option<bool>) returns (r: Result<PatchPlan>)
    ensures r.Ok? <==> Parse(lines).Plans?
    ensures r.Ok? ==> && r.value.hunks == Parse(lines).hunks
                      && r.value.additions == SumAdditions(r.value.hunks)
                      && r.value.deletions == SumDeletions(r.value.hunks)
                      && HeaderSums(r.value.hunks).0 + r.value.additions
                         == HeaderSums(r.value.hunks).1 + r.value.deletions
    ensures r.Ok? ==> && (r.value.operation.Delete? <==> r.value.additions == 0 && r.value.deletions > 0)
                      && (r.value.operation.Create?
                          <==> fileExists == Some(false) && r.value.additions > 0 && r.value.deletions == 0)
  {
    var parsed := ParseHunkPlans(lines);
    if parsed.Refused? {
      return Err("patch refused");
    }
    var additions, deletions := 0, 0;
    var hunks := parsed.hunks;
    for i := 0 to |hunks|
      invariant additions == SumAdditions(hunks[..i]) && deletions == SumDeletions(hunks[..i])
    {
      assert hunks[..i + 1][..i] == hunks[..i];
      additions := additions + hunks[i].counts.additions;
      deletions := deletions + hunks[i].counts.deletions;
    }
    assert hunks[..|hunks|] == hunks;
    TotalsMatchHeaders(hunks);
    var operation :=
      if fileExists == Some(false) && additions > 0 && deletions == 0 then Create
      else if additions == 0 && deletions > 0 then Delete
      else Modify;
    return Ok(PatchPlan(operation, hunks, additions, deletions));
  }

  // ---------- Rendering ----------

  datatype BodyLine = Added(text: string) | Deleted(text: string) | Context(text: string)

  datatype Hunk = Hunk(oldStart: nat, newStart: nat, body: seq<BodyLine>)

  function RenderLine(line: BodyLine): string {
    match line
    case Added(text) => "+" + text
    case Deleted(text) => "-" + text
    case Context(text) => " " + text
  }

  function RenderBody(body: seq<BodyLine>): (lines: seq<string>)
    ensures |lines| == |body|
    ensures forall i :: 0 <= i < |body| ==> lines[i] == RenderLine(body[i])
  {
    seq(|body|, i requires 0 <= i < |body| => RenderLine(body[i]))
  }

  function CountsOf(body: seq<BodyLine>): Counts {
    if body == [] then Counts(0, 0, 0)
    else
      Plus(CountsOf(body[..|body| - 1]),
           match body[|body| - 1]
           case Added(_) => Counts(1, 0, 0)
           case Deleted(_) => Counts(0, 1, 0)
           case Context(_) => Counts(0, 0, 1))
  }

  /** The header that announces the body. */
  function HeaderOf(hunk: Hunk): Header {
    var c := CountsOf(hunk.body);
    Header(hunk.oldStart, c.deletions + c.context, hunk.newStart, c.additions + c.context)
  }

  function RenderHunks(hunks: seq<Hunk>): seq<string> {
    if hunks == [] then []
    else [RenderHeader(HeaderOf(hunks[0]))] + RenderBody(hunks[0].body) + RenderHunks(hunks[1..])
  }

  function PlansOf(hunks: seq<Hunk>, index: nat): (plans: seq<HunkPlan>)
    ensures |plans| == |hunks|
  {
    if hunks == [] then []
    else [HunkPlan(index, HeaderOf(hunks[0]), CountsOf(hunks[0].body))] + PlansOf(hunks[1..], index + 1)
  }

  lemma {:induction false} RenderedLineTally(line: BodyLine)
    ensures Tally(RenderLine(line))
         == Some(match line
                 case Added(_) => Counts(1, 0, 0)
                 case Deleted(_) => Counts(0, 1, 0)
                 case Context(_) => Counts(0, 0, 1))
  {
    var raw := RenderLine(line);
    assert raw[0] == '+' || raw[0] == '-' || raw[0] == ' ';
    assert |raw| >= 3 ==> raw[..3][0] == raw[0];
    assert |raw| >= |NO_NEWLINE| ==> raw[..|NO_NEWLINE|][0] == raw[0];
    assert NO_NEWLINE[0] == '\\' && "@@ "[0] == '@';
  }

  lemma {:induction false} RenderedTotal(body: seq<BodyLine>)
    ensures forall i :: 0 <= i < |body| ==> Tally(RenderBody(body)[i]).Some?
    ensures Total(RenderBody(body)) == CountsOf(body)
  {
    hide Tally, RenderLine;
    forall i | 0 <= i < |body| ensures Tally(RenderBody(body)[i]).Some? {
      RenderedLineTally(body[i]);
    }
    if body != [] {
      var front := body[..|body| - 1];
      RenderedTotal(front);
      assert RenderBody(body)[..|body| - 1] == RenderBody(front);
      RenderedLineTally(body[|body| - 1]);
    }
  }

  lemma {:induction false} BodyLengthOf(body: seq<string>, rest: seq<string>)
    requires forall i :: 0 <= i < |body| ==> Tally(body[i]).Some?
    requires rest != [] ==> Tally(rest[0]).None?
    ensures BodyLength(body + rest) == |body|
  {
    if body == [] {
      assert body + rest == rest;
    } else {
      assert (body + rest)[1..] == body[1..] + rest;
      BodyLengthOf(body[1..], rest);
    }
  }

  lemma {:induction false} HeaderEndsBody(h: Header)
    ensures Tally(RenderHeader(h)).None?
  {
    assert RenderHeader(h)[..3] == "@@ ";
  }

  lemma {:induction false} HeaderAgrees(hunk: Hunk)
    ensures Agrees(HeaderOf(hunk), CountsOf(hunk.body))
  {
  }

  /** Parsing rendered hunks recovers their starts, counts and order. */
  lemma {:induction false} ParsedBack(hunks: seq<Hunk>, index: nat)
    ensures ParseFrom(RenderHunks(hunks), index) == Plans(PlansOf(hunks, index))
    decreases |hunks|
  {
    hide ParseHeader, Tally, Total, BodyLength, RenderBody, CountsOf, HeaderOf, RenderHeader, Agrees;
    if hunks != [] {
      HeaderAgrees(hunks[0]);
      var header, body, rest := RenderHeader(HeaderOf(hunks[0])), RenderBody(hunks[0].body), RenderHunks(hunks[1..]);
      var lines := RenderHunks(hunks);
      assert lines == [header] + (body + rest);
      assert lines[0] == header && lines[1..] == body + rest;
      HeaderRoundTrip(HeaderOf(hunks[0]));
      RenderedTotal(hunks[0].body);
      if hunks[1..] != [] {
        HeaderEndsBody(HeaderOf(hunks[1]));
        assert rest[0] == RenderHeader(HeaderOf(hunks[1]));
      }
      BodyLengthOf(body, rest);
      assert (body + rest)[..|body|] == body;
      assert lines[1 + |body|..] == rest;
      ParsedBack(hunks[1..], index + 1);
    }
  }

  /**
   Rendering hunks and parsing the lines gives the hunks back exactly when there is a hunk and at
   most one line looks like each of the two file headers; otherwise the patch is refused.
   */
  lemma {:induction false} RoundTripExactly(hunks: seq<Hunk>)
    ensures Parse(RenderHunks(hunks)) == Plans(PlansOf(hunks, 0))
       <==> hunks != [] && Count(RenderHunks(hunks), "--- ") <= 1 && Count(RenderHunks(hunks), "+++ ") <= 1
  {
    ParsedBack(hunks, 0);
    NoDiffHeaders(hunks);
  }

  lemma {:induction false} NoDiffHeaders(hunks: seq<Hunk>)
    ensures Count(RenderHunks(hunks), "diff --git ") == 0
  {
    RenderedStarts(hunks);
    NoneCounted(RenderHunks(hunks));
  }

  predicate StartsLikeHunk(line: string) {
    line != "" && (line[0] == '@' || line[0] == '+' || line[0] == '-' || line[0] == ' ')
  }

  lemma {:induction false} RenderedStarts(hunks: seq<Hunk>)
    ensures forall i :: 0 <= i < |RenderHunks(hunks)| ==> StartsLikeHunk(RenderHunks(hunks)[i])
  {
    if hunks != [] {
      RenderedStarts(hunks[1..]);
    }
  }

  lemma {:induction false} NoneCounted(lines: seq<string>)
    requires forall i :: 0 <= i < |lines| ==> StartsLikeHunk(lines[i])
    ensures Count(lines, "diff --git ") == 0
  {
    if lines != [] {
      NoneCounted(lines[..|lines| - 1]);
      var last, prefix := lines[|lines| - 1], "diff --git ";
      assert StartsLikeHunk(last);
      assert |last| >= |prefix| ==> last[..|prefix|][0] == last[0];
      assert prefix[0] == 'd';
    }
  }
}

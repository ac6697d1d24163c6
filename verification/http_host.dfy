/**
 * Reading the `Host` header out of a peeked plaintext request head, on any bytes:
 * whole, cut, or followed by a body.
 */
module HttpHost {
  import opened Naturals
  import opened Text
  import C = ClientHello

  type Byte = C.Byte
  type Bytes = C.Bytes

  datatype Verdict = Host(name: Bytes) | NoHost | NeedMore | NotHttp

  const LF: Byte := 10
  const CR: Byte := 13
  const COLON: Byte := 58

  // ---------------------------------------------------------------------
  // Bytes
  // ---------------------------------------------------------------------

  predicate IsSpace(c: Byte) { c == 32 || c == 9 || c == LF || c == 12 || c == CR }

  function TrimFront(s: Bytes): Bytes {
    if s != [] && IsSpace(s[0]) then TrimFront(s[1..]) else s
  }

  function TrimBack(s: Bytes): Bytes {
    if s != [] && IsSpace(s[|s| - 1]) then TrimBack(s[..|s| - 1]) else s
  }

  function Trimmed(s: Bytes): Bytes {
    TrimBack(TrimFront(s))
  }

  /** The line without one carriage return at its end. */
  function StripCr(s: Bytes): Bytes {
    if s != [] && s[|s| - 1] == CR then s[..|s| - 1] else s
  }

  /** The first place from `p` on that holds `c`, the length if there is none. */
  function Find(s: Bytes, p: nat, c: Byte): (r: nat)
    requires p <= |s|
    ensures p <= r <= |s| && (r < |s| ==> s[r] == c) && forall i :: p <= i < r ==> s[i] != c
    decreases |s| - p
  {
    if p == |s| || s[p] == c then p else Find(s, p + 1, c)
  }

  /** The line that starts at `p`, without its end. */
  function LineAt(s: Bytes, p: nat): Bytes
    requires p <= |s|
  {
    StripCr(s[p..Find(s, p, LF)])
  }

  predicate SameLetter(c: Byte, letter: char) {
    c as int == letter as int || ('a' <= letter <= 'z' && c as int == letter as int - 32)
  }

  predicate StartsWith(b: Bytes, text: string) {
    |text| <= |b| && forall i :: 0 <= i < |text| ==> b[i] as int == text[i] as int
  }

  /** Four methods are recognised with their space, five by their first four letters. */
  predicate LooksLikeHttp(b: Bytes) {
    || StartsWith(b, "GET ") || StartsWith(b, "POST ") || StartsWith(b, "PUT ") || StartsWith(b, "HEAD ")
    || StartsWith(b, "DELE") || StartsWith(b, "OPTI") || StartsWith(b, "PATC") || StartsWith(b, "TRAC")
    || StartsWith(b, "CONN")
  }

  // ---------------------------------------------------------------------
  // One pass over the lines
  // ---------------------------------------------------------------------

  const HOST: string := "host"

  /** A header name that says host, in any case and with spaces around it. */
  predicate SaysHost(name: Bytes) {
    var t := Trimmed(name);
    |t| == 4 && forall i :: 0 <= i < 4 ==> SameLetter(t[i], HOST[i])
  }

  /** What a Host header with this value answers. */
  function Answer(value: Bytes): Verdict {
    var v := Trimmed(value);
    if v != [] && C.IsUtf8(v) then Host(v) else NoHost
  }

  /** The answer of a line, if it is a Host header. */
  function AnswerOf(line: Bytes): Option<Verdict> {
    var colon := Find(line, 0, COLON);
    if colon < |line| && SaysHost(line[..colon]) then Some(Answer(line[colon + 1..])) else None
  }

  /** The verdict of the lines from `p` on: the first Host header answers, a blank
      line ends the head, and without either more is wanted. */
  function Scan(b: Bytes, p: nat): Verdict
    requires p <= |b|
    decreases |b| - p
  {
    var e := Find(b, p, LF);
    var line := LineAt(b, p);
    if line == [] then (if e < |b| then NoHost else NeedMore)
    else match AnswerOf(line)
      case Some(v) => v
      case None => if e < |b| then Scan(b, e + 1) else NeedMore
  }

  function ParseHttp(b: Bytes): Verdict {
    if LooksLikeHttp(b) then Scan(b, 0) else NotHttp
  }

  // ---------------------------------------------------------------------
  // The two passes of the parser
  // ---------------------------------------------------------------------

  /** Line feed `i` is followed by a blank line. */
  predicate BlankAfter(b: Bytes, i: nat) {
    && i < |b| && b[i] == LF
    && ((i + 1 < |b| && b[i + 1] == LF) || (i + 2 < |b| && b[i + 1] == CR && b[i + 2] == LF))
  }

  ghost predicate FirstBlank(b: Bytes, i: nat) {
    BlankAfter(b, i) && forall j: nat :: j < i ==> !BlankAfter(b, j)
  }

  ghost predicate IsHeadEnd(b: Bytes, r: Option<nat>) {
    match r
    case Some(end) => exists i: nat :: FirstBlank(b, i) && end == i + if b[i + 1] == LF then 2 else 3
    case None => forall i: nat :: !BlankAfter(b, i)
  }

  /** Where the header block ends, if the blank line is there yet. */
  method HeaderBlockEnd(b: Bytes) returns (r: Option<nat>)
    ensures IsHeadEnd(b, r)
  {
    for i := 0 to |b|
      invariant forall j: nat :: j < i ==> !BlankAfter(b, j)
    {
      assert BlankAfter(b, i) ==> FirstBlank(b, i);
      if b[i] == LF {
        if i + 1 < |b| && b[i + 1] == LF {
          return Some(i + 2);
        }
        if i + 2 < |b| && b[i + 1] == CR && b[i + 2] == LF {
          return Some(i + 3);
        }
      }
    }
    return None;
  }

  /** A place where a line starts. */
  predicate LineStart(b: Bytes, p: nat) {
    p == 0 || (p <= |b| && b[p - 1] == LF)
  }

  lemma FirstLineIsNotBlank(b: Bytes)
    requires LooksLikeHttp(b)
    ensures b != [] && b[0] != LF && b[0] != CR
  {
  }

  /** A complete blank line is what the first pass looks for. */
  lemma BlankLinesEndHeads(b: Bytes, p: nat)
    requires LooksLikeHttp(b) && p <= |b| && LineStart(b, p)
    requires var e := Find(b, p, LF); e < |b| && StripCr(b[p..e]) == []
    ensures p > 0 && BlankAfter(b, p - 1)
  {
    FirstLineIsNotBlank(b);
    var e := Find(b, p, LF);
    assert b[p..e] == [] || b[p..e] == [CR] by {
      if b[p..e] != [] {
        assert |b[p..e]| == 1;
      }
    }
    if e > p {
      assert b[p] == b[p..e][0];
    }
  }

  /** In a head cut at its end, each line up to the blank one ends where it did. */
  lemma LinesOfTheHead(b: Bytes, end: nat, p: nat)
    requires p < end <= |b| && b[end - 1] == LF
    ensures Find(b[..end], p, LF) == Find(b, p, LF) < end
    ensures b[..end][p..Find(b, p, LF)] == b[p..Find(b, p, LF)]
  {
  }

  /** What the second pass looks at: the head, or everything while it has no end. */
  function HeadOf(b: Bytes, headEnd: Option<nat>): Bytes
    requires headEnd.Some? ==> headEnd.value <= |b|
  {
    if headEnd.Some? then b[..headEnd.value] else b
  }

  /** The first blank line is the one after line feed `i`, and the head ends with it. */
  ghost predicate EndsAt(b: Bytes, i: nat, end: nat) {
    FirstBlank(b, i) && i < end - 1 <= i + 2 && end <= |b| && b[end - 1] == LF
  }

  /** The second pass stands at the start of a line that is not beyond the blank one. */
  ghost predicate AtLine(b: Bytes, headEnd: Option<nat>, p: nat) {
    && p <= |b| && LineStart(b, p)
    && match headEnd
       case Some(end) => end <= |b| && exists i: nat :: p <= i + 1 && EndsAt(b, i, end)
       case None => forall i: nat :: !BlankAfter(b, i)
  }

  lemma HeadLines(b: Bytes, headEnd: Option<nat>, p: nat)
    requires LooksLikeHttp(b) && AtLine(b, headEnd, p)
    ensures var head, e := HeadOf(b, headEnd), Find(b, p, LF); var line := StripCr(b[p..e]);
      && p <= |head| && Find(head, p, LF) == e <= |head| && head[p..e] == b[p..e]
      && (line == [] ==> (headEnd.Some? <==> e < |b|))
      && (line != [] && e < |head| ==> AtLine(b, headEnd, e + 1))
      && (line != [] ==> (e == |head| <==> e == |b|) && (e == |b| ==> headEnd.None?))
  {
    hide LooksLikeHttp;
    var e := Find(b, p, LF);
    var line := StripCr(b[p..e]);
    if line == [] && e < |b| {
      BlankLinesEndHeads(b, p);
    }
    if headEnd.Some? {
      var end := headEnd.value;
      var i: nat :| p <= i + 1 && EndsAt(b, i, end);
      LinesOfTheHead(b, end, p);
      if p == i + 1 {
        BlankLineIsBlank(b, i);
      } else {
        assert e <= i;
      }
    }
  }

  lemma BlankLineIsBlank(b: Bytes, i: nat)
    requires BlankAfter(b, i)
    ensures var e := Find(b, i + 1, LF); e < |b| && StripCr(b[i + 1..e]) == []
  {
    var e := Find(b, i + 1, LF);
    if b[i + 1] == LF {
      assert e == i + 1;
    } else {
      assert e == i + 2 && b[i + 1..e] == [CR];
    }
  }

  lemma StartsAtLine(b: Bytes, headEnd: Option<nat>)
    requires IsHeadEnd(b, headEnd)
    ensures AtLine(b, headEnd, 0) && (headEnd.Some? ==> headEnd.value <= |b|)
  {
    if headEnd.Some? {
      var i: nat :| FirstBlank(b, i) && headEnd.value == i + if b[i + 1] == LF then 2 else 3;
      assert EndsAt(b, i, headEnd.value);
    }
  }

  lemma ScanLine(b: Bytes, p: nat)
    requires p <= |b|
    ensures var e, line := Find(b, p, LF), LineAt(b, p);
      Scan(b, p) ==
        if line == [] then (if e < |b| then NoHost else NeedMore)
        else if AnswerOf(line).Some? then AnswerOf(line).value
        else if e < |b| then Scan(b, e + 1) else NeedMore
  {
  }

  /** What one round of the second pass finds. */
  lemma OneRound(b: Bytes, headEnd: Option<nat>, p: nat)
    requires LooksLikeHttp(b) && AtLine(b, headEnd, p)
    ensures p <= |b| && (headEnd.Some? ==> headEnd.value <= |b|) && p <= |HeadOf(b, headEnd)|
    ensures var head := HeadOf(b, headEnd); var e, line := Find(head, p, LF), LineAt(head, p);
      if line == [] then Scan(b, p) == Ending(headEnd)
      else if AnswerOf(line).Some? then Scan(b, p) == AnswerOf(line).value
      else if e == |head| then Scan(b, p) == Ending(headEnd)
      else e < |b| && AtLine(b, headEnd, e + 1) && Scan(b, p) == Scan(b, e + 1)
  {
    hide LooksLikeHttp, LineStart, StripCr, Find, HeadOf, Scan, AnswerOf, EndsAt, BlankAfter;
    HeadLines(b, headEnd, p);
    ScanLine(b, p);
  }

  /** The verdict when the second pass finds no Host header. */
  function Ending(headEnd: Option<nat>): Verdict {
    if headEnd.Some? then NoHost else NeedMore
  }

  /** The two passes compute the verdict of one. */
  method ParseHttpHost(b: Bytes) returns (v: Verdict)
    ensures v == ParseHttp(b)
  {
    hide AnswerOf, LooksLikeHttp, IsHeadEnd, LineAt, Find, Scan, AtLine, HeadOf;
    if !LooksLikeHttp(b) {
      return NotHttp;
    }
    var headEnd := HeaderBlockEnd(b);
    StartsAtLine(b, headEnd);
    var head := HeadOf(b, headEnd);
    var p := 0;
    while true
      invariant AtLine(b, headEnd, p) && p <= |b| && Scan(b, p) == Scan(b, 0)
      decreases |b| - p
    {
      OneRound(b, headEnd, p);
      var e := Find(head, p, LF);
      var line := LineAt(head, p);
      if line == [] {
        break;
      }
      var answer := AnswerOf(line);
      if answer.Some? {
        return answer.value;
      }
      if e == |head| {
        break;
      }
      p := e + 1;
    }
    return if headEnd.Some? then NoHost else NeedMore;
  }

  // ---------------------------------------------------------------------
  // Trimming
  // ---------------------------------------------------------------------

  lemma {:induction false} TrimFrontExtends(s: Bytes, c: Byte)
    requires IsSpace(c)
    ensures TrimFront(s + [c]) == if TrimFront(s) == [] then [] else TrimFront(s) + [c]
  {
    if s != [] && IsSpace(s[0]) {
      assert (s + [c])[1..] == s[1..] + [c];
      TrimFrontExtends(s[1..], c);
    } else if s == [] {
      assert [c][1..] == [];
    }
  }

  lemma TrimmingIgnoresCr(s: Bytes)
    ensures Trimmed(StripCr(s)) == Trimmed(s)
  {
    if s != [] && s[|s| - 1] == CR {
      assert s == s[..|s| - 1] + [CR];
      TrimFrontExtends(s[..|s| - 1], CR);
      var t := TrimFront(s[..|s| - 1]);
      assert (t + [CR])[..|t|] == t;
    }
  }

  /** How many spaces a value starts with. */
  function Lead(s: Bytes): (n: nat)
    ensures n <= |s| && TrimFront(s) == s[n..]
  {
    if s != [] && IsSpace(s[0]) then 1 + Lead(s[1..]) else 0
  }

  lemma {:induction false} TrimBackMeaning(s: Bytes)
    ensures var t := TrimBack(s);
      && t <= s && (t != [] ==> !IsSpace(t[|t| - 1])) && forall i :: |t| <= i < |s| ==> IsSpace(s[i])
  {
    if s != [] && IsSpace(s[|s| - 1]) {
      TrimBackMeaning(s[..|s| - 1]);
    }
  }

  lemma {:induction false} LeadMeaning(s: Bytes)
    ensures forall i :: 0 <= i < Lead(s) ==> IsSpace(s[i])
    ensures Lead(s) < |s| ==> !IsSpace(s[Lead(s)])
  {
    if s != [] && IsSpace(s[0]) {
      LeadMeaning(s[1..]);
    }
  }

  lemma {:induction false} LeadOfCut(s: Bytes, n: nat)
    requires n <= |s|
    ensures Lead(s[..n]) == if n < Lead(s) then n else Lead(s)
  {
    if n > 0 && IsSpace(s[0]) {
      assert s[..n][1..] == s[1..][..n - 1];
      LeadOfCut(s[1..], n - 1);
    }
  }

  /** Where the trimmed value ends. */
  function TextEnd(s: Bytes): nat {
    Lead(s) + |Trimmed(s)|
  }

  /** A cut value is trimmed to the whole one's text exactly if it holds all of it. */
  lemma CutValues(s: Bytes, n: nat)
    requires n <= |s| && Trimmed(s) != []
    ensures Trimmed(s[..n]) == Trimmed(s) <==> n >= TextEnd(s)
  {
    hide IsSpace, TrimFront, TrimBack, Lead;
    var lead, t := Lead(s), s[Lead(s)..];
    LeadOfCut(s, n);
    TrimBackMeaning(t);
    if n >= lead {
      var cut := s[..n][lead..];
      assert cut == t[..n - lead];
      TrimBackMeaning(cut);
      if n >= TextEnd(s) {
        SameText(t, n - lead);
      }
    } else {
      assert TrimFront(s[..n]) == [];
      TrimBackMeaning([]);
    }
  }

  lemma SameText(t: Bytes, m: nat)
    requires |TrimBack(t)| <= m <= |t| && TrimBack(t) != []
    ensures TrimBack(t[..m]) == TrimBack(t)
  {
    TrimBackMeaning(t);
    TrimBackMeaning(t[..m]);
    var u, v := TrimBack(t), TrimBack(t[..m]);
    assert t[..m][|u| - 1] == u[|u| - 1];
    assert v != [] ==> t[|v| - 1] == v[|v| - 1];
  }

  // ---------------------------------------------------------------------
  // Every cut of a request head
  // ---------------------------------------------------------------------

  /** The lines from `p` up to `q` are complete, not blank, and no Host header. */
  predicate Plain(s: Bytes, p: nat, q: nat)
    decreases |s| - p
  {
    p <= q <= |s|
    && (p == q || (var e := Find(s, p, LF); e < q && IsPlain(s[p..e]) && Plain(s, e + 1, q)))
  }

  predicate IsPlain(line: Bytes) {
    StripCr(line) != [] && AnswerOf(StripCr(line)) == None
  }

  /** The first Host header stands from `p` to `e`, with its colon at `c`. */
  predicate HostLine(s: Bytes, p: nat, c: nat, e: nat) {
    && LooksLikeHttp(s) && Plain(s, 0, p) && p <= c < e < |s|
    && e == Find(s, p, LF) && c == Find(s, p, COLON) && SaysHost(s[p..c])
  }

  /** The head has no Host header and ends with the blank line from `p` to `e`. */
  predicate BlankLine(s: Bytes, p: nat, e: nat) {
    && LooksLikeHttp(s) && Plain(s, 0, p) && p <= e < |s|
    && e == Find(s, p, LF) && StripCr(s[p..e]) == []
  }

  /** How much of a request line shows its method. */
  function TokenLength(s: Bytes): nat {
    if StartsWith(s, "POST ") || StartsWith(s, "HEAD ") then 5 else 4
  }

  lemma TokensShow(s: Bytes, b: Bytes)
    requires LooksLikeHttp(s) && C.Agree(b, s)
    ensures LooksLikeHttp(b) <==> |b| >= TokenLength(s)
  {
    if |b| >= TokenLength(s) {
      assert forall i :: 0 <= i < TokenLength(s) ==> b[i] == s[i];
      assert LooksLikeHttp(b);
    } else if |b| == 4 {
      assert b[0] == s[0] && b[1] == s[1] && b[2] == s[2] && b[3] == s[3];
      assert !LooksLikeHttp(b);
    }
  }

  lemma PartialLinesArePlain(line: Bytes, n: nat)
    requires n <= |line| && IsPlain(line)
    ensures StripCr(line[..n]) == [] || AnswerOf(StripCr(line[..n])) == None
  {
    var whole, part := StripCr(line), StripCr(line[..n]);
    var c := Find(part, 0, COLON);
    hide SaysHost, Answer;
    if c < |part| {
      assert line[c] == COLON && part[..c] == line[..c];
      assert c < |whole| && whole[..c] == line[..c];
      assert forall i :: 0 <= i < c ==> whole[i] == part[i];
      assert Find(whole, 0, COLON) == c;
    }
  }

  lemma NoColonNoAnswer(s: Bytes, p: nat, c: nat, n: nat)
    requires p <= n <= c <= |s| && c == Find(s, p, COLON)
    ensures AnswerOf(StripCr(s[p..n])) == None
  {
    hide SaysHost, Answer;
  }

  lemma HostLineAnswers(line: Bytes, c: nat)
    requires c < |line| && Find(line, 0, COLON) == c && SaysHost(line[..c])
    ensures StripCr(line) != [] && AnswerOf(StripCr(line)) == Some(Answer(line[c + 1..]))
  {
    hide SaysHost, Trimmed, C.IsUtf8;
    ColonStays(line, c);
    hide StripCr, Find;
    TrimmingIgnoresCr(line[c + 1..]);
  }

  lemma ColonStays(line: Bytes, c: nat)
    requires c < |line| && Find(line, 0, COLON) == c
    ensures var t := StripCr(line);
      c < |t| && Find(t, 0, COLON) == c && t[..c] == line[..c] && t[c + 1..] == StripCr(line[c + 1..])
  {
    var t := StripCr(line);
    assert line[c] == COLON && c < |t|;
    assert forall i :: 0 <= i <= c ==> t[i] == line[i];
  }

  /** Up to the end of the line both read the same. */
  lemma SameLine(s: Bytes, b: Bytes, p: nat, n: nat)
    requires p <= n <= |s| && n <= |b| && C.Agree(b, s) && n <= Find(s, p, LF)
    requires n == |b| || n == Find(s, p, LF) < |s|
    ensures Find(b, p, LF) == n && b[p..n] == s[p..n]
  {
  }

  lemma SliceOfSlice(s: Bytes, i: nat, j: nat, n: nat)
    requires i + n <= j <= |s|
    ensures s[i..j][..n] == s[i..i + n]
  {
  }

  /** A cut that ends inside a plain line wants more. */
  lemma CutInPlainLine(s: Bytes, b: Bytes, p: nat)
    requires p <= |s| && p <= |b| <= Find(s, p, LF) && C.Agree(b, s) && IsPlain(s[p..Find(s, p, LF)])
    ensures Scan(b, p) == NeedMore
  {
    hide AnswerOf, StripCr, Scan, IsPlain;
    var line := s[p..Find(s, p, LF)];
    SameLine(s, b, p, |b|);
    hide Find, C.Agree;
    SliceOfSlice(s, p, Find(s, p, LF), |b| - p);
    PartialLinesArePlain(line, |b| - p);
    ScanLine(b, p);
  }

  /** The verdict from the Host line on. */
  lemma CutInHostLine(s: Bytes, b: Bytes, p: nat, c: nat, e: nat)
    requires p <= c < e < |s| && e == Find(s, p, LF) && c == Find(s, p, COLON) && SaysHost(s[p..c])
    requires p <= |b| && C.Agree(b, s)
    ensures Scan(b, p) == if |b| <= c then NeedMore else Answer(s[c + 1..Min(|b|, e)])
  {
    hide Answer, SaysHost, AnswerOf, Scan;
    var n := Min(|b|, e);
    SameLine(s, b, p, n);
    var line := b[p..n];
    ScanLine(b, p);
    hide C.Agree, Find, StripCr;
    if |b| <= c {
      NoColonNoAnswer(s, p, c, n);
    } else {
      FirstColon(s, p, c, n);
      HostLineAnswers(line, c - p);
    }
  }

  lemma FirstColon(s: Bytes, p: nat, c: nat, n: nat)
    requires p <= c < n <= |s| && c == Find(s, p, COLON)
    ensures Find(s[p..n], 0, COLON) == c - p && s[p..n][..c - p] == s[p..c] && s[p..n][c - p + 1..] == s[c + 1..n]
  {
    var line := s[p..n];
    assert line[c - p] == COLON && forall i :: 0 <= i < c - p ==> line[i] == s[p + i];
  }

  lemma {:induction false} CutScan(s: Bytes, b: Bytes, q: nat, p: nat, c: nat, e: nat)
    requires Plain(s, q, p) && p <= c < e < |s| && e == Find(s, p, LF) && c == Find(s, p, COLON) && SaysHost(s[p..c])
    requires q <= |b| && C.Agree(b, s)
    ensures Scan(b, q) == if |b| <= c then NeedMore else Answer(s[c + 1..Min(|b|, e)])
    decreases p - q
  {
    hide SaysHost, Answer, IsPlain, Scan;
    if q == p {
      CutInHostLine(s, b, p, c, e);
    } else {
      var end := Find(s, q, LF);
      if |b| <= end {
        CutInPlainLine(s, b, q);
      } else {
        PassPlainLine(s, b, q);
        CutScan(s, b, end + 1, p, c, e);
      }
    }
  }

  lemma PassPlainLine(s: Bytes, b: Bytes, p: nat)
    requires p <= |s| && Find(s, p, LF) < |s| && Find(s, p, LF) < |b| && C.Agree(b, s)
    requires IsPlain(s[p..Find(s, p, LF)])
    ensures Scan(b, p) == Scan(b, Find(s, p, LF) + 1)
  {
    hide AnswerOf;
    assert Find(b, p, LF) == Find(s, p, LF);
    assert b[p..Find(s, p, LF)] == s[p..Find(s, p, LF)];
  }

  /**
   * The verdict on every buffer that starts like a request whose first Host header is
   * the line from `p` to `e`, cut anywhere or followed by anything: not HTTP before the
   * method shows, more is wanted up to the colon, and from there on the value so far
   * answers, whether or not the line has ended.
   */
  lemma HostLinesCut(s: Bytes, b: Bytes, p: nat, c: nat, e: nat)
    requires HostLine(s, p, c, e) && C.Agree(b, s)
    ensures ParseHttp(b) ==
      if |b| < TokenLength(s) then NotHttp else if |b| <= c then NeedMore else Answer(s[c + 1..Min(|b|, e)])
  {
    hide LooksLikeHttp, TokenLength, Answer, Scan, Plain, SaysHost;
    TokensShow(s, b);
    CutScan(s, b, 0, p, c, e);
  }

  lemma {:induction false} CutToBlank(s: Bytes, b: Bytes, q: nat, p: nat, e: nat)
    requires Plain(s, q, p) && p <= e < |s| && e == Find(s, p, LF) && StripCr(s[p..e]) == []
    requires q <= |b| && C.Agree(b, s)
    ensures Scan(b, q) == if |b| <= e then NeedMore else NoHost
    decreases p - q
  {
    hide IsPlain, Scan;
    if q == p {
      CutInBlankLine(s, b, p, e);
    } else {
      var end := Find(s, q, LF);
      if |b| <= end {
        CutInPlainLine(s, b, q);
      } else {
        PassPlainLine(s, b, q);
        CutToBlank(s, b, end + 1, p, e);
      }
    }
  }

  lemma CutInBlankLine(s: Bytes, b: Bytes, p: nat, e: nat)
    requires p <= e < |s| && e == Find(s, p, LF) && StripCr(s[p..e]) == [] && p <= |b| && C.Agree(b, s)
    ensures Scan(b, p) == if |b| <= e then NeedMore else NoHost
  {
    hide AnswerOf;
    var n := Min(|b|, e);
    assert Find(b, p, LF) == n && b[p..n] == s[p..n];
    assert s[p..n] == s[p..e][..n - p];
  }

  /** And of a head without a Host header: no host once its blank line is complete. */
  lemma BlankLinesCut(s: Bytes, b: Bytes, p: nat, e: nat)
    requires BlankLine(s, p, e) && C.Agree(b, s)
    ensures ParseHttp(b) == if |b| < TokenLength(s) then NotHttp else if |b| <= e then NeedMore else NoHost
  {
    hide LooksLikeHttp, TokenLength, Scan, Plain;
    TokensShow(s, b);
    CutToBlank(s, b, 0, p, e);
  }

  // ---------------------------------------------------------------------
  // What decides a head
  // ---------------------------------------------------------------------

  lemma {:induction false} PlainGrows(s: Bytes, q: nat, p: nat)
    requires Plain(s, q, p) && p < |s| && Find(s, p, LF) < |s| && IsPlain(s[p..Find(s, p, LF)])
    ensures Plain(s, q, Find(s, p, LF) + 1)
    decreases p - q
  {
    hide IsPlain;
    if q < p {
      PlainGrows(s, Find(s, q, LF) + 1, p);
    }
  }

  lemma LinesUpToTheBlank(s: Bytes, i: nat, p: nat)
    requires BlankAfter(s, i) && p <= i + 1
    ensures Find(s, p, LF) < |s| && (StripCr(s[p..Find(s, p, LF)]) != [] ==> Find(s, p, LF) <= i)
  {
    BlankLineIsBlank(s, i);
  }

  /** Each head that has ended is decided by one of its complete lines. */
  lemma {:induction false} HeadsAreDecided(s: Bytes, i: nat, p: nat) returns (q: nat, c: nat, e: nat)
    requires LooksLikeHttp(s) && BlankAfter(s, i) && p <= i + 1 && LineStart(s, p) && Plain(s, 0, p)
    ensures HostLine(s, q, c, e) || BlankLine(s, q, e)
    decreases |s| - p
  {
    hide LooksLikeHttp, AnswerOf, SaysHost, BlankAfter, StripCr;
    e := Find(s, p, LF);
    LinesUpToTheBlank(s, i, p);
    var line := s[p..e];
    if StripCr(line) == [] {
      return p, 0, e;
    }
    if AnswerOf(StripCr(line)).Some? {
      c := AnsweringColon(s, p, e);
      return p, c, e;
    }
    PlainGrows(s, 0, p);
    q, c, e := HeadsAreDecided(s, i, e + 1);
  }

  lemma StrippedIsPrefix(s: Bytes, p: nat, e: nat)
    requires p <= e <= |s|
    ensures var t := StripCr(s[p..e]); |t| <= e - p && forall j :: 0 <= j < |t| ==> t[j] == s[p + j]
  {
  }

  lemma AnsweringColon(s: Bytes, p: nat, e: nat) returns (c: nat)
    requires p <= |s| && e == Find(s, p, LF) && AnswerOf(StripCr(s[p..e])).Some?
    ensures p <= c < e && c == Find(s, p, COLON) && SaysHost(s[p..c])
  {
    hide SaysHost, Answer, StripCr;
    var t := StripCr(s[p..e]);
    var k := Find(t, 0, COLON);
    c := p + k;
    StrippedIsPrefix(s, p, e);
    assert t[..k] == s[p..c];
    assert forall j :: p <= j < c ==> s[j] == t[j - p];
  }

  lemma BlankStays(b: Bytes, i: nat, end: nat)
    requires BlankAfter(b, i) && i + (if b[i + 1] == LF then 2 else 3) <= end <= |b|
    ensures BlankAfter(b[..end], i)
  {
  }

  /** The body is never read: two buffers with the same head, which has ended, have the
      same verdict, whatever follows. */
  lemma BodiesAreNeverRead(b: Bytes, b': Bytes, end: nat)
    requires IsHeadEnd(b, Some(end)) && end <= |b| && end <= |b'| && b[..end] == b'[..end]
    ensures ParseHttp(b) == ParseHttp(b')
  {
    hide ParseHttp, LooksLikeHttp;
    var i: nat :| FirstBlank(b, i) && end == i + if b[i + 1] == LF then 2 else 3;
    var s := b[..end];
    BlankStays(b, i, end);
    assert C.Agree(b, s) && C.Agree(b', s);
    if LooksLikeHttp(s) {
      MethodsHoldNoBreak(s);
      var q, c, e := HeadsAreDecided(s, i, 0);
      if HostLine(s, q, c, e) {
        HostLinesCut(s, b, q, c, e);
        HostLinesCut(s, b', q, c, e);
      } else {
        BlankLinesCut(s, b, q, e);
        BlankLinesCut(s, b', q, e);
      }
    } else {
      HeadsShowTheMethod(b, i, end);
      HeadsShowTheMethod(b', i, end);
      hide BlankAfter;
      assert ParseHttp(b) == NotHttp == ParseHttp(b') by {
        NotHttpAtAll(b);
        NotHttpAtAll(b');
      }
    }
  }

  lemma NotHttpAtAll(b: Bytes)
    requires !LooksLikeHttp(b)
    ensures ParseHttp(b) == NotHttp
  {
  }

  /** No method holds a line feed. */
  lemma HeadsShowTheMethod(b: Bytes, i: nat, end: nat)
    requires i < end <= |b| && b[..end][i] == LF
    ensures LooksLikeHttp(b) ==> LooksLikeHttp(b[..end])
  {
    hide LooksLikeHttp, TokenLength;
    if LooksLikeHttp(b) {
      MethodsHoldNoBreak(b);
      TokensShow(b, b[..end]);
    }
  }

  // ---------------------------------------------------------------------
  // When the host is the right one
  // ---------------------------------------------------------------------

  /** The host of a request, as its Host line names it. */
  predicate NamesHost(s: Bytes, p: nat, c: nat, e: nat, name: Bytes) {
    HostLine(s, p, c, e) && Trimmed(s[c + 1..e]) == name && name != [] && C.IsUtf8(name)
  }

  /** Where the text of the value ends. */
  function HostEnd(s: Bytes, c: nat, e: nat): nat
    requires c < e <= |s|
  {
    c + 1 + TextEnd(s[c + 1..e])
  }

  lemma {:induction false} PlainEndsLine(s: Bytes, q: nat, p: nat)
    requires Plain(s, q, p) && q < p
    ensures s[p - 1] == LF
    decreases p - q
  {
    hide IsPlain;
    var e := Find(s, q, LF);
    if e + 1 < p {
      PlainEndsLine(s, e + 1, p);
    }
  }

  /** The request line is no Host header, so the method shows before any Host line. */
  lemma MethodsComeFirst(s: Bytes, p: nat, c: nat, e: nat)
    requires HostLine(s, p, c, e)
    ensures TokenLength(s) <= c
  {
    hide LooksLikeHttp, TokenLength, SaysHost, Find;
    if p == 0 {
      MethodsAreNotHost(s, c);
    } else {
      PlainEndsLine(s, 0, p);
      MethodsHoldNoBreak(s);
    }
  }

  lemma MethodsHoldNoBreak(s: Bytes)
    requires LooksLikeHttp(s)
    ensures TokenLength(s) <= |s| && forall j :: 0 <= j < TokenLength(s) ==> s[j] != LF
  {
  }

  lemma MoreIsWanted(s: Bytes, b: Bytes, p: nat, c: nat, e: nat)
    requires HostLine(s, p, c, e) && C.Agree(b, s)
    ensures ParseHttp(b) == NeedMore <==> TokenLength(s) <= |b| <= c
  {
    hide ParseHttp, HostLine, TokenLength, Trimmed;
    HostLinesCut(s, b, p, c, e);
  }

  /** No method says host. */
  lemma MethodsAreNotHost(s: Bytes, c: nat)
    requires LooksLikeHttp(s) && c <= |s|
    ensures !SaysHost(s[..c])
  {
    var name := s[..c];
    if name != [] {
      assert !IsSpace(name[0]);
      TrimBackMeaning(name);
      var t := Trimmed(name);
      if |t| == 4 {
        assert t[0] == s[0] && t[1] == s[1];
        assert !SameLetter(t[0], HOST[0]) || !SameLetter(t[1], HOST[1]);
      }
    }
  }

  /** A buffer answers the host of the request exactly if it holds the whole text of
      the Host header's value. */
  lemma HostsCutExactly(s: Bytes, b: Bytes, p: nat, c: nat, e: nat, name: Bytes)
    requires NamesHost(s, p, c, e, name) && C.Agree(b, s)
    ensures ParseHttp(b) == Host(name) <==> |b| >= HostEnd(s, c, e)
  {
    hide ParseHttp, TokenLength, C.IsUtf8, Trimmed, Lead, Plain, LooksLikeHttp, Find, SaysHost;
    HostLinesCut(s, b, p, c, e);
    MethodsComeFirst(s, p, c, e);
    var value := s[c + 1..e];
    if |b| > c {
      var n := Min(|b|, e) - c - 1;
      SliceOfSlice(s, c + 1, e, n);
      CutValues(value, n);
    }
  }

  /** A buffer that ends inside the value answers another host: what there is of it. */
  lemma HostsAreMisread(s: Bytes, p: nat, c: nat, e: nat, name: Bytes, k: nat) returns (n: nat)
    requires NamesHost(s, p, c, e, name) && 0 < k < |name|
    requires !IsSpace(name[k - 1]) && C.IsUtf8(name[..k])
    ensures c < n < e && ParseHttp(s[..n]) == Host(name[..k])
  {
    hide ParseHttp, TokenLength, C.IsUtf8, Plain, LooksLikeHttp, Find, SaysHost, TrimFront, Trimmed;
    var value := s[c + 1..e];
    var m := Lead(value) + k;
    n := c + 1 + m;
    TextsAreInside(value);
    SliceOfSlice(s, c + 1, e, m);
    TrimmedCut(value, k);
    MethodsComeFirst(s, p, c, e);
    HostLinesCut(s, s[..n], p, c, e);
    assert s[..n][..n] == s[..n];
  }

  lemma TextsAreInside(s: Bytes)
    ensures Lead(s) + |Trimmed(s)| <= |s|
  {
    TrimBackMeaning(s[Lead(s)..]);
  }

  lemma TrimmedCut(s: Bytes, k: nat)
    requires 0 < k <= |Trimmed(s)| && !IsSpace(Trimmed(s)[k - 1])
    ensures Lead(s) + k <= |s| && Trimmed(s[..Lead(s) + k]) == Trimmed(s)[..k]
  {
    hide IsSpace, TrimFront, TrimBack, Lead;
    var lead, t := Lead(s), s[Lead(s)..];
    TextsAreInside(s);
    TrimBackMeaning(t);
    LeadOfCut(s, lead + k);
    assert s[..lead + k][lead..] == t[..k];
    assert Trimmed(s)[..k] == t[..k] && t[..k][k - 1] == Trimmed(s)[k - 1];
    NothingToTrim(t[..k]);
  }

  lemma NothingToTrim(t: Bytes)
    requires t != [] && !IsSpace(t[|t| - 1])
    ensures TrimBack(t) == t
  {
  }
}

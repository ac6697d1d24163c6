/**
 * Reading the server name out of a peeked TLS ClientHello, on any bytes, and the
 * printer it inverts (RFC 8446, section 4.1.2; RFC 6066, section 3).
 */
module ClientHello {
  import opened Naturals
  import opened Text

  type Byte = b: nat | b < 256

  type Bytes = seq<Byte>

  datatype Verdict = Sni(name: Bytes) | NoSni | NeedMore | NotClientHello

  /** Two bytes, most significant first. */
  function U16(b: Bytes, p: nat): nat
    requires p + 2 <= |b|
  {
    b[p] as nat * 256 + b[p + 1] as nat
  }

  function U24(b: Bytes, p: nat): nat
    requires p + 3 <= |b|
  {
    b[p] as nat * 65536 + b[p + 1] as nat * 256 + b[p + 2] as nat
  }

  // ---------------------------------------------------------------------
  // UTF-8
  // ---------------------------------------------------------------------

  predicate Continues(b: Byte) { 0x80 <= b <= 0xBF }

  /** The length of the well-formed sequence at the start of `s`, if there is one
      (RFC 3629, section 4). */
  function Sequence(s: Bytes): (n: nat)
    requires s != []
    ensures n <= 4 && n <= |s|
  {
    var b := s[0];
    if b < 0x80 then 1
    else if |s| >= 2 && 0xC2 <= b <= 0xDF && Continues(s[1]) then 2
    else if |s| >= 3 && 0xE0 <= b <= 0xEF && Continues(s[1]) && Continues(s[2])
      && (b == 0xE0 ==> s[1] >= 0xA0) && (b == 0xED ==> s[1] <= 0x9F) then 3
    else if |s| >= 4 && 0xF0 <= b <= 0xF4 && Continues(s[1]) && Continues(s[2]) && Continues(s[3])
      && (b == 0xF0 ==> s[1] >= 0x90) && (b == 0xF4 ==> s[1] <= 0x8F) then 4
    else 0
  }

  predicate IsUtf8(s: Bytes) {
    s == [] || (Sequence(s) > 0 && IsUtf8(s[Sequence(s)..]))
  }

  lemma {:induction false} AsciiIsUtf8(s: Bytes)
    requires forall i :: 0 <= i < |s| ==> s[i] < 0x80
    ensures IsUtf8(s)
  {
    if s != [] {
      assert Sequence(s) == 1;
      AsciiIsUtf8(s[1..]);
    }
  }

  // ---------------------------------------------------------------------
  // The verdict, as a function of the bytes
  // ---------------------------------------------------------------------

  function HostName(name: Bytes): Verdict {
    if IsUtf8(name) && name != [] then Sni(name) else NoSni
  }

  /** The entries of a ServerNameList from `p` on. */
  function Names(b: Bytes, p: nat, end: nat): Verdict
    requires end <= |b|
    decreases |b| - p
  {
    if p + 3 <= end then
      var len := U16(b, p + 1);
      if p + 3 + len > |b| then NeedMore
      else if b[p] == 0 then HostName(b[p + 3..p + 3 + len])
      else Names(b, p + 3 + len, end)
    else NoSni
  }

  /** The body of a server_name extension. */
  function ServerName(b: Bytes): Verdict {
    if |b| < 2 then NeedMore else Names(b, 2, Min(2 + U16(b, 0), |b|))
  }

  /** The extensions from `p` on, declared to end at `end`. */
  function Extensions(b: Bytes, p: nat, end: nat): Verdict
    decreases |b| - p
  {
    var extEnd := Min(end, |b|);
    if p + 4 <= extEnd then
      var len := U16(b, p + 2);
      if p + 4 + len > |b| then NeedMore
      else if U16(b, p) == 0 then ServerName(b[p + 4..p + 4 + len])
      else Extensions(b, p + 4 + len, end)
    else if extEnd < p then NeedMore
    else NoSni
  }

  /** From the compression methods on; `end` is where the message declares to end. */
  function Compression(b: Bytes, p: nat, end: nat): Verdict {
    var hsEnd := Min(end, |b|);
    if p + 1 > hsEnd then NeedMore
    else
      var q := p + 1 + b[p];
      if q + 2 > hsEnd then (if q <= hsEnd then NoSni else NeedMore)
      else Extensions(b, q + 2, Min(q + 2 + U16(b, q), end))
  }

  function Suites(b: Bytes, p: nat, end: nat): Verdict {
    if p + 2 > Min(end, |b|) then NeedMore else Compression(b, p + 2 + U16(b, p), end)
  }

  function Session(b: Bytes, p: nat, end: nat): Verdict {
    if p > Min(end, |b|) || p >= |b| then NeedMore else Suites(b, p + 1 + b[p], end)
  }

  function ParseTlsSni(b: Bytes): Verdict {
    if |b| < 5 then NeedMore
    else if b[0] != 0x16 then NotClientHello
    else if Min(5 + U16(b, 3), |b|) < 9 then NeedMore
    else if b[5] != 0x01 then NotClientHello
    else Session(b, 43, 9 + U24(b, 6))
  }

  /** The parser: a cursor over the bytes, every access in bounds. */
  method ParseClientHello(b: Bytes) returns (v: Verdict)
    ensures v == ParseTlsSni(b)
  {
    hide U16, U24, Extensions;
    if |b| < 5 {
      return NeedMore;
    }
    if b[0] != 0x16 {
      return NotClientHello;
    }
    var recLen := U16(b, 3);
    var p := 5;
    var end := Min(p + recLen, |b|);
    if end < p + 4 {
      return NeedMore;
    }
    if b[p] != 0x01 {
      return NotClientHello;
    }
    var hsLen := U24(b, p + 1);
    p := p + 4;
    var hsEnd := Min(p + hsLen, |b|);
    p := p + 34;
    if p > hsEnd {
      return NeedMore;
    }
    if p >= |b| {
      return NeedMore;
    }
    p := p + 1 + b[p];
    if p + 2 > hsEnd {
      return NeedMore;
    }
    p := p + 2 + U16(b, p);
    if p + 1 > hsEnd {
      return NeedMore;
    }
    p := p + 1 + b[p];
    if p + 2 > hsEnd {
      return if p <= hsEnd then NoSni else NeedMore;
    }
    var extTotal := U16(b, p);
    p := p + 2;
    v := ParseExtensions(b, p, Min(p + extTotal, hsEnd), Min(p + extTotal, 9 + hsLen));
  }

  /** The extension loop; `declared` is where the block ends whatever is buffered. */
  method ParseExtensions(b: Bytes, start: nat, extEnd: nat, ghost declared: nat) returns (v: Verdict)
    requires extEnd == Min(declared, |b|)
    ensures v == Extensions(b, start, declared)
  {
    var p := start;
    while p + 4 <= extEnd
      invariant Extensions(b, p, declared) == Extensions(b, start, declared)
      decreases |b| - p
    {
      var extType := U16(b, p);
      var extLen := U16(b, p + 2);
      p := p + 4;
      if p + extLen > |b| {
        return NeedMore;
      }
      if extType == 0x0000 {
        v := ParseServerName(b[p..p + extLen]);
        return;
      }
      p := p + extLen;
    }
    return if extEnd < p then NeedMore else NoSni;
  }

  method ParseServerName(b: Bytes) returns (v: Verdict)
    ensures v == ServerName(b)
  {
    if |b| < 2 {
      return NeedMore;
    }
    var p := 2;
    var end := Min(2 + U16(b, 0), |b|);
    while p + 3 <= end
      invariant Names(b, p, end) == ServerName(b)
      decreases |b| - p
    {
      var nameType := b[p];
      var nameLen := U16(b, p + 1);
      p := p + 3;
      if p + nameLen > |b| {
        return NeedMore;
      }
      if nameType == 0x00 {
        return HostName(b[p..p + nameLen]);
      }
      p := p + nameLen;
    }
    return NoSni;
  }

  // ---------------------------------------------------------------------
  // More bytes
  // ---------------------------------------------------------------------

  /** Verdicts that no further byte can change. */
  predicate IsFinal(v: Verdict) {
    v.Sni? || v.NotClientHello?
  }

  lemma MoreBytesReadTheSame(b: Bytes, more: Bytes, p: nat)
    ensures p + 2 <= |b| ==> U16(b + more, p) == U16(b, p)
    ensures p + 3 <= |b| ==> U24(b + more, p) == U24(b, p)
  {
  }

  lemma {:induction false} ExtensionsAreStable(b: Bytes, more: Bytes, p: nat, end: nat)
    requires IsFinal(Extensions(b, p, end)) || (Extensions(b, p, end).NoSni? && end <= |b|)
    ensures Extensions(b + more, p, end) == Extensions(b, p, end)
    decreases |b| - p
  {
    if p + 4 <= Min(end, |b|) {
      MoreBytesReadTheSame(b, more, p);
      MoreBytesReadTheSame(b, more, p + 2);
      var len := U16(b, p + 2);
      hide U16;
      if U16(b, p) == 0 {
        assert (b + more)[p + 4..p + 4 + len] == b[p + 4..p + 4 + len];
      } else {
        ExtensionsAreStable(b, more, p + 4 + len, end);
      }
    }
  }

  /** The verdict can only stand: a name once found, a refusal, or the absence of a
      name in a message that is buffered whole. */
  ghost predicate Stands(b: Bytes) {
    || IsFinal(ParseTlsSni(b))
    || (ParseTlsSni(b).NoSni? && 9 + U24(b, 6) <= |b|)
  }

  lemma CompressionIsStable(b: Bytes, more: Bytes, p: nat, end: nat)
    requires IsFinal(Compression(b, p, end)) || (Compression(b, p, end).NoSni? && end <= |b|)
    ensures Compression(b + more, p, end) == Compression(b, p, end)
  {
    var q := p + 1 + b[p];
    MoreBytesReadTheSame(b, more, q);
    hide U16;
    if q + 2 <= Min(end, |b|) {
      ExtensionsAreStable(b, more, q + 2, Min(q + 2 + U16(b, q), end));
    }
  }

  /**
   * A `Sni` verdict is stable: whatever follows in the buffer, the name stays. So
   * is a refusal, and so is `NoSni` once the whole message is buffered.
   */
  lemma VerdictsStand(b: Bytes, more: Bytes)
    requires Stands(b)
    ensures ParseTlsSni(b + more) == ParseTlsSni(b)
  {
    hide Compression, Extensions;
    MoreBytesReadTheSame(b, more, 3);
    MoreBytesReadTheSame(b, more, 6);
    if |b| >= 9 && b[0] == 0x16 && b[5] == 0x01 {
      var end := 9 + U24(b, 6);
      var p: nat := 44 + b[43] as nat;
      MoreBytesReadTheSame(b, more, p);
      CompressionIsStable(b, more, p + 2 + U16(b, p), end);
    }
  }

  /** No prefix of a buffer yields another name than the buffer does. */
  lemma PrefixesAgree(b: Bytes, k: nat)
    requires k <= |b| && ParseTlsSni(b[..k]).Sni?
    ensures ParseTlsSni(b) == ParseTlsSni(b[..k])
  {
    hide ParseTlsSni;
    VerdictsStand(b[..k], b[k..]);
    assert b[..k] + b[k..] == b;
  }

  // ---------------------------------------------------------------------
  // The printer
  // ---------------------------------------------------------------------

  datatype Extension = Extension(kind: nat, body: Bytes)

  datatype ClientHello = ClientHello(
    recordVersion: Bytes,
    version: Bytes,
    random: Bytes,
    sessionId: Bytes,
    suites: Bytes,
    compression: Bytes,
    extensions: Option<seq<Extension>>)

  function Print16(n: nat): (s: Bytes)
    requires n < 0x1_0000
    ensures |s| == 2
  {
    [n / 256, n % 256]
  }

  function Print24(n: nat): (s: Bytes)
    requires n < 0x100_0000
    ensures |s| == 3
  {
    [n / 65536, n / 256 % 256, n % 256]
  }

  predicate ExtensionsFit(exts: seq<Extension>) {
    forall i :: 0 <= i < |exts| ==> exts[i].kind < 0x1_0000 && |exts[i].body| < 0x1_0000
  }

  function PrintExtensions(exts: seq<Extension>): Bytes
    requires ExtensionsFit(exts)
  {
    if exts == [] then []
    else Print16(exts[0].kind) + Print16(|exts[0].body|) + exts[0].body + PrintExtensions(exts[1..])
  }

  /** The extension block, when the hello has one. */
  function PrintBlock(block: Option<seq<Extension>>): Bytes
    requires block.Some? ==> ExtensionsFit(block.value) && |PrintExtensions(block.value)| < 0x1_0000
  {
    match block
    case None => []
    case Some(exts) => Print16(|PrintExtensions(exts)|) + PrintExtensions(exts)
  }

  /** Where the extension block starts. */
  function BlockStart(h: ClientHello): nat {
    47 + |h.sessionId| + |h.suites| + |h.compression|
  }

  /** Field sizes as the wire format has them; the message fits one record. */
  predicate Fits(h: ClientHello) {
    && |h.recordVersion| == 2 && |h.version| == 2 && |h.random| == 32
    && |h.sessionId| < 256 && |h.suites| < 0x1_0000 && |h.compression| < 256
    && (h.extensions.Some? ==>
          ExtensionsFit(h.extensions.value) && |PrintExtensions(h.extensions.value)| < 0x1_0000)
    && BlockStart(h) + |PrintBlock(h.extensions)| - 5 < 0x1_0000
  }

  function PrintBody(h: ClientHello): Bytes
    requires Fits(h)
  {
    h.version + h.random + [|h.sessionId|] + h.sessionId + Print16(|h.suites|) + h.suites
    + [|h.compression|] + h.compression + PrintBlock(h.extensions)
  }

  function Print(h: ClientHello): Bytes
    requires Fits(h)
  {
    [0x16] + h.recordVersion + Print16(|PrintBody(h)| + 4) + [0x01] + Print24(|PrintBody(h)|) + PrintBody(h)
  }

  // ---------------------------------------------------------------------
  // What the parser makes of a printed hello, whole or cut
  // ---------------------------------------------------------------------

  /** The verdict when `n` bytes of the printed extensions are there. */
  function ExtensionsVerdict(exts: seq<Extension>, n: nat): Verdict {
    if exts == [] || n < 4 then NoSni
    else if n < 4 + |exts[0].body| then NeedMore
    else if exts[0].kind == 0 then ServerName(exts[0].body)
    else ExtensionsVerdict(exts[1..], n - 4 - |exts[0].body|)
  }

  /** The verdict on a buffer of `n` bytes that starts like the printed hello. */
  function VerdictOn(h: ClientHello, n: nat): Verdict {
    if n < BlockStart(h) then NeedMore
    else if h.extensions.None? || n < BlockStart(h) + 2 then NoSni
    else ExtensionsVerdict(h.extensions.value, n - BlockStart(h) - 2)
  }

  /** One buffer starts with the other: it is cut short, or runs on. */
  ghost predicate Agree(b: Bytes, full: Bytes) {
    forall i :: 0 <= i < |b| && i < |full| ==> b[i] == full[i]
  }

  lemma AgreeingReads(b: Bytes, full: Bytes, p: nat)
    requires Agree(b, full)
    ensures p + 2 <= |b| && p + 2 <= |full| ==> U16(b, p) == U16(full, p)
    ensures p + 3 <= |b| && p + 3 <= |full| ==> U24(b, p) == U24(full, p)
  {
  }

  lemma AgreeingSlices(b: Bytes, full: Bytes, p: nat, q: nat)
    requires Agree(b, full) && p <= q <= |b| && q <= |full|
    ensures b[p..q] == full[p..q]
  {
  }

  lemma SuffixSlices(s: Bytes, p: nat, i: nat, j: nat)
    requires p <= |s| && i <= j <= |s| - p
    ensures s[p..][i..j] == s[p + i..p + j] && s[p..][i..] == s[p + i..]
  {
  }

  lemma PrintedFirst(exts: seq<Extension>)
    requires ExtensionsFit(exts) && exts != []
    ensures var s, len := PrintExtensions(exts), |exts[0].body|;
      && |s| >= 4 + len && U16(s, 0) == exts[0].kind && U16(s, 2) == len
      && s[4..4 + len] == exts[0].body && s[4 + len..] == PrintExtensions(exts[1..])
  {
  }

  /** Where a printed extension stands in the buffer. */
  ghost predicate StandsAt(full: Bytes, p: nat, ext: Extension) {
    var len := |ext.body|;
    && p + 4 + len <= |full| && U16(full, p) == ext.kind && U16(full, p + 2) == len
    && full[p + 4..p + 4 + len] == ext.body
  }

  lemma CutFirst(b: Bytes, full: Bytes, p: nat, ext: Extension)
    requires Agree(b, full) && StandsAt(full, p, ext)
    ensures var next := p + 4 + |ext.body|;
      Extensions(b, p, |full|) ==
        if |b| < p then NeedMore
        else if |b| < p + 4 then NoSni
        else if |b| < next then NeedMore
        else if ext.kind == 0 then ServerName(ext.body)
        else Extensions(b, next, |full|)
  {
    AgreeingReads(b, full, p);
    AgreeingReads(b, full, p + 2);
    hide U16, ServerName;
    if p + 4 + |ext.body| <= |b| {
      AgreeingSlices(b, full, p + 4, p + 4 + |ext.body|);
    }
  }

  lemma PrintedStandsAt(full: Bytes, p: nat, exts: seq<Extension>)
    requires p <= |full| && ExtensionsFit(exts) && exts != [] && full[p..] == PrintExtensions(exts)
    ensures StandsAt(full, p, exts[0])
    ensures full[p + 4 + |exts[0].body|..] == PrintExtensions(exts[1..])
  {
  }

  lemma CutNothing(b: Bytes, full: Bytes, p: nat)
    requires p <= |full| && full[p..] == PrintExtensions([])
    ensures Extensions(b, p, |full|) == if |b| < p then NeedMore else ExtensionsVerdict([], |b| - p)
  {
  }

  /** One extension more in front, in terms of the verdicts alone. */
  lemma CutStep(n: nat, p: nat, exts: seq<Extension>, here: Verdict, later: Verdict)
    requires exts != []
    requires var ext, next := exts[0], p + 4 + |exts[0].body|;
      && (here ==
          if n < p then NeedMore else if n < p + 4 then NoSni else if n < next then NeedMore
          else if ext.kind == 0 then ServerName(ext.body) else later)
      && (n >= next ==> later == ExtensionsVerdict(exts[1..], n - next))
    ensures here == if n < p then NeedMore else ExtensionsVerdict(exts, n - p)
  {
  }

  lemma {:induction false} CutExtensions(b: Bytes, full: Bytes, p: nat, exts: seq<Extension>)
    requires Agree(b, full) && p <= |full| && ExtensionsFit(exts) && full[p..] == PrintExtensions(exts)
    ensures Extensions(b, p, |full|) == if |b| < p then NeedMore else ExtensionsVerdict(exts, |b| - p)
    decreases |exts|
  {
    hide Agree, PrintExtensions, Extensions, ServerName, ExtensionsVerdict, StandsAt;
    if exts == [] {
      CutNothing(b, full, p);
    } else {
      PrintedStandsAt(full, p, exts);
      CutFirst(b, full, p, exts[0]);
      var next := p + 4 + |exts[0].body|;
      StandsInside(full, p, exts[0]);
      CutExtensions(b, full, next, exts[1..]);
      CutStep(|b|, p, exts, Extensions(b, p, |full|), Extensions(b, next, |full|));
    }
  }

  lemma StandsInside(full: Bytes, p: nat, ext: Extension)
    requires StandsAt(full, p, ext)
    ensures p + 4 + |ext.body| <= |full|
  {
  }

  lemma PrintedNumbers(n: nat)
    ensures n < 0x1_0000 ==> U16(Print16(n), 0) == n
    ensures n < 0x100_0000 ==> U24(Print24(n), 0) == n
  {
  }

  lemma BodyLayout(h: ClientHello)
    requires Fits(h)
    ensures var s, sid, suites := PrintBody(h), |h.sessionId|, |h.suites|;
      && |s| == BlockStart(h) - 9 + |PrintBlock(h.extensions)|
      && s[34] == sid && U16(s, 35 + sid) == suites && s[37 + sid + suites] == |h.compression|
      && s[BlockStart(h) - 9..] == PrintBlock(h.extensions)
  {
  }

  lemma PrintLayout(h: ClientHello)
    requires Fits(h)
    ensures var s := Print(h);
      && |s| == |PrintBody(h)| + 9 && s[9..] == PrintBody(h)
      && s[0] == 0x16 && U16(s, 3) == |s| - 5 && s[5] == 0x01 && U24(s, 6) == |s| - 9
  {
    BodyLayout(h);
    hide PrintBody;
    PrintedNumbers(|PrintBody(h)|);
    PrintedNumbers(|PrintBody(h)| + 4);
  }

  /** The part of the parser after the compression methods, on such a buffer. */
  lemma CutBlock(b: Bytes, full: Bytes, q: nat, exts: seq<Extension>)
    requires Agree(b, full) && q + 2 <= |full| && q + 2 <= |b|
    requires ExtensionsFit(exts) && |PrintExtensions(exts)| < 0x1_0000 && full[q..] == PrintBlock(Some(exts))
    ensures q + 2 + U16(b, q) == |full|
    ensures Extensions(b, q + 2, |full|) == ExtensionsVerdict(exts, |b| - q - 2)
  {
    hide PrintExtensions, ExtensionsVerdict, Extensions, ExtensionsFit;
    PrintedNumbers(|PrintExtensions(exts)|);
    BlockReads(full, q, Print16(|PrintExtensions(exts)|), PrintExtensions(exts));
    AgreeingReads(b, full, q);
    hide U16, Agree, Print16;
    CutExtensions(b, full, q + 2, exts);
  }

  lemma BlockReads(full: Bytes, q: nat, head: Bytes, rest: Bytes)
    requires q + 2 <= |full| && |head| == 2 && full[q..] == head + rest
    ensures U16(full, q) == U16(head, 0) && full[q + 2..] == rest && |full| == q + 2 + |rest|
  {
  }

  /** The fields before the extension block, at their places in the buffer. */
  ghost predicate HeadAt(h: ClientHello, s: Bytes) {
    var sid, suites := |h.sessionId|, |h.suites|;
    && |s| >= BlockStart(h) && s[0] == 0x16 && U16(s, 3) == |s| - 5 && s[5] == 0x01 && U24(s, 6) == |s| - 9
    && s[43] == sid && U16(s, 44 + sid) == suites && s[46 + sid + suites] == |h.compression|
  }

  lemma PrintHasHead(h: ClientHello)
    requires Fits(h)
    ensures HeadAt(h, Print(h)) && Print(h)[BlockStart(h)..] == PrintBlock(h.extensions)
  {
    PrintLayout(h);
    BodyLayout(h);
    hide Print, PrintBody, PrintBlock, Fits;
    var s, sid, suites, start := Print(h), |h.sessionId|, |h.suites|, BlockStart(h);
    SuffixSlices(s, 9, start - 9, start - 9);
    assert s[43] == s[9..][34] && s[46 + sid + suites] == s[9..][37 + sid + suites];
    assert U16(s, 44 + sid) == U16(s[9..], 35 + sid);
  }

  /** The verdict once the fields before the extension block are known. */
  ghost function FromBlock(b: Bytes, start: nat, end: nat): Verdict {
    if |b| < start then NeedMore
    else if |b| < start + 2 || end < start + 2 then NoSni
    else Extensions(b, start + 2, Min(start + 2 + U16(b, start), end))
  }

  lemma CutSession(h: ClientHello, b: Bytes, full: Bytes)
    requires Agree(b, full) && HeadAt(h, full)
    ensures Session(b, 43, |full|) == FromBlock(b, BlockStart(h), |full|)
  {
  }

  /** Up to the compression methods the parser finds each field, or wants more. */
  lemma CutHead(h: ClientHello, b: Bytes, full: Bytes)
    requires Agree(b, full) && HeadAt(h, full)
    ensures ParseTlsSni(b) == FromBlock(b, BlockStart(h), |full|)
  {
    AgreeingReads(b, full, 3);
    AgreeingReads(b, full, 6);
    CutSession(h, b, full);
    hide U16, U24, Session, Extensions;
  }

  lemma CutWithBlock(b: Bytes, full: Bytes, start: nat, exts: seq<Extension>)
    requires Agree(b, full) && start <= |full|
    requires ExtensionsFit(exts) && |PrintExtensions(exts)| < 0x1_0000 && full[start..] == PrintBlock(Some(exts))
    ensures FromBlock(b, start, |full|) ==
      if |b| < start then NeedMore else if |b| < start + 2 then NoSni else ExtensionsVerdict(exts, |b| - start - 2)
  {
    hide U16, Agree, PrintExtensions, ExtensionsFit, Extensions, ExtensionsVerdict;
    assert |full| >= start + 2;
    if |b| >= start + 2 {
      CutBlock(b, full, start, exts);
    }
  }

  lemma CutWithoutBlock(b: Bytes, start: nat)
    ensures FromBlock(b, start, start) == if |b| < start then NeedMore else NoSni
  {
  }

  /**
   * What the parser says of every buffer that starts like a printed hello, cut
   * anywhere or followed by anything.
   */
  lemma ParsesEveryCut(h: ClientHello, b: Bytes)
    requires Fits(h) && Agree(b, Print(h))
    ensures ParseTlsSni(b) == VerdictOn(h, |b|)
  {
    var full, start := Print(h), BlockStart(h);
    PrintHasHead(h);
    CutHead(h, b, full);
    hide Print, HeadAt, ParseTlsSni, Extensions, ExtensionsVerdict, PrintExtensions, FromBlock, Agree;
    match h.extensions {
      case None =>
        assert |full| == start;
        CutWithoutBlock(b, start);
      case Some(exts) =>
        CutWithBlock(b, full, start, exts);
    }
  }

  // ---------------------------------------------------------------------
  // Server names
  // ---------------------------------------------------------------------

  datatype NameEntry = NameEntry(kind: Byte, name: Bytes)

  predicate NamesFit(entries: seq<NameEntry>) {
    forall i :: 0 <= i < |entries| ==> |entries[i].name| < 0x1_0000
  }

  function PrintNames(entries: seq<NameEntry>): Bytes
    requires NamesFit(entries)
  {
    if entries == [] then []
    else [entries[0].kind] + Print16(|entries[0].name|) + entries[0].name + PrintNames(entries[1..])
  }

  /** The body of a server_name extension. */
  function PrintServerName(entries: seq<NameEntry>): Bytes
    requires NamesFit(entries) && |PrintNames(entries)| < 0x1_0000
  {
    Print16(|PrintNames(entries)|) + PrintNames(entries)
  }

  /** The first host_name of a list. */
  function FirstHost(entries: seq<NameEntry>): Option<Bytes> {
    if entries == [] then None
    else if entries[0].kind == 0 then Some(entries[0].name)
    else FirstHost(entries[1..])
  }

  lemma PrintedFirstName(entries: seq<NameEntry>)
    requires NamesFit(entries) && entries != []
    ensures var s, len := PrintNames(entries), |entries[0].name|;
      && |s| >= 3 + len && s[0] == entries[0].kind && U16(s, 1) == len
      && s[3..3 + len] == entries[0].name && s[3 + len..] == PrintNames(entries[1..])
  {
  }

  /** The first entry as the loop reads it. */
  lemma NamesFirst(b: Bytes, p: nat, entries: seq<NameEntry>)
    requires p <= |b| && NamesFit(entries) && entries != [] && b[p..] == PrintNames(entries)
    ensures var next := p + 3 + |entries[0].name|;
      && next <= |b| && b[next..] == PrintNames(entries[1..])
      && Names(b, p, |b|) == if entries[0].kind == 0 then HostName(entries[0].name) else Names(b, next, |b|)
  {
    PrintedFirstName(entries);
    hide PrintNames, HostName, NamesFit, Names, U16;
    NamesStep(b, p, b[p..], entries[0].kind, entries[0].name, PrintNames(entries[1..]));
  }

  lemma SuffixBytes(b: Bytes, p: nat)
    requires p + 3 <= |b|
    ensures b[p..][0] == b[p] && U16(b[p..], 1) == U16(b, p + 1)
  {
  }

  lemma NamesStep(b: Bytes, p: nat, s: Bytes, kind: Byte, name: Bytes, rest: Bytes)
    requires p <= |b| && s == b[p..] && |s| >= 3 + |name| && s[0] == kind && U16(s, 1) == |name|
    requires s[3..3 + |name|] == name && s[3 + |name|..] == rest
    ensures var next := p + 3 + |name|;
      && next <= |b| && b[next..] == rest
      && Names(b, p, |b|) == if kind == 0 then HostName(name) else Names(b, next, |b|)
  {
    SuffixBytes(b, p);
    SuffixSlices(b, p, 3, 3 + |name|);
    SuffixSlices(b, p, 3 + |name|, 3 + |name|);
    hide U16, HostName;
  }

  lemma NamesNothing(b: Bytes, p: nat)
    requires p <= |b| && b[p..] == PrintNames([])
    ensures Names(b, p, |b|) == NoSni
  {
  }

  lemma {:induction false} NamesRoundTrip(b: Bytes, p: nat, entries: seq<NameEntry>)
    requires p <= |b| && NamesFit(entries) && b[p..] == PrintNames(entries)
    ensures Names(b, p, |b|) ==
      match FirstHost(entries) case Some(name) => HostName(name) case None => NoSni
    decreases |entries|
  {
    hide PrintNames, HostName, Names;
    if entries == [] {
      NamesNothing(b, p);
    } else {
      NamesFirst(b, p, entries);
      if entries[0].kind != 0 {
        NamesRoundTrip(b, p + 3 + |entries[0].name|, entries[1..]);
      }
    }
  }

  /** Parsing a printed server_name list yields its first host_name, if that is
      non-empty UTF-8. */
  lemma ServerNameRoundTrip(entries: seq<NameEntry>)
    requires NamesFit(entries) && |PrintNames(entries)| < 0x1_0000
    ensures ServerName(PrintServerName(entries)) ==
      match FirstHost(entries) case Some(name) => HostName(name) case None => NoSni
  {
    var names := PrintNames(entries);
    var b := PrintServerName(entries);
    PrintedNumbers(|names|);
    BlockReads(b, 0, Print16(|names|), names);
    hide U16, Print16, PrintNames;
    NamesRoundTrip(b, 2, entries);
  }

  // ---------------------------------------------------------------------
  // Round trip and truncation
  // ---------------------------------------------------------------------

  /** `exts[i]` is the first server_name extension. */
  ghost predicate FirstServerName(exts: seq<Extension>, i: nat) {
    i < |exts| && exts[i].kind == 0 && forall j :: 0 <= j < i ==> exts[j].kind != 0
  }

  /** Where extension `j` starts among the printed ones. */
  function Offset(exts: seq<Extension>, j: nat): nat
    requires j <= |exts|
  {
    if j == 0 then 0 else 4 + |exts[0].body| + Offset(exts[1..], j - 1)
  }

  /** The buffer ends at or inside the header of an extension up to the `i`-th. */
  ghost predicate EndsInHeader(exts: seq<Extension>, i: nat, n: nat)
    requires i < |exts|
  {
    exists j :: 0 <= j <= i && Offset(exts, j) <= n < Offset(exts, j) + 4
  }

  lemma {:induction false} CutAmongExtensions(exts: seq<Extension>, i: nat, n: nat)
    requires FirstServerName(exts, i) && ServerName(exts[i].body).Sni?
    ensures ExtensionsVerdict(exts, n) ==
      if EndsInHeader(exts, i, n) then NoSni
      else if n < Offset(exts, i) + 4 + |exts[i].body| then NeedMore
      else ServerName(exts[i].body)
    decreases |exts|
  {
    hide ServerName;
    if n < 4 {
      assert Offset(exts, 0) <= n < Offset(exts, 0) + 4;
    } else if i == 0 {
      assert Offset(exts, 0) == 0;
    } else {
      var rest, size := exts[1..], 4 + |exts[0].body|;
      assert forall j :: 0 < j <= |exts| ==> Offset(exts, j) == size + Offset(rest, j - 1);
      if n >= size {
        CutAmongExtensions(rest, i - 1, n - size);
        HeadersShift(exts, i, n);
      } else {
        assert !EndsInHeader(exts, i, n);
      }
    }
  }

  lemma HeadersShift(exts: seq<Extension>, i: nat, n: nat)
    requires 0 < i < |exts| && n >= 4 + |exts[0].body|
    ensures EndsInHeader(exts, i, n) <==> EndsInHeader(exts[1..], i - 1, n - 4 - |exts[0].body|)
  {
    var rest, size := exts[1..], 4 + |exts[0].body|;
    if EndsInHeader(exts, i, n) {
      var j :| 0 <= j <= i && Offset(exts, j) <= n < Offset(exts, j) + 4;
      assert Offset(rest, j - 1) <= n - size < Offset(rest, j - 1) + 4;
    }
    if EndsInHeader(rest, i - 1, n - size) {
      var j :| 0 <= j <= i - 1 && Offset(rest, j) <= n - size < Offset(rest, j) + 4;
      assert Offset(exts, j + 1) == size + Offset(rest, j);
    }
  }

  /** A hello that names `name`: its first server_name extension holds a list whose
      first host_name is `name`, non-empty UTF-8. */
  ghost predicate NamesHost(h: ClientHello, i: nat, entries: seq<NameEntry>, name: Bytes) {
    && h.extensions.Some? && FirstServerName(h.extensions.value, i)
    && NamesFit(entries) && |PrintNames(entries)| < 0x1_0000
    && h.extensions.value[i].body == PrintServerName(entries)
    && FirstHost(entries) == Some(name) && name != [] && IsUtf8(name)
  }

  /** Where the first server_name extension ends in the printed hello. */
  function NameEnd(h: ClientHello, i: nat): nat
    requires h.extensions.Some? && i < |h.extensions.value|
  {
    BlockStart(h) + 2 + Offset(h.extensions.value, i) + 4 + |h.extensions.value[i].body|
  }

  /** A buffer of `n` bytes ends in the extension length, or at or inside the header
      of an extension up to the server_name's. */
  ghost predicate Misses(h: ClientHello, i: nat, n: nat)
    requires h.extensions.Some? && i < |h.extensions.value|
  {
    var block := BlockStart(h) + 2;
    block - 2 <= n < block || (n >= block && EndsInHeader(h.extensions.value, i, n - block))
  }

  /**
   * Every buffer that starts like a hello naming `name`: ending in the extension
   * length or in an extension header it is taken to have no name; ending anywhere
   * else before the end of the server_name extension, more is wanted; from there
   * on the name is found, whatever follows.
   */
  lemma NamedHellosCut(h: ClientHello, b: Bytes, i: nat, entries: seq<NameEntry>, name: Bytes)
    requires Fits(h) && Agree(b, Print(h)) && NamesHost(h, i, entries, name)
    ensures ParseTlsSni(b) ==
      if Misses(h, i, |b|) then NoSni else if |b| < NameEnd(h, i) then NeedMore else Sni(name)
  {
    hide ParseTlsSni, Print, ExtensionsVerdict, ServerName, Fits, Agree, EndsInHeader, BlockStart, Offset,
      FirstServerName, NamesHost;
    ParsesEveryCut(h, b);
    NamedServer(h, i, entries, name);
    if |b| >= BlockStart(h) + 2 {
      CutAmongExtensions(h.extensions.value, i, |b| - BlockStart(h) - 2);
    }
  }

  lemma NamedServer(h: ClientHello, i: nat, entries: seq<NameEntry>, name: Bytes)
    requires NamesHost(h, i, entries, name)
    ensures h.extensions.Some? && FirstServerName(h.extensions.value, i) && i < |h.extensions.value|
    ensures ServerName(h.extensions.value[i].body) == Sni(name)
  {
    ServerNameRoundTrip(entries);
    hide PrintServerName, ServerName, PrintNames, IsUtf8, NamesFit, FirstHost;
  }

  lemma {:induction false} OffsetsGrow(exts: seq<Extension>, i: nat, j: nat)
    requires j <= i < |exts|
    ensures Offset(exts, j) + 4 <= Offset(exts, i) + 4 + |exts[i].body|
  {
    if j > 0 {
      OffsetsGrow(exts[1..], i - 1, j - 1);
    }
  }

  lemma {:induction false} PrintedSize(exts: seq<Extension>, i: nat)
    requires ExtensionsFit(exts) && i < |exts|
    ensures Offset(exts, i) + 4 + |exts[i].body| <= |PrintExtensions(exts)|
  {
    PrintedFirst(exts);
    if i > 0 {
      PrintedSize(exts[1..], i - 1);
    }
  }

  lemma NameIsInside(h: ClientHello, i: nat)
    requires Fits(h) && h.extensions.Some? && i < |h.extensions.value|
    ensures NameEnd(h, i) <= |Print(h)|
  {
    PrintHasHead(h);
    PrintedSize(h.extensions.value, i);
    hide PrintExtensions, Offset, HeadAt;
    var s := Print(h);
    hide Print;
    assert |s[BlockStart(h)..]| == 2 + |PrintExtensions(h.extensions.value)|;
  }

  lemma NothingMissedAfter(h: ClientHello, i: nat, n: nat)
    requires h.extensions.Some? && i < |h.extensions.value| && n >= NameEnd(h, i)
    ensures !Misses(h, i, n)
  {
    forall j | 0 <= j <= i
      ensures Offset(h.extensions.value, j) + 4 <= Offset(h.extensions.value, i) + 4 + |h.extensions.value[i].body|
    {
      OffsetsGrow(h.extensions.value, i, j);
    }
  }

  lemma PrintAgrees(h: ClientHello, trailing: Bytes, n: nat)
    requires Fits(h) && n <= |Print(h) + trailing|
    ensures Agree((Print(h) + trailing)[..n], Print(h))
  {
  }

  /** Parsing a printed hello yields its name, whatever follows in the buffer. */
  lemma RoundTrip(h: ClientHello, i: nat, entries: seq<NameEntry>, name: Bytes, trailing: Bytes)
    requires Fits(h) && NamesHost(h, i, entries, name)
    ensures ParseTlsSni(Print(h) + trailing) == Sni(name)
  {
    var b := Print(h) + trailing;
    NameIsInside(h, i);
    PrintAgrees(h, trailing, |b|);
    assert b[..|b|] == b;
    hide Print, NameEnd, Misses, Agree;
    NothingMissedAfter(h, i, |b|);
    NamedHellosCut(h, b, i, entries, name);
  }
}

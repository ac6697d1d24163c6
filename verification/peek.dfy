/**
 * Classifying a connection whose first bytes arrive in pieces: the peek loop over the
 * ClientHello and the HTTP parsers, and when it finds the right name.
 */
module Peek {
  import opened Text
  import T = ClientHello
  import H = HttpHost

  type Bytes = T.Bytes

  /** What the first bytes of a connection are, with the name to route by. */
  datatype Inbound = Tls(sni: Option<Bytes>) | Http(host: Option<Bytes>) | Unknown

  const MAX_PEEK: nat := 8 * 1024
  const HANDSHAKE: T.Byte := 0x16

  /** What one window decides; nothing, if more is wanted. */
  function Decision(isTls: bool, b: Bytes): Option<Inbound> {
    if isTls then
      match T.ParseTlsSni(b)
      case Sni(name) => Some(Tls(Some(name)))
      case NeedMore => None
      case _ => Some(Tls(None))
    else
      match H.ParseHttp(b)
      case Host(name) => Some(Http(Some(name)))
      case NoHost => Some(Http(None))
      case NeedMore => None
      case NotHttp => Some(Unknown)
  }

  function Stalled(isTls: bool): Inbound {
    if isTls then Tls(None) else Http(None)
  }

  /** The peeks that see something: each the first so many bytes of the stream. */
  predicate AreSeen(stream: Bytes, seen: seq<nat>) {
    forall k :: 0 <= k < |seen| ==> 1 <= seen[k] <= |stream|
  }

  function Continued(stream: Bytes, isTls: bool, seen: seq<nat>): Inbound
    requires AreSeen(stream, seen)
  {
    if seen == [] then Stalled(isTls)
    else
      match Decision(isTls, stream[..seen[0]])
      case Some(inbound) => inbound
      case None => if seen[0] < MAX_PEEK then Continued(stream, isTls, seen[1..]) else Stalled(isTls)
  }

  /** What a stream is taken for of which the first `seen[0]`, `seen[1]`, ... bytes were
      seen, one peek after the other, before it stalled. */
  function Classified(stream: Bytes, seen: seq<nat>): Inbound
    requires AreSeen(stream, seen)
  {
    if seen == [] then Unknown
    else
      assert 1 <= seen[0] <= |stream|;
      Continued(stream, stream[0] == HANDSHAKE, seen)
  }

  /** The peek loop. */
  method Classify(stream: Bytes, seen: seq<nat>) returns (r: Inbound)
    requires AreSeen(stream, seen)
    ensures r == Classified(stream, seen)
  {
    if seen == [] {
      return Unknown;
    }
    assert 1 <= seen[0] <= |stream|;
    var isTls := stream[0] == HANDSHAKE;
    var i := 0;
    while i < |seen|
      invariant i <= |seen|
      invariant Continued(stream, isTls, seen[i..]) == Continued(stream, isTls, seen)
    {
      var window := stream[..seen[i]];
      if isTls {
        var v := T.ParseClientHello(window);
        match v {
          case Sni(name) => return Tls(Some(name));
          case NoSni => return Tls(None);
          case NotClientHello => return Tls(None);
          case NeedMore =>
        }
      } else {
        var v := H.ParseHttpHost(window);
        match v {
          case Host(name) => return Http(Some(name));
          case NoHost => return Http(None);
          case NotHttp => return Unknown;
          case NeedMore =>
        }
      }
      if seen[i] >= MAX_PEEK {
        return Stalled(isTls);
      }
      assert seen[i..][1..] == seen[i + 1..];
      i := i + 1;
    }
    return Stalled(isTls);
  }

  lemma ContinuedPeek(stream: Bytes, isTls: bool, seen: seq<nat>)
    requires AreSeen(stream, seen)
    ensures Continued(stream, isTls, seen) ==
      if seen == [] then Stalled(isTls)
      else if Decision(isTls, stream[..seen[0]]).Some? then Decision(isTls, stream[..seen[0]]).value
      else if seen[0] < MAX_PEEK then Continued(stream, isTls, seen[1..]) else Stalled(isTls)
  {
    hide Decision;
  }

  // ---------------------------------------------------------------------
  // A ClientHello in pieces
  // ---------------------------------------------------------------------

  /** Some peek reaches the end of the name, and none before it ends in a header
      or fills the window. */
  ghost predicate SeenInTime(h: T.ClientHello, i: nat, seen: seq<nat>)
    requires h.extensions.Some? && i < |h.extensions.value|
  {
    exists k :: 0 <= k < |seen| && seen[k] >= T.NameEnd(h, i)
      && forall j :: 0 <= j < k ==> seen[j] < MAX_PEEK && !T.Misses(h, i, seen[j])
  }

  lemma SeenLater(h: T.ClientHello, i: nat, seen: seq<nat>)
    requires h.extensions.Some? && i < |h.extensions.value| && seen != []
    requires seen[0] < T.NameEnd(h, i)
    ensures SeenInTime(h, i, seen) <==>
      seen[0] < MAX_PEEK && !T.Misses(h, i, seen[0]) && SeenInTime(h, i, seen[1..])
  {
  }

  lemma {:induction false} HelloContinued(
    h: T.ClientHello, i: nat, entries: seq<T.NameEntry>, name: Bytes, trailing: Bytes, seen: seq<nat>)
    requires T.Fits(h) && T.NamesHost(h, i, entries, name) && AreSeen(T.Print(h) + trailing, seen)
    ensures Continued(T.Print(h) + trailing, true, seen) == Tls(if SeenInTime(h, i, seen) then Some(name) else None)
    decreases |seen|
  {
    hide T.Print, Decision, T.Fits, T.NamesHost, Continued, SeenInTime, T.NameEnd, T.Misses;
    T.NamedServer(h, i, entries, name);
    var stream := T.Print(h) + trailing;
    ContinuedPeek(stream, true, seen);
    if seen != [] {
      HelloDecision(h, i, entries, name, trailing, seen[0]);
      HelloContinued(h, i, entries, name, trailing, seen[1..]);
      if seen[0] >= T.NameEnd(h, i) {
        T.NothingMissedAfter(h, i, seen[0]);
        SeenFirst(h, i, seen);
      } else {
        SeenLater(h, i, seen);
      }
    } else {
      NeverSeen(h, i);
    }
  }

  lemma NeverSeen(h: T.ClientHello, i: nat)
    requires h.extensions.Some? && i < |h.extensions.value|
    ensures !SeenInTime(h, i, [])
  {
  }

  lemma SeenFirst(h: T.ClientHello, i: nat, seen: seq<nat>)
    requires h.extensions.Some? && i < |h.extensions.value| && seen != [] && seen[0] >= T.NameEnd(h, i)
    ensures SeenInTime(h, i, seen)
  {
  }

  lemma HelloDecision(
    h: T.ClientHello, i: nat, entries: seq<T.NameEntry>, name: Bytes, trailing: Bytes, n: nat)
    requires T.Fits(h) && T.NamesHost(h, i, entries, name) && n <= |T.Print(h) + trailing|
    ensures Decision(true, (T.Print(h) + trailing)[..n]) ==
      if T.Misses(h, i, n) then Some(Tls(None)) else if n < T.NameEnd(h, i) then None else Some(Tls(Some(name)))
  {
    hide T.Print, T.Misses, T.NameEnd, T.ParseTlsSni, T.NamesHost, T.Fits, T.Agree;
    T.PrintAgrees(h, trailing, n);
    T.NamedHellosCut(h, (T.Print(h) + trailing)[..n], i, entries, name);
  }

  /**
   * A hello that names a host is classified under that name if and only if the
   * peeks reach the end of the server_name extension before one of them ends in
   * the extension length or an extension header, or fills the window. Otherwise
   * the connection has no name at all: never another one.
   */
  lemma ClassifiedUnlessCut(
    h: T.ClientHello, i: nat, entries: seq<T.NameEntry>, name: Bytes, trailing: Bytes, seen: seq<nat>)
    requires T.Fits(h) && T.NamesHost(h, i, entries, name) && AreSeen(T.Print(h) + trailing, seen) && seen != []
    ensures Classified(T.Print(h) + trailing, seen) == Tls(if SeenInTime(h, i, seen) then Some(name) else None)
  {
    HelloContinued(h, i, entries, name, trailing, seen);
    StartsAsHandshake(h);
  }

  lemma StartsAsHandshake(h: T.ClientHello)
    requires T.Fits(h)
    ensures T.Print(h) != [] && T.Print(h)[0] == HANDSHAKE
  {
    T.PrintHasHead(h);
  }

  /** Every hello that names a host has a cut that loses the name: the one before
      the extension length. */
  lemma EveryNameCanBeMissed(h: T.ClientHello, i: nat, entries: seq<T.NameEntry>, name: Bytes, later: seq<nat>)
    requires T.Fits(h) && T.NamesHost(h, i, entries, name) && AreSeen(T.Print(h), later)
    ensures 0 < T.BlockStart(h) < |T.Print(h)| && Classified(T.Print(h), [T.BlockStart(h)] + later) == Tls(None)
  {
    T.NameIsInside(h, i);
    var full := T.Print(h);
    assert full + [] == full;
    T.PrintAgrees(h, [], T.BlockStart(h));
    StartsAsHandshake(h);
    hide T.Print, T.Agree;
    T.NamedHellosCut(h, full[..T.BlockStart(h)], i, entries, name);
  }

  // ---------------------------------------------------------------------
  // A request head in pieces
  // ---------------------------------------------------------------------

  /** Some peek holds the whole host, and each before it shows the method, ends before
      the value starts, and does not fill the window. */
  ghost predicate HostSeenInTime(s: Bytes, c: nat, e: nat, seen: seq<nat>)
    requires c < e <= |s|
  {
    exists k :: 0 <= k < |seen| && seen[k] >= H.HostEnd(s, c, e)
      && forall j :: 0 <= j < k ==> H.TokenLength(s) <= seen[j] <= c && seen[j] < MAX_PEEK
  }

  lemma HostSeenFirst(s: Bytes, c: nat, e: nat, seen: seq<nat>)
    requires c < e <= |s| && seen != [] && seen[0] >= H.HostEnd(s, c, e)
    ensures HostSeenInTime(s, c, e, seen)
  {
  }

  lemma HostSeenLater(s: Bytes, c: nat, e: nat, seen: seq<nat>)
    requires c < e <= |s| && seen != [] && seen[0] < H.HostEnd(s, c, e)
    ensures HostSeenInTime(s, c, e, seen) <==>
      H.TokenLength(s) <= seen[0] <= c && seen[0] < MAX_PEEK && HostSeenInTime(s, c, e, seen[1..])
  {
  }

  lemma {:induction false} RequestContinued(
    stream: Bytes, p: nat, c: nat, e: nat, name: Bytes, seen: seq<nat>)
    requires H.NamesHost(stream, p, c, e, name) && AreSeen(stream, seen)
    ensures Continued(stream, false, seen) == Http(Some(name)) <==> HostSeenInTime(stream, c, e, seen)
    decreases |seen|
  {
    hide Decision, H.NamesHost, Continued, HostSeenInTime, H.HostEnd, H.TokenLength;
    NamesHostBounds(stream, p, c, e, name);
    ContinuedPeek(stream, false, seen);
    if seen != [] {
      RequestDecision(stream, p, c, e, name, seen[0]);
      if seen[0] >= H.HostEnd(stream, c, e) {
        HostSeenFirst(stream, c, e, seen);
      } else {
        HostSeenLater(stream, c, e, seen);
        RequestContinued(stream, p, c, e, name, seen[1..]);
      }
    } else {
      HostNeverSeen(stream, c, e);
    }
  }

  lemma HostNeverSeen(s: Bytes, c: nat, e: nat)
    requires c < e <= |s|
    ensures !HostSeenInTime(s, c, e, [])
  {
  }

  lemma NamesHostBounds(s: Bytes, p: nat, c: nat, e: nat, name: Bytes)
    requires H.NamesHost(s, p, c, e, name)
    ensures c < e < |s|
  {
  }

  lemma RequestDecision(stream: Bytes, p: nat, c: nat, e: nat, name: Bytes, n: nat)
    requires H.NamesHost(stream, p, c, e, name) && n <= |stream|
    ensures var decision := Decision(false, stream[..n]);
      && (decision == Some(Http(Some(name))) <==> n >= H.HostEnd(stream, c, e))
      && (decision == None <==> H.TokenLength(stream) <= n <= c)
  {
    H.HostsCutExactly(stream, stream[..n], p, c, e, name);
    hide H.ParseHttp, H.HostEnd, H.TokenLength, H.HostLine, H.Trimmed, T.IsUtf8;
    H.MoreIsWanted(stream, stream[..n], p, c, e);
  }

  /**
   * A request with a Host header is classified under its host if and only if some peek
   * holds the whole host and each before it shows the method, ends before the value
   * starts, and does not fill the window.
   */
  lemma RequestsAreClassifiedUnlessCut(
    stream: Bytes, p: nat, c: nat, e: nat, name: Bytes, seen: seq<nat>)
    requires H.NamesHost(stream, p, c, e, name) && AreSeen(stream, seen)
    ensures Classified(stream, seen) == Http(Some(name)) <==> HostSeenInTime(stream, c, e, seen)
  {
    RequestContinued(stream, p, c, e, name, seen);
    RequestsAreNoHandshake(stream);
  }

  lemma RequestsAreNoHandshake(s: Bytes)
    requires H.LooksLikeHttp(s)
    ensures s != [] && s[0] != HANDSHAKE
  {
  }

  /** Every request whose host has a proper prefix can be classified under that prefix:
      a peek that ends inside the value is taken for the whole header. */
  lemma HostsCanBeMistaken(stream: Bytes, p: nat, c: nat, e: nat, name: Bytes, k: nat, later: seq<nat>)
    returns (n: nat)
    requires H.NamesHost(stream, p, c, e, name) && 0 < k < |name| && AreSeen(stream, later)
    requires !H.IsSpace(name[k - 1]) && T.IsUtf8(name[..k])
    ensures c < n < e <= |stream| && Classified(stream, [n] + later) == Http(Some(name[..k]))
  {
    n := H.HostsAreMisread(stream, p, c, e, name, k);
    RequestsAreNoHandshake(stream);
    hide H.ParseHttp, H.LooksLikeHttp;
    assert ([n] + later)[0] == n;
  }
}

/** Parsing inverts the assembly of a URL, and exactly when it inverts the re-assembly. */
module UrlLaws {
  import opened Decimals
  import opened Results
  import opened Words
  import opened Url

  // ---- decimal ports

  function DigitChar(d: nat): char
    requires d < 10
  {
    '0' + d as char
  }

  function Decimal(n: nat): (s: string)
    ensures s != "" && AllDigits(s)
  {
    if n < 10 then [DigitChar(n)] else Decimal(n / 10) + [DigitChar(n % 10)]
  }

  lemma {:induction false} DigitsSnoc(s: string, d: nat, acc: nat)
    requires AllDigits(s) && d < 10
    ensures Digits(s + [DigitChar(d)], acc) == 10 * Digits(s, acc) + d
    decreases |s|
  {
    var t := s + [DigitChar(d)];
    if s == "" {
      assert t[1..] == "";
      assert (DigitChar(d) - '0') as int == d;
    } else {
      assert t[1..] == s[1..] + [DigitChar(d)];
      DigitsSnoc(s[1..], d, 10 * acc + (s[0] - '0') as int);
    }
  }

  lemma {:induction false} DigitsOfDecimal(n: nat)
    ensures Digits(Decimal(n), 0) == n
  {
    if n < 10 {
      DigitsSnoc("", n, 0);
      assert "" + [DigitChar(n)] == Decimal(n);
    } else {
      DigitsOfDecimal(n / 10);
      DigitsSnoc(Decimal(n / 10), n % 10, 0);
    }
  }

  lemma AtoiDecimal(n: nat)
    ensures Atoi(Decimal(n)) == n
  {
    DigitsOfDecimal(n);
    assert IsDigit(Decimal(n)[0]);
  }

  /** `atoi`: leading spaces, one sign, the digits, and nothing of what follows them. */
  lemma {:induction false} AtoiOf(spaces: string, sign: string, n: nat, rest: string)
    requires (forall i :: 0 <= i < |spaces| ==> IsSpace(spaces[i])) && sign in ["", "+", "-"]
    requires rest == "" || !IsDigit(rest[0])
    ensures Atoi(spaces + (sign + Decimal(n) + rest)) == if sign == "-" then 0 - n else n
    decreases |spaces|
  {
    hide Decimal, Digits;
    var number := sign + Decimal(n) + rest;
    if spaces != "" {
      AtoiOf(spaces[1..], sign, n, rest);
      assert (spaces + number)[1..] == spaces[1..] + number;
    } else {
      assert spaces + number == number;
      DigitsOfDecimal(n);
      DigitsStop(Decimal(n), rest, 0);
      if sign == "" {
        assert number == Decimal(n) + rest && number[0] == Decimal(n)[0];
        assert IsDigit(Decimal(n)[0]);
      } else {
        assert number[0] == sign[0] && number[1..] == Decimal(n) + rest;
      }
    }
  }

  /** Without a digit there is no number. */
  lemma {:induction false} AtoiNone(spaces: string, rest: string)
    requires (forall i :: 0 <= i < |spaces| ==> IsSpace(spaces[i]))
    requires rest == "" || !(IsDigit(rest[0]) || IsSpace(rest[0]) || rest[0] == '-' || rest[0] == '+')
    ensures Atoi(spaces + rest) == 0
    decreases |spaces|
  {
    if spaces != "" {
      AtoiNone(spaces[1..], rest);
      assert (spaces + rest)[1..] == spaces[1..] + rest;
    } else {
      assert spaces + rest == rest;
    }
  }

  lemma {:induction false} DigitsStop(s: string, rest: string, acc: nat)
    requires AllDigits(s) && (rest == "" || !IsDigit(rest[0]))
    ensures Digits(s + rest, acc) == Digits(s, acc)
    decreases |s|
  {
    if s != "" {
      assert (s + rest)[1..] == s[1..] + rest;
      DigitsStop(s[1..], rest, 10 * acc + (s[0] - '0') as int);
    } else {
      assert s + rest == rest;
    }
  }

  // ---- positions

  predicate Lacks(s: string, ch: char) {
    forall i :: 0 <= i < |s| ==> s[i] != ch
  }

  lemma JoinLacks(a: string, b: string, ch: char)
    requires Lacks(b, ch)
    ensures Lacks(a + b, ch) <==> Lacks(a, ch)
  {
    if i :| 0 <= i < |a| && a[i] == ch {
      assert (a + b)[i] == ch;
    }
  }

  /** `part` stands at `at`. */
  predicate Holds(url: string, at: nat, part: string) {
    at + |part| <= |url| && forall i :: at <= i < at + |part| ==> url[i] == part[i - at]
  }

  lemma HoldsSubstr(url: string, at: nat, part: string)
    requires Holds(url, at, part) && |url| <= MAX_SIZE
    ensures Substr(url, at, |part|) == part
  {
  }

  lemma FirstAt(url: string, ch: char, from: nat, at: nat)
    requires from <= at < |url| && url[at] == ch
    requires forall i :: from <= i < at ==> url[i] != ch
    ensures FindChar(url, ch, from) == Some(at)
  {
  }

  lemma LastAt(url: string, ch: char, at: nat)
    requires at < |url| && url[at] == ch
    requires forall i :: at < i < |url| ==> url[i] != ch
    ensures RFindChar(url, ch, |url| - 1) == Some(at)
  {
  }

  // ---- the shape of a URL

  /** `protocol://` if there is a protocol. */
  function ProtocolPart(protocol: Option<string>): (r: string)
    ensures |r| == Left(protocol)
  {
    if protocol.Some? then protocol.value + "://" else ""
  }

  function Left(protocol: Option<string>): nat {
    if protocol.Some? then |protocol.value| + 3 else 0
  }

  function PathPart(path: Option<string>): (r: string)
    ensures |r| == Width(path)
  {
    if path.Some? then "/" + path.value else ""
  }

  function QueryPart(queries: Option<string>): (r: string)
    ensures |r| == Width(queries)
  {
    if queries.Some? then "?" + queries.value else ""
  }

  function Width(part: Option<string>): nat {
    if part.Some? then 1 + |part.value| else 0
  }

  function Content(part: Option<string>): string {
    if part.Some? then part.value else ""
  }

  function Shaped(protocol: Option<string>, authority: string, path: Option<string>, queries: Option<string>): string {
    ProtocolPart(protocol) + authority + PathPart(path) + QueryPart(queries)
  }

  /** The last '?' starts the queries, and there is none without queries. */
  predicate Marked(protocol: Option<string>, authority: string, path: Option<string>, queries: Option<string>) {
    if queries.Some? then Lacks(queries.value, '?')
    else Lacks(Content(protocol), '?') && Lacks(authority, '?') && Lacks(Content(path), '?')
  }

  /** The first "://" ends the protocol, and there is none without a protocol. */
  predicate Introduced(url: string, protocol: Option<string>) {
    if protocol.Some? then Lacks(protocol.value, ':') else forall i :: 0 <= i < |url| ==> !Matches(url, i, "://")
  }

  predicate WellShaped(protocol: Option<string>, authority: string, path: Option<string>, queries: Option<string>) {
    && |Shaped(protocol, authority, path, queries)| <= MAX_SIZE
    && Introduced(Shaped(protocol, authority, path, queries), protocol) && authority != "" && Lacks(authority, '/')
    && Marked(protocol, authority, path, queries)
  }

  /** Where everything stands. */
  predicate Layout(
      url: string, protocol: Option<string>, authority: string, path: Option<string>, queries: Option<string>) {
    var left := Left(protocol);
    var front := left + |authority|;
    var mark := front + Width(path);
    && |url| == mark + Width(queries)
    && Holds(url, 0, ProtocolPart(protocol))
    && (protocol.Some? ==> Holds(url, 0, protocol.value) && Holds(url, |protocol.value|, "://"))
    && Holds(url, left, authority)
    && Holds(url, front, PathPart(path))
    && Holds(url, mark, QueryPart(queries))
    && (path.Some? ==> url[front] == '/' && Holds(url, front + 1, path.value))
    && (queries.Some? ==> url[mark] == '?' && Holds(url, mark + 1, queries.value))
  }

  lemma ShapedLayout(protocol: Option<string>, authority: string, path: Option<string>, queries: Option<string>)
    ensures Layout(Shaped(protocol, authority, path, queries), protocol, authority, path, queries)
  {
    hide Holds, PathPart, QueryPart, ProtocolPart;
    var url := Shaped(protocol, authority, path, queries);
    FourJoined(ProtocolPart(protocol), authority, PathPart(path), QueryPart(queries));
    MarkedParts(path, queries);
    if protocol.Some? {
      HoldsFront(url, protocol.value);
    }
    if path.Some? {
      HoldsTail(url, Left(protocol) + |authority|, '/', path.value);
    }
    if queries.Some? {
      HoldsTail(url, Left(protocol) + |authority| + Width(path), '?', queries.value);
    }
  }

  lemma FourJoined(a: string, b: string, c: string, d: string)
    ensures var url := a + b + c + d;
            && |url| == |a| + |b| + |c| + |d|
            && Holds(url, 0, a) && Holds(url, |a|, b)
            && Holds(url, |a| + |b|, c) && Holds(url, |a| + |b| + |c|, d)
  {
    hide Holds;
    HoldsJoined(a, b);
    HoldsJoined(a + b, c);
    HoldsJoined(a + b + c, d);
    HoldsLonger(a + b, 0, a, c);
    HoldsLonger(a + b, |a|, b, c);
    HoldsLonger(a + b + c, 0, a, d);
    HoldsLonger(a + b + c, |a|, b, d);
    HoldsLonger(a + b + c, |a| + |b|, c, d);
  }

  lemma MarkedParts(path: Option<string>, queries: Option<string>)
    ensures path.Some? ==> PathPart(path) == ['/'] + path.value
    ensures queries.Some? ==> QueryPart(queries) == ['?'] + queries.value
  {
  }

  lemma HoldsJoined(a: string, b: string)
    ensures Holds(a + b, 0, a) && Holds(a + b, |a|, b)
  {
  }

  lemma HoldsFront(url: string, protocol: string)
    requires Holds(url, 0, ProtocolPart(Some(protocol)))
    ensures Holds(url, 0, protocol) && Holds(url, |protocol|, "://")
  {
    var part := protocol + "://";
    forall i | |protocol| <= i < |protocol| + 3 ensures url[i] == "://"[i - |protocol|] {
      assert url[i] == part[i];
    }
  }

  lemma HoldsLonger(url: string, at: nat, part: string, more: string)
    requires Holds(url, at, part)
    ensures Holds(url + more, at, part)
  {
  }

  lemma HoldsTail(url: string, at: nat, ch: char, part: string)
    requires Holds(url, at, [ch] + part)
    ensures url[at] == ch && Holds(url, at + 1, part)
  {
    forall i | at + 1 <= i < at + 1 + |part| ensures url[i] == part[i - at - 1] {
      assert url[i] == ([ch] + part)[i - at];
    }
  }

  lemma SeparatorOf(url: string, protocol: Option<string>)
    requires protocol.Some? ==> Holds(url, 0, protocol.value) && Holds(url, |protocol.value|, "://")
    requires Introduced(url, protocol)
    ensures Find(url, "://", 0) == if protocol.Some? then Some(|protocol.value|) else None
  {
    if protocol.Some? {
      var at := |protocol.value|;
      assert url[at..at + 3] == "://";
      assert Matches(url, at, "://");
      forall i | 0 <= i < at ensures !Matches(url, i, "://") {
        assert url[i..i + 3][0] == url[i] == protocol.value[i];
      }
    }
  }

  /** Where the queries start. */
  lemma MarkOf(url: string, protocol: Option<string>, authority: string, path: Option<string>, queries: Option<string>)
    requires Layout(url, protocol, authority, path, queries)
    requires Marked(protocol, authority, path, queries)
    ensures RFindChar(url, '?', Before(|url|))
         == if queries.Some? then Some(Left(protocol) + |authority| + Width(path)) else None
  {
    hide RFindChar, ProtocolPart, PathPart, QueryPart;
    if queries.Some? {
      MarkAt(url, Left(protocol) + |authority| + Width(path), queries.value);
    } else {
      hide Layout;
      forall i | 0 <= i < |url| ensures url[i] != '?' {
        NoMark(url, protocol, authority, path, i);
      }
    }
  }

  lemma MarkAt(url: string, mark: nat, queries: string)
    requires |url| == mark + 1 + |queries| && url[mark] == '?' && Holds(url, mark + 1, queries) && Lacks(queries, '?')
    ensures RFindChar(url, '?', Before(|url|)) == Some(mark)
  {
    forall i | mark < i < |url| ensures url[i] != '?' {
      assert url[i] == queries[i - mark - 1];
    }
    LastAt(url, '?', mark);
  }

  lemma NoMark(url: string, protocol: Option<string>, authority: string, path: Option<string>, i: nat)
    requires Layout(url, protocol, authority, path, None) && i < |url|
    requires Lacks(Content(protocol), '?') && Lacks(authority, '?') && Lacks(Content(path), '?')
    ensures url[i] != '?'
  {
    hide ProtocolPart, PathPart, QueryPart;
    var left := Left(protocol);
    var front := left + |authority|;
    if i < left - 3 {
      assert url[i] == protocol.value[i];
    } else if i < left {
      assert url[i] == "://"[i - left + 3];
    } else if i < front {
      assert url[i] == authority[i - left];
    } else if i > front {
      assert url[i] == path.value[i - front - 1];
    }
  }

  /** Where the path starts. */
  lemma SlashOf(url: string, protocol: Option<string>, authority: string, path: Option<string>, queries: Option<string>)
    requires Layout(url, protocol, authority, path, queries)
    requires Lacks(authority, '/') && (path.Some? || Lacks(Content(queries), '/'))
    ensures FindChar(url, '/', Left(protocol))
         == if path.Some? then Some(Left(protocol) + |authority|) else None
  {
    hide FindChar, ProtocolPart, PathPart, QueryPart;
    var left, front := Left(protocol), Left(protocol) + |authority|;
    if path.Some? {
      FirstAt(url, '/', left, front);
    } else {
      forall i | left <= i < |url| ensures url[i] != '/' {
        if i < front {
          assert url[i] == authority[i - left];
        } else if i > front {
          assert url[i] == queries.value[i - front - 1];
        }
      }
    }
  }

  /** Without a path, the first '/' of the queries is found. */
  lemma SlashOfQueries(url: string, protocol: Option<string>, authority: string, queries: string)
    requires Layout(url, protocol, authority, None, Some(queries))
    requires Lacks(authority, '/') && !Lacks(queries, '/')
    ensures var slash := FindChar(url, '/', Left(protocol));
            slash.Some? && slash.value > Left(protocol) + |authority|
  {
    hide FindChar, ProtocolPart, PathPart, QueryPart;
    var front := Left(protocol) + |authority|;
    var k :| 0 <= k < |queries| && queries[k] == '/';
    assert url[front + 1 + k] == '/';
  }

  // ---- the authority

  /** A host without port: no ':' behind its first character. */
  lemma PlainAuthority(url: string, left: nat, host: string)
    requires host != "" && Holds(url, left, host) && |url| <= MAX_SIZE
    requires Lacks(host[1..], ':')
    ensures Authority(url, left, left + |host| - 1) == HostPort(host, 0)
  {
    PlainColons(url, left, host);
    assert PortColon(url, left, left + |host| - 1) == None;
    HoldsSubstr(url, left, host);
  }

  lemma ColonInFront(url: string, left: nat, colon: nat, right: nat)
    requires left < colon <= right < |url| && url[colon] == ':'
    requires forall i :: colon < i <= right ==> url[i] != ':'
    ensures PortColon(url, left, right) == Some(colon)
  {
  }

  /** A host with a port in decimal digits. */
  lemma PortAuthority(url: string, left: nat, host: string, port: u16)
    requires host != "" && |url| <= MAX_SIZE
    requires Holds(url, left, host) && Holds(url, left + |host| + 1, Decimal(port)) && url[left + |host|] == ':'
    ensures Authority(url, left, left + |host| + |Decimal(port)|) == HostPort(host, port)
  {
    hide Decimal, PortColon, Substr, Atoi;
    var digits := Decimal(port);
    var colon, right := left + |host|, left + |host| + |digits|;
    forall i | colon < i <= right ensures url[i] != ':' {
      assert url[i] == digits[i - colon - 1];
    }
    ColonInFront(url, left, colon, right);
    HoldsSubstr(url, left, host);
    HoldsSubstr(url, colon + 1, digits);
    AtoiDecimal(port);
  }

  // ---- parsing a well-shaped URL

  lemma ParseShaped(protocol: Option<string>, authority: string, path: Option<string>, queries: Option<string>)
    requires WellShaped(protocol, authority, path, queries)
    requires path.Some? || Lacks(Content(queries), '/')
    ensures Layout(Shaped(protocol, authority, path, queries), protocol, authority, path, queries)
    ensures var url := Shaped(protocol, authority, path, queries);
            var left := Left(protocol);
            var hp := Authority(url, left, left + |authority| - 1);
            Parsed(url) == Parts(Content(protocol), hp.host, hp.port, Content(path), Content(queries))
  {
    hide Shaped, Parsed, Authority, Lacks, Holds, Find, FindChar, RFindChar, ProtocolPart, PathPart, QueryPart;
    var url := Shaped(protocol, authority, path, queries);
    ShapedLayout(protocol, authority, path, queries);
    SeparatorOf(url, protocol);
    MarkOf(url, protocol, authority, path, queries);
    SlashOf(url, protocol, authority, path, queries);
    var right := Left(protocol) + |authority| - 1;
    ParsedEnds(url, protocol, right, path, queries);
    ParsedPath(url, protocol, right, path, queries);
    ParsedAuthority(url, protocol, right, path, queries);
  }

  lemma LengthOf(prefix: nat, part: nat)
    requires prefix + part < TWO_64
    ensures Sub64(prefix + part, prefix) == part
  {
  }

  /** What the searches find in a string whose authority ends at `right`. */
  predicate Placed(url: string, protocol: Option<string>, right: nat, path: Option<string>, queries: Option<string>) {
    && Left(protocol) <= right && |url| <= MAX_SIZE
    && |url| == right + 1 + Width(path) + Width(queries)
    && Find(url, "://", 0) == (if protocol.Some? then Some(|protocol.value|) else None)
    && RFindChar(url, '?', Before(|url|)) == (if queries.Some? then Some(right + 1 + Width(path)) else None)
    && FindChar(url, '/', Left(protocol)) == (if path.Some? then Some(right + 1) else None)
    && (protocol.Some? ==> Holds(url, 0, protocol.value))
    && (path.Some? ==> Holds(url, right + 2, path.value))
    && (queries.Some? ==> Holds(url, right + 2 + Width(path), queries.value))
  }

  lemma ParsedEnds(url: string, protocol: Option<string>, right: nat, path: Option<string>, queries: Option<string>)
    requires Placed(url, protocol, right, path, queries)
    ensures Parsed(url).protocol == Content(protocol) && Parsed(url).queries == Content(queries)
  {
    hide Find, FindChar, RFindChar, Substr, Authority, Holds, Sub64;
    if protocol.Some? {
      HoldsSubstr(url, 0, protocol.value);
    }
    if queries.Some? {
      HoldsSubstr(url, right + 2 + Width(path), queries.value);
      LengthOf(right + 1 + Width(path), |queries.value|);
    }
  }

  lemma ParsedPath(url: string, protocol: Option<string>, right: nat, path: Option<string>, queries: Option<string>)
    requires Placed(url, protocol, right, path, queries)
    ensures Parsed(url).path == Content(path)
  {
    hide Find, FindChar, RFindChar, Substr, Authority, Holds, Sub64;
    if path.Some? {
      HoldsSubstr(url, right + 2, path.value);
      LengthOf(right + 1, |path.value|);
    }
  }

  lemma ParsedAuthority(
      url: string, protocol: Option<string>, right: nat, path: Option<string>, queries: Option<string>)
    requires Placed(url, protocol, right, path, queries)
    ensures HostPort(Parsed(url).host, Parsed(url).port) == Authority(url, Left(protocol), right)
  {
    hide Find, FindChar, RFindChar, Substr, Authority, Holds, Sub64;
  }

  /** Without a path, a '/' in the queries is taken for the start of the path: the host comes out
      longer than it is. */
  lemma ParseMisled(protocol: Option<string>, authority: string, queries: string)
    requires WellShaped(protocol, authority, None, Some(queries)) && !Lacks(queries, '/')
    requires Lacks(authority[1..], ':')
    ensures |Parsed(Shaped(protocol, authority, None, Some(queries))).host| > |authority|
  {
    hide Shaped, Holds, Lacks, Find, FindChar, RFindChar, Authority, Substr, ProtocolPart, PathPart, QueryPart;
    var url := Shaped(protocol, authority, None, Some(queries));
    ShapedLayout(protocol, authority, None, Some(queries));
    SeparatorOf(url, protocol);
    MarkOf(url, protocol, authority, None, Some(queries));
    SlashOfQueries(url, protocol, authority, queries);
    PlainColons(url, Left(protocol), authority);
    LongHost(url, Left(protocol), Left(protocol) + |authority|, FindChar(url, '/', Left(protocol)).value);
  }

  lemma LongHost(url: string, left: nat, front: nat, slash: nat)
    requires left < front < slash < |url| <= MAX_SIZE
    requires forall i :: left < i <= front ==> url[i] != ':'
    ensures |Authority(url, left, slash - 1).host| > front - left
  {
    var colon := PortColon(url, left, slash - 1);
    LengthOf(left, (if colon.Some? then colon.value else slash) - left);
  }

  lemma PlainColons(url: string, left: nat, host: string)
    requires host != "" && Holds(url, left, host) && Lacks(host[1..], ':')
    ensures forall i :: left < i < left + |host| ==> url[i] != ':'
  {
    forall i | left < i < left + |host| ensures url[i] != ':' {
      assert url[i] == host[i - left] == host[1..][i - left - 1];
    }
  }

  // ---- assembling

  /** host[:port] */
  function HostText(host: string, port: Option<u16>): string {
    if port.Some? then host + (":" + Decimal(port.value)) else host
  }

  /** protocol://host[:port]/path[?queries] */
  function Assembled(protocol: string, host: string, port: Option<u16>, path: string, queries: Option<string>): string {
    Shaped(Some(protocol), HostText(host, port), Some(path), queries)
  }

  predicate ProperHost(host: string, port: Option<u16>) {
    host != "" && Lacks(host, '/') && (port.None? ==> Lacks(host[1..], ':'))
  }

  lemma HostTextLacks(host: string, port: Option<u16>)
    requires ProperHost(host, port)
    ensures HostText(host, port) != ""
    ensures Lacks(HostText(host, port), '/')
    ensures Lacks(HostText(host, port), '?') <==> Lacks(host, '?')
  {
    if port.Some? {
      var suffix := ":" + Decimal(port.value);
      assert Lacks(suffix, '/') && Lacks(suffix, '?');
      JoinLacks(host, suffix, '/');
      JoinLacks(host, suffix, '?');
    }
  }

  lemma HostTextParsed(url: string, left: nat, host: string, port: Option<u16>)
    requires ProperHost(host, port) && |url| <= MAX_SIZE && Holds(url, left, HostText(host, port))
    ensures Authority(url, left, left + |HostText(host, port)| - 1)
         == HostPort(host, if port.Some? then port.value else 0)
  {
    hide Authority, Decimal;
    if port.Some? {
      HoldsPort(url, left, host, Decimal(port.value));
      PortAuthority(url, left, host, port.value);
    } else {
      PlainAuthority(url, left, host);
    }
  }

  lemma HoldsPort(url: string, left: nat, host: string, digits: string)
    requires Holds(url, left, host + (":" + digits))
    ensures Holds(url, left, host) && url[left + |host|] == ':' && Holds(url, left + |host| + 1, digits)
  {
    var all := host + (":" + digits);
    assert all[|host|] == ':';
    forall i | left + |host| + 1 <= i < left + |host| + 1 + |digits| ensures url[i] == digits[i - left - |host| - 1] {
      assert url[i] == all[i - left];
    }
  }

  /** Parsing returns exactly the parts a URL was assembled from, if and only if the queries hold
      no '?', or there are no queries and no part holds one. */
  lemma ParseAssembled(protocol: string, host: string, port: Option<u16>, path: string, queries: Option<string>)
    requires |Assembled(protocol, host, port, path, queries)| <= MAX_SIZE
    requires Lacks(protocol, ':') && ProperHost(host, port)
    ensures Parsed(Assembled(protocol, host, port, path, queries))
         == Parts(protocol, host, if port.Some? then port.value else 0, path, Content(queries))
       <==> Marked(Some(protocol), host, Some(path), queries)
  {
    hide Parsed, Authority, Shaped, Holds, Lacks, HostText, ProperHost, PathPart, QueryPart;
    HostTextLacks(host, port);
    if Marked(Some(protocol), host, Some(path), queries) {
      ParseShaped(Some(protocol), HostText(host, port), Some(path), queries);
      HostTextParsed(Assembled(protocol, host, port, path, queries), |protocol| + 3, host, port);
    } else {
      ParseMismarked(Some(protocol), HostText(host, port), Some(path), queries);
    }
  }

  /** Any other '?' moves the start of the queries. */
  lemma ParseMismarked(protocol: Option<string>, authority: string, path: Option<string>, queries: Option<string>)
    requires |Shaped(protocol, authority, path, queries)| <= MAX_SIZE
    requires Introduced(Shaped(protocol, authority, path, queries), protocol) && Lacks(authority, '/')
    requires path.Some? || queries.Some?
    requires !Marked(protocol, authority, path, queries)
    ensures var parts := Parsed(Shaped(protocol, authority, path, queries));
            parts.path != Content(path) || parts.queries != Content(queries)
  {
    hide Shaped, Holds, Parsed, FindChar, RFindChar, ProtocolPart, PathPart, QueryPart;
    var url := Shaped(protocol, authority, path, queries);
    ShapedLayout(protocol, authority, path, queries);
    SeparatorOf(url, protocol);
    StrayMark(url, protocol, authority, path, queries);
    var mark := RFindChar(url, '?', Before(|url|)).value;
    if queries.Some? {
      ShortQueries(url, mark);
    } else {
      SlashOf(url, protocol, authority, path, queries);
      ShortPath(url, Left(protocol), Left(protocol) + |authority|, mark);
    }
  }

  lemma ShortQueries(url: string, mark: nat)
    requires |url| <= MAX_SIZE && RFindChar(url, '?', Before(|url|)) == Some(mark)
    ensures |Parsed(url).queries| == |url| - 1 - mark
  {
    hide Find, FindChar, RFindChar, Authority;
  }

  lemma ShortPath(url: string, left: nat, slash: nat, mark: nat)
    requires |url| <= MAX_SIZE && RFindChar(url, '?', Before(|url|)) == Some(mark)
    requires var sep := Find(url, "://", 0); left == if sep.Some? then sep.value + 3 else 0
    requires FindChar(url, '/', left) == Some(slash)
    ensures Parsed(url).queries != "" || |Parsed(url).path| < |url| - 1 - slash
  {
    hide Find, FindChar, RFindChar, Authority;
    ShortQueries(url, mark);
  }

  lemma StrayMark(
      url: string, protocol: Option<string>, authority: string, path: Option<string>, queries: Option<string>)
    requires Layout(url, protocol, authority, path, queries)
    requires !Marked(protocol, authority, path, queries)
    ensures var mark := RFindChar(url, '?', Before(|url|));
            mark.Some? && (queries.Some? ==> mark.value > |url| - Width(queries))
  {
    hide RFindChar, ProtocolPart, PathPart, QueryPart;
    var left := Left(protocol);
    var front := left + |authority|;
    if queries.Some? {
      var k :| 0 <= k < |queries.value| && queries.value[k] == '?';
      assert url[|url| - |queries.value| + k] == '?';
    } else if k :| 0 <= k < |Content(protocol)| && Content(protocol)[k] == '?' {
      assert url[k] == '?';
    } else if k :| 0 <= k < |authority| && authority[k] == '?' {
      assert url[left + k] == '?';
    } else {
      var k :| 0 <= k < |Content(path)| && Content(path)[k] == '?';
      assert url[front + 1 + k] == '?';
    }
  }

  /** host[:port][/path][?queries], without a protocol */
  function Bare(host: string, port: Option<u16>, path: Option<string>, queries: Option<string>): string {
    Shaped(None, HostText(host, port), path, queries)
  }

  /** The queries may hold a '/' at their very end, if a port keeps it away from the host. */
  predicate EndsInSlash(queries: string) {
    && queries != "" && queries[|queries| - 1] == '/'
    && Lacks(queries[..|queries| - 1], '/') && Lacks(queries, ':')
  }

  /** A URL without a protocol: nothing in it looks like the end of one, the last '?' starts the
      queries, and they hold no '/' that could pass for the start of a path. */
  predicate BareClear(host: string, port: Option<u16>, path: Option<string>, queries: Option<string>) {
    && Introduced(Bare(host, port, path, queries), None)
    && (Marked(None, host, path, queries) || Bare(host, port, path, queries) == "?")
    && (path.Some? || Lacks(Content(queries), '/') || (port.Some? && EndsInSlash(queries.value)))
  }

  /** Then, and only then, parsing returns the parts and an empty protocol. */
  lemma ParseBare(host: string, port: Option<u16>, path: Option<string>, queries: Option<string>)
    requires |Bare(host, port, path, queries)| <= MAX_SIZE
    requires ProperHost(host, port) && host[0] != ':'
    ensures Parsed(Bare(host, port, path, queries)) == BareParts(host, port, path, queries)
       <==> BareClear(host, port, path, queries)
  {
    hide Parsed, Authority, Shaped, Holds, Lacks, Matches, HostText, EndsInSlash, PathPart, QueryPart;
    var url, authority := Bare(host, port, path, queries), HostText(host, port);
    HostTextLacks(host, port);
    NoParts(host);
    if !Introduced(url, None) {
      BareFirst(host, port, path, queries);
      StrayProtocol(url);
    } else if path.None? && queries.None? && !Lacks(host, '?') {
      BareMark(host, port);
    } else if !Marked(None, host, path, queries) {
      ParseMismarked(None, authority, path, queries);
      NotJustMark(host, port, path, queries);
    } else if path.Some? || Lacks(Content(queries), '/') {
      ParseShaped(None, authority, path, queries);
      HostTextParsed(url, 0, host, port);
    } else if port.None? {
      BareMisled(host, queries);
    } else {
      SlashBehindPort(host, port.value, queries.value);
    }
  }

  function BareParts(host: string, port: Option<u16>, path: Option<string>, queries: Option<string>): Parts {
    Parts("", host, if port.Some? then port.value else 0, Content(path), Content(queries))
  }

  lemma NoParts(host: string)
    ensures Marked(None, host, None, None) <==> Lacks(host, '?')
    ensures Lacks("", '/')
  {
  }

  lemma NotJustMark(host: string, port: Option<u16>, path: Option<string>, queries: Option<string>)
    requires host != "" && (path.Some? || queries.Some?)
    ensures Bare(host, port, path, queries) != "?"
  {
    assert |Bare(host, port, path, queries)| >= 2;
  }

  /** A '?' in a URL of a host and perhaps a port starts the queries, unless it is all there is. */
  lemma BareMark(host: string, port: Option<u16>)
    requires |Bare(host, port, None, None)| <= MAX_SIZE && ProperHost(host, port) && !Lacks(host, '?')
    requires Introduced(Bare(host, port, None, None), None)
    ensures Parsed(Bare(host, port, None, None)) == BareParts(host, port, None, None)
       <==> Bare(host, port, None, None) == "?"
  {
    hide Parsed, Decimal, Introduced, RFindChar;
    var url := Bare(host, port, None, None);
    assert url == HostText(host, port);
    var k :| 0 <= k < |host| && host[k] == '?';
    assert url[k] == '?';
    var mark := RFindChar(url, '?', Before(|url|)).value;
    ShortQueries(url, mark);
    if port.Some? {
      LastDigit(host, port);
    } else if mark == |url| - 1 {
      assert url == host;
      ShortHost(url);
    }
  }

  lemma LastDigit(host: string, port: Option<u16>)
    requires port.Some?
    ensures var url := HostText(host, port); url != "" && IsDigit(url[|url| - 1])
  {
    var digits := Decimal(port.value);
    assert IsDigit(digits[|digits| - 1]);
  }

  lemma ShortHost(url: string)
    requires 0 < |url| <= MAX_SIZE && url[|url| - 1] == '?' && Lacks(url, '/') && Lacks(url[1..], ':')
    ensures Parsed(url) == Parts("", url, 0, "", "") <==> url == "?"
  {
    var last := |url| - 1;
    assert RFindChar(url, '?', last) == Some(last);
    assert FindChar(url, '/', 0) == None;
    forall i: nat ensures !Matches(url, i, "://") {
      assert i + 3 <= |url| ==> url[i..i + 3][1] == url[i + 1];
    }
    forall i | 0 < i < |url| ensures url[i] != ':' {
      assert url[1..][i - 1] == url[i];
    }
  }

  /** Behind a port the first '/' of the queries is taken for the start of the path, which does no
      harm exactly if it is their last character and there is no ':' in front of it. */
  lemma SlashBehindPort(host: string, port: u16, queries: string)
    requires |Bare(host, Some(port), None, Some(queries))| <= MAX_SIZE && ProperHost(host, Some(port))
    requires Introduced(Bare(host, Some(port), None, Some(queries)), None)
    requires Lacks(queries, '?') && !Lacks(queries, '/')
    ensures Parsed(Bare(host, Some(port), None, Some(queries))) == BareParts(host, Some(port), None, Some(queries))
       <==> EndsInSlash(queries)
  {
    hide Parsed, Bare, ProperHost, Introduced, Holds, Lacks, Decimal, Authority, EndsInSlash, Find, FindChar, RFindChar;
    PortLayout(host, port, queries);
    var url := Bare(host, Some(port), None, Some(queries));
    var front, slash := |host| + 1 + |Decimal(port)|, FindChar(url, '/', 0).value;
    BehindPort(url, front, slash);
    FirstSlash(url, front, slash, queries);
    if slash == |url| - 1 && Lacks(queries, ':') {
      PortInFront(url, host, port, queries);
    } else if slash == |url| - 1 {
      ColonBehind(url, front, queries);
    }
  }

  lemma PortLayout(host: string, port: u16, queries: string)
    requires |Bare(host, Some(port), None, Some(queries))| <= MAX_SIZE && ProperHost(host, Some(port))
    requires Introduced(Bare(host, Some(port), None, Some(queries)), None)
    requires Lacks(queries, '?') && !Lacks(queries, '/')
    ensures var url := Bare(host, Some(port), None, Some(queries)); var front := |host| + 1 + |Decimal(port)|;
            && host != "" && queries != "" && |url| == front + 1 + |queries|
            && Holds(url, 0, host) && url[|host|] == ':' && Holds(url, |host| + 1, Decimal(port))
            && url[front] == '?' && Holds(url, front + 1, queries)
            && Find(url, "://", 0) == None && RFindChar(url, '?', Before(|url|)) == Some(front)
            && FindChar(url, '/', 0).Some? && front < FindChar(url, '/', 0).value
            && url[FindChar(url, '/', 0).value] == '/'
  {
    hide Introduced, Holds, Decimal, Find, FindChar, RFindChar, Shaped, PathPart, QueryPart;
    var url, authority := Bare(host, Some(port), None, Some(queries)), HostText(host, Some(port));
    HostTextLacks(host, Some(port));
    ShapedLayout(None, authority, None, Some(queries));
    SeparatorOf(url, None);
    MarkOf(url, None, authority, None, Some(queries));
    SlashOfQueries(url, None, authority, queries);
    HoldsPort(url, 0, host, Decimal(port));
  }

  /** The lengths that wrap around reach to the end of the string. */
  lemma BehindPort(url: string, front: nat, slash: nat)
    requires 0 < front < slash < |url| <= MAX_SIZE && Find(url, "://", 0) == None
    requires RFindChar(url, '?', Before(|url|)) == Some(front) && FindChar(url, '/', 0) == Some(slash)
    ensures var hp := Authority(url, 0, slash - 1);
            Parsed(url) == Parts("", hp.host, hp.port, url[slash + 1..], url[front + 1..])
  {
    ParsedParts(url, front, slash);
    hide *;
    var last: nat := |url| - 1;
    LengthOf(front, last - front);
    SubstrToEnd(url, front + 1, Sub64(last, front));
    WrappedLength(front - 1, slash);
    SubstrToEnd(url, slash + 1, Sub64(front - 1, slash));
  }

  lemma ParsedParts(url: string, mark: nat, slash: nat)
    requires 0 < mark < |url| <= MAX_SIZE && 0 < slash < |url| && Find(url, "://", 0) == None
    requires RFindChar(url, '?', Before(|url|)) == Some(mark) && FindChar(url, '/', 0) == Some(slash)
    ensures var hp := Authority(url, 0, slash - 1);
            Parsed(url) == Parts("", hp.host, hp.port, Substr(url, slash + 1, Sub64(mark - 1, slash)),
                                 Substr(url, mark + 1, Sub64(|url| - 1, mark)))
  {
    hide Find, FindChar, RFindChar, Authority, Substr, Sub64;
  }

  lemma SubstrToEnd(url: string, at: nat, len: u64)
    requires at <= |url| <= at + len
    ensures Substr(url, at, len) == url[at..]
  {
  }

  lemma WrappedLength(right: nat, at: nat)
    requires right < at <= MAX_SIZE
    ensures Sub64(right, at) >= MAX_SIZE
  {
  }

  lemma FirstSlash(url: string, front: nat, slash: nat, queries: string)
    requires |url| == front + 1 + |queries| && Holds(url, front + 1, queries)
    requires FindChar(url, '/', 0) == Some(slash) && slash > front && url[front] == '?'
    ensures url[front + 1..] == queries
    ensures EndsInSlash(queries) <==> slash == |url| - 1 && Lacks(queries, ':')
  {
    hide FindChar;
    assert queries[slash - front - 1] == '/';
    if slash < |url| - 1 {
      assert queries[..|queries| - 1][slash - front - 1] == '/';
    }
  }

  lemma PortInFront(url: string, host: string, port: u16, queries: string)
    requires var colon := |host|;
             && host != "" && |url| == colon + 2 + |Decimal(port)| + |queries| <= MAX_SIZE
             && Holds(url, 0, host) && url[colon] == ':' && Holds(url, colon + 1, Decimal(port))
             && url[colon + 1 + |Decimal(port)|] == '?' && Holds(url, colon + 2 + |Decimal(port)|, queries)
    requires Lacks(queries, ':') && queries != ""
    ensures Authority(url, 0, |url| - 2) == HostPort(host, port)
  {
    hide Decimal, PortColon, Atoi;
    var digits, colon, right := Decimal(port), |host|, |url| - 2;
    forall i | colon < i <= right ensures url[i] != ':' {
      if i <= colon + |digits| {
        assert url[i] == digits[i - colon - 1];
      } else if i > colon + 1 + |digits| {
        assert url[i] == queries[i - colon - 2 - |digits|];
      }
    }
    ColonInFront(url, 0, colon, right);
    HoldsSubstr(url, 0, host);
    var rest := url[colon + 1 + |digits|..right + 1];
    assert url[colon + 1..right + 1] == "" + ("" + digits + rest);
    AtoiOf("", "", port, rest);
  }

  lemma ColonBehind(url: string, front: nat, queries: string)
    requires |url| == front + 1 + |queries| <= MAX_SIZE && Holds(url, front + 1, queries)
    requires !Lacks(queries, ':') && url[|url| - 1] == '/'
    ensures |Authority(url, 0, |url| - 2).host| > front
  {
    var k :| 0 <= k < |queries| && queries[k] == ':';
    assert url[front + 1 + k] == ':';
    var colon := PortColon(url, 0, |url| - 2);
    assert colon.Some? && colon.value >= front + 1 + k;
  }

  lemma BareFirst(host: string, port: Option<u16>, path: Option<string>, queries: Option<string>)
    requires host != ""
    ensures Bare(host, port, path, queries) != "" && Bare(host, port, path, queries)[0] == host[0]
  {
  }

  /** A "://" behind the first character ends a protocol, wherever it stands. */
  lemma StrayProtocol(url: string)
    requires url != "" && url[0] != ':' && !Introduced(url, None) && |url| <= MAX_SIZE
    ensures Parsed(url).protocol != ""
  {
    hide FindChar, RFindChar, Authority;
    var at := Find(url, "://", 0).value;
    assert url[at..at + 3][0] == url[at];
  }

  lemma BareMisled(host: string, queries: Option<string>)
    requires |Bare(host, None, None, queries)| <= MAX_SIZE && ProperHost(host, None)
    requires Introduced(Bare(host, None, None, queries), None) && Marked(None, host, None, queries)
    requires !Lacks(Content(queries), '/')
    ensures |Parsed(Bare(host, None, None, queries)).host| > |host|
  {
    hide Parsed, Shaped;
    ParseMisled(None, host, queries.value);
  }

  /** The state `StUrlReAsm`: the port is left to its own setting, empty parts leave no mark. */
  function Reassembled(protocol: string, host: string, path: string, queries: string): string {
    protocol + "://" + host
    + (if path != "" then "/" + path else "")
    + (if queries != "" then "?" + queries else "")
  }

  predicate Clean(protocol: string, host: string, path: string, queries: string) {
    && |Reassembled(protocol, host, path, queries)| <= MAX_SIZE
    && Lacks(protocol, ':') && ProperHost(host, None)
    && (if queries != "" then Lacks(queries, '?') else Lacks(protocol, '?') && Lacks(host, '?') && Lacks(path, '?'))
  }

  /** Parsing the re-assembled URL returns the four parts and no port, exactly when the path is
      not empty or the queries hold no '/'. */
  lemma ParseReassembled(protocol: string, host: string, path: string, queries: string)
    requires Clean(protocol, host, path, queries)
    ensures Parsed(Reassembled(protocol, host, path, queries)) == Parts(protocol, host, 0, path, queries)
       <==> path != "" || Lacks(queries, '/')
  {
    hide *;
    ReassembledShape(protocol, host, path, queries);
    GivenContent(path);
    GivenContent(queries);
    if path != "" || Lacks(queries, '/') {
      ParsePlain(protocol, host, Given(path), Given(queries));
    } else {
      ParseMisled(Some(protocol), host, queries);
    }
  }

  lemma ParsePlain(protocol: string, host: string, path: Option<string>, queries: Option<string>)
    requires WellShaped(Some(protocol), host, path, queries) && Lacks(host[1..], ':')
    requires path.Some? || Lacks(Content(queries), '/')
    ensures Parsed(Shaped(Some(protocol), host, path, queries))
         == Parts(protocol, host, 0, Content(path), Content(queries))
  {
    hide Parsed, Authority, Shaped, Lacks, Holds, Find, Matches, PathPart, QueryPart, ProtocolPart, Marked;
    ParseShaped(Some(protocol), host, path, queries);
    PlainAuthority(Shaped(Some(protocol), host, path, queries), |protocol| + 3, host);
  }

  function Given(part: string): Option<string> {
    if part == "" then None else Some(part)
  }

  lemma GivenContent(part: string)
    ensures Content(Given(part)) == part
    ensures if part == "" then Given(part) == None && Lacks(part, '/') else Given(part) == Some(part)
  {
  }

  lemma ReassembledShape(protocol: string, host: string, path: string, queries: string)
    requires Clean(protocol, host, path, queries)
    ensures Reassembled(protocol, host, path, queries) == Shaped(Some(protocol), host, Given(path), Given(queries))
    ensures WellShaped(Some(protocol), host, Given(path), Given(queries))
    ensures host != "" && Lacks(host[1..], ':')
  {
    hide Find;
    assert Reassembled(protocol, host, path, queries) == Shaped(Some(protocol), host, Given(path), Given(queries));
  }
}

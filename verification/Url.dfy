/** `urlToParts` and the re-assembly of a URL. Components are named as in section 3 of RFC 3986. */
module Url {
  import opened Decimals
  import opened Results
  import opened Words

  datatype Parts = Parts(protocol: string, host: string, port: u16, path: string, queries: string)

  /** Longest string the string class can hold. */
  const MAX_SIZE: int := 0x7FFF_FFFF_FFFF_FFFF

  // ---- the string class

  predicate Matches(s: string, at: nat, pat: string) {
    at + |pat| <= |s| && s[at..at + |pat|] == pat
  }

  function Find(s: string, pat: string, from: nat): (r: Option<nat>)
    ensures r.Some? ==> from <= r.value && Matches(s, r.value, pat)
    ensures r.Some? ==> forall i :: from <= i < r.value ==> !Matches(s, i, pat)
    ensures r.None? ==> forall i :: from <= i ==> !Matches(s, i, pat)
    decreases |s| - from
  {
    if from > |s| then None
    else if Matches(s, from, pat) then Some(from)
    else Find(s, pat, from + 1)
  }

  function FindChar(s: string, ch: char, from: nat): (r: Option<nat>)
    ensures r.Some? ==> from <= r.value < |s| && s[r.value] == ch
    ensures r.Some? ==> forall i :: from <= i < r.value ==> s[i] != ch
    ensures r.None? ==> forall i :: from <= i < |s| ==> s[i] != ch
    decreases |s| - from
  {
    if from >= |s| then None
    else if s[from] == ch then Some(from)
    else FindChar(s, ch, from + 1)
  }

  /** Last occurrence at or before `pos`. */
  function RFindChar(s: string, ch: char, pos: nat): (r: Option<nat>)
    ensures r.Some? ==> r.value <= pos && r.value < |s| && s[r.value] == ch
    ensures r.Some? ==> forall i :: r.value < i <= pos && i < |s| ==> s[i] != ch
    ensures r.None? ==> forall i :: 0 <= i <= pos && i < |s| ==> s[i] != ch
  {
    if pos < |s| && s[pos] == ch then Some(pos)
    else if pos == 0 then None
    else RFindChar(s, ch, pos - 1)
  }

  /** At most `len` characters from `pos`. */
  function Substr(s: string, pos: nat, len: u64): string
    requires pos <= |s|
  {
    s[pos..Min(pos + len, |s|)]
  }

  predicate IsSpace(ch: char) {
    ch == ' ' || '\t' <= ch <= '\r'
  }

  function Digits(s: string, acc: nat): nat {
    if s == "" || !IsDigit(s[0]) then acc
    else Digits(s[1..], 10 * acc + (s[0] - '0') as int)
  }

  function Atoi(s: string): int {
    if s == "" then 0
    else if IsSpace(s[0]) then Atoi(s[1..])
    else if s[0] == '-' then 0 - Digits(s[1..], 0)
    else if s[0] == '+' then Digits(s[1..], 0)
    else Digits(s, 0)
  }

  // ---- parsing

  /** Last ':' strictly behind `left` and not behind `right`. */
  function PortColon(url: string, left: nat, right: nat): (r: Option<nat>)
    requires right < |url| || right <= left
    ensures r.Some? ==> left < r.value <= right && url[r.value] == ':'
    ensures r.Some? ==> forall i :: r.value < i <= right ==> url[i] != ':'
    ensures r.None? ==> forall i :: left < i <= right ==> url[i] != ':'
    decreases right
  {
    if right <= left then None
    else if url[right] == ':' then Some(right)
    else PortColon(url, left, right - 1)
  }

  function Before(at: nat): nat {
    if at == 0 then 0 else at - 1
  }

  datatype HostPort = HostPort(host: string, port: u16)

  function Authority(url: string, left: nat, right: u64): HostPort
    requires left <= |url| <= MAX_SIZE && (right < |url| || right == 0)
  {
    var colon := PortColon(url, left, right);
    var end: nat := if colon.Some? then Before(colon.value) else right;
    HostPort(
      Substr(url, left, Sub64(end + 1, left)),
      if colon.Some? then Atoi(Substr(url, colon.value + 1, Sub64(right, colon.value))) % TWO_16 else 0)
  }

  function Parsed(url: string): Parts
    requires |url| <= MAX_SIZE
  {
    var sep := Find(url, "://", 0);
    var left: nat := if sep.Some? then sep.value + 3 else 0;
    var last := Before(|url|);
    var mark := RFindChar(url, '?', last);
    var right1 := if mark.Some? then Before(mark.value) else last;
    var slash := FindChar(url, '/', left);
    var right2 := if slash.Some? then Before(slash.value) else right1;
    var hp := Authority(url, left, right2);
    Parts(if sep.Some? then Substr(url, 0, sep.value) else "",
          hp.host,
          hp.port,
          if slash.Some? then Substr(url, slash.value + 1, Sub64(right1, slash.value)) else "",
          if mark.Some? then Substr(url, mark.value + 1, Sub64(last, mark.value)) else "")
  }

  /** The code: two indices move towards each other over the string. */
  method UrlToParts(url: string)
    returns (protocol: string, host: string, port: u16, path: string, queries: string)
    requires |url| <= MAX_SIZE
    ensures Parts(protocol, host, port, path, queries) == Parsed(url)
  {
    hide Find, FindChar, RFindChar, Substr, Authority, Sub64;
    var idxRight: u64 := if |url| != 0 then |url| - 1 else 0;
    var idxLeft: u64 := 0;
    protocol, host, port, path, queries := "", "", 0, "", "";

    var sep := Find(url, "://", idxLeft);
    if sep.Some? {
      protocol := Substr(url, idxLeft, sep.value - idxLeft);
      idxLeft := sep.value + 3;
    }

    var find := RFindChar(url, '?', idxRight);
    if find.Some? {
      queries := Substr(url, find.value + 1, Sub64(idxRight, find.value));
      idxRight := find.value;
      if idxRight != 0 {
        idxRight := idxRight - 1;
      }
    }

    find := FindChar(url, '/', idxLeft);
    if find.Some? {
      path := Substr(url, find.value + 1, Sub64(idxRight, find.value));
      idxRight := find.value;
      if idxRight != 0 {
        idxRight := idxRight - 1;
      }
    }

    host, port := PortAndHost(url, idxLeft, idxRight);
  }

  /** The last part of `urlToParts`. */
  method PortAndHost(url: string, idxLeft: u64, right: u64) returns (host: string, port: u16)
    requires idxLeft <= |url| <= MAX_SIZE && (right < |url| || right == 0)
    ensures HostPort(host, port) == Authority(url, idxLeft, right)
  {
    hide Substr, Atoi, Sub64;
    var idxRight := right;
    port := 0;
    var find: Option<nat> := None;
    var idx := idxRight;
    while idx > idxLeft
      invariant 0 <= idx <= idxRight
      invariant find.None?
      invariant PortColon(url, idxLeft, idxRight) == PortColon(url, idxLeft, idx)
    {
      if url[idx] == ':' {
        find := Some(idx);
        break;
      }
      idx := idx - 1;
    }
    if find.Some? {
      port := Atoi(Substr(url, find.value + 1, Sub64(idxRight, find.value))) % TWO_16;
      idxRight := find.value;
      if idxRight != 0 {
        idxRight := idxRight - 1;
      }
    }
    host := Substr(url, idxLeft, Sub64(idxRight + 1, idxLeft));
  }
}

/** A request from its URL to the URL that is handed on: parsed, completed and assembled again. */
module HttpRequestingClass {
  import opened Results
  import opened Words
  import opened Url
  import opened UrlLaws

  datatype State = StStart | StDnsResolvStart | StDnsResolvDoneWait | StUrlReAsm | StEasyInit

  function Protocol(parts: Parts): string {
    if parts.protocol == "" then "https" else parts.protocol
  }

  function Port(parts: Parts): u16 {
    if parts.port != 0 then parts.port else if Protocol(parts) == "https" then 443 else 80
  }

  /** The URL that is handed on. */
  function Forwarded(url: string): string
    requires |url| <= MAX_SIZE
  {
    var parts := Parsed(url);
    Reassembled(Protocol(parts), parts.host, parts.path, parts.queries)
  }

  /** The defaults: a port that is given counts, otherwise https and a URL without protocol, which is
      taken for https, have 443, anything else has 80. */
  lemma DefaultsLaw(
      protocol: Option<string>, host: string, port: Option<u16>, path: Option<string>, queries: Option<string>)
    requires ProperHost(host, port) && Marked(protocol, HostText(host, port), path, queries)
    requires var url := Shaped(protocol, HostText(host, port), path, queries);
             |url| <= MAX_SIZE && Introduced(url, protocol)
    requires path.Some? || Lacks(Content(queries), '/')
    ensures var parts := Parsed(Shaped(protocol, HostText(host, port), path, queries));
            && parts.host == host && parts.path == Content(path) && parts.queries == Content(queries)
            && Protocol(parts) == (if protocol.Some? && protocol.value != "" then protocol.value else "https")
            && Port(parts) == if port.Some? && port.value != 0 then port.value
                              else if protocol in [None, Some(""), Some("https")] then 443 else 80
  {
    hide Parsed, Authority, Shaped, Holds, HostText, ProperHost, Lacks, Marked, Introduced, PathPart, QueryPart,
         ProtocolPart;
    HostTextLacks(host, port);
    ParseShaped(protocol, HostText(host, port), path, queries);
    HostTextParsed(Shaped(protocol, HostText(host, port), path, queries), Left(protocol), host, port);
  }

  /** A URL in full is handed on without its port, and without the marks of empty parts; parsing
      that again returns the four parts, exactly when the path is not empty or the queries hold no
      '/'. */
  lemma ForwardedAssembled(protocol: string, host: string, port: Option<u16>, path: string, queries: string)
    requires protocol != "" && Lacks(protocol, ':') && ProperHost(host, port) && Lacks(host[1..], ':')
    requires |Assembled(protocol, host, port, path, Given(queries))| <= MAX_SIZE
    requires Marked(Some(protocol), host, Some(path), Given(queries))
    ensures var url := Assembled(protocol, host, port, path, Given(queries));
            && Forwarded(url) == Reassembled(protocol, host, path, queries)
            && |Forwarded(url)| <= MAX_SIZE
            && (Parsed(Forwarded(url)) == Parts(protocol, host, 0, path, queries)
                <==> path != "" || Lacks(queries, '/'))
            && (path != "" || Lacks(queries, '/') ==> Forwarded(Forwarded(url)) == Forwarded(url))
  {
    hide Parsed, Shaped, Lacks, Decimal;
    var q := Given(queries);
    var url := Assembled(protocol, host, port, path, q);
    ParseAssembled(protocol, host, port, path, q);
    ForwardedFits(protocol, host, port, path, q);
    ParseReassembled(protocol, host, path, queries);
  }

  lemma ForwardedFits(protocol: string, host: string, port: Option<u16>, path: string, queries: Option<string>)
    ensures |Reassembled(protocol, host, path, Content(queries))| <= |Assembled(protocol, host, port, path, queries)|
  {
  }

  /** What the resolver answers: nothing yet, or the addresses it found. */
  datatype Resolving = Busy | Resolved(addrs: seq<string>)

  class HttpRequesting {
    var state: State
    var url: string
    var protocol: string
    var nameHost: string
    var addrHost: string
    var port: u16
    var path: string
    var queries: string
    /** The handle could be created. */
    const curl: bool

    /** Before the URL is taken apart `first` is the URL given; afterwards the fields are its parts. */
    ghost const first: string

    ghost predicate Valid()
      reads this
    {
      && |first| <= MAX_SIZE
      && match state
         case StStart => url == first
         case StEasyInit => curl && first != "" && url == Forwarded(first) && port == Port(Parsed(first))
         case _ =>
           && curl && first != "" && url == first && port == Port(Parsed(first))
           && protocol == Protocol(Parsed(first)) && nameHost == Parsed(first).host
           && path == Parsed(first).path && queries == Parsed(first).queries
    }

    constructor (url: string, addrHost: string, curl: bool)
      requires |url| <= MAX_SIZE
      ensures Valid() && first == url && state == StStart && this.addrHost == addrHost && this.curl == curl
    {
      state := StStart;
      this.url, first := url, url;
      this.addrHost, this.curl := addrHost, curl;
      protocol, nameHost, path, queries, port := "", "", "", "", 0;
    }

    /** The state behind a tick. A host that is an address, or whose address is known, is not resolved. */
    ghost function Next(isAddress: bool, resolving: Resolving): State
      reads this
    {
      match state
      case StStart =>
        if !curl || first == "" then StStart
        else if isAddress || addrHost != "" then StUrlReAsm
        else StDnsResolvStart
      case StDnsResolvStart => StDnsResolvDoneWait
      case StDnsResolvDoneWait => if resolving.Busy? then StDnsResolvDoneWait else StUrlReAsm
      case _ => StEasyInit
    }

    /** One tick, up to the state in which the URL is handed on. A resolver without an answer leaves
        the host to be resolved later. */
    method Process(isAddress: bool, resolving: Resolving) returns (success: Success)
      requires Valid() && state != StEasyInit
      modifies this
      ensures Valid()
      ensures state == old(Next(isAddress, resolving))
      ensures success == if old(state) == StStart && (!curl || first == "") then Failed(-1) else Pending
      ensures addrHost == if old(state) == StDnsResolvDoneWait && resolving.Resolved? && resolving.addrs != []
                          then resolving.addrs[0] else old(addrHost)
    {
      hide Parsed;
      success := Pending;
      match state {
        case StStart =>
          if !curl || url == "" {
            return Failed(-1);
          }
          protocol, nameHost, port, path, queries := UrlToParts(url);
          if protocol == "" {
            protocol := "https";
          }
          if port == 0 {
            port := if protocol == "https" then 443 else 80;
          }
          state := if !isAddress && addrHost == "" then StDnsResolvStart else StUrlReAsm;
        case StDnsResolvStart =>
          state := StDnsResolvDoneWait;
        case StDnsResolvDoneWait =>
          if resolving.Resolved? {
            if resolving.addrs != [] {
              addrHost := resolving.addrs[0];
            }
            state := StUrlReAsm;
          }
        case StUrlReAsm =>
          UrlReAsm();
          state := StEasyInit;
      }
    }

    method UrlReAsm()
      modifies this`url
      ensures url == Reassembled(protocol, nameHost, path, queries)
    {
      url := protocol;
      url := url + "://";
      url := url + nameHost;
      if path != "" {
        url := url + "/";
        url := url + path;
      }
      if queries != "" {
        url := url + "?";
        url := url + queries;
      }
      ghost var head := protocol + "://" + nameHost + if path != "" then "/" + path else "";
      assert url == head + if queries != "" then "?" + queries else "";
    }
  }
}

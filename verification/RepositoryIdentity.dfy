/**
 The canonical origin of a source repository. Two configured origins name the same provider when they differ
 only in letter case, an explicit default port or an empty path; RFC 3986, sections 6.2.2.1 and 6.2.3.
 */
module RepositoryIdentity {
  import opened Text

  /**
   The parts of Go's standard library that work on hosts: `net.ParseIP` followed by `String`, and the
   percent-decoding of a URL's authority.
   */
  datatype Net = Net(ip: string -> Option<string>, unescape: string -> Option<string>)

  predicate HostChar(c: char) { IsLetter(c) || IsDigit(c) || c in ".-:[]" }

  /** The printed form of an IP address. */
  predicate IpText(s: string) {
    && 1 <= |s| <= 45 && s[|s| - 1] != '.'
    && forall c | c in s :: 'a' <= c <= 'f' || IsDigit(c) || c == '.' || c == ':'
  }

  /** What is assumed of the library: printed addresses parse to themselves and plain hosts decode to themselves. */
  ghost predicate Lawful(net: Net) {
    && (forall h | net.ip(h).Some? :: IpText(net.ip(h).value) && net.ip(net.ip(h).value) == net.ip(h))
    && (forall h | (forall c | c in h :: HostChar(c)) :: net.unescape(h) == Some(h))
  }

  // ---------- Lower case ----------

  /**
   `unicode.ToLower`, exact wherever the result is ASCII: besides A-Z only the Kelvin sign and the dotted capital
   I map into it. Other letters stay non-ASCII, and no accepted host holds one.
   */
  function Lower(c: char): char {
    if 'A' <= c <= 'Z' then (c as int + 32) as char
    else if c == '\U{212A}' then 'k'
    else if c == '\U{0130}' then 'i'
    else c
  }

  function ToLower(s: string): (r: string)
    ensures |r| == |s| && forall i | 0 <= i < |s| :: r[i] == Lower(s[i])
  {
    seq(|s|, i requires 0 <= i < |s| => Lower(s[i]))
  }

  // ---------- The URL parser, as far as an origin reaches it ----------

  datatype Url = Url(scheme: string, host: string, path: string)

  predicate RawAllowed(raw: string, maxLength: nat) {
    && raw != "" && ByteLength(raw) <= maxLength
    && forall c | c in raw :: c != '\\' && c != '?' && c != '#' && !IsSpace(c) && !IsControl(c)
  }

  predicate SchemeText(s: string) {
    s != "" && IsLetter(s[0]) && forall c | c in s :: IsLetter(c) || IsDigit(c) || c in "+-."
  }

  predicate OptionalPort(s: string) { s == "" || (s[0] == ':' && forall c | c in s[1..] :: IsDigit(c)) }

  /** The authority's port, if any, is a run of digits. */
  predicate PortShape(authority: string) {
    if HasPrefix(authority, "[") then
      LastIndexOf(authority, ']') >= 0 && OptionalPort(authority[LastIndexOf(authority, ']') + 1..])
    else
      LastIndexOf(authority, ':') >= 0 ==> OptionalPort(authority[LastIndexOf(authority, ':')..])
  }

  /** None for a parse error, an opaque URL, user information or no authority. */
  function ParseUrl(net: Net, raw: string): Option<Url> {
    var colon := IndexOf(raw, ':');
    var rest := raw[if colon < |raw| then colon + 1 else |raw|..];
    if !SchemeText(raw[..colon]) || !HasPrefix(rest, "//") then None
    else
      var slash := IndexOf(rest[2..], '/');
      var authority := rest[2..][..slash];
      if '@' in authority || !PortShape(authority) then None
      else match net.unescape(authority)
           case None => None
           case Some(host) => Some(Url(ToLower(raw[..colon]), host, rest[2..][slash..]))
  }

  /** `Hostname` and `Port` of a host. */
  function SplitHostPort(host: string): (string, string) {
    var colon := LastIndexOf(host, ':');
    var hasPort := colon >= 0 && OptionalPort(host[colon..]);
    var name := if hasPort then host[..colon] else host;
    (if |name| >= 2 && name[0] == '[' && name[|name| - 1] == ']' then name[1..|name| - 1] else name,
     if hasPort then host[colon + 1..] else "")
  }

  // ---------- The canonical origin ----------

  /** `^[a-z0-9](?:[a-z0-9-]{0,61}[a-z0-9])?$` */
  predicate HostLabel(s: string) {
    && 1 <= |s| <= 63 && s[0] != '-' && s[|s| - 1] != '-'
    && forall c | c in s :: 'a' <= c <= 'z' || IsDigit(c) || c == '-'
  }

  /** A host name that no browser takes for an IPv4 address. */
  predicate DnsHost(host: string) {
    var labels := Split(host, '.');
    var last := labels[|labels| - 1];
    !HasPrefix(last, "0x") && !AllDigits(last) && forall l | l in labels :: HostLabel(l)
  }

  function CanonicalHost(net: Net, rawHost: string, name: string): Option<string> {
    var host := ToLower(name);
    if host == "" || ByteLength(host) > 253 || HasSuffix(host, ".") || HasSuffix(rawHost, ":") then None
    else match net.ip(host)
         case Some(text) => Some(text)
         case None => if '[' in rawHost || ']' in rawHost || !DnsHost(host) then None else Some(host)
  }

  predicate PortText(port: string) {
    && ParseInt(port).Some? && 1 <= ParseInt(port).value <= 65535
    && FormatInt(ParseInt(port).value) == port
  }

  function CanonicalPort(port: string): Option<string> {
    if port == "" || port == "443" then Some("")
    else if PortText(port) then Some(port)
    else None
  }

  function ShownHost(host: string): string { if ':' in host then "[" + host + "]" else host }

  function Print(host: string, port: string): string {
    "https://" + ShownHost(host) + (if port == "" then "" else ":" + port)
  }

  /** `repositoryURL` for an origin, printed. */
  function Origin(net: Net, raw: string): Option<string> {
    if !RawAllowed(raw, 512) then None
    else match ParseUrl(net, raw)
      case None => None
      case Some(u) =>
        var split := SplitHostPort(u.host);
        var host, port := CanonicalHost(net, u.host, split.0), CanonicalPort(split.1);
        if u.scheme != "https" || u.host == "" || host.None? || port.None? || (u.path != "" && u.path != "/") then None
        else Some(Print(host.value, port.value))
  }

  /** `repositoryURL` step by step: the parsed URL's fields are rewritten one after the other. */
  method RepositoryUrl(net: Net, raw: string) returns (r: Option<string>)
    ensures r == Origin(net, raw)
  {
    hide ParseUrl, SplitHostPort, RawAllowed, ToLower, Split, ParseInt, FormatInt;
    if !RawAllowed(raw, 512) {
      return None;
    }
    var parsed := ParseUrl(net, raw);
    if parsed.None? || parsed.value.scheme != "https" || parsed.value.host == "" {
      return None;
    }
    var u, split := parsed.value, SplitHostPort(parsed.value.host);
    var host, port := ToLower(split.0), split.1;
    if host == "" || ByteLength(host) > 253 || HasSuffix(host, ".") || HasSuffix(u.host, ":") {
      return None;
    }
    var ip := net.ip(host);
    if ip.Some? {
      host := ip.value;
    } else {
      var labels := Split(host, '.');
      var last := labels[|labels| - 1];
      if '[' in u.host || ']' in u.host || HasPrefix(last, "0x") || AllDigits(last) {
        return None;
      }
      var i := 0;
      while i < |labels|
        invariant 0 <= i <= |labels| && forall j | 0 <= j < i :: HostLabel(labels[j])
      {
        var part := labels[i];
        if part == "" || |part| > 63 || part[0] == '-' || part[|part| - 1] == '-'
           || exists c :: c in part && !('a' <= c <= 'z' || '0' <= c <= '9' || c == '-') {
          assert part in labels && !HostLabel(part);
          return None;
        }
        i := i + 1;
      }
    }
    if port != "" {
      var number := ParseInt(port);
      if (number.None? || number.value < 1 || number.value > 65535 || FormatInt(number.value) != port) && port != "443" {
        return None;
      }
      if port == "443" {
        port := "";
      }
    }
    if u.path != "" && u.path != "/" {
      return None;
    }
    return Some(Print(host, port));
  }

  function NormalizeRepositoryIdentity(net: Net, provider: string, origin: string, externalId: string): Option<string> {
    if provider != "github" && provider != "gitlab" && provider != "gitea" then None
    else if !(1 <= ByteLength(externalId) <= 255) || (exists c :: c in externalId && (IsSpace(c) || IsControl(c))) then None
    else Origin(net, origin)
  }

  // ---------- Canonical forms ----------

  predicate Canonical(net: Net, host: string, port: string) {
    && 1 <= |host| <= 253 && host[|host| - 1] != '.'
    && (if net.ip(host).Some? then net.ip(host) == Some(host) && IpText(host) else DnsHost(host))
    && (port == "" || (port != "443" && PortText(port)))
  }

  lemma {:induction false} AsciiLength(s: string)
    requires forall c | c in s :: c as int < 0x80
    ensures ByteLength(s) == |s|
  {
    if s != "" {
      assert s[0] in s && forall c | c in s[1..] :: c in s;
      AsciiLength(s[1..]);
    }
  }

  lemma {:induction false} SplitChars(s: string, separator: char, c: char)
    requires c in s && c != separator
    ensures exists p :: p in Split(s, separator) && c in p
  {
    var rest := Split(s[1..], separator);
    if c in s[1..] {
      SplitChars(s[1..], separator, c);
      var p :| p in rest && c in p;
      if p == rest[0] {
        assert s[0] != separator ==> c in Split(s, separator)[0];
        assert s[0] == separator ==> p in Split(s, separator);
      } else {
        assert p in rest[1..];
      }
    } else {
      assert c in Split(s, separator)[0];
    }
  }

  lemma DnsChars(host: string)
    requires DnsHost(host)
    ensures forall c | c in host :: 'a' <= c <= 'z' || IsDigit(c) || c == '-' || c == '.'
  {
    forall c | c in host && c != '.' ensures 'a' <= c <= 'z' || IsDigit(c) || c == '-' {
      SplitChars(host, '.', c);
    }
  }

  lemma CanonicalChars(net: Net, host: string, port: string)
    requires Canonical(net, host, port)
    ensures forall c | c in host :: 'a' <= c <= 'z' || IsDigit(c) || c == '-' || c == '.' || c == ':'
    ensures net.ip(host).None? ==> ':' !in host
    ensures forall c | c in port :: IsDigit(c)
    ensures |port| <= 5
    ensures ByteLength(host) == |host|
  {
    if net.ip(host).None? { DnsChars(host); }
    AsciiLength(host);
    if port != "" {
      var n := ParseInt(port).value;
      assert Pow10(5) == 100000 by { assert Pow10(1) == 10 && Pow10(2) == 100 && Pow10(3) == 1000 && Pow10(4) == 10000; }
      FormatLength(n, 5);
    }
  }

  /** Every normalised origin is a canonical form. */
  lemma OriginIsCanonical(net: Net, raw: string)
    requires Lawful(net) && Origin(net, raw).Some?
    ensures exists host, port :: Canonical(net, host, port) && Origin(net, raw) == Some(Print(host, port))
  {
    hide Lower, DnsHost, Print, PortShape, ParseUrl, SplitHostPort, RawAllowed, ToLower;
    var u := ParseUrl(net, raw).value;
    var split := SplitHostPort(u.host);
    var host, port := CanonicalHost(net, u.host, split.0).value, CanonicalPort(split.1).value;
    BytesAtLeast(ToLower(split.0));
    assert Canonical(net, host, port);
  }

  lemma BytesAtLeast(s: string)
    ensures |s| <= ByteLength(s)
  {
  }

  /** A host in any letter case, written out as it may stand in a raw origin. */
  predicate Spelling(shown: string, v: string) {
    (forall c | c in v :: c as int < 0x80) && ToLower(v) == shown
  }

  predicate PortSpelling(port: string, suffix: string) {
    suffix == ":" + (if port == "" then "443" else port) || (port == "" && suffix == "")
  }

  lemma SpellingChars(host: string, v: string)
    requires Spelling(ShownHost(host), v)
    requires forall c | c in host :: 'a' <= c <= 'z' || IsDigit(c) || c == '-' || c == '.' || c == ':'
    ensures |v| == |ShownHost(host)|
    ensures forall i | 0 <= i < |v| :: HostChar(v[i]) && (v[i] == ShownHost(host)[i] || (IsLetter(v[i]) && IsLetter(ShownHost(host)[i])))
  {
    var shown := ShownHost(host);
    forall i | 0 <= i < |v|
      ensures HostChar(v[i]) && (v[i] == shown[i] || (IsLetter(v[i]) && IsLetter(shown[i])))
    {
      assert v[i] in v && ToLower(v)[i] == Lower(v[i]);
      assert shown[i] in host || shown[i] == '[' || shown[i] == ']';
    }
  }

  predicate PlainText(v: string) { v != "" && forall i | 0 <= i < |v| :: v[i] != ':' && v[i] != '[' && v[i] != ']' }

  predicate BracketText(v: string) { |v| >= 2 && v[0] == '[' && v[|v| - 1] == ']' }

  predicate PortSuffix(digits: string, suffix: string) {
    (forall c | c in digits :: IsDigit(c)) && suffix == if digits == "" then "" else ":" + digits
  }

  lemma PlainSplit(v: string, digits: string, suffix: string)
    requires PlainText(v) && PortSuffix(digits, suffix)
    ensures PortShape(v + suffix) && SplitHostPort(v + suffix) == (v, digits)
    ensures !HasSuffix(v + suffix, ":") && '[' !in v + suffix && ']' !in v + suffix
  {
    hide IsDigit, OptionalPort, LastIndexOf, PortShape, SplitHostPort;
    SuffixChars(v, digits, suffix);
    NoSuffix(v, ':');
    if digits == "" {
      assert v + suffix == v;
      PlainBare(v);
    } else {
      PlainPort(v, digits, suffix);
    }
  }

  lemma PlainBare(v: string)
    requires PlainText(v)
    ensures PortShape(v) && SplitHostPort(v) == (v, "")
  {
    hide IsDigit, OptionalPort;
    assert v[0] != '[' && LastIndexOf(v, ':') == -1;
  }

  lemma PlainPort(v: string, digits: string, suffix: string)
    requires PlainText(v) && PortSuffix(digits, suffix) && digits != ""
    ensures PortShape(v + suffix) && SplitHostPort(v + suffix) == (v, digits)
  {
    hide IsDigit, OptionalPort, LastIndexOf;
    LastColonAfter(v, digits, suffix);
    var a := v + suffix;
    assert a[0] == v[0] && a[..|v|] == v && a[|v| + 1..] == digits;
  }

  lemma BracketSplit(v: string, digits: string, suffix: string)
    requires BracketText(v) && PortSuffix(digits, suffix)
    ensures PortShape(v + suffix) && SplitHostPort(v + suffix) == (v[1..|v| - 1], digits)
    ensures !HasSuffix(v + suffix, ":")
  {
    var a := v + suffix;
    LastBracket(v, digits, suffix);
    if digits == "" {
      assert a == v;
      BareBracket(v);
    } else {
      SuffixChars(v, digits, suffix);
      LastColonAfter(v, digits, suffix);
      hide OptionalPort, PortSuffix, IsDigit, LastIndexOf, PortShape;
      assert a[..|v|] == v && a[|v| + 1..] == digits;
      assert suffix != "";
    }
  }

  lemma BareBracket(v: string)
    requires BracketText(v)
    ensures SplitHostPort(v) == (v[1..|v| - 1], "") && !HasSuffix(v, ":")
  {
    NoSuffix(v, ':');
    var colon := LastIndexOf(v, ':');
    if colon >= 0 { BracketIsNoPort(v, colon); }
  }

  lemma LastBracket(v: string, digits: string, suffix: string)
    requires BracketText(v) && PortSuffix(digits, suffix)
    ensures PortShape(v + suffix)
  {
    var a := v + suffix;
    SuffixChars(v, digits, suffix);
    assert OptionalPort(suffix) by {
      if digits != "" { LastColonAfter(v, digits, suffix); }
    }
    hide OptionalPort, PortSuffix, IsDigit;
    assert a[0] == '[' && a[|v| - 1] == ']';
    assert LastIndexOf(a, ']') == |v| - 1 && a[|v| - 1 + 1..] == suffix;
  }

  lemma BracketIsNoPort(v: string, colon: int)
    requires BracketText(v) && 0 <= colon < |v|
    ensures !OptionalPort(v[colon..])
  {
    if colon < |v| - 1 { assert v[|v| - 1] in v[colon..][1..]; }
  }

  /** Spelling a host without brackets leaves it plain, spelling one with brackets keeps them at the ends. */
  lemma SpelledHost(host: string, v: string)
    requires host != "" && Spelling(ShownHost(host), v)
    requires forall c | c in host :: 'a' <= c <= 'z' || IsDigit(c) || c == '-' || c == '.' || c == ':'
    ensures if ':' in host then BracketText(v) && ToLower(v[1..|v| - 1]) == host else PlainText(v) && ToLower(v) == host
  {
    SpellingChars(host, v);
    var shown := ShownHost(host);
    if ':' in host {
      assert shown[0] == '[' && shown[|shown| - 1] == ']' && shown[1..|shown| - 1] == host;
      assert ToLower(v[1..|v| - 1]) == shown[1..|v| - 1];
    } else {
      forall i | 0 <= i < |v| ensures v[i] != ':' && v[i] != '[' && v[i] != ']' {
        assert shown[i] in host;
      }
    }
  }

  lemma SuffixChars(v: string, digits: string, suffix: string)
    requires PortSuffix(digits, suffix)
    ensures forall i | |v| <= i < |v + suffix| :: (v + suffix)[i] != '[' && (v + suffix)[i] != ']'
    ensures !HasSuffix(v + suffix, ":") || (suffix == "" && HasSuffix(v, ":"))
  {
    var a := v + suffix;
    forall i | |v| <= i < |a| ensures a[i] == ':' || IsDigit(a[i]) {
      assert a[i] == suffix[i - |v|];
      assert i > |v| ==> suffix[i - |v|] == digits[i - |v| - 1] && digits[i - |v| - 1] in digits;
    }
    if digits != "" {
      assert a[|a| - 1] == digits[|digits| - 1] && digits[|digits| - 1] in digits;
      assert a[|a| - 1..][0] == a[|a| - 1];
    } else {
      assert a == v;
    }
  }

  lemma LastColonAfter(v: string, digits: string, suffix: string)
    requires digits != "" && PortSuffix(digits, suffix)
    ensures LastIndexOf(v + suffix, ':') == |v| && (v + suffix)[|v|..] == suffix && OptionalPort(suffix)
  {
    var a := v + suffix;
    assert a[|v|] == ':';
    forall i | |v| < i < |a| ensures a[i] != ':' {
      assert a[i] == digits[i - |v| - 1] && digits[i - |v| - 1] in digits;
    }
  }

  /** Scheme, authority and path of a spelled-out origin. */
  lemma SpelledUrl(net: Net, scheme: string, a: string, slash: string)
    requires Lawful(net) && SchemeText(scheme) && ToLower(scheme) == "https"
    requires (forall c | c in a :: HostChar(c)) && PortShape(a) && (slash == "" || slash == "/")
    ensures ParseUrl(net, scheme + "://" + a + slash) == Some(Url("https", a, slash))
  {
    var raw := scheme + "://" + a + slash;
    assert '@' !in a && net.unescape(a) == Some(a);
    SchemeEnds(scheme, "//" + a + slash);
    hide Lawful, PortShape, ToLower, SchemeText, HostChar;
    var rest := "//" + a + slash;
    assert raw == scheme + ":" + rest;
    assert raw[..|scheme|] == scheme && raw[|scheme| + 1..] == rest && rest[2..] == a + slash;
    AuthorityEnds(a, slash);
  }

  lemma SchemeEnds(scheme: string, rest: string)
    requires SchemeText(scheme)
    ensures IndexOf(scheme + ":" + rest, ':') == |scheme|
  {
    var raw := scheme + ":" + rest;
    forall i | 0 <= i < |scheme| ensures raw[i] != ':' {
      assert raw[i] == scheme[i] && scheme[i] in scheme;
    }
    assert raw[|scheme|] == ':';
  }

  lemma AuthorityEnds(a: string, slash: string)
    requires (forall c | c in a :: HostChar(c)) && (slash == "" || slash == "/")
    ensures IndexOf(a + slash, '/') == |a| && (a + slash)[..|a|] == a && (a + slash)[|a|..] == slash
  {
    forall i | 0 <= i < |a| ensures (a + slash)[i] != '/' {
      assert (a + slash)[i] == a[i] && a[i] in a;
    }
    assert slash != "" ==> (a + slash)[|a|] == '/';
  }

  lemma SpelledAllowed(scheme: string, a: string, slash: string)
    requires SchemeText(scheme) && |scheme| == 5 && |a| <= 261 && (slash == "" || slash == "/")
    requires forall c | c in a :: HostChar(c)
    ensures RawAllowed(scheme + "://" + a + slash, 512)
  {
    AsciiLength(scheme + "://" + a + slash);
  }

  lemma SpelledChars(net: Net, host: string, port: string, v: string, suffix: string)
    requires Canonical(net, host, port) && Spelling(ShownHost(host), v) && PortSpelling(port, suffix)
    ensures (forall c | c in v + suffix :: HostChar(c)) && |v + suffix| <= 261 && v != ""
  {
    CanonicalChars(net, host, port);
    SpelledSuffix(port, suffix);
    SpellingChars(host, v);
    hide HostChar, ToLower;
    forall c | c in v + suffix ensures HostChar(c) {
      if c in v {
        var i :| 0 <= i < |v| && v[i] == c;
      }
    }
  }

  lemma SpelledAuthority(net: Net, host: string, port: string, v: string, suffix: string)
    requires Canonical(net, host, port) && Spelling(ShownHost(host), v) && PortSpelling(port, suffix)
    ensures PortShape(v + suffix)
    ensures var split := SplitHostPort(v + suffix);
      CanonicalHost(net, v + suffix, split.0) == Some(host) && CanonicalPort(split.1) == Some(port)
  {
    hide IsDigit, OptionalPort, LastIndexOf, HostChar, HasSuffix, Lower, IpText, IsLetter;
    hide PortShape, SplitHostPort, ToLower, DnsHost, CanonicalPort, PortSpelling, Spelling, PortText, PlainText, BracketText, PortSuffix;
    var digits := SpelledDigits(port, suffix);
    CanonicalChars(net, host, port);
    SpelledSuffix(port, suffix);
    SpelledHost(host, v);
    NoSuffix(host, '.');
    if ':' in host {
      BracketSplit(v, digits, suffix);
    } else {
      PlainSplit(v, digits, suffix);
    }
  }

  lemma NoSuffix(s: string, c: char)
    requires s != "" && s[|s| - 1] != c
    ensures !HasSuffix(s, [c])
  {
    assert s[|s| - 1..][0] == s[|s| - 1];
  }

  function SpelledDigits(port: string, suffix: string): string { if suffix == "" then "" else if port == "" then "443" else port }

  lemma SpelledSuffix(port: string, suffix: string)
    requires PortSpelling(port, suffix) && |port| <= 5 && (forall c | c in port :: IsDigit(c))
    requires port == "" || (port != "443" && PortText(port))
    ensures PortSuffix(SpelledDigits(port, suffix), suffix) && CanonicalPort(SpelledDigits(port, suffix)) == Some(port)
    ensures |suffix| <= 6 && forall c | c in suffix :: HostChar(c)
  {
    hide PortText;
  }

  /**
   The canonical origin of a host and port is what every spelling normalises to: any letter case of scheme and
   host, the default port or none, a final slash or none.
   */
  lemma EverySpellingNormalises(net: Net, host: string, port: string, scheme: string, v: string, suffix: string, slash: string)
    requires Lawful(net) && Canonical(net, host, port)
    requires SchemeText(scheme) && ToLower(scheme) == "https" && Spelling(ShownHost(host), v)
    requires PortSpelling(port, suffix) && (slash == "" || slash == "/")
    ensures Origin(net, scheme + "://" + v + suffix + slash) == Some(Print(host, port))
  {
    hide Spelling, PortSpelling, Canonical, SchemeText, Lawful, RawAllowed, ParseUrl, SplitHostPort, CanonicalHost, CanonicalPort, Print;
    var a := v + suffix;
    SpelledChars(net, host, port, v, suffix);
    SpelledAuthority(net, host, port, v, suffix);
    SpelledUrl(net, scheme, a, slash);
    SpelledAllowed(scheme, a, slash);
    assert scheme + "://" + v + suffix + slash == scheme + "://" + a + slash;
  }

  /** Normalisation is idempotent, and the normal forms are exactly the canonical origins. */
  lemma FixedPoints(net: Net, o: string)
    requires Lawful(net)
    ensures Origin(net, o) == Some(o) <==> exists host, port :: Canonical(net, host, port) && o == Print(host, port)
    ensures Origin(net, o).Some? ==> Origin(net, Origin(net, o).value) == Origin(net, o)
  {
    hide Origin, Canonical, Lawful;
    if Origin(net, o).Some? {
      OriginIsCanonical(net, o);
      var host, port :| Canonical(net, host, port) && Origin(net, o) == Some(Print(host, port));
      PrintedNormalises(net, host, port);
    }
    if host, port :| Canonical(net, host, port) && o == Print(host, port) {
      PrintedNormalises(net, host, port);
    }
  }

  lemma PrintedNormalises(net: Net, host: string, port: string)
    requires Lawful(net) && Canonical(net, host, port)
    ensures Origin(net, Print(host, port)) == Some(Print(host, port))
  {
    hide Origin, Canonical, Lawful;
    var v, suffix := ShownHost(host), if port == "" then "" else ":" + port;
    assert Canonical(net, host, port);
    ShownIsSpelling(net, host, port);
    assert ToLower("https") == "https";
    EverySpellingNormalises(net, host, port, "https", v, suffix, "");
    assert "https" + "://" + v + suffix + "" == Print(host, port);
  }

  lemma ShownIsSpelling(net: Net, host: string, port: string)
    requires Canonical(net, host, port)
    ensures Spelling(ShownHost(host), ShownHost(host))
  {
    CanonicalChars(net, host, port);
    var shown := ShownHost(host);
    forall i | 0 <= i < |shown| ensures shown[i] as int < 0x80 && Lower(shown[i]) == shown[i] {
      assert shown[i] in host || shown[i] == '[' || shown[i] == ']';
    }
  }

  /** A registered identity is normalised to a fixed point of the same normalisation. */
  lemma IdentityIsIdempotent(net: Net, provider: string, origin: string, externalId: string)
    requires Lawful(net) && NormalizeRepositoryIdentity(net, provider, origin, externalId).Some?
    ensures var o := NormalizeRepositoryIdentity(net, provider, origin, externalId).value;
      NormalizeRepositoryIdentity(net, provider, o, externalId) == Some(o)
  {
    hide Origin, Lawful;
    FixedPoints(net, origin);
  }
}

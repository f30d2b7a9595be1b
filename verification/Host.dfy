/** Subdomain labels and the resolution of an inbound Host header against the tunnel domain. */
module Host {
  import opened Wrappers

  const MAX_LABEL_LENGTH := 63

  const RESERVED: set<string> := {"www", "control", "admin", "api"}

  predicate LabelRune(c: char) {
    'a' <= c <= 'z' || '0' <= c <= '9' || c == '-'
  }

  /** The grammar alone: 1 to 63 lowercase letters, digits or hyphens, no hyphen at an end. */
  predicate ValidLabel(subdomain: string) {
    && 1 <= |subdomain| <= MAX_LABEL_LENGTH
    && subdomain[0] != '-' && subdomain[|subdomain| - 1] != '-'
    && forall i | 0 <= i < |subdomain| :: LabelRune(subdomain[i])
  }

  /** What may be claimed: a label that is not kept for the control plane. */
  predicate ValidSubdomain(subdomain: string) {
    ValidLabel(subdomain) && subdomain !in RESERVED
  }

  method ValidateLabel(subdomain: string) returns (ok: bool)
    ensures ok <==>
      && 1 <= |subdomain| <= 63 && subdomain[0] != '-' && subdomain[|subdomain| - 1] != '-'
      && forall i | 0 <= i < |subdomain| :: 'a' <= subdomain[i] <= 'z' || '0' <= subdomain[i] <= '9' || subdomain[i] == '-'
    ensures ok <==> ValidLabel(subdomain)
  {
    if subdomain == "" || |subdomain| > MAX_LABEL_LENGTH {
      return false;
    }
    if subdomain[0] == '-' || subdomain[|subdomain| - 1] == '-' {
      return false;
    }
    for i := 0 to |subdomain|
      invariant forall k | 0 <= k < i :: LabelRune(subdomain[k])
    {
      if !LabelRune(subdomain[i]) {
        return false;
      }
    }
    return true;
  }

  method ValidateSubdomain(subdomain: string) returns (ok: bool)
    ensures ok <==> ValidLabel(subdomain) && subdomain !in {"www", "control", "admin", "api"}
    ensures ok <==> ValidSubdomain(subdomain)
  {
    ok := ValidateLabel(subdomain);
    if !ok {
      return;
    }
    return subdomain !in RESERVED;
  }

  /** A lower-casing of characters: fixed on ASCII, anything at all above it. */
  ghost predicate LowerCasing(fold: char -> char) {
    forall c: char | c < 128 as char ::
      fold(c) as int == if 'A' <= c <= 'Z' then c as int + 32 else c as int
  }

  /** The same text but for the case of ASCII letters. */
  predicate SameUpToCase(x: string, y: string) {
    && |x| == |y|
    && forall i | 0 <= i < |x| ::
         || x[i] == y[i]
         || ('A' <= x[i] <= 'Z' && y[i] as int == x[i] as int + 32)
         || ('A' <= y[i] <= 'Z' && x[i] as int == y[i] as int + 32)
  }

  predicate Ascii(s: string) {
    forall i | 0 <= i < |s| :: s[i] < 128 as char
  }

  lemma CaseFolds(fold: char -> char, x: string, y: string)
    requires LowerCasing(fold)
    ensures SameUpToCase(x, y) ==> Lower(fold, x) == Lower(fold, y)
    ensures Ascii(x) && Ascii(y) && Lower(fold, x) == Lower(fold, y) ==> SameUpToCase(x, y)
  {
    if SameUpToCase(x, y) {
      forall i | 0 <= i < |x| ensures fold(x[i]) == fold(y[i]) {
        assert fold(x[i]) as int == fold(y[i]) as int || x[i] == y[i];
      }
    }
    if Ascii(x) && Ascii(y) && Lower(fold, x) == Lower(fold, y) {
      assert |x| == |Lower(fold, x)| == |y|;
      forall i | 0 <= i < |x|
        ensures x[i] == y[i] || ('A' <= x[i] <= 'Z' && y[i] as int == x[i] as int + 32) || ('A' <= y[i] <= 'Z' && x[i] as int == y[i] as int + 32)
      {
        assert Lower(fold, x)[i] == Lower(fold, y)[i];
      }
    }
  }

  function Lower(fold: char -> char, s: string): string {
    seq(|s|, i requires 0 <= i < |s| => fold(s[i]))
  }

  function TrimDot(s: string): string {
    if |s| > 0 && s[|s| - 1] == '.' then s[..|s| - 1] else s
  }

  predicate HasSuffix(s: string, suffix: string) {
    |suffix| <= |s| && s[|s| - |suffix|..] == suffix
  }

  /** The index of the last occurrence of c, or None. */
  function LastIndex(s: string, c: char): (r: Option<nat>)
    ensures r.None? <==> c !in s
    ensures r.Some? ==> r.value < |s| && s[r.value] == c && c !in s[r.value + 1..]
  {
    if s == [] then None
    else if s[|s| - 1] == c then Some(|s| - 1)
    else
      assert s == s[..|s| - 1] + [s[|s| - 1]];
      var r := LastIndex(s[..|s| - 1], c);
      assert r.Some? ==> s[r.value + 1..] == s[..|s| - 1][r.value + 1..] + [s[|s| - 1]];
      r
  }

  /** The index of the first occurrence of c, or None. */
  function FirstIndex(s: string, c: char): (r: Option<nat>)
    ensures r.None? <==> c !in s
    ensures r.Some? ==> r.value < |s| && s[r.value] == c && c !in s[..r.value]
  {
    if s == [] then None
    else if s[0] == c then Some(0)
    else
      var r := FirstIndex(s[1..], c);
      assert s == [s[0]] + s[1..];
      assert r.Some? ==> s[..r.value + 1] == [s[0]] + s[1..][..r.value];
      if r.Some? then Some(r.value + 1) else None
  }

  /** The host half of the standard library's host and port splitting; None for its errors. */
  function SplitHost(hostport: string): Option<string> {
    var colon := LastIndex(hostport, ':');
    if colon.None? then None
    else if hostport[0] == '[' then
      var end := FirstIndex(hostport, ']');
      if end.None? || end.value + 1 != colon.value then None
      else if '[' in hostport[1..] || ']' in hostport[end.value + 1..] then None
      else Some(hostport[1..end.value])
    else if ':' in hostport[..colon.value] then None
    else if '[' in hostport || ']' in hostport then None
    else Some(hostport[..colon.value])
  }

  function HostWithoutPort(host: string): string {
    if ':' !in host then host
    else match SplitHost(host)
      case Some(name) => name
      case None => host
  }

  function Name(fold: char -> char, host: string): string {
    Lower(fold, TrimDot(HostWithoutPort(host)))
  }

  function Suffix(fold: char -> char, domain: string): string {
    "." + Lower(fold, TrimDot(domain))
  }

  function HostSubdomain(fold: char -> char, host: string, domain: string): Option<string> {
    var name := Name(fold, host);
    var suffix := Suffix(fold, domain);
    if !HasSuffix(name, suffix) then None
    else
      var subdomain := name[..|name| - |suffix|];
      if subdomain == "" || '.' in subdomain then None
      else if !ValidLabel(subdomain) then None
      else Some(subdomain)
  }

  /** A host is accepted for a label exactly when the name and suffix it is compared by say so. */
  lemma AcceptedByName(fold: char -> char, host: string, domain: string, subdomain: string)
    ensures HostSubdomain(fold, host, domain) == Some(subdomain)
       <==> ValidLabel(subdomain) && Name(fold, host) == subdomain + Suffix(fold, domain)
  {
    var name, suffix := Name(fold, host), Suffix(fold, domain);
    if HasSuffix(name, suffix) {
      assert name == name[..|name| - |suffix|] + suffix;
    }
    if ValidLabel(subdomain) && name == subdomain + suffix {
      assert '.' !in subdomain;
      assert name[|name| - |suffix|..] == suffix;
      assert name[..|name| - |suffix|] == subdomain;
    }
  }

  /** A valid label and a dot lower-case to themselves. */
  lemma LabelsLowerToThemselves(fold: char -> char, subdomain: string, domain: string)
    requires LowerCasing(fold) && ValidLabel(subdomain)
    ensures Lower(fold, subdomain + "." + TrimDot(domain)) == subdomain + Suffix(fold, domain)
  {
    forall i | 0 <= i < |subdomain| ensures fold(subdomain[i]) == subdomain[i] {
      assert LabelRune(subdomain[i]);
    }
    assert fold('.') == '.';
    assert Lower(fold, subdomain + "." + TrimDot(domain)) == Lower(fold, subdomain) + Lower(fold, ".") + Lower(fold, TrimDot(domain));
    assert Lower(fold, subdomain) == subdomain && Lower(fold, ".") == ".";
  }

  /** A host is accepted for a label exactly when, without its port and one trailing dot, it has the
      length of label.domain and the same lower case at every position. */
  lemma AcceptedExactly(fold: char -> char, host: string, domain: string, subdomain: string)
    requires LowerCasing(fold)
    ensures var x, y := TrimDot(HostWithoutPort(host)), subdomain + "." + TrimDot(domain);
      HostSubdomain(fold, host, domain) == Some(subdomain)
      <==> ValidLabel(subdomain) && |x| == |y| && forall i | 0 <= i < |x| :: fold(x[i]) == fold(y[i])
  {
    AcceptedByName(fold, host, domain, subdomain);
    var x, y := TrimDot(HostWithoutPort(host)), subdomain + "." + TrimDot(domain);
    if ValidLabel(subdomain) { LabelsLowerToThemselves(fold, subdomain, domain); }
    hide HostSubdomain, HostWithoutPort, TrimDot, ValidLabel, Suffix;
    LowerIsPointwise(fold, x, y);
  }

  lemma LowerIsPointwise(fold: char -> char, x: string, y: string)
    ensures Lower(fold, x) == Lower(fold, y) <==> |x| == |y| && forall i | 0 <= i < |x| :: fold(x[i]) == fold(y[i])
  {
    if Lower(fold, x) == Lower(fold, y) {
      assert |x| == |Lower(fold, x)| == |y|;
      forall i | 0 <= i < |x| ensures fold(x[i]) == fold(y[i]) {
        assert Lower(fold, x)[i] == Lower(fold, y)[i];
      }
    }
  }

  /** In ASCII: exactly when it is label.domain but for the case of letters. */
  lemma AcceptedUpToCase(fold: char -> char, host: string, domain: string, subdomain: string)
    requires LowerCasing(fold) && Ascii(TrimDot(HostWithoutPort(host))) && Ascii(subdomain + "." + TrimDot(domain))
    ensures HostSubdomain(fold, host, domain) == Some(subdomain)
       <==> ValidLabel(subdomain) && SameUpToCase(TrimDot(HostWithoutPort(host)), subdomain + "." + TrimDot(domain))
  {
    var x, y := TrimDot(HostWithoutPort(host)), subdomain + "." + TrimDot(domain);
    AcceptedExactly(fold, host, domain, subdomain);
    hide HostSubdomain, HostWithoutPort, TrimDot, ValidLabel;
    LowerIsPointwise(fold, x, y);
    CaseFolds(fold, x, y);
  }

  predicate PlainText(s: string) {
    ':' !in s && '[' !in s && ']' !in s
  }

  /** A port is cut off again. */
  lemma PortIsStripped(name: string, port: string)
    requires PlainText(name) && PlainText(port)
    ensures HostWithoutPort(name + ":" + port) == name
    ensures HostWithoutPort(name) == name
  {
    OneColon(name, port);
    var host := name + ":" + port;
    assert host[..|name|] == name;
    assert forall c | c in host :: c in name || c == ':' || c in port;
  }

  lemma {:induction false} LastIs(s: string, c: char, k: nat)
    requires k < |s| && s[k] == c && c !in s[k + 1..]
    ensures LastIndex(s, c) == Some(k)
  {
    var n := |s| - 1;
    if k < n {
      assert s[n] == s[k + 1..][n - k - 1];
      assert s[..n][k + 1..] == s[k + 1..][..n - k - 1];
      LastIs(s[..n], c, k);
    }
  }

  /** The colon that was added is the last one. */
  lemma OneColon(name: string, port: string)
    requires ':' !in port
    ensures LastIndex(name + ":" + port, ':') == Some(|name|)
  {
    var host := name + ":" + port;
    assert host[|name|] == ':' && host[|name| + 1..] == port;
    hide LastIndex;
    LastIs(host, ':', |name|);
  }

  /** A host that splits into this name and that port. */
  predicate Splits(host: string, name: string, port: string) {
    && PlainText(port)
    && ((PlainText(name) && host == name + ":" + port)
        || ('[' !in name && ']' !in name && host == "[" + name + "]" + ":" + port))
  }

  /** What stands before the port is what the standard library's splitting leaves, in every case: a
      plain name and a port, or a name in brackets and a port. */
  lemma PortExactly(host: string, name: string)
    ensures SplitHost(host) == Some(name) <==> exists port :: Splits(host, name, port)
  {
    if SplitHost(host) == Some(name) {
      if host[0] == '[' { BracketSplit(host, name); } else { PlainSplit(host, name); }
    }
    if port :| Splits(host, name, port) {
      hide SplitHost;
      if PlainText(name) && host == name + ":" + port { PlainJoin(name, port); } else { BracketJoin(name, port); }
    }
  }

  lemma SliceIsIn(s: string, i: nat, j: nat)
    requires i <= j <= |s|
    ensures forall c | c in s[i..j] :: c in s
  {
    forall c | c in s[i..j] ensures c in s {
      var k :| 0 <= k < j - i && s[i..j][k] == c;
      assert s[i + k] == c;
    }
  }

  lemma PlainSplit(host: string, name: string)
    requires SplitHost(host) == Some(name) && host != "" && host[0] != '['
    ensures exists port :: Splits(host, name, port)
  {
    var colon := LastIndex(host, ':').value;
    var port := host[colon + 1..];
    SliceIsIn(host, colon + 1, |host|);
    SliceIsIn(host, 0, colon);
    assert name == host[..colon];
    hide SplitHost, LastIndex;
    assert host == name + ":" + port;
    assert Splits(host, name, port);
  }

  lemma PlainJoin(name: string, port: string)
    requires PlainText(name) && PlainText(port)
    ensures SplitHost(name + ":" + port) == Some(name)
  {
    var host := name + ":" + port;
    OneColon(name, port);
    hide LastIndex;
    assert host[..|name|] == name;
    assert forall c | c in host :: c in name || c == ':' || c in port;
    assert host[0] == if name == "" then ':' else name[0];
  }

  lemma BracketParts(host: string, end: nat)
    requires 0 < end && end + 1 < |host| && host[0] == '[' && host[end] == ']' && host[end + 1] == ':'
    ensures host == "[" + host[1..end] + "]" + ":" + host[end + 2..]
  {
    assert host == host[..1] + host[1..end] + host[end..end + 1] + host[end + 1..end + 2] + host[end + 2..];
  }

  /** Where a bracketed host is cut, and what its parts do not hold. */
  lemma BracketCut(host: string, name: string) returns (end: nat)
    requires SplitHost(host) == Some(name) && host != "" && host[0] == '['
    ensures 0 < end && end + 1 < |host| && host[end] == ']' && host[end + 1] == ':' && name == host[1..end]
    ensures '[' !in host[1..] && ']' !in host[end + 1..] && ']' !in host[..end] && ':' !in host[end + 2..]
  {
    end := FirstIndex(host, ']').value;
  }

  lemma BracketSplit(host: string, name: string)
    requires SplitHost(host) == Some(name) && host != "" && host[0] == '['
    ensures exists port :: Splits(host, name, port)
  {
    var end := BracketCut(host, name);
    var port := host[end + 2..];
    hide SplitHost;
    BracketParts(host, end);
    assert name == host[1..][..end - 1] && name == host[..end][1..];
    assert port == host[1..][end + 1..] && port == host[end + 1..][1..];
    SliceIsIn(host[1..], 0, end - 1);
    SliceIsIn(host[..end], 1, end);
    SliceIsIn(host[1..], end + 1, |host| - 1);
    SliceIsIn(host[end + 1..], 1, |host| - end - 1);
    assert Splits(host, name, port);
  }

  lemma BracketJoin(name: string, port: string)
    requires PlainText(port) && '[' !in name && ']' !in name
    ensures SplitHost("[" + name + "]" + ":" + port) == Some(name)
  {
    var host := "[" + name + "]" + ":" + port;
    OneColon("[" + name + "]", port);
    FirstIs(host, ']', |name| + 1);
    assert host[1..|name| + 1] == name;
    assert forall c | c in host[1..] :: c in name || c in "]:" || c in port;
    assert host[|name| + 2..] == ":" + port;
  }

  lemma {:induction false} FirstIs(s: string, c: char, k: nat)
    requires k < |s| && s[k] == c && c !in s[..k]
    ensures FirstIndex(s, c) == Some(k)
  {
    if k > 0 {
      assert s[0] == s[..k][0];
      assert s[1..][..k - 1] == s[..k][1..];
      FirstIs(s[1..], c, k - 1);
    }
  }

  /** Printing then resolving. `written` is label.domain in any case. With a trailing dot it always
      resolves to the label; without one it does exactly when the spelling does not itself end in a
      dot, which it does only for an empty domain, a single dot, or a domain that ends in two dots.
      A port changes nothing. */
  lemma ResolutionInvertsPrinting(fold: char -> char, subdomain: string, domain: string, written: string, port: string)
    requires LowerCasing(fold)
    requires ValidLabel(subdomain)
    requires PlainText(written) && PlainText(port)
    requires SameUpToCase(written, subdomain + "." + TrimDot(domain))
    ensures HostSubdomain(fold, written + ".", domain) == Some(subdomain)
    ensures HostSubdomain(fold, written + "." + ":" + port, domain) == Some(subdomain)
    ensures HostSubdomain(fold, written, domain) == Some(subdomain) <==> written[|written| - 1] != '.'
    ensures HostSubdomain(fold, written + ":" + port, domain) == Some(subdomain)
       <==> written[|written| - 1] != '.'
  {
    CaseFolds(fold, written, subdomain + "." + TrimDot(domain));
    LabelsLowerToThemselves(fold, subdomain, domain);
    assert |written| == |Lower(fold, written)|;
    var dotted := written + ".";
    PortIsStripped(written, port);
    PortIsStripped(dotted, port);
    assert TrimDot(dotted) == written;
    hide HostSubdomain, SameUpToCase, ValidLabel, HostWithoutPort;
    forall host | host in {dotted, dotted + ":" + port, written, written + ":" + port} {
      AcceptedByName(fold, host, domain, subdomain);
    }
  }

  /** The plain spelling ends in a dot only for those degenerate domains. */
  lemma PlainSpelling(subdomain: string, domain: string)
    ensures (subdomain + "." + TrimDot(domain))[|subdomain| + |TrimDot(domain)|] == '.'
       <==> TrimDot(domain) == "" || TrimDot(TrimDot(domain)) != TrimDot(domain)
  {
  }

  /** The label and the domain as configured, printed as they stand, always resolve; with one more
      dot they do exactly when the domain has none of its own. */
  lemma VerbatimResolves(fold: char -> char, subdomain: string, domain: string)
    requires LowerCasing(fold) && ValidLabel(subdomain) && PlainText(domain)
    ensures HostSubdomain(fold, subdomain + "." + domain, domain) == Some(subdomain) <==> domain != ""
    ensures HostSubdomain(fold, subdomain + "." + domain + ".", domain) == Some(subdomain)
       <==> TrimDot(domain) == domain
  {
    var plain := subdomain + "." + domain;
    LabelsLowerToThemselves(fold, subdomain, domain);
    assert PlainText(subdomain) by { assert forall i | 0 <= i < |subdomain| :: LabelRune(subdomain[i]); }
    forall host | host in {plain, plain + "."} ensures HostWithoutPort(host) == host {
      assert ':' !in host;
    }
    AcceptedByName(fold, plain, domain, subdomain);
    AcceptedByName(fold, plain + ".", domain, subdomain);
    TrimOfPrinted(subdomain, domain);
    assert |Suffix(fold, domain)| == 1 + |TrimDot(domain)|;
    hide HostSubdomain, Suffix, HostWithoutPort, ValidLabel;
    assert |Name(fold, plain)| == |TrimDot(plain)| && |Name(fold, plain + ".")| == |plain|;
  }

  lemma TrimOfPrinted(subdomain: string, domain: string)
    ensures TrimDot(subdomain + "." + domain + ".") == subdomain + "." + domain
    ensures TrimDot(subdomain + "." + domain) == if domain == "" then subdomain else subdomain + "." + TrimDot(domain)
  {
    if domain != "" {
      assert (subdomain + "." + domain)[|subdomain| + |domain|] == domain[|domain| - 1];
    }
  }

  lemma SuffixEnds(s: string, suffix: string)
    requires s != "" && suffix != ""
    ensures HasSuffix(s, suffix) ==> s[|s| - 1] == suffix[|suffix| - 1]
  {
    if HasSuffix(s, suffix) { assert s[|s| - 1] == s[|s| - |suffix|..][|suffix| - 1]; }
  }

  lemma EndsApart(fold: char -> char, host: string, domain: string)
    requires LowerCasing(fold) && ':' !in host
    requires TrimDot(host) != "" && TrimDot(domain) != ""
    requires LabelRune(TrimDot(host)[|TrimDot(host)| - 1]) && TrimDot(domain)[|TrimDot(domain)| - 1] == '.'
    ensures HostSubdomain(fold, host, domain) == None
  {
    var name, suffix := Name(fold, host), Suffix(fold, domain);
    assert name[|name| - 1] != '.' && suffix[|suffix| - 1] == '.';
    SuffixEnds(name, suffix);
  }

  const TWO_DOTS := "example.com.."

  /** A domain the server can be given for which the plain spelling does not resolve. */
  lemma TwoDotsDoNotResolve(fold: char -> char)
    requires LowerCasing(fold)
    ensures HostSubdomain(fold, "app." + TrimDot(TWO_DOTS), TWO_DOTS) == None
  {
    var host := "app." + TrimDot(TWO_DOTS);
    assert TrimDot(TWO_DOTS) == "example.com.";
    assert TrimDot(host) == "app.example.com";
    hide HostSubdomain;
    EndsApart(fold, host, TWO_DOTS);
  }

  const MIXED := "APP.example.com"

  /** A host and a domain written in different cases. */
  lemma MixedCaseResolves(fold: char -> char)
    requires LowerCasing(fold)
    ensures HostSubdomain(fold, MIXED, "Example.COM") == Some("app")
  {
    var y := "app" + "." + TrimDot("Example.COM");
    assert y == "app.Example.COM" && HostWithoutPort(MIXED) == MIXED == TrimDot(MIXED);
    hide HostSubdomain, HostWithoutPort, TrimDot;
    assert SameUpToCase(MIXED, y);
    assert ValidLabel("app");
    CaseFolds(fold, MIXED, y);
    LowerIsPointwise(fold, MIXED, y);
    AcceptedExactly(fold, MIXED, "Example.COM", "app");
  }
}

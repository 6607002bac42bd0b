/** Field checks shared by both services (internal/validate/validate.go). */
module Validate {
  import opened Text

  datatype PortRange = PortRange(from: int, to: int)

  predicate Port(v: int) { 1 <= v <= 65535 }

  predicate UserRemotePort(v: int) { 1024 <= v <= 65535 }

  predicate Name(v: string) { 1 <= |TrimSpace(v)| <= 80 }

  predicate IsLetterOrDigit(c: char) {
    'a' <= c <= 'z' || 'A' <= c <= 'Z' || '0' <= c <= '9'
  }

  predicate IsIdChar(c: char) {
    IsLetterOrDigit(c) || c == '_' || c == '-'
  }

  /** The two id patterns: a letter or digit followed by `min - 1` to 63 id characters. */
  predicate IdPattern(v: string, min: nat) {
    min <= |v| <= 64 && v != "" && IsLetterOrDigit(v[0]) && forall i | 0 <= i < |v| :: IsIdChar(v[i])
  }

  /** net.ParseIP is a parameter. */
  predicate LocalIP(isIP: string -> bool, v: string) {
    v != "" && (isIP(v) || v == "localhost")
  }

  predicate Protocol(v: string) { v in {"tcp", "udp", "http", "https"} }

  predicate UnderSuffix(domain: string, suffix: string) {
    var trimmed := Lower(TrimSpace(suffix));
    var s := if HasPrefix(trimmed, ".") then trimmed[1..] else trimmed;
    Lower(domain) == s || HasSuffix(Lower(domain), "." + s)
  }

  predicate Domain(domain: string, suffixes: seq<string>) {
    && domain != "" && !ContainsAny(domain, " /\\:")
    && (|suffixes| == 0 || exists i | 0 <= i < |suffixes| :: UnderSuffix(domain, suffixes[i]))
  }

  predicate InSomeRange(port: int, ranges: seq<PortRange>) {
    exists i | 0 <= i < |ranges| :: ranges[i].from <= port <= ranges[i].to
  }

  /** What both services require of a list of allowed ports. */
  predicate ValidRange(r: PortRange) {
    UserRemotePort(r.from) && UserRemotePort(r.to) && r.from <= r.to
  }

  predicate ValidRanges(ranges: seq<PortRange>) {
    forall i | 0 <= i < |ranges| :: ValidRange(ranges[i])
  }
}

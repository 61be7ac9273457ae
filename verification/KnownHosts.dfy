/** A `known_hosts` file, asked whether a key is the one a host is recorded with. Key bytes are
    numbers, and the match of a hashed host field is a function given from outside. */
module KnownHosts {
  import opened Glob

  /** One item of a host field, `!` taken off and in lower case. */
  datatype HostPattern = HostPattern(negated: bool, pattern: string)

  datatype Host = Patterns(items: seq<HostPattern>) | Hashed(field: string)

  type Key = seq<int>

  datatype Entry = Entry(host: Host, key: Key)

  datatype Marker = NoMarker | Revoked | CertAuthority

  datatype Line = Line(marker: Marker, entry: Entry)

  /** Why a key is refused. */
  datatype Verdict = Accepted | RefusedRevoked | RefusedUnknownHost | RefusedOtherKey

  /** The address is one the items let in: by at least one of them, and kept out by none with `!`. */
  ghost predicate PatternsMatch(items: seq<HostPattern>, address: string) {
    && (exists i | 0 <= i < |items| :: !items[i].negated && Matches(items[i].pattern, address, 0, 0))
    && (forall i | 0 <= i < |items| && items[i].negated :: !Matches(items[i].pattern, address, 0, 0))
  }

  ghost predicate HostMatches(hashed: (string, string) -> bool, host: Host, address: string) {
    match host
    case Patterns(items) => PatternsMatch(items, address)
    case Hashed(field) => hashed(field, address)
  }

  method MatchPatterns(items: seq<HostPattern>, address: string) returns (matched: bool)
    ensures matched <==> PatternsMatch(items, address)
  {
    matched := false;
    for n := 0 to |items|
      invariant matched <==> exists i | 0 <= i < n :: !items[i].negated && Matches(items[i].pattern, address, 0, 0)
      invariant forall i | 0 <= i < n && items[i].negated :: !Matches(items[i].pattern, address, 0, 0)
    {
      var hit := WildcardMatch(items[n].pattern, address);
      if hit {
        if items[n].negated {
          return false;
        }
        matched := true;
      }
    }
  }

  ghost predicate Names(lines: seq<Line>, marker: Marker, key: Key) {
    exists i | 0 <= i < |lines| :: lines[i].marker == marker && lines[i].entry.key == key
  }

  ghost predicate Records(hashed: (string, string) -> bool, lines: seq<Line>, address: string) {
    exists i | 0 <= i < |lines| :: lines[i].marker == NoMarker && HostMatches(hashed, lines[i].entry.host, address)
  }

  ghost predicate RecordsKey(hashed: (string, string) -> bool, lines: seq<Line>, address: string, key: Key) {
    exists i | 0 <= i < |lines| ::
      lines[i].marker == NoMarker && lines[i].entry.key == key && HostMatches(hashed, lines[i].entry.host, address)
  }

  /** A key is accepted exactly when no line revokes it and a line without a marker records it
      for a host field that matches; the other verdicts say which of these failed first. */
  method Verify(hashed: (string, string) -> bool, lines: seq<Line>, address: string, key: Key)
    returns (verdict: Verdict)
    ensures verdict == Accepted <==> !Names(lines, Revoked, key) && RecordsKey(hashed, lines, address, key)
    ensures verdict == RefusedRevoked <==> Names(lines, Revoked, key)
    ensures verdict == RefusedUnknownHost <==> !Names(lines, Revoked, key) && !Records(hashed, lines, address)
  {
    for n := 0 to |lines|
      invariant forall i | 0 <= i < n :: !(lines[i].marker == Revoked && lines[i].entry.key == key)
    {
      if lines[n].marker == Revoked && lines[n].entry.key == key {
        return RefusedRevoked;
      }
    }
    var recorded := false;
    var same := false;
    for n := 0 to |lines|
      invariant recorded <==> exists i | 0 <= i < n ::
        lines[i].marker == NoMarker && HostMatches(hashed, lines[i].entry.host, address)
      invariant same <==> exists i | 0 <= i < n ::
        lines[i].marker == NoMarker && lines[i].entry.key == key && HostMatches(hashed, lines[i].entry.host, address)
    {
      if lines[n].marker == NoMarker {
        var hit;
        match lines[n].entry.host {
          case Patterns(items) => hit := MatchPatterns(items, address);
          case Hashed(field) => hit := hashed(field, address);
        }
        if hit {
          recorded := true;
          if lines[n].entry.key == key {
            same := true;
          }
        }
      }
    }
    verdict := if !recorded then RefusedUnknownHost else if same then Accepted else RefusedOtherKey;
  }
}

/** The default metric path prefix both writers derive from the local host name. */
module MetricPrefix {
  import opened Text

  /** The host name used when the local host name cannot be looked up. */
  const UnknownHost := "#unknown#"

  /** The host part of the prefix: the looked-up name with `.` turned into `_`, or
      `#unknown#` when the lookup failed. */
  function HostSegment(hostLookup: Option<string>): (r: string)
    ensures '.' !in r
    ensures hostLookup.Some? ==> r == ReplaceChar(hostLookup.value, '.', '_')
    ensures hostLookup.None? ==> r == UnknownHost
  {
    match hostLookup
    case Some(h) => ReplaceChar(h, '.', '_')
    case None => UnknownHost
  }

  /** The prefix stored when none is configured: `servers.<host>.`. */
  function DerivedPrefix(hostLookup: Option<string>): (p: string)
    ensures |p| >= 9 && p[..8] == "servers." && p[|p| - 1] == '.'
    ensures hostLookup.None? ==> p == "servers.#unknown#."
  {
    "servers." + HostSegment(hostLookup) + "."
  }

  /** A derived prefix splits on `.` into exactly `servers`, the host segment and an empty
      tail: it starts with `servers.`, ends with `.`, and has no other dot. */
  lemma DerivedPrefixShape(hostLookup: Option<string>)
    ensures var p, h := DerivedPrefix(hostLookup), HostSegment(hostLookup);
            |p| == |h| + 9 && p[..8] == "servers." && p[8..|p| - 1] == h && p[|p| - 1] == '.'
            && multiset(p)['.'] == 2
  {
    PrefixPieces(HostSegment(hostLookup));
  }

  /** The same on a plain dot-free host segment. */
  lemma PrefixPieces(h: string)
    requires '.' !in h
    ensures var p := "servers." + h + ".";
            |p| == |h| + 9 && p[..8] == "servers." && p[8..|p| - 1] == h && p[|p| - 1] == '.'
            && multiset(p)['.'] == 2
  {
    var p := "servers." + h + ".";
    assert multiset(p) == multiset("servers.") + multiset(h) + multiset(".");
    assert multiset(h)['.'] == 0;
    assert p[..8] == "servers.";
    assert p[8..|p| - 1] == h;
  }
}

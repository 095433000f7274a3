/** How a discovered service's bus name and root path are rebuilt from the last
    dot-separated segment of the name the bus advertised. */
module Naming {
  import opened MediaObjects

  predicate StartsWith(s: string, prefix: string)
  {
    |prefix| <= |s| && s[..|prefix|] == prefix
  }

  /** `s.split('.')[-1]`: the part of `s` after its last dot. */
  function LastSegment(s: string): string
    decreases |s|
  {
    if s == [] || s[|s| - 1] == '.' then []
    else LastSegment(s[..|s| - 1]) + [s[|s| - 1]]
  }

  /** The last segment is the longest suffix without a dot: a dot-free suffix
      that is the whole name or is preceded by a dot. */
  lemma {:induction false} LastSegmentIsLongestDotFreeSuffix(s: string)
    ensures var r := LastSegment(s);
            && |r| <= |s| && r == s[|s| - |r|..]
            && '.' !in r
            && (|r| < |s| ==> s[|s| - |r| - 1] == '.')
    decreases |s|
  {
    if s != [] && s[|s| - 1] != '.' {
      var init := s[..|s| - 1];
      LastSegmentIsLongestDotFreeSuffix(init);
      var r0 := LastSegment(init);
      assert LastSegment(s) == r0 + [s[|s| - 1]];
      assert init[|init| - |r0|..] + [s[|s| - 1]] == s[|s| - |r0| - 1..];
    }
  }

  /** The last segment is determined by any split of `s` into a head that is
      empty or ends in a dot and a dot-free tail. */
  lemma LastSegmentOfSplit(s: string, head: string, tail: string)
    requires s == head + tail
    requires '.' !in tail
    requires head == [] || head[|head| - 1] == '.'
    ensures LastSegment(s) == tail
  {
    LastSegmentIsLongestDotFreeSuffix(s);
    var r := LastSegment(s);
    assert r == s[|head|..] == tail;
  }

  /** The bus name discovery talks to: the prefix and the last segment. */
  function ServiceName(service: string): string
  {
    NAME_PREFIX + LastSegment(service)
  }

  /** The root object path: the path prefix and the last segment. */
  function ServicePath(service: string): string
  {
    PATH_PREFIX + LastSegment(service)
  }

  /** Whatever was advertised, the rebuilt name and path are the prefixes followed
      by one dot-free segment taken from the end of the advertised name. */
  lemma RebuiltNameCanonical(service: string)
    ensures StartsWith(ServiceName(service), NAME_PREFIX) && StartsWith(ServicePath(service), PATH_PREFIX)
    ensures ServiceName(service)[|NAME_PREFIX|..] == ServicePath(service)[|PATH_PREFIX|..]
    ensures '.' !in ServiceName(service)[|NAME_PREFIX|..]
    ensures var seg := ServiceName(service)[|NAME_PREFIX|..]; |seg| <= |service| && service[|service| - |seg|..] == seg
  {
    LastSegmentIsLongestDotFreeSuffix(service);
    assert ServiceName(service)[|NAME_PREFIX|..] == LastSegment(service);
    assert ServicePath(service)[|PATH_PREFIX|..] == LastSegment(service);
  }

  /** A name made of the prefix and one dot-free segment is rebuilt unchanged,
      and its path is the path prefix followed by that segment. */
  lemma CanonicalNameRebuilt(service: string)
    requires StartsWith(service, NAME_PREFIX)
    requires '.' !in service[|NAME_PREFIX|..]
    ensures ServiceName(service) == service
    ensures ServicePath(service) == PATH_PREFIX + service[|NAME_PREFIX|..]
  {
    var tail := service[|NAME_PREFIX|..];
    assert service == NAME_PREFIX + tail;
    LastSegmentOfSplit(service, NAME_PREFIX, tail);
  }

  /** Rebuilding is idempotent: the rebuilt name is itself canonical. */
  lemma ServiceNameIdempotent(service: string)
    ensures ServiceName(ServiceName(service)) == ServiceName(service)
    ensures ServicePath(ServiceName(service)) == ServicePath(service)
  {
    RebuiltNameCanonical(service);
    CanonicalNameRebuilt(ServiceName(service));
    assert ServiceName(service)[|NAME_PREFIX|..] == LastSegment(service);
  }

  /** The prefix ends in a dot, so the last segment of a prefixed name is the
      last segment of what follows the prefix. */
  lemma LastSegmentAfterPrefix(tail: string)
    ensures LastSegment(NAME_PREFIX + tail) == LastSegment(tail)
  {
    LastSegmentIsLongestDotFreeSuffix(tail);
    var r := LastSegment(tail);
    var head := NAME_PREFIX + tail[..|tail| - |r|];
    assert tail == tail[..|tail| - |r|] + r;
    assert NAME_PREFIX + tail == head + r;
    if |r| < |tail| {
      assert head[|head| - 1] == tail[|tail| - |r| - 1];
    }
    LastSegmentOfSplit(NAME_PREFIX + tail, head, r);
  }

  /** A name whose part after the prefix has a dot keeps only its last segment
      (`org.gnome.UPnP.MediaServer2.a.b` is talked to as `org.gnome.UPnP.MediaServer2.b`),
      so the rebuilt name differs from the advertised one. */
  lemma DottedSuffixShortened(tail: string)
    requires '.' in tail
    ensures ServiceName(NAME_PREFIX + tail) == NAME_PREFIX + LastSegment(tail)
    ensures ServicePath(NAME_PREFIX + tail) == PATH_PREFIX + LastSegment(tail)
    ensures ServiceName(NAME_PREFIX + tail) != NAME_PREFIX + tail
  {
    LastSegmentAfterPrefix(tail);
    LastSegmentIsLongestDotFreeSuffix(tail);
    assert LastSegment(tail) != tail;
    assert (NAME_PREFIX + LastSegment(tail))[|NAME_PREFIX|..] == LastSegment(tail);
    assert (NAME_PREFIX + tail)[|NAME_PREFIX|..] == tail;
  }

  /** The rebuilt name is the advertised one exactly when it has the prefix and
      no dot after it. */
  lemma ServiceNameUnchangedIff(service: string)
    ensures ServiceName(service) == service <==>
            StartsWith(service, NAME_PREFIX) && '.' !in service[|NAME_PREFIX|..]
  {
    if StartsWith(service, NAME_PREFIX) && '.' !in service[|NAME_PREFIX|..] {
      CanonicalNameRebuilt(service);
    }
    RebuiltNameCanonical(service);
  }
}

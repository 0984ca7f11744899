/** Selection of the grok pattern the tail input uses to split a syslog line, by the
    family of the host's operating system (`determineGrokPattern`). */
module Grok {
  import opened Text

  /** The capture groups the patterns are built from. */
  const ISO_TIMESTAMP_GROUP := "%{TIMESTAMP_ISO8601:timestamp}"
  const SYSLOG_TIMESTAMP_GROUP := "%{SYSLOGTIMESTAMP:timestamp}"
  const HOSTNAME_GROUP := "%{SYSLOGHOST:hostname}"
  const PROGRAM_GROUP := "%{PROG:program}"
  /** An optional `[pid]`; the backslashes are part of the pattern text. */
  const PID_GROUP := "(?:\\[%{POSINT:pid}\\])?"
  const MESSAGE_GROUP := "%{GREEDYDATA:message}"

  /** ISO-8601 timestamp, optional `[pid]` after the program name. */
  const DEBIAN_PATTERN := ISO_TIMESTAMP_GROUP + " " + HOSTNAME_GROUP + " " + PROGRAM_GROUP + PID_GROUP + ": " + MESSAGE_GROUP
  /** Syslog-native timestamp (no year), optional `[pid]` after the program name. */
  const REDHAT_PATTERN := SYSLOG_TIMESTAMP_GROUP + " " + HOSTNAME_GROUP + " " + PROGRAM_GROUP + PID_GROUP + ": " + MESSAGE_GROUP
  /** ISO-8601 timestamp and no pid group. */
  const FALLBACK_PATTERN := ISO_TIMESTAMP_GROUP + " " + HOSTNAME_GROUP + " " + PROGRAM_GROUP + ": " + MESSAGE_GROUP

  datatype OsFamily = DebianFamily | RedHatFamily | Unknown

  predicate IsDebianName(os: string)
  {
    Contains(os, "ubuntu") || Contains(os, "debian")
  }

  predicate IsRedHatName(os: string)
  {
    Contains(os, "redhat") || Contains(os, "centos") || Contains(os, "fedora")
  }

  /** The if / else-if chain of the source on a lower-cased OS name: the Debian test is
      made first, so it wins over the RedHat test; everything else is Unknown. */
  function Classify(os: string): (f: OsFamily)
    ensures f == DebianFamily <==> IsDebianName(os)
    ensures f == RedHatFamily <==> !IsDebianName(os) && IsRedHatName(os)
    ensures f == Unknown <==> !IsDebianName(os) && !IsRedHatName(os)
  {
    if Contains(os, "ubuntu") || Contains(os, "debian") then DebianFamily
    else if Contains(os, "redhat") || Contains(os, "centos") || Contains(os, "fedora") then RedHatFamily
    else Unknown
  }

  function PatternFor(f: OsFamily): string
  {
    match f
    case DebianFamily => DEBIAN_PATTERN
    case RedHatFamily => REDHAT_PATTERN
    case Unknown => FALLBACK_PATTERN
  }

  /** `determineGrokPattern` with the `os.name` property passed in: lower-case the name,
      classify it, return that family's pattern. */
  function DetermineGrokPattern(osName: string): (p: string)
    ensures p == DEBIAN_PATTERN || p == REDHAT_PATTERN || p == FALLBACK_PATTERN
    ensures p == DEBIAN_PATTERN <==> IsDebianName(ToLowerAscii(osName))
    ensures p == REDHAT_PATTERN <==> !IsDebianName(ToLowerAscii(osName)) && IsRedHatName(ToLowerAscii(osName))
    ensures p == FALLBACK_PATTERN <==> !IsDebianName(ToLowerAscii(osName)) && !IsRedHatName(ToLowerAscii(osName))
  {
    PatternFor(Classify(ToLowerAscii(osName)))
  }

  /** The three patterns are pairwise different, so the family can be read back from the
      chosen pattern. */
  lemma PatternsDistinct()
    ensures DEBIAN_PATTERN != REDHAT_PATTERN
    ensures DEBIAN_PATTERN != FALLBACK_PATTERN
    ensures REDHAT_PATTERN != FALLBACK_PATTERN
  {
    assert |DEBIAN_PATTERN| == |REDHAT_PATTERN| + 2;
    assert |DEBIAN_PATTERN| == |FALLBACK_PATTERN| + |PID_GROUP|;
    assert |REDHAT_PATTERN| + 2 == |FALLBACK_PATTERN| + |PID_GROUP|;
  }

  /** The family recovered from the selected pattern is the family of the OS name. */
  lemma PatternDeterminesFamily(f: OsFamily, g: OsFamily)
    ensures PatternFor(f) == PatternFor(g) <==> f == g
  {
    PatternsDistinct();
  }

  /** Where each piece sits in a concatenation of eight pieces. */
  lemma PiecePositions(t: string, s1: string, h: string, s2: string, pr: string, pid: string, c: string, m: string)
    ensures var p := t + s1 + h + s2 + pr + pid + c + m;
      && OccursAt(p, t, 0)
      && OccursAt(p, h, |t| + |s1|)
      && OccursAt(p, pr, |t| + |s1| + |h| + |s2|)
      && OccursAt(p, pid, |t| + |s1| + |h| + |s2| + |pr|)
      && OccursAt(p, m, |p| - |m|)
  {
    OccursAtEnd([], t);
    assert [] + t == t;
    OccursExtend(t, t, 0, s1);
    OccursExtend(t + s1, t, 0, h);
    OccursExtend(t + s1 + h, t, 0, s2);
    OccursExtend(t + s1 + h + s2, t, 0, pr);
    OccursExtend(t + s1 + h + s2 + pr, t, 0, pid);
    OccursExtend(t + s1 + h + s2 + pr + pid, t, 0, c);
    OccursExtend(t + s1 + h + s2 + pr + pid + c, t, 0, m);

    OccursAtEnd(t + s1, h);
    OccursExtend(t + s1 + h, h, |t| + |s1|, s2);
    OccursExtend(t + s1 + h + s2, h, |t| + |s1|, pr);
    OccursExtend(t + s1 + h + s2 + pr, h, |t| + |s1|, pid);
    OccursExtend(t + s1 + h + s2 + pr + pid, h, |t| + |s1|, c);
    OccursExtend(t + s1 + h + s2 + pr + pid + c, h, |t| + |s1|, m);

    OccursAtEnd(t + s1 + h + s2, pr);
    OccursExtend(t + s1 + h + s2 + pr, pr, |t| + |s1| + |h| + |s2|, pid);
    OccursExtend(t + s1 + h + s2 + pr + pid, pr, |t| + |s1| + |h| + |s2|, c);
    OccursExtend(t + s1 + h + s2 + pr + pid + c, pr, |t| + |s1| + |h| + |s2|, m);

    OccursAtEnd(t + s1 + h + s2 + pr, pid);
    OccursExtend(t + s1 + h + s2 + pr + pid, pid, |t| + |s1| + |h| + |s2| + |pr|, c);
    OccursExtend(t + s1 + h + s2 + pr + pid + c, pid, |t| + |s1| + |h| + |s2| + |pr|, m);

    OccursAtEnd(t + s1 + h + s2 + pr + pid + c, m);
  }

  /** The groups every pattern shares: it starts with its timestamp group, holds the
      hostname and program groups and ends with the greedy message group. */
  predicate CommonGroups(p: string, timestamp: string)
  {
    && OccursAt(p, timestamp, 0)
    && Contains(p, HOSTNAME_GROUP)
    && Contains(p, PROGRAM_GROUP)
    && OccursAt(p, MESSAGE_GROUP, |p| - |MESSAGE_GROUP|)
  }

  /** The Debian pattern: ISO-8601 timestamp first, and the pid group. */
  lemma DebianGroups()
    ensures CommonGroups(DEBIAN_PATTERN, ISO_TIMESTAMP_GROUP)
    ensures Contains(DEBIAN_PATTERN, PID_GROUP)
  {
    PiecePositions(ISO_TIMESTAMP_GROUP, " ", HOSTNAME_GROUP, " ", PROGRAM_GROUP, PID_GROUP, ": ", MESSAGE_GROUP);
    ContainsAt(DEBIAN_PATTERN, HOSTNAME_GROUP, |ISO_TIMESTAMP_GROUP| + 1);
    ContainsAt(DEBIAN_PATTERN, PROGRAM_GROUP, |ISO_TIMESTAMP_GROUP| + 1 + |HOSTNAME_GROUP| + 1);
    ContainsAt(DEBIAN_PATTERN, PID_GROUP, |ISO_TIMESTAMP_GROUP| + 1 + |HOSTNAME_GROUP| + 1 + |PROGRAM_GROUP|);
  }

  /** The RedHat pattern: syslog timestamp first, and the pid group. */
  lemma RedHatGroups()
    ensures CommonGroups(REDHAT_PATTERN, SYSLOG_TIMESTAMP_GROUP)
    ensures Contains(REDHAT_PATTERN, PID_GROUP)
  {
    PiecePositions(SYSLOG_TIMESTAMP_GROUP, " ", HOSTNAME_GROUP, " ", PROGRAM_GROUP, PID_GROUP, ": ", MESSAGE_GROUP);
    ContainsAt(REDHAT_PATTERN, HOSTNAME_GROUP, |SYSLOG_TIMESTAMP_GROUP| + 1);
    ContainsAt(REDHAT_PATTERN, PROGRAM_GROUP, |SYSLOG_TIMESTAMP_GROUP| + 1 + |HOSTNAME_GROUP| + 1);
    ContainsAt(REDHAT_PATTERN, PID_GROUP, |SYSLOG_TIMESTAMP_GROUP| + 1 + |HOSTNAME_GROUP| + 1 + |PROGRAM_GROUP|);
  }

  /** The fallback pattern: ISO-8601 timestamp first, and no pid group at all. */
  lemma FallbackGroups()
    ensures CommonGroups(FALLBACK_PATTERN, ISO_TIMESTAMP_GROUP)
    ensures !Contains(FALLBACK_PATTERN, PID_GROUP)
    ensures !Contains(FALLBACK_PATTERN, "pid")
  {
    PiecePositions(ISO_TIMESTAMP_GROUP, " ", HOSTNAME_GROUP, " ", PROGRAM_GROUP, "", ": ", MESSAGE_GROUP);
    assert FALLBACK_PATTERN == ISO_TIMESTAMP_GROUP + " " + HOSTNAME_GROUP + " " + PROGRAM_GROUP + "" + ": " + MESSAGE_GROUP;
    ContainsAt(FALLBACK_PATTERN, HOSTNAME_GROUP, |ISO_TIMESTAMP_GROUP| + 1);
    ContainsAt(FALLBACK_PATTERN, PROGRAM_GROUP, |ISO_TIMESTAMP_GROUP| + 1 + |HOSTNAME_GROUP| + 1);
    FallbackHasNoBracket();
    assert PID_GROUP[4] == '[';
    MissingCharNotContained(FALLBACK_PATTERN, PID_GROUP, '[');
    FallbackHasNoLowerD();
    assert "pid"[2] == 'd';
    MissingCharNotContained(FALLBACK_PATTERN, "pid", 'd');
  }

  /** The fallback pattern has no '[' at all, while the pid group starts with one. */
  lemma FallbackHasNoBracket()
    ensures '[' !in FALLBACK_PATTERN
  {
    assert '[' !in ISO_TIMESTAMP_GROUP && '[' !in HOSTNAME_GROUP;
    assert '[' !in PROGRAM_GROUP && '[' !in MESSAGE_GROUP;
  }

  /** The fallback pattern has no lower-case 'd', the last letter of "pid". */
  lemma FallbackHasNoLowerD()
    ensures 'd' !in FALLBACK_PATTERN
  {
    assert 'd' !in ISO_TIMESTAMP_GROUP && 'd' !in HOSTNAME_GROUP;
    assert 'd' !in PROGRAM_GROUP && 'd' !in MESSAGE_GROUP;
  }

  /** What the selected pattern captures, as a function of the OS name: ISO-8601
      timestamp unless the name is RedHat-family (and not Debian-family), syslog timestamp
      otherwise; the pid group exactly when the name is of a known family. */
  lemma {:induction false} SelectedPatternGroups(osName: string)
    ensures var p := DetermineGrokPattern(osName);
      var f := Classify(ToLowerAscii(osName));
      && CommonGroups(p, if f == RedHatFamily then SYSLOG_TIMESTAMP_GROUP else ISO_TIMESTAMP_GROUP)
      && (Contains(p, PID_GROUP) <==> f != Unknown)
  {
    match Classify(ToLowerAscii(osName))
    case DebianFamily => DebianGroups();
    case RedHatFamily => RedHatGroups();
    case Unknown => FallbackGroups();
  }

  /** A "debian" or "ubuntu" name that also mentions a RedHat distribution still gets the
      Debian pattern, because the Debian test comes first. */
  lemma DebianTakesPrecedence(os: string)
    requires Contains(ToLowerAscii(os), "centos")
    requires Contains(ToLowerAscii(os), "ubuntu")
    ensures DetermineGrokPattern(os) == DEBIAN_PATTERN
  {
  }

  /** The empty name contains none of the distribution names and gets the fallback. */
  lemma {:induction false} EmptyNameFallback()
    ensures DetermineGrokPattern("") == FALLBACK_PATTERN
  {
    assert ToLowerAscii("") == "";
    assert !Contains("", "ubuntu") && !Contains("", "debian");
    assert !Contains("", "redhat") && !Contains("", "centos") && !Contains("", "fedora");
  }

  /** The test is case-insensitive: a capitalised distribution name is recognised. */
  lemma {:induction false} CapitalisedUbuntu()
    ensures DetermineGrokPattern("Ubuntu 22.04") == DEBIAN_PATTERN
  {
    var low := ToLowerAscii("Ubuntu 22.04");
    assert low[..6] == "ubuntu";
    assert OccursAt(low, "ubuntu", 0);
  }

  /** The name the JVM reports on every Linux distribution ("Linux") matches no family. */
  lemma {:induction false} LinuxNameFallback()
    ensures DetermineGrokPattern("Linux") == FALLBACK_PATTERN
  {
    var low := ToLowerAscii("Linux");
    assert low == "linux";
    MissingCharNotContained(low, "ubuntu", 'b');
    MissingCharNotContained(low, "debian", 'd');
    MissingCharNotContained(low, "redhat", 'r');
    MissingCharNotContained(low, "centos", 'c');
    MissingCharNotContained(low, "fedora", 'f');
  }
}

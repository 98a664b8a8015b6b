/**
 * The cookie domain of the persist stores: `getTopLevelDomain` and the
 * `domain` attribute `setCookie` derives from it
 * (src/PersistInterface.js:60-78, 92-106).
 */
module Domain {
  import opened Values

  /** `s.indexOf(c)`: the first index of `c`, if any. */
  function IndexOf(s: string, c: char): (r: Option<nat>)
    ensures r.Some? ==> r.value < |s| && s[r.value] == c && c !in s[..r.value]
    ensures r.None? ==> c !in s
    decreases |s|
  {
    if s == [] then None
    else if s[0] == c then Some(0)
    else match IndexOf(s[1..], c)
      case None => None
      case Some(i) =>
        assert s[..i + 1] == [s[0]] + s[1..][..i];
        Some(i + 1)
  }

  /** `s.split(".")`: every label, empty ones included. */
  function Split(s: string): (parts: seq<string>)
    ensures |parts| >= 1
    ensures forall i :: 0 <= i < |parts| ==> '.' !in parts[i]
    decreases |s|
  {
    match IndexOf(s, '.')
    case None => [s]
    case Some(i) => [s[..i]] + Split(s[i + 1..])
  }

  /** `parts.join(".")`. */
  function Join(parts: seq<string>): string
    requires |parts| >= 1
    decreases |parts|
  {
    if |parts| == 1 then parts[0] else parts[0] + "." + Join(parts[1..])
  }

  /**
   * getTopLevelDomain(hostname): the last label; with two labels or more, the
   * last two; when the second-to-last label is "com" or "co", one more label
   * in front. With only two labels that label does not exist, and JavaScript
   * writes it as "undefined".
   */
  function GetTopLevelDomain(host: string): string
  {
    var parts := Split(host);
    var n := |parts|;
    if n > 1 then
      var second := parts[n - 2];
      var top := second + "." + parts[n - 1];
      if second == "com" || second == "co" then
        (if n > 2 then parts[n - 3] else "undefined") + "." + top
      else top
    else parts[n - 1]
  }

  /** The domain setCookie names with `;domain=.`: only a domain with a dot after its first character. */
  function CookieDomain(host: string): Option<string>
  {
    var top := GetTopLevelDomain(host);
    match IndexOf(top, '.')
    case Some(i) => if i > 0 then Some(top) else None
    case None => None
  }

  predicate IsSuffix(a: string, b: string)
  {
    |a| <= |b| && b[|b| - |a|..] == a
  }

  // ---------------------------------------------------------------------------
  // Properties.

  /** Splitting and joining again gives the hostname back. */
  lemma {:induction false} JoinSplit(s: string)
    ensures Join(Split(s)) == s
    decreases |s|
  {
    match IndexOf(s, '.')
    case None =>
    case Some(i) =>
      JoinSplit(s[i + 1..]);
      assert Split(s)[1..] == Split(s[i + 1..]);
      assert s == s[..i] + "." + s[i + 1..];
  }

  /** The labels joined from the `m`-th last on form a suffix of the whole name. */
  lemma {:induction false} JoinTailIsSuffix(parts: seq<string>, m: nat)
    requires 1 <= m <= |parts|
    ensures IsSuffix(Join(parts[|parts| - m..]), Join(parts))
    decreases |parts|
  {
    if m < |parts| {
      JoinTailIsSuffix(parts[1..], m);
      assert parts[1..][|parts| - 1 - m..] == parts[|parts| - m..];
    } else {
      assert parts[|parts| - m..] == parts;
    }
  }

  lemma JoinLastTwo(parts: seq<string>)
    requires |parts| >= 2
    ensures Join(parts[|parts| - 2..]) == parts[|parts| - 2] + "." + parts[|parts| - 1]
  {
    var t := parts[|parts| - 2..];
    assert t[1..] == [parts[|parts| - 1]];
  }

  lemma JoinLastThree(parts: seq<string>)
    requires |parts| >= 3
    ensures Join(parts[|parts| - 3..]) == parts[|parts| - 3] + "." + (parts[|parts| - 2] + "." + parts[|parts| - 1])
  {
    var t := parts[|parts| - 3..];
    assert t[1..] == parts[|parts| - 2..];
    JoinLastTwo(parts);
  }

  /** A hostname without a dot (localhost) is its own top-level domain. */
  lemma TopLevelDomainNoDot(host: string)
    requires '.' !in host
    ensures GetTopLevelDomain(host) == host
  {
    assert Split(host) == [host];
  }

  /**
   * A hostname with two labels or more gives its last two labels, unless the
   * second-to-last is "com" or "co"; the result is a suffix of the hostname,
   * so the cookie is set on a domain the page belongs to.
   */
  lemma TopLevelDomainLastTwo(host: string)
    requires |Split(host)| >= 2
    requires Split(host)[|Split(host)| - 2] != "com" && Split(host)[|Split(host)| - 2] != "co"
    ensures GetTopLevelDomain(host) == Split(host)[|Split(host)| - 2] + "." + Split(host)[|Split(host)| - 1]
    ensures IsSuffix(GetTopLevelDomain(host), host)
  {
    JoinLastTwo(Split(host));
    HostTailIsSuffix(host, 2);
  }

  /** The labels of a hostname from the `m`-th last on form a suffix of it. */
  lemma HostTailIsSuffix(host: string, m: nat)
    requires 1 <= m <= |Split(host)|
    ensures IsSuffix(Join(Split(host)[|Split(host)| - m..]), host)
  {
    JoinSplit(host);
    JoinTailIsSuffix(Split(host), m);
  }

  /** With "com" or "co" second-to-last and a label before it, the last three labels: again a suffix. */
  lemma TopLevelDomainLastThree(host: string)
    requires |Split(host)| >= 3
    requires Split(host)[|Split(host)| - 2] == "com" || Split(host)[|Split(host)| - 2] == "co"
    ensures GetTopLevelDomain(host) == Join(Split(host)[|Split(host)| - 3..])
    ensures IsSuffix(GetTopLevelDomain(host), host)
  {
    var parts := Split(host);
    var n := |parts|;
    assert GetTopLevelDomain(host) == parts[n - 3] + "." + (parts[n - 2] + "." + parts[n - 1]);
    JoinLastThree(parts);
    HostTailIsSuffix(host, 3);
  }

  /** A two-label "co.uk"-like hostname gets the label "undefined" in front: not a suffix of the hostname. */
  lemma TwoLabelCountryDomain()
    ensures GetTopLevelDomain("co.uk") == "undefined.co.uk"
    ensures !IsSuffix(GetTopLevelDomain("co.uk"), "co.uk")
  {
    SplitTwo("co", "uk");
  }

  lemma SplitOne(a: string)
    requires '.' !in a
    ensures Split(a) == [a]
  {
  }

  /** A label without a dot, then a dot: the split starts with that label. */
  lemma SplitCons(a: string, rest: string)
    requires '.' !in a
    ensures Split(a + "." + rest) == [a] + Split(rest)
  {
    var s := a + "." + rest;
    assert s[..|a|] == a;
    assert s[|a|] == '.';
    IndexOfIs(s, '.', |a|);
    assert s[|a| + 1..] == rest;
  }

  lemma SplitTwo(a: string, b: string)
    requires '.' !in a && '.' !in b
    ensures Split(a + "." + b) == [a, b]
  {
    SplitCons(a, b);
    SplitOne(b);
  }

  lemma SplitThree(a: string, b: string, c: string)
    requires '.' !in a && '.' !in b && '.' !in c
    ensures Split(a + "." + b + "." + c) == [a, b, c]
  {
    var bc := b + "." + c;
    assert a + "." + b + "." + c == a + "." + bc;
    SplitCons(a, bc);
    SplitTwo(b, c);
    assert [a] + [b, c] == [a, b, c];
  }

  /** A hostname without a dot (localhost) gets no domain attribute. */
  lemma CookieDomainNoDot(host: string)
    requires '.' !in host
    ensures CookieDomain(host) == None
  {
    TopLevelDomainNoDot(host);
  }

  /** The first `c` is at `i`. */
  lemma IndexOfIs(s: string, c: char, i: nat)
    requires i < |s| && s[i] == c && c !in s[..i]
    ensures IndexOf(s, c) == Some(i)
  {
    assert s[i] in s;
  }

  /**
   * A hostname with two labels or more, whose second-to-last label is neither
   * "com" nor "co", sets its cookies on its last two labels, and on no
   * domain exactly when the second-to-last label is empty (".nl").
   */
  lemma CookieDomainLastTwo(host: string)
    requires |Split(host)| >= 2
    requires Split(host)[|Split(host)| - 2] != "com" && Split(host)[|Split(host)| - 2] != "co"
    ensures var parts := Split(host); var second := parts[|parts| - 2];
      CookieDomain(host) == if second == "" then None else Some(second + "." + parts[|parts| - 1])
  {
    var parts := Split(host);
    var second := parts[|parts| - 2];
    var top := second + "." + parts[|parts| - 1];
    TopLevelDomainLastTwo(host);
    assert top[..|second|] == second && top[|second|] == '.';
    IndexOfIs(top, '.', |second|);
  }

  /** www.domain.nl sets its cookies on domain.nl. */
  lemma CookieDomainRegular()
    ensures CookieDomain("www.domain.nl") == Some("domain.nl")
  {
    TopLevelDomainOfRegular();
    DotOfDomain();
    CookieDomainOf("www.domain.nl", "domain.nl", 6);
  }

  lemma DotOfDomain()
    ensures IndexOf("domain.nl", '.') == Some(6)
  {
    var s := "domain.nl";
    assert s[..6] == "domain";
    assert '.' !in s[..6];
    IndexOfIs(s, '.', 6);
  }

  /** A top-level domain whose first dot is not its first character is the cookie domain. */
  lemma CookieDomainOf(host: string, top: string, i: nat)
    requires GetTopLevelDomain(host) == top && IndexOf(top, '.') == Some(i) && i > 0
    ensures CookieDomain(host) == Some(top)
  {
  }

  lemma TopLevelDomainOfRegular()
    ensures GetTopLevelDomain("www.domain.nl") == "domain.nl"
  {
    var host := "www.domain.nl";
    assert host == "www" + "." + "domain" + "." + "nl";
    assert '.' !in "www" && '.' !in "domain" && '.' !in "nl";
    SplitThree("www", "domain", "nl");
    assert Split(host) == ["www", "domain", "nl"];
    TopLevelDomainLastTwo(host);
  }
}

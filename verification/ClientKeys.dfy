/** The string keys of the Keycloak connection cache (internal/keycloak/clientmanager.go): when two configs
    share a key, and which keys an eviction prefix matches. */
module ClientKeys {
  import opened Common

  // The parts of a KeycloakInstanceConfig that enter the key.
  datatype Config = Config(namespace: string, name: string, url: string, generation: int)

  function Digit(d: int): char
    requires 0 <= d < 10
  {
    '0' + (d as char)
  }

  // %d
  function Decimal(n: int): string
    decreases if n < 0 then 1 else 0, if n < 0 then -n else n
  {
    if n < 0 then "-" + Decimal(-n)
    else if n < 10 then [Digit(n)]
    else Decimal(n / 10) + [Digit(n % 10)]
  }

  function Prefix(c: Config): string {
    c.namespace + "/" + c.name + "-"
  }

  function Key(c: Config): string {
    c.namespace + "/" + c.name + "-" + c.url + "-" + Decimal(c.generation)
  }

  predicate NameChar(c: char) {
    'a' <= c <= 'z' || '0' <= c <= '9' || c == '-' || c == '.'
  }

  // Section 2.1 of RFC 1123 as Kubernetes applies it to object names.
  predicate DnsName(s: string) {
    s != "" && forall c | c in s :: NameChar(c)
  }

  predicate HttpUrl(s: string) {
    "http://" <= s || "https://" <= s
  }

  // What the API server admits.
  predicate Admitted(c: Config) {
    '/' !in c.namespace && DnsName(c.name) && HttpUrl(c.url) && c.generation >= 0
  }

  lemma {:induction false} DecimalDigits(n: nat)
    ensures Decimal(n) != "" && forall c | c in Decimal(n) :: '0' <= c <= '9'
  {
    if n >= 10 {
      DecimalDigits(n / 10);
    }
  }

  /** Printing in decimal loses nothing. */
  lemma {:induction false} DecimalInjective(m: nat, n: nat)
    requires Decimal(m) == Decimal(n)
    ensures m == n
  {
    DecimalDigits(m / 10);
    DecimalDigits(n / 10);
    var s, t := Decimal(m), Decimal(n);
    assert s[|s| - 1] == Digit(m % 10) by { assert m < 10 ==> m % 10 == m; }
    assert t[|t| - 1] == Digit(n % 10) by { assert n < 10 ==> n % 10 == n; }
    assert m % 10 == n % 10;
    assert m >= 10 <==> |s| > 1;
    assert n >= 10 <==> |t| > 1;
    if m >= 10 {
      assert s[..|s| - 1] == Decimal(m / 10);
      assert t[..|t| - 1] == Decimal(n / 10);
      DecimalInjective(m / 10, n / 10);
    }
  }

  // A mark that occurs in neither last part does so too.
  lemma SplitAtLast(x: string, a: string, y: string, b: string, mark: char)
    requires x + [mark] + a == y + [mark] + b && mark !in a && mark !in b
    ensures x == y && a == b
  {
    var s, t := x + [mark] + a, y + [mark] + b;
    assert s[|x|] == mark && t[|y|] == mark;
    assert forall i | |x| < i < |s| :: s[i] == a[i - |x| - 1];
    assert forall i | |y| < i < |t| :: t[i] == b[i - |y| - 1];
    assert |x| == |y|;
    assert x == s[..|x|] == t[..|y|] == y;
    assert a == s[|x| + 1..] == t[|y| + 1..] == b;
  }

  // Where the scheme ends.
  function Scheme(url: string): string
    requires HttpUrl(url)
  {
    if "http://" <= url then "http" else "https"
  }

  lemma SchemeEnds(url: string)
    requires HttpUrl(url)
    ensures url == Scheme(url) + ":" + url[|Scheme(url)| + 1..]
    ensures ':' !in Scheme(url)
  {
  }

  function Rest(c: Config): string {
    c.name + "-" + c.url + "-" + Decimal(c.generation)
  }

  function AfterScheme(c: Config): string
    requires HttpUrl(c.url)
  {
    c.url[|Scheme(c.url)| + 1..] + "-" + Decimal(c.generation)
  }

  // The first ':' of the rest ends the scheme of the URL.
  lemma RestAtColon(c: Config)
    requires Admitted(c)
    ensures Rest(c) == (c.name + "-" + Scheme(c.url)) + [':'] + AfterScheme(c)
    ensures ':' !in c.name + "-" + Scheme(c.url)
  {
    SchemeEnds(c.url);
    var scheme, tail, end := Scheme(c.url), c.url[|Scheme(c.url)| + 1..], "-" + Decimal(c.generation);
    assert c.name + "-" + (scheme + ":" + tail) + end == (c.name + "-" + scheme) + [':'] + (tail + end);
    assert Rest(c) == c.name + "-" + c.url + end;
    assert tail + end == AfterScheme(c);
  }

  lemma SameNameAndScheme(name: string, url: string, other: string, url': string)
    requires HttpUrl(url) && HttpUrl(url') && name + "-" + Scheme(url) == other + "-" + Scheme(url')
    ensures name == other && Scheme(url) == Scheme(url')
  {
    var a, b := name + "-" + Scheme(url), other + "-" + Scheme(url');
    assert a[|a| - 1] == Scheme(url)[|Scheme(url)| - 1] && b[|b| - 1] == Scheme(url')[|Scheme(url')| - 1];
    assert Scheme(url) == Scheme(url');
    assert name == a[..|name|] == b[..|other|] == other;
  }

  lemma RestInjective(c: Config, d: Config)
    requires Admitted(c) && Admitted(d) && Rest(c) == Rest(d)
    ensures c.name == d.name && c.url == d.url && c.generation == d.generation
  {
    RestAtColon(c);
    RestAtColon(d);
    SplitAtFirst(c.name + "-" + Scheme(c.url), AfterScheme(c), d.name + "-" + Scheme(d.url), AfterScheme(d), ':');
    SameNameAndScheme(c.name, c.url, d.name, d.url);
    DecimalDigits(c.generation);
    DecimalDigits(d.generation);
    var n := |Scheme(c.url)| + 1;
    assert AfterScheme(c) == c.url[n..] + ['-'] + Decimal(c.generation);
    assert AfterScheme(d) == d.url[n..] + ['-'] + Decimal(d.generation);
    SplitAtLast(c.url[n..], Decimal(c.generation), d.url[n..], Decimal(d.generation), '-');
    DecimalInjective(c.generation, d.generation);
    SchemeEnds(c.url);
    SchemeEnds(d.url);
  }

  lemma KeyAtSlash(c: Config)
    ensures Key(c) == c.namespace + ['/'] + Rest(c)
  {
  }

  /** For admitted configs the key determines namespace, name, URL and generation. */
  lemma KeyInjective(c: Config, d: Config)
    requires Admitted(c) && Admitted(d) && Key(c) == Key(d)
    ensures c == d
  {
    KeyAtSlash(c);
    KeyAtSlash(d);
    SplitAtFirst(c.namespace, Rest(c), d.namespace, Rest(d), '/');
    RestInjective(c, d);
  }

  // ---- What a prefix matches ----

  predicate SameOrExtends(name: string, other: string) {
    other == name || name + "-" <= other
  }

  lemma PrefixMatchesOwn(c: Config, d: Config)
    requires c.namespace == d.namespace && SameOrExtends(c.name, d.name)
    ensures Prefix(c) <= Key(d)
  {
    var rest := d.name + "-" + d.url + "-" + Decimal(d.generation);
    assert Key(d) == c.namespace + "/" + rest;
    if d.name == c.name {
      assert rest == c.name + "-" + (d.url + "-" + Decimal(d.generation));
    } else {
      var tail := d.name[|c.name| + 1..];
      assert d.name == c.name + "-" + tail;
      assert rest == c.name + "-" + (tail + "-" + d.url + "-" + Decimal(d.generation));
    }
    assert c.name + "-" <= rest;
    assert Prefix(c) == c.namespace + "/" + (c.name + "-");
    assert Key(d)[..|Prefix(c)|] == Prefix(c);
  }

  // A DNS name and its dash cannot reach into the "http:" of a URL.
  lemma NameStopsBeforeUrl(name: string, other: string, url: string, rest: string)
    requires DnsName(name) && DnsName(other) && HttpUrl(url)
    requires name + "-" <= other + "-" + url + rest
    ensures |name| <= |other|
  {
    var s, t, k := name + "-", other + "-" + url + rest, |other| + 1;
    assert forall i | 0 <= i < |s| :: s[i] == t[i] && NameChar(s[i]);
    assert forall i | 0 <= i < |url| :: t[k + i] == url[i];
    var colon := if "http://" <= url then 4 else 5;
    assert url[colon] == ':' && forall i | 0 <= i < colon :: url[i] != '-';
    assert t[k + colon] == ':';
    assert |s| <= k + colon;
    assert s[|name|] == '-' == t[|name|];
    assert forall i | k <= i < k + colon :: t[i] == url[i - k] != '-';
  }

  /** The eviction prefix of c matches the key of d exactly when the namespaces agree and d has c's name or a
      name that begins with c's name and a dash. */
  lemma PrefixExact(c: Config, d: Config)
    requires Admitted(c) && Admitted(d)
    ensures Prefix(c) <= Key(d) <==> c.namespace == d.namespace && SameOrExtends(c.name, d.name)
  {
    if c.namespace == d.namespace && SameOrExtends(c.name, d.name) {
      PrefixMatchesOwn(c, d);
    }
    if Prefix(c) <= Key(d) {
      KeyAtSlash(d);
      var tail := Key(d)[|Prefix(c)|..];
      assert Key(d) == c.namespace + ['/'] + (c.name + "-" + tail);
      SplitAtFirst(c.namespace, c.name + "-" + tail, d.namespace, Rest(d), '/');
      var s, y := c.name + "-", Rest(d);
      assert s <= y && y == d.name + "-" + d.url + ("-" + Decimal(d.generation));
      NameStopsBeforeUrl(c.name, d.name, d.url, "-" + Decimal(d.generation));
      assert forall i | 0 <= i < |s| :: s[i] == y[i];
      assert forall i | 0 <= i < |d.name| :: y[i] == d.name[i];
      if |c.name| == |d.name| {
        assert c.name == s[..|c.name|] == y[..|c.name|] == d.name;
      } else {
        assert s == y[..|s|] == d.name[..|s|];
      }
    }
  }

  /** So the prefix of config "a" also evicts the connection of config "a-b" in the same namespace. */
  lemma PrefixReachesSibling(c: Config, d: Config, suffix: string)
    requires Admitted(c) && Admitted(d) && c.namespace == d.namespace && d.name == c.name + "-" + suffix
    ensures c.name != d.name && Prefix(c) <= Key(d) && !(Prefix(d) <= Key(c))
  {
    assert c.name + "-" <= d.name;
    PrefixExact(c, d);
    PrefixExact(d, c);
  }

  /** Non-negative generations matter: otherwise two admissible-looking configs share a key. */
  lemma NegativeGenerationCollides()
    ensures var c, d := Config("ns", "a", "http://x-", 5), Config("ns", "a", "http://x", -5);
      c != d && Key(c) == Key(d)
  {
    assert Decimal(-5) == "-" + Decimal(5);
    assert "http://x-" == "http://x" + "-";
  }
}

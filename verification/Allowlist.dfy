/** Network allowlists: `hyperbox-core/src/config.rs`. */
module Allowlists {
  import opened Strings

  datatype AllowlistEntry = Exact(hostname: string) | WildcardSubdomain(suffix: string)

  type Allowlist = seq<AllowlistEntry>

  datatype Parsed<+T> = Valid(value: T) | Invalid

  function Name(e: AllowlistEntry): string {
    match e case Exact(h) => h case WildcardSubdomain(s) => s
  }

  predicate HostnameChar(c: char) {
    'a' <= c <= 'z' || 'A' <= c <= 'Z' || '0' <= c <= '9' || c == '-' || c == '.'
  }

  predicate HasDoubleDot(s: string) {
    exists i | 0 <= i < |s| - 1 :: s[i] == '.' && s[i + 1] == '.'
  }

  predicate ValidHostname(h: string) {
    && !(h != "" && (h[0] == '.' || h[|h| - 1] == '.')) && !HasDoubleDot(h)
    && forall i | 0 <= i < |h| :: HostnameChar(h[i])
  }

  /** `AllowlistEntry::parse` */
  function ParseEntry(raw: string): Parsed<AllowlistEntry> {
    var domain := ToLower(Trim(raw));
    if domain == "" then Invalid
    else if '/' in domain || ':' in domain || exists i | 0 <= i < |domain| :: IsWhitespace(domain[i]) then Invalid
    else if "*." <= domain then
      var suffix := domain[2..];
      if suffix == "" || '*' in suffix then Invalid
      else if ValidHostname(suffix) then Valid(WildcardSubdomain(suffix)) else Invalid
    else if '*' in domain then Invalid
    else if ValidHostname(domain) then Valid(Exact(domain)) else Invalid
  }

  /** `to_pattern_string` */
  function Pattern(e: AllowlistEntry): string {
    match e case Exact(h) => h case WildcardSubdomain(s) => "*." + s
  }

  /** `AllowlistEntry::matches` */
  predicate Matches(e: AllowlistEntry, host: string) {
    var host := ToLower(host);
    match e
    case Exact(exact) => host == exact
    case WildcardSubdomain(suffix) => EndsWith(host, suffix) && EndsWith(host[..|host| - |suffix|], ".")
  }

  /** `Allowlist::allows` */
  predicate Allows(a: Allowlist, host: string) {
    exists i | 0 <= i < |a| :: Matches(a[i], host)
  }

  /** `Allowlist::to_strings` */
  function ToStrings(a: Allowlist): (r: seq<string>)
    ensures |r| == |a|
    ensures forall i | 0 <= i < |a| :: r[i] == Pattern(a[i])
  {
    seq(|a|, i requires 0 <= i < |a| => Pattern(a[i]))
  }

  /** What every entry that was ever parsed looks like. */
  predicate WellFormedEntry(e: AllowlistEntry) {
    var h := Name(e);
    && h != "" && ValidHostname(h)
    && forall i | 0 <= i < |h| :: !('A' <= h[i] <= 'Z')
  }

  /** What every allowlist that was ever parsed looks like. */
  ghost predicate WellFormed(a: Allowlist) {
    && (forall i | 0 <= i < |a| :: WellFormedEntry(a[i]))
    && forall i, j | 0 <= i < j < |a| :: Pattern(a[i]) != Pattern(a[j])
  }

  /** The patterns already in the list are skipped, as `Allowlist::parse` does with its set. */
  function ParseFrom(domains: seq<string>, entries: Allowlist): Parsed<Allowlist> {
    if domains == [] then Valid(entries)
    else
      match ParseEntry(domains[0])
      case Invalid => Invalid
      case Valid(e) =>
        ParseFrom(domains[1..], if Pattern(e) in ToStrings(entries) then entries else entries + [e])
  }

  function Parse(domains: seq<string>): Parsed<Allowlist> { ParseFrom(domains, []) }

  /** `Allowlist::parse`: the loop with the set of patterns seen. */
  method ParseAllowlist(domains: seq<string>) returns (r: Parsed<Allowlist>)
    ensures r == Parse(domains)
  {
    hide ParseEntry;
    var entries: Allowlist := [];
    var seen: set<string> := {};
    for i := 0 to |domains|
      invariant forall p :: p in seen <==> p in ToStrings(entries)
      invariant Parse(domains) == ParseFrom(domains[i..], entries)
    {
      var entry := ParseEntry(domains[i]);
      assert domains[i..][0] == domains[i] && domains[i..][1..] == domains[i + 1..];
      if entry.Invalid? { return Invalid; }
      var normalized := Pattern(entry.value);
      if normalized !in seen {
        assert ToStrings(entries + [entry.value]) == ToStrings(entries) + [normalized];
        seen, entries := seen + {normalized}, entries + [entry.value];
      }
    }
    r := Valid(entries);
  }

  // ---- Printing and parsing ----

  lemma {:induction false} TrimPlain(s: string)
    requires forall i | 0 <= i < |s| :: !IsWhitespace(s[i])
    ensures Trim(s) == s
  {
  }

  lemma LowerPlain(s: string)
    requires forall i | 0 <= i < |s| :: !('A' <= s[i] <= 'Z')
    ensures ToLower(s) == s
  {
  }

  /** Whatever was parsed is well formed. */
  lemma ParsedEntryWellFormed(raw: string)
    ensures ParseEntry(raw).Valid? ==> WellFormedEntry(ParseEntry(raw).value)
  {
    var domain := ToLower(Trim(raw));
    assert forall i | 0 <= i < |domain| :: !('A' <= domain[i] <= 'Z');
  }

  lemma PatternPlain(e: AllowlistEntry)
    requires WellFormedEntry(e)
    ensures Pattern(e) != "" && Trim(Pattern(e)) == Pattern(e) && ToLower(Pattern(e)) == Pattern(e)
    ensures '/' !in Pattern(e) && ':' !in Pattern(e) && '*' !in Name(e)
    ensures forall i | 0 <= i < |Pattern(e)| :: !IsWhitespace(Pattern(e)[i])
  {
    var p := Pattern(e);
    assert forall i | 0 <= i < |p| :: HostnameChar(p[i]) || p[i] == '*';
    TrimPlain(p);
    LowerPlain(p);
  }

  predicate Blanks(s: string) { forall i | 0 <= i < |s| :: IsWhitespace(s[i]) }

  lemma {:induction false} StartTrimmed(before: string, s: string)
    requires Blanks(before) && (s == "" || !IsWhitespace(s[0]))
    ensures TrimStart(before + s) == s
  {
    if before == "" {
      assert before + s == s;
    } else {
      assert (before + s)[1..] == before[1..] + s;
      StartTrimmed(before[1..], s);
    }
  }

  lemma {:induction false} EndTrimmed(s: string, after: string)
    requires Blanks(after) && s != "" && !IsWhitespace(s[|s| - 1])
    ensures TrimEnd(s + after) == s
  {
    if after == "" {
      assert s + after == s;
    } else {
      assert (s + after)[..|s + after| - 1] == s + after[..|after| - 1];
      EndTrimmed(s, after[..|after| - 1]);
    }
  }

  /** Blanks around an entry and the case of its letters make no difference. */
  lemma EntryReadAnyhow(e: AllowlistEntry, before: string, s: string, after: string)
    requires WellFormedEntry(e) && ToLower(s) == Pattern(e) && Blanks(before) && Blanks(after)
    ensures ParseEntry(before + s + after) == Valid(e)
  {
    PatternPlain(e);
    LowerPlain(Pattern(e));
    EntryRoundTrip(e);
    assert |s| == |Pattern(e)|;
    forall i | 0 <= i < |s| ensures !IsWhitespace(s[i]) {
      assert Pattern(e)[i] == Lower(s[i]);
    }
    StartTrimmed(before, s + after);
    EndTrimmed(s, after);
    assert before + s + after == before + (s + after);
    assert Trim(before + s + after) == s;
  }

  /** Printing an entry and parsing it again gives the entry back. */
  lemma EntryRoundTrip(e: AllowlistEntry)
    requires WellFormedEntry(e)
    ensures ParseEntry(Pattern(e)) == Valid(e)
  {
    hide ValidHostname, Trim, ToLower, IsWhitespace;
    PatternPlain(e);
    var p := Pattern(e);
    if e.WildcardSubdomain? {
      assert p[2..] == e.suffix;
    } else {
      assert p[0] in p;
    }
  }

  /** Two well-formed entries with the same pattern are the same entry. */
  lemma PatternInjective(d: AllowlistEntry, e: AllowlistEntry)
    requires WellFormedEntry(d) && WellFormedEntry(e) && Pattern(d) == Pattern(e)
    ensures d == e
  {
    EntryRoundTrip(d);
    EntryRoundTrip(e);
  }

  lemma {:induction false} ParseFromWellFormed(domains: seq<string>, entries: Allowlist)
    requires WellFormed(entries)
    ensures ParseFrom(domains, entries).Valid? ==> WellFormed(ParseFrom(domains, entries).value)
    decreases |domains|
  {
    hide ParseEntry, WellFormedEntry;
    if domains != [] && ParseEntry(domains[0]).Valid? {
      ParsedEntryWellFormed(domains[0]);
      var e := ParseEntry(domains[0]).value;
      assert forall i | 0 <= i < |entries| :: ToStrings(entries)[i] == Pattern(entries[i]);
      ParseFromWellFormed(domains[1..], if Pattern(e) in ToStrings(entries) then entries else entries + [e]);
    }
  }

  lemma {:induction false} ParseFromPrinted(a: Allowlist, i: nat)
    requires WellFormed(a) && i <= |a|
    ensures ParseFrom(ToStrings(a)[i..], a[..i]) == Valid(a)
    decreases |a| - i
  {
    hide ParseEntry, WellFormedEntry;
    if i == |a| {
      assert a[..i] == a && ToStrings(a)[i..] == [];
    } else {
      EntryRoundTrip(a[i]);
      var rest := ToStrings(a)[i..];
      assert rest[0] == Pattern(a[i]) && rest[1..] == ToStrings(a)[i + 1..];
      assert Pattern(a[i]) !in ToStrings(a[..i]);
      assert a[..i] + [a[i]] == a[..i + 1];
      ParseFromPrinted(a, i + 1);
    }
  }

  /** Printing an allowlist and parsing it again gives the allowlist back, and parsing only ever
      gives well-formed ones. */
  lemma AllowlistRoundTrip(domains: seq<string>)
    ensures Parse(domains).Valid? ==>
              var a := Parse(domains).value; WellFormed(a) && Parse(ToStrings(a)) == Valid(a)
  {
    ParseFromWellFormed(domains, []);
    if Parse(domains).Valid? {
      var a := Parse(domains).value;
      ParseFromPrinted(a, 0);
      assert ToStrings(a)[0..] == ToStrings(a) && a[..0] == [];
    }
  }

  // ---- Dropping duplicates changes nothing ----

  /** Some domain of the list allows the host. */
  predicate SomeDomainAllows(domains: seq<string>, host: string) {
    exists i | 0 <= i < |domains| :: ParseEntry(domains[i]).Valid? && Matches(ParseEntry(domains[i]).value, host)
  }

  lemma {:induction false} ParseFromAllows(domains: seq<string>, entries: Allowlist, host: string)
    requires WellFormed(entries) && ParseFrom(domains, entries).Valid?
    ensures Allows(ParseFrom(domains, entries).value, host) <==>
            Allows(entries, host) || SomeDomainAllows(domains, host)
    decreases |domains|
  {
    hide ParseEntry, WellFormedEntry, Matches;
    if domains != [] {
      var e := ParseEntry(domains[0]).value;
      ParsedEntryWellFormed(domains[0]);
      var more := if Pattern(e) in ToStrings(entries) then entries else entries + [e];
      ParseFromAllows(domains[1..], more, host);
      assert SomeDomainAllows(domains, host) <==> Matches(e, host) || SomeDomainAllows(domains[1..], host) by {
        if SomeDomainAllows(domains[1..], host) {
          var rest := domains[1..];
          var i :| 0 <= i < |rest| && ParseEntry(rest[i]).Valid? && Matches(ParseEntry(rest[i]).value, host);
          assert domains[i + 1] == domains[1..][i];
        }
        if SomeDomainAllows(domains, host) && !Matches(e, host) {
          var i :| 0 <= i < |domains| && ParseEntry(domains[i]).Valid? && Matches(ParseEntry(domains[i]).value, host);
          assert domains[1..][i - 1] == domains[i];
        }
      }
      assert Allows(more, host) <==> Allows(entries, host) || Matches(e, host) by {
        if Pattern(e) in ToStrings(entries) {
          var i :| 0 <= i < |entries| && ToStrings(entries)[i] == Pattern(e);
          PatternInjective(e, entries[i]);
        } else {
          assert more[|entries|] == e;
          if Allows(entries, host) {
            var i :| 0 <= i < |entries| && Matches(entries[i], host);
            assert more[i] == entries[i];
          }
        }
      }
    }
  }

  /** Parsing keeps exactly the hosts that the given domains allow. */
  lemma ParseAllows(domains: seq<string>, host: string)
    requires Parse(domains).Valid?
    ensures Allows(Parse(domains).value, host) <==> SomeDomainAllows(domains, host)
  {
    ParseFromAllows(domains, [], host);
  }
}

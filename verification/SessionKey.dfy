/** The name under which an automatic session is found again: `derive_auto_run_affinity_name`. */
module SessionKeys {
  import opened Strings
  import opened Types
  import opened Allowlists
  import opened Fnv
  import opened Utf8

  function Workspace(dir: Option<string>): string {
    if dir.Some? then dir.value else ""
  }

  function NetworkKey(network: NetworkMode): string {
    match network
    case NoNetwork => "none"
    case FullNetwork => "full"
    case AllowlistNetwork(domains) =>
      if domains == [] then "allowlist" else "allowlist:" + Join(ToStrings(domains), ",")
  }

  /** The string that is hashed. */
  function Scope(template: string, workspace: Option<string>, network: NetworkMode): string {
    template + "\n" + Workspace(workspace) + "\n" + NetworkKey(network)
  }

  function Sanitize(c: char): char {
    if 'a' <= c <= 'z' || '0' <= c <= '9' then c else if 'A' <= c <= 'Z' then Lower(c) else '-'
  }

  function TrimDashes(s: string): string {
    if s == "" then s
    else if s[0] == '-' then TrimDashes(s[1..])
    else if s[|s| - 1] == '-' then TrimDashes(s[..|s| - 1])
    else s
  }

  /** `sanitize_affinity_component` */
  function Slug(raw: string, maxLen: nat): string {
    var trimmed := TrimDashes(seq(|raw|, i requires 0 <= i < |raw| => Sanitize(raw[i])));
    var cut := TrimDashes(if |trimmed| <= maxLen then trimmed else trimmed[..maxLen]);
    if cut == "" then "sandbox" else cut
  }

  function DeriveName(template: string, workspace: Option<string>, network: NetworkMode): string {
    "auto-" + Slug(template, 18) + "-" + Hex16(Hash(Utf8Bytes(Scope(template, workspace, network))))
  }

  // ---- What a session name shows ----

  predicate SlugChar(c: char) { 'a' <= c <= 'z' || '0' <= c <= '9' || c == '-' }

  /** Text of a slug's letters that does not begin or end with a dash. */
  predicate Sluggish(s: string) {
    && (forall i | 0 <= i < |s| :: SlugChar(s[i]))
    && (s != "" ==> s[0] != '-' && s[|s| - 1] != '-')
  }

  lemma {:induction false} DashesTrimmed(s: string)
    requires forall i | 0 <= i < |s| :: SlugChar(s[i])
    ensures Sluggish(TrimDashes(s)) && |TrimDashes(s)| <= |s|
    ensures Sluggish(s) ==> TrimDashes(s) == s
  {
    if s != "" {
      if s[0] == '-' {
        DashesTrimmed(s[1..]);
      } else if s[|s| - 1] == '-' {
        DashesTrimmed(s[..|s| - 1]);
      }
    }
  }

  /** A slug has lower-case letters, digits and inner dashes only, and is not longer than allowed unless
      nothing else was left; text that is one already is kept as it is. */
  lemma SlugReadable(raw: string, maxLen: nat)
    ensures var slug := Slug(raw, maxLen);
            slug != "" && Sluggish(slug) && (|slug| <= maxLen || slug == "sandbox")
    ensures raw != "" && Sluggish(raw) && |raw| <= maxLen ==> Slug(raw, maxLen) == raw
  {
    var sanitized := seq(|raw|, i requires 0 <= i < |raw| => Sanitize(raw[i]));
    DashesTrimmed(sanitized);
    var trimmed := TrimDashes(sanitized);
    DashesTrimmed(if |trimmed| <= maxLen then trimmed else trimmed[..maxLen]);
    assert Sluggish("sandbox");
    if Sluggish(raw) { assert sanitized == raw; }
  }

  // ---- What a session name tells ----

  predicate Usable(network: NetworkMode) {
    network.AllowlistNetwork? ==> forall i | 0 <= i < |network.domains| :: WellFormedEntry(network.domains[i])
  }

  lemma PatternsPlain(network: NetworkMode)
    requires Usable(network) && network.AllowlistNetwork?
    ensures Parts(ToStrings(network.domains), ',')
    ensures forall i | 0 <= i < |network.domains| :: '\n' !in Pattern(network.domains[i])
  {
    var a := network.domains;
    forall i | 0 <= i < |a| ensures Pattern(a[i]) != "" && ',' !in Pattern(a[i]) && '\n' !in Pattern(a[i]) {
      assert forall c <- Pattern(a[i]) :: HostnameChar(c) || c == '*';
    }
  }

  lemma {:induction false} JoinAvoids(parts: seq<string>, sep: string, c: char)
    requires c !in sep && forall i | 0 <= i < |parts| :: c !in parts[i]
    ensures c !in Join(parts, sep)
  {
    if |parts| > 1 { JoinAvoids(parts[1..], sep, c); }
  }

  lemma NetworkKeyPlain(network: NetworkMode)
    requires Usable(network)
    ensures '\n' !in NetworkKey(network)
  {
    if network.AllowlistNetwork? {
      PatternsPlain(network);
      JoinAvoids(ToStrings(network.domains), ",", '\n');
    }
  }

  lemma {:induction false} PatternsInjective(x: Allowlist, y: Allowlist)
    requires forall i | 0 <= i < |x| :: WellFormedEntry(x[i])
    requires forall i | 0 <= i < |y| :: WellFormedEntry(y[i])
    requires ToStrings(x) == ToStrings(y)
    ensures x == y
  {
    assert |x| == |ToStrings(x)| == |y|;
    forall i | 0 <= i < |x| ensures x[i] == y[i] {
      assert ToStrings(x)[i] == Pattern(x[i]) && ToStrings(y)[i] == Pattern(y[i]);
      PatternInjective(x[i], y[i]);
    }
  }

  lemma NetworkKeyInjective(a: NetworkMode, b: NetworkMode)
    requires Usable(a) && Usable(b) && NetworkKey(a) == NetworkKey(b)
    ensures a == b
  {
    assert "none"[0] == 'n' && "full"[0] == 'f' && "allowlist"[0] == 'a';
    if a.AllowlistNetwork? && b.AllowlistNetwork? {
      PatternsPlain(a);
      PatternsPlain(b);
      var x, y := ToStrings(a.domains), ToStrings(b.domains);
      if a.domains != [] && b.domains != [] {
        assert NetworkKey(a)[10..] == Join(x, ",") && NetworkKey(b)[10..] == Join(y, ",");
        JoinInjective(x, y, ',');
        PatternsInjective(a.domains, b.domains);
      }
    }
  }

  /** Two hashed strings are equal exactly if the networks are the same, and the templates and
      workspaces are the same when written one below the other. */
  lemma ScopeEqualExactly(t: string, w: Option<string>, n: NetworkMode, t': string, w': Option<string>, n': NetworkMode)
    requires Usable(n) && Usable(n')
    ensures Scope(t, w, n) == Scope(t', w', n') <==>
            n == n' && t + "\n" + Workspace(w) == t' + "\n" + Workspace(w')
  {
    NetworkKeyPlain(n);
    NetworkKeyPlain(n');
    if Scope(t, w, n) == Scope(t', w', n') {
      SplitAtLast(t + "\n" + Workspace(w), NetworkKey(n), t' + "\n" + Workspace(w'), NetworkKey(n'), '\n');
      NetworkKeyInjective(n, n');
    }
  }

  /** The hashed string is injective in template, workspace and network as long as templates hold
      no newline; whether a workspace is absent or empty makes no difference. */
  lemma ScopeInjective(t: string, w: Option<string>, n: NetworkMode, t': string, w': Option<string>, n': NetworkMode)
    requires '\n' !in t && '\n' !in t' && Usable(n) && Usable(n')
    requires Scope(t, w, n) == Scope(t', w', n')
    ensures t == t' && Workspace(w) == Workspace(w') && n == n'
  {
    ScopeEqualExactly(t, w, n, t', w', n');
    SplitAtFirst(t, Workspace(w), t', Workspace(w'), '\n');
  }

  /** A newline can move from the template to the workspace. */
  lemma NewlineInTemplateConfuses(a: string, b: string, w: Option<string>, n: NetworkMode)
    ensures var t := a + "\n" + b; Scope(t, w, n) == Scope(a, Some(b + "\n" + Workspace(w)), n) && t != a
  {
    assert a + "\n" + b + "\n" + Workspace(w) == a + "\n" + (b + "\n" + Workspace(w));
  }

  /** With some workspace and network the template gives the same string as a shorter one. */
  ghost predicate Confusable(t: string) {
    exists w, n, t', w', n' :: Usable(n) && Usable(n') && |t'| < |t| && Scope(t, w, n) == Scope(t', w', n')
  }

  /** So exactly the templates with a newline can be taken for shorter ones. */
  lemma ConfusableExactly(t: string)
    ensures Confusable(t) <==> '\n' in t
  {
    if '\n' in t {
      var i :| 0 <= i < |t| && t[i] == '\n';
      var a, b := t[..i], t[i + 1..];
      assert t == a + "\n" + b;
      NewlineInTemplateConfuses(a, b, None, NoNetwork);
      assert Usable(NoNetwork) && Scope(t, None, NoNetwork) == Scope(a, Some(b + "\n" + Workspace(None)), NoNetwork);
    }
    if Confusable(t) {
      var w, n, t', w', n' :| Usable(n) && Usable(n') && |t'| < |t| && Scope(t, w, n) == Scope(t', w', n');
      ScopeEqualExactly(t, w, n, t', w', n');
      assert (t' + "\n" + Workspace(w'))[|t'|] == '\n' && (t + "\n" + Workspace(w))[|t'|] == t[|t'|];
    }
  }

  /** What is hashed are bytes, and they tell as much as the string. */
  lemma HashedBytesTell(t: string, w: Option<string>, n: NetworkMode, t': string, w': Option<string>, n': NetworkMode)
    requires '\n' !in t && '\n' !in t' && Usable(n) && Usable(n')
    requires Utf8Bytes(Scope(t, w, n)) == Utf8Bytes(Scope(t', w', n'))
    ensures t == t' && Workspace(w) == Workspace(w') && n == n'
  {
    EncodingInjective(Scope(t, w, n), Scope(t', w', n'));
    hide Utf8Bytes, Scope;
    ScopeInjective(t, w, n, t', w', n');
  }

  /** Two sessions whose hashed bytes differ in one place have different names. */
  lemma OneByteTellsApart(t: string, w: Option<string>, n: NetworkMode, t': string, w': Option<string>,
                          n': NetworkMode, before: Bytes, a: Byte, b: Byte, after: Bytes)
    requires Utf8Bytes(Scope(t, w, n)) == before + [a] + after
    requires Utf8Bytes(Scope(t', w', n')) == before + [b] + after && a != b
    ensures DeriveName(t, w, n) != DeriveName(t', w', n')
  {
    hide Scope, Utf8Bytes, DeriveName, Hash;
    if DeriveName(t, w, n) == DeriveName(t', w', n') {
      NameTellsHash(t, w, n, t', w', n');
      OneByteNeverCollides(before, a, b, after);
    }
  }

  /** Equal names have equal hashes. */
  lemma NameTellsHash(t: string, w: Option<string>, n: NetworkMode, t': string, w': Option<string>, n': NetworkMode)
    requires DeriveName(t, w, n) == DeriveName(t', w', n')
    ensures Hash(Utf8Bytes(Scope(t, w, n))) == Hash(Utf8Bytes(Scope(t', w', n')))
  {
    hide Scope, Utf8Bytes, Slug, Hash;
    var x, y := DeriveName(t, w, n), DeriveName(t', w', n');
    var h, g := Hash(Utf8Bytes(Scope(t, w, n))), Hash(Utf8Bytes(Scope(t', w', n')));
    assert x[|x| - 16..] == Hex16(h) && y[|y| - 16..] == Hex16(g);
    Hex16Injective(h, g);
  }
}

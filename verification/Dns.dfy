/** The DNS sidecar: a small Python program embedded in `hyperbox-cli/src/apple_helper.rs`. */
module Dns {
  import opened Strings
  import opened Allowlists
  import opened Utf8

  type Packet = seq<Byte>

  // ---- The policy, as the sidecar sees it ----

  /** `allows(host)` over the patterns it was given. */
  predicate SidecarAllows(patterns: seq<string>, host: string) {
    var host := ToLower(host);
    host != "" && exists i | 0 <= i < |patterns| ::
      host == patterns[i] || ("*." <= patterns[i] && EndsWith(host, patterns[i][1..]))
  }

  lemma DotSuffix(h: string, s: string)
    ensures EndsWith(h, "." + s) <==> EndsWith(h, s) && EndsWith(h[..|h| - |s|], ".")
  {
    if |s| < |h| {
      assert h[|h| - |s| - 1..] == [h[|h| - |s| - 1]] + h[|h| - |s|..];
      assert h[..|h| - |s|][|h| - |s| - 1..] == [h[|h| - |s| - 1]];
      assert ("." + s)[0] == '.' && ("." + s)[1..] == s;
    }
  }

  lemma EntryAgrees(e: AllowlistEntry, host: string)
    requires WellFormedEntry(e)
    ensures Matches(e, host) <==>
            var h, p := ToLower(host), Pattern(e); h != "" && (h == p || ("*." <= p && EndsWith(h, p[1..])))
  {
    hide ToLower, ValidHostname, EndsWith;
    PatternPlain(e);
    var h, p := ToLower(host), Pattern(e);
    if e.WildcardSubdomain? {
      assert p[1..] == "." + e.suffix;
      DotSuffix(h, e.suffix);
      WholeSuffix(p, p[1..], h);
    } else {
      assert p[0] in p;
    }
  }

  lemma WholeSuffix(p: string, s: string, h: string)
    requires |p| > 0 && s == p[1..]
    ensures h == p ==> EndsWith(h, s)
    ensures s != "" && EndsWith(h, s) ==> h != ""
  {
  }

  /** For every host the sidecar decides what the allowlist says. */
  lemma SidecarAgrees(a: Allowlist, host: string)
    requires WellFormed(a)
    ensures SidecarAllows(ToStrings(a), host) <==> Allows(a, host)
  {
    forall i | 0 <= i < |a| ensures
      Matches(a[i], host) <==>
      var h, p := ToLower(host), Pattern(a[i]); h != "" && (h == p || ("*." <= p && EndsWith(h, p[1..])))
    {
      EntryAgrees(a[i], host);
    }
    hide Matches;
    if Allows(a, host) {
      var i :| 0 <= i < |a| && Matches(a[i], host);
      assert ToStrings(a)[i] == Pattern(a[i]);
    }
  }

  // ---- The name in a query ----

  /** `decode("ascii", "ignore")` */
  function DecodeAscii(bytes: seq<Byte>): string {
    if bytes == [] then ""
    else if bytes[0] < 128 then [bytes[0] as char] + DecodeAscii(bytes[1..])
    else DecodeAscii(bytes[1..])
  }

  /** The labels read from `packet[idx..]`; `None` if one is cut short. */
  datatype Labels = Cut | Labels(labels: seq<string>)

  function ReadLabels(packet: Packet, idx: nat): Labels
    requires idx <= |packet|
    decreases |packet| - idx
  {
    if idx == |packet| || packet[idx] == 0 then Labels([])
    else
      var from, to := idx + 1, idx + 1 + packet[idx];
      if to > |packet| then Cut
      else
        match ReadLabels(packet, to)
        case Cut => Cut
        case Labels(rest) => Labels([DecodeAscii(packet[from..to])] + rest)
  }

  function QName(packet: Packet): string {
    if |packet| < 12 then ""
    else
      match ReadLabels(packet, 12)
      case Cut => ""
      case Labels(labels) => ToLower(Join(labels, "."))
  }

  /** The name that comes of labels already read and what is read from `idx` on. */
  function NameFrom(packet: Packet, idx: nat, labels: seq<string>): string
    requires idx <= |packet|
  {
    match ReadLabels(packet, idx)
    case Cut => ""
    case Labels(rest) => ToLower(Join(labels + rest, "."))
  }

  lemma NameStep(packet: Packet, idx: nat, labels: seq<string>)
    requires idx < |packet| && packet[idx] != 0
    ensures var to := idx + 1 + packet[idx];
            NameFrom(packet, idx, labels) ==
            if to > |packet| then "" else NameFrom(packet, to, labels + [DecodeAscii(packet[idx + 1..to])])
  {
    hide ToLower, Join, DecodeAscii;
    var to := idx + 1 + packet[idx];
    if to <= |packet| && ReadLabels(packet, to).Labels? {
      var text, rest := DecodeAscii(packet[idx + 1..to]), ReadLabels(packet, to).labels;
      assert labels + ([text] + rest) == labels + [text] + rest;
    }
  }

  lemma NameEnds(packet: Packet, idx: nat, labels: seq<string>)
    requires idx <= |packet| && (idx == |packet| || packet[idx] == 0)
    ensures NameFrom(packet, idx, labels) == ToLower(Join(labels, "."))
  {
    assert labels + [] == labels;
  }

  /** `parse_qname` */
  method ParseQName(packet: Packet) returns (name: string)
    ensures name == QName(packet)
  {
    if |packet| < 12 { return ""; }
    var idx := 12;
    var labels: seq<string> := [];
    NameStarts(packet);
    hide NameFrom, QName, Join, DecodeAscii;
    while idx < |packet|
      invariant 12 <= idx <= |packet|
      invariant NameFrom(packet, idx, labels) == QName(packet)
    {
      var length := packet[idx];
      if length == 0 { break; }
      NameStep(packet, idx, labels);
      if idx + 1 + length > |packet| { return ""; }
      labels := labels + [DecodeAscii(packet[idx + 1..idx + 1 + length])];
      idx := idx + 1 + length;
    }
    NameEnds(packet, idx, labels);
    name := ToLower(Join(labels, "."));
  }

  lemma NameStarts(packet: Packet)
    requires |packet| >= 12
    ensures NameFrom(packet, 12, []) == QName(packet)
  {
    assert forall rest: seq<string> :: [] + rest == rest;
  }

  // ---- RFC 1035, sections 3.1 and 4.1.2 ----

  /** A label as it is written on the wire: its length, then its bytes. */
  function EncodeName(labels: seq<seq<Byte>>): Packet
    requires forall i | 0 <= i < |labels| :: 0 < |labels[i]| < 64
  {
    if labels == [] then [0] else [|labels[0]|] + labels[0] + EncodeName(labels[1..])
  }

  function Texts(labels: seq<seq<Byte>>): (r: seq<string>)
    ensures |r| == |labels| && forall i | 0 <= i < |r| :: r[i] == DecodeAscii(labels[i])
  {
    seq(|labels|, i requires 0 <= i < |labels| => DecodeAscii(labels[i]))
  }

  lemma {:induction false} ReadsEncoded(before: Packet, labels: seq<seq<Byte>>, after: Packet)
    requires forall i | 0 <= i < |labels| :: 0 < |labels[i]| < 64
    ensures ReadLabels(before + EncodeName(labels) + after, |before|) == Labels(Texts(labels))
    decreases |labels|
  {
    var packet := before + EncodeName(labels) + after;
    if labels == [] {
      assert packet[|before|] == 0 && Texts(labels) == [];
    } else {
      var l := labels[0];
      var next := before + [|l|] + l;
      assert packet == next + EncodeName(labels[1..]) + after;
      assert packet[|before|] == |l| && packet[|before| + 1..|before| + 1 + |l|] == l;
      ReadsEncoded(next, labels[1..], after);
      assert Texts(labels) == [DecodeAscii(l)] + Texts(labels[1..]);
    }
  }

  /** Behind any header, the name of a well-formed question is read as its labels in lower case,
      joined by dots. */
  lemma QNameOfQuestion(header: Packet, labels: seq<seq<Byte>>, after: Packet)
    requires |header| == 12 && forall i | 0 <= i < |labels| :: 0 < |labels[i]| < 64
    ensures QName(header + EncodeName(labels) + after) == ToLower(Join(Texts(labels), "."))
  {
    ReadsEncoded(header, labels, after);
  }

  /** `nxdomain` */
  function NxDomain(packet: Packet): Packet {
    if |packet| < 12 then packet
    else packet[0..2] + [0x81, 0x83] + packet[4..6] + [0, 0, 0, 0, 0, 0] + packet[12..]
  }

  lemma SameParts(p: Packet, q: Packet, idx: nat, to: nat)
    requires idx < to <= |p| == |q| && p[idx..] == q[idx..]
    ensures p[idx] == q[idx] && p[idx + 1..to] == q[idx + 1..to] && p[to..] == q[to..]
  {
    assert forall i | idx <= i < |p| :: p[i] == p[idx..][i - idx] && q[i] == q[idx..][i - idx];
  }

  lemma {:induction false} SameTailSameLabels(p: Packet, q: Packet, idx: nat)
    requires |p| == |q| && idx <= |p| && p[idx..] == q[idx..]
    ensures ReadLabels(p, idx) == ReadLabels(q, idx)
    decreases |p| - idx
  {
    if idx < |p| {
      SameParts(p, q, idx, idx + 1);
      var to := idx + 1 + p[idx];
      if p[idx] != 0 && to <= |p| {
        SameParts(p, q, idx, to);
        SameTailSameLabels(p, q, to);
      }
    }
  }

  /** A refusal answers the question that was asked: same id, same name, not truncated, response
      code 3 and no records. */
  lemma NxDomainAnswers(packet: Packet)
    requires |packet| >= 12
    ensures var reply := NxDomain(packet);
            && |reply| == |packet| && reply[0..2] == packet[0..2] && QName(reply) == QName(packet)
            && reply[2] / 128 == 1 && reply[2] / 2 % 2 == 0 && reply[3] % 16 == 3
            && reply[4..6] == packet[4..6] && forall i | 6 <= i < 12 :: reply[i] == 0
  {
    var reply := NxDomain(packet);
    assert reply[12..] == packet[12..];
    SameTailSameLabels(reply, packet, 12);
  }

  /** What the sidecar does with a query. */
  datatype Verdict = Forward | Refuse(reply: Packet)

  function Decide(patterns: seq<string>, packet: Packet): Verdict {
    if SidecarAllows(patterns, QName(packet)) then Forward else Refuse(NxDomain(packet))
  }

  /** On the wire the sidecar decides exactly what the policy says about the name asked for. */
  lemma SidecarEnforcesPolicy(a: Allowlist, header: Packet, labels: seq<seq<Byte>>, after: Packet)
    requires WellFormed(a) && |header| == 12
    requires forall i | 0 <= i < |labels| :: 0 < |labels[i]| < 64
    ensures Decide(ToStrings(a), header + EncodeName(labels) + after).Forward? <==>
            Allows(a, Join(Texts(labels), "."))
  {
    hide Allows, SidecarAllows, QName, Texts, Join, ToLower, ToStrings, NxDomain, EncodeName;
    var name := Join(Texts(labels), ".");
    QNameOfQuestion(header, labels, after);
    SidecarAgrees(a, ToLower(name));
    AllowsLower(a, name);
  }

  /** The case of the name does not matter. */
  lemma AllowsLower(a: Allowlist, host: string)
    ensures Allows(a, ToLower(host)) <==> Allows(a, host)
  {
    LowerTwice(host);
  }

  // ---- When the text is the name ----

  /** The label consists of ASCII characters other than the dot. */
  predicate Plain(bytes: seq<Byte>) {
    forall i | 0 <= i < |bytes| :: bytes[i] < 128 && bytes[i] != '.' as int
  }

  predicate AsciiText(text: string) {
    forall i | 0 <= i < |text| :: text[i] as int < 128
  }

  function BytesOf(text: string): (r: seq<Byte>)
    requires AsciiText(text)
    ensures |r| == |text| && forall i | 0 <= i < |r| :: r[i] == text[i] as int
  {
    seq(|text|, i requires 0 <= i < |text| => text[i] as int)
  }

  /** The labels that a text spells: what stands between its dots. */
  function Spelled(text: string): seq<seq<Byte>>
    requires AsciiText(text)
    decreases |text|
  {
    if text == "" then []
    else
      var i := FirstIndex(text, '.');
      [BytesOf(text[..i])] + if i < |text| then Spelled(text[i + 1..]) else []
  }

  lemma {:induction false} DecodedAscii(bytes: seq<Byte>)
    ensures AsciiText(DecodeAscii(bytes))
    ensures Plain(bytes) ==> '.' !in DecodeAscii(bytes) && BytesOf(DecodeAscii(bytes)) == bytes
  {
    if bytes != [] {
      DecodedAscii(bytes[1..]);
      assert bytes == [bytes[0]] + bytes[1..];
      assert Plain(bytes) ==> Plain(bytes[1..]);
      if Plain(bytes) {
        assert DecodeAscii(bytes) == [bytes[0] as char] + DecodeAscii(bytes[1..]);
      }
    }
  }

  lemma {:induction false} JoinedAscii(labels: seq<seq<Byte>>)
    ensures AsciiText(Join(Texts(labels), "."))
  {
    if labels != [] {
      DecodedAscii(labels[0]);
      JoinedAscii(labels[1..]);
      assert Texts(labels)[1..] == Texts(labels[1..]);
    }
  }

  lemma {:induction false} SpelledPlain(text: string)
    requires AsciiText(text)
    ensures forall i | 0 <= i < |Spelled(text)| :: Plain(Spelled(text)[i])
    decreases |text|
  {
    if text != "" {
      var i := FirstIndex(text, '.');
      BeforeFirst(text, '.');
      if i < |text| { SpelledPlain(text[i + 1..]); }
    }
  }

  lemma {:induction false} BeforeFirst(text: string, c: char)
    ensures c !in text[..FirstIndex(text, c)]
  {
    if text != "" && text[0] != c {
      BeforeFirst(text[1..], c);
      assert text[..FirstIndex(text, c)] == [text[0]] + text[1..][..FirstIndex(text[1..], c)];
    }
  }

  lemma {:induction false} SpellsJoined(labels: seq<seq<Byte>>)
    requires forall i | 0 <= i < |labels| :: labels[i] != [] && Plain(labels[i])
    ensures AsciiText(Join(Texts(labels), ".")) && Spelled(Join(Texts(labels), ".")) == labels
  {
    JoinedAscii(labels);
    if labels != [] {
      var text, rest := DecodeAscii(labels[0]), Join(Texts(labels[1..]), ".");
      DecodedAscii(labels[0]);
      SpellsJoined(labels[1..]);
      assert Texts(labels)[1..] == Texts(labels[1..]);
      if |labels| == 1 {
        BeforeNone(text, '.');
        assert text[..|text|] == text && labels == [labels[0]];
      } else {
        var whole := text + "." + rest;
        FirstIndexIs(text, rest, '.');
        assert Join(Texts(labels), ".") == whole;
        assert whole[..|text|] == text && whole[|text| + 1..] == rest;
        assert labels == [labels[0]] + labels[1..];
      }
    }
  }

  lemma {:induction false} BeforeNone(text: string, c: char)
    requires c !in text
    ensures FirstIndex(text, c) == |text|
  {
    if text != "" { BeforeNone(text[1..], c); }
  }

  /** The text that the sidecar decides on spells the name on the wire exactly if every label of the
      name is ASCII and has no dot in it. */
  lemma TextSpellsNameExactly(labels: seq<seq<Byte>>)
    requires forall i | 0 <= i < |labels| :: 0 < |labels[i]| < 64
    ensures AsciiText(Join(Texts(labels), "."))
    ensures Spelled(Join(Texts(labels), ".")) == labels <==> forall i | 0 <= i < |labels| :: Plain(labels[i])
  {
    JoinedAscii(labels);
    if forall i | 0 <= i < |labels| :: Plain(labels[i]) {
      SpellsJoined(labels);
    } else {
      SpelledPlain(Join(Texts(labels), "."));
    }
  }

  /** Any other name shares its text with a name that is spelt so: whatever is forwarded is still
      forwarded with a byte that is not ASCII added to one of its labels. */
  lemma ForeignByteForwarded(a: Allowlist, header: Packet, labels: seq<seq<Byte>>, after: Packet, i: nat, b: Byte)
    requires WellFormed(a) && |header| == 12
    requires forall j | 0 <= j < |labels| :: 0 < |labels[j]| < 64
    requires i < |labels| && |labels[i]| < 63 && b >= 128
    ensures var other := labels[i := labels[i] + [b]];
            && other != labels
            && (Decide(ToStrings(a), header + EncodeName(other) + after).Forward? <==>
                Decide(ToStrings(a), header + EncodeName(labels) + after).Forward?)
  {
    var other := labels[i := labels[i] + [b]];
    assert other[i] != labels[i];
    ForeignByteDropped(labels[i], b);
    assert Texts(other) == Texts(labels);
    hide Decide, Allows, Texts, EncodeName;
    SidecarEnforcesPolicy(a, header, labels, after);
    SidecarEnforcesPolicy(a, header, other, after);
  }

  lemma {:induction false} ForeignByteDropped(bytes: seq<Byte>, b: Byte)
    requires b >= 128
    ensures DecodeAscii(bytes + [b]) == DecodeAscii(bytes)
  {
    if bytes == [] {
      assert [b][1..] == [];
    } else {
      assert (bytes + [b])[1..] == bytes[1..] + [b];
      ForeignByteDropped(bytes[1..], b);
    }
  }

  lemma LowerTwice(s: string)
    ensures ToLower(ToLower(s)) == ToLower(s)
  {
  }
}

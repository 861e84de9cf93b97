/**
  The cloud-init network-config v1 printer of internal/machine/vm/cloudinit.go, and a parser for the shape it emits.
  A subnet carries what net.ParseCIDR makes of its text; strings are ASCII.
*/
module CloudInit {
  import opened Wrappers
  import opened Strings
  import opened Decimals
  import opened Objects

  // ---- the allocation result ----

  predicate Matches(st: StatusIface, key: string) { st.mac != "" && ToLower(st.mac) == key }

  /** The last interface with the lower-case MAC `key`. */
  function LastWithMac(status: seq<StatusIface>, key: string): Option<StatusIface> {
    if status == [] then None
    else if Matches(status[|status| - 1], key) then Some(status[|status| - 1])
    else LastWithMac(status[..|status| - 1], key)
  }

  predicate IsLastMatch(status: seq<StatusIface>, key: string, j: nat) {
    j < |status| && Matches(status[j], key) && forall k :: j < k < |status| ==> !Matches(status[k], key)
  }

  lemma {:induction false} LastWithMacIsLast(status: seq<StatusIface>, key: string)
    ensures LastWithMac(status, key).Some? <==> exists j: nat :: IsLastMatch(status, key, j)
    ensures forall j: nat :: IsLastMatch(status, key, j) ==> LastWithMac(status, key) == Some(status[j])
  {
    if status != [] {
      var n := |status| - 1;
      var init := status[..n];
      LastWithMacIsLast(init, key);
      if Matches(status[n], key) {
        assert IsLastMatch(status, key, n);
      } else {
        assert forall j: nat :: IsLastMatch(status, key, j) <==> IsLastMatch(init, key, j);
      }
    }
  }

  // ---- netmasks ----

  function Ones(n: nat): nat
    requires n <= 8
  {
    [0, 128, 192, 224, 240, 248, 252, 254, 255][n]
  }

  /** How many of the leading `bits` fall into octet `k`. */
  function BitsIn(bits: nat, k: nat): (n: nat)
    ensures n <= 8
  {
    if bits <= 8 * k then 0 else if bits >= 8 * k + 8 then 8 else bits - 8 * k
  }

  function Dotted(octets: seq<nat>): string
    requires octets != []
  {
    if |octets| == 1 then Decimal(octets[0]) else Decimal(octets[0]) + "." + Dotted(octets[1..])
  }

  function Octets(bits: nat): (o: seq<nat>)
    ensures |o| == 4
  {
    [Ones(BitsIn(bits, 0)), Ones(BitsIn(bits, 1)), Ones(BitsIn(bits, 2)), Ones(BitsIn(bits, 3))]
  }

  function Netmask(bits: nat): string { Dotted(Octets(bits)) }

  lemma UntilDot(a: nat, x: string, b: nat, y: string)
    requires Decimal(a) + "." + x == Decimal(b) + "." + y
    ensures a == b && x == y
  {
    var s := Decimal(a) + "." + x;
    forall i | 0 <= i < |Decimal(a)| ensures s[i] != '.' { DecimalDigits(a, i); assert s[i] == Decimal(a)[i]; }
    forall i | 0 <= i < |Decimal(b)| ensures s[i] != '.' { DecimalDigits(b, i); assert s[i] == Decimal(b)[i]; }
    assert s[|Decimal(a)|] == '.' && s[|Decimal(b)|] == '.';
    assert |Decimal(a)| == |Decimal(b)|;
    assert Decimal(a) == s[..|Decimal(a)|] == Decimal(b);
    assert x == s[|Decimal(a)| + 1..] == y;
    DecimalInjective(a, b);
  }

  lemma {:induction false} DottedInjective(o: seq<nat>, p: seq<nat>)
    requires |o| == |p| > 0 && Dotted(o) == Dotted(p)
    ensures o == p
  {
    if |o| == 1 {
      DecimalInjective(o[0], p[0]);
    } else {
      UntilDot(o[0], Dotted(o[1..]), p[0], Dotted(p[1..]));
      DottedInjective(o[1..], p[1..]);
      assert o == [o[0]] + o[1..] && p == [p[0]] + p[1..];
    }
  }

  lemma OnesInjective(m: nat, n: nat)
    requires m <= 8 && n <= 8 && Ones(m) == Ones(n)
    ensures m == n
  {
  }

  /** A printed netmask determines its prefix length. */
  lemma NetmaskDeterminesPrefix(m: nat, n: nat)
    requires m <= 32 && n <= 32 && Netmask(m) == Netmask(n)
    ensures m == n
  {
    DottedInjective(Octets(m), Octets(n));
    assert forall k :: 0 <= k < 4 ==> Octets(m)[k] == Octets(n)[k];
    hide Dotted, Ones;
    OnesInjective(BitsIn(m, 0), BitsIn(n, 0));
    OnesInjective(BitsIn(m, 1), BitsIn(n, 1));
    OnesInjective(BitsIn(m, 2), BitsIn(n, 2));
    OnesInjective(BitsIn(m, 3), BitsIn(n, 3));
  }

  function Pow2(n: nat): nat { if n == 0 then 1 else 2 * Pow2(n - 1) }

  lemma {:induction false} Pow2Splits(m: nat, n: nat)
    ensures Pow2(m + n) == Pow2(m) * Pow2(n)
  {
    if n > 0 {
      Pow2Splits(m, n - 1);
      assert Pow2(m) * Pow2(n) == 2 * (Pow2(m) * Pow2(n - 1));
    }
  }

  lemma Pow2Table()
    ensures Pow2(0) == 1 && Pow2(1) == 2 && Pow2(2) == 4 && Pow2(3) == 8 && Pow2(4) == 16
    ensures Pow2(5) == 32 && Pow2(6) == 64 && Pow2(7) == 128 && Pow2(8) == 256
  {
    assert Pow2(4) == 16;
    assert Pow2(6) == 64;
  }

  lemma OnesValue(n: nat)
    requires n <= 8
    ensures Ones(n) + Pow2(8 - n) == 256
  {
    Pow2Table();
  }

  lemma Pow2Octets()
    ensures Pow2(8) == 0x100 && Pow2(16) == 0x1_0000 && Pow2(24) == 0x100_0000 && Pow2(32) == 0x1_0000_0000
  {
    Pow2Table();
    Pow2Splits(8, 8);
    Pow2Splits(16, 8);
    Pow2Splits(24, 8);
    hide Pow2;
  }

  /** The 32-bit number that four octets make, the first being the most significant. */
  function Address(o: seq<nat>): nat
    requires |o| == 4
  {
    o[0] * 0x100_0000 + o[1] * 0x1_0000 + o[2] * 0x100 + o[3]
  }

  lemma OctetsAt(bits: nat, k: nat, r: nat)
    requires k < 4 && bits == 8 * k + r && r <= 8
    ensures forall i :: 0 <= i < 4 ==> Octets(bits)[i] == if i < k then 255 else if i == k then Ones(r) else 0
  {
    hide Ones;
    assert Ones(8) == 255 && Ones(0) == 0 by { OnesEnds(); }
    assert forall i :: 0 <= i < k ==> BitsIn(bits, i) == 8;
    assert BitsIn(bits, k) == r;
    assert forall i :: k < i < 4 ==> BitsIn(bits, i) == 0;
  }

  lemma OnesEnds()
    ensures Ones(8) == 255 && Ones(0) == 0
  {
  }

  /** The mask of a prefix has its leading `bits` of 32 bits set and no other. */
  lemma OctetsAreTheMask(bits: nat)
    requires bits <= 32
    ensures Address(Octets(bits)) == Pow2(32) - Pow2(32 - bits)
    ensures forall k :: 0 <= k < 4 ==> Octets(bits)[k] < 256
  {
    var k := if bits == 32 then 3 else bits / 8;
    var r := bits - 8 * k;
    OnesValue(r);
    Pow2Octets();
    Pow2Splits(8 - r, 24 - 8 * k);
    assert 32 - bits == (8 - r) + (24 - 8 * k);
    OctetsAt(bits, k, r);
    assert Pow2(0) == 1;
    hide Pow2, Ones, BitsIn, Octets;
    var p := Pow2(8 - r);
    assert p <= 256;
    if k == 0 {
    } else if k == 1 {
    } else if k == 2 {
    } else {
    }
  }

  /** `text` is four decimal octets that make the mask of a prefix of this length. */
  ghost predicate IsNetmask(text: string, bits: nat) {
    bits <= 32 && exists o: seq<nat> ::
      |o| == 4 && (forall k :: 0 <= k < 4 ==> o[k] < 256) && Address(o) == Pow2(32) - Pow2(32 - bits)
      && text == Decimal(o[0]) + "." + Decimal(o[1]) + "." + Decimal(o[2]) + "." + Decimal(o[3])
  }

  lemma DottedFour(a: nat, b: nat, c: nat, d: nat)
    ensures Dotted([a, b, c, d]) == Decimal(a) + "." + Decimal(b) + "." + Decimal(c) + "." + Decimal(d)
  {
    var x, y, z, w := Decimal(a), Decimal(b), Decimal(c), Decimal(d);
    assert [a, b, c, d][1..] == [b, c, d] && [b, c, d][1..] == [c, d] && [c, d][1..] == [d];
    assert Dotted([d]) == w;
    assert Dotted([c, d]) == z + "." + w;
    assert Dotted([b, c, d]) == y + "." + (z + "." + w);
    hide Dotted, Decimal;
    assert x + "." + (y + "." + (z + "." + w)) == x + "." + y + "." + z + "." + w;
  }

  lemma NetmaskIsTheMask(bits: nat)
    requires bits <= 32
    ensures IsNetmask(Netmask(bits), bits)
  {
    var o := Octets(bits);
    OctetsAreTheMask(bits);
    DottedFour(o[0], o[1], o[2], o[3]);
    assert o == [o[0], o[1], o[2], o[3]];
    hide Octets, Dotted, Decimal, Pow2;
  }

  // ---- quoting, as %q does it ----

  const Hex := "0123456789abcdef"

  function Escape(c: char): string {
    if c == '\\' then "\\\\"
    else if c == '\"' then "\\\""
    else if c == 7 as char then "\\a"
    else if c == 8 as char then "\\b"
    else if c == 9 as char then "\\t"
    else if c == 10 as char then "\\n"
    else if c == 11 as char then "\\v"
    else if c == 12 as char then "\\f"
    else if c == 13 as char then "\\r"
    else if c < ' ' || c == 127 as char then "\\x" + [Hex[c as int / 16 % 16], Hex[c as int % 16]]
    else [c]
  }

  function Escaped(s: string): string { if s == "" then "" else Escape(s[0]) + Escaped(s[1..]) }

  function Quote(s: string): string { "\"" + Escaped(s) + "\"" }

  function HexValue(c: char): nat {
    if '0' <= c <= '9' then c as nat - '0' as nat else if 'a' <= c <= 'f' then c as nat - 'a' as nat + 10 else 0
  }

  /** Undoes one escape: the character, and how much of `q` it took. */
  function Unescape(q: string): Option<(char, nat)> {
    if q == "" then None
    else if q[0] != '\\' then Some((q[0], 1))
    else if |q| == 1 then None
    else if q[1] == 'x' then
      if |q| < 4 then None else Some(((HexValue(q[2]) * 16 + HexValue(q[3])) as char, 4))
    else
      var c := match q[1]
        case 'a' => 7 as char case 'b' => 8 as char case 't' => 9 as char case 'n' => 10 as char
        case 'v' => 11 as char case 'f' => 12 as char case 'r' => 13 as char case c => c;
      Some((c, 2))
  }

  function Unescaped(q: string): Option<string>
    decreases |q|
  {
    if q == "" then Some("")
    else
      var u := Unescape(q);
      if u.None? || u.value.1 == 0 || u.value.1 > |q| then None
      else
        var rest := Unescaped(q[u.value.1..]);
        if rest.None? then None else Some([u.value.0] + rest.value)
  }

  function Unquote(q: string): Option<string> {
    if |q| < 2 || q[0] != '\"' || q[|q| - 1] != '\"' then None else Unescaped(q[1..|q| - 1])
  }

  lemma HexDigit(n: nat)
    requires n < 16
    ensures HexValue(Hex[n]) == n && Hex[n] != '\n'
  {
  }

  lemma UnescapeEscape(c: char, rest: string)
    ensures Unescape(Escape(c) + rest) == Some((c, |Escape(c)|))
    ensures '\n' !in Escape(c)
  {
    var q := Escape(c) + rest;
    if |Escape(c)| == 4 {
      var hi, lo := c as nat / 16, c as nat % 16;
      HexDigit(hi);
      HexDigit(lo);
      hide HexValue;
      assert q[0] == '\\' && q[1] == 'x' && q[2] == Hex[hi] && q[3] == Hex[lo];
    } else if |Escape(c)| == 2 {
      assert q[0] == '\\' && q[1] == Escape(c)[1];
    } else {
      assert q[0] == c;
    }
  }

  lemma {:induction false} UnescapedEscaped(s: string)
    ensures Unescaped(Escaped(s)) == Some(s) && '\n' !in Escaped(s)
  {
    if s != "" {
      var rest := Escaped(s[1..]);
      UnescapeEscape(s[0], rest);
      UnescapedEscaped(s[1..]);
      assert Escaped(s) == Escape(s[0]) + rest && Escaped(s)[|Escape(s[0])|..] == rest;
      assert [s[0]] + s[1..] == s;
    }
  }

  /** Quoting loses nothing and leaves no newline. */
  lemma UnquoteQuote(s: string)
    ensures Unquote(Quote(s)) == Some(s) && '\n' !in Quote(s)
  {
    UnescapedEscaped(s);
    assert Quote(s)[1..|Quote(s)| - 1] == Escaped(s);
  }

  // ---- the emitted shape ----

  datatype Stanza = Stanza(name: string, mac: string, address: string, netmask: string, gateway: string, dns: seq<string>)

  const Physical := "  - type: physical"
  const NameKey := "    name: "
  const MacKey := "    mac_address: "
  const Subnets := "    subnets:"
  const Static := "      - type: static"
  const AddressKey := "        address: "
  const NetmaskKey := "        netmask: "
  const GatewayKey := "        gateway: "
  const Nameservers := "        dns_nameservers:"
  const Entry := "          - "

  function Entries(dns: seq<string>): seq<string> { seq(|dns|, i requires 0 <= i < |dns| => Entry + dns[i]) }

  function Fixed(s: Stanza): (ls: seq<string>)
    ensures |ls| == 7
  {
    [Physical, NameKey + s.name, MacKey + Quote(s.mac), Subnets, Static, AddressKey + s.address, NetmaskKey + s.netmask]
  }

  function GatewayLines(s: Stanza): seq<string> { if s.gateway != "" then [GatewayKey + s.gateway] else [] }

  function DNSLines(s: Stanza): seq<string> { if s.dns != [] then [Nameservers] + Entries(s.dns) else [] }

  function StanzaLines(s: Stanza): seq<string> { Fixed(s) + GatewayLines(s) + DNSLines(s) }

  function AllLines(ss: seq<Stanza>): seq<string> { if ss == [] then [] else StanzaLines(ss[0]) + AllLines(ss[1..]) }

  function Unlines(ls: seq<string>): string { if ls == [] then "" else ls[0] + "\n" + Unlines(ls[1..]) }

  function Document(ss: seq<Stanza>): seq<string> { ["version: 1", "config:"] + AllLines(ss) }

  function Printed(ss: seq<Stanza>): string { Unlines(Document(ss)) }

  // ---- parsing it ----

  /** The lines of a text whose last line is terminated. */
  function Lines(text: string): (ls: Option<seq<string>>)
    ensures ls.Some? ==> forall i :: 0 <= i < |ls.value| ==> '\n' !in ls.value[i]
    decreases |text|
  {
    if text == "" then Some([])
    else
      var i := IndexOf(text, '\n');
      if i == |text| then None
      else
        var rest := Lines(text[i + 1..]);
        if rest.None? then None else Some([text[..i]] + rest.value)
  }

  function Field(key: string, line: string): Option<string> {
    if |key| <= |line| && line[..|key|] == key then Some(line[|key|..]) else None
  }

  /** The leading lines that are list entries. */
  function TakeEntries(ls: seq<string>): (seq<string>, seq<string>) {
    if ls == [] || Field(Entry, ls[0]).None? then ([], ls)
    else var (ds, rest) := TakeEntries(ls[1..]); ([Field(Entry, ls[0]).value] + ds, rest)
  }

  function ParseGateway(ls: seq<string>): (string, seq<string>) {
    if ls != [] && Field(GatewayKey, ls[0]).Some? then (Field(GatewayKey, ls[0]).value, ls[1..]) else ("", ls)
  }

  function ParseDNS(ls: seq<string>): (seq<string>, seq<string>) {
    if ls != [] && ls[0] == Nameservers then TakeEntries(ls[1..]) else ([], ls)
  }

  function ParseFixed(ls: seq<string>): Option<Stanza>
    requires |ls| == 7
  {
    var name, q := Field(NameKey, ls[1]), Field(MacKey, ls[2]);
    var address, netmask := Field(AddressKey, ls[5]), Field(NetmaskKey, ls[6]);
    if ls[0] != Physical || ls[3] != Subnets || ls[4] != Static || name.None? || q.None? || address.None? || netmask.None? then None
    else
      var mac := Unquote(q.value);
      if mac.None? then None else Some(Stanza(name.value, mac.value, address.value, netmask.value, "", []))
  }

  function ParseStanza(ls: seq<string>): Option<(Stanza, seq<string>)> {
    if |ls| < 7 then None
    else
      var p := ParseFixed(ls[..7]);
      if p.None? then None
      else
        var (gateway, rest1) := ParseGateway(ls[7..]);
        var (dns, rest2) := ParseDNS(rest1);
        Some((p.value.(gateway := gateway, dns := dns), rest2))
  }

  lemma {:induction false} TakeEntriesIsSuffix(ls: seq<string>)
    ensures var (ds, rest) := TakeEntries(ls); |rest| + |ds| == |ls| && rest == ls[|ds|..]
  {
    if !(ls == [] || Field(Entry, ls[0]).None?) { TakeEntriesIsSuffix(ls[1..]); }
  }

  lemma ParseStanzaShrinks(ls: seq<string>)
    ensures ParseStanza(ls).Some? ==> |ParseStanza(ls).value.1| < |ls|
  {
    if ParseStanza(ls).Some? {
      var rest := ParseGateway(ls[7..]).1;
      if rest != [] { TakeEntriesIsSuffix(rest[1..]); }
    }
  }

  function ParseStanzas(ls: seq<string>): Option<seq<Stanza>>
    decreases |ls|
  {
    if ls == [] then Some([])
    else
      var p := ParseStanza(ls);
      if p.None? then None
      else
        ParseStanzaShrinks(ls);
        var rest := ParseStanzas(p.value.1);
        if rest.None? then None else Some([p.value.0] + rest.value)
  }

  function Parse(text: string): Option<seq<Stanza>> {
    var ls := Lines(text);
    if ls.None? || |ls.value| < 2 || ls.value[0] != "version: 1" || ls.value[1] != "config:" then None
    else ParseStanzas(ls.value[2..])
  }

  // ---- parsing inverts printing ----

  lemma FieldOf(key: string, v: string)
    ensures Field(key, key + v) == Some(v)
  {
    assert (key + v)[|key|..] == v;
  }

  lemma FieldDiffers(key: string, line: string, i: nat)
    requires i < |key| && i < |line| && key[i] != line[i]
    ensures Field(key, line).None?
  {
    if |key| <= |line| { assert line[..|key|][i] == line[i]; }
  }

  predicate StartsNext(rest: seq<string>) { rest == [] || rest[0] == Physical }

  lemma {:induction false} TakeEntriesOf(dns: seq<string>, rest: seq<string>)
    requires StartsNext(rest)
    ensures TakeEntries(Entries(dns) + rest) == (dns, rest)
  {
    if dns == [] {
      assert Entries(dns) + rest == rest;
      FieldDiffers(Entry, Physical, 2);
    } else {
      FieldOf(Entry, dns[0]);
      assert (Entries(dns) + rest)[0] == Entry + dns[0];
      assert [dns[0]] + dns[1..] == dns;
      assert Entries(dns)[1..] == Entries(dns[1..]);
      assert (Entries(dns) + rest)[1..] == Entries(dns[1..]) + rest;
      TakeEntriesOf(dns[1..], rest);
    }
  }

  lemma ParseGatewayOf(s: Stanza, rest: seq<string>)
    requires rest == [] || Field(GatewayKey, rest[0]).None?
    ensures ParseGateway(GatewayLines(s) + rest) == (s.gateway, rest)
  {
    FieldOf(GatewayKey, s.gateway);
    if s.gateway == "" {
      assert GatewayLines(s) + rest == rest;
    } else {
      assert (GatewayLines(s) + rest)[1..] == rest;
    }
  }

  lemma ParseDNSOf(s: Stanza, rest: seq<string>)
    requires StartsNext(rest)
    ensures ParseDNS(DNSLines(s) + rest) == (s.dns, rest)
    ensures var d := DNSLines(s) + rest; d == [] || Field(GatewayKey, d[0]).None?
  {
    FieldDiffers(GatewayKey, Physical, 2);
    FieldDiffers(GatewayKey, Nameservers, 8);
    if s.dns == [] {
      assert DNSLines(s) + rest == rest;
      assert Physical[2] != Nameservers[2];
    } else {
      assert (DNSLines(s) + rest)[1..] == Entries(s.dns) + rest;
      TakeEntriesOf(s.dns, rest);
    }
  }

  lemma ParseFixedOf(s: Stanza)
    ensures ParseFixed(Fixed(s)) == Some(s.(gateway := "", dns := []))
  {
    FieldOf(NameKey, s.name);
    FieldOf(MacKey, Quote(s.mac));
    FieldOf(AddressKey, s.address);
    FieldOf(NetmaskKey, s.netmask);
    UnquoteQuote(s.mac);
    hide Field, Quote, Unquote;
  }

  lemma CutAt<T>(a: seq<T>, b: seq<T>, c: seq<T>, d: seq<T>)
    ensures var s := a + b + c + d; s[..|a|] == a && s[|a|..] == b + (c + d)
  {
  }

  lemma ParseStanzaOf(s: Stanza, rest: seq<string>)
    requires StartsNext(rest)
    ensures ParseStanza(StanzaLines(s) + rest) == Some((s, rest))
  {
    var ls := StanzaLines(s) + rest;
    var d := DNSLines(s) + rest;
    ParseFixedOf(s);
    ParseDNSOf(s, rest);
    ParseGatewayOf(s, d);
    CutAt(Fixed(s), GatewayLines(s), DNSLines(s), rest);
    hide ParseFixed, ParseGateway, ParseDNS, GatewayLines, DNSLines, Entries, StartsNext, Fixed;
  }

  lemma {:induction false} ParseStanzasOf(ss: seq<Stanza>)
    ensures ParseStanzas(AllLines(ss)) == Some(ss) && StartsNext(AllLines(ss))
  {
    if ss != [] {
      ParseStanzasOf(ss[1..]);
      ParseStanzaOf(ss[0], AllLines(ss[1..]));
      assert [ss[0]] + ss[1..] == ss;
    }
  }

  lemma {:induction false} LinesOf(ls: seq<string>)
    requires forall i :: 0 <= i < |ls| ==> '\n' !in ls[i]
    ensures Lines(Unlines(ls)) == Some(ls)
  {
    if ls != [] {
      var text := Unlines(ls);
      LinesOf(ls[1..]);
      assert forall j :: 0 <= j < |ls[0]| ==> text[j] == ls[0][j];
      IndexOfUnique(text, '\n', |ls[0]|);
      assert text[|ls[0]|] == '\n';
      assert text[..|ls[0]|] == ls[0] && text[|ls[0]| + 1..] == Unlines(ls[1..]);
      assert [ls[0]] + ls[1..] == ls;
    }
  }

  /** No field that is printed as it stands contains a newline. */
  predicate OneLiners(s: Stanza) {
    && '\n' !in s.name && '\n' !in s.address && '\n' !in s.netmask && '\n' !in s.gateway
    && forall i :: 0 <= i < |s.dns| ==> '\n' !in s.dns[i]
  }

  predicate CleanLines(ls: seq<string>) { forall i :: 0 <= i < |ls| ==> '\n' !in ls[i] }

  lemma FixedClean(s: Stanza)
    requires OneLiners(s)
    ensures CleanLines(Fixed(s))
  {
    UnquoteQuote(s.mac);
    hide Quote;
  }

  lemma StanzaLinesClean(s: Stanza)
    requires OneLiners(s)
    ensures CleanLines(StanzaLines(s))
  {
    FixedClean(s);
    hide Fixed;
    assert CleanLines(Entries(s.dns));
    assert CleanLines(GatewayLines(s)) && CleanLines(DNSLines(s));
  }

  lemma {:induction false} AllLinesClean(ss: seq<Stanza>)
    requires forall i :: 0 <= i < |ss| ==> OneLiners(ss[i])
    ensures CleanLines(AllLines(ss))
  {
    if ss != [] {
      StanzaLinesClean(ss[0]);
      AllLinesClean(ss[1..]);
    }
  }

  lemma {:induction false} TakeEntriesClean(ls: seq<string>)
    requires CleanLines(ls)
    ensures CleanLines(TakeEntries(ls).0)
  {
    if !(ls == [] || Field(Entry, ls[0]).None?) { TakeEntriesClean(ls[1..]); }
  }

  lemma ParsedStanzaIsClean(ls: seq<string>)
    requires CleanLines(ls) && ParseStanza(ls).Some?
    ensures OneLiners(ParseStanza(ls).value.0) && CleanLines(ParseStanza(ls).value.1)
  {
    var r1 := ParseGateway(ls[7..]).1;
    assert CleanLines(ls[..7]) && CleanLines(ls[7..]) && CleanLines(r1);
    if r1 != [] && r1[0] == Nameservers {
      TakeEntriesClean(r1[1..]);
      TakeEntriesIsSuffix(r1[1..]);
    }
  }

  lemma {:induction false} ParsedIsClean(ls: seq<string>)
    requires CleanLines(ls) && ParseStanzas(ls).Some?
    ensures forall i :: 0 <= i < |ParseStanzas(ls).value| ==> OneLiners(ParseStanzas(ls).value[i])
    decreases |ls|
  {
    if ls != [] {
      ParseStanzaShrinks(ls);
      ParsedStanzaIsClean(ls);
      ParsedIsClean(ParseStanza(ls).value.1);
    }
  }

  /** Every interface comes back, in order and with every field, exactly when no unquoted field holds a newline. */
  lemma RoundTrip(ss: seq<Stanza>)
    ensures Parse(Printed(ss)) == Some(ss) <==> forall i :: 0 <= i < |ss| ==> OneLiners(ss[i])
  {
    var text := Printed(ss);
    if forall i :: 0 <= i < |ss| ==> OneLiners(ss[i]) {
      AllLinesClean(ss);
      LinesOf(Document(ss));
      assert Document(ss)[2..] == AllLines(ss);
      ParseStanzasOf(ss);
    }
    if Parse(text) == Some(ss) {
      ParsedIsClean(Lines(text).value[2..]);
    }
  }

  // ---- the printer ----

  datatype Rendered = Text(text: string) | WaitingForStaticIP | BadCIDR

  /** The hand-written static block fills what the allocation result leaves empty. */
  function Filled(st: StatusIface, manual: Option<StaticBlock>): StatusIface {
    if manual.None? then st
    else st.(subnet := if st.subnet.text == "" then manual.value.cidr else st.subnet,
             gateway := if st.gateway == "" then manual.value.gateway else st.gateway,
             dns := if st.dns == [] then manual.value.dns else st.dns)
  }

  function DisplayName(spec: Iface, i: nat): string { if spec.name == "" then "eth" + Decimal(i) else spec.name }

  datatype Config = Config(spec: seq<Iface>, status: seq<StatusIface>, manual: Option<StaticBlock>)

  /** The allocation result of an interface with this MAC, if it has an address. */
  function Found(c: Config, mac: string): (r: Option<StatusIface>)
    ensures r.Some? ==> r.value.ipv4 != []
  {
    var st := LastWithMac(c.status, ToLower(mac));
    if st.Some? && st.value.ipv4 != [] then Some(Filled(st.value, c.manual)) else None
  }

  predicate IsIPv4(cidr: CIDR) { cidr.parsed.Some? && cidr.parsed.value.PrefixV4? }

  /** What interface `i` should say. */
  function StanzaOf(spec: Iface, i: nat, st: StatusIface): Option<Stanza> {
    if st.ipv4 != [] && IsIPv4(st.subnet) then
      Some(Stanza(DisplayName(spec, i), ToLower(spec.mac), st.ipv4[0], Netmask(st.subnet.parsed.value.bits), st.gateway, st.dns))
    else None
  }

  function StanzaAt(c: Config, i: nat): Option<Stanza>
    requires i < |c.spec|
  {
    var st := Found(c, c.spec[i].mac);
    if st.None? then None else StanzaOf(c.spec[i], i, st.value)
  }

  /** When interface `i` can be rendered, in terms of the configuration alone: without a MAC it never can. */
  lemma StanzaExistsIff(c: Config, i: nat)
    requires i < |c.spec|
    ensures StanzaAt(c, i).Some? <==>
              c.spec[i].mac != "" &&
              exists j: nat :: IsLastMatch(c.status, ToLower(c.spec[i].mac), j) && c.status[j].ipv4 != [] &&
                               IsIPv4(Filled(c.status[j], c.manual).subnet)
  {
    LastWithMacIsLast(c.status, ToLower(c.spec[i].mac));
  }

  /** The stanzas of the first `n` interfaces, if each has one. */
  function Stanzas(c: Config, n: nat): Option<seq<Stanza>>
    requires n <= |c.spec|
  {
    if n == 0 then Some([])
    else
      var ss, s := Stanzas(c, n - 1), StanzaAt(c, n - 1);
      if ss.None? || s.None? then None else Some(ss.value + [s.value])
  }

  lemma {:induction false} StanzasAre(c: Config, n: nat)
    requires n <= |c.spec|
    ensures Stanzas(c, n).Some? <==> forall i: nat :: i < n ==> StanzaAt(c, i).Some?
    ensures Stanzas(c, n).Some? ==> |Stanzas(c, n).value| == n
    ensures Stanzas(c, n).Some? ==> forall i: nat :: i < n ==> StanzaAt(c, i) == Some(Stanzas(c, n).value[i])
  {
    hide StanzaAt;
    if n > 0 {
      StanzasAre(c, n - 1);
      var ss, s := Stanzas(c, n - 1), StanzaAt(c, n - 1);
      assert Stanzas(c, n) == if ss.None? || s.None? then None else Some(ss.value + [s.value]);
      hide Stanzas;
    }
  }

  lemma {:induction false} UnlinesAppend(a: seq<string>, b: seq<string>)
    ensures Unlines(a + b) == Unlines(a) + Unlines(b)
  {
    if a == [] {
      assert a + b == b;
    } else {
      assert (a + b)[1..] == a[1..] + b;
      UnlinesAppend(a[1..], b);
    }
  }

  lemma {:induction false} AllLinesSnoc(ss: seq<Stanza>, s: Stanza)
    ensures AllLines(ss + [s]) == AllLines(ss) + StanzaLines(s)
  {
    hide StanzaLines;
    if ss == [] {
      assert ss + [s] == [s];
      assert AllLines([s]) == StanzaLines(s) + AllLines([]);
    } else {
      var rest := ss[1..];
      assert (ss + [s])[1..] == rest + [s];
      AllLinesSnoc(rest, s);
      assert AllLines(ss + [s]) == StanzaLines(ss[0]) + AllLines(rest + [s]);
      hide AllLines;
    }
  }

  method IndexByMac(status: seq<StatusIface>) returns (byMac: map<string, StatusIface>)
    ensures forall key :: (if key in byMac then Some(byMac[key]) else None) == LastWithMac(status, key)
  {
    byMac := map[];
    for i := 0 to |status|
      invariant forall key :: (if key in byMac then Some(byMac[key]) else None) == LastWithMac(status[..i], key)
    {
      assert status[..i + 1][..i] == status[..i];
      if status[i].mac == "" { continue; }
      byMac := byMac[ToLower(status[i].mac) := status[i]];
    }
    assert status[..|status|] == status;
  }

  method WriteEntries(dns: seq<string>) returns (b: string)
    ensures b == Unlines(Entries(dns))
  {
    b := "";
    for i := 0 to |dns|
      invariant b == Unlines(Entries(dns[..i]))
    {
      assert Entries(dns[..i + 1]) == Entries(dns[..i]) + [Entry + dns[i]];
      UnlinesAppend(Entries(dns[..i]), [Entry + dns[i]]);
      assert Unlines([Entry + dns[i]]) == Entry + dns[i] + "\n";
      b := b + Entry + dns[i] + "\n";
    }
    assert dns[..|dns|] == dns;
  }

  /** Appends one interface to `b`; None when the subnet is no IPv4 CIDR. */
  method WriteStaticInterface(b: string, spec: Iface, st: StatusIface, manual: Option<StaticBlock>, i: nat) returns (r: Option<string>)
    requires st.ipv4 != []
    ensures r.Some? <==> IsIPv4(Filled(st, manual).subnet)
    ensures r.Some? ==>
              var s := StanzaOf(spec, i, Filled(st, manual)).value;
              r.value == b + Unlines(if spec.mac != "" then StanzaLines(s) else WithoutMac(s))
  {
    hide Unlines, StanzaLines, WithoutMac, Netmask, Quote, Decimal, ToLower, Entries, FixedText, PlainText;
    var cidr, gateway, dns := st.subnet, st.gateway, st.dns;
    if manual.Some? {
      if cidr.text == "" { cidr := manual.value.cidr; }
      if gateway == "" { gateway := manual.value.gateway; }
      if dns == [] { dns := manual.value.dns; }
    }
    if cidr.parsed.None? || cidr.parsed.value.PrefixV6? { return None; }
    var netmask := Netmask(cidr.parsed.value.bits);
    var name := spec.name;
    if name == "" { name := "eth" + Decimal(i); }
    ghost var s := StanzaOf(spec, i, Filled(st, manual)).value;
    assert s == Stanza(name, ToLower(spec.mac), st.ipv4[0], netmask, gateway, dns);
    StanzaPrints(s);
    WithoutMacPrints(s);
    hide StanzaOf, Filled, DisplayName, IsIPv4;
    var out := WriteHead(name, if spec.mac != "" then Some(ToLower(spec.mac)) else None, st.ipv4[0], netmask, s);
    var all := WriteGatewayAndDNS(out, gateway, dns);
    r := Some(b + all);
  }

  method WriteHead(name: string, mac: Option<string>, address: string, netmask: string, ghost s: Stanza) returns (out: string)
    requires s.name == name && s.address == address && s.netmask == netmask && (mac.Some? ==> s.mac == mac.value)
    ensures out == if mac.Some? then FixedText(s) else PlainText(s)
  {
    hide Quote;
    out := Physical + "\n" + NameKey + name + "\n";
    if mac.Some? {
      out := out + MacKey + Quote(mac.value) + "\n";
    }
    out := out + Subnets + "\n" + Static + "\n" + AddressKey + address + "\n" + NetmaskKey + netmask + "\n";
  }

  method WriteGatewayAndDNS(out: string, gateway: string, dns: seq<string>) returns (r: string)
    ensures r ==
      var u := if gateway != "" then out + (GatewayKey + gateway + "\n") else out;
      if dns != [] then u + (Nameservers + "\n" + Unlines(Entries(dns))) else u
  {
    r := out;
    if gateway != "" {
      r := r + (GatewayKey + gateway + "\n");
    }
    if |dns| > 0 {
      var entries := WriteEntries(dns);
      r := r + (Nameservers + "\n" + entries);
    }
  }

  function FixedText(s: Stanza): string {
    Physical + "\n" + NameKey + s.name + "\n" + MacKey + Quote(s.mac) + "\n" + Subnets + "\n" + Static + "\n" +
    AddressKey + s.address + "\n" + NetmaskKey + s.netmask + "\n"
  }

  /** The stanza's lines but for the one with the MAC. */
  function WithoutMac(s: Stanza): seq<string> {
    [Physical, NameKey + s.name, Subnets, Static, AddressKey + s.address, NetmaskKey + s.netmask] + GatewayLines(s) + DNSLines(s)
  }

  function PlainText(s: Stanza): string {
    Physical + "\n" + NameKey + s.name + "\n" + Subnets + "\n" + Static + "\n" +
    AddressKey + s.address + "\n" + NetmaskKey + s.netmask + "\n"
  }

  /** A stanza without a MAC prints as one with a MAC, but for that line. */
  lemma WithoutMacDropsOneLine(s: Stanza)
    ensures WithoutMac(s) == StanzaLines(s)[..2] + StanzaLines(s)[3..]
  {
  }

  lemma UnlinesThreeMore(ls: seq<string>, a: string, b: string, c: string)
    requires ls != []
    ensures Unlines(ls + [a, b, c]) == Unlines(ls) + a + "\n" + b + "\n" + c + "\n"
  {
    var l1 := ls + [a];
    var l2 := l1 + [b];
    UnlinesSnoc(ls, a);
    UnlinesSnoc(l1, b);
    UnlinesSnoc(l2, c);
    hide Unlines;
    assert ls + [a, b, c] == l2 + [c];
  }

  lemma UnlinesSeven(a: string, b: string, c: string, d: string, e: string, f: string, g: string)
    ensures Unlines([a, b, c, d, e, f, g]) ==
      a + "\n" + b + "\n" + c + "\n" + d + "\n" + e + "\n" + f + "\n" + g + "\n"
  {
    UnlinesSnoc([], a);
    UnlinesThreeMore([a], b, c, d);
    UnlinesThreeMore([a, b, c, d], e, f, g);
    hide Unlines;
    assert [] + [a] == [a] && [a] + [b, c, d] == [a, b, c, d] && [a, b, c, d] + [e, f, g] == [a, b, c, d, e, f, g];
  }

  lemma UnlinesSnoc(ls: seq<string>, x: string)
    ensures Unlines(ls + [x]) == (if ls == [] then "" else Unlines(ls)) + x + "\n"
  {
    UnlinesAppend(ls, [x]);
    assert Unlines([x]) == x + "\n";
    assert Unlines(ls) + (x + "\n") == Unlines(ls) + x + "\n";
  }

  lemma FixedPrints(s: Stanza)
    ensures Unlines(Fixed(s)) == FixedText(s)
  {
    UnlinesSeven(Physical, NameKey + s.name, MacKey + Quote(s.mac), Subnets, Static, AddressKey + s.address, NetmaskKey + s.netmask);
    Regroup(NameKey, s.name, MacKey, Quote(s.mac), AddressKey, s.address, NetmaskKey, s.netmask, Physical, Subnets, Static);
    hide Unlines, Quote;
  }

  lemma Regroup(k1: string, v1: string, k2: string, v2: string, k3: string, v3: string, k4: string, v4: string,
                p: string, u: string, t: string)
    ensures p + "\n" + (k1 + v1) + "\n" + (k2 + v2) + "\n" + u + "\n" + t + "\n" + (k3 + v3) + "\n" + (k4 + v4) + "\n"
         == p + "\n" + k1 + v1 + "\n" + k2 + v2 + "\n" + u + "\n" + t + "\n" + k3 + v3 + "\n" + k4 + v4 + "\n"
  {
    var a := p + "\n";
    assert a + (k1 + v1) == a + k1 + v1;
    var b := a + k1 + v1 + "\n";
    assert b + (k2 + v2) == b + k2 + v2;
    var c := b + k2 + v2 + "\n" + u + "\n" + t + "\n";
    assert c + (k3 + v3) == c + k3 + v3;
    var d := c + k3 + v3 + "\n";
    assert d + (k4 + v4) == d + k4 + v4;
  }

  lemma GatewayPrints(s: Stanza)
    ensures Unlines(GatewayLines(s)) == if s.gateway == "" then "" else GatewayKey + s.gateway + "\n"
  {
    if s.gateway != "" { assert Unlines([GatewayKey + s.gateway]) == GatewayKey + s.gateway + "\n" + Unlines([]); }
  }

  lemma DNSPrints(s: Stanza)
    ensures Unlines(DNSLines(s)) == if s.dns == [] then "" else Nameservers + "\n" + Unlines(Entries(s.dns))
  {
    if s.dns != [] { assert DNSLines(s)[1..] == Entries(s.dns); }
  }

  lemma StanzaPrints(s: Stanza)
    ensures Unlines(StanzaLines(s)) ==
      var t := FixedText(s);
      var u := if s.gateway != "" then t + (GatewayKey + s.gateway + "\n") else t;
      if s.dns != [] then u + (Nameservers + "\n" + Unlines(Entries(s.dns))) else u
  {
    FixedPrints(s);
    BodyPrints(Fixed(s), s);
    hide Unlines, Fixed, FixedText, Entries;
  }

  lemma BodyPrints(head: seq<string>, s: Stanza)
    ensures Unlines(head + GatewayLines(s) + DNSLines(s)) ==
      var t := Unlines(head);
      var u := if s.gateway != "" then t + (GatewayKey + s.gateway + "\n") else t;
      if s.dns != [] then u + (Nameservers + "\n" + Unlines(Entries(s.dns))) else u
  {
    GatewayPrints(s);
    DNSPrints(s);
    UnlinesAppend(head + GatewayLines(s), DNSLines(s));
    UnlinesAppend(head, GatewayLines(s));
    hide Unlines, GatewayLines, DNSLines, Entries;
  }

  lemma UnlinesTwoMore(ls: seq<string>, a: string, b: string)
    requires ls != []
    ensures Unlines(ls + [a, b]) == Unlines(ls) + a + "\n" + b + "\n"
  {
    var l1 := ls + [a];
    UnlinesSnoc(ls, a);
    UnlinesSnoc(l1, b);
    hide Unlines;
    assert ls + [a, b] == l1 + [b];
  }

  lemma UnlinesSix(a: string, b: string, c: string, d: string, e: string, f: string)
    ensures Unlines([a, b, c, d, e, f]) == a + "\n" + b + "\n" + c + "\n" + d + "\n" + e + "\n" + f + "\n"
  {
    UnlinesSnoc([], a);
    UnlinesThreeMore([a], b, c, d);
    UnlinesTwoMore([a, b, c, d], e, f);
    hide Unlines;
    assert [] + [a] == [a] && [a] + [b, c, d] == [a, b, c, d] && [a, b, c, d] + [e, f] == [a, b, c, d, e, f];
  }

  lemma PlainPrints(s: Stanza)
    ensures Unlines([Physical, NameKey + s.name, Subnets, Static, AddressKey + s.address, NetmaskKey + s.netmask]) == PlainText(s)
  {
    UnlinesSix(Physical, NameKey + s.name, Subnets, Static, AddressKey + s.address, NetmaskKey + s.netmask);
    RegroupThree(NameKey, s.name, AddressKey, s.address, NetmaskKey, s.netmask, Physical, Subnets, Static);
    hide Unlines;
  }

  lemma RegroupThree(k1: string, v1: string, k3: string, v3: string, k4: string, v4: string, p: string, u: string, t: string)
    ensures p + "\n" + (k1 + v1) + "\n" + u + "\n" + t + "\n" + (k3 + v3) + "\n" + (k4 + v4) + "\n"
         == p + "\n" + k1 + v1 + "\n" + u + "\n" + t + "\n" + k3 + v3 + "\n" + k4 + v4 + "\n"
  {
    var a := p + "\n";
    assert a + (k1 + v1) == a + k1 + v1;
    var c := a + k1 + v1 + "\n" + u + "\n" + t + "\n";
    assert c + (k3 + v3) == c + k3 + v3;
    var d := c + k3 + v3 + "\n";
    assert d + (k4 + v4) == d + k4 + v4;
  }

  lemma WithoutMacPrints(s: Stanza)
    ensures Unlines(WithoutMac(s)) ==
      var t := PlainText(s);
      var u := if s.gateway != "" then t + (GatewayKey + s.gateway + "\n") else t;
      if s.dns != [] then u + (Nameservers + "\n" + Unlines(Entries(s.dns))) else u
  {
    var head := [Physical, NameKey + s.name, Subnets, Static, AddressKey + s.address, NetmaskKey + s.netmask];
    PlainPrints(s);
    BodyPrints(head, s);
    hide Unlines, PlainText, GatewayLines, DNSLines, Entries;
  }

  lemma PrintedEmpty()
    ensures Printed([]) == "version: 1\nconfig:\n"
  {
    assert Document([]) == ["version: 1", "config:"];
    assert ["version: 1", "config:"][1..] == ["config:"] && Unlines(["config:"]) == "config:\n";
  }

  lemma PrintedGrows(ss: seq<Stanza>, s: Stanza)
    ensures Printed(ss + [s]) == Printed(ss) + Unlines(StanzaLines(s))
  {
    AllLinesSnoc(ss, s);
    hide Unlines, AllLines, StanzaLines;
    assert Document(ss + [s]) == Document(ss) + StanzaLines(s);
    UnlinesAppend(Document(ss), StanzaLines(s));
  }

  /** The outcome for the first `n` interfaces: the first that cannot be rendered decides the error. */
  function RenderedUpTo(c: Config, n: nat): Rendered
    requires n <= |c.spec|
  {
    if Stanzas(c, n).Some? then Text(Printed(Stanzas(c, n).value))
    else if n > 0 && Stanzas(c, n - 1).None? then RenderedUpTo(c, n - 1)
    else if n > 0 && Found(c, c.spec[n - 1].mac).None? then WaitingForStaticIP
    else BadCIDR
  }

  function Rendering(c: Config): Rendered {
    if c.spec == [] then Text("") else RenderedUpTo(c, |c.spec|)
  }

  lemma {:induction false} ObstacleStays(c: Config, i: nat, n: nat)
    requires i <= n <= |c.spec| && Stanzas(c, i).None?
    ensures Stanzas(c, n).None? && RenderedUpTo(c, n) == RenderedUpTo(c, i)
    decreases n
  {
    hide StanzaAt, Found, Printed;
    if i < n {
      ObstacleStays(c, i, n - 1);
      assert Stanzas(c, n).None?;
      hide Stanzas;
    }
  }

  /** Interface `i` is the first that cannot be rendered, and decides the error. */
  predicate Blocks(c: Config, i: nat, r: Rendered) {
    && i < |c.spec| && Stanzas(c, i).Some? && StanzaAt(c, i).None?
    && r == if Found(c, c.spec[i].mac).None? then WaitingForStaticIP else BadCIDR
  }

  lemma BlockDecides(c: Config, i: nat, r: Rendered)
    requires Blocks(c, i, r)
    ensures Rendering(c) == r
  {
    hide StanzaAt, Found, Printed;
    ObstacleStays(c, i + 1, |c.spec|);
  }

  method RenderNetworkConfigV1(c: Config) returns (r: Rendered)
    ensures c.spec == [] ==> r == Text("")
    ensures r.Text? <==> forall i: nat :: i < |c.spec| ==> StanzaAt(c, i).Some?
    ensures r.Text? && c.spec != [] ==> Stanzas(c, |c.spec|).Some? && r.text == Printed(Stanzas(c, |c.spec|).value)
    ensures !r.Text? ==> exists i: nat :: Blocks(c, i, r)
    ensures r == Rendering(c)
  {
    var byMac := IndexByMac(c.status);
    if c.spec == [] { return Text(""); }
    PrintedEmpty();
    hide Printed, Unlines, StanzaLines, StanzaOf, LastWithMac, IsIPv4, Filled, ToLower, StanzaAt;
    var b := "version: 1\nconfig:\n";
    for i := 0 to |c.spec|
      invariant Stanzas(c, i).Some? && b == Printed(Stanzas(c, i).value)
    {
      var spec := c.spec[i];
      var key := ToLower(spec.mac);
      assert (if key in byMac then Some(byMac[key]) else None) == LastWithMac(c.status, key);
      RenderedNext(c, i);
      if key !in byMac || byMac[key].ipv4 == [] {
        assert Blocks(c, i, WaitingForStaticIP);
        BlockDecides(c, i, WaitingForStaticIP);
        return WaitingForStaticIP;
      }
      assert Found(c, spec.mac) == Some(Filled(byMac[key], c.manual));
      var out := WriteStaticInterface(b, spec, byMac[key], c.manual, i);
      hide Found, Stanzas;
      if out.None? {
        assert Blocks(c, i, BadCIDR);
        BlockDecides(c, i, BadCIDR);
        return BadCIDR;
      }
      b := out.value;
    }
    StanzasAre(c, |c.spec|);
    r := Text(b);
  }

  /** One more interface prints one more stanza. */
  lemma RenderedNext(c: Config, i: nat)
    requires i < |c.spec| && Stanzas(c, i).Some?
    ensures var st := Found(c, c.spec[i].mac);
            && (st.None? ==> StanzaAt(c, i).None?)
            && (st.Some? ==> StanzaAt(c, i) == StanzaOf(c.spec[i], i, st.value) && (StanzaAt(c, i).Some? <==> IsIPv4(st.value.subnet)))
    ensures StanzaAt(c, i).Some? ==>
              && c.spec[i].mac != ""
              && Stanzas(c, i + 1).Some?
              && Printed(Stanzas(c, i + 1).value) == Printed(Stanzas(c, i).value) + Unlines(StanzaLines(StanzaAt(c, i).value))
  {
    StanzaExistsIff(c, i);
    if StanzaAt(c, i).Some? {
      PrintedGrows(Stanzas(c, i).value, StanzaAt(c, i).value);
    }
    hide Printed, Unlines, StanzaLines, LastWithMac;
  }

  // ---- what a rendered configuration says ----

  /** No string printed unquoted for interface `i` holds a newline. */
  predicate CleanInputs(c: Config, i: nat)
    requires i < |c.spec| && Found(c, c.spec[i].mac).Some?
  {
    var st := Found(c, c.spec[i].mac).value;
    '\n' !in c.spec[i].name && '\n' !in st.ipv4[0] && '\n' !in st.gateway && CleanLines(st.dns)
  }

  lemma {:induction false} DottedIsOneLine(o: seq<nat>)
    requires o != []
    ensures '\n' !in Dotted(o)
  {
    forall i: nat | i < |Decimal(o[0])| ensures Decimal(o[0])[i] != '\n' { DecimalDigits(o[0], i); }
    if |o| > 1 { DottedIsOneLine(o[1..]); }
  }

  lemma StanzaIsOneLinerIff(c: Config, i: nat)
    requires i < |c.spec| && StanzaAt(c, i).Some?
    ensures OneLiners(StanzaAt(c, i).value) <==> CleanInputs(c, i)
    ensures StanzaAt(c, i).value.mac != ""
  {
    StanzaExistsIff(c, i);
    DottedIsOneLine(Octets(Found(c, c.spec[i].mac).value.subnet.parsed.value.bits));
    forall k: nat | k < |Decimal(i)| ensures Decimal(i)[k] != '\n' { DecimalDigits(i, k); }
    assert c.spec[i].name == "" ==> '\n' !in DisplayName(c.spec[i], i);
  }

  /** What stanza `s` says of interface `i`, in terms of the configuration alone. */
  ghost predicate Describes(c: Config, i: nat, s: Stanza)
    requires i < |c.spec|
  {
    exists j: nat ::
      && IsLastMatch(c.status, ToLower(c.spec[i].mac), j)
      && var st := c.status[j];
      && s.name == (if c.spec[i].name == "" then "eth" + Decimal(i) else c.spec[i].name)
      && s.mac != "" && s.mac == ToLower(c.spec[i].mac)
      && st.ipv4 != [] && s.address == st.ipv4[0]
      && (st.gateway != "" || c.manual.None? ==> s.gateway == st.gateway)
      && (st.gateway == "" && c.manual.Some? ==> s.gateway == c.manual.value.gateway)
      && (st.dns != [] || c.manual.None? ==> s.dns == st.dns)
      && (st.dns == [] && c.manual.Some? ==> s.dns == c.manual.value.dns)
      && var cidr := if st.subnet.text == "" && c.manual.Some? then c.manual.value.cidr else st.subnet;
      && IsIPv4(cidr) && (cidr.parsed.value.bits <= 32 ==> IsNetmask(s.netmask, cidr.parsed.value.bits))
  }

  lemma StanzaDescribes(c: Config, i: nat)
    requires i < |c.spec| && StanzaAt(c, i).Some?
    ensures Describes(c, i, StanzaAt(c, i).value)
  {
    LastWithMacIsLast(c.status, ToLower(c.spec[i].mac));
    StanzaExistsIff(c, i);
    var j: nat :| IsLastMatch(c.status, ToLower(c.spec[i].mac), j);
    var s := StanzaAt(c, i).value;
    assert LastWithMac(c.status, ToLower(c.spec[i].mac)) == Some(c.status[j]);
    var bits := Filled(c.status[j], c.manual).subnet.parsed.value.bits;
    if bits <= 32 { NetmaskIsTheMask(bits); }
    hide LastWithMac, IsNetmask, Netmask, ToLower, Decimal;
  }

  /**
    Parsing the rendered text gives back every interface in order, with its name, lower-case MAC, first address,
    netmask, gateway and nameservers, exactly when none of the strings printed unquoted holds a newline. No stanza
    lacks a MAC.
  */
  lemma RenderedParses(c: Config)
    requires Stanzas(c, |c.spec|).Some?
    ensures forall i: nat :: i < |c.spec| ==> Found(c, c.spec[i].mac).Some?
    ensures Parse(Printed(Stanzas(c, |c.spec|).value)) == Stanzas(c, |c.spec|)
            <==> forall i: nat :: i < |c.spec| ==> CleanInputs(c, i)
    ensures |Stanzas(c, |c.spec|).value| == |c.spec|
    ensures forall i: nat :: i < |c.spec| ==> Describes(c, i, Stanzas(c, |c.spec|).value[i])
  {
    var ss := Stanzas(c, |c.spec|).value;
    RoundTrip(ss);
    StanzasAre(c, |c.spec|);
    forall i: nat | i < |c.spec|
      ensures Found(c, c.spec[i].mac).Some? && (OneLiners(ss[i]) <==> CleanInputs(c, i)) && Describes(c, i, ss[i])
    {
      assert StanzaAt(c, i) == Some(ss[i]);
      StanzaDescribes(c, i);
      StanzaIsOneLinerIff(c, i);
    }
    hide Parse, Printed, OneLiners, CleanInputs, Describes;
  }

  /** The layout of an interface, letter for letter, as network-config version 1 has it. */
  lemma StanzaLayout(s: Stanza)
    ensures StanzaLines(s) ==
      ["  - type: physical",
       "    name: " + s.name,
       "    mac_address: " + Quote(s.mac),
       "    subnets:",
       "      - type: static",
       "        address: " + s.address,
       "        netmask: " + s.netmask]
      + (if s.gateway == "" then [] else ["        gateway: " + s.gateway])
      + (if s.dns == [] then []
         else ["        dns_nameservers:"] + seq(|s.dns|, i requires 0 <= i < |s.dns| => "          - " + s.dns[i]))
    ensures Document([s])[..2] == ["version: 1", "config:"] && Document([s])[2..] == StanzaLines(s)
  {
    hide Quote;
    assert AllLines([s]) == StanzaLines(s) by { assert AllLines([s]) == StanzaLines(s) + AllLines([]); }
  }

  /** A text without control characters, quotes and backslashes is quoted as it stands. */
  lemma {:induction false} PlainIsEscapedAsIs(s: string)
    requires forall i :: 0 <= i < |s| ==> ' ' <= s[i] != 127 as char && s[i] != '\\' && s[i] != '\"'
    ensures Escaped(s) == s
  {
    if s != "" {
      PlainIsEscapedAsIs(s[1..]);
      assert [s[0]] + s[1..] == s;
    }
  }

  lemma PlainQuotes(s: string)
    requires forall i :: 0 <= i < |s| ==> ' ' <= s[i] != 127 as char && s[i] != '\\' && s[i] != '\"'
    ensures Quote(s) == "\"" + s + "\""
  {
    PlainIsEscapedAsIs(s);
  }

  lemma PrintedSingle(s: Stanza)
    requires s.gateway == "" && s.dns != []
    ensures Printed([s]) == Unlines(["version: 1", "config:"] + Fixed(s) + [Nameservers]) + Unlines(Entries(s.dns))
  {
    hide Unlines, Fixed, Entries;
    var f, e := ["version: 1", "config:"] + Fixed(s) + [Nameservers], Entries(s.dns);
    assert GatewayLines(s) == [] && DNSLines(s) == [Nameservers] + e;
    assert StanzaLines(s) == Fixed(s) + [Nameservers] + e;
    assert AllLines([s]) == StanzaLines(s) by { assert AllLines([s]) == StanzaLines(s) + AllLines([]); }
    hide StanzaLines, AllLines, GatewayLines, DNSLines;
    assert Document([s]) == f + e;
    UnlinesAppend(f, e);
  }

  /** A nameserver that holds a newline can read as two. */
  lemma NewlineSplitsNameserver(a: Stanza, x: string, y: string)
    requires OneLiners(a) && a.gateway == "" && '\n' !in x && '\n' !in y
    ensures Parse(Printed([a.(dns := [x + "\n" + Entry + y])])) == Some([a.(dns := [x, y])])
  {
    var one, two := a.(dns := [x + "\n" + Entry + y]), a.(dns := [x, y]);
    RoundTrip([two]);
    PrintedSingle(one);
    PrintedSingle(two);
    assert OneLiners(two);
    hide Parse, Printed, Fixed;
    assert Fixed(one) == Fixed(two) by { FixedIgnoresDNS(a, one.dns); FixedIgnoresDNS(a, two.dns); }
    var ex, ey := Entry + x, Entry + y;
    assert Entries(two.dns) == [ex, ey] && Entries(one.dns) == [Entry + (x + "\n" + Entry + y)];
    TwoLines(Entry, x, Entry, y);
  }

  lemma FixedIgnoresDNS(a: Stanza, dns: seq<string>)
    ensures Fixed(a.(dns := dns)) == Fixed(a)
  {
  }

  lemma TwoLines(j: string, x: string, k: string, y: string)
    ensures Unlines([j + x, k + y]) == Unlines([j + (x + "\n" + k + y)])
  {
    assert [j + x, k + y][1..] == [k + y];
    assert Unlines([k + y]) == k + y + "\n";
    assert Unlines([j + x, k + y]) == (j + x) + "\n" + (k + y + "\n");
    assert Unlines([j + (x + "\n" + k + y)]) == j + (x + "\n" + k + y) + "\n";
  }
}

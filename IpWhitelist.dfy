/** The LAN whitelist of the desktop web front end: exact addresses and
    CIDR prefixes (section 3.1 of RFC 4632, section 2.3 of RFC 4291),
    compiled once into (family, masked network, mask) byte rules and
    matched byte by byte. */
module IpWhitelist {
  import opened Common
  import opened ByteMasks

  datatype AddressFamily = InterNetwork | InterNetworkV6

  /** An address as `IPAddress.GetAddressBytes()` and `AddressFamily` see it. */
  datatype IpAddress = IpAddress(family: AddressFamily, bytes: seq<bv8>)

  /** A compiled rule: the network bytes are stored already masked. */
  datatype IpRule = IpRule(family: AddressFamily, network: seq<bv8>, mask: seq<bv8>)
  {
    predicate Valid() { |network| == |mask| }
  }

  /** The compiled whitelist; `HasRules` is `rules != []`. */
  datatype Matcher = Matcher(rules: seq<IpRule>)
  {
    predicate HasRules() { |rules| > 0 }

    /** Every rule is well formed, as every compiled rule is. */
    predicate AllValid() { forall r :: r in rules ==> r.Valid() }

    /** Some rule matches the client. */
    predicate Allows(client: IpAddress)
    {
      exists r :: r in rules && r.Valid() && Matches(r, client)
    }
  }

  // ---------------------------------------------------------------------
  // Bits and masks

  /** The number of prefix bits that fall into byte i: `min(8, prefix - 8i)`, and none when that is not positive. */
  function BitsInByte(prefix: int, i: int): (b: int)
    ensures 0 <= b <= 8
  {
    var bits := if 8 < prefix - i * 8 then 8 else prefix - i * 8;
    if bits <= 0 then 0 else bits
  }

  /** Byte i of the mask of a prefix. */
  function MaskByte(prefix: int, i: int): bv8
  {
    FullMask(BitsInByte(prefix, i))
  }

  function ExactRule(family: AddressFamily, bytes: seq<bv8>): IpRule
  {
    IpRule(family, bytes, seq(|bytes|, _ => 0xFF))
  }

  function CidrRule(family: AddressFamily, bytes: seq<bv8>, prefix: int): IpRule
  {
    IpRule(family, seq(|bytes|, i requires 0 <= i < |bytes| => And(bytes[i], MaskByte(prefix, i))),
           seq(|bytes|, i => MaskByte(prefix, i)))
  }

  /** `IpRule.IsMatch`: same family, same length, and every client byte
      masked equals the stored network byte. */
  predicate Matches(rule: IpRule, address: IpAddress)
    requires rule.Valid()
  {
    && rule.family == address.family
    && |address.bytes| == |rule.network|
    && forall i :: 0 <= i < |address.bytes| ==> And(address.bytes[i], rule.mask[i]) == rule.network[i]
  }

  // ---------------------------------------------------------------------
  // Rule and whitelist parsing, as functions

  /** `TryParseRule`, with `IPAddress.TryParse` given as `parseIp`. */
  function ParseRule(text: string, parseIp: string -> Option<IpAddress>): Option<IpRule>
  {
    var t := Trim(text);
    if IsBlank(t) then None
    else if '/' !in t then
      match parseIp(t)
      case None => None
      case Some(ip) => Some(ExactRule(ip.family, ip.bytes))
    else
      var parts := Split(t, {'/'});
      if |parts| != 2 then None
      else match (parseIp(parts[0]), ParseInt32(parts[1]))
        case (Some(ip), Some(prefix)) =>
          if prefix < 0 || prefix > |ip.bytes| * 8 then None
          else Some(CidrRule(ip.family, ip.bytes, prefix))
        case _ => None
  }

  /** The rules of the entries that parse, in entry order. */
  function ParseRules(items: seq<string>, parseIp: string -> Option<IpAddress>): (rules: seq<IpRule>)
    ensures |rules| <= |items|
  {
    FilterMap(items, RuleParser(parseIp))
  }

  function RuleParser(parseIp: string -> Option<IpAddress>): string -> Option<IpRule>
  {
    text => ParseRule(text, parseIp)
  }

  const Separators: set<char> := {',', '\n', '\r'}

  function WhitelistItems(whitelist: string): seq<string>
  {
    if IsBlank(whitelist) then [] else SplitTrimmed(whitelist, Separators)
  }

  // ---------------------------------------------------------------------
  // The imperative operations

  /** `IpRule.Exact`: an all-ones mask and a copy of the address. */
  method Exact(family: AddressFamily, addressBytes: seq<bv8>) returns (rule: IpRule)
    ensures rule == ExactRule(family, addressBytes)
    ensures rule.Valid() && forall i :: 0 <= i < |rule.mask| ==> rule.mask[i] == 0xFF
  {
    var mask := new bv8[|addressBytes|](_ => 0xFF);
    var networkMasked := new bv8[|addressBytes|](i requires 0 <= i < |addressBytes| => addressBytes[i]);
    assert networkMasked[..] == addressBytes;
    rule := IpRule(family, networkMasked[..], mask[..]);
  }

  /** `IpRule.Cidr`: fills the mask byte by byte, then stores the masked network. */
  method Cidr(family: AddressFamily, networkBytes: seq<bv8>, prefixLength: int) returns (rule: IpRule)
    ensures rule == CidrRule(family, networkBytes, prefixLength) && rule.Valid()
  {
    var maskBytes := new bv8[|networkBytes|];
    for i := 0 to maskBytes.Length
      invariant forall k :: 0 <= k < i ==> maskBytes[k] == MaskByte(prefixLength, k)
    {
      var bitsInByte := if 8 < prefixLength - i * 8 then 8 else prefixLength - i * 8;
      if bitsInByte <= 0 {
        maskBytes[i] := 0;
      } else if bitsInByte >= 8 {
        maskBytes[i] := 0xFF;
      } else {
        maskBytes[i] := 0xFF << (8 - bitsInByte);
        ShiftIsFullMask(bitsInByte);
      }
    }
    assert maskBytes[..] == seq(|networkBytes|, i => MaskByte(prefixLength, i));
    var maskedNetwork := new bv8[|networkBytes|];
    for i := 0 to |networkBytes|
      invariant maskBytes[..] == seq(|networkBytes|, i => MaskByte(prefixLength, i))
      invariant forall k :: 0 <= k < i ==> maskedNetwork[k] == And(networkBytes[k], maskBytes[k])
    {
      maskedNetwork[i] := networkBytes[i] & maskBytes[i];
    }
    rule := IpRule(family, maskedNetwork[..], maskBytes[..]);
  }

  method IsMatch(rule: IpRule, family: AddressFamily, clientBytes: seq<bv8>) returns (matched: bool)
    requires rule.Valid()
    ensures matched <==> Matches(rule, IpAddress(family, clientBytes))
  {
    if rule.family != family || |clientBytes| != |rule.network| {
      return false;
    }
    for i := 0 to |clientBytes|
      invariant forall k :: 0 <= k < i ==> And(clientBytes[k], rule.mask[k]) == rule.network[k]
    {
      if clientBytes[i] & rule.mask[i] != rule.network[i] {
        return false;
      }
    }
    return true;
  }

  method TryParseRule(text: string, parseIp: string -> Option<IpAddress>) returns (rule: Option<IpRule>)
    ensures rule == ParseRule(text, parseIp)
  {
    var t := Trim(text);
    if IsBlank(t) {
      return None;
    }
    if '/' !in t {
      match parseIp(t) {
        case None => return None;
        case Some(ip) =>
          var r := Exact(ip.family, ip.bytes);
          return Some(r);
      }
    }
    var parts := Split(t, {'/'});
    if |parts| != 2 {
      return None;
    }
    var networkAddress := parseIp(parts[0]);
    if networkAddress.None? {
      return None;
    }
    var prefixLength := ParseInt32(parts[1]);
    if prefixLength.None? {
      return None;
    }
    var totalBits := |networkAddress.value.bytes| * 8;
    if prefixLength.value < 0 || prefixLength.value > totalBits {
      return None;
    }
    var r := Cidr(networkAddress.value.family, networkAddress.value.bytes, prefixLength.value);
    return Some(r);
  }

  /** `IpWhitelistMatcher.Parse`: the valid entries, in order; invalid ones are dropped. */
  method Parse(whitelist: string, parseIp: string -> Option<IpAddress>) returns (m: Matcher)
    ensures m.rules == ParseRules(WhitelistItems(whitelist), parseIp) && m.AllValid()
  {
    ParsedRulesAreValid(WhitelistItems(whitelist), parseIp);
    if IsBlank(whitelist) {
      return Matcher([]);
    }
    var items := SplitTrimmed(whitelist, Separators);
    if |items| == 0 {
      return Matcher([]);
    }
    var rules: seq<IpRule> := [];
    ghost var parse := RuleParser(parseIp);
    assert items[0..] == items;
    for i := 0 to |items|
      invariant rules + FilterMap(items[i..], parse) == FilterMap(items, parse)
    {
      var rule := TryParseRule(items[i], parseIp);
      FilterMapStep(rules, items, i, parse, rule);
      if rule.Some? {
        rules := rules + [rule.value];
      } else {
        assert rules + OptionToSeq(rule) == rules;
      }
    }
    assert items[|items|..] == [];
    return Matcher(rules);
  }

  /** `IsAllowed`: true iff some rule matches the client. */
  method IsAllowed(m: Matcher, client: IpAddress) returns (allowed: bool)
    requires m.AllValid()
    ensures allowed <==> m.Allows(client)
  {
    for i := 0 to |m.rules|
      invariant forall k :: 0 <= k < i ==> !Matches(m.rules[k], client)
    {
      var matched := IsMatch(m.rules[i], client.family, client.bytes);
      if matched {
        return true;
      }
    }
    return false;
  }

  // ---------------------------------------------------------------------
  // Properties

  lemma ParsedRulesAreValid(items: seq<string>, parseIp: string -> Option<IpAddress>)
    ensures forall r :: r in ParseRules(items, parseIp) ==> r.Valid()
  {
    FilterMapMembership(items, RuleParser(parseIp));
  }

  /** A blank whitelist compiles to a matcher without rules, which allows nobody. */
  lemma BlankWhitelistHasNoRules(whitelist: string, parseIp: string -> Option<IpAddress>)
    requires IsBlank(whitelist)
    ensures ParseRules(WhitelistItems(whitelist), parseIp) == []
  {
  }

  /** Every kept rule comes from an entry that parses to it, and every
      entry that parses contributes its rule: invalid entries are dropped
      silently and valid ones are all kept. */
  lemma ParseRulesKeepsValidEntries(items: seq<string>, parseIp: string -> Option<IpAddress>)
    ensures forall r :: r in ParseRules(items, parseIp) ==>
              exists i :: 0 <= i < |items| && ParseRule(items[i], parseIp) == Some(r)
    ensures forall i :: 0 <= i < |items| && ParseRule(items[i], parseIp).Some? ==>
              ParseRule(items[i], parseIp).value in ParseRules(items, parseIp)
  {
    FilterMapMembership(items, RuleParser(parseIp));
  }

  /** A CIDR entry whose prefix is beyond the address width, or which has
      more than one '/', is rejected. */
  lemma CidrPrefixOutOfRangeRejected(text: string, parseIp: string -> Option<IpAddress>)
    requires !IsBlank(Trim(text)) && '/' in Trim(text)
    requires var parts := Split(Trim(text), {'/'});
             |parts| == 2 && parseIp(parts[0]).Some? && ParseInt32(parts[1]).Some? &&
             (ParseInt32(parts[1]).value < 0 || ParseInt32(parts[1]).value > 8 * |parseIp(parts[0]).value.bytes|)
    ensures ParseRule(text, parseIp) == None
  {
  }

  lemma ManySlashesRejected(text: string, parseIp: string -> Option<IpAddress>)
    requires !IsBlank(Trim(text)) && '/' in Trim(text) && |Split(Trim(text), {'/'})| != 2
    ensures ParseRule(text, parseIp) == None
  {
  }

  /** An exact rule matches that one address and no other. */
  lemma ExactMatchesOnlyItself(family: AddressFamily, bytes: seq<bv8>, client: IpAddress)
    ensures ExactRule(family, bytes).Valid()
    ensures Matches(ExactRule(family, bytes), client) <==> client == IpAddress(family, bytes)
  {
    var rule := ExactRule(family, bytes);
    if Matches(rule, client) {
      forall i | 0 <= i < |bytes| ensures client.bytes[i] == bytes[i] {
        assert And(client.bytes[i], 0xFF) == client.bytes[i];
      }
      assert client.bytes == bytes;
    }
    if client == IpAddress(family, bytes) {
      forall i | 0 <= i < |bytes| ensures And(bytes[i], rule.mask[i]) == rule.network[i] {
        assert And(bytes[i], 0xFF) == bytes[i];
      }
    }
  }

  /** Bit j of mask byte i is set iff the bit lies inside the prefix. */
  lemma MaskByteBits(prefix: int, i: nat, j: nat)
    requires j < 8
    ensures BitOf(MaskByte(prefix, i), j) <==> i * 8 + j < prefix
  {
    FullMaskBits(BitsInByte(prefix, i), j);
  }

  /** The CIDR rule matches exactly the addresses of the same family and
      width whose first `prefix` bits equal those of the network: the
      meaning of prefix notation in RFC 4632 and RFC 4291. */
  lemma CidrMatchesPrefix(family: AddressFamily, network: seq<bv8>, prefix: int, client: IpAddress)
    requires 0 <= prefix <= 8 * |network|
    ensures CidrRule(family, network, prefix).Valid()
    ensures Matches(CidrRule(family, network, prefix), client) <==>
            && client.family == family && |client.bytes| == |network|
            && forall k :: 0 <= k < prefix ==> (Bit(client.bytes, k) <==> Bit(network, k))
  {
    var rule := CidrRule(family, network, prefix);
    if client.family == family && |client.bytes| == |network| {
      var c := client.bytes;
      // Per byte: masked equality is agreement on that byte's share of the prefix.
      forall i | 0 <= i < |c|
        ensures (And(c[i], rule.mask[i]) == rule.network[i]) <==> AgreeBelow(c[i], network[i], BitsInByte(prefix, i))
      {
        var b := BitsInByte(prefix, i);
        assert rule.mask[i] == FullMask(b);
        MaskIdempotent(network[i], FullMask(b));
        MaskedEqualIffAgree(c[i], network[i], b);
        assert MaskedEqual(c[i], network[i], b) <==> And(c[i], FullMask(b)) == And(network[i], FullMask(b));
      }
      if Matches(rule, client) {
        forall k | 0 <= k < prefix ensures Bit(c, k) <==> Bit(network, k) {
          var i := k / 8;
          assert AgreeBelow(c[i], network[i], BitsInByte(prefix, i));
          assert k % 8 < BitsInByte(prefix, i);
        }
      }
      if forall k :: 0 <= k < prefix ==> (Bit(c, k) <==> Bit(network, k)) {
        forall i | 0 <= i < |c| ensures AgreeBelow(c[i], network[i], BitsInByte(prefix, i)) {
          forall j | 0 <= j < BitsInByte(prefix, i) ensures BitOf(c[i], j) <==> BitOf(network[i], j) {
            var k := i * 8 + j;
            assert k / 8 == i && k % 8 == j;
            assert Bit(c, k) <==> Bit(network, k);
          }
        }
      }
    }
  }

  lemma MaskIdempotent(x: bv8, m: bv8)
    ensures And(And(x, m), m) == And(x, m)
  {
  }

  /** Host bits in the rule text are irrelevant: two networks that agree on
      the prefix compile to the same rule. */
  lemma CidrIgnoresHostBits(family: AddressFamily, n1: seq<bv8>, n2: seq<bv8>, prefix: int)
    requires 0 <= prefix <= 8 * |n1| && |n1| == |n2|
    requires forall k :: 0 <= k < prefix ==> (Bit(n1, k) <==> Bit(n2, k))
    ensures CidrRule(family, n1, prefix) == CidrRule(family, n2, prefix)
  {
    var r1 := CidrRule(family, n1, prefix);
    var r2 := CidrRule(family, n2, prefix);
    forall i | 0 <= i < |n1| ensures r1.network[i] == r2.network[i] {
      var b := BitsInByte(prefix, i);
      assert MaskByte(prefix, i) == FullMask(b);
      forall j | 0 <= j < b ensures BitOf(n1[i], j) <==> BitOf(n2[i], j) {
        var k := i * 8 + j;
        assert k / 8 == i && k % 8 == j;
        assert Bit(n1, k) <==> Bit(n2, k);
      }
      MaskedEqualIffAgree(n1[i], n2[i], b);
      assert MaskedEqual(n1[i], n2[i], b);
    }
    assert r1.network == r2.network;
  }

  /** A matcher without rules allows nobody. */
  lemma NoRulesAllowsNobody(m: Matcher, client: IpAddress)
    requires !m.HasRules()
    ensures !m.Allows(client)
  {
  }

  /** A rule never matches an address of another family or width. */
  lemma NoCrossFamilyMatch(rule: IpRule, client: IpAddress)
    requires rule.Valid()
    requires client.family != rule.family || |client.bytes| != |rule.network|
    ensures !Matches(rule, client)
  {
  }

  /** The network address of a CIDR rule is itself allowed, and `/0`
      admits every address of the family and width. */
  lemma CidrContainsNetwork(family: AddressFamily, network: seq<bv8>, prefix: int)
    requires 0 <= prefix <= 8 * |network|
    ensures CidrRule(family, network, prefix).Valid()
    ensures Matches(CidrRule(family, network, prefix), IpAddress(family, network))
  {
    CidrMatchesPrefix(family, network, prefix, IpAddress(family, network));
  }

  lemma ZeroPrefixMatchesAll(family: AddressFamily, network: seq<bv8>, client: IpAddress)
    requires client.family == family && |client.bytes| == |network|
    ensures CidrRule(family, network, 0).Valid()
    ensures Matches(CidrRule(family, network, 0), client)
  {
    CidrMatchesPrefix(family, network, 0, client);
  }
}

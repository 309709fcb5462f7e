/** The egress guard: one decision before a name is connected to, and one on the peer that was
    reached, both made from parsed addresses, DNS answers and an optional allowlist. */
module Egress {
  import opened Wrappers

  datatype DenialCode =
    | MalformedEndpoint | DnsError | EmptyDnsAnswers | MixedSafeUnsafe | Ipv4MappedIpv6
    | Loopback | LinkLocal | Multicast | Unspecified | Reserved | Private | CloudMetadata
    | NotInAllowlist

  /** A parsed address: its canonical text and the properties the address library reports. */
  datatype Address = Address(
    text: string, ipv4Mapped: bool, loopback: bool, linkLocal: bool, multicast: bool,
    unspecified: bool, reserved: bool, isPrivate: bool)

  /** What the outside world supplies: the parser of address literals and membership in the
      configured networks. */
  datatype Policy = Policy(parse: string -> Option<Address>, allowlist: seq<Address -> bool>)

  datatype Resolution = Answers(addresses: seq<string>) | Failed

  datatype Decision = Allowed(selected: string) | Denied(code: DenialCode)

  datatype Classified = Classified(literal: string, address: Option<Address>, denial: Option<DenialCode>)

  const METADATA_ADDRESS := "169.254.169.254"

  /** The first category, in order of precedence, that makes an address unsafe. */
  function Unsafe(a: Address): Option<DenialCode> {
    if a.ipv4Mapped then Some(Ipv4MappedIpv6)
    else if a.text == METADATA_ADDRESS then Some(CloudMetadata)
    else if a.loopback then Some(Loopback)
    else if a.linkLocal then Some(LinkLocal)
    else if a.multicast then Some(Multicast)
    else if a.unspecified then Some(Unspecified)
    else if a.reserved then Some(Reserved)
    else if a.isPrivate then Some(Private)
    else None
  }

  function Classify(policy: Policy, literal: string): Classified {
    match policy.parse(literal)
    case None => Classified(literal, None, Some(MalformedEndpoint))
    case Some(a) => Classified(literal, Some(a), Unsafe(a))
  }

  predicate InAllowlist(policy: Policy, a: Address) {
    exists k :: 0 <= k < |policy.allowlist| && policy.allowlist[k](a)
  }

  /** The rule both decisions come down to for one address: an allowlist decides alone when there
      is one, and otherwise the address has to be safe. */
  predicate Acceptable(policy: Policy, a: Address) {
    if policy.allowlist != [] then InAllowlist(policy, a) else Unsafe(a) == None
  }

  // ------------------------------------------------------------ verdicts

  predicate Parses(policy: Policy, literal: string) {
    policy.parse(literal).Some?
  }

  predicate Safe(policy: Policy, literal: string) {
    Parses(policy, literal) && Unsafe(policy.parse(literal).value).None?
  }

  predicate Listed(policy: Policy, literal: string) {
    Parses(policy, literal) && InAllowlist(policy, policy.parse(literal).value)
  }

  /** A single address: the allowlist overrides the categories, and a refusal names the category
      before it names the list. */
  function Direct(policy: Policy, literal: string, a: Address): Decision {
    if Acceptable(policy, a) then Allowed(literal)
    else if Unsafe(a).Some? then Denied(Unsafe(a).value)
    else Denied(NotInAllowlist)
  }

  /** What is wrong with the answers as a whole. One bad answer spoils all of them. */
  function AnswersProblem(policy: Policy, answers: seq<string>): Option<DenialCode> {
    if exists k :: 0 <= k < |answers| && !Parses(policy, answers[k]) then Some(MalformedEndpoint)
    else if (exists k :: 0 <= k < |answers| && Safe(policy, answers[k]))
         && (exists k :: 0 <= k < |answers| && !Safe(policy, answers[k])) then Some(MixedSafeUnsafe)
    else if policy.allowlist != [] && exists k :: 0 <= k < |answers| && !Listed(policy, answers[k]) then
      Some(NotInAllowlist)
    else None
  }

  function ResolutionProblem(policy: Policy, resolution: Resolution): Option<DenialCode> {
    if resolution.Failed? then Some(DnsError)
    else if resolution.addresses == [] then Some(EmptyDnsAnswers)
    else AnswersProblem(policy, resolution.addresses)
  }

  /** The verdict on an endpoint; `host` is the parsed host, if the endpoint parses. */
  function EndpointVerdict(policy: Policy, host: Option<string>, resolution: Resolution): Decision {
    if host.None? then Denied(MalformedEndpoint)
    else if Parses(policy, host.value) then Direct(policy, host.value, policy.parse(host.value).value)
    else
      var problem := ResolutionProblem(policy, resolution);
      if problem.Some? then Denied(problem.value)
      else
        var first := policy.parse(resolution.addresses[0]).value;
        if policy.allowlist == [] && Unsafe(first).Some? then Denied(Unsafe(first).value)
        else Allowed(first.text)
  }

  /** The verdict on the peer that was reached through an endpoint. */
  function PeerVerdict(policy: Policy, host: Option<string>, peer: string, resolution: Resolution): Decision {
    if host.None? then Denied(MalformedEndpoint)
    else if host.value == peer then
      if Parses(policy, peer) then Direct(policy, peer, policy.parse(peer).value) else Denied(MalformedEndpoint)
    else
      var problem := ResolutionProblem(policy, resolution);
      if problem.Some? then Denied(problem.value)
      else if peer !in resolution.addresses then Denied(DnsError)
      else Direct(policy, peer, policy.parse(peer).value)
  }

  // ------------------------------------------------------------ what safe means

  /** The categories, in the order in which a refusal names them, and whether an address is in each. */
  const CATEGORIES: seq<DenialCode> :=
    [Ipv4MappedIpv6, CloudMetadata, Loopback, LinkLocal, Multicast, Unspecified, Reserved, Private]

  function Flags(a: Address): (flags: seq<bool>)
    ensures |flags| == |CATEGORIES|
  {
    [a.ipv4Mapped, a.text == "169.254.169.254", a.loopback, a.linkLocal, a.multicast, a.unspecified, a.reserved,
     a.isPrivate]
  }

  predicate Public(a: Address) {
    && !a.ipv4Mapped && a.text != "169.254.169.254" && !a.loopback && !a.linkLocal
    && !a.multicast && !a.unspecified && !a.reserved && !a.isPrivate
  }

  /** `k` is the first category the address is in. */
  predicate FirstFlag(a: Address, k: nat) {
    k < |CATEGORIES| && Flags(a)[k] && forall j | 0 <= j < k :: !Flags(a)[j]
  }

  /** Some network on the list contains the address. */
  ghost predicate OnList(policy: Policy, a: Address) {
    exists network :: network in policy.allowlist && network(a)
  }

  lemma ListsAgree(policy: Policy, a: Address)
    ensures OnList(policy, a) <==> InAllowlist(policy, a)
  {
    if OnList(policy, a) {
      var network :| network in policy.allowlist && network(a);
      var k :| 0 <= k < |policy.allowlist| && policy.allowlist[k] == network;
      assert policy.allowlist[k](a);
    }
  }

  lemma FlagsInOrder(a: Address)
    ensures var f := Flags(a);
            && f[0] == a.ipv4Mapped && f[1] == (a.text == "169.254.169.254") && f[2] == a.loopback
            && f[3] == a.linkLocal && f[4] == a.multicast && f[5] == a.unspecified && f[6] == a.reserved
            && f[7] == a.isPrivate
  {
  }

  lemma UnsafeNamesFirstFlag(a: Address, k: nat)
    requires FirstFlag(a, k)
    ensures Unsafe(a) == Some(CATEGORIES[k])
  {
    FlagsInOrder(a);
  }

  lemma SomeFlag(a: Address) returns (k: nat)
    ensures Public(a) ==> Unsafe(a).None?
    ensures !Public(a) ==> FirstFlag(a, k)
  {
    FlagsInOrder(a);
    k := if a.ipv4Mapped then 0 else if a.text == "169.254.169.254" then 1 else if a.loopback then 2
         else if a.linkLocal then 3 else if a.multicast then 4 else if a.unspecified then 5
         else if a.reserved then 6 else 7;
  }

  lemma UnsafeIffNotPublic(a: Address)
    ensures Unsafe(a).None? <==> Public(a)
  {
    var k := SomeFlag(a);
    if !Public(a) {
      UnsafeNamesFirstFlag(a, k);
    }
  }

  // ------------------------------------------------------------ the decisions in these terms

  function AddressesOf(resolution: Resolution): seq<string> {
    if resolution.Answers? then resolution.addresses else []
  }

  /** With an allowlist an address has to be on it, without one it has to be public. */
  ghost predicate Passes(policy: Policy, a: Address) {
    if policy.allowlist != [] then OnList(policy, a) else Public(a)
  }

  lemma PassesIffAcceptable(policy: Policy, a: Address)
    ensures Passes(policy, a) <==> Acceptable(policy, a)
  {
    ListsAgree(policy, a);
    UnsafeIffNotPublic(a);
  }

  /** What becomes of a single address: it passes, as `selected`, or it is refused; the refusal names
      the first category the address is in, and the list only when it is in none. */
  ghost predicate Judged(policy: Policy, a: Address, selected: string, d: Decision) {
    && (Passes(policy, a) ==> d == Allowed(selected))
    && (!Passes(policy, a) && Public(a) ==> d == Denied(NotInAllowlist))
    && (!Passes(policy, a) ==> forall k: nat | FirstFlag(a, k) :: d == Denied(CATEGORIES[k]))
  }

  lemma DirectIsJudged(policy: Policy, literal: string, a: Address)
    ensures Judged(policy, a, literal, Direct(policy, literal, a))
  {
    PassesIffAcceptable(policy, a);
    UnsafeIffNotPublic(a);
    forall k: nat | FirstFlag(a, k) ensures Unsafe(a) == Some(CATEGORIES[k]) {
      UnsafeNamesFirstFlag(a, k);
    }
  }

  /** An address that is not public has a first category. */
  lemma NotPublicIffFlagged(a: Address)
    ensures !Public(a) <==> exists k: nat :: FirstFlag(a, k)
  {
    var k := SomeFlag(a);
    FlagsInOrder(a);
  }

  /** What may be wrong with the answers for a name, in the order in which a refusal names it. */
  const TROUBLES: seq<DenialCode> := [DnsError, EmptyDnsAnswers, MalformedEndpoint, MixedSafeUnsafe, NotInAllowlist]

  ghost predicate SomeUnparsed(policy: Policy, answers: seq<string>) {
    exists s :: s in answers && policy.parse(s).None?
  }

  ghost predicate SomePublic(policy: Policy, answers: seq<string>, public: bool) {
    exists s :: s in answers && (policy.parse(s).Some? && Public(policy.parse(s).value)) == public
  }

  ghost predicate SomeUnlisted(policy: Policy, answers: seq<string>) {
    exists s :: s in answers && !(policy.parse(s).Some? && OnList(policy, policy.parse(s).value))
  }

  ghost function Trouble(policy: Policy, resolution: Resolution): (found: seq<bool>)
    ensures |found| == |TROUBLES|
  {
    var answers := AddressesOf(resolution);
    [resolution.Failed?, answers == [], SomeUnparsed(policy, answers),
     SomePublic(policy, answers, true) && SomePublic(policy, answers, false),
     policy.allowlist != [] && SomeUnlisted(policy, answers)]
  }

  ghost predicate FirstTrouble(policy: Policy, resolution: Resolution, k: nat) {
    k < |TROUBLES| && Trouble(policy, resolution)[k] && forall j | 0 <= j < k :: !Trouble(policy, resolution)[j]
  }

  lemma SafeIffPublic(policy: Policy, literal: string)
    ensures Safe(policy, literal) <==> policy.parse(literal).Some? && Public(policy.parse(literal).value)
    ensures Listed(policy, literal) <==> policy.parse(literal).Some? && OnList(policy, policy.parse(literal).value)
  {
    if policy.parse(literal).Some? {
      UnsafeIffNotPublic(policy.parse(literal).value);
      ListsAgree(policy, policy.parse(literal).value);
    }
  }

  lemma AnswersInTheseTerms(policy: Policy, answers: seq<string>)
    ensures SomeUnparsed(policy, answers) <==> exists k :: 0 <= k < |answers| && !Parses(policy, answers[k])
    ensures SomePublic(policy, answers, true) <==> exists k :: 0 <= k < |answers| && Safe(policy, answers[k])
    ensures SomePublic(policy, answers, false) <==> exists k :: 0 <= k < |answers| && !Safe(policy, answers[k])
    ensures SomeUnlisted(policy, answers) <==> exists k :: 0 <= k < |answers| && !Listed(policy, answers[k])
  {
    forall s { SafeIffPublic(policy, s); }
  }

  lemma TroubleDecides(policy: Policy, resolution: Resolution)
    ensures ResolutionProblem(policy, resolution).None? <==> forall k: nat :: !FirstTrouble(policy, resolution, k)
    ensures forall k: nat | FirstTrouble(policy, resolution, k) ::
              ResolutionProblem(policy, resolution) == Some(TROUBLES[k])
  {
    AnswersInTheseTerms(policy, AddressesOf(resolution));
    var t := Trouble(policy, resolution);
    assert t[0] ==> FirstTrouble(policy, resolution, 0);
    assert t[1] && !t[0] ==> FirstTrouble(policy, resolution, 1);
    assert t[2] && !t[1] && !t[0] ==> FirstTrouble(policy, resolution, 2);
    assert t[3] && !t[2] && !t[1] && !t[0] ==> FirstTrouble(policy, resolution, 3);
    assert t[4] && !t[3] && !t[2] && !t[1] && !t[0] ==> FirstTrouble(policy, resolution, 4);
  }

  // ------------------------------------------------------------ theorems

  ghost predicate NoTrouble(policy: Policy, resolution: Resolution) {
    forall k: nat :: !FirstTrouble(policy, resolution, k)
  }

  /** The endpoint decision for every host: a literal is judged by itself; a name is refused for the
      first trouble with its answers, and otherwise its first answer is judged, under its canonical
      text. */
  lemma EndpointDecided(policy: Policy, host: Option<string>, resolution: Resolution)
    ensures var d := EndpointVerdict(policy, host, resolution);
            if host.None? then d == Denied(MalformedEndpoint)
            else if policy.parse(host.value).Some? then Judged(policy, policy.parse(host.value).value, host.value, d)
            else
              && (forall k: nat | FirstTrouble(policy, resolution, k) :: d == Denied(TROUBLES[k]))
              && (NoTrouble(policy, resolution) ==>
                    && resolution.Answers? && resolution.addresses != []
                    && policy.parse(resolution.addresses[0]).Some?
                    && var a := policy.parse(resolution.addresses[0]).value; Judged(policy, a, a.text, d))
  {
    if host.Some? {
      if Parses(policy, host.value) {
        DirectIsJudged(policy, host.value, policy.parse(host.value).value);
      } else {
        TroubleDecides(policy, resolution);
        if NoTrouble(policy, resolution) {
          FirstAnswerJudged(policy, resolution);
        }
      }
    }
  }

  lemma FirstAnswerJudged(policy: Policy, resolution: Resolution)
    requires ResolutionProblem(policy, resolution).None?
    ensures policy.parse(resolution.addresses[0]).Some?
    ensures var a := policy.parse(resolution.addresses[0]).value;
            Judged(policy, a, a.text, if policy.allowlist == [] && Unsafe(a).Some? then Denied(Unsafe(a).value)
                                      else Allowed(a.text))
  {
    assert Parses(policy, resolution.addresses[0]);
    var a := policy.parse(resolution.addresses[0]).value;
    DirectIsJudged(policy, a.text, a);
    assert policy.allowlist != [] ==> Listed(policy, resolution.addresses[0]);
  }

  /** The peer decision: the host's own literal is judged by itself; any other peer has to be one of
      the answers for the host, free of trouble, and is then judged. */
  lemma PeerDecided(policy: Policy, host: Option<string>, peer: string, resolution: Resolution)
    ensures var d := PeerVerdict(policy, host, peer, resolution);
            if host.None? then d == Denied(MalformedEndpoint)
            else if host.value == peer then
              if policy.parse(peer).None? then d == Denied(MalformedEndpoint)
              else Judged(policy, policy.parse(peer).value, peer, d)
            else
              && (forall k: nat | FirstTrouble(policy, resolution, k) :: d == Denied(TROUBLES[k]))
              && (NoTrouble(policy, resolution) ==>
                    if peer !in AddressesOf(resolution) then d == Denied(DnsError)
                    else policy.parse(peer).Some? && Judged(policy, policy.parse(peer).value, peer, d))
  {
    if Parses(policy, peer) {
      DirectIsJudged(policy, peer, policy.parse(peer).value);
    }
    TroubleDecides(policy, resolution);
    if NoTrouble(policy, resolution) && peer in AddressesOf(resolution) {
      var k :| 0 <= k < |resolution.addresses| && resolution.addresses[k] == peer;
      assert Parses(policy, resolution.addresses[k]);
    }
  }

  /** Without an allowlist nothing but a public address is ever let through, as an endpoint, as an
      answer for a name, or as a peer; and a public literal is. */
  lemma UnlistedMeansPublic(policy: Policy, host: string, peer: string, resolution: Resolution)
    requires policy.allowlist == []
    ensures policy.parse(host).Some? ==>
              (EndpointVerdict(policy, Some(host), resolution).Allowed? <==> Public(policy.parse(host).value))
    ensures policy.parse(host).None? && EndpointVerdict(policy, Some(host), resolution).Allowed? ==>
              forall s | s in AddressesOf(resolution) :: policy.parse(s).Some? && Public(policy.parse(s).value)
    ensures PeerVerdict(policy, Some(host), peer, resolution).Allowed? ==>
              policy.parse(peer).Some? && Public(policy.parse(peer).value)
  {
    EndpointDecided(policy, Some(host), resolution);
    PeerDecided(policy, Some(host), peer, resolution);
    forall a: Address { NotPublicIffFlagged(a); }
    if policy.parse(host).None? && EndpointVerdict(policy, Some(host), resolution).Allowed? {
      AllAnswersPublic(policy, resolution);
    }
  }

  lemma AllAnswersPublic(policy: Policy, resolution: Resolution)
    requires ResolutionProblem(policy, resolution).None? && resolution.addresses != []
    requires Safe(policy, resolution.addresses[0])
    ensures forall s | s in AddressesOf(resolution) :: policy.parse(s).Some? && Public(policy.parse(s).value)
  {
    forall s | s in AddressesOf(resolution) ensures policy.parse(s).Some? && Public(policy.parse(s).value) {
      var k :| 0 <= k < |resolution.addresses| && resolution.addresses[k] == s;
      assert Safe(policy, resolution.addresses[k]);
      SafeIffPublic(policy, s);
    }
  }

  /** A name is let through exactly when it resolves, every answer is acceptable by itself, and
      safe and unsafe answers are not mixed; the address used is then the first answer. */
  lemma NameAcceptedIff(policy: Policy, host: string, resolution: Resolution)
    requires !Parses(policy, host)
    ensures var d := EndpointVerdict(policy, Some(host), resolution);
            && (d.Allowed? <==>
                  && resolution.Answers? && resolution.addresses != []
                  && (forall k | 0 <= k < |resolution.addresses| ::
                        && Parses(policy, resolution.addresses[k])
                        && Acceptable(policy, policy.parse(resolution.addresses[k]).value))
                  && (forall j, k | 0 <= j < |resolution.addresses| && 0 <= k < |resolution.addresses| ::
                        Safe(policy, resolution.addresses[j]) == Safe(policy, resolution.addresses[k])))
            && (d.Allowed? ==> d.selected == policy.parse(resolution.addresses[0]).value.text)
  {
  }

  /** For a name, on the same answers, the two decisions agree: a peer is accepted exactly when the
      endpoint is and the peer is one of the answers. */
  lemma PeerAgreesWithEndpoint(policy: Policy, host: string, peer: string, resolution: Resolution)
    requires !Parses(policy, host)
    ensures PeerVerdict(policy, Some(host), peer, resolution).Allowed?
       <==> EndpointVerdict(policy, Some(host), resolution).Allowed? && peer in resolution.addresses
  {
    NameAcceptedIff(policy, host, resolution);
    if ResolutionProblem(policy, resolution).None? && peer in resolution.addresses {
      var k :| 0 <= k < |resolution.addresses| && resolution.addresses[k] == peer;
      assert Safe(policy, resolution.addresses[k]) == Safe(policy, resolution.addresses[0]);
    }
  }

  /** For a literal host reached at that very literal the two decisions are the same one. */
  lemma LiteralPeerIsTheEndpoint(policy: Policy, host: string, resolution: Resolution)
    requires Parses(policy, host)
    ensures PeerVerdict(policy, Some(host), host, resolution) == EndpointVerdict(policy, Some(host), resolution)
  {
  }

  /** The peer is accepted exactly when the endpoint is and the peer is one of the answers. */
  predicate DecisionsAgree(policy: Policy, host: string, peer: string, resolution: Resolution) {
    PeerVerdict(policy, Some(host), peer, resolution).Allowed?
    == (EndpointVerdict(policy, Some(host), resolution).Allowed? && peer in AddressesOf(resolution))
  }

  /** At any other peer a literal host is not consulted again, only the answers are. So the decisions
      agree exactly when the peer is no answer, or when the answers with the peer pass just if the
      literal does. */
  lemma LiteralHostAgreesIff(policy: Policy, host: string, peer: string, resolution: Resolution)
    requires Parses(policy, host) && peer != host
    ensures DecisionsAgree(policy, host, peer, resolution) <==>
              (peer in AddressesOf(resolution) ==>
                 (&& ResolutionProblem(policy, resolution).None?
                  && Parses(policy, peer) && Acceptable(policy, policy.parse(peer).value))
                 == Acceptable(policy, policy.parse(host).value))
  {
    if ResolutionProblem(policy, resolution).None? && peer in AddressesOf(resolution) {
      var k :| 0 <= k < |resolution.addresses| && resolution.addresses[k] == peer;
      assert Parses(policy, resolution.addresses[k]);
    }
  }

  /** They do differ when a resolver answers a literal with something else: the endpoint is refused
      and the peer accepted. */
  lemma LiteralHostMayDisagree()
    ensures exists policy: Policy, host: string, peer: string, resolution: Resolution ::
              && EndpointVerdict(policy, Some(host), resolution).Denied?
              && PeerVerdict(policy, Some(host), peer, resolution).Allowed?
              && peer in resolution.addresses
  {
    var public := Address("8.8.8.8", false, false, false, false, false, false, false);
    var internal := public.(text := "10.0.0.1", isPrivate := true);
    var parse := (s: string) =>
      if s == "8.8.8.8" then Some(public) else if s == "10.0.0.1" then Some(internal) else None;
    var policy := Policy(parse, []);
    var resolution := Answers(["8.8.8.8"]);
    assert EndpointVerdict(policy, Some("10.0.0.1"), resolution) == Denied(Private);
    assert PeerVerdict(policy, Some("10.0.0.1"), "8.8.8.8", resolution) == Allowed("8.8.8.8");
  }

  /** The address an accepted name is connected to passes the peer check, on unchanged answers,
      exactly when the resolver spelled it canonically: the check compares texts. */
  lemma SelectedAddressPassesIffCanonical(policy: Policy, host: string, resolution: Resolution)
    requires !Parses(policy, host) && EndpointVerdict(policy, Some(host), resolution).Allowed?
    ensures var selected := EndpointVerdict(policy, Some(host), resolution).selected;
            PeerVerdict(policy, Some(host), selected, resolution).Allowed? <==> selected in resolution.addresses
  {
    PeerAgreesWithEndpoint(policy, host, EndpointVerdict(policy, Some(host), resolution).selected, resolution);
  }

  /** It may not: a public address answered in upper case is accepted, connected to, and then refused
      under its canonical text. */
  lemma SelectedAddressMayFail()
    ensures exists policy: Policy, host: string, resolution: Resolution ::
              var d := EndpointVerdict(policy, Some(host), resolution);
              !Parses(policy, host) && d.Allowed? && PeerVerdict(policy, Some(host), d.selected, resolution).Denied?
  {
    var public := Address("2001:db9::1", false, false, false, false, false, false, false);
    var policy := Policy(s => if s == "2001:DB9::1" || s == "2001:db9::1" then Some(public) else None, []);
    var resolution := Answers(["2001:DB9::1"]);
    assert !Parses(policy, "db");
    assert EndpointVerdict(policy, Some("db"), resolution) == Allowed("2001:db9::1");
    assert PeerVerdict(policy, Some("db"), "2001:db9::1", resolution) == Denied(DnsError);
  }

  /** Whatever the answers were at either moment, an accepted peer is acceptable by itself; without
      an allowlist it is in no unsafe category. This is what defeats a name that changes its answer
      between the two checks. */
  lemma AcceptedPeerIsAcceptable(policy: Policy, host: Option<string>, peer: string, resolution: Resolution)
    requires PeerVerdict(policy, host, peer, resolution).Allowed?
    ensures PeerVerdict(policy, host, peer, resolution) == Allowed(peer)
    ensures Parses(policy, peer) && Acceptable(policy, policy.parse(peer).value)
    ensures policy.allowlist == [] ==> Safe(policy, peer)
  {
    if host.value != peer {
      var k :| 0 <= k < |resolution.addresses| && resolution.addresses[k] == peer;
      assert Parses(policy, resolution.addresses[k]);
    }
  }

  // ------------------------------------------------------------ the guard

  function Denials(classified: seq<Classified>): (codes: seq<DenialCode>)
    ensures codes == [] <==> forall k | 0 <= k < |classified| :: classified[k].denial.None?
    ensures classified != [] && classified[0].denial.Some? ==> codes != [] && codes[0] == classified[0].denial.value
  {
    if classified == [] then []
    else (if classified[0].denial.Some? then [classified[0].denial.value] else []) + Denials(classified[1..])
  }

  function Safes(classified: seq<Classified>): (safes: seq<Option<Address>>)
    ensures safes == [] <==> forall k | 0 <= k < |classified| :: classified[k].denial.Some?
  {
    if classified == [] then []
    else (if classified[0].denial.None? then [classified[0].address] else []) + Safes(classified[1..])
  }

  function Malformed(classified: seq<Classified>): (literals: seq<string>)
    ensures literals == [] <==> forall k | 0 <= k < |classified| :: classified[k].address.Some?
  {
    if classified == [] then []
    else (if classified[0].address.None? then [classified[0].literal] else []) + Malformed(classified[1..])
  }

  predicate OfAnswers(policy: Policy, answers: seq<string>, classified: seq<Classified>) {
    |classified| == |answers| && forall k | 0 <= k < |answers| :: classified[k] == Classify(policy, answers[k])
  }

  class EgressValidator {
    const policy: Policy

    constructor (policy: Policy)
      ensures this.policy == policy
    {
      this.policy := policy;
    }

    method ClassifyAll(answers: seq<string>) returns (classified: seq<Classified>)
      ensures OfAnswers(policy, answers, classified)
    {
      classified := [];
      for i := 0 to |answers|
        invariant OfAnswers(policy, answers[..i], classified)
      {
        classified := classified + [Classify(policy, answers[i])];
      }
    }

    /** `all(address allowed ...)` over the answers. */
    method AllAllowed(classified: seq<Classified>) returns (all: bool)
      ensures all <==> forall k | 0 <= k < |classified| && classified[k].address.Some? ::
                         InAllowlist(policy, classified[k].address.value)
    {
      for i := 0 to |classified|
        invariant forall k | 0 <= k < i && classified[k].address.Some? ::
                    InAllowlist(policy, classified[k].address.value)
      {
        if classified[i].address.Some? && !InAllowlist(policy, classified[i].address.value) {
          return false;
        }
      }
      return true;
    }

    /** The checks on the answers as a whole that both decisions make. */
    method CheckAnswers(answers: seq<string>, classified: seq<Classified>) returns (problem: Option<DenialCode>)
      requires OfAnswers(policy, answers, classified)
      ensures problem == AnswersProblem(policy, answers)
    {
      if Malformed(classified) != [] {
        return Some(MalformedEndpoint);
      }
      var denials, safes := Denials(classified), Safes(classified);
      if denials != [] && safes != [] {
        return Some(MixedSafeUnsafe);
      }
      if policy.allowlist != [] {
        var all := AllAllowed(classified);
        if !all {
          return Some(NotInAllowlist);
        }
      }
      return None;
    }

    method ValidateEndpoint(host: Option<string>, resolution: Resolution) returns (d: Decision)
      ensures d == EndpointVerdict(policy, host, resolution)
    {
      if host.None? {
        return Denied(MalformedEndpoint);
      }
      var direct := Classify(policy, host.value);
      if direct.address.Some? {
        d := DecideOne(host.value, direct.address.value, direct.denial);
        return;
      }
      if resolution.Failed? {
        return Denied(DnsError);
      }
      if resolution.addresses == [] {
        return Denied(EmptyDnsAnswers);
      }
      var classified := ClassifyAll(resolution.addresses);
      var problem := CheckAnswers(resolution.addresses, classified);
      if problem.Some? {
        return Denied(problem.value);
      }
      var denials := Denials(classified);
      if denials != [] && policy.allowlist == [] {
        return Denied(denials[0]);
      }
      return Allowed(classified[0].address.value.text);
    }

    method ValidatePeer(host: Option<string>, peer: string, resolution: Resolution) returns (d: Decision)
      ensures d == PeerVerdict(policy, host, peer, resolution)
    {
      if host.None? {
        return Denied(MalformedEndpoint);
      }
      if host.value == peer {
        var direct := Classify(policy, peer);
        if direct.address.None? {
          return Denied(MalformedEndpoint);
        }
        d := DecideOne(peer, direct.address.value, direct.denial);
        return;
      }
      if resolution.Failed? {
        return Denied(DnsError);
      }
      if resolution.addresses == [] {
        return Denied(EmptyDnsAnswers);
      }
      var classified := ClassifyAll(resolution.addresses);
      var problem := CheckAnswers(resolution.addresses, classified);
      if problem.Some? {
        return Denied(problem.value);
      }
      if peer !in resolution.addresses {
        return Denied(DnsError);
      }
      var i := 0;
      while classified[i].literal != peer
        invariant 0 <= i < |classified|
        invariant peer in resolution.addresses[i..]
        decreases |classified| - i
      {
        i := i + 1;
      }
      d := DecideOne(peer, classified[i].address.value, classified[i].denial);
    }

    /** The decision on one classified address. */
    method DecideOne(literal: string, a: Address, denial: Option<DenialCode>) returns (d: Decision)
      requires denial == Unsafe(a)
      ensures d == Direct(policy, literal, a)
    {
      if policy.allowlist != [] {
        if !InAllowlist(policy, a) {
          if denial.Some? {
            return Denied(denial.value);
          }
          return Denied(NotInAllowlist);
        }
        return Allowed(literal);
      }
      if denial.Some? {
        return Denied(denial.value);
      }
      return Allowed(literal);
    }
  }
}

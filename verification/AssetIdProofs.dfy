/** The canonical form decodes uniquely, is a fixed point, and covers exactly the well-formed assets. */
module AssetIdProofs {
  import opened Options
  import opened Strings
  import opened AssetId

  /** Lower-case letters and digits: nothing a separator or a change of case could touch. */
  predicate Word(s: string) {
    forall i :: 0 <= i < |s| ==> IsLower(s[i]) || IsDigit(s[i])
  }

  lemma WordIsPlain(s: string)
    requires Word(s)
    ensures ':' !in s && '/' !in s && Lower(s) == s
  {
  }

  lemma ChainIsWords(c: Chain)
    requires IsChain(c)
    ensures Word(c.ns) && Word(c.reference) && c.ns in NAMESPACES && c.ns != "" && c.reference != ""
  {
  }

  lemma ChainRoundTrip(c: Chain)
    requires IsChain(c)
    ensures ParseChain(IdOf(c)) == Ok(c) && '/' !in IdOf(c)
  {
    ChainIsWords(c);
    WordIsPlain(c.ns);
    WordIsPlain(c.reference);
    FirstOf(c.ns, ':', c.reference);
    var id := IdOf(c);
    assert id[..|c.ns|] == c.ns && id[|c.ns| + 1..] == c.reference;
  }

  lemma ParsedIsChain(text: string)
    requires ParseChain(text).Ok?
    ensures IsChain(ParseChain(text).value)
  {
  }

  // ---------------------------------------------------------------- unique decoding

  lemma ReferencesAgree(a: Asset, b: Asset)
    requires IsAsset(a) && IsAsset(b) && a.chain == b.chain && Suffix(a) == Suffix(b)
    ensures a == b
  {
    KindIsWord(a);
    KindIsWord(b);
    CutIsUnique(AssetNs(a), Reference(a), AssetNs(b), Reference(b), ':');
    KindDecides(a, b);
    if a.Issued? {
      CodeHasNoColon(a.code);
      CodeHasNoColon(b.code);
      CutIsUnique(a.code, a.issuer, b.code, b.issuer, ':');
    }
  }

  lemma KindIsWord(a: Asset)
    ensures ':' !in AssetNs(a) && '/' !in AssetNs(a)
  {
    assert Word(AssetNs(a));
    WordIsPlain(AssetNs(a));
  }

  lemma KindDecides(a: Asset, b: Asset)
    requires AssetNs(a) == AssetNs(b)
    ensures a.Native? == b.Native? && a.Issued? == b.Issued? && a.Erc20? == b.Erc20? && a.Token? == b.Token?
  {
    assert "slip44"[1] == 'l' && "stellar"[1] == 't' && "erc20"[0] == 'e' && "token"[1] == 'o' && "trc20"[1] == 'r';
    assert "slip44"[0] == 's' && "stellar"[0] == 's' && "token"[0] == 't' && "trc20"[0] == 't';
  }

  lemma CodeHasNoColon(code: string)
    requires ValidCode(code)
    ensures ':' !in code
  {
  }

  /** Chain, kind and reference can be read back from a canonical identifier in one way only. */
  lemma RenderIsInjective(a: Asset, b: Asset)
    requires IsAsset(a) && IsAsset(b) && Render(a) == Render(b)
    ensures a == b
  {
    ChainRoundTrip(a.chain);
    ChainRoundTrip(b.chain);
    CutIsUnique(IdOf(a.chain), Suffix(a), IdOf(b.chain), Suffix(b), '/');
    ReferencesAgree(a, b);
  }

  // ---------------------------------------------------------------- accepted inputs denote assets

  lemma UpperCode(code: string)
    requires ValidCode(code)
    ensures ValidCode(Upper(code)) && Upper(Upper(code)) == Upper(code)
  {
  }

  lemma CreditDenotes(c: Chain, code: string, issuer: string)
    requires IsChain(c) && c.ns == "stellar" && Credit(code, issuer).Ok?
    ensures IsAsset(Issued(c, Upper(code), issuer))
    ensures Credit(code, issuer).value == Suffix(Issued(c, Upper(code), issuer))
  {
    UpperCode(code);
  }

  lemma PartDenotes(number: NumberOf, c: Chain, assetNs: string, reference: string) returns (a: Asset)
    requires IsChain(c) && AssetOf(number, c.ns, assetNs, reference).Ok?
    ensures IsAsset(a) && a.chain == c && AssetOf(number, c.ns, assetNs, reference).value == Suffix(a)
  {
    if assetNs == "slip44" {
      a := Native(c);
    } else if assetNs == "stellar" {
      var colon := IndexOf(reference, ':');
      var code, issuer := reference[..colon], reference[colon + 1..];
      CreditDenotes(c, code, issuer);
      a := Issued(c, Upper(code), issuer);
    } else if assetNs == "erc20" {
      a := Erc20(c, Lower(reference));
    } else if assetNs == "token" {
      a := Token(c, reference);
    } else {
      a := Trc20(c, reference);
    }
  }

  lemma ScopedDenotes(number: NumberOf, text: string) returns (a: Asset)
    requires Scoped(number, text).Ok?
    ensures IsAsset(a) && Scoped(number, text).value == Render(a)
  {
    var slash := IndexOf(text, '/');
    ParsedIsChain(text[..slash]);
    a := AssetPartDenotes(number, ParseChain(text[..slash]).value, text[slash + 1..]);
  }

  lemma AssetPartDenotes(number: NumberOf, c: Chain, part: string) returns (a: Asset)
    requires IsChain(c) && AssetPart(number, c.ns, part).Ok?
    ensures IsAsset(a) && a.chain == c && AssetPart(number, c.ns, part).value == Suffix(a)
  {
    var colon := IndexOf(part, ':');
    a := PartDenotes(number, c, part[..colon], part[colon + 1..]);
  }

  const PUBNET := Chain("stellar", "pubnet")

  lemma PubnetId()
    ensures IsChain(PUBNET) && IdOf(PUBNET) == "stellar:pubnet"
    ensures Render(Native(PUBNET)) == "stellar:pubnet/slip44:148"
  {
    assert IdOf(PUBNET) == "stellar:pubnet";
    assert Suffix(Native(PUBNET)) == "slip44:148";
  }

  lemma LegacyDenotes(text: string) returns (a: Asset)
    requires Legacy(text).Ok?
    ensures IsAsset(a) && a.chain == PUBNET && Legacy(text).value == Render(a)
  {
    PubnetId();
    if Lower(text) == "xlm" || Lower(text) == "native" {
      a := Native(PUBNET);
    } else {
      var parts := Split(text, ':');
      var code, issuer := parts[0], if |parts| > 1 then parts[1] else "";
      CreditDenotes(PUBNET, code, issuer);
      a := Issued(PUBNET, Upper(code), issuer);
    }
  }

  /** Every accepted input denotes a well-formed asset, whose rendering is the canonical form. */
  lemma AcceptedDenotes(number: NumberOf, input: string) returns (a: Asset)
    requires Canonicalize(number, input).Ok?
    ensures IsAsset(a) && Canonicalize(number, input) == Ok(Render(a))
  {
    if LooksLikeCaip(Trim(input)) {
      a := ScopedDenotes(number, Trim(input));
    } else {
      a := LegacyDenotes(Trim(input));
    }
  }

  // ---------------------------------------------------------------- fixed points

  lemma ColonAfterKind(a: Asset)
    ensures IndexOf(Suffix(a), ':') == |AssetNs(a)|
    ensures Suffix(a)[..|AssetNs(a)|] == AssetNs(a) && Suffix(a)[|AssetNs(a)| + 1..] == Reference(a)
  {
    KindIsWord(a);
    FirstOf(AssetNs(a), ':', Reference(a));
  }

  lemma NotBareNative(a: Asset)
    ensures Lower(Suffix(a)) != "native" && Lower(Suffix(a)) != "slip44:native"
  {
    var s := Suffix(a);
    assert Lower(s)[|AssetNs(a)|] == ':';
    if !a.Native? {
      assert s[0] == AssetNs(a)[0] && s[1] == AssetNs(a)[1];
      assert Lower(s)[0] != 's' || Lower(s)[1] != 'l';
      assert "slip44:native"[0] == 's' && "slip44:native"[1] == 'l';
    }
  }

  lemma CreditFixed(c: Chain, code: string, issuer: string)
    requires IsAsset(Issued(c, code, issuer))
    ensures IndexOf(code + [':'] + issuer, ':') == |code|
    ensures (code + [':'] + issuer)[..|code|] == code && (code + [':'] + issuer)[|code| + 1..] == issuer
  {
    CodeHasNoColon(code);
    FirstOf(code, ':', issuer);
  }

  lemma LowerErc20(address: string)
    requires ValidErc20(address)
    ensures Lower(address) == address
  {
    assert forall i :: 0 <= i < |address| ==> !IsUpper(address[i]);
  }

  lemma PartFixed(number: NumberOf, a: Asset)
    requires ReadsSlip44(number) && IsAsset(a)
    ensures AssetPart(number, a.chain.ns, Suffix(a)) == Ok(Suffix(a))
  {
    ColonAfterKind(a);
    NotBareNative(a);
    match a
    case Native(_) =>
    case Issued(c, code, issuer) => CreditFixed(c, code, issuer);
    case Erc20(_, address) => LowerErc20(address);
    case Token(_, _) =>
    case Trc20(_, _) =>
  }

  lemma NamespacePrefix(text: string, ns: string, rest: string)
    requires Word(ns) && ns in NAMESPACES && text == ns + [':'] + rest && Trim(text) == text
    ensures LooksLikeCaip(text)
  {
    WordIsPlain(ns);
    FirstOf(ns, ':', rest);
    assert text[..|ns|] == ns;
  }

  lemma RenderIsTrimmed(a: Asset)
    requires IsAsset(a)
    ensures Render(a) != "" && Trim(Render(a)) == Render(a)
  {
    var s := Render(a);
    ChainIsWords(a.chain);
    ReferenceEnd(a);
    assert s[0] == a.chain.ns[0];
    assert s[|s| - 1] == Reference(a)[|Reference(a)| - 1];
    TrimIsIdentity(s);
  }

  lemma IdIsScoped(ns: string, reference: string, suffix: string)
    requires Word(ns) && ns in NAMESPACES
    requires var text := ns + [':'] + reference + ['/'] + suffix; Trim(text) == text
    ensures LooksLikeCaip(ns + [':'] + reference + ['/'] + suffix)
  {
    var text, rest := ns + [':'] + reference + ['/'] + suffix, reference + ['/'] + suffix;
    assert text == ns + [':'] + rest;
    NamespacePrefix(text, ns, rest);
  }

  lemma ReferenceEnd(a: Asset)
    requires IsAsset(a)
    ensures Reference(a) != "" && !IsSpace(Reference(a)[|Reference(a)| - 1])
  {
  }

  lemma ScopedSplits(number: NumberOf, c: Chain, part: string)
    requires IsChain(c)
    ensures Scoped(number, IdOf(c) + ['/'] + part) == Joined(IdOf(c), AssetPart(number, c.ns, part))
  {
    var id := IdOf(c);
    ChainRoundTrip(c);
    FirstOf(id, '/', part);
    var text := id + ['/'] + part;
    assert text[..|id|] == id && text[|id| + 1..] == part;
  }

  /** Every well-formed asset's rendering is its own canonical form. */
  lemma RenderIsFixed(number: NumberOf, a: Asset)
    requires ReadsSlip44(number) && IsAsset(a)
    ensures Canonicalize(number, Render(a)) == Ok(Render(a))
  {
    RenderIsTrimmed(a);
    ChainIsWords(a.chain);
    IdIsScoped(a.chain.ns, a.chain.reference, Suffix(a));
    PartFixed(number, a);
    ScopedSplits(number, a.chain, Suffix(a));
  }

  /** Canonicalising twice is canonicalising once. */
  lemma CanonicalizeIsIdempotent(number: NumberOf, input: string)
    requires ReadsSlip44(number) && Canonicalize(number, input).Ok?
    ensures Canonicalize(number, Canonicalize(number, input).value) == Canonicalize(number, input)
  {
    var a := AcceptedDenotes(number, input);
    RenderIsFixed(number, a);
  }

  /** Two inputs share a canonical form exactly when they denote the same asset; never across chains. */
  lemma SameFormSameAsset(number: NumberOf, x: string, y: string) returns (a: Asset, b: Asset)
    requires Canonicalize(number, x).Ok? && Canonicalize(number, y).Ok?
    ensures IsAsset(a) && Canonicalize(number, x) == Ok(Render(a))
    ensures IsAsset(b) && Canonicalize(number, y) == Ok(Render(b))
    ensures Canonicalize(number, x) == Canonicalize(number, y) <==> a == b
    ensures a.chain != b.chain ==> Canonicalize(number, x) != Canonicalize(number, y)
  {
    a := AcceptedDenotes(number, x);
    b := AcceptedDenotes(number, y);
    if Render(a) == Render(b) {
      RenderIsInjective(a, b);
    }
  }

  // ---------------------------------------------------------------- legacy identifiers

  function LegacyForm(code: string, rest: string): string {
    code + [':'] + rest
  }

  function ScopedForm(code: string, rest: string): string {
    "stellar:pubnet/stellar:" + LegacyForm(code, rest)
  }

  /** Outside the chain namespaces, only the first two parts of a legacy identifier matter. */
  lemma LegacyMeans(number: NumberOf, input: string, code: string, rest: string)
    requires ':' !in code && Trim(input) == LegacyForm(code, rest)
    requires Lower(code) !in NAMESPACES
    ensures Canonicalize(number, input) == Joined("stellar:pubnet", Credit(code, Split(rest, ':')[0]))
  {
    TrimIsIdempotent(input);
    LegacyText(code, rest);
    LegacySplits(code, rest);
  }

  lemma LegacyText(code: string, rest: string)
    requires ':' !in code && Trim(LegacyForm(code, rest)) == LegacyForm(code, rest)
    ensures LooksLikeCaip(LegacyForm(code, rest)) <==> Lower(code) in NAMESPACES
  {
    FirstOf(code, ':', rest);
    assert LegacyForm(code, rest)[..|code|] == code;
  }

  lemma LegacySplits(code: string, rest: string)
    requires ':' !in code
    ensures Legacy(LegacyForm(code, rest)) == Joined("stellar:pubnet", Credit(code, Split(rest, ':')[0]))
  {
    var text := LegacyForm(code, rest);
    ColonIsNotNative(text, |code|);
    SplitAt(code, ':', rest);
    var parts := Split(text, ':');
    assert parts[0] == code && |parts| > 1 && parts[1] == Split(rest, ':')[0];
  }

  lemma ColonIsNotNative(text: string, i: nat)
    requires i < |text| && text[i] == ':'
    ensures ':' in text && Lower(text) != "xlm" && Lower(text) != "native"
  {
    assert Lower(text)[i] == ':';
  }

  lemma ScopedMeans(number: NumberOf, input: string, code: string, rest: string)
    requires ':' !in code && Trim(input) == ScopedForm(code, rest)
    ensures Canonicalize(number, input) == Joined("stellar:pubnet", Credit(code, rest))
  {
    TrimIsIdempotent(input);
    PubnetId();
    var part := "stellar" + [':'] + LegacyForm(code, rest);
    assert ScopedForm(code, rest) == IdOf(PUBNET) + ['/'] + part;
    IdIsScoped("stellar", "pubnet", part);
    ScopedSplits(number, PUBNET, part);
    StellarPart(number, code, rest);
  }

  lemma StellarPart(number: NumberOf, code: string, rest: string)
    requires ':' !in code
    ensures AssetPart(number, "stellar", "stellar" + [':'] + LegacyForm(code, rest)) == Credit(code, rest)
  {
    var form := LegacyForm(code, rest);
    var part := "stellar" + [':'] + form;
    WordIsPlain("stellar");
    FirstOf("stellar", ':', form);
    assert part[..7] == "stellar" && part[8..] == form;
    assert Lower(part)[7] == ':' && Lower(part)[1] == 't';
    assert "slip44:native"[1] == 'l';
    FirstOf(code, ':', rest);
    assert form[..|code|] == code && form[|code| + 1..] == rest;
  }

  lemma IssuerIsPlain(issuer: string)
    requires ValidIssuer(issuer)
    ensures ':' !in issuer && '/' !in issuer && !IsSpace(issuer[55])
  {
  }

  lemma FormsAreTrimmed(code: string, issuer: string)
    requires ValidCode(code) && ValidIssuer(issuer)
    ensures Trim(LegacyForm(code, issuer)) == LegacyForm(code, issuer)
    ensures Trim(ScopedForm(code, issuer)) == ScopedForm(code, issuer)
  {
    IssuerIsPlain(issuer);
    var legacy, scoped := LegacyForm(code, issuer), ScopedForm(code, issuer);
    assert legacy[0] == code[0] && legacy[|legacy| - 1] == issuer[55];
    assert scoped[0] == 's' && scoped[|scoped| - 1] == issuer[55];
    TrimIsIdentity(legacy);
    TrimIsIdentity(scoped);
  }

  /**
   * A legacy CODE:ISSUER means the pubnet asset of that code and issuer exactly when CODE is not,
   * in any case, the name of a chain namespace.
   */
  lemma LegacyAgreesIff(number: NumberOf, code: string, issuer: string)
    requires ValidCode(code) && ValidIssuer(issuer)
    ensures Canonicalize(number, ScopedForm(code, issuer)) == Ok(Render(Issued(PUBNET, Upper(code), issuer)))
    ensures Canonicalize(number, LegacyForm(code, issuer)) == Canonicalize(number, ScopedForm(code, issuer))
            <==> Lower(code) !in NAMESPACES
  {
    CodeHasNoColon(code);
    IssuerIsPlain(issuer);
    FormsAreTrimmed(code, issuer);
    ScopedMeans(number, ScopedForm(code, issuer), code, issuer);
    PubnetId();
    CreditDenotes(PUBNET, code, issuer);
    if Lower(code) !in NAMESPACES {
      SplitAbsent(issuer, ':');
      LegacyMeans(number, LegacyForm(code, issuer), code, issuer);
    } else {
      LegacyText(code, issuer);
      var text := LegacyForm(code, issuer);
      assert '/' !in code;
      assert '/' !in text;
    }
  }

  /** A third part is dropped by the legacy form and refused by the chain-scoped one. */
  lemma LegacyDropsThirdPart(number: NumberOf, legacy: string, scoped: string, code: string, issuer: string, extra: string)
    requires ValidCode(code) && Lower(code) !in NAMESPACES && ValidIssuer(issuer)
    requires Trim(legacy) == LegacyForm(code, issuer + [':'] + extra)
    requires Trim(scoped) == ScopedForm(code, issuer + [':'] + extra)
    ensures Canonicalize(number, legacy) == Ok(Render(Issued(PUBNET, Upper(code), issuer)))
    ensures Canonicalize(number, scoped) == Err(BadIssuer)
  {
    CodeHasNoColon(code);
    IssuerIsPlain(issuer);
    SplitAt(issuer, ':', extra);
    LegacyMeans(number, legacy, code, issuer + [':'] + extra);
    ScopedMeans(number, scoped, code, issuer + [':'] + extra);
    PubnetId();
    CreditDenotes(PUBNET, code, issuer);
  }

  // ---------------------------------------------------------------- the alphabets and coin types

  const BASE58_DIGITS := "123456789"
  const BASE58_UPPER := "ABCDEFGHJKLMNPQRSTUVWXYZ"
  const BASE58_LOWER := "abcdefghijkmnopqrstuvwxyz"

  lemma UpperAlphabet(c: char)
    ensures IsUpper(c) && IsBase58(c) <==> c in BASE58_UPPER
  {
  }

  lemma LowerAlphabet(c: char)
    ensures IsLower(c) && IsBase58(c) <==> c in BASE58_LOWER
  {
  }

  lemma Base58Alphabet(c: char)
    ensures IsBase58(c) <==> c in BASE58_DIGITS + BASE58_UPPER + BASE58_LOWER
  {
    UpperAlphabet(c);
    LowerAlphabet(c);
    assert '1' <= c <= '9' <==> c in BASE58_DIGITS;
  }

  const BASE58 := BASE58_DIGITS + BASE58_UPPER + BASE58_LOWER
  const BASE32 := "ABCDEFGHIJKLMNOPQRSTUVWXYZ234567"
  const HEX := "0123456789abcdef"

  predicate Over(s: string, alphabet: string) {
    forall c :: c in s ==> c in alphabet
  }

  lemma Base32Alphabet(c: char)
    ensures IsBase32(c) <==> c in BASE32
  {
  }

  lemma HexAlphabet(c: char)
    ensures IsLowerHex(c) <==> c in HEX
  {
  }

  /** Token addresses are 32 to 44 characters over the base 58 alphabet; TRON ones are 34 and begin with T. */
  lemma Base58Shapes(s: string)
    ensures ValidSolana(s) <==> 32 <= |s| <= 44 && Over(s, BASE58)
    ensures ValidTron(s) <==> |s| == 34 && s[0] == 'T' && Over(s, BASE58)
  {
    forall i | 0 <= i < |s| ensures IsBase58(s[i]) <==> s[i] in BASE58 {
      Base58Alphabet(s[i]);
    }
  }

  /** A contract is 0x and 40 hexadecimal digits, a genesis hash 64 of them. */
  lemma HexShapes(s: string)
    ensures ValidErc20(s) <==> |s| == 42 && s[..2] == "0x" && Over(s[2..], HEX)
    ensures ValidGenesis(s) <==> |s| == 64 && Over(s, HEX)
  {
    forall i | 0 <= i < |s| ensures IsLowerHex(s[i]) <==> s[i] in HEX {
      HexAlphabet(s[i]);
    }
    if |s| >= 2 {
      assert forall i :: 2 <= i < |s| ==> s[i] == s[2..][i - 2];
    }
  }

  /** An issuer is G and 55 characters over the base 32 alphabet. */
  lemma IssuerShape(s: string)
    ensures ValidIssuer(s) <==> |s| == 56 && s[0] == 'G' && Over(s[1..], BASE32)
  {
    forall i | 0 <= i < |s| ensures IsBase32(s[i]) <==> s[i] in BASE32 {
      Base32Alphabet(s[i]);
    }
    if |s| >= 1 {
      assert forall i :: 1 <= i < |s| ==> s[i] == s[1..][i - 1];
    }
  }

  /** A native asset is accepted under its chain's own SLIP-44 coin type and under no other. */
  lemma NativeIffCoinType(number: NumberOf, ns: string, coin: int, text: string, reference: string)
    requires (ns, coin, text) in
      {("stellar", 148, "148"), ("eip155", 60, "60"), ("solana", 501, "501"), ("bip122", 0, "0"), ("tron", 195, "195")}
    ensures AssetPart(number, ns, "slip44" + [':'] + reference) ==
      if Lower(reference) == "native" then Err(BareNative)
      else if number(reference) == Some(coin) then Ok("slip44" + [':'] + text)
      else Err(WrongSlip44)
  {
    var part := "slip44" + [':'] + reference;
    FirstOf("slip44", ':', reference);
    assert part[..6] == "slip44" && part[7..] == reference;
    LowerNative(reference);
  }

  lemma LowerNative(reference: string)
    ensures var part := Lower("slip44" + [':'] + reference);
            part != "native" && (part == "slip44:native" <==> Lower(reference) == "native")
  {
    var part := Lower("slip44" + [':'] + reference);
    assert part[..7] == "slip44:" && part[7..] == Lower(reference);
    assert "native"[0] == 'n' && part[0] == 's';
    assert "slip44:native"[7..] == "native" && "slip44:native" == "slip44:" + "native";
  }

  /** Every kind of asset but the native one belongs to one kind of chain. */
  lemma WrongChainIsRefused(number: NumberOf, ns: string, kind: string, own: string, reference: string)
    requires (kind, own) in {("stellar", "stellar"), ("erc20", "eip155"), ("token", "solana"), ("trc20", "tron")}
    requires ns != own
    ensures AssetOf(number, ns, kind, reference) == Err(WrongChainForAsset)
  {
  }

  /** A native asset without its coin type is refused as such, in any case. */
  lemma BareNativeIsRefused(number: NumberOf, ns: string, part: string)
    requires Lower(part) in {"native", "slip44:native"}
    ensures AssetPart(number, ns, part) == Err(BareNative)
  {
  }

  // ---------------------------------------------------------------- letter case

  lemma LowerParts(t: string, u: string)
    requires Lower(t) == Lower(u)
    ensures |t| == |u| && forall i :: 0 <= i < |t| ==> LowerChar(t[i]) == LowerChar(u[i])
  {
    forall i | 0 <= i < |t| ensures LowerChar(t[i]) == LowerChar(u[i]) {
      assert Lower(t)[i] == Lower(u)[i];
    }
  }

  lemma LowerSlice(t: string, u: string, a: nat, b: nat)
    requires Lower(t) == Lower(u) && a <= b <= |t|
    ensures b <= |u| && Lower(t[a..b]) == Lower(u[a..b])
  {
    LowerParts(t, u);
  }

  lemma ColonsAgree(t: string, u: string)
    requires Lower(t) == Lower(u)
    ensures IndexOf(t, ':') == IndexOf(u, ':')
  {
    LowerParts(t, u);
    var i, j := IndexOf(t, ':'), IndexOf(u, ':');
    assert i >= 0 ==> u[i] == ':' && ':' in u;
    assert j >= 0 ==> t[j] == ':' && ':' in t;
  }

  lemma DigitsAgree(t: string, u: string)
    requires Lower(t) == Lower(u) && AllDigits(t)
    ensures t == u
  {
    LowerParts(t, u);
  }

  /** A chain may be spelled in any case. */
  lemma ChainInAnyCase(t: string, u: string)
    requires Lower(t) == Lower(u)
    ensures ParseChain(t) == ParseChain(u)
  {
    ColonsAgree(t, u);
    LowerParts(t, u);
    var colon := IndexOf(t, ':');
    if colon >= 0 {
      LowerSlice(t, u, 0, colon);
      LowerSlice(t, u, colon + 1, |t|);
      assert t[..colon] == t[0..colon] && u[..colon] == u[0..colon];
      assert t[colon + 1..] == t[colon + 1..|t|] && u[colon + 1..] == u[colon + 1..|u|];
      ReferenceInAnyCase(Lower(t[..colon]), t[colon + 1..], u[colon + 1..]);
    }
  }

  lemma ReferenceInAnyCase(ns: string, t: string, u: string)
    requires Lower(t) == Lower(u)
    ensures ChainOf(ns, t) == ChainOf(ns, u)
  {
    if AllDigits(t) {
      DigitsAgree(t, u);
    } else if AllDigits(u) {
      DigitsAgree(u, t);
    } else {
      LowerParts(t, u);
    }
  }

  /** A token contract may be spelled in any case too, and is named in lower case; a malformed one is refused. */
  lemma Erc20InAnyCase(number: NumberOf, c: Chain, chain: string, address: string)
    requires IsChain(c) && c.ns == "eip155" && Lower(chain) == IdOf(c)
    ensures Scoped(number, chain + ['/'] + ("erc20" + [':'] + address)) ==
      if ValidErc20(Lower(address)) then Ok(Render(Erc20(c, Lower(address)))) else Err(BadAddress)
  {
    ChainRoundTrip(c);
    ChainIsWords(c);
    LowerOfId(c);
    ChainInAnyCase(chain, IdOf(c));
    SlashAgrees(chain, IdOf(c));
    var part := "erc20" + [':'] + address;
    FirstOf(chain, '/', part);
    var text := chain + ['/'] + part;
    assert text[..|chain|] == chain && text[|chain| + 1..] == part;
    Erc20Part(number, c, address);
  }

  lemma LowerOfId(c: Chain)
    requires IsChain(c)
    ensures Lower(IdOf(c)) == IdOf(c)
  {
    ChainIsWords(c);
    WordIsPlain(c.ns);
    WordIsPlain(c.reference);
  }

  lemma SlashAgrees(t: string, u: string)
    requires Lower(t) == Lower(u) && '/' !in u
    ensures '/' !in t
  {
    LowerParts(t, u);
  }

  lemma Erc20Part(number: NumberOf, c: Chain, address: string)
    requires c.ns == "eip155"
    ensures AssetPart(number, c.ns, "erc20" + [':'] + address) ==
      if ValidErc20(Lower(address)) then Ok(Suffix(Erc20(c, Lower(address)))) else Err(BadAddress)
  {
    var part := "erc20" + [':'] + address;
    FirstOf("erc20", ':', address);
    assert part[..5] == "erc20" && part[6..] == address;
    assert Lower(part)[0] == 'e' && "native"[0] == 'n' && "slip44:native"[0] == 's';
  }
}

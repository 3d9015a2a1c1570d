/**
 * The canonical form of chain-scoped and legacy Stellar asset identifiers (sdk-js/src/types.ts).
 *
 * Lower and upper case are ASCII here: no other character lower-cases to a letter the code
 * compares with, and upper case is taken only of ASCII codes. `Number` is a parameter, of which
 * only the five SLIP-44 numerals are known.
 */
module AssetId {
  import opened Options
  import opened Strings

  datatype Fault =
    | EmptyId | NoSlash | NoChainColon | UnknownNetwork | BadChainReference | UnknownNamespace
    | BareNative | NoAssetColon | WrongSlip44 | WrongChainForAsset | NoIssuer | BadCode | BadIssuer
    | BadAddress | UnknownAssetNamespace | UnrecognisedLegacy

  datatype Chain = Chain(ns: string, reference: string)

  const NAMESPACES: set<string> := {"stellar", "eip155", "solana", "bip122", "tron"}

  /** `Number(text)` when it is an integer. */
  type NumberOf = string -> Option<int>

  predicate ReadsSlip44(number: NumberOf) {
    && number("148") == Some(148) && number("60") == Some(60) && number("501") == Some(501)
    && number("0") == Some(0) && number("195") == Some(195)
  }

  function Slip44(ns: string): (int, string) {
    if ns == "stellar" then (148, "148")
    else if ns == "eip155" then (60, "60")
    else if ns == "solana" then (501, "501")
    else if ns == "bip122" then (0, "0")
    else (195, "195")
  }

  // ---------------------------------------------------------------- validators

  predicate IsBase32(c: char) {
    IsUpper(c) || '2' <= c <= '7'
  }

  predicate IsBase58(c: char) {
    ('1' <= c <= '9' || IsUpper(c) || IsLower(c)) && c != 'I' && c != 'O' && c != 'l'
  }

  predicate IsLowerHex(c: char) {
    IsDigit(c) || 'a' <= c <= 'f'
  }

  predicate IsAlphanumeric(c: char) {
    IsDigit(c) || IsLower(c) || IsUpper(c)
  }

  predicate ValidIssuer(issuer: string) {
    |issuer| == 56 && issuer[0] == 'G' && forall i :: 0 < i < |issuer| ==> IsBase32(issuer[i])
  }

  predicate ValidCode(code: string) {
    1 <= |code| <= 12 && forall i :: 0 <= i < |code| ==> IsAlphanumeric(code[i])
  }

  predicate ValidErc20(lower: string) {
    |lower| == 42 && lower[0] == '0' && lower[1] == 'x' && forall i :: 2 <= i < |lower| ==> IsLowerHex(lower[i])
  }

  predicate ValidSolana(address: string) {
    32 <= |address| <= 44 && forall i :: 0 <= i < |address| ==> IsBase58(address[i])
  }

  predicate ValidTron(address: string) {
    |address| == 34 && address[0] == 'T' && forall i :: 0 <= i < |address| ==> IsBase58(address[i])
  }

  predicate ValidGenesis(lower: string) {
    |lower| == 64 && forall i :: 0 <= i < |lower| ==> IsLowerHex(lower[i])
  }

  // ---------------------------------------------------------------- the canonicaliser

  function ParseChain(text: string): Result<Chain, Fault> {
    var colon := IndexOf(text, ':');
    if colon < 0 then Err(NoChainColon)
    else ChainOf(Lower(text[..colon]), text[colon + 1..])
  }

  function ChainOf(ns: string, reference: string): Result<Chain, Fault> {
    if ns == "stellar" then Network(ns, Lower(reference), {"pubnet", "testnet"})
    else if ns == "eip155" then
      if reference != "" && AllDigits(reference) then Ok(Chain(ns, reference)) else Err(BadChainReference)
    else if ns == "solana" then Network(ns, Lower(reference), {"mainnet", "devnet", "testnet"})
    else if ns == "bip122" then
      if ValidGenesis(Lower(reference)) then Ok(Chain(ns, Lower(reference))) else Err(BadChainReference)
    else if ns == "tron" then Network(ns, Lower(reference), {"mainnet", "nile", "shasta"})
    else Err(UnknownNamespace)
  }

  function Network(ns: string, name: string, known: set<string>): Result<Chain, Fault> {
    if name in known then Ok(Chain(ns, name)) else Err(UnknownNetwork)
  }

  function IdOf(chain: Chain): string {
    chain.ns + [':'] + chain.reference
  }

  function LooksLikeCaip(input: string): bool {
    var text := Trim(input);
    var colon := IndexOf(text, ':');
    colon >= 0 && Lower(text[..colon]) in NAMESPACES
  }

  /** The asset part of a chain-scoped identifier, canonical. */
  function AssetPart(number: NumberOf, ns: string, part: string): Result<string, Fault> {
    var colon := IndexOf(part, ':');
    if Lower(part) == "native" || Lower(part) == "slip44:native" then Err(BareNative)
    else if colon < 0 then Err(NoAssetColon)
    else AssetOf(number, ns, part[..colon], part[colon + 1..])
  }

  function AssetOf(number: NumberOf, ns: string, assetNs: string, reference: string): Result<string, Fault> {
    if assetNs == "slip44" then
      if number(reference) == Some(Slip44(ns).0) then Ok("slip44" + [':'] + Slip44(ns).1) else Err(WrongSlip44)
    else if assetNs == "stellar" then
      if ns != "stellar" then Err(WrongChainForAsset)
      else
        var colon := IndexOf(reference, ':');
        if colon < 0 then Err(NoIssuer) else Credit(reference[..colon], reference[colon + 1..])
    else if assetNs == "erc20" then
      if ns != "eip155" then Err(WrongChainForAsset)
      else if ValidErc20(Lower(reference)) then Ok("erc20" + [':'] + Lower(reference)) else Err(BadAddress)
    else if assetNs == "token" then
      if ns != "solana" then Err(WrongChainForAsset)
      else if ValidSolana(reference) then Ok("token" + [':'] + reference) else Err(BadAddress)
    else if assetNs == "trc20" then
      if ns != "tron" then Err(WrongChainForAsset)
      else if ValidTron(reference) then Ok("trc20" + [':'] + reference) else Err(BadAddress)
    else Err(UnknownAssetNamespace)
  }

  function Credit(code: string, issuer: string): Result<string, Fault> {
    if !ValidCode(code) then Err(BadCode)
    else if !ValidIssuer(issuer) then Err(BadIssuer)
    else Ok("stellar" + [':'] + (Upper(code) + [':'] + issuer))
  }

  function Joined(chain: string, part: Result<string, Fault>): Result<string, Fault> {
    if part.Ok? then Ok(chain + ['/'] + part.value) else part
  }

  function Scoped(number: NumberOf, text: string): Result<string, Fault> {
    var slash := IndexOf(text, '/');
    if slash < 0 then Err(NoSlash)
    else
      match ParseChain(text[..slash])
      case Err(f) => Err(f)
      case Ok(chain) => Joined(IdOf(chain), AssetPart(number, chain.ns, text[slash + 1..]))
  }

  function Legacy(text: string): Result<string, Fault> {
    if Lower(text) == "xlm" || Lower(text) == "native" then Ok("stellar:pubnet/slip44:148")
    else if ':' in text then
      var parts := Split(text, ':');
      Joined("stellar:pubnet", Credit(parts[0], if |parts| > 1 then parts[1] else ""))
    else Err(UnrecognisedLegacy)
  }

  function Canonicalize(number: NumberOf, input: string): Result<string, Fault> {
    var text := Trim(input);
    if text == "" then Err(EmptyId)
    else if LooksLikeCaip(text) then Scoped(number, text)
    else Legacy(text)
  }

  // ---------------------------------------------------------------- what the canonical form denotes

  datatype Asset =
    | Native(chain: Chain)
    | Issued(chain: Chain, code: string, issuer: string)
    | Erc20(chain: Chain, address: string)
    | Token(chain: Chain, address: string)
    | Trc20(chain: Chain, address: string)

  predicate IsChain(c: Chain) {
    || (c.ns == "stellar" && c.reference in {"pubnet", "testnet"})
    || (c.ns == "eip155" && c.reference != "" && AllDigits(c.reference))
    || (c.ns == "solana" && c.reference in {"mainnet", "devnet", "testnet"})
    || (c.ns == "bip122" && ValidGenesis(c.reference))
    || (c.ns == "tron" && c.reference in {"mainnet", "nile", "shasta"})
  }

  /** An asset on a chain of its own kind, every reference in canonical spelling. */
  predicate IsAsset(a: Asset) {
    && IsChain(a.chain)
    && match a
       case Native(_) => true
       case Issued(c, code, issuer) => c.ns == "stellar" && ValidCode(code) && Upper(code) == code && ValidIssuer(issuer)
       case Erc20(c, address) => c.ns == "eip155" && ValidErc20(address)
       case Token(c, address) => c.ns == "solana" && ValidSolana(address)
       case Trc20(c, address) => c.ns == "tron" && ValidTron(address)
  }

  function AssetNs(a: Asset): string {
    match a
    case Native(_) => "slip44"
    case Issued(_, _, _) => "stellar"
    case Erc20(_, _) => "erc20"
    case Token(_, _) => "token"
    case Trc20(_, _) => "trc20"
  }

  function Reference(a: Asset): string {
    match a
    case Native(c) => Slip44(c.ns).1
    case Issued(_, code, issuer) => code + [':'] + issuer
    case Erc20(_, address) => address
    case Token(_, address) => address
    case Trc20(_, address) => address
  }

  function Suffix(a: Asset): string {
    AssetNs(a) + [':'] + Reference(a)
  }

  function Render(a: Asset): string {
    IdOf(a.chain) + ['/'] + Suffix(a)
  }
}

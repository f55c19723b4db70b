/**
 * The per-network constant tables of the portal: the ERC-20 tokens offered as
 * collateral, the known vault operators, the oToken blacklist, and the
 * `find`-with-fallback lookups built on them.
 */
module Addresses {
  import opened Wrappers
  import opened ArrayOps

  type Address = string

  /** The supported networks: mainnet ("1") and Kovan ("42"). */
  datatype Network = Mainnet | Kovan

  /** A token entry; `canMint` is false where the table leaves it out. */
  datatype Token = Token(name: string, id: Address, symbol: string, decimals: nat, canMint: bool)

  datatype KnownOperator = KnownOperator(address: Address, name: string, description: string, author: string, audited: bool)

  /** The all-zero address, the id of native ether. */
  const ZeroAddr: Address := "0x0000000000000000000000000000000000000000"

  const Eth: Token := Token("Ether", ZeroAddr, "ETH", 18, false)

  /** The token list of each network; native ether always comes first. */
  function Tokens(n: Network): seq<Token>
  {
    match n
    case Mainnet => [
      Eth,
      Token("USDC", "0xa0b86991c6218b36c1d19d4a2e9eb0ce3606eb48", "USDC", 6, false),
      Token("Wrapped Ether", "0xc02aaa39b223fe8d0a0e5c4f27ead9083c756cc2", "WETH", 18, false)
    ]
    case Kovan => [
      Eth,
      Token("USDC", "0xf5cb5408b40e819e7db5347664be03b52accac9d", "USDC", 6, true),
      Token("Wrapped Ether", "0xd0a1e359811322d97991e03f863a0c30c2cf029c", "WETH", 18, false),
      Token("Wrapped Bitcoin", "0xd7c8c2f7b6ebdbc88e5ab0101dd24ed5aca58b0f", "WBTC", 8, true)
    ]
  }

  /** oTokens hidden from listings on each network. */
  function BlacklistOTokens(n: Network): seq<Address>
  {
    match n
    case Mainnet => [ZeroAddr]
    case Kovan => [ZeroAddr]
  }

  /** Known operators; the proxy address depends on the public-deployment flag. */
  function KnownOperators(n: Network, isPublic: bool): seq<KnownOperator>
  {
    match n
    case Mainnet => [
      KnownOperator(
        if isPublic then "0x8f7dd610c457fc7cb26b0f9db4e77581f94f70ac" else "0xa05157b27b7db2eb63bb0c11412b71e7de027f89",
        "PayableProxy", "Proxy contract to help mint calls with ETH instead of WETH", "Opyn", true)
    ]
    case Kovan => [
      KnownOperator(
        if isPublic then "0x5957a413f5ac4bcf2ba7c5c461a944b548adb1a5" else "0xe501e882f6e5f049899e02b7e48d89f223cb2a4f",
        "PayableProxy", "Proxy contract to help mint calls with ETH instead of WETH", "Opyn", true)
    ]
  }

  /** The first USDC entry of the network's list, falling back to native ether when there is none. */
  function GetUSDC(n: Network): (t: Token)
    ensures (exists i :: 0 <= i < |Tokens(n)| && Tokens(n)[i].symbol == "USDC") ==> (
      t.symbol == "USDC" &&
      exists i :: 0 <= i < |Tokens(n)| && Tokens(n)[i] == t && forall j :: 0 <= j < i ==> Tokens(n)[j].symbol != "USDC")
    ensures (forall i :: 0 <= i < |Tokens(n)| ==> Tokens(n)[i].symbol != "USDC") ==> t == Eth
  {
    match Find(Tokens(n), (t: Token) => t.symbol == "USDC")
    case Some(usdc) => usdc
    case None => Eth
  }

  /** The first WETH entry; the source casts the result without a check, so a missing entry is None here. */
  function GetWeth(n: Network): (r: Option<Token>)
    ensures r.None? <==> forall i :: 0 <= i < |Tokens(n)| ==> Tokens(n)[i].symbol != "WETH"
    ensures r.Some? ==> (
      r.value.symbol == "WETH" &&
      exists i :: 0 <= i < |Tokens(n)| && Tokens(n)[i] == r.value && forall j :: 0 <= j < i ==> Tokens(n)[j].symbol != "WETH")
  {
    Find(Tokens(n), (t: Token) => t.symbol == "WETH")
  }

  /** The first known operator named PayableProxy; an unchecked cast in the source, None here when absent. */
  function GetPayableProxyAddr(n: Network, isPublic: bool): (r: Option<KnownOperator>)
    ensures r.None? <==> forall i :: 0 <= i < |KnownOperators(n, isPublic)| ==> KnownOperators(n, isPublic)[i].name != "PayableProxy"
    ensures r.Some? ==> (
      r.value.name == "PayableProxy" &&
      exists i :: 0 <= i < |KnownOperators(n, isPublic)| && KnownOperators(n, isPublic)[i] == r.value &&
        forall j :: 0 <= j < i ==> KnownOperators(n, isPublic)[j].name != "PayableProxy")
  {
    Find(KnownOperators(n, isPublic), (o: KnownOperator) => o.name == "PayableProxy")
  }

  /** Native ether is the 18-decimal token at ZeroAddr, and it heads every network's list. */
  lemma EthHeadsEveryList(n: Network)
    ensures |Tokens(n)| > 0 && Tokens(n)[0] == Eth
    ensures Eth.id == ZeroAddr && Eth.decimals == 18
  {
  }

  /** Within one network's list, symbols are pairwise distinct, and so are ids. */
  lemma TokensDistinct(n: Network)
    ensures forall i, j :: 0 <= i < j < |Tokens(n)| ==> Tokens(n)[i].symbol != Tokens(n)[j].symbol
    ensures forall i, j :: 0 <= i < j < |Tokens(n)| ==> Tokens(n)[i].id != Tokens(n)[j].id
  {
  }

  /** Only the head of a network's list (native ether) has the zero address as its id. */
  lemma ZeroAddrOnlyAtHead(n: Network)
    ensures forall i :: 0 < i < |Tokens(n)| ==> Tokens(n)[i].id != ZeroAddr
  {
  }

  /** Every network lists USDC, so GetUSDC never falls back; it yields the 6-decimal entry. */
  lemma UsdcAlwaysListed(n: Network)
    ensures GetUSDC(n) == Tokens(n)[1] && GetUSDC(n).decimals == 6
  {
  }

  /** Every network lists WETH, so the unchecked cast in GetWeth is always defined. */
  lemma WethAlwaysDefined(n: Network)
    ensures GetWeth(n).Some? && GetWeth(n).value == Tokens(n)[2] && GetWeth(n).value.decimals == 18
  {
  }

  /** Each network lists exactly one PayableProxy, and the lookup returns it. */
  lemma PayableProxyUnique(n: Network, isPublic: bool)
    ensures |KnownOperators(n, isPublic)| == 1 && KnownOperators(n, isPublic)[0].name == "PayableProxy"
    ensures GetPayableProxyAddr(n, isPublic) == Some(KnownOperators(n, isPublic)[0])
  {
  }

  /** The oToken blacklist of every supported network is exactly the zero address. */
  lemma BlacklistIsZeroAddr(n: Network)
    ensures BlacklistOTokens(n) == [ZeroAddr]
  {
  }
}

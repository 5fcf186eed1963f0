/** The chains the V3 positions view supports and the request it issues. */
module Chains {
  import opened PositionData

  /** Address of the Uniswap V3 position-manager NFT contract. */
  const PositionManager: string := "0xc36442b4a4522e871399cd717abdd847ab11fe88"

  /** chainIdAddrMap: chain id to the contract whose NFTs are listed. */
  const ChainIdAddrMap: map<string, string> := map["0x1" := PositionManager, "0x89" := PositionManager]

  /** chainIdNameMap: chain id to the name shown in messages. */
  const ChainIdNameMap: map<string, string> := map["0x1" := "ethereum", "0x89" := "polygon"]

  /** The guard of fetchData: the chain is neither undefined, null nor missing from chainIdAddrMap. */
  predicate IsSupportedChain(chainId: Option<string>)
  {
    chainId.Some? && chainId.value in ChainIdAddrMap
  }

  /** Only Ethereum and Polygon pass the guard. */
  lemma SupportedChainsAre(chainId: Option<string>)
    ensures IsSupportedChain(chainId) <==> chainId == Some("0x1") || chainId == Some("0x89")
  {
  }

  /** `chainIdNameMap[chainId] ? chainIdNameMap[chainId] : chainId` */
  function ChainLabel(chainId: string): (r: string)
    ensures chainId == "0x1" ==> r == "ethereum"
    ensures chainId == "0x89" ==> r == "polygon"
    ensures chainId !in ChainIdNameMap ==> r == chainId
  {
    if chainId in ChainIdNameMap then ChainIdNameMap[chainId] else chainId
  }

  /** options.token_address: the mapped contract, falling back to the position manager. */
  function TokenAddress(chainId: string): (r: string)
    ensures r == PositionManager
  {
    if chainId in ChainIdAddrMap then ChainIdAddrMap[chainId] else PositionManager
  }

  /** The path fetchData requests: `/api/lpV3/${user}/${token_address}/${chainId}`. */
  function RequestPath(user: string, chainId: string): string
  {
    "/api/lpV3/" + user + "/" + TokenAddress(chainId) + "/" + chainId
  }
}

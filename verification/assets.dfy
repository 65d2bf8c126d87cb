/**
 * The entities of the asset chaincode (asset.go) and the layout of its ledger keys.
 * Go strings and byte slices are both byte sequences here.
 */
module Assets {
  import opened Wrappers

  newtype byte = b: int | 0 <= b < 256

  type Bytes = seq<byte>

  /** A ledger key: a Go string, that is, a sequence of bytes. */
  type Key = Bytes

  /** The namespace of every asset key, the ASCII bytes of "assets" (KeyAssets). */
  const KeyAssets: Bytes := [0x61, 0x73, 0x73, 0x65, 0x74, 0x73]

  /** The '_' that `makeAssetKey` puts between the namespace and the id. */
  const Separator: byte := 0x5F

  /**
   * An asset record. A nil and an empty `ID` or `Owner` give the same key and
   * are not told apart; `pendingAuction` is None exactly when the Go slice is nil,
   * so Some([]) still counts as a pending auction.
   */
  datatype Asset = Asset(id: Bytes, owner: Bytes, pendingAuction: Option<Bytes>)

  /** The argument of `setAuction`. A JSON `null` or missing `AuctionID` decodes to a nil slice. */
  datatype SetAuctionArgs = SetAuctionArgs(assetId: Bytes, auctionId: Option<Bytes>)

  /** What the auction-result service reports about one auction (its bid amount is not used). */
  datatype AuctionResult = AuctionResult(ended: bool, highestBidder: Bytes)

  /**
   * The answer `getAuctionResult` gets for an auction id during one invocation;
   * None stands for every way the lookup fails (transport error, a status other
   * than 200, a body that does not decode).
   */
  type Resolver = Bytes -> Option<AuctionResult>

  /**
   * One invocation argument (a Go string), seen through the three decoders the
   * chaincode applies to it: JSON into an Asset, JSON into SetAuctionArgs, and
   * standard base64 into an id. None means that decoder fails on it.
   */
  datatype Payload = Payload(asAsset: Option<Asset>, asBinding: Option<SetAuctionArgs>, asId: Option<Bytes>)

  /** The distinct ways an invocation or a query fails. */
  datatype Error =
    | MethodNotFound
      /** `cc.args[0]` on an empty argument list: a Go runtime panic that aborts the invocation. */
    | MissingArgument
      /** The argument does not decode (JSON or base64). */
    | Malformed
    | AssetNotFound
    | NoPendingAuction
    | AuctionResultUnavailable
    | AuctionNotEnded

  /** Recovers the asset id from a ledger key, or None when the key is not an asset key. */
  function AssetIdOfKey(k: Key): Option<Bytes>
  {
    var n := |KeyAssets|;
    if |k| > n && k[..n] == KeyAssets && k[n] == Separator then Some(k[n + 1..]) else None
  }

  /** The ledger key of an asset: "assets", then '_', then the id's bytes. */
  function MakeAssetKey(id: Bytes): (k: Key)
    ensures AssetIdOfKey(k) == Some(id)
  {
    var k := KeyAssets + [Separator] + id;
    assert k[..|KeyAssets|] == KeyAssets && k[|KeyAssets| + 1..] == id;
    k
  }

  /** Distinct ids give distinct keys, and equal keys come from equal ids. */
  lemma MakeAssetKeyInjective(a: Bytes, b: Bytes)
    ensures MakeAssetKey(a) == MakeAssetKey(b) <==> a == b
  {
    if MakeAssetKey(a) == MakeAssetKey(b) {
      assert Some(a) == AssetIdOfKey(MakeAssetKey(b));
    }
  }

  /** The field update of `setAuction`: the new binding replaces whatever was there. */
  function BindAuction(a: Asset, auctionId: Option<Bytes>): (b: Asset)
    ensures b.id == a.id && b.owner == a.owner
    ensures b.pendingAuction == auctionId
  {
    a.(pendingAuction := auctionId)
  }

  /** The field update of `endAuction`: the winner becomes owner and the binding is cleared, together. */
  function Settle(a: Asset, result: AuctionResult): (b: Asset)
    ensures b.id == a.id
    ensures b.owner == result.highestBidder && b.pendingAuction.None?
  {
    a.(owner := result.highestBidder, pendingAuction := None)
  }
}

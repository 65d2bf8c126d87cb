/**
 * The chaincode object of asset.go: `Invoke` and `Query` store the ledger handle
 * and the arguments in fields, and the handlers read-modify-write the ledger in
 * place. Each handler is proved to do exactly what the function of the same
 * name in Registry says.
 */
module Chaincode {
  import opened Wrappers
  import opened Assets
  import Registry

  /** The ledger handle of one invocation (the runtime's stub), with its state. */
  class Stub {
    var state: Registry.Store

    constructor (initial: Registry.Store)
      ensures state == initial
    {
      state := initial;
    }

    /** `GetState`: the stored value, or None (Go: nil) for an absent key. */
    method GetState(key: Key) returns (value: Option<Asset>)
      ensures value.Some? <==> key in state
      ensures value.Some? ==> value.value == state[key]
    {
      value := if key in state then Some(state[key]) else None;
    }

    /** `PutState`: overwrites one key. */
    method PutState(key: Key, value: Asset)
      modifies this
      ensures state == old(state)[key := value]
    {
      state := state[key := value];
    }
  }

  class AssetChaincode {
    var stub: Stub?
    var args: seq<Payload>

    constructor ()
      ensures stub == null && args == []
    {
      stub := null;
      args := [];
    }

    /** `Invoke`: remembers the stub and the arguments, then runs the named handler. */
    method Invoke(stub: Stub, methodName: string, args: seq<Payload>, resolve: Resolver) returns (err: Option<Error>)
      modifies this, stub
      ensures this.stub == stub && this.args == args
      ensures Registry.Step(err, stub.state) == Registry.Invoke(old(stub.state), methodName, args, resolve)
    {
      this.stub := stub;
      this.args := args;
      if methodName == "addAsset" {
        err := AddAsset();
      } else if methodName == "setAuction" {
        err := SetAuction();
      } else if methodName == "endAuction" {
        err := EndAuction(resolve);
      } else {
        err := Some(MethodNotFound);
      }
    }

    /** `Query`: remembers the stub and the arguments, then runs the one read-only handler. */
    method Query(stub: Stub, methodName: string, args: seq<Payload>) returns (r: Result<Option<Asset>, Error>)
      modifies this
      ensures this.stub == stub && this.args == args
      ensures r == Registry.Query(stub.state, methodName, args)
    {
      this.stub := stub;
      this.args := args;
      if methodName == "getAsset" {
        r := GetAssetRaw();
      } else {
        r := Err(MethodNotFound);
      }
    }

    /** `addAsset`: decodes the argument and stores it, with no existence check. */
    method AddAsset() returns (err: Option<Error>)
      requires stub != null
      modifies stub
      ensures Registry.Step(err, stub.state) == Registry.Commit(old(stub.state), Registry.AddAsset(args))
    {
      if |args| == 0 {
        return Some(MissingArgument);
      }
      var asset := args[0].asAsset;
      if asset.None? {
        return Some(Malformed);
      }
      SetAsset(asset.value);
      err := None;
    }

    /** `setAuction`: binds an auction id to an existing asset, replacing any earlier binding. */
    method SetAuction() returns (err: Option<Error>)
      requires stub != null
      modifies stub
      ensures Registry.Step(err, stub.state) == Registry.Commit(old(stub.state), Registry.SetAuction(old(stub.state), args))
    {
      if |args| == 0 {
        return Some(MissingArgument);
      }
      var binding := args[0].asBinding;
      if binding.None? {
        return Some(Malformed);
      }
      var r := GetAsset(binding.value.assetId);
      if r.Err? {
        return Some(r.error);
      }
      var asset := BindAuction(r.value, binding.value.auctionId);
      SetAsset(asset);
      err := None;
    }

    /**
     * `endAuction`: settles the asset's pending auction. `resolve` answers in
     * place of `getAuctionResult`; it is consulted only once the asset is
     * known to be bound, and nothing is written unless the auction has ended.
     */
    method EndAuction(resolve: Resolver) returns (err: Option<Error>)
      requires stub != null
      modifies stub
      ensures Registry.Step(err, stub.state) == Registry.Commit(old(stub.state), Registry.EndAuction(old(stub.state), args, resolve))
    {
      if |args| == 0 {
        return Some(MissingArgument);
      }
      var assetId := args[0].asId;
      if assetId.None? {
        return Some(Malformed);
      }
      var r := GetAsset(assetId.value);
      if r.Err? {
        return Some(r.error);
      }
      var asset := r.value;
      if asset.pendingAuction.None? {
        return Some(NoPendingAuction);
      }
      var result := resolve(asset.pendingAuction.value);
      if result.None? {
        return Some(AuctionResultUnavailable);
      }
      if !result.value.ended {
        return Some(AuctionNotEnded);
      }
      asset := Settle(asset, result.value);
      SetAsset(asset);
      err := None;
    }

    /** `getAssetRaw`: the stored value for the base64-decoded id, or None, unchanged. */
    method GetAssetRaw() returns (r: Result<Option<Asset>, Error>)
      requires stub != null
      ensures r == Registry.GetAssetRaw(stub.state, args)
    {
      if |args| == 0 {
        return Err(MissingArgument);
      }
      var assetId := args[0].asId;
      if assetId.None? {
        return Err(Malformed);
      }
      var value := stub.GetState(MakeAssetKey(assetId.value));
      r := Ok(value);
    }

    /** `getAsset`: the stored record for an id, or AssetNotFound. */
    method GetAsset(assetId: Bytes) returns (r: Result<Asset, Error>)
      requires stub != null
      ensures r == Registry.GetAsset(stub.state, assetId)
    {
      var value := stub.GetState(MakeAssetKey(assetId));
      if value.None? {
        return Err(AssetNotFound);
      }
      r := Ok(value.value);
    }

    /** `setAsset`: writes a record at the key derived from its own ID. */
    method SetAsset(asset: Asset)
      requires stub != null
      modifies stub
      ensures stub.state == Registry.SetAsset(old(stub.state), asset)
    {
      stub.PutState(MakeAssetKey(asset.id), asset);
    }
  }
}

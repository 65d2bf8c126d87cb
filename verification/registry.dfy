/**
 * The asset chaincode as pure functions over the ledger: what each handler of
 * asset.go reads, decides and writes, given the ledger before the invocation.
 * The class in chaincode.dfy runs the same steps in place and is proved equal
 * to these functions.
 */
module Registry {
  import opened Wrappers
  import opened Assets

  /** The ledger as the chaincode sees it: each key holds a decoded asset record. */
  type Store = map<Key, Asset>

  /** The outcome of one invocation: the error it returns (None for nil) and the ledger afterwards. */
  datatype Step = Step(err: Option<Error>, store: Store)

  /** `GetState`: the value at a key, or None when the key is absent. */
  function Lookup(s: Store, k: Key): Option<Asset>
  {
    if k in s then Some(s[k]) else None
  }

  /** Every stored record sits at the key derived from its own ID. */
  ghost predicate WellKeyed(s: Store)
  {
    forall k :: k in s ==> k == MakeAssetKey(s[k].id)
  }

  /** `getAsset`: the record stored for an asset id, or AssetNotFound. */
  function GetAsset(s: Store, id: Bytes): (r: Result<Asset, Error>)
    ensures r.Ok? <==> Lookup(s, MakeAssetKey(id)).Some?
    ensures r.Ok? ==> Lookup(s, MakeAssetKey(id)) == Some(r.value)
    ensures r.Err? ==> r.error == AssetNotFound
    ensures WellKeyed(s) && r.Ok? ==> r.value.id == id
  {
    var k := MakeAssetKey(id);
    if k in s then
      MakeAssetKeyInjective(id, s[k].id);
      Ok(s[k])
    else
      Err(AssetNotFound)
  }

  /** `setAsset`: stores a record at the key derived from its own ID. */
  function SetAsset(s: Store, a: Asset): (r: Store)
    ensures GetAsset(r, a.id) == Ok(a)
    ensures forall k :: k != MakeAssetKey(a.id) ==> Lookup(r, k) == Lookup(s, k)
    ensures WellKeyed(s) ==> WellKeyed(r)
  {
    s[MakeAssetKey(a.id) := a]
  }

  /** `cc.args[0]`; Go panics when the argument list is empty. */
  function FirstArg(args: seq<Payload>): Result<Payload, Error>
  {
    if |args| == 0 then Err(MissingArgument) else Ok(args[0])
  }

  /** The first argument JSON-decoded as SetAuctionArgs. */
  function BindingArg(args: seq<Payload>): Result<SetAuctionArgs, Error>
  {
    match FirstArg(args)
    case Err(e) => Err(e)
    case Ok(p) => if p.asBinding.Some? then Ok(p.asBinding.value) else Err(Malformed)
  }

  /** The first argument base64-decoded as an asset id. */
  function IdArg(args: seq<Payload>): Result<Bytes, Error>
  {
    match FirstArg(args)
    case Err(e) => Err(e)
    case Ok(p) => if p.asId.Some? then Ok(p.asId.value) else Err(Malformed)
  }

  /** `addAsset`: the record to store is the argument JSON-decoded as an Asset. */
  function AddAsset(args: seq<Payload>): (r: Result<Asset, Error>)
    ensures r.Ok? <==> |args| > 0 && args[0].asAsset.Some?
    ensures r.Ok? ==> Some(r.value) == args[0].asAsset
    ensures |args| == 0 ==> r == Err(MissingArgument)
    ensures |args| > 0 && args[0].asAsset.None? ==> r == Err(Malformed)
  {
    match FirstArg(args)
    case Err(e) => Err(e)
    case Ok(p) => if p.asAsset.Some? then Ok(p.asAsset.value) else Err(Malformed)
  }

  /** `setAuction`: the record to store, the existing asset with its binding replaced. */
  function SetAuction(s: Store, args: seq<Payload>): (r: Result<Asset, Error>)
    ensures r.Ok? <==> BindingArg(args).Ok? && MakeAssetKey(BindingArg(args).value.assetId) in s
    ensures BindingArg(args).Err? ==> r == Err(BindingArg(args).error)
    ensures r.Ok? ==> BindingArg(args).Ok? && GetAsset(s, BindingArg(args).value.assetId).Ok?
    ensures BindingArg(args).Ok? && GetAsset(s, BindingArg(args).value.assetId).Err? ==> r == Err(AssetNotFound)
    ensures r.Ok? ==>
      var b := BindingArg(args).value;
      var prev := GetAsset(s, b.assetId).value;
      r.value.id == prev.id && r.value.owner == prev.owner && r.value.pendingAuction == b.auctionId
  {
    match BindingArg(args)
    case Err(e) => Err(e)
    case Ok(b) =>
      match GetAsset(s, b.assetId)
      case Err(e) => Err(e)
      case Ok(a) => Ok(BindAuction(a, b.auctionId))
  }

  /** True when `endAuction` may settle this stored record: it exists, is bound, and its auction has ended. */
  predicate Settleable(a: Option<Asset>, resolve: Resolver)
  {
    && a.Some?
    && a.value.pendingAuction.Some?
    && resolve(a.value.pendingAuction.value).Some?
    && resolve(a.value.pendingAuction.value).value.ended
  }

  /** `endAuction`: the settled record to store, or the reason settlement is refused. */
  function EndAuction(s: Store, args: seq<Payload>, resolve: Resolver): (r: Result<Asset, Error>)
    ensures r.Ok? <==> IdArg(args).Ok? && Settleable(Lookup(s, MakeAssetKey(IdArg(args).value)), resolve)
    ensures r.Ok? ==>
      var prev := s[MakeAssetKey(IdArg(args).value)];
      var result := resolve(prev.pendingAuction.value).value;
      r.value == Asset(prev.id, result.highestBidder, None)
  {
    match IdArg(args)
    case Err(e) => Err(e)
    case Ok(id) =>
      match GetAsset(s, id)
      case Err(e) => Err(e)
      case Ok(a) =>
        if a.pendingAuction.None? then Err(NoPendingAuction)
        else
          match resolve(a.pendingAuction.value)
          case None => Err(AuctionResultUnavailable)
          case Some(result) =>
            if !result.ended then Err(AuctionNotEnded)
            else Ok(Settle(a, result))
  }

  /** Persists a handler's record, or returns its error and writes nothing. */
  function Commit(s: Store, r: Result<Asset, Error>): (step: Step)
    ensures step.err.None? <==> r.Ok?
    ensures r.Err? ==> step == Step(Some(r.error), s)
    ensures r.Ok? ==> GetAsset(step.store, r.value.id) == Ok(r.value)
    ensures r.Ok? ==> forall k :: k != MakeAssetKey(r.value.id) ==> Lookup(step.store, k) == Lookup(s, k)
  {
    match r
    case Ok(a) => Step(None, SetAsset(s, a))
    case Err(e) => Step(Some(e), s)
  }

  /** `Invoke`: dispatches a state-changing method by name. */
  function Invoke(s: Store, name: string, args: seq<Payload>, resolve: Resolver): (r: Step)
    ensures r.err.Some? ==> r.store == s
    ensures r.err.None? ==> name == "addAsset" || name == "setAuction" || name == "endAuction"
    ensures name != "addAsset" && name != "setAuction" && name != "endAuction" ==> r == Step(Some(MethodNotFound), s)
    ensures forall k :: Lookup(r.store, k) != Lookup(s, k) ==> k in r.store && k == MakeAssetKey(r.store[k].id)
    ensures forall k1, k2 :: Lookup(r.store, k1) != Lookup(s, k1) && Lookup(r.store, k2) != Lookup(s, k2) ==> k1 == k2
    ensures WellKeyed(s) ==> WellKeyed(r.store)
  {
    if name == "addAsset" then Commit(s, AddAsset(args))
    else if name == "setAuction" then Commit(s, SetAuction(s, args))
    else if name == "endAuction" then Commit(s, EndAuction(s, args, resolve))
    else Step(Some(MethodNotFound), s)
  }

  /** `getAssetRaw`: the stored record for the base64-decoded id, or None when absent, passed through as stored. */
  function GetAssetRaw(s: Store, args: seq<Payload>): (r: Result<Option<Asset>, Error>)
    ensures r.Ok? <==> IdArg(args).Ok?
    ensures r.Err? ==> r == Err(IdArg(args).error)
    ensures r.Ok? ==> (r.value.None? <==> GetAsset(s, IdArg(args).value) == Err(AssetNotFound))
    ensures r.Ok? && r.value.Some? ==> GetAsset(s, IdArg(args).value) == Ok(r.value.value)
  {
    match IdArg(args)
    case Err(e) => Err(e)
    case Ok(id) => Ok(Lookup(s, MakeAssetKey(id)))
  }

  /** `Query`: dispatches the one read-only method by name. */
  function Query(s: Store, name: string, args: seq<Payload>): (r: Result<Option<Asset>, Error>)
    ensures name != "getAsset" ==> r == Err(MethodNotFound)
    ensures name == "getAsset" ==> r == GetAssetRaw(s, args)
    ensures r.Ok? ==> name == "getAsset" && IdArg(args).Ok?
    ensures r.Ok? && r.value.Some? ==> GetAsset(s, IdArg(args).value) == Ok(r.value.value)
  {
    if name == "getAsset" then GetAssetRaw(s, args) else Err(MethodNotFound)
  }
}

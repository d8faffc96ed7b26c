/** The `BetterCallApi` client. Each wrapper builds its query parameters, URL
    or body step by step, hands the request to the transport, and classifies
    what the transport produced. The transport is not modelled: the client
    keeps a log of the requests it issued (and of the points where it cancels
    all pending requests), and each wrapper receives, as `reply`, how the
    transport settled the request it issued; the token `getJwt()` returns is
    passed in the same way, as `jwt`. */
module Api {
  import opened Values
  import Objects
  import opened JsObjects
  import opened Queries
  import opened Responses
  import Endpoints

  /** `getCancellable`/`postCancellable`, or a call on the client's own axios instance. */
  datatype Route = Cancellable | Direct

  datatype Verb = HttpGet | HttpPost | HttpDelete

  /** A request as handed to the transport: its URL, for a post its body, and
      its configuration object (query parameters, headers). */
  datatype Request = Request(route: Route, verb: Verb, url: string, body: Option<Value>, config: Props)

  /** What the client asks of the transport. */
  datatype Action = CancelAll | Send(request: Request)

  /** `{ params: params }` */
  function ParamsConfig(params: Props): Props {
    Objects.Put(Objects.Empty, "params", Obj(params))
  }

  /** `/contract/${network}/${address}` followed by the rest of the path. */
  function ContractUrl(network: string, address: string, rest: string): string {
    "/contract/" + network + "/" + address + rest
  }

  /** `/account/${network}/${address}` followed by the rest of the path. */
  function AccountUrl(network: string, address: string, rest: string): string {
    "/account/" + network + "/" + address + rest
  }

  /** A cancellable GET with no configuration. */
  function PlainGet(url: string): Request {
    Request(Cancellable, HttpGet, url, None, Objects.Empty)
  }

  class BetterCallApi {
    const baseURL: string
    /** The requests issued so far, oldest first. */
    var sent: seq<Action>

    constructor (baseURL: string)
      ensures this.baseURL == baseURL && sent == []
    {
      this.baseURL := baseURL;
      sent := [];
    }

    /** Issue one request. */
    method Issue(r: Request)
      modifies this
      ensures sent == old(sent) + [Send(r)]
    {
      sent := sent + [Send(r)];
    }

    // ----- wrappers with a parameter builder -----

    /** `search` (bcd.js:48-77) */
    method Search(reply: Settled, text: string, indices: seq<string> := [], offset: int := 0,
                  networks: seq<string> := [], languages: seq<string> := [], time: Props := Objects.Empty,
                  group: int := 0) returns (o: Outcome)
      modifies this
      ensures sent == old(sent) + [Send(Request(Direct, HttpGet, "/search", None,
                ParamsConfig(SearchQuery(text, indices, offset, networks, languages, time, group))))]
      ensures o == Endpoints.Handle(Endpoints.Search, reply)
    {
      var params := new ParamObject.Literal(Objects.Put(Objects.Empty, "q", Str(text)));
      if offset > 0 {
        params.Set("o", Num(offset));
      }
      if |indices| > 0 {
        params.Set("i", Str(Join(indices, ',')));
      }
      if |networks| > 0 {
        params.Set("n", Str(Join(networks, ',')));
      }
      if |languages| > 0 {
        params.Set("l", Str(Join(languages, ',')));
      }
      if group >= 0 {
        params.Set("g", Num(1));
      }
      assert params.props == SearchParams(text, indices, offset, networks, languages, group);
      params.Assign(time);
      Issue(Request(Direct, HttpGet, "/search", None, ParamsConfig(params.props)));
      o := Endpoints.Handle(Endpoints.Search, reply);
    }

    /** `getContract` (bcd.js:90-105) */
    method GetContract(reply: Settled, jwt: Value, network: string, address: string) returns (o: Outcome)
      modifies this
      ensures sent == old(sent) + [Send(Request(Cancellable, HttpGet, ContractUrl(network, address, ""), None,
                ContractConfig(jwt)))]
      ensures o == Endpoints.Handle(Endpoints.GetContract, reply)
    {
      var params := new ParamObject();
      var token := jwt;
      if Truthy(token) {
        params.Set("headers", Obj(Objects.Put(Objects.Empty, "Authorization", token)));
      }
      Issue(Request(Cancellable, HttpGet, ContractUrl(network, address, ""), None, params.props));
      o := Endpoints.Handle(Endpoints.GetContract, reply);
    }

    /** `getSameContracts` (bcd.js:108-121) */
    method GetSameContracts(reply: Settled, network: string, address: string, offset: int := 0)
      returns (o: Outcome)
      modifies this
      ensures sent == old(sent) + [Send(Request(Cancellable, HttpGet, ContractUrl(network, address, "/same"),
                None, ParamsConfig(OffsetParams(offset))))]
      ensures o == Endpoints.Handle(Endpoints.GetSameContracts, reply)
    {
      var params := new ParamObject();
      if offset > 0 {
        params.Set("offset", Num(offset));
      }
      Issue(Request(Cancellable, HttpGet, ContractUrl(network, address, "/same"), None, ParamsConfig(params.props)));
      o := Endpoints.Handle(Endpoints.GetSameContracts, reply);
    }

    /** `getSimilarContracts` (bcd.js:123-136) */
    method GetSimilarContracts(reply: Settled, network: string, address: string, offset: int := 0)
      returns (o: Outcome)
      modifies this
      ensures sent == old(sent) + [Send(Request(Cancellable, HttpGet, ContractUrl(network, address, "/similar"),
                None, ParamsConfig(OffsetParams(offset))))]
      ensures o == Endpoints.Handle(Endpoints.GetSimilarContracts, reply)
    {
      var params := new ParamObject();
      if offset > 0 {
        params.Set("offset", Num(offset));
      }
      Issue(Request(Cancellable, HttpGet, ContractUrl(network, address, "/similar"), None,
        ParamsConfig(params.props)));
      o := Endpoints.Handle(Endpoints.GetSimilarContracts, reply);
    }

    /** `getContractOperations` (bcd.js:138-167) */
    method GetContractOperations(reply: Settled, network: string, address: string, lastId: string := "",
                                 from: int := 0, to: int := 0, statuses: seq<string> := [],
                                 entrypoints: seq<string> := [], withStorageDiff: Value := Bool(true))
      returns (o: Outcome)
      modifies this
      ensures sent == old(sent) + [Send(Request(Cancellable, HttpGet, ContractUrl(network, address, "/operations"),
                None, ParamsConfig(ContractOperationsParams(lastId, from, to, statuses, entrypoints,
                                                              withStorageDiff))))]
      ensures o == Endpoints.Handle(Endpoints.GetContractOperations, reply)
    {
      var params := new ParamObject();
      if lastId != "" {
        params.Set("last_id", Str(lastId));
      }
      if from != 0 {
        params.Set("from", Num(from));
      }
      if to != 0 {
        params.Set("to", Num(to));
      }
      if |statuses| > 0 && |statuses| < 4 {
        params.Set("status", Str(Join(statuses, ',')));
      }
      if |entrypoints| > 0 {
        params.Set("entrypoints", Str(Join(entrypoints, ',')));
      }
      params.Set("with_storage_diff", withStorageDiff);
      Issue(Request(Cancellable, HttpGet, ContractUrl(network, address, "/operations"), None,
        ParamsConfig(params.props)));
      o := Endpoints.Handle(Endpoints.GetContractOperations, reply);
    }

    /** `getAccountTransfers` (bcd.js:210-234); `None` stands for a null `contracts`. */
    method GetAccountTransfers(reply: Settled, network: string, address: string, tokenId: int := -1,
                               contracts: Option<seq<string>> := Some([]), size: int := MaxSize,
                               lastId: string := "") returns (o: Outcome)
      modifies this
      ensures sent == old(sent) + [Send(Request(Cancellable, HttpGet, "/tokens/" + network + "/transfers/" + address,
                None, ParamsConfig(AccountTransfersParams(tokenId, contracts, size, lastId))))]
      ensures o == Endpoints.Handle(Endpoints.GetAccountTransfers, reply)
    {
      var params := new ParamObject();
      if tokenId > -1 {
        params.Set("token_id", Num(tokenId));
      }
      if size > 0 {
        params.Set("size", Num(size));
      }
      if StrLess("", lastId) {
        params.Set("last_id", Str(lastId));
      }
      if contracts.Some? && |contracts.value| > 0 {
        params.Set("contracts", Str(Join(contracts.value, ',')));
      }
      Issue(Request(Cancellable, HttpGet, "/tokens/" + network + "/transfers/" + address, None,
        ParamsConfig(params.props)));
      o := Endpoints.Handle(Endpoints.GetAccountTransfers, reply);
    }

    /** `getContractCode` (bcd.js:236-253) */
    method GetContractCode(reply: Settled, network: string, address: string, protocol: string := "",
                           level: int := 0) returns (o: Outcome)
      modifies this
      ensures sent == old(sent) + [Send(Request(Cancellable, HttpGet, ContractUrl(network, address, "/code"),
                None, ParamsConfig(ContractCodeParams(protocol, level))))]
      ensures o == Endpoints.Handle(Endpoints.GetContractCode, reply)
    {
      var params := new ParamObject();
      if protocol != "" {
        params.Set("protocol", Str(protocol));
      }
      if level > 0 {
        params.Set("level", Num(level));
      }
      Issue(Request(Cancellable, HttpGet, ContractUrl(network, address, "/code"), None, ParamsConfig(params.props)));
      o := Endpoints.Handle(Endpoints.GetContractCode, reply);
    }

    /** `getContractTransfers` (bcd.js:290-311) */
    method GetContractTransfers(reply: Settled, network: string, address: string, tokenId: int := -1,
                                size: int := MaxSize, offset: int := 0) returns (o: Outcome)
      modifies this
      ensures sent == old(sent) + [Send(Request(Cancellable, HttpGet, ContractUrl(network, address, "/transfers"),
                None, ParamsConfig(ContractTransfersParams(tokenId, size, offset))))]
      ensures o == Endpoints.Handle(Endpoints.GetContractTransfers, reply)
    {
      var params := new ParamObject();
      if tokenId > -1 {
        params.Set("token_id", Num(tokenId));
      }
      if size > 0 {
        params.Set("size", Num(size));
      }
      if offset > 0 {
        params.Set("offset", Num(offset));
      }
      Issue(Request(Cancellable, HttpGet, ContractUrl(network, address, "/transfers"), None,
        ParamsConfig(params.props)));
      o := Endpoints.Handle(Endpoints.GetContractTransfers, reply);
    }

    /** `getContractEntrypointTrace` (bcd.js:339-360); `parseInt` is passed in. */
    method GetContractEntrypointTrace(reply: Settled, parseInt: Value -> Value, network: string, address: string,
                                      name: Value, data: Value, source: Value := Null, amount: Value := Null)
      returns (o: Outcome)
      modifies this
      ensures sent == old(sent) + [Send(Request(Cancellable, HttpPost,
                ContractUrl(network, address, "/entrypoints/" + TraceMethod(source)),
                Some(Obj(TraceBody(name, data, source, amount, parseInt))), Objects.Empty))]
      ensures o == Endpoints.Handle(Endpoints.GetContractEntrypointTrace, reply)
    {
      var body := new ParamObject.Literal(Objects.Put(Objects.Put(Objects.Empty, "name", name), "data", data));
      if Truthy(source) {
        body.Set("source", source);
      }
      if Truthy(amount) {
        body.Set("amount", parseInt(amount));
      }
      var traceMethod := if Truthy(source) then "run_operation" else "trace";
      Issue(Request(Cancellable, HttpPost, ContractUrl(network, address, "/entrypoints/" + traceMethod),
        Some(Obj(body.props)), Objects.Empty));
      o := Endpoints.Handle(Endpoints.GetContractEntrypointTrace, reply);
    }

    /** `getTokensByVersion` (bcd.js:523-538) */
    method GetTokensByVersion(reply: Settled, network: string, version: string, offset: int := 0,
                              size: int := 0) returns (o: Outcome)
      modifies this
      ensures sent == old(sent) + [Send(Request(Cancellable, HttpGet, "/tokens/" + network + "/version/" + version,
                None, ParamsConfig(SizeOffsetParams(offset, size))))]
      ensures o == Endpoints.Handle(Endpoints.GetTokensByVersion, reply)
    {
      var params := new ParamObject();
      if size > 0 {
        params.Set("size", Num(size));
      }
      if offset > 0 {
        params.Set("offset", Num(offset));
      }
      Issue(Request(Cancellable, HttpGet, "/tokens/" + network + "/version/" + version, None,
        ParamsConfig(params.props)));
      o := Endpoints.Handle(Endpoints.GetTokensByVersion, reply);
    }

    /** `listDomains` (bcd.js:827-844) */
    method ListDomains(reply: Settled, network: string, offset: int := 0, size: int := MaxSize)
      returns (o: Outcome)
      modifies this
      ensures sent == old(sent) + [Send(Request(Cancellable, HttpGet, "/domains/" + network, None,
                ParamsConfig(SizeOffsetParams(offset, size))))]
      ensures o == Endpoints.Handle(Endpoints.ListDomains, reply)
    {
      var params := new ParamObject();
      if size > 0 {
        params.Set("size", Num(size));
      }
      if offset > 0 {
        params.Set("offset", Num(offset));
      }
      Issue(Request(Cancellable, HttpGet, "/domains/" + network, None, ParamsConfig(params.props)));
      o := Endpoints.Handle(Endpoints.ListDomains, reply);
    }

    // ----- wrappers that build a URL -----

    /** `params = '?'` and, for a truthy level, `params += 'level=' + level`. */
    static method LevelSuffix(level: Value) returns (params: string)
      ensures params == StorageSuffix(level)
    {
      params := "?";
      if Truthy(level) {
        params := params + "level=" + ToStr(level);
      }
    }

    /** `getContractStorage` (bcd.js:372-385) */
    method GetContractStorage(reply: Settled, network: string, address: string, level: Value := Null)
      returns (o: Outcome)
      modifies this
      ensures sent == old(sent) + [Send(PlainGet(ContractUrl(network, address, "/storage" + StorageSuffix(level))))]
      ensures o == Endpoints.Handle(Endpoints.GetContractStorage, reply)
    {
      var params := LevelSuffix(level);
      Issue(PlainGet(ContractUrl(network, address, "/storage" + params)));
      o := Endpoints.Handle(Endpoints.GetContractStorage, reply);
    }

    /** `getContractStorageRaw` (bcd.js:387-399) */
    method GetContractStorageRaw(reply: Settled, network: string, address: string, level: Value := Null)
      returns (o: Outcome)
      modifies this
      ensures sent == old(sent) + [Send(Request(Direct, HttpGet,
                ContractUrl(network, address, "/storage/raw" + StorageSuffix(level)), None, Objects.Empty))]
      ensures o == Endpoints.Handle(Endpoints.GetContractStorageRaw, reply)
    {
      var params := LevelSuffix(level);
      Issue(Request(Direct, HttpGet, ContractUrl(network, address, "/storage/raw" + params), None, Objects.Empty));
      o := Endpoints.Handle(Endpoints.GetContractStorageRaw, reply);
    }

    /** `getContractStorageRich` (bcd.js:401-413) */
    method GetContractStorageRich(reply: Settled, network: string, address: string, level: Value := Null)
      returns (o: Outcome)
      modifies this
      ensures sent == old(sent) + [Send(Request(Direct, HttpGet,
                ContractUrl(network, address, "/storage/rich" + StorageSuffix(level)), None, Objects.Empty))]
      ensures o == Endpoints.Handle(Endpoints.GetContractStorageRich, reply)
    {
      var params := LevelSuffix(level);
      Issue(Request(Direct, HttpGet, ContractUrl(network, address, "/storage/rich" + params), None, Objects.Empty));
      o := Endpoints.Handle(Endpoints.GetContractStorageRich, reply);
    }

    /** `getRandomContract` (bcd.js:500-510): cancels every pending request first. */
    method GetRandomContract(reply: Settled, network: Value) returns (o: Outcome)
      modifies this
      ensures sent == old(sent) + [CancelAll, Send(PlainGet(RandomContractUrl(network)))]
      ensures o == Endpoints.Handle(Endpoints.GetRandomContract, reply)
    {
      sent := sent + [CancelAll];
      var requestUrl := if Truthy(network) then "/pick_random?network=" + ToStr(network) else "/pick_random";
      Issue(PlainGet(requestUrl));
      o := Endpoints.Handle(Endpoints.GetRandomContract, reply);
    }

    /** `getNetworkStatsSeries` (bcd.js:765-784); `None` stands for a null `addresses`. */
    method GetNetworkStatsSeries(reply: Settled, network: string, index: Value, period: Value,
                                 addresses: Option<seq<string>> := Some([])) returns (o: Outcome)
      modifies this
      ensures sent == old(sent) + [Send(PlainGet(WithQuery("/stats/" + network + "/series",
                StatsSeriesSegments(index, period, addresses))))]
      ensures o == Endpoints.Handle(Endpoints.GetNetworkStatsSeries, reply)
    {
      var params := new SegmentList();
      ghost var address := "address=" + Join(ContractList(addresses), ',');
      if addresses.Some? && |addresses.value| != 0 {
        params.Push("address=" + Join(addresses.value, ','));
      }
      assert params.items == Objects.When(addresses.Some? && |addresses.value| != 0, address);
      if Truthy(period) {
        params.Push("period=" + ToStr(period));
      }
      assert params.items == Objects.When(addresses.Some? && |addresses.value| != 0, address)
        + Objects.When(Truthy(period), "period=" + ToStr(period));
      if Truthy(index) {
        params.Push("name=" + ToStr(index));
      }
      assert params.items == StatsSeriesSegments(index, period, addresses);
      Issue(PlainGet("/stats/" + network + "/series" + "?" + params.Joined()));
      o := Endpoints.Handle(Endpoints.GetNetworkStatsSeries, reply);
    }

    /** `resolveDomain` (bcd.js:846-857) */
    method ResolveDomain(reply: Settled, network: string, address: string) returns (o: Outcome)
      modifies this
      ensures sent == old(sent) + [Send(PlainGet("/domains/" + network + "/resolve?address=" + address))]
      ensures o == Endpoints.Handle(Endpoints.ResolveDomain, reply)
    {
      Issue(PlainGet("/domains/" + network + "/resolve?address=" + address));
      o := Endpoints.Handle(Endpoints.ResolveDomain, reply);
    }

    /** `getTokenVolumeSeries` (bcd.js:859-879) */
    method GetTokenVolumeSeries(reply: Settled, network: string, period: Value, contract: Value, tokenId: Value,
                                slug: string := "") returns (o: Outcome)
      modifies this
      ensures sent == old(sent) + [Send(PlainGet(WithQuery("/tokens/" + network + "/series",
                TokenVolumeSegments(period, contract, tokenId, slug))))]
      ensures o == Endpoints.Handle(Endpoints.GetTokenVolumeSeries, reply)
    {
      var params := new SegmentList();
      params.Push("contract=" + ToStr(contract));
      params.Push("period=" + ToStr(period));
      params.Push("token_id=" + ToStr(tokenId));
      assert params.items == ["contract=" + ToStr(contract), "period=" + ToStr(period), "token_id=" + ToStr(tokenId)];
      if slug != "" {
        params.Push("slug=" + slug);
      }
      assert params.items == TokenVolumeSegments(period, contract, tokenId, slug);
      Issue(PlainGet("/tokens/" + network + "/series" + "?" + params.Joined()));
      o := Endpoints.Handle(Endpoints.GetTokenVolumeSeries, reply);
    }

    /** The `limit`/`offset` segments of the two compilation lists. */
    static method LimitOffset(limit: int, offset: int) returns (params: SegmentList)
      ensures fresh(params) && params.items == LimitOffsetSegments(limit, offset)
    {
      params := new SegmentList();
      if limit > 0 {
        params.Push("limit=" + IntToString(limit));
      }
      if offset > 0 {
        params.Push("offset=" + IntToString(offset));
      }
    }

    /** `getProfileCompilations` (bcd.js:923-942) */
    method GetProfileCompilations(reply: Settled, jwt: Value, limit: int := 0, offset: int := 0)
      returns (o: Outcome)
      modifies this
      ensures sent == old(sent) + [Send(Request(Cancellable, HttpGet,
                WithQuery("/profile/compilations", LimitOffsetSegments(limit, offset)), None, ProfileConfig(jwt)))]
      ensures o == Endpoints.Handle(Endpoints.GetProfileCompilations, reply)
    {
      var params := LimitOffset(limit, offset);
      Issue(Request(Cancellable, HttpGet, "/profile/compilations" + "?" + params.Joined(), None, ProfileConfig(jwt)));
      o := Endpoints.Handle(Endpoints.GetProfileCompilations, reply);
    }

    /** `getDeploymentList` (bcd.js:978-997) */
    method GetDeploymentList(reply: Settled, jwt: Value, limit: int, offset: int) returns (o: Outcome)
      modifies this
      ensures sent == old(sent) + [Send(Request(Cancellable, HttpGet,
                WithQuery("/profile/compilations/deployment", LimitOffsetSegments(limit, offset)), None,
                ProfileConfig(jwt)))]
      ensures o == Endpoints.Handle(Endpoints.GetDeploymentList, reply)
    {
      var params := LimitOffset(limit, offset);
      Issue(Request(Cancellable, HttpGet, "/profile/compilations/deployment" + "?" + params.Joined(), None,
        ProfileConfig(jwt)));
      o := Endpoints.Handle(Endpoints.GetDeploymentList, reply);
    }

    // ----- wrappers without a builder -----

    /** `getAccountInfo` (bcd.js:169-180) */
    method GetAccountInfo(reply: Settled, network: string, address: string) returns (o: Outcome)
      modifies this
      ensures sent == old(sent) + [Send(PlainGet(AccountUrl(network, address, "")))]
      ensures o == Endpoints.Handle(Endpoints.GetAccountInfo, reply)
    {
      Issue(PlainGet(AccountUrl(network, address, "")));
      o := Endpoints.Handle(Endpoints.GetAccountInfo, reply);
    }

    /** `getAccountTokenBalances` (bcd.js:182-195) */
    method GetAccountTokenBalances(reply: Settled, network: string, address: string, offset: int := 0,
                                   size: int := MaxSize) returns (o: Outcome)
      modifies this
      ensures sent == old(sent) + [Send(Request(Cancellable, HttpGet, AccountUrl(network, address, "/token_balances"),
                None, ParamsConfig(PageQuery(offset, size))))]
      ensures o == Endpoints.Handle(Endpoints.GetAccountTokenBalances, reply)
    {
      Issue(Request(Cancellable, HttpGet, AccountUrl(network, address, "/token_balances"), None,
        ParamsConfig(PageQuery(offset, size))));
      o := Endpoints.Handle(Endpoints.GetAccountTokenBalances, reply);
    }

    /** `getAccountMetadata` (bcd.js:197-208) */
    method GetAccountMetadata(reply: Settled, network: string, address: string) returns (o: Outcome)
      modifies this
      ensures sent == old(sent) + [Send(PlainGet(AccountUrl(network, address, "/metadata")))]
      ensures o == Endpoints.Handle(Endpoints.GetAccountMetadata, reply)
    {
      Issue(PlainGet(AccountUrl(network, address, "/metadata")));
      o := Endpoints.Handle(Endpoints.GetAccountMetadata, reply);
    }

    /** `getContractTokens` (bcd.js:266-277) */
    method GetContractTokens(reply: Settled, network: string, address: string, offset: int := 0,
                             size: int := MaxSize) returns (o: Outcome)
      modifies this
      ensures sent == old(sent) + [Send(Request(Cancellable, HttpGet, ContractUrl(network, address, "/tokens"),
                None, ParamsConfig(PageQuery(offset, size))))]
      ensures o == Endpoints.Handle(Endpoints.GetContractTokens, reply)
    {
      Issue(Request(Cancellable, HttpGet, ContractUrl(network, address, "/tokens"), None,
        ParamsConfig(PageQuery(offset, size))));
      o := Endpoints.Handle(Endpoints.GetContractTokens, reply);
    }

    // ----- the profile family: always the token header, and the 401 `.catch` -----

    /** `vote` (bcd.js:570-592) */
    method Vote(reply: Settled, jwt: Value, sn: Value, sa: Value, dn: Value, da: Value, vote: Value)
      returns (o: Outcome)
      modifies this
      ensures sent == old(sent) + [Send(Request(Direct, HttpPost, "/profile/vote", Some(Obj(VoteBody(sn, sa, dn, da, vote))),
                ProfileConfig(jwt)))]
      ensures o == Endpoints.Handle(Endpoints.Vote, reply)
    {
      Issue(Request(Direct, HttpPost, "/profile/vote", Some(Obj(VoteBody(sn, sa, dn, da, vote))), ProfileConfig(jwt)));
      o := Endpoints.Handle(Endpoints.Vote, reply);
    }

    /** `getTasks` (bcd.js:594-610) */
    method GetTasks(reply: Settled, jwt: Value) returns (o: Outcome)
      modifies this
      ensures sent == old(sent) + [Send(Request(Direct, HttpGet, "/profile/vote/tasks", None, ProfileConfig(jwt)))]
      ensures o == Endpoints.Handle(Endpoints.GetTasks, reply)
    {
      Issue(Request(Direct, HttpGet, "/profile/vote/tasks", None, ProfileConfig(jwt)));
      o := Endpoints.Handle(Endpoints.GetTasks, reply);
    }

    /** `generateTasks` (bcd.js:612-628) */
    method GenerateTasks(reply: Settled, jwt: Value) returns (o: Outcome)
      modifies this
      ensures sent == old(sent) + [Send(Request(Direct, HttpGet, "/profile/vote/generate", None, ProfileConfig(jwt)))]
      ensures o == Endpoints.Handle(Endpoints.GenerateTasks, reply)
    {
      Issue(Request(Direct, HttpGet, "/profile/vote/generate", None, ProfileConfig(jwt)));
      o := Endpoints.Handle(Endpoints.GenerateTasks, reply);
    }

    /** `getProfile` (bcd.js:630-646) */
    method GetProfile(reply: Settled, jwt: Value) returns (o: Outcome)
      modifies this
      ensures sent == old(sent) + [Send(Request(Direct, HttpGet, "/profile", None, ProfileConfig(jwt)))]
      ensures o == Endpoints.Handle(Endpoints.GetProfile, reply)
    {
      Issue(Request(Direct, HttpGet, "/profile", None, ProfileConfig(jwt)));
      o := Endpoints.Handle(Endpoints.GetProfile, reply);
    }

    /** `profileMarkAllRead` (bcd.js:648-664) */
    method ProfileMarkAllRead(reply: Settled, jwt: Value, timestamp: Value) returns (o: Outcome)
      modifies this
      ensures sent == old(sent) + [Send(Request(Direct, HttpPost, "/profile/mark_all_read",
                Some(Obj(MarkAllReadBody(timestamp))), ProfileConfig(jwt)))]
      ensures o == Endpoints.Handle(Endpoints.ProfileMarkAllRead, reply)
    {
      Issue(Request(Direct, HttpPost, "/profile/mark_all_read", Some(Obj(MarkAllReadBody(timestamp))),
        ProfileConfig(jwt)));
      o := Endpoints.Handle(Endpoints.ProfileMarkAllRead, reply);
    }

    /** `getProfileSubscriptions` (bcd.js:666-681) */
    method GetProfileSubscriptions(reply: Settled, jwt: Value) returns (o: Outcome)
      modifies this
      ensures sent == old(sent) + [Send(Request(Direct, HttpGet, "/profile/subscriptions", None, ProfileConfig(jwt)))]
      ensures o == Endpoints.Handle(Endpoints.GetProfileSubscriptions, reply)
    {
      Issue(Request(Direct, HttpGet, "/profile/subscriptions", None, ProfileConfig(jwt)));
      o := Endpoints.Handle(Endpoints.GetProfileSubscriptions, reply);
    }

    /** `addProfileSubscription` (bcd.js:683-699) */
    method AddProfileSubscription(reply: Settled, jwt: Value, subscription: Value) returns (o: Outcome)
      modifies this
      ensures sent == old(sent) + [Send(Request(Direct, HttpPost, "/profile/subscriptions", Some(subscription),
                ProfileConfig(jwt)))]
      ensures o == Endpoints.Handle(Endpoints.AddProfileSubscription, reply)
    {
      Issue(Request(Direct, HttpPost, "/profile/subscriptions", Some(subscription), ProfileConfig(jwt)));
      o := Endpoints.Handle(Endpoints.AddProfileSubscription, reply);
    }

    /** `removeProfileSubscription` (bcd.js:701-719) */
    method RemoveProfileSubscription(reply: Settled, jwt: Value, network: Value, address: Value)
      returns (o: Outcome)
      modifies this
      ensures sent == old(sent) + [Send(Request(Direct, HttpDelete, "/profile/subscriptions", None,
                RemoveSubscriptionConfig(jwt, network, address)))]
      ensures o == Endpoints.Handle(Endpoints.RemoveProfileSubscription, reply)
    {
      Issue(Request(Direct, HttpDelete, "/profile/subscriptions", None, RemoveSubscriptionConfig(jwt, network, address)));
      o := Endpoints.Handle(Endpoints.RemoveProfileSubscription, reply);
    }

    /** `getProfileEvents` (bcd.js:721-741) */
    method GetProfileEvents(reply: Settled, jwt: Value, offset: int := 0) returns (o: Outcome)
      modifies this
      ensures sent == old(sent) + [Send(Request(Direct, HttpGet, "/profile/subscriptions/events", None,
                ProfileEventsConfig(jwt, offset)))]
      ensures o == Endpoints.Handle(Endpoints.GetProfileEvents, reply)
    {
      Issue(Request(Direct, HttpGet, "/profile/subscriptions/events", None, ProfileEventsConfig(jwt, offset)));
      o := Endpoints.Handle(Endpoints.GetProfileEvents, reply);
    }
  }
}

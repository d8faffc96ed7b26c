/** Every endpoint wrapper of `BetterCallApi`, and how it classifies what the
    transport produced: which `.then` handler it attaches and whether it
    also attaches the 401 `.catch`. */
module Endpoints {
  import opened Values
  import opened Responses

  datatype Endpoint =
    | GetConfig | Search | GetHead | GetContract | GetSameContracts | GetSimilarContracts
    | GetContractOperations | GetAccountInfo | GetAccountTokenBalances | GetAccountMetadata
    | GetAccountTransfers | GetContractCode | GetContractMigrations | GetContractTokens
    | GetContractTokensCount | GetContractTransfers | GetContractEntrypoints
    | GetContractEntrypointData | GetContractEntrypointTrace | GetContractEntrypointSchema
    | GetContractStorage | GetContractStorageRaw | GetContractStorageRich | GetContractStorageSchema
    | PrepareToFork | GetContractMempool | GetContractBigMap | GetContractBigMapDiffsCount
    | GetContractBigMapKeys | GetContractBigMapActions | GetContractBigMapHistory
    | GetRandomContract | GetContractsStats | GetTokensByVersion | GetDiff | GetProjects | GetOPG
    | Vote | GetTasks | GenerateTasks | GetProfile | ProfileMarkAllRead | GetProfileSubscriptions
    | AddProfileSubscription | RemoveProfileSubscription | GetProfileEvents
    | GetStats | GetNetworkStats | GetNetworkStatsSeries | GetErrorLocation
    | GetContractBySlug | GetDApps | GetDApp | ListDomains | ResolveDomain | GetTokenVolumeSeries
    | GetProfileAccounts | GetProfileRepos | GetProfileRefs | GetProfileCompilations
    | GetVerificationList | VerifyContract | GetDeploymentList | DeployContract
    | FinalizeDeployContract | GetMetadataViewsSchema | ExecuteMetadataView | GetTokenHoldersList

  /** The wrappers that go to the voting and subscription part of the profile
      API: the ones that attach the 401 `.catch`. */
  predicate ProfileFamily(e: Endpoint) {
    e in {Vote, GetTasks, GenerateTasks, GetProfile, ProfileMarkAllRead, GetProfileSubscriptions,
          AddProfileSubscription, RemoveProfileSubscription, GetProfileEvents}
  }

  /** The `.then` handler each wrapper attaches. */
  function HandlerOf(e: Endpoint): Handler {
    match e
    case GetConfig | GetHead | GetContract | GetSameContracts | GetSimilarContracts
       | GetContractOperations | GetAccountTransfers | GetContractMigrations | GetContractTokens
       | GetContractTokensCount | GetContractTransfers | GetContractEntrypoints
       | GetContractEntrypointTrace | GetContractStorage | GetContractMempool | GetContractBigMap
       | GetContractBigMapDiffsCount | GetContractBigMapKeys | GetContractBigMapActions
       | GetContractsStats | GetStats | GetNetworkStats | GetNetworkStatsSeries | GetErrorLocation
       | GetTokenVolumeSeries => Guarded
    case GetAccountInfo | GetAccountTokenBalances => GuardedNull
    case GetAccountMetadata => Metadata
    case ResolveDomain => Domain
    case GetContractEntrypointData => Raw
    case Vote | GetTasks | GenerateTasks | GetProfile | ProfileMarkAllRead | GetProfileSubscriptions
       | AddProfileSubscription | RemoveProfileSubscription | GetProfileEvents => DataOnly
    case Search | GetContractCode | GetContractEntrypointSchema | GetContractStorageRaw
       | GetContractStorageRich | GetContractStorageSchema | PrepareToFork | GetContractBigMapHistory
       | GetRandomContract | GetTokensByVersion | GetDiff | GetProjects | GetOPG
       | GetContractBySlug | GetDApps | GetDApp | ListDomains
       | GetProfileAccounts | GetProfileRepos | GetProfileRefs | GetProfileCompilations
       | GetVerificationList | VerifyContract | GetDeploymentList | DeployContract
       | FinalizeDeployContract | GetMetadataViewsSchema | ExecuteMetadataView
       | GetTokenHoldersList => Strict
  }

  /** What the wrapper's promise settles with, given how the transport settled. */
  function Handle(e: Endpoint, s: Settled): (o: Outcome)
    ensures o.Unauthorized? ==> ProfileFamily(e) && s.Rejected?
  {
    var settled := Chain(HandlerOf(e), s);
    if ProfileFamily(e) then Catch401(settled) else settled
  }

  /** The wrappers that catch 401 are exactly the ones that skip the status check. */
  lemma ProfileFamilyShape(e: Endpoint)
    ensures ProfileFamily(e) <==> HandlerOf(e) == DataOnly
  {
  }

  /** An UnauthorizedError comes out exactly when a profile wrapper's request
      is rejected with a response whose status is 401. */
  lemma UnauthorizedExactly(e: Endpoint, s: Settled)
    ensures Handle(e, s).Unauthorized? <==>
      ProfileFamily(e) && s.Rejected? && s.err.response.Some? && s.err.response.value.status == 401
  {
  }

  /** Every other rejection comes out unchanged, on every wrapper. */
  lemma RejectionsPassThrough(e: Endpoint, s: Settled)
    requires s.Rejected?
    requires !(ProfileFamily(e) && s.err.response.Some? && s.err.response.value.status == 401)
    ensures Handle(e, s) == Rethrown(s.err)
  {
  }

  /** Status 200 gives the body, on every wrapper; getContractEntrypointData
      gives the raw response instead. */
  lemma OkGivesData(e: Endpoint, r: HttpResponse)
    requires r.status == 200
    ensures Handle(e, Resolved(Got(r))) == Data(if e == GetContractEntrypointData then r.raw else r.data)
  {
  }

  /** Outside the profile family, every status other than 200 fails with a
      RequestFailedError whose code is that status, except that status 204 is
      a success for getAccountMetadata and resolveDomain. */
  lemma OtherStatusFails(e: Endpoint, r: HttpResponse)
    requires !ProfileFamily(e) && r.status != 200
    requires !(r.status == 204 && (e == GetAccountMetadata || e == ResolveDomain))
    ensures Handle(e, Resolved(Got(r))).Failed?
    ensures Handle(e, Resolved(Got(r))).failure == RequestFailedError(ResponseText, r.status)
  {
  }

  /** The profile family returns the body whatever the status of a resolved response. */
  lemma ProfileIgnoresStatus(e: Endpoint, r: HttpResponse)
    requires ProfileFamily(e)
    ensures Handle(e, Resolved(Got(r))) == Data(r.data)
  {
  }

  /** Status 204: `null` for getAccountMetadata, `{}` for resolveDomain, the
      body for the profile family, and a failure with code 204 everywhere else. */
  lemma NoContent(e: Endpoint, r: HttpResponse)
    requires r.status == 204
    ensures Handle(e, Resolved(Got(r))) ==
      if e == GetAccountMetadata then NullResult
      else if e == ResolveDomain then EmptyObj
      else if ProfileFamily(e) then Data(r.data)
      else Failed(RequestFailedError(ResponseText, 204))
  {
  }

  /** A cancelled request: the guarded wrappers hand the falsy result back,
      getAccountInfo, getAccountTokenBalances and getAccountMetadata give
      `null`, and every wrapper without a guard fails reading its `status`
      or `data`. */
  lemma CancelledRequest(e: Endpoint)
    ensures Handle(e, Resolved(Absent)) ==
      if HandlerOf(e) == Guarded || e == GetContractEntrypointData then Passthrough
      else if e in {GetAccountInfo, GetAccountTokenBalances, GetAccountMetadata} then NullResult
      else TypeFault
  {
  }
}

/** `Config.Validate` and `CoordinatorConfig.Validate`, with the built-in client factory registered. */
module ConfigCheck {
  import opened Basics
  import opened LoadConfig
  import KVStore

  datatype ConfigError =
    | NoClientFactory | UnknownClientFactory | FactoryRejects(reason: KVStore.KVError)
    | BadConnections | BadTime | BadSendPeriod | BadRate | BadCount | BadBroadcastTxMethod | NoEndpoints
    | BadEndpointSelectMethod | BadExpectPeers | BadPeerConnectTimeout | BadMaxEndpoints | BadMinConnectivity
    | NoBindAddr | BadExpectWorkers | BadWorkerConnectTimeout | BadLoadTestID

  function Validate(c: Config): Result<(), ConfigError> {
    if c.clientFactory == "" then Err(NoClientFactory)
    else if c.clientFactory != "kvstore" then Err(UnknownClientFactory)
    else if KVStore.ValidateConfig(c).Err? then Err(FactoryRejects(KVStore.ValidateConfig(c).error))
    else if c.connections < 1 then Err(BadConnections)
    else if c.time < 1 then Err(BadTime)
    else if c.sendPeriod < 1 then Err(BadSendPeriod)
    else if c.rate < 1 then Err(BadRate)
    else if c.count < 1 && c.count != -1 then Err(BadCount)
    else if c.broadcastTxMethod !in {"async", "sync", "commit"} then Err(BadBroadcastTxMethod)
    else if c.endpoints == [] then Err(NoEndpoints)
    else if c.endpointSelectMethod !in {"supplied", "discovered", "any"} then Err(BadEndpointSelectMethod)
    else if c.expectPeers < 0 then Err(BadExpectPeers)
    else if c.expectPeers > 0 && c.peerConnectTimeout < 1 then Err(BadPeerConnectTimeout)
    else if c.maxEndpoints < 0 then Err(BadMaxEndpoints)
    else if c.minConnectivity < 0 then Err(BadMinConnectivity)
    else Ok(())
  }

  function ValidateCoordinator(c: CoordinatorConfig): Result<(), ConfigError> {
    if c.bindAddr == "" then Err(NoBindAddr)
    else if c.expectWorkers < 1 then Err(BadExpectWorkers)
    else if c.workerConnectTimeout < 1 then Err(BadWorkerConnectTimeout)
    else if c.loadTestID < 0 then Err(BadLoadTestID)
    else Ok(())
  }

  /** What the send loop and the transactor group rely on once a configuration has been validated. */
  ghost predicate Usable(c: Config) {
    c.rate >= 1 && c.size > 0 && c.connections >= 1 && |c.endpoints| >= 1 && (c.count == -1 || c.count >= 1)
  }

  lemma ValidIsUsable(c: Config)
    requires Validate(c).Ok?
    ensures Usable(c)
  {
  }

  /** Acceptance, field by field. */
  lemma ValidExactly(c: Config)
    ensures Validate(c).Ok? <==>
      && c.clientFactory == "kvstore" && KVStore.ValidateConfig(c).Ok?
      && c.connections >= 1 && c.time >= 1 && c.sendPeriod >= 1 && c.rate >= 1
      && (c.count >= 1 || c.count == -1)
      && (c.broadcastTxMethod == "async" || c.broadcastTxMethod == "sync" || c.broadcastTxMethod == "commit")
      && |c.endpoints| >= 1
      && (c.endpointSelectMethod == "supplied" || c.endpointSelectMethod == "discovered" || c.endpointSelectMethod == "any")
      && c.expectPeers >= 0 && (c.expectPeers > 0 ==> c.peerConnectTimeout >= 1)
      && c.maxEndpoints >= 0 && c.minConnectivity >= 0
  {
    hide KVStore.ValidateConfig;
  }

  lemma ValidCoordinatorExactly(c: CoordinatorConfig)
    ensures ValidateCoordinator(c).Ok? <==>
      |c.bindAddr| >= 1 && c.expectWorkers >= 1 && c.workerConnectTimeout >= 1 && c.loadTestID >= 0
  {
  }
}

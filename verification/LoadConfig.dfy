/** The configuration values of `config.go` and the transaction estimate derived from them. */
module LoadConfig {

  datatype Config = Config(
    clientFactory: string,
    connections: int,
    time: int,
    sendPeriod: int,
    rate: int,
    size: int,
    count: int,
    broadcastTxMethod: string,
    endpoints: seq<string>,
    endpointSelectMethod: string,
    expectPeers: int,
    maxEndpoints: int,
    minConnectivity: int,
    peerConnectTimeout: int)

  datatype CoordinatorConfig = CoordinatorConfig(
    bindAddr: string,
    expectWorkers: int,
    workerConnectTimeout: int,
    loadTestID: int)

  const TWO_TO_THE_64: nat := 0x1_0000_0000_0000_0000

  /** Go's conversion of a signed integer to `uint64`: two's complement, hence modulo 2^64. */
  function AsUint64(x: int): (r: nat) {
    x % TWO_TO_THE_64
  }

  /** The product is taken in `uint64`, so it wraps. */
  function MaxTxsPerEndpoint(c: Config): (r: nat)
    ensures r < TWO_TO_THE_64
  {
    if c.count > -1 then AsUint64(c.count)
    else (AsUint64(c.rate) * AsUint64(c.time)) % TWO_TO_THE_64
  }

  lemma SmallRemainder(x: nat, m: nat)
    requires m > 0
    ensures x % m == x <==> x < m
    ensures x % m <= x
  {
  }

  /**
   * The estimate against the number of transactions that a configuration with in-range fields really allows: a given
   * count is taken as it is; `rate * time` is estimated exactly if and only if it is below 2^64, and is otherwise
   * underestimated.
   */
  lemma EstimateExactly(c: Config)
    requires c.count < TWO_TO_THE_64
    requires 0 <= c.rate < TWO_TO_THE_64 && 0 <= c.time < TWO_TO_THE_64
    ensures c.count > -1 ==> MaxTxsPerEndpoint(c) == c.count
    ensures c.count <= -1 ==> (MaxTxsPerEndpoint(c) == c.rate * c.time <==> c.rate * c.time < TWO_TO_THE_64)
    ensures c.count <= -1 ==> MaxTxsPerEndpoint(c) <= c.rate * c.time
  {
    SmallRemainder(c.rate, TWO_TO_THE_64);
    SmallRemainder(c.time, TWO_TO_THE_64);
    if c.count > -1 {
      SmallRemainder(c.count, TWO_TO_THE_64);
    } else {
      assert AsUint64(c.rate) * AsUint64(c.time) == c.rate * c.time;
      SmallRemainder(c.rate * c.time, TWO_TO_THE_64);
    }
  }
}

/** The kvstore client: how long its key suffixes are and how its transactions are laid out. */
module KVStore {
  import opened Basics
  import opened LoadConfig

  newtype byte = x: int | 0 <= x < 256

  const CLIENT_ID_LEN: nat := 5
  const MIN_VALUE_LEN: nat := 1
  const EQUALS: byte := 61

  const MAX_TXS_BY_SUFFIX_LEN: seq<nat> := [
    0, 62, 1891, 37820, 557845, 6471002, 61474519, 491796152, 3381098545, 20286591270, 107518933731,
    508271323092, 2160153123141, 8308281242850, 29078984349975, 93052749919920]

  const NUM_CHARS: nat := 62

  /** The ASCII code of the i-th of the 62 characters '0'..'9', 'A'..'Z', 'a'..'z'. */
  function CharAt(i: nat): byte
    requires i < NUM_CHARS
  {
    if i < 10 then (48 + i) as byte else if i < 36 then (65 + (i - 10)) as byte else (97 + (i - 36)) as byte
  }

  ghost predicate IsLetter(c: byte) {
    48 <= c <= 57 || 65 <= c <= 90 || 97 <= c <= 122
  }

  datatype KVError = NoEstimate | TooManyTransactions | SizeTooSmall(minTxSize: nat)

  // ------------------------------------------------------------ the binomial table

  function Binom(n: nat, r: nat): nat {
    if r == 0 then 1 else if n == 0 then 0 else Binom(n - 1, r - 1) + Binom(n - 1, r)
  }

  function Pow(b: nat, e: nat): nat {
    if e == 0 then 1 else b * Pow(b, e - 1)
  }

  lemma {:induction false} BinomZero(n: nat, r: nat)
    requires n < r
    ensures Binom(n, r) == 0
  {
    if n > 0 {
      BinomZero(n - 1, r - 1);
      BinomZero(n - 1, r);
    }
  }

  lemma RowArithmetic(n: nat, r: nat, left: nat, mid: nat, right: nat)
    requires r < n
    requires (r + 1) * right == (n - 1 - r) * mid
    requires r * mid == (n - r) * left
    ensures (r + 1) * (mid + right) == (n - r) * (left + mid)
  {
    calc {
      (r + 1) * (mid + right);
      (r + 1) * mid + (r + 1) * right;
      n * mid;
      (n - r) * mid + r * mid;
      (n - r) * (left + mid);
    }
  }

  /** The multiplicative recurrence of a row of Pascal's triangle. */
  lemma {:induction false} BinomRow(n: nat, r: nat)
    requires r <= n
    ensures (r + 1) * Binom(n, r + 1) == (n - r) * Binom(n, r)
    decreases n
  {
    if n == r {
      BinomZero(n, r + 1);
    } else {
      var left, mid, right := if r == 0 then 0 else Binom(n - 1, r - 1), Binom(n - 1, r), Binom(n - 1, r + 1);
      BinomRow(n - 1, r);
      if r > 0 {
        BinomRow(n - 1, r - 1);
      }
      RowArithmetic(n, r, left, mid, right);
      assert Binom(n, r + 1) == mid + right && Binom(n, r) == left + mid;
    }
  }

  lemma MulMono(a: nat, b: nat, c: nat, d: nat)
    requires a <= c && b <= d
    ensures a * b <= c * d
  {
    assert a * b <= c * b;
    assert c * b <= c * d;
  }

  /** In general there are no more r-subsets of n symbols than strings of length r over them. */
  lemma {:induction false} BinomAtMostPower(n: nat, r: nat)
    ensures Binom(n, r) <= Pow(n, r)
    decreases r
  {
    if r > n {
      BinomZero(n, r);
    } else if r > 0 {
      BinomRow(n, r - 1);
      BinomAtMostPower(n, r - 1);
      MulMono(n - (r - 1), Binom(n, r - 1), n, Pow(n, r - 1));
      MulMono(1, Binom(n, r), r, Binom(n, r));
    }
  }

  lemma TableRow(r: nat)
    requires 2 <= r < 16
    ensures r * MAX_TXS_BY_SUFFIX_LEN[r] == (63 - r) * MAX_TXS_BY_SUFFIX_LEN[r - 1]
  {
    assert r == 2 || r == 3 || r == 4 || r == 5 || r == 6 || r == 7 || r == 8 || r == 9 || r == 10
      || r == 11 || r == 12 || r == 13 || r == 14 || r == 15;
  }

  lemma MulCancel(r: nat, a: int, b: int)
    requires r > 0 && r * a == r * b
    ensures a == b
  {
    assert r * (a - b) == 0;
  }

  lemma BinomNone(n: nat)
    ensures Binom(n, 0) == 1
  {
  }

  lemma SameQuotient(r: nat, a: int, b: int, a': int, b': int)
    requires r > 0 && b == b' && r * a == (63 - r) * b && r * a' == (63 - r) * b'
    ensures a == a'
  {
    MulCancel(r, a, a');
  }

  /** Every entry of the table but the first is a binomial coefficient over the 62-letter alphabet. */
  lemma {:induction false} TableIsBinomial(r: nat)
    requires 1 <= r < |MAX_TXS_BY_SUFFIX_LEN|
    ensures MAX_TXS_BY_SUFFIX_LEN[r] == Binom(62, r)
  {
    hide Binom;
    BinomRow(62, r - 1);
    if r == 1 {
      BinomNone(62);
    } else {
      TableIsBinomial(r - 1);
      TableRow(r);
      SameQuotient(r, MAX_TXS_BY_SUFFIX_LEN[r], MAX_TXS_BY_SUFFIX_LEN[r - 1], Binom(62, r), Binom(62, r - 1));
    }
  }

  lemma TableStep(r: nat)
    requires 1 <= r < 16
    ensures MAX_TXS_BY_SUFFIX_LEN[r - 1] < MAX_TXS_BY_SUFFIX_LEN[r]
  {
    assert r == 1 || r == 2 || r == 3 || r == 4 || r == 5 || r == 6 || r == 7 || r == 8 || r == 9 || r == 10
      || r == 11 || r == 12 || r == 13 || r == 14 || r == 15;
  }

  lemma {:induction false} TableIncreasing(i: nat, j: nat)
    requires i <= j < |MAX_TXS_BY_SUFFIX_LEN|
    ensures MAX_TXS_BY_SUFFIX_LEN[i] <= MAX_TXS_BY_SUFFIX_LEN[j]
    decreases j - i
  {
    if i < j {
      TableStep(i + 1);
      TableIncreasing(i + 1, j);
    }
  }

  // ------------------------------------------------------------ the suffix search

  /** The first table position at or after `l` whose entry exceeds `count`. */
  function FirstAbove(count: nat, l: nat): (r: Option<nat>)
    requires l <= |MAX_TXS_BY_SUFFIX_LEN|
    decreases |MAX_TXS_BY_SUFFIX_LEN| - l
  {
    if l == |MAX_TXS_BY_SUFFIX_LEN| then None
    else if count < MAX_TXS_BY_SUFFIX_LEN[l] then Some(l)
    else FirstAbove(count, l + 1)
  }

  /** The value `requiredKVStoreSuffixLen` returns. */
  function SuffixLen(count: nat): (r: Result<nat, KVError>) {
    match FirstAbove(count, 0)
    case Some(l) => Ok(l + 1)
    case None => Err(TooManyTransactions)
  }

  ghost predicate LeastAdequate(count: nat, l: nat) {
    && l < |MAX_TXS_BY_SUFFIX_LEN|
    && count < MAX_TXS_BY_SUFFIX_LEN[l]
    && forall k :: 0 <= k < l ==> MAX_TXS_BY_SUFFIX_LEN[k] <= count
  }

  method RequiredKVStoreSuffixLen(maxTxCount: nat) returns (r: Result<nat, KVError>)
    ensures r == SuffixLen(maxTxCount)
    ensures r.Ok? ==> r.value > 0 && LeastAdequate(maxTxCount, r.value - 1)
    ensures r.Err? ==> forall k :: 0 <= k < |MAX_TXS_BY_SUFFIX_LEN| ==> MAX_TXS_BY_SUFFIX_LEN[k] <= maxTxCount
  {
    var l := 0;
    while l < |MAX_TXS_BY_SUFFIX_LEN|
      invariant 0 <= l <= |MAX_TXS_BY_SUFFIX_LEN|
      invariant forall k :: 0 <= k < l ==> MAX_TXS_BY_SUFFIX_LEN[k] <= maxTxCount
      invariant FirstAbove(maxTxCount, 0) == FirstAbove(maxTxCount, l)
    {
      if maxTxCount < MAX_TXS_BY_SUFFIX_LEN[l] {
        // l + 1 never exceeds the table's length here, so the source's second check cannot fail
        return Ok(l + 1);
      }
      l := l + 1;
    }
    return Err(TooManyTransactions);
  }

  lemma {:induction false} FirstAboveIsLeast(count: nat, l: nat)
    requires l <= |MAX_TXS_BY_SUFFIX_LEN|
    requires forall k :: 0 <= k < l ==> MAX_TXS_BY_SUFFIX_LEN[k] <= count
    ensures FirstAbove(count, l).Some? ==> LeastAdequate(count, FirstAbove(count, l).value)
    ensures FirstAbove(count, l).None? ==>
              forall k :: 0 <= k < |MAX_TXS_BY_SUFFIX_LEN| ==> MAX_TXS_BY_SUFFIX_LEN[k] <= count
    decreases |MAX_TXS_BY_SUFFIX_LEN| - l
  {
    if l < |MAX_TXS_BY_SUFFIX_LEN| && MAX_TXS_BY_SUFFIX_LEN[l] <= count {
      FirstAboveIsLeast(count, l + 1);
    }
  }

  /** Success exactly below the last entry; the answer is one more than the least adequate length. */
  lemma SuffixSearch(count: nat)
    ensures SuffixLen(count).Ok? <==> count < MAX_TXS_BY_SUFFIX_LEN[15]
    ensures forall n :: SuffixLen(count) == Ok(n) <==> n > 0 && LeastAdequate(count, n - 1)
  {
    FirstAboveIsLeast(count, 0);
    if FirstAbove(count, 0).Some? {
      TableIncreasing(FirstAbove(count, 0).value, 15);
    }
    forall n: nat | n > 0 && LeastAdequate(count, n - 1) ensures SuffixLen(count) == Ok(n) {
    }
  }

  lemma SuffixMonotone(a: nat, b: nat)
    requires a <= b && SuffixLen(b).Ok?
    ensures SuffixLen(a).Ok? && SuffixLen(a).value <= SuffixLen(b).value
  {
    SuffixSearch(a);
    SuffixSearch(b);
    var la, lb := SuffixLen(a).value - 1, SuffixLen(b).value - 1;
    assert LeastAdequate(a, la) && LeastAdequate(b, lb);
    assert !(lb < la);
  }

  /** There are more suffixes of the chosen length than 62 times the number of transactions. */
  lemma KeyspaceBound(count: nat)
    requires SuffixLen(count).Ok?
    ensures Pow(62, SuffixLen(count).value) > 62 * count
  {
    SuffixSearch(count);
    var l := SuffixLen(count).value - 1;
    assert LeastAdequate(count, l);
    assert l != 0;
    TableIsBinomial(l);
    BinomAtMostPower(62, l);
    assert Pow(62, l + 1) == 62 * Pow(62, l);
  }

  // ------------------------------------------------------------ configuration and clients

  function ValidateConfig(cfg: Config): (r: Result<(), KVError>) {
    var maxTxs := MaxTxsPerEndpoint(cfg);
    if maxTxs < 1 then Err(NoEstimate) else
    match SuffixLen(maxTxs)
    case Err(e) => Err(e)
    case Ok(suffix) =>
      var minTxSize := CLIENT_ID_LEN + suffix + 1 + MIN_VALUE_LEN;
      if cfg.size < minTxSize then Err(SizeTooSmall(minTxSize)) else Ok(())
  }

  /**
   * The client accepts a configuration if and only if the estimate is positive and below the last table entry, and a
   * transaction has room for client ID, suffix, '=' and one letter.
   */
  lemma ClientAcceptsExactly(cfg: Config)
    ensures ValidateConfig(cfg).Ok? <==>
      && 1 <= MaxTxsPerEndpoint(cfg) < MAX_TXS_BY_SUFFIX_LEN[15]
      && exists l: nat :: LeastAdequate(MaxTxsPerEndpoint(cfg), l) && cfg.size >= 5 + (l + 1) + 1 + 1
  {
    var n := MaxTxsPerEndpoint(cfg);
    SuffixSearch(n);
    hide SuffixLen, MaxTxsPerEndpoint;
    if SuffixLen(n).Ok? {
      var l := SuffixLen(n).value - 1;
      assert LeastAdequate(n, l);
      forall m: nat | LeastAdequate(n, m) ensures m == l {
        assert SuffixLen(n) == Ok(m + 1);
      }
    }
  }

  /** The number of transactions that the configuration allows for one endpoint. */
  function TrueMaxTxs(cfg: Config): int {
    if cfg.count > -1 then cfg.count else cfg.rate * cfg.time
  }

  /** Up to 2^64 transactions, the chosen suffix has room for what the configuration allows. */
  lemma KeyspaceCovers(cfg: Config)
    requires ValidateConfig(cfg).Ok? && cfg.rate >= 0 && cfg.time >= 0 && TrueMaxTxs(cfg) < TWO_TO_THE_64
    requires cfg.rate < TWO_TO_THE_64 && cfg.time < TWO_TO_THE_64 && cfg.count < TWO_TO_THE_64
    ensures SuffixLen(MaxTxsPerEndpoint(cfg)).Ok?
    ensures Pow(62, SuffixLen(MaxTxsPerEndpoint(cfg)).value) > 62 * TrueMaxTxs(cfg)
  {
    EstimateExactly(cfg);
    KeyspaceBound(MaxTxsPerEndpoint(cfg));
  }

  lemma TenLetters(count: nat)
    requires count == 0x2_0000_0000
    ensures SuffixLen(count) == Ok(10)
  {
    SuffixSearch(count);
    assert LeastAdequate(count, 9);
  }

  lemma PowerOfTen()
    ensures Pow(62, 10) == 839299365868340224
  {
    assert Pow(62, 2) == 3844;
    assert Pow(62, 4) == 14776336;
    assert Pow(62, 6) == 56800235584;
    assert Pow(62, 8) == 218340105584896;
  }

  /**
   * Beyond that it need not: here the product wraps to 2^33, for which ten letters are chosen, and validation accepts
   * a configuration with more transactions than there are such suffixes.
   */
  lemma WrappedEstimateAccepted(cfg: Config)
    requires cfg.count == -1 && cfg.rate == 0x2_0000_0000 && cfg.time == 0x8000_0001 && cfg.size >= 100
    ensures ValidateConfig(cfg).Ok? && SuffixLen(MaxTxsPerEndpoint(cfg)) == Ok(10)
    ensures Pow(62, 10) < TrueMaxTxs(cfg)
  {
    hide SuffixLen, Pow;
    assert MaxTxsPerEndpoint(cfg) == 0x2_0000_0000;
    TenLetters(0x2_0000_0000);
    PowerOfTen();
  }

  datatype Client = Client(keyPrefix: seq<byte>, keySuffixLen: int, valueLen: int)

  /** The random client ID is a parameter: any string that `RandStr(CLIENT_ID_LEN)` can produce. */
  function NewClient(cfg: Config, keyPrefix: seq<byte>): (r: Result<Client, KVError>) {
    match SuffixLen(MaxTxsPerEndpoint(cfg))
    case Err(e) => Err(e)
    case Ok(suffix) =>
      var keyLen := |keyPrefix| + suffix;
      Ok(Client(keyPrefix, suffix, cfg.size - keyLen - 1))
  }

  ghost predicate Alphanumeric(s: seq<byte>) {
    forall i :: 0 <= i < |s| ==> IsLetter(s[i])
  }

  function StrChar(b: byte): (c: byte)
    ensures IsLetter(c)
  {
    CharAt(b as int % NUM_CHARS)
  }

  /** The alphabet is used in full: every letter is the image of some random byte. */
  lemma EveryLetterDrawn(c: byte)
    requires IsLetter(c)
    ensures exists b: byte :: StrChar(b) == c
  {
    var i := if c <= 57 then c as int - 48 else if c <= 90 then c as int - 65 + 10 else c as int - 97 + 36;
    assert StrChar(i as byte) == c;
  }

  /**
   * Fills a buffer from the random source and rewrites each byte in place to a letter of the alphabet.
   * A length of zero or less gives the empty string without reading the source.
   */
  method RandStr(length: int, source: nat -> byte) returns (s: seq<byte>)
    ensures |s| == if length <= 0 then 0 else length
    ensures Alphanumeric(s)
    ensures forall i :: 0 <= i < |s| ==> s[i] == StrChar(source(i))
  {
    if length <= 0 {
      return [];
    }
    var chars := new byte[length]((i: nat) => source(i));
    var i := 0;
    while i < chars.Length
      invariant 0 <= i <= chars.Length
      invariant forall k :: 0 <= k < i ==> chars[k] == StrChar(source(k))
      invariant forall k :: i <= k < chars.Length ==> chars[k] == source(k)
    {
      chars[i] := StrChar(chars[i]);
      i := i + 1;
    }
    return chars[..];
  }

  function Count(s: seq<byte>, b: byte): nat {
    if s == [] then 0 else (if s[0] == b then 1 else 0) + Count(s[1..], b)
  }

  lemma {:induction false} CountConcat(s: seq<byte>, t: seq<byte>, b: byte)
    ensures Count(s + t, b) == Count(s, b) + Count(t, b)
  {
    if s == [] {
      assert s + t == t;
    } else {
      assert (s + t)[1..] == s[1..] + t;
      CountConcat(s[1..], t, b);
    }
  }

  lemma {:induction false} NoEqualsInside(s: seq<byte>)
    requires Alphanumeric(s)
    ensures Count(s, EQUALS) == 0 && EQUALS !in s
  {
    if s != [] {
      assert s[0] != EQUALS;
      NoEqualsInside(s[1..]);
    }
  }

  /** Splitting a transaction at its first '=', as the kvstore application does. */
  function SplitTx(tx: seq<byte>): (kv: Option<(seq<byte>, seq<byte>)>) {
    if tx == [] then None
    else if tx[0] == EQUALS then Some(([], tx[1..]))
    else match SplitTx(tx[1..])
         case None => None
         case Some(kv) => Some(([tx[0]] + kv.0, kv.1))
  }

  lemma {:induction false} SplitRecovers(k: seq<byte>, v: seq<byte>)
    requires EQUALS !in k
    ensures SplitTx(k + [EQUALS] + v) == Some((k, v))
  {
    var tx := k + [EQUALS] + v;
    if k == [] {
      assert tx[1..] == v;
    } else {
      assert tx[1..] == k[1..] + [EQUALS] + v;
      SplitRecovers(k[1..], v);
      assert [k[0]] + k[1..] == k;
    }
  }

  ghost predicate Layout(c: Client, suffix: seq<byte>, value: seq<byte>, tx: seq<byte>) {
    && tx == c.keyPrefix + suffix + [EQUALS] + value
    && Alphanumeric(suffix) && |suffix| == (if c.keySuffixLen <= 0 then 0 else c.keySuffixLen)
    && Alphanumeric(value) && |value| == (if c.valueLen <= 0 then 0 else c.valueLen)
  }

  /** Letter by letter, the string comes from the given random bytes. */
  ghost predicate Drawn(s: seq<byte>, source: nat -> byte) {
    forall i :: 0 <= i < |s| ==> s[i] == StrChar(source(i))
  }

  method GenerateTx(c: Client, keySource: nat -> byte, valueSource: nat -> byte)
    returns (tx: seq<byte>)
    ensures exists suffix, value :: Layout(c, suffix, value, tx) && Drawn(suffix, keySource) && Drawn(value, valueSource)
  {
    var s := RandStr(c.keySuffixLen, keySource);
    var k := c.keyPrefix + s;
    var v := RandStr(c.valueLen, valueSource);
    tx := k + ([EQUALS] + v);
    assert tx == c.keyPrefix + s + [EQUALS] + v;
    assert Layout(c, s, v, tx);
  }

  /** Exact size, exactly one '=' right after the key, and a value that is not empty. */
  ghost predicate WellFormedTx(cfg: Config, keyLen: nat, tx: seq<byte>) {
    && |tx| == cfg.size
    && keyLen + 1 + MIN_VALUE_LEN <= |tx|
    && tx[keyLen] == EQUALS
    && Count(tx, EQUALS) == 1
    && SplitTx(tx) == Some((tx[..keyLen], tx[keyLen + 1..]))
  }

  /** Validation and construction agree: a validated configuration yields a client whose parts fill `size` bytes. */
  lemma ValidConfigYieldsClient(cfg: Config, prefix: seq<byte>)
    requires ValidateConfig(cfg).Ok? && |prefix| == CLIENT_ID_LEN
    ensures SuffixLen(MaxTxsPerEndpoint(cfg)).Ok?
    ensures var r := NewClient(cfg, prefix);
            r.Ok? && r.value.keyPrefix == prefix && r.value.keySuffixLen > 1 && r.value.valueLen >= MIN_VALUE_LEN
            && CLIENT_ID_LEN + r.value.keySuffixLen + 1 + r.value.valueLen == cfg.size
  {
    SuffixSearch(MaxTxsPerEndpoint(cfg));
  }

  /** Every transaction a client of a validated configuration generates is well formed. */
  lemma TxLayout(cfg: Config, c: Client, suffix: seq<byte>, value: seq<byte>, tx: seq<byte>)
    requires ValidateConfig(cfg).Ok?
    requires |c.keyPrefix| == CLIENT_ID_LEN && Alphanumeric(c.keyPrefix)
    requires NewClient(cfg, c.keyPrefix) == Ok(c)
    requires Layout(c, suffix, value, tx)
    ensures c.keySuffixLen > 0
    ensures WellFormedTx(cfg, CLIENT_ID_LEN + c.keySuffixLen, tx)
    ensures tx[..CLIENT_ID_LEN] == c.keyPrefix
  {
    ValidConfigYieldsClient(cfg, c.keyPrefix);
    var k := c.keyPrefix + suffix;
    NoEqualsInside(c.keyPrefix);
    NoEqualsInside(suffix);
    NoEqualsInside(value);
    CountConcat(c.keyPrefix, suffix, EQUALS);
    SplitRecovers(k, value);
    assert tx == k + ([EQUALS] + value);
    CountConcat(k, [EQUALS] + value, EQUALS);
    CountConcat([EQUALS], value, EQUALS);
    assert tx[..|k|] == k && tx[|k| + 1..] == value;
    assert tx[..CLIENT_ID_LEN] == c.keyPrefix;
  }
}

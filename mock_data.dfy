/**
 * `generateToken` of components/utils/mockData.ts, and the copy in
 * app/page.tsx, which computes the same token. Each `Math.random()` call is a parameter of type `Draw`,
 * and `Date.now()` is the parameter `now`.
 */
module MockData {
  import opened Wrappers
  import opened Strings
  import opened Store

  /** One value returned by `Math.random()`. */
  type Draw = r: real | 0.0 <= r < 1.0

  /** The draws and the clock reading one call of `generateToken` uses. The
      `progress` draw is not consumed for a migrated token. */
  datatype TokenDraws = TokenDraws(
    progress: Draw,
    s0: Draw, s1: Draw, s2: Draw, s3: Draw,
    price: Draw,
    change: Draw,
    volume: Draw,
    mcap: Draw,
    liquidity: Draw,
    created: Draw,
    txCount: Draw,
    holders: Draw,
    now: int)

  lemma ScaledBelow(r: Draw, n: nat)
    requires n > 0
    ensures 0.0 <= r * n as real < n as real
  {
    assert (1.0 - r) * n as real > 0.0;
  }

  /** `Math.floor(r * n)`: an integer in `[0, n)`. */
  function Scaled(r: Draw, n: nat): (k: int)
    requires n > 0
    ensures 0 <= k < n
  {
    ScaledBelow(r, n);
    (r * n as real).Floor
  }

  /** `String.fromCharCode(65 + Math.floor(r * 26))` */
  function Letter(r: Draw): (c: char)
    ensures 'A' <= c <= 'Z'
  {
    (65 + Scaled(r, 26)) as char
  }

  /** `progress` as the three `if`s of `generateToken` set it. */
  function ProgressFor(status: Status, r: Draw): int {
    match status
    case New => Scaled(r, 80)
    case Stretch => 80 + Scaled(r, 19)
    case Migrated => 100
  }

  /** The progress values each status can get. */
  predicate ProgressRange(status: Status, p: int) {
    match status
    case New => 0 <= p <= 79
    case Stretch => 80 <= p <= 98
    case Migrated => p == 100
  }

  /** Reads the bucket back from a progress value; the three ranges are
      disjoint, so this inverts `ProgressFor`. */
  function StatusOfProgress(p: int): Status {
    if p < 80 then New else if p < 100 then Stretch else Migrated
  }

  function GenerateToken(id: string, status: Status, d: TokenDraws): (t: Token)
    ensures t.id == id && t.status == status
    ensures ProgressRange(status, t.progress)
    ensures |t.symbol| == 4 && forall i :: 0 <= i < 4 ==> 'A' <= t.symbol[i] <= 'Z'
    ensures t.name == "Project " + UpperStr(Prefix(id, 4))
    ensures 0.0 <= t.price < 0.05 && t.prevPrice == None
    ensures -20.0 <= t.change24h < 20.0
    ensures t.volume.Some? && 0 <= t.volume.value < 1_000_000
    ensures 0 <= t.mcap < 5_000_000
    ensures 0 <= t.liquidity < 200_000
    ensures d.now - 10_000_000 < t.created <= d.now
    ensures t.txCount.Some? && 0 <= t.txCount.value < 5_000
    ensures 0 <= t.holders < 1_000
  {
    Token(
      id := id,
      symbol := [Letter(d.s0), Letter(d.s1), Letter(d.s2), Letter(d.s3)],
      name := "Project " + UpperStr(Prefix(id, 4)),
      price := d.price * 0.05,
      prevPrice := None,
      change24h := d.change * 40.0 - 20.0,
      volume := Some(Scaled(d.volume, 1_000_000)),
      mcap := Scaled(d.mcap, 5_000_000),
      status := status,
      progress := ProgressFor(status, d.progress),
      liquidity := Scaled(d.liquidity, 200_000),
      created := d.now - Scaled(d.created, 10_000_000),
      txCount := Some(Scaled(d.txCount, 5_000)),
      holders := Scaled(d.holders, 1_000))
  }

  /** The progress of a generated token determines its status. */
  lemma ProgressDeterminesStatus(id: string, status: Status, d: TokenDraws)
    ensures StatusOfProgress(GenerateToken(id, status, d).progress) == status
  {
  }

  /** Exactly the values of `ProgressRange` are produced: every one of them
      comes from some draw, and no other value does. In particular a
      stretch token never reaches 99. */
  lemma ProgressValues(status: Status, p: int)
    ensures (exists r: Draw :: ProgressFor(status, r) == p) <==> ProgressRange(status, p)
  {
    if ProgressRange(status, p) {
      match status
      case New =>
        var r: Draw := p as real / 80.0;
        assert r * 80.0 == p as real;
        assert ProgressFor(status, r) == p;
      case Stretch =>
        var r: Draw := (p - 80) as real / 19.0;
        assert r * 19.0 == (p - 80) as real;
        assert ProgressFor(status, r) == p;
      case Migrated =>
        assert ProgressFor(status, 0.0) == p;
    }
  }
}

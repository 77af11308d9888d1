/**
 The fixed-window limiter that all API instances share.  Instants and durations count nanoseconds; every instance
 reads its own clock, the database has another.
 */
module RateLimit {
  import opened Common

  const GRACE: int := 300 * SECOND

  /** The resolution of the database's timestamps. */
  const MICROSECOND: int := 1_000

  /** A row of rate_limit_windows. */
  datatype Window = Window(count: nat, expires: int)

  type Rows = map<(string, int), Window>

  predicate ValidCall(key: string, limit: int, window: int) {
    key != "" && limit >= 1 && window >= SECOND
  }

  /** The length of the aligned window: whole seconds only. */
  function Aligned(window: int): (length: int)
    requires window >= SECOND
    ensures SECOND <= length <= window < length + SECOND
  {
    (window / SECOND) * SECOND
  }

  /** Where the aligned window that contains `clock` begins. */
  function Start(clock: nat, window: int): int
    requires window >= SECOND
  {
    ((clock / SECOND) / (window / SECOND)) * (window / SECOND) * SECOND
  }

  function Counted(rows: Rows, key: string, start: int, expires: int): (row: Window)
    ensures row.expires >= expires
  {
    if (key, start) in rows
    then
      var row := rows[(key, start)];
      Window(row.count + 1, if row.expires > expires then row.expires else expires)
    else Window(1, expires)
  }

  /** A time as the database stores it. */
  function Stored(t: int): (s: int)
    ensures s <= t < s + MICROSECOND && s % MICROSECOND == 0
  {
    t - t % MICROSECOND
  }

  function AfterCall(rows: Rows, key: string, window: int, clock: nat): Rows
    requires window >= SECOND
  {
    var start := Start(clock, window);
    rows[(key, start) := Counted(rows, key, start, Stored(start + window))]
  }

  function AfterCleanup(rows: Rows, now: int): Rows {
    map k | k in rows && rows[k].expires >= now - GRACE :: rows[k]
  }

  class Limiter {
    var rows: Rows

    constructor ()
      ensures rows == map[]
    {
      rows := map[];
    }

    /** `later` is the instance's clock when the statement has returned. */
    method Allow(key: string, limit: int, window: int, clock: nat, later: int) returns (r: Result<(bool, int), string>)
      modifies this
      ensures r.Err? <==> key == "" || limit < 1 || window < 1_000_000_000
      ensures r.Err? ==> rows == old(rows)
      ensures r.Ok? ==>
                var start := Start(clock, window);
                && start <= clock < start + Aligned(window)
                && start % Aligned(window) == 0
                && rows == AfterCall(old(rows), key, window, clock)
                && rows == old(rows)[(key, start) := rows[(key, start)]]
                && rows[(key, start)].count ==
                      (if (key, start) in old(rows) then old(rows)[(key, start)].count else 0) + 1
                && start + window - 1_000 < rows[(key, start)].expires
                && (if (key, start) in old(rows) && old(rows)[(key, start)].expires > start + window
                    then rows[(key, start)].expires == old(rows)[(key, start)].expires
                    else rows[(key, start)].expires <= start + window)
                && (r.value.0 <==> rows[(key, start)].count <= limit)
                && r.value.1 >= 0 && (later <= start + window ==> later + r.value.1 == start + window)
    {
      if !ValidCall(key, limit, window) {
        return Err("invalid rate limit parameters");
      }
      var windowSeconds := window / SECOND;
      var started := ((clock / SECOND) / windowSeconds) * windowSeconds * SECOND;
      StartContains(clock, window);
      StartIsAligned(clock, window);
      assert started == Start(clock, window);
      hide Start, Aligned;
      var expires := started + window;
      rows := rows[(key, started) := Counted(rows, key, started, Stored(expires))];
      var retry := expires - later;
      if retry < 0 {
        retry := 0;
      }
      r := Ok((rows[(key, started)].count <= limit, retry));
    }

    /** Exactly the rows that expired more than the grace period ago are gone; the others are as they were. */
    method Cleanup(now: int)
      modifies this
      ensures forall k :: k in rows <==> k in old(rows) && old(rows)[k].expires >= now - 300_000_000_000
      ensures forall k :: k in rows ==> rows[k] == old(rows)[k]
    {
      rows := AfterCleanup(rows, now);
    }
  }

  lemma Floor(x: nat, n: int)
    requires n >= 1
    ensures (x / n) * n <= x < (x / n) * n + n
  {
  }

  lemma Scale(a: int, b: int, s: int)
    requires a < b && s >= 1
    ensures a * s + s <= b * s
  {
    assert (a + 1) * s <= b * s;
  }

  /** A clock reading lies in the window it is counted in. */
  lemma StartContains(clock: nat, window: int)
    requires window >= SECOND
    ensures Start(clock, window) <= clock < Start(clock, window) + Aligned(window)
  {
    var n := window / SECOND;
    var s := clock / SECOND;
    Floor(s, n);
    var q := (s / n) * n;
    assert Start(clock, window) == q * SECOND;
    assert Aligned(window) == n * SECOND;
    assert s + 1 <= q + n;
    assert (s + 1) * SECOND <= (q + n) * SECOND;
  }

  /** Windows are laid from the epoch on, one after the other. */
  lemma StartIsAligned(clock: nat, window: int)
    requires window >= SECOND
    ensures Start(clock, window) % Aligned(window) == 0
  {
    var n := window / SECOND;
    Associate((clock / SECOND) / n, n);
    Multiple((clock / SECOND) / n, n * SECOND);
  }

  lemma Multiple(q: int, n: int)
    requires n >= 1
    ensures (q * n) % n == 0
  {
    var d, r := q - (q * n) / n, (q * n) % n;
    assert q * n == n * ((q * n) / n) + r;
    assert d * n == r;
    NoMultiple(d, n, r);
  }

  lemma NoMultiple(d: int, n: int, r: int)
    requires d * n == r && 0 <= r < n
    ensures r == 0
  {
    assert d >= 1 ==> d * n >= n;
    assert d <= -1 ==> d * n <= -n;
  }

  /** Windows do not overlap: starts differ by whole aligned lengths. */
  lemma StartsAreApart(a: nat, b: nat, window: int)
    requires window >= SECOND && Start(a, window) < Start(b, window)
    ensures Start(a, window) + Aligned(window) <= Start(b, window)
  {
    var n := window / SECOND;
    var p, q := (a / SECOND) / n, (b / SECOND) / n;
    assert Start(a, window) == p * n * SECOND == p * (n * SECOND) by { Associate(p, n); }
    assert Start(b, window) == q * n * SECOND == q * (n * SECOND) by { Associate(q, n); }
    Ordered(p, q, n * SECOND);
    Scale(p, q, n * SECOND);
  }

  lemma Ordered(a: int, b: int, s: int)
    requires a * s < b * s && s >= 1
    ensures a < b
  {
  }

  lemma Associate(p: int, n: int)
    ensures p * n * SECOND == p * (n * SECOND)
  {
  }
}

/**
 * The state of the per-client rate limiter as a value: a dictionary of 16-bit
 * hit counters keyed by client address, and the stack of banned clients. The
 * functions below are the three transitions of that state (a hit, a decay tick,
 * a release tick); the monitoring service's methods are proved against them.
 */
module RateLimit {

  /** C#'s `short`, the type of the hit counters. */
  newtype int16 = x: int | -0x8000 <= x < 0x8000

  /** `x++` on a short: two's-complement wrap-around from 32767 to -32768. */
  function Inc16(x: int16): (r: int16)
    ensures r as int == (x as int + 1 + 0x8000) % 0x10000 - 0x8000
  {
    if x == 0x7FFF then -0x8000 else x + 1
  }

  /** `x--` on a short: two's-complement wrap-around from -32768 to 32767. */
  function Dec16(x: int16): (r: int16)
    ensures r as int == (x as int - 1 + 0x8000) % 0x10000 - 0x8000
  {
    if x == -0x8000 then 0x7FFF else x - 1
  }

  /**
   * The limiter's state. The ban stack is a sequence whose LAST element is the
   * top of the stack, the most recently banned client.
   */
  datatype MonitorState = MonitorState(counts: map<string, int16>, banned: seq<string>)

  /** The state at process start: nothing counted, nobody banned. */
  const Initial := MonitorState(map[], [])

  /** One hit from `ip` against the threshold `max` (CheckIpAddress). */
  function Hit(s: MonitorState, ip: string, max: int): (r: MonitorState)
    ensures forall k :: k != ip ==> (k in r.counts <==> k in s.counts)
    ensures ip in r.counts || ip in r.banned
    ensures s.banned <= r.banned && |r.banned| <= |s.banned| + 1
  {
    if ip !in s.counts then
      MonitorState(s.counts[ip := 1], s.banned)
    else if s.counts[ip] as int == max then
      MonitorState(s.counts - {ip}, if ip in s.banned then s.banned else s.banned + [ip])
    else
      MonitorState(s.counts[ip := Inc16(s.counts[ip])], s.banned)
  }

  /** The counter map after one decay tick: every count decremented, zeros dropped. */
  function DecayedCounts(counts: map<string, int16>): (r: map<string, int16>)
    ensures r.Keys <= counts.Keys
    ensures forall k :: k in r ==> r[k] != 0
  {
    map k | k in counts && Dec16(counts[k]) != 0 :: Dec16(counts[k])
  }

  /** One tick of the decay timer. */
  function Decayed(s: MonitorState): (r: MonitorState)
    ensures r.banned == s.banned && r.counts.Keys <= s.counts.Keys
  {
    MonitorState(DecayedCounts(s.counts), s.banned)
  }

  /** One tick of the release timer: pop the top of the ban stack, if any. */
  function Released(s: MonitorState): (r: MonitorState)
    ensures r.counts == s.counts && r.banned <= s.banned
    ensures |r.banned| == if s.banned == [] then 0 else |s.banned| - 1
  {
    if |s.banned| > 0 then MonitorState(s.counts, s.banned[..|s.banned| - 1]) else s
  }

  /** `n` consecutive hits from the same client, with no tick in between. */
  function HitMany(s: MonitorState, ip: string, max: int, n: nat): MonitorState
    decreases n
  {
    if n == 0 then s else Hit(HitMany(s, ip, max, n - 1), ip, max)
  }

  /** One hit from each client of `ips`, in order. */
  function HitAll(s: MonitorState, ips: seq<string>, max: int): MonitorState
    decreases |ips|
  {
    if ips == [] then s else HitAll(Hit(s, ips[0], max), ips[1..], max)
  }

  /** `n` consecutive release ticks. */
  function ReleasedMany(s: MonitorState, n: nat): MonitorState
    decreases n
  {
    if n == 0 then s else Released(ReleasedMany(s, n - 1))
  }

  /** No client is on the ban stack twice. */
  predicate NoDuplicates(b: seq<string>) {
    forall i, j :: 0 <= i < j < |b| ==> b[i] != b[j]
  }

  /** Every stored count lies in [1, max]. */
  predicate CountsWithin(counts: map<string, int16>, max: int) {
    forall k :: k in counts ==> 1 <= counts[k] as int <= max
  }

  /** The limiter's invariant for a threshold the 16-bit counter can reach. */
  predicate Good(s: MonitorState, max: int) {
    NoDuplicates(s.banned) && (1 <= max <= 0x7FFF ==> CountsWithin(s.counts, max))
  }

  // ---------------------------------------------------------------------------
  // A single hit

  /**
   * What a hit does, case by case: an unseen client starts at 1, a client at the
   * threshold loses its counter and is on the ban stack (pushed only if absent),
   * any other client's counter goes up by one (wrapping at 16 bits); no other
   * client's counter moves, and the stack changes only by that one push.
   */
  lemma HitEffect(s: MonitorState, ip: string, max: int)
    ensures var t := Hit(s, ip, max);
      && (forall k :: k != ip ==> (k in t.counts <==> k in s.counts))
      && (forall k :: k != ip && k in s.counts ==> t.counts[k] == s.counts[k])
      && (ip !in s.counts ==> t.counts[ip] == 1 && t.banned == s.banned)
      && (ip in s.counts && s.counts[ip] as int == max ==>
            ip !in t.counts && ip in t.banned
            && t.banned == (if ip in s.banned then s.banned else s.banned + [ip]))
      && (ip in s.counts && s.counts[ip] as int != max ==>
            t.counts[ip] == Inc16(s.counts[ip]) && t.banned == s.banned)
  {
  }

  /** A hit keeps the ban stack free of duplicates and, for 1 <= max <= 32767, every count in [1, max]. */
  lemma HitPreservesGood(s: MonitorState, ip: string, max: int)
    requires Good(s, max)
    ensures Good(Hit(s, ip, max), max)
  {
    var t := Hit(s, ip, max);
    if ip in s.counts && s.counts[ip] as int == max && ip !in s.banned {
      forall i, j | 0 <= i < j < |t.banned| ensures t.banned[i] != t.banned[j] {
        if j == |s.banned| {
          assert t.banned[i] == s.banned[i];
        }
      }
    }
  }

  /** A threshold the 16-bit counter cannot hold never bans anyone: the counter wraps instead. */
  lemma UnreachableMaxNeverBans(s: MonitorState, ip: string, max: int)
    requires max > 0x7FFF || max < -0x8000
    ensures Hit(s, ip, max).banned == s.banned
    ensures ip in s.counts ==> ip in Hit(s, ip, max).counts
  {
  }

  // ---------------------------------------------------------------------------
  // The threshold

  /**
   * From no counter, the first n <= max hits of one client (no decay in between)
   * leave its counter at n and the ban stack untouched.
   */
  lemma {:induction false} HitManyCounts(s: MonitorState, ip: string, max: int, n: nat)
    requires 1 <= max <= 0x7FFF && ip !in s.counts && 1 <= n <= max
    ensures ip in HitMany(s, ip, max, n).counts
    ensures HitMany(s, ip, max, n).counts[ip] as int == n
    ensures HitMany(s, ip, max, n).banned == s.banned
    ensures forall k :: k != ip ==> (k in HitMany(s, ip, max, n).counts <==> k in s.counts)
  {
    if n > 1 {
      HitManyCounts(s, ip, max, n - 1);
    }
  }

  /**
   * The threshold: with no counter and no ban, a client's first max hits are
   * answered "not an attack", and the (max+1)-th is answered "attack", after
   * which the client has no counter and sits on top of the ban stack.
   */
  lemma {:induction false} BannedOnHitAfterMax(s: MonitorState, ip: string, max: int)
    requires 1 <= max <= 0x7FFF && ip !in s.counts && ip !in s.banned
    ensures forall n :: 1 <= n <= max ==> ip !in HitMany(s, ip, max, n).banned
    ensures ip in HitMany(s, ip, max, max + 1).banned
    ensures ip !in HitMany(s, ip, max, max + 1).counts
    ensures HitMany(s, ip, max, max + 1).banned == s.banned + [ip]
  {
    forall n | 1 <= n <= max ensures ip !in HitMany(s, ip, max, n).banned {
      HitManyCounts(s, ip, max, n);
    }
    HitManyCounts(s, ip, max, max);
  }

  /** Hits never take anyone off the ban stack: a banned client stays refused until released. */
  lemma {:induction false} HitsNeverUnban(s: MonitorState, ips: seq<string>, max: int, b: string)
    requires b in s.banned
    ensures b in HitAll(s, ips, max).banned
    decreases |ips|
  {
    if ips != [] {
      HitsNeverUnban(Hit(s, ips[0], max), ips[1..], max, b);
    }
  }

  /** A banned client with no counter starts a fresh counter at 1 on its next hit and stays banned. */
  lemma BannedClientRestartsAtOne(s: MonitorState, ip: string, max: int)
    requires ip in s.banned && ip !in s.counts
    ensures Hit(s, ip, max).counts[ip] == 1 && ip in Hit(s, ip, max).banned
  {
  }

  // ---------------------------------------------------------------------------
  // Decay

  /**
   * A decay tick, for counts in [1, max]: every count drops by exactly one, the
   * entries that reach zero (those at one) are removed, no key is added, the ban
   * stack is unchanged, and the counts stay in [1, max].
   */
  lemma DecayEffect(s: MonitorState, max: int)
    requires CountsWithin(s.counts, max)
    ensures var t := Decayed(s);
      && t.banned == s.banned
      && (forall k :: k in t.counts <==> k in s.counts && s.counts[k] > 1)
      && (forall k :: k in t.counts ==> t.counts[k] as int == s.counts[k] as int - 1)
      && CountsWithin(t.counts, max)
  {
  }

  /** A decay tick keeps the limiter's invariant. */
  lemma DecayPreservesGood(s: MonitorState, max: int)
    requires Good(s, max)
    ensures Good(Decayed(s), max)
  {
    if 1 <= max <= 0x7FFF {
      DecayEffect(s, max);
    }
  }

  // ---------------------------------------------------------------------------
  // Release

  /**
   * A release tick pops the most recently banned client when there is one, does
   * nothing to an empty stack, never touches the counters and keeps the invariant.
   */
  lemma ReleaseEffect(s: MonitorState, max: int)
    requires Good(s, max)
    ensures Released(s).counts == s.counts
    ensures |s.banned| > 0 ==> Released(s).banned + [s.banned[|s.banned| - 1]] == s.banned
    ensures |s.banned| > 0 ==> s.banned[|s.banned| - 1] !in Released(s).banned
    ensures s.banned == [] ==> Released(s) == s
    ensures Good(Released(s), max)
  {
  }

  /** n release ticks pop the top n entries of the stack (all of them if there are fewer). */
  lemma {:induction false} ReleasedManyPops(s: MonitorState, n: nat)
    ensures ReleasedMany(s, n).counts == s.counts
    ensures ReleasedMany(s, n).banned == s.banned[..if n <= |s.banned| then |s.banned| - n else 0]
    decreases n
  {
    if n > 0 {
      ReleasedManyPops(s, n - 1);
    }
  }

  /**
   * LIFO release: if client a was banned before client b (a sits below b on the
   * stack), then after the releases that free b, a is still banned.
   */
  lemma ReleaseOrder(s: MonitorState, i: nat, j: nat)
    requires NoDuplicates(s.banned) && i < j < |s.banned|
    ensures var t := ReleasedMany(s, |s.banned| - j);
      s.banned[j] !in t.banned && s.banned[i] in t.banned
  {
    ReleasedManyPops(s, |s.banned| - j);
    var t := ReleasedMany(s, |s.banned| - j);
    assert t.banned == s.banned[..j];
    assert t.banned[i] == s.banned[i];
  }
}

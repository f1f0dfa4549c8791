/** The Redis sliding-window rate limiter for one key: a pruned, expiring sorted set against the
    complete history of grants (app/middleware/rate_limit.py:27-53, 130-215). */
module SlidingWindow {
  import opened Names
  import opened Sets

  type Member = nat

  /** The grants of the window of `length` seconds that ends at `t`. */
  ghost function Window(grants: map<Member, real>, t: real, length: real): set<Member> {
    set m | m in grants && t - length < grants[m] <= t
  }

  /** Every window of that length, wherever it ends, holds at most `max` grants. */
  ghost predicate WithinLimit(grants: map<Member, real>, length: real, max: nat) {
    forall t :: |Window(grants, t, length)| <= max
  }

  // A grant at `now`, the latest of all, may fill up the windows that reach back from later on.
  lemma GrantFits(grants: map<Member, real>, length: real, max: nat, now: real, m: Member)
    requires WithinLimit(grants, length, max) && m !in grants && length > 0.0
    requires forall k :: k in grants ==> grants[k] <= now
    requires |Window(grants, now, length)| < max
    ensures WithinLimit(grants[m := now], length, max)
  {
    var grants' := grants[m := now];
    forall t ensures |Window(grants', t, length)| <= max {
      if t < now {
        assert Window(grants', t, length) == Window(grants, t, length);
      } else {
        SubsetSize(Window(grants', t, length), Window(grants, now, length) + {m});
      }
    }
  }

  /** The sorted set holds every grant that can still count, and expires only after all of them. */
  ghost predicate Inv(entries: map<Member, real>, expireAt: Option<real>, grants: map<Member, real>, last: real,
      window: real) {
    && last >= 0.0
    && (forall m :: m in entries ==> m in grants && grants[m] == entries[m])
    && (forall m :: m in grants ==> 0.0 <= grants[m] <= last)
    && (forall m :: m in grants && m !in entries ==> grants[m] <= last - window)
    && (forall m :: m in entries ==> expireAt.Some? && entries[m] + window <= expireAt.value)
  }

  /** ZREMRANGEBYSCORE from 0 to `bound`. */
  function Prune(entries: map<Member, real>, bound: real): map<Member, real> {
    map m | m in entries && !(0.0 <= entries[m] <= bound) :: entries[m]
  }

  predicate IsDue(expireAt: Option<real>, now: real) {
    expireAt.Some? && expireAt.value <= now
  }

  lemma Pruned(entries: map<Member, real>, expireAt: Option<real>, grants: map<Member, real>, last: real, window: real,
      now: real)
    requires window > 0.0 && Inv(entries, expireAt, grants, last, window) && now >= last
    ensures var left := Prune(if IsDue(expireAt, now) then map[] else entries, now - window);
      left.Keys == Window(grants, now, window) && Inv(left, Some(now + window), grants, now, window)
  {
    var left := Prune(if IsDue(expireAt, now) then map[] else entries, now - window);
    forall m ensures m in left <==> m in Window(grants, now, window) {}
  }

  lemma Granted(entries: map<Member, real>, grants: map<Member, real>, window: real, now: real, m: Member)
    requires window > 0.0 && Inv(entries, Some(now + window), grants, now, window) && m !in grants
    requires entries.Keys == Window(grants, now, window)
    ensures Inv(entries[m := now], Some(now + window), grants[m := now], now, window)
    ensures Window(grants[m := now], now, window) == entries.Keys + {m} && m !in entries
  {
    forall k ensures k in Window(grants[m := now], now, window) <==> k in entries || k == m {}
  }

  lemma GrantKeeps(entries: map<Member, real>, grants: map<Member, real>, window: real, max: nat, now: real, m: Member)
    requires window > 0.0 && Inv(entries, Some(now + window), grants, now, window) && m !in grants
    requires WithinLimit(grants, window, max)
    requires entries.Keys == Window(grants, now, window) && |entries.Keys| < max
    ensures Inv(entries[m := now], Some(now + window), grants[m := now], now, window)
    ensures WithinLimit(grants[m := now], window, max)
    ensures |Window(grants[m := now], now, window)| == |entries.Keys| + 1
  {
    hide Inv, WithinLimit, Window;
    LatestGrant(entries, Some(now + window), grants, now, window);
    GrantFits(grants, window, max, now, m);
    Granted(entries, grants, window, now, m);
  }

  class SortedSet {
    /** The sorted set as Redis holds it, and when the whole key expires. */
    var entries: map<Member, real>
    var expireAt: Option<real>
    const window: real
    const max: nat
    /** Every grant there ever was, and the time of the last request. */
    ghost var grants: map<Member, real>
    ghost var last: real

    ghost predicate Valid()
      reads this
    {
      window > 0.0 && max > 0 && Inv(entries, expireAt, grants, last, window) && WithinLimit(grants, window, max)
    }

    constructor (window: real, max: nat)
      requires window > 0.0 && max > 0
      ensures Valid() && this.window == window && this.max == max && grants == map[] && last == 0.0
    {
      this.window, this.max, entries, expireAt := window, max, map[], None;
      grants, last := map[], 0.0;
      new;
      assert forall t :: Window(grants, t, window) == {};
    }

    /** The script: prune, count, and either refuse or add; the expiry is renewed either way.
        It refuses exactly when the complete history fills the window that ends now. */
    method Eval(now: real, member: Member) returns (allowed: bool, count: nat)
      requires Valid() && now >= last && member !in grants
      modifies this
      ensures Valid() && last == now
      ensures allowed <==> |Window(old(grants), now, window)| < max
      ensures count == |Window(grants, now, window)|
      ensures grants == if allowed then old(grants)[member := now] else old(grants)
    {
      hide Inv, WithinLimit, Prune, Window;
      Pruned(entries, expireAt, grants, last, window, now);
      // Redis drops the whole key when its time has come.
      if IsDue(expireAt, now) {
        entries := map[];
      }
      entries := Prune(entries, now - window);
      last := now;
      var current := |entries.Keys|;
      expireAt := Some(now + window);
      if current >= max {
        return false, current;
      }
      GrantKeeps(entries, grants, window, max, now, member);
      entries := entries[member := now];
      grants := grants[member := now];
      return true, current + 1;
    }
  }

  lemma LatestGrant(entries: map<Member, real>, expireAt: Option<real>, grants: map<Member, real>, last: real,
      window: real)
    requires Inv(entries, expireAt, grants, last, window)
    ensures forall k :: k in grants ==> grants[k] <= last
  {}

  /** In particular no window of that length ever sees more than `max` grants, over any run of
      requests with a monotone clock and fresh members. */
  method RunRequests(s: SortedSet, times: seq<real>, members: seq<Member>) returns (allowed: seq<bool>)
    requires s.Valid() && |members| == |times|
    requires forall i, j :: 0 <= i <= j < |times| ==> s.last <= times[i] <= times[j]
    requires forall i :: 0 <= i < |members| ==> members[i] !in s.grants
    requires forall i, j :: 0 <= i < j < |members| ==> members[i] != members[j]
    modifies s
    ensures |allowed| == |times|
    ensures WithinLimit(s.grants, s.window, s.max)
    ensures forall m :: m in s.grants <==>
      m in old(s.grants) || exists i :: 0 <= i < |times| && allowed[i] && members[i] == m
    ensures forall i :: 0 <= i < |times| && allowed[i] ==> members[i] in s.grants && s.grants[members[i]] == times[i]
  {
    allowed := [];
    for k := 0 to |times|
      invariant s.Valid() && |allowed| == k && forall i :: k <= i < |times| ==> s.last <= times[i]
      invariant forall m :: m in s.grants <==>
        m in old(s.grants) || exists i :: 0 <= i < k && allowed[i] && members[i] == m
      invariant forall i :: 0 <= i < k && allowed[i] ==> members[i] in s.grants && s.grants[members[i]] == times[i]
    {
      var ok, _ := s.Eval(times[k], members[k]);
      allowed := allowed + [ok];
    }
  }

  // ------------------------------------------------------------------- dispatch

  const AUTH_PATHS := ["/auth/login", "/auth/mfa", "/auth/register", "/auth/password-reset"]

  /** Limit and window of a rate-limited path. */
  function Config(path: string): Option<(nat, real)> {
    if path == "/auth/login" then Some((10, 60.0))
    else if path == "/auth/password-reset" then Some((5, 300.0))
    else if path == "/auth/mfa/verify" then Some((10, 60.0))
    else if path == "/auth/register" then Some((5, 300.0))
    else None
  }

  predicate Contains(path: string, part: string) {
    exists i :: 0 <= i <= |path| && part <= path[i..]
  }

  predicate IsAuthPath(path: string) {
    exists k :: 0 <= k < |AUTH_PATHS| && (AUTH_PATHS[k] <= path || Contains(path, AUTH_PATHS[k]))
  }

  function CleanPath(path: string): string {
    if "/api/v1" <= path then path[7..] else path
  }

  /** Every limited path is an auth path, so an unreachable Redis refuses rather than lets through. */
  lemma LimitedPathsFailClosed(path: string)
    requires Config(path).Some?
    ensures IsAuthPath(path)
  {
    var k := if path == "/auth/login" then 0 else if path == "/auth/password-reset" then 3
        else if path == "/auth/mfa/verify" then 1 else 2;
    assert path == "/auth/mfa/verify" ==> "/auth/mfa" <= path;
    assert AUTH_PATHS[k] <= path;
  }

  datatype Decision = Forward | TooMany | ServiceUnavailable

  /** What the middleware does with a request: `s` is the sorted set of its path and client, whose
      limit and window are those configured for the path. */
  method Dispatch(s: SortedSet, post: bool, path: string, reachable: bool, now: real,
      member: Member) returns (d: Decision)
    requires s.Valid() && now >= s.last && member !in s.grants
    requires Config(CleanPath(path)).Some? ==> Config(CleanPath(path)).value == (s.max, s.window)
    modifies s
    ensures s.Valid()
    ensures !post || Config(CleanPath(path)).None? ==> d == Forward && s.grants == old(s.grants)
    ensures post && Config(CleanPath(path)).Some? && !reachable ==> d == ServiceUnavailable && s.grants == old(s.grants)
    ensures post && Config(CleanPath(path)).Some? && reachable ==>
      (var (limit, window) := Config(CleanPath(path)).value;
       d == if |Window(old(s.grants), now, window)| < limit then Forward else TooMany)
    ensures d == Forward && post && Config(CleanPath(path)).Some? ==> s.grants == old(s.grants)[member := now]
  {
    if !post { return Forward; }
    var config := Config(CleanPath(path));
    if config.None? { return Forward; }
    if !reachable {
      LimitedPathsFailClosed(CleanPath(path));
      return if IsAuthPath(CleanPath(path)) then ServiceUnavailable else Forward;
    }
    var allowed, _ := s.Eval(now, member);
    return if allowed then Forward else TooMany;
  }
}

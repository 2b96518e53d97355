/** The failover chain and the same-provider retries of a proxied request
    (src/proxy/router.rs, src/model.rs). */
module Failover {
  import opened Basics

  const U64_MAX := 0xFFFF_FFFF_FFFF_FFFF
  type U64 = n: int | 0 <= n <= U64_MAX

  // --- delays ---

  /** A `Retry-After` header: delta-seconds of any size, or a date that many milliseconds ahead
      (section 10.2.3 of RFC 9110). */
  datatype RetryAfter = Missing | Malformed | Seconds(n: nat) | HttpDate(aheadMs: int)

  /** `parse_retry_after_ms`; seconds that do not fit `u64` fail to parse, a date not in the future is ignored. */
  function ParseRetryAfterMs(header: RetryAfter): (r: Option<nat>)
    ensures r.Some? ==> r.value <= U64_MAX
  {
    match header
    case Seconds(n) => if n <= U64_MAX then Some(Min(n * 1000, U64_MAX)) else None
    case HttpDate(aheadMs) => if 0 < aheadMs <= U64_MAX then Some(aheadMs) else None
    case _ => None
  }

  datatype RetryPolicy = RetryPolicy(
    retryable: set<nat>,
    maxAttempts: nat,
    baseDelayMs: U64,
    maxDelayMs: U64)
  {
    function CapDelayMs(delay: nat): nat {
      Min(delay, maxDelayMs)
    }

    /** The top of the jitter interval: a saturating shift, capped. */
    function BackoffCeiling(attempt: nat): nat {
      Min(Min(baseDelayMs * Pow2(Min(attempt, 63)), U64_MAX), maxDelayMs)
    }

    function BackoffMs(attempt: nat, jitter: real): (r: nat)
      ensures r <= BackoffCeiling(attempt) <= maxDelayMs
    {
      var ceiling := BackoffCeiling(attempt);
      var j := if jitter < 0.0 then 0.0 else if jitter > 1.0 then 1.0 else jitter;
      ScaledFloor(ceiling, j);
      (ceiling as real * j).Floor
    }

    function Delay(attempt: nat, header: RetryAfter, jitter: real): (r: nat)
      ensures r <= maxDelayMs
    {
      match ParseRetryAfterMs(header)
      case Some(ms) => CapDelayMs(ms)
      case None => BackoffMs(attempt, jitter)
    }
  }

  /** A `Retry-After` in seconds is honoured up to the cap, however large it is: neither the saturation nor the
      parse is visible below it. A malformed header or a date that is not ahead leaves the backoff in charge. */
  lemma RetryAfterHonoured(p: RetryPolicy, attempt: nat, n: nat, aheadMs: int, jitter: real)
    ensures n <= U64_MAX ==> p.Delay(attempt, Seconds(n), jitter) == Min(1000 * n, p.maxDelayMs)
    ensures 0 < aheadMs <= U64_MAX ==> p.Delay(attempt, HttpDate(aheadMs), jitter) == Min(aheadMs, p.maxDelayMs)
    ensures aheadMs <= 0 ==> p.Delay(attempt, HttpDate(aheadMs), jitter) == p.BackoffMs(attempt, jitter)
    ensures p.Delay(attempt, Malformed, jitter) == p.BackoffMs(attempt, jitter) == p.Delay(attempt, Missing, jitter)
  {
  }

  /** A wait drawn for attempt `a`: the jitter's share of its ceiling (`CeilingAsDocumented`), rounded down. */
  ghost predicate IsDrawn(p: RetryPolicy, wait: nat, a: nat, jitter: real) {
    var share := if jitter < 0.0 then 0.0 else if jitter > 1.0 then 1.0 else jitter;
    wait as real <= p.BackoffCeiling(a) as real * share < wait as real + 1.0
  }

  /** The wait a reply asks for after attempt `a`: what its `Retry-After` says, up to the cap, or else a drawn one. */
  ghost predicate IsAskedFor(p: RetryPolicy, wait: nat, a: nat, header: RetryAfter, jitter: real) {
    match header
    case Seconds(s) => if s <= U64_MAX then wait == Min(1000 * s, p.maxDelayMs) else IsDrawn(p, wait, a, jitter)
    case HttpDate(ms) => if 0 < ms <= U64_MAX then wait == Min(ms, p.maxDelayMs) else IsDrawn(p, wait, a, jitter)
    case Missing => IsDrawn(p, wait, a, jitter)
    case Malformed => IsDrawn(p, wait, a, jitter)
  }

  lemma BackoffIsDrawn(p: RetryPolicy, a: nat, jitter: real)
    ensures IsDrawn(p, p.BackoffMs(a, jitter), a, jitter)
  {
  }

  lemma DelayIsAskedFor(p: RetryPolicy, a: nat, header: RetryAfter, jitter: real)
    ensures IsAskedFor(p, p.Delay(a, header, jitter), a, header, jitter)
  {
    BackoffIsDrawn(p, a, jitter);
  }

  lemma ScaledFloor(n: nat, j: real)
    requires 0.0 <= j <= 1.0
    ensures 0 <= (n as real * j).Floor <= n
  {
    assert 0.0 <= n as real * j <= n as real;
  }

  function Pow2(n: nat): (p: nat)
    ensures p >= 1
  {
    if n == 0 then 1 else 2 * Pow2(n - 1)
  }

  lemma {:induction false} Pow2Monotone(a: nat, b: nat)
    requires a <= b
    ensures Pow2(a) <= Pow2(b)
    decreases b
  {
    if a < b {
      Pow2Monotone(a, b - 1);
    }
  }

  lemma ScaleMonotone(base: nat, a: nat, b: nat)
    requires a <= b
    ensures base * a <= base * b
  {
  }

  lemma {:induction false} Pow2Sum(a: nat, b: nat)
    ensures Pow2(a + b) == Pow2(a) * Pow2(b)
  {
    if b > 0 {
      Pow2Sum(a, b - 1);
      assert Pow2(a + b) == 2 * Pow2(a + (b - 1));
    }
  }

  lemma Doubled(n: nat, p: nat)
    requires Pow2(n) == p
    ensures Pow2(2 * n + 1) == 2 * p * p
  {
    Pow2Sum(n, n);
    assert Pow2(2 * n + 1) == 2 * Pow2(n + n);
  }

  lemma Pow2Of63()
    ensures Pow2(63) == 0x8000_0000_0000_0000
  {
    Doubled(0, 1);
    Doubled(1, 2);
    Doubled(3, 8);
    Doubled(7, 0x80);
    Doubled(15, 0x8000);
    Doubled(31, 0x8000_0000);
  }

  /** The ceiling never falls as attempts go by. */
  lemma CeilingMonotone(p: RetryPolicy, a: nat, b: nat)
    requires a <= b
    ensures p.BackoffCeiling(a) <= p.BackoffCeiling(b)
  {
    Pow2Monotone(Min(a, 63), Min(b, 63));
    ScaleMonotone(p.baseDelayMs, Pow2(Min(a, 63)), Pow2(Min(b, 63)));
  }

  /** The documented ceiling, `min(max_delay, base * 2^attempt)`, is what the code computes exactly when the
      shift is not clamped at 63, or clamping it cannot be seen: a base of zero, a base above one (the product
      saturates) or a cap no higher than 2^63. */
  lemma CeilingAsDocumented(p: RetryPolicy, attempt: nat)
    ensures p.BackoffCeiling(attempt) == Min(p.maxDelayMs, p.baseDelayMs * Pow2(attempt)) <==>
            attempt <= 63 || p.baseDelayMs != 1 || p.maxDelayMs <= 0x8000_0000_0000_0000
  {
    if attempt > 63 {
      Pow2Of63();
      Pow2Monotone(64, attempt);
      assert Pow2(64) == 2 * Pow2(63);
      ClampSeen(p.baseDelayMs, Pow2(63), Pow2(attempt), p.maxDelayMs);
    }
  }

  /** Over all the attempts the retry loop can wait after, in terms of the retry section alone: the ceilings are the
      documented ones exactly with at most 65 attempts, or a base other than one, or a cap no higher than 2^63. */
  lemma CeilingsAsDocumented(p: RetryPolicy)
    ensures (forall a: nat :: a + 1 < p.maxAttempts ==>
                p.BackoffCeiling(a) == Min(p.maxDelayMs, p.baseDelayMs * Pow2(a))) <==>
            p.maxAttempts <= 65 || p.baseDelayMs != 1 || p.maxDelayMs <= 0x8000_0000_0000_0000
  {
    forall a: nat
      ensures p.BackoffCeiling(a) == Min(p.maxDelayMs, p.baseDelayMs * Pow2(a)) <==>
              a <= 63 || p.baseDelayMs != 1 || p.maxDelayMs <= 0x8000_0000_0000_0000
    {
      CeilingAsDocumented(p, a);
    }
    if forall a: nat :: a + 1 < p.maxAttempts ==>
         p.BackoffCeiling(a) == Min(p.maxDelayMs, p.baseDelayMs * Pow2(a))
    {
      assert 65 < p.maxAttempts ==> p.BackoffCeiling(64) == Min(p.maxDelayMs, p.baseDelayMs * Pow2(64));
    }
  }

  lemma ClampSeen(base: nat, clamped: nat, shifted: nat, cap: U64)
    requires clamped == 0x8000_0000_0000_0000 && shifted >= 2 * clamped
    ensures Min(Min(base * clamped, U64_MAX), cap) == Min(cap, base * shifted) <==> base != 1 || cap <= clamped
  {
    if base >= 2 {
      ScaleMonotone(clamped, 2, base);
      ScaleMonotone(shifted, 2, base);
    }
  }

  /** `n * x`, as a sum. */
  function Repeat(n: nat, x: nat): nat {
    if n == 0 then 0 else Repeat(n - 1, x) + x
  }

  lemma {:induction false} RepeatIsProduct(n: nat, x: nat)
    ensures Repeat(n, x) == n * x
  {
    if n > 0 { RepeatIsProduct(n - 1, x); }
  }

  lemma {:induction false} RepeatMonotone(a: nat, b: nat, x: nat)
    requires a <= b
    ensures Repeat(a, x) <= Repeat(b, x)
    decreases b
  {
    if a < b { RepeatMonotone(a, b - 1, x); }
  }

  // --- one proxied request ---

  /** What the n-th send of a request came back with. A reply that is not a stream must also be readable
      to the end before it can be relayed. */
  datatype Reply = TransportError | Reply(status: nat, retryAfter: RetryAfter, readable: bool)

  /** Whether a deployment's request can be built at all: its body, its URI and its headers. */
  datatype Prep = Sendable | BadBody | BadUri | BadHeaders

  datatype Fault = RequestFailed | UriFailed | HeadersFailed

  datatype Response =
    | Relay(send: nat)
    | Unreadable(send: nat)
    | BadRequest
    | BadGateway(fault: Fault)
  {
    /** An upstream reply whose body could not be read is answered with a 502 of the gateway's own. */
    predicate Is502() {
      BadGateway? || Unreadable?
    }
  }

  datatype Attempt = Forward(response: Response) | FailOver(response: Response)

  datatype Send = Send(deployment: nat, attempt: nat)

  predicate ServerError(status: nat) {
    500 <= status < 600
  }

  /** A resolved chain, the policy, and everything the outside world decides: the outcome of every send and
      every jitter draw. */
  datatype Scenario = Scenario(chain: seq<Prep>, policy: RetryPolicy, replies: nat -> Reply, jitter: nat -> real)
  {
    predicate IsRetryable(n: nat) {
      replies(n).Reply? && replies(n).status in policy.retryable
    }

    /** A reply any deployment would hand to the client. */
    predicate Forwardable(n: nat) {
      replies(n).Reply? && replies(n).status !in policy.retryable && !ServerError(replies(n).status)
    }

    function ForwardUpstream(n: nat): Response {
      if replies(n).Reply? && !replies(n).readable then Unreadable(n) else Relay(n)
    }

    lemma {:induction false} StreakUnbroken(k: nat, limit: nat)
      requires forall n: nat :: IsRetryable(n)
      ensures Streak(k, limit) == limit
      decreases limit
    {
      if limit > 0 { StreakUnbroken(k + 1, limit - 1); }
    }

    // --- the specification, deployment by deployment ---

    /** How many sends in a row, from the k-th, get a retryable reply; at most `limit`. */
    function Streak(k: nat, limit: nat): (r: nat)
      ensures r <= limit
      ensures forall i :: k <= i < k + r ==> IsRetryable(i)
      ensures r < limit ==> !IsRetryable(k + r)
      decreases limit
    {
      if limit == 0 || !IsRetryable(k) then 0 else 1 + Streak(k + 1, limit - 1)
    }

    ghost predicate AllRetryable(k: nat, n: nat) {
      n > 0 ==> AllRetryable(k, n - 1) && IsRetryable(k + n - 1)
    }

    lemma {:induction false} AllRetryableAt(k: nat, n: nat, i: nat)
      requires AllRetryable(k, n) && k <= i < k + n
      ensures IsRetryable(i)
      decreases n
    {
      if i < k + n - 1 { AllRetryableAt(k, n - 1, i); }
    }

    lemma StreakIs(k: nat, limit: nat, r: nat)
      requires r <= limit && AllRetryable(k, r) && (r == limit || !IsRetryable(k + r))
      ensures Streak(k, limit) == r
    {
      var s := Streak(k, limit);
      assert s < limit ==> !IsRetryable(k + s);
      if s < r { AllRetryableAt(k, r, k + s); }
    }

    /** The sends a deployment makes when its first is the k-th of the request. */
    function Tries(d: nat, k: nat): (r: nat)
      requires d < |chain|
      ensures r <= policy.maxAttempts
    {
      if chain[d] != Sendable || policy.maxAttempts == 0 then 0 else 1 + Streak(k, policy.maxAttempts - 1)
    }

    predicate IsLast(d: nat) { d + 1 == |chain| }

    /** Its verdict, decided by its last send alone. */
    function Verdict(d: nat, k: nat): Attempt
      requires d < |chain|
    {
      match chain[d]
      case BadBody => Forward(BadRequest)
      case BadUri => FailOver(BadGateway(UriFailed))
      case BadHeaders => FailOver(BadGateway(HeadersFailed))
      case Sendable =>
        if Tries(d, k) == 0 then FailOver(BadGateway(RequestFailed))
        else
          var last := k + Tries(d, k) - 1;
          if Forwardable(last) || (IsRetryable(last) && IsLast(d)) then Forward(ForwardUpstream(last))
          else FailOver(BadGateway(RequestFailed))
    }

    /** What the n-th send settles for a deployment: nothing while it may still retry. */
    function StepVerdict(n: nat, isLast: bool, isFinalAttempt: bool): Option<Attempt> {
      if IsRetryable(n) && !isFinalAttempt then None
      else if Forwardable(n) || (IsRetryable(n) && isLast) then Some(Forward(ForwardUpstream(n)))
      else Some(FailOver(BadGateway(RequestFailed)))
    }

    /** A deployment stops at its first reply that is not retryable, or when its attempts run out. */
    lemma StopsAt(d: nat, k: nat, a: nat)
      requires d < |chain| && chain[d] == Sendable && a < policy.maxAttempts && AllRetryable(k, a)
      requires StepVerdict(k + a, IsLast(d), a + 1 >= policy.maxAttempts).Some?
      ensures Tries(d, k) == a + 1
      ensures WaitsOf(d, k) == Pauses(k, a)
      ensures Some(Verdict(d, k)) == StepVerdict(k + a, IsLast(d), a + 1 >= policy.maxAttempts)
    {
      StreakIs(k, policy.maxAttempts - 1, a);
    }

    /** The sends and the waits of the first `n` deployments, were they all tried. */
    function Sends(n: nat): seq<Send>
      requires n <= |chain|
    {
      if n == 0 then []
      else
        var before := Sends(n - 1);
        before + Block(n - 1, Tries(n - 1, |before|))
    }

    /** Attempts 0, 1, ..., n - 1 against deployment `d`. */
    function Block(d: nat, n: nat): (r: seq<Send>)
      ensures |r| == n
    {
      if n == 0 then [] else Block(d, n - 1) + [Send(d, n - 1)]
    }

    /** The waits after the first `n` attempts of a deployment whose first send is the k-th. */
    function Pauses(k: nat, n: nat): (r: seq<nat>)
      ensures |r| == n
    {
      if n == 0 then [] else Pauses(k, n - 1) + [DelayAfter(n - 1, k + n - 1)]
    }

    /** The wait after attempt `a` is the delay of that attempt. */
    lemma {:induction false} PauseAt(k: nat, n: nat, a: nat)
      requires a < n
      ensures Pauses(k, n)[a] == DelayAfter(a, k + a)
    {
      if a < n - 1 { PauseAt(k, n - 1, a); }
    }

    /** `backoff_delay` after attempt `a`, whose send was the n-th. */
    function DelayAfter(a: nat, n: nat): nat {
      policy.Delay(a, HeaderOf(n), jitter(n))
    }

    /** A deployment waits between its tries, never after the last. */
    function WaitsOf(d: nat, k: nat): seq<nat>
      requires d < |chain|
    {
      var tries := Tries(d, k);
      if tries == 0 then [] else Pauses(k, tries - 1)
    }

    function HeaderOf(n: nat): RetryAfter {
      if replies(n).Reply? then replies(n).retryAfter else Missing
    }

    function Waits(n: nat): seq<nat>
      requires n <= |chain|
    {
      if n == 0 then [] else Waits(n - 1) + WaitsOf(n - 1, |Sends(n - 1)|)
    }

    predicate Forwards(d: nat)
      requires d < |chain|
    {
      Verdict(d, |Sends(d)|).Forward?
    }

    /** Deployments are visited up to and including the first that forwards. */
    ghost predicate Visited(n: nat) {
      && n <= |chain|
      && (n > 0 ==> NoneForwards(n - 1))
      && (n < |chain| ==> n > 0 && Forwards(n - 1))
    }

    /** All of the first `n` deployments fail over. */
    ghost predicate NoneForwards(n: nat)
      requires n <= |chain|
    {
      n > 0 ==> NoneForwards(n - 1) && !Forwards(n - 1)
    }

    /** How many deployments are visited, the first `from` having failed over. */
    function Stop(from: nat): (n: nat)
      requires from <= |chain|
      ensures from <= n <= |chain|
      decreases |chain| - from
    {
      if from == |chain| then from else if Forwards(from) then from + 1 else Stop(from + 1)
    }

    function Reached(): nat {
      Stop(0)
    }

    lemma {:induction false} StopSkips(n: nat)
      requires n <= |chain| && NoneForwards(n)
      ensures Reached() == Stop(n)
    {
      if n > 0 { StopSkips(n - 1); }
    }

    /** There is exactly one such number. */
    lemma ReachedIsVisited(v: nat)
      ensures Visited(v) <==> v == Reached()
    {
      if Visited(v) && v > 0 { StopSkips(v - 1); }
      StopVisits(0);
    }

    lemma {:induction false} StopVisits(from: nat)
      requires from <= |chain| && NoneForwards(from)
      ensures Visited(Stop(from))
      decreases |chain| - from
    {
      if from < |chain| && !Forwards(from) { StopVisits(from + 1); }
    }

    function ResponseAfter(n: nat): Response
      requires n <= |chain|
    {
      if n == 0 then BadGateway(RequestFailed) else Verdict(n - 1, |Sends(n - 1)|).response
    }

    // --- what the specification promises ---

    lemma {:induction false} BlockAt(d: nat, n: nat, a: nat)
      requires a < n
      ensures Block(d, n)[a] == Send(d, a)
      decreases n
    {
      if a < n - 1 { BlockAt(d, n - 1, a); }
    }

    /** The n-th send goes on to another deployment, or is the last of the request. */
    ghost predicate LeavesDeployment(s: seq<Send>, n: nat)
      requires n < |s|
    {
      n + 1 == |s| || s[n + 1].deployment != s[n].deployment
    }

    /** The n-th send is where it should be: a retry directly follows a retryable reply of the same
        deployment, a first try comes after every earlier deployment, and a deployment is left only on a
        reply that is not retryable or when its attempts are used up. */
    ghost predicate WellPlaced(s: seq<Send>, n: nat)
      requires n < |s|
    {
      && s[n].deployment < |chain| && chain[s[n].deployment] == Sendable
      && s[n].attempt < policy.maxAttempts
      && (s[n].attempt > 0 ==> n > 0 && s[n - 1] == Send(s[n].deployment, s[n].attempt - 1) && IsRetryable(n - 1))
      && (s[n].attempt == 0 && n > 0 ==> s[n - 1].deployment < s[n].deployment)
      && (LeavesDeployment(s, n) ==> !IsRetryable(n) || s[n].attempt + 1 == policy.maxAttempts)
    }

    lemma EarlierStayPlaced(before: seq<Send>, block: seq<Send>, n: nat)
      requires n < |before| && WellPlaced(before, n)
      requires block != [] ==> block[0].deployment != before[n].deployment
      ensures WellPlaced(before + block, n)
    {
      var s := before + block;
      assert n > 0 ==> s[n - 1] == before[n - 1];
      assert n + 1 < |before| ==> s[n + 1] == before[n + 1];
      assert LeavesDeployment(s, n) == LeavesDeployment(before, n) || n + 1 == |before|;
    }

    lemma BlockIsPlaced(before: seq<Send>, d: nat, n: nat)
      requires d < |chain| && |before| <= n < |before| + Tries(d, |before|)
      requires before != [] ==> before[|before| - 1].deployment < d
      ensures WellPlaced(before + Block(d, Tries(d, |before|)), n)
    {
      var k, tries := |before|, Tries(d, |before|);
      var s := before + Block(d, tries);
      BlockAt(d, tries, n - k);
      assert s[n] == Send(d, n - k);
      if n > k {
        BlockAt(d, tries, n - k - 1);
        assert s[n - 1] == Send(d, n - k - 1);
        assert IsRetryable(n - 1);
      }
      if n + 1 < |s| {
        BlockAt(d, tries, n + 1 - k);
        assert s[n + 1] == Send(d, n + 1 - k);
      }
    }

    /** Every send of the first `v` deployments is in chain order, within its deployment's attempts, and where
        the reply before it puts it. */
    lemma {:induction false} SendsInOrder(v: nat, n: nat)
      requires v <= |chain| && n < |Sends(v)|
      ensures Sends(v)[n].deployment < v
      ensures WellPlaced(Sends(v), n)
      decreases v
    {
      var before, d := Sends(v - 1), v - 1;
      var tries := Tries(d, |before|);
      if tries > 0 { BlockAt(d, tries, 0); }
      if n < |before| {
        SendsInOrder(d, n);
        EarlierStayPlaced(before, Block(d, tries), n);
      } else {
        if before != [] { SendsInOrder(d, |before| - 1); }
        BlockIsPlaced(before, d, n);
        BlockAt(d, tries, n - |before|);
      }
    }

    /** A reply is retried exactly if its status is a retryable one and the attempts of its deployment are not used up:
        then, and only then, the next send is the next attempt at the same deployment. */
    lemma RetriedExactly(v: nat, n: nat)
      requires v <= |chain| && n < |Sends(v)|
      ensures var s := Sends(v);
              n + 1 < |s| && s[n + 1] == Send(s[n].deployment, s[n].attempt + 1) <==>
              replies(n).Reply? && replies(n).status in policy.retryable && s[n].attempt + 1 < policy.maxAttempts
    {
      SendsInOrder(v, n);
      if n + 1 < |Sends(v)| { SendsInOrder(v, n + 1); }
    }

    /** No deployment that can be sent to is left out. */
    lemma {:induction false} EveryDeploymentTried(v: nat, d: nat)
      requires d < v <= |chain| && chain[d] == Sendable && policy.maxAttempts > 0
      ensures Send(d, 0) in Sends(v)
      decreases v
    {
      if d < v - 1 {
        EveryDeploymentTried(v - 1, d);
      } else {
        var k, tries := |Sends(d)|, Tries(d, |Sends(d)|);
        BlockAt(d, tries, 0);
        assert Sends(v)[k] == Send(d, 0);
      }
    }

    /** Neither retryable nor a server error. */
    predicate ToForward(reply: Reply) {
      reply.Reply? && reply.status !in policy.retryable && (reply.status < 500 || reply.status > 599)
    }

    /** The first forwardable reply ends the request: nothing is sent after it, and the client gets it, or a 502 if
        its body cannot be read, even with deployments left. */
    lemma FirstForwardableWins(v: nat)
      requires Visited(v)
      ensures forall n | 0 <= n < |Sends(v)| && ToForward(replies(n)) ::
                n == |Sends(v)| - 1 && ResponseAfter(v) == if replies(n).readable then Relay(n) else Unreadable(n)
    {
      assert forall n: nat :: ToForward(replies(n)) <==> Forwardable(n);
      if v > 0 {
        var k, tries := |Sends(v - 1)|, Tries(v - 1, |Sends(v - 1)|);
        NoForwardableBefore(v - 1);
        forall n | 0 <= n < k + tries && Forwardable(n) ensures n == k + tries - 1 {
          assert n >= k && !IsRetryable(n);
        }
      }
    }

    /** The client gets an upstream reply exactly when the last deployment visited sent something, the last reply is
        forwardable or is a retryable one that used up the attempts of the end of the chain, and its body can be
        read; and the reply it gets is that last one. If only the body is in the way, it gets a 502. */
    lemma RelayedReplies(v: nat)
      requires Visited(v)
      ensures v == 0 ==> ResponseAfter(v) == BadGateway(RequestFailed)
      ensures v > 0 ==> DecidedByLast(v - 1, Sends(v), ResponseAfter(v))
    {
      if v > 0 {
        LastSend(v - 1, |Sends(v - 1)|);
        LastDecided(v - 1, |Sends(v - 1)|, Sends(v));
      }
    }

    /** `s` are the sends up to and including those of deployment `d`: its last reply is for the client. */
    predicate LastDecides(d: nat, s: seq<Send>) {
      && |s| > 0 && s[|s| - 1].deployment == d
      && (ToForward(replies(|s| - 1)) || (d + 1 == |chain| && IsRetryable(|s| - 1)))
    }

    /** `r` is the answer after those sends. */
    ghost predicate DecidedByLast(d: nat, s: seq<Send>, r: Response) {
      && (LastDecides(d, s) ==>
            && r == (if replies(|s| - 1).readable then Relay(|s| - 1) else Unreadable(|s| - 1))
            && (Forwardable(|s| - 1) || s[|s| - 1].attempt == policy.maxAttempts - 1))
      && (!LastDecides(d, s) ==> r.BadRequest? || r.BadGateway?)
    }

    lemma LastDecided(d: nat, k: nat, s: seq<Send>)
      requires d < |chain| && EndsWith(d, k, s)
      ensures DecidedByLast(d, s, Verdict(d, k).response)
    {
      VerdictDecided(d, k);
    }

    ghost predicate EndsWith(d: nat, k: nat, s: seq<Send>)
      requires d < |chain|
    {
      && |s| == k + Tries(d, k)
      && (Tries(d, k) > 0 ==> s[|s| - 1] == Send(d, Tries(d, k) - 1))
      && (Tries(d, k) == 0 && k > 0 ==> s[|s| - 1].deployment < d)
    }

    lemma VerdictDecided(d: nat, k: nat)
      requires d < |chain|
      ensures var last := k + Tries(d, k) - 1;
              if Tries(d, k) > 0 && (Forwardable(last) || (IsRetryable(last) && IsLast(d))) then
                && Verdict(d, k) == Forward(if replies(last).readable then Relay(last) else Unreadable(last))
                && (Forwardable(last) || Tries(d, k) == policy.maxAttempts)
              else
                Verdict(d, k).response.BadRequest? || Verdict(d, k).response.BadGateway?
    {
    }

    /** Where the sends of the first deployments end: with the last try of the last of them, if it sent at all. */
    lemma LastSend(d: nat, k: nat)
      requires d < |chain| && k == |Sends(d)|
      ensures EndsWith(d, k, Sends(d + 1))
    {
      var tries := Tries(d, k);
      assert Sends(d + 1) == Sends(d) + Block(d, tries);
      if tries > 0 {
        BlockAt(d, tries, tries - 1);
      } else if k > 0 {
        SendsInOrder(d, k - 1);
      }
    }

    /** The gateway answers 400 exactly for a body it could not rewrite, and 502 exactly when the whole chain has
        failed over, or when the reply meant for the client cannot be read. */
    lemma GatewayErrors(v: nat)
      requires Visited(v)
      ensures ErrsRightly(v, v == |chain| && NoneForwards(v), Sends(v), ResponseAfter(v))
    {
      if v > 0 {
        var k := |Sends(v - 1)|;
        LastSend(v - 1, k);
        LastVisited(v, Verdict(v - 1, k));
        ErrorsOf(v - 1, k, Sends(v), v == |chain| && NoneForwards(v));
      }
    }

    /** Once the whole chain has failed over, the 502 names what went wrong with the last deployment. */
    lemma LastFaultTold(v: nat)
      requires Visited(v) && v > 0 && ResponseAfter(v).BadGateway?
      ensures ResponseAfter(v).fault == match chain[v - 1]
                                        case BadUri => UriFailed
                                        case BadHeaders => HeadersFailed
                                        case _ => RequestFailed
    {
    }

    /** After `v` deployments and the sends `s`, the whole chain having failed over or not, the answer `r` is an error
        of the gateway's own exactly when it should be. */
    ghost predicate ErrsRightly(v: nat, exhausted: bool, s: seq<Send>, r: Response)
      requires v <= |chain|
    {
      && (r == BadRequest <==> v > 0 && chain[v - 1] == BadBody)
      && (r.Is502() <==> exhausted || (v > 0 && LastDecides(v - 1, s) && !replies(|s| - 1).readable))
    }

    /** The last deployment visited is the end of the chain or forwards. */
    lemma LastVisited(v: nat, attempt: Attempt)
      requires Visited(v) && v > 0 && attempt == Verdict(v - 1, |Sends(v - 1)|)
      ensures ResponseAfter(v) == attempt.response
      ensures attempt.FailOver? <==> v == |chain| && NoneForwards(v)
    {
      assert Forwards(v - 1) <==> attempt.Forward?;
    }

    lemma ErrorsOf(d: nat, k: nat, s: seq<Send>, exhausted: bool)
      requires d < |chain| && EndsWith(d, k, s) && exhausted == Verdict(d, k).FailOver?
      ensures ErrsRightly(d + 1, exhausted, s, Verdict(d, k).response)
    {
      LastDecided(d, k, s);
      VerdictKinds(d, k);
    }

    /** A deployment that fails over leaves a 502 behind; one that forwards leaves no fault of the gateway. */
    lemma VerdictKinds(d: nat, k: nat)
      requires d < |chain|
      ensures Verdict(d, k).FailOver? <==> Verdict(d, k).response.BadGateway?
      ensures Verdict(d, k).response.BadRequest? <==> chain[d] == BadBody
    {
    }

    /** Deployments that fail over never saw a forwardable reply. */
    lemma {:induction false} NoForwardableBefore(v: nat)
      requires v <= |chain| && NoneForwards(v)
      ensures forall n :: 0 <= n < |Sends(v)| ==> !Forwardable(n)
    {
      if v > 0 {
        NoForwardableBefore(v - 1);
        var k, tries := |Sends(v - 1)|, Tries(v - 1, |Sends(v - 1)|);
        forall n | k <= n < k + tries ensures !Forwardable(n) {
          if n < k + tries - 1 { assert IsRetryable(n); }
        }
      }
    }

    /** A deployment waits once between any two of its tries, and each wait is the one the reply before it asks for. */
    lemma WaitsAskedFor(d: nat, k: nat, a: nat)
      requires d < |chain|
      ensures |WaitsOf(d, k)| == Max(Tries(d, k) - 1, 0)
      ensures a < |WaitsOf(d, k)| ==> AskedFor(WaitsOf(d, k)[a], a, k + a)
    {
      if a < |WaitsOf(d, k)| {
        PauseAt(k, Tries(d, k) - 1, a);
        assert IsRetryable(k + a);
        DelayIsAskedFor(policy, a, replies(k + a).retryAfter, jitter(k + a));
      }
    }

    /** The n-th reply asks for a retry after this wait. */
    ghost predicate AskedFor(wait: nat, a: nat, n: nat) {
      && replies(n).Reply? && replies(n).status in policy.retryable
      && IsAskedFor(policy, wait, a, replies(n).retryAfter, jitter(n))
    }

    /** In sends `s` and waits `w`, with those of deployment `d` from `k` and from `o` on: its attempts `a` and `a + 1`
        follow each other, and the wait between them is the one the reply in between asks for. */
    ghost predicate Waited(s: seq<Send>, w: seq<nat>, d: nat, k: nat, o: nat, a: nat) {
      && k + a + 1 < |s| && s[k + a] == Send(d, a) && s[k + a + 1] == Send(d, a + 1)
      && o + a < |w| && AskedFor(w[o + a], a, k + a)
    }

    lemma WaitedHere(s: seq<Send>, w: seq<nat>, d: nat, a: nat)
      requires d < |chain| && a + 1 < Tries(d, |s|)
      ensures Waited(s + Block(d, Tries(d, |s|)), w + WaitsOf(d, |s|), d, |s|, |w|, a)
    {
      WaitsAskedFor(d, |s|, a);
      BlockAt(d, Tries(d, |s|), a);
      BlockAt(d, Tries(d, |s|), a + 1);
    }

    lemma WaitedStays(s: seq<Send>, w: seq<nat>, block: seq<Send>, pauses: seq<nat>, d: nat, k: nat, o: nat, a: nat)
      requires Waited(s, w, d, k, o, a)
      ensures Waited(s + block, w + pauses, d, k, o, a)
    {
      assert (s + block)[k + a] == s[k + a] && (s + block)[k + a + 1] == s[k + a + 1];
      assert (w + pauses)[o + a] == w[o + a];
    }

    lemma OneMoreDeployment(v: nat)
      requires 0 < v <= |chain|
      ensures Sends(v) == Sends(v - 1) + Block(v - 1, Tries(v - 1, |Sends(v - 1)|))
      ensures Waits(v) == Waits(v - 1) + WaitsOf(v - 1, |Sends(v - 1)|)
    {
    }

    /** In the whole request: whenever one deployment is sent to twice in a row, the wait between the two sends is the
        one the reply in between asks for. */
    lemma {:induction false} WaitBetweenSends(v: nat, d: nat, a: nat)
      requires d < v <= |chain| && a + 1 < Tries(d, |Sends(d)|)
      ensures Waited(Sends(v), Waits(v), d, |Sends(d)|, |Waits(d)|, a)
      decreases v
    {
      var s, w := Sends(v - 1), Waits(v - 1);
      OneMoreDeployment(v);
      if d == v - 1 {
        WaitedHere(s, w, d, a);
      } else {
        WaitBetweenSends(v - 1, d, a);
        WaitedStays(s, w, Block(v - 1, Tries(v - 1, |s|)), WaitsOf(v - 1, |s|), d, |Sends(d)|, |Waits(d)|, a);
      }
    }

    function MaxWait(): nat {
      Repeat(Max(policy.maxAttempts - 1, 0), policy.maxDelayMs)
    }

    lemma {:induction false} WaitsWithin(v: nat)
      requires v <= |chain|
      ensures Sum(Waits(v)) <= Repeat(v, MaxWait())
    {
      if v > 0 {
        WaitsWithin(v - 1);
        SumConcat(Waits(v - 1), WaitsOf(v - 1, |Sends(v - 1)|));
        DeploymentWaitBound(v - 1, |Sends(v - 1)|);
      }
    }

    /** Whatever the providers answer and whatever the jitter, a request waits at most `max_delay_ms` before
        each retry, so at most chain length * (max_attempts - 1) * max_delay_ms in all. */
    lemma WaitBound(v: nat)
      requires v <= |chain|
      ensures Sum(Waits(v)) <= v * (Max(policy.maxAttempts - 1, 0) * policy.maxDelayMs)
    {
      WaitsWithin(v);
      RepeatIsProduct(v, MaxWait());
      RepeatIsProduct(Max(policy.maxAttempts - 1, 0), policy.maxDelayMs);
    }

    lemma DeploymentWaitBound(d: nat, k: nat)
      requires d < |chain|
      ensures Sum(WaitsOf(d, k)) <= MaxWait()
    {
      var tries := Tries(d, k);
      if tries > 0 {
        PausesBound(k, tries - 1);
        RepeatMonotone(tries - 1, policy.maxAttempts - 1, policy.maxDelayMs);
      }
    }

    lemma {:induction false} PausesBound(k: nat, n: nat)
      ensures Sum(Pauses(k, n)) <= Repeat(n, policy.maxDelayMs)
    {
      if n > 0 {
        PausesBound(k, n - 1);
        var last := DelayAfter(n - 1, k + n - 1);
        SumConcat(Pauses(k, n - 1), [last]);
        assert SumTo([last], 1) == SumTo([last], 0) + last;
      }
    }

    // --- the loops ---

    /** The body of the retry loop once the n-th send has come back; `None` means wait and send again. */
    method HandleReply(n: nat, isLast: bool, isFinalAttempt: bool) returns (decided: Option<Attempt>)
      ensures decided == StepVerdict(n, isLast, isFinalAttempt)
    {
      var reply := replies(n);
      if reply.TransportError? {
        return Some(FailOver(BadGateway(RequestFailed)));
      }
      var retryable := reply.status in policy.retryable;
      if ServerError(reply.status) && !retryable {
        return Some(FailOver(BadGateway(RequestFailed)));
      }
      if retryable {
        if isFinalAttempt {
          if isLast {
            // Nowhere left to fail over: the real response goes out.
            return Some(Forward(ForwardUpstream(n)));
          }
          return Some(FailOver(BadGateway(RequestFailed)));
        }
        return None;
      }
      return Some(Forward(ForwardUpstream(n)));
    }

    /** `attempt_provider`; `first` sends have been made before it. */
    method AttemptProvider(d: nat, first: nat) returns (attempt: Attempt, sends: seq<Send>, waits: seq<nat>)
      requires d < |chain|
      ensures attempt == Verdict(d, first)
      ensures sends == Block(d, Tries(d, first))
      ensures waits == WaitsOf(d, first)
    {
      sends, waits := [], [];
      match chain[d] {
        case BadBody => return Forward(BadRequest), sends, waits;
        case BadUri => return FailOver(BadGateway(UriFailed)), sends, waits;
        case BadHeaders => return FailOver(BadGateway(HeadersFailed)), sends, waits;
        case Sendable =>
      }
      for a := 0 to policy.maxAttempts
        invariant sends == Block(d, a)
        invariant waits == Pauses(first, a)
        invariant AllRetryable(first, a)
        invariant a == policy.maxAttempts ==> a == 0
      {
        sends := sends + [Send(d, a)];
        var decided := HandleReply(first + a, IsLast(d), a + 1 >= policy.maxAttempts);
        if decided.Some? {
          StopsAt(d, first, a);
          return decided.value, sends, waits;
        }
        waits := waits + [DelayAfter(a, first + a)];
      }
      attempt := FailOver(BadGateway(RequestFailed));
    }

    /** The chain loop of `proxy`. */
    method Proxy() returns (response: Response, sends: seq<Send>, waits: seq<nat>)
      ensures response == ResponseAfter(Reached())
      ensures sends == Sends(Reached())
      ensures waits == Waits(Reached())
    {
      var lastError: Option<Response> := None;
      sends, waits := [], [];
      for d := 0 to |chain|
        invariant sends == Sends(d) && waits == Waits(d)
        invariant NoneForwards(d)
        invariant lastError == if d == 0 then None else Some(ResponseAfter(d))
      {
        StopSkips(d);
        var attempt, more, pauses := AttemptProvider(d, |sends|);
        sends, waits := sends + more, waits + pauses;
        match attempt {
          case Forward(r) => return r, sends, waits;
          case FailOver(r) => lastError := Some(r);
        }
      }
      StopSkips(|chain|);
      response := lastError.GetOr(BadGateway(RequestFailed));
    }
  }

  /** An input at which a documented ceiling is not what is computed: 66 attempts, a base of one millisecond, the
      largest cap, and a provider that answers 429 every time. The wait after attempt 64 is drawn below 2^63, where
      the documentation promises 2^64 - 1. */
  lemma CeilingMissesDocumentation(jitter: nat -> real)
    ensures var p := RetryPolicy({429}, 66, 1, U64_MAX);
            var s := Scenario([Sendable], p, (n: nat) => Reply(429, Missing, true), jitter);
            && |s.WaitsOf(0, 0)| == 65 && s.WaitsOf(0, 0)[64] == p.BackoffMs(64, jitter(64))
            && p.BackoffCeiling(64) == 0x8000_0000_0000_0000
            && Min(p.maxDelayMs, p.baseDelayMs * Pow2(64)) == U64_MAX
  {
    var p := RetryPolicy({429}, 66, 1, U64_MAX);
    var s := Scenario([Sendable], p, (n: nat) => Reply(429, Missing, true), jitter);
    s.StreakUnbroken(0, 65);
    s.PauseAt(0, 65, 64);
    Pow2Of63();
    assert Pow2(64) == 2 * Pow2(63);
  }

  /** An input at which the gateway answers 502 with a deployment left: the first reply is fine but for its body,
      which cannot be read. */
  lemma UnreadableEndsTheChain(policy: RetryPolicy, jitter: nat -> real)
    requires policy.maxAttempts > 0 && 200 !in policy.retryable
    ensures var s := Scenario([Sendable, Sendable], policy, (n: nat) => Reply(200, Missing, false), jitter);
            s.Visited(1) && s.ResponseAfter(1) == Unreadable(0) && s.ResponseAfter(1).Is502()
  {
    var s := Scenario([Sendable, Sendable], policy, (n: nat) => Reply(200, Missing, false), jitter);
    assert s.Forwardable(0) && s.Tries(0, 0) == 1 && s.Sends(0) == [];
    assert s.Verdict(0, 0) == Forward(Unreadable(0));
  }

  function SumTo(s: seq<nat>, n: nat): nat
    requires n <= |s|
  {
    if n == 0 then 0 else SumTo(s, n - 1) + s[n - 1]
  }

  function Sum(s: seq<nat>): nat {
    SumTo(s, |s|)
  }

  /** The sum of nothing, and of one more. */
  lemma SumMeaning(s: seq<nat>, x: nat)
    ensures Sum([]) == 0 && Sum(s + [x]) == Sum(s) + x
  {
    SumToPrefix(s, [x], |s|);
    assert (s + [x])[|s|] == x;
  }

  lemma {:induction false} SumToPrefix(a: seq<nat>, b: seq<nat>, n: nat)
    requires n <= |a|
    ensures SumTo(a + b, n) == SumTo(a, n)
  {
    if n > 0 { SumToPrefix(a, b, n - 1); }
  }

  lemma {:induction false} SumToRest(a: seq<nat>, b: seq<nat>, n: nat)
    requires n <= |b|
    ensures SumTo(a + b, |a| + n) == SumTo(a, |a|) + SumTo(b, n)
  {
    if n == 0 {
      SumToPrefix(a, b, |a|);
    } else {
      SumToRest(a, b, n - 1);
      assert (a + b)[|a| + n - 1] == b[n - 1];
    }
  }

  lemma SumConcat(a: seq<nat>, b: seq<nat>)
    ensures Sum(a + b) == Sum(a) + Sum(b)
  {
    SumToRest(a, b, |b|);
  }
}

/** Spend counters, the sums they are reconciled to, the quota check and the credit ledger
    (src/quota/, src/state.rs `check_quota`). */
module Quota {
  import opened Basics
  import opened Usage

  datatype Scope = User(id: Uuid) | Key(id: Uuid)

  // --- counters ---

  type Counters = map<Scope, Money>

  function CounterGet(values: Counters, scope: Scope): Money {
    if scope in values then values[scope] else 0.0
  }

  function CounterAdd(values: Counters, scope: Scope, cost: Money): Counters {
    values[scope := CounterGet(values, scope) + cost]
  }

  /** `MemoryCounter` */
  class MemoryCounter {
    var values: Counters

    constructor ()
      ensures values == map[]
    {
      values := map[];
    }

    method Get(scope: Scope) returns (value: Money)
      ensures value == CounterGet(values, scope)
    {
      value := if scope in values then values[scope] else 0.0;
    }

    method Add(scope: Scope, cost: Money)
      modifies this
      ensures values == CounterAdd(old(values), scope, cost)
    {
      if scope !in values {
        values := values[scope := 0.0];
      }
      values := values[scope := values[scope] + cost];
    }

    method Reset(scope: Scope, value: Money)
      modifies this
      ensures values == old(values)[scope := value]
    {
      values := values[scope := value];
    }
  }

  // --- the database side ---

  predicate Attributed(r: UsageRecord, scope: Scope) {
    match scope
    case User(id) => r.userId == Some(id)
    case Key(id) => r.apiKeyId == Some(id)
  }

  /** A row's share of a scope's spend; a missing cost counts as zero. */
  function Weight(r: UsageRecord, scope: Scope): Money {
    if Attributed(r, scope) then r.cost.GetOr(0.0) else 0.0
  }

  function Spent(rows: seq<UsageRecord>, scope: Scope): Money {
    if rows == [] then 0.0 else Weight(rows[0], scope) + Spent(rows[1..], scope)
  }

  lemma {:induction false} SpentConcat(a: seq<UsageRecord>, b: seq<UsageRecord>, scope: Scope)
    ensures Spent(a + b, scope) == Spent(a, scope) + Spent(b, scope)
  {
    if a == [] {
      assert a + b == b;
    } else {
      assert (a + b)[1..] == a[1..] + b;
      SpentConcat(a[1..], b, scope);
    }
  }

  ghost predicate CostsOk(rows: seq<UsageRecord>) {
    forall r :: r in rows ==> CostOk(r)
  }

  lemma {:induction false} SpentNonNegative(rows: seq<UsageRecord>, scope: Scope)
    requires CostsOk(rows)
    ensures Spent(rows, scope) >= 0.0
  {
    if rows != [] {
      assert rows[0] in rows;
      SpentNonNegative(rows[1..], scope);
    }
  }

  /** `SELECT user_id, SUM(...) ... GROUP BY user_id`: only users with a row are listed. */
  function SumsByUser(rows: seq<UsageRecord>): Counters {
    var scopes := set r | r in rows && r.userId.Some? :: User(r.userId.value);
    map s | s in scopes :: Spent(rows, s)
  }

  function SumsByKey(rows: seq<UsageRecord>): Counters {
    var scopes := set r | r in rows && r.apiKeyId.Some? :: Key(r.apiKeyId.value);
    map s | s in scopes :: Spent(rows, s)
  }

  /** `reconcile_counters` run without interruption: a loop over the users' sums, then over the keys',
      each in no particular order. */
  method ReconcileCounters(rows: seq<UsageRecord>, counter: MemoryCounter)
    modifies counter
    ensures counter.values == old(counter.values) + SumsByUser(rows) + SumsByKey(rows)
  {
    ResetAll(SumsByUser(rows), counter);
    ResetAll(SumsByKey(rows), counter);
  }

  method ResetAll(sums: Counters, counter: MemoryCounter)
    modifies counter
    ensures counter.values == old(counter.values) + sums
  {
    var todo := sums.Keys;
    while todo != {}
      invariant todo <= sums.Keys
      invariant counter.values.Keys == old(counter.values).Keys + (sums.Keys - todo)
      invariant forall s :: s in counter.values ==>
                  counter.values[s] == if s in sums && s !in todo then sums[s] else old(counter.values)[s]
      decreases todo
    {
      var s :| s in todo;
      counter.Reset(s, sums[s]);
      todo := todo - {s};
    }
  }

  lemma {:induction false} UnlistedSpendsNothing(rows: seq<UsageRecord>, scope: Scope)
    requires forall r :: r in rows ==> !Attributed(r, scope)
    ensures Spent(rows, scope) == 0.0
  {
    if rows != [] {
      assert rows[0] in rows;
      UnlistedSpendsNothing(rows[1..], scope);
    }
  }

  /** Boot seeding: from empty counters, a pass leaves every scope at its database sum, listed or not. */
  lemma SeedingIsExact(rows: seq<UsageRecord>, scope: Scope)
    ensures CounterGet(map[] + SumsByUser(rows) + SumsByKey(rows), scope) == Spent(rows, scope)
  {
    if r :| r in rows && Attributed(r, scope) {
      match scope
      case User(id) => assert User(r.userId.value) == scope;
      case Key(id) => assert Key(r.apiKeyId.value) == scope;
    } else {
      UnlistedSpendsNothing(rows, scope);
    }
  }

  // --- the quota check ---

  datatype QuotaDecision = Allowed | UserExhausted(granted: Money) | KeyCapReached(cap: Money)

  datatype KeyIdentity = KeyIdentity(
    userId: Uuid,
    apiKeyId: Uuid,
    allowedModels: Option<set<string>>,
    spendCap: Option<Money>)
  {
    predicate MayCall(model: string) {
      allowedModels.None? || model in allowedModels.value
    }
  }

  /** `GatewayState::check_quota`, with nothing else running between the two reads. */
  method CheckQuota(granted: map<Uuid, Money>, counter: MemoryCounter, identity: KeyIdentity)
    returns (decision: QuotaDecision)
    ensures
      var grant := if identity.userId in granted then granted[identity.userId] else 0.0;
      var user := CounterGet(counter.values, User(identity.userId));
      var key := CounterGet(counter.values, Key(identity.apiKeyId));
      && (decision.UserExhausted? <==> user >= grant)
      && (decision.UserExhausted? ==> decision.granted == grant)
      && (decision.KeyCapReached? <==> user < grant && identity.spendCap.Some? && key >= identity.spendCap.value)
      && (decision.KeyCapReached? ==> decision.cap == identity.spendCap.value)
  {
    var grant := if identity.userId in granted then granted[identity.userId] else 0.0;
    var user := counter.Get(User(identity.userId));
    if user >= grant {
      return UserExhausted(grant);
    }
    if identity.spendCap.Some? {
      var key := counter.Get(Key(identity.apiKeyId));
      if key >= identity.spendCap.value {
        return KeyCapReached(identity.spendCap.value);
      }
    }
    return Allowed;
  }

  // --- the credit ledger ---

  datatype Grant = Grant(userId: Uuid, amount: Money, grantedBy: Uuid)

  function Granted(grants: seq<Grant>, user: Uuid): Money {
    if grants == [] then 0.0
    else
      var last := grants[|grants| - 1];
      Granted(grants[..|grants| - 1], user) + if last.userId == user then last.amount else 0.0
  }

  class QuotaStore {
    var grants: seq<Grant>

    constructor ()
      ensures grants == []
    {
      grants := [];
    }

    /** Append-only: a correction is a negative entry, earlier entries stay. */
    method AppendGrant(grant: Grant)
      modifies this
      ensures grants == old(grants) + [grant]
      ensures forall u :: Granted(grants, u) ==
                Granted(old(grants), u) + if u == grant.userId then grant.amount else 0.0
    {
      grants := grants + [grant];
      assert grants[..|grants| - 1] == old(grants);
    }

    /** `grant_sums`: a user absent from the map has been granted nothing. */
    method GrantSums() returns (sums: map<Uuid, Money>)
      ensures forall u :: (if u in sums then sums[u] else 0.0) == Granted(grants, u)
    {
      sums := map[];
      for i := 0 to |grants|
        invariant forall u :: (if u in sums then sums[u] else 0.0) == Granted(grants[..i], u)
      {
        var g := grants[i];
        assert grants[..i + 1][..i] == grants[..i];
        sums := sums[g.userId := (if g.userId in sums then sums[g.userId] else 0.0) + g.amount];
      }
      assert grants[..|grants|] == grants;
    }
  }
}

/** Admin sessions in memory and in Redis, both against the history of logins and logouts
    (src/admin/session.rs). */
module Sessions {
  import opened Basics

  /** `SESSION_TTL` in milliseconds; a whole number of seconds, so Redis' `EX` keeps all of it. */
  const SESSION_TTL := 24 * 60 * 60 * 1000

  datatype SessionIdentity = SessionIdentity(userId: Uuid, username: string, admin: bool)

  datatype Session = Session(identity: SessionIdentity, expiresAt: nat)

  type Table = map<string, Session>

  function Lookup(sessions: Table, token: string): Option<Session> {
    if token in sessions then Some(sessions[token]) else None
  }

  /** The session, unless it has expired. */
  function Unexpired(s: Option<Session>, now: nat): Option<Session> {
    if s.Some? && s.value.expiresAt > now then s else None
  }

  // --- the history ---

  datatype Op =
    | Open(token: string, identity: SessionIdentity)
    | Get(token: string)
    | Remove(token: string)
    | RemoveUser(user: Uuid)

  datatype History = Start | Then(before: History, at: nat, op: Op)
  {
    function Now(): nat {
      if Start? then 0 else at
    }

    /** Tokens are drawn at random: none has been used before. */
    predicate Fresh(token: string) {
      Start? || (!(op.Open? && op.token == token) && before.Fresh(token))
    }

    /** The session a token stands for: it was opened, and neither it nor its user has been removed since. */
    function Opened(token: string): Option<Session> {
      match this
      case Start => None
      case Then(_, at, Open(t, identity)) =>
        if t == token then Some(Session(identity, at + SESSION_TTL)) else before.Opened(token)
      case Then(_, _, Remove(t)) => if t == token then None else before.Opened(token)
      case Then(_, _, RemoveUser(u)) =>
        var s := before.Opened(token);
        if s.Some? && s.value.identity.userId == u then None else s
      case Then(_, _, Get(_)) => before.Opened(token)
    }

    /** What `get` must answer: opened, not removed since, not expired. */
    function Answer(token: string, now: nat): Option<SessionIdentity> {
      match Unexpired(Opened(token), now)
      case Some(s) => Some(s.identity)
      case None => None
    }
  }

  /** A table holds, of every session, all that can still be read. */
  ghost predicate Tracks(sessions: Table, h: History, now: nat) {
    forall token :: Unexpired(Lookup(sessions, token), now) == Unexpired(h.Opened(token), now)
  }

  lemma TimePasses(sessions: Table, h: History, now: nat, later: nat)
    requires Tracks(sessions, h, now) && now <= later
    ensures Tracks(sessions, h, later)
  {
    forall token ensures Unexpired(Lookup(sessions, token), later) == Unexpired(h.Opened(token), later) {
      assert Unexpired(Lookup(sessions, token), now) == Unexpired(h.Opened(token), now);
    }
  }

  // --- in memory ---

  class MemorySessionStore {
    var sessions: Table
    ghost var history: History

    ghost predicate Valid()
      reads this
    {
      Tracks(sessions, history, history.Now())
    }

    constructor ()
      ensures Valid() && history == Start
    {
      sessions, history := map[], Start;
    }

    method Open(token: string, identity: SessionIdentity, now: nat)
      requires Valid() && now >= history.Now()
      modifies this
      ensures Valid() && history == Then(old(history), now, Op.Open(token, identity))
    {
      TimePasses(sessions, history, history.Now(), now);
      sessions := sessions[token := Session(identity, now + SESSION_TTL)];
      history := Then(history, now, Op.Open(token, identity));
    }

    /** An expired session is removed when it is asked for. */
    method Get(token: string, now: nat) returns (identity: Option<SessionIdentity>)
      requires Valid() && now >= history.Now()
      modifies this
      ensures Valid() && history == Then(old(history), now, Op.Get(token))
      ensures identity == old(history).Answer(token, now)
    {
      TimePasses(sessions, history, history.Now(), now);
      assert Unexpired(Lookup(sessions, token), now) == Unexpired(history.Opened(token), now);
      history := Then(history, now, Op.Get(token));
      if token !in sessions {
        return None;
      }
      if sessions[token].expiresAt > now {
        return Some(sessions[token].identity);
      }
      sessions := sessions - {token};
      return None;
    }

    method Remove(token: string, now: nat)
      requires Valid() && now >= history.Now()
      modifies this
      ensures Valid() && history == Then(old(history), now, Op.Remove(token))
    {
      TimePasses(sessions, history, history.Now(), now);
      sessions := sessions - {token};
      history := Then(history, now, Op.Remove(token));
    }

    method RemoveUser(user: Uuid, now: nat)
      requires Valid() && now >= history.Now()
      modifies this
      ensures Valid() && history == Then(old(history), now, Op.RemoveUser(user))
      ensures forall token :: token in sessions ==> sessions[token].identity.userId != user
    {
      TimePasses(sessions, history, history.Now(), now);
      sessions := map t | t in sessions && sessions[t].identity.userId != user :: sessions[t];
      history := Then(history, now, Op.RemoveUser(user));
      forall token ensures Unexpired(Lookup(sessions, token), now) == Unexpired(history.Opened(token), now) {
        assert Unexpired(Lookup(old(sessions), token), now) == Unexpired(old(history).Opened(token), now);
      }
    }
  }

  // --- in Redis ---

  /** A set key: members and expiry. */
  datatype TokenSet = TokenSet(members: set<string>, expiresAt: nat)

  type Index = map<Uuid, TokenSet>

  /** What `SMEMBERS` returns: an expired or missing key has no members. */
  function Members(index: Index, user: Uuid, now: nat): (tokens: set<string>)
    ensures user !in index || index[user].expiresAt <= now ==> tokens == {}
    ensures user in index && now < index[user].expiresAt ==> tokens == index[user].members
  {
    if user in index && index[user].expiresAt > now then index[user].members else {}
  }

  /** `SADD` and `EXPIRE` */
  function Listing(index: Index, user: Uuid, token: string, now: nat): Index {
    index[user := TokenSet(Members(index, user, now) + {token}, now + SESSION_TTL)]
  }

  /** `SREM`: a set without members is no key. */
  function Unlisted(index: Index, user: Uuid, token: string, now: nat): Index {
    var left := Members(index, user, now) - {token};
    if left == {} then index - {user} else index[user := index[user].(members := left)]
  }

  /** Every readable session is listed in its user's index, which does not expire before it. */
  ghost predicate Covers(index: Index, sessions: Table, now: nat) {
    forall token :: token in sessions && sessions[token].expiresAt > now ==>
      var s := sessions[token];
      && s.identity.userId in index
      && token in index[s.identity.userId].members
      && s.expiresAt <= index[s.identity.userId].expiresAt
  }

  /** Of the readable sessions, an index lists only its user's. */
  ghost predicate OwnTokens(index: Index, sessions: Table, now: nat) {
    forall u, token :: token in Members(index, u, now) && token in sessions && sessions[token].expiresAt > now ==>
      sessions[token].identity.userId == u
  }

  /** An index lists only tokens that were opened, and expires within the TTL. */
  ghost predicate WellListed(index: Index, h: History, now: nat) {
    && (forall u, token :: u in index && token in index[u].members ==> !h.Fresh(token))
    && (forall u :: u in index ==> index[u].expiresAt <= now + SESSION_TTL)
  }

  /** Another user's index lists the token. */
  ghost predicate Foreign(index: Index, token: string, user: Uuid, now: nat) {
    exists u :: u != user && token in Members(index, u, now)
  }

  /** What holds of the keys of a Redis database that belong to sessions; while no token is `shared`, they also answer
      as the history asks. */
  ghost predicate InOrder(sessions: Table, index: Index, h: History, shared: bool, now: nat) {
    && Covers(index, sessions, now) && WellListed(index, h, now)
    && (!shared ==> Tracks(sessions, h, now) && OwnTokens(index, sessions, now))
  }

  lemma OrderLasts(sessions: Table, index: Index, h: History, shared: bool, now: nat, later: nat)
    requires InOrder(sessions, index, h, shared, now) && now <= later
    ensures InOrder(sessions, index, h, shared, later)
  {
    if !shared {
      TimePasses(sessions, h, now, later);
      forall u ensures Members(index, u, later) <= Members(index, u, now) {
      }
    }
  }

  lemma OwnOpened(index: Index, sessions: Table, now: nat, token: string, identity: SessionIdentity)
    requires OwnTokens(index, sessions, now) && !Foreign(index, token, identity.userId, now)
    ensures OwnTokens(Listing(index, identity.userId, token, now),
                      sessions[token := Session(identity, now + SESSION_TTL)], now)
  {
    var user := identity.userId;
    var listed, table := Listing(index, user, token, now), sessions[token := Session(identity, now + SESSION_TTL)];
    forall u, t | t in Members(listed, u, now) && t in table && table[t].expiresAt > now
      ensures table[t].identity.userId == u
    {
      assert u != user ==> Members(listed, u, now) == Members(index, u, now);
      assert t in Members(index, u, now) || (u == user && t == token);
    }
  }

  lemma OwnFewer(index: Index, sessions: Table, fewer: Index, left: Table, now: nat)
    requires OwnTokens(index, sessions, now)
    requires forall u :: Members(fewer, u, now) <= Members(index, u, now)
    requires forall t :: t in left ==> t in sessions && left[t] == sessions[t]
    ensures OwnTokens(fewer, left, now)
  {
    forall u, token | token in Members(fewer, u, now) && token in left && left[token].expiresAt > now
      ensures left[token].identity.userId == u
    {
      assert token in Members(index, u, now);
    }
  }

  lemma WellListedOpened(index: Index, h: History, token: string, identity: SessionIdentity, now: nat)
    requires WellListed(index, h, now)
    ensures WellListed(Listing(index, identity.userId, token, now), Then(h, now, Op.Open(token, identity)), now)
  {
    var next := Then(h, now, Op.Open(token, identity));
    forall t ensures next.Fresh(t) <==> t != token && h.Fresh(t) {
    }
  }

  lemma CoversOpened(index: Index, sessions: Table, now: nat, token: string, identity: SessionIdentity)
    requires Covers(index, sessions, now) && forall u :: u in index ==> index[u].expiresAt <= now + SESSION_TTL
    ensures Covers(Listing(index, identity.userId, token, now),
                   sessions[token := Session(identity, now + SESSION_TTL)], now)
  {
  }

  lemma OpenKeeps(sessions: Table, index: Index, h: History, shared: bool, token: string, identity: SessionIdentity,
                  now: nat)
    requires InOrder(sessions, index, h, shared, now)
    ensures InOrder(sessions[token := Session(identity, now + SESSION_TTL)],
                    Listing(index, identity.userId, token, now), Then(h, now, Op.Open(token, identity)),
                    shared || Foreign(index, token, identity.userId, now), now)
  {
    WellListedOpened(index, h, token, identity, now);
    CoversOpened(index, sessions, now, token, identity);
    if !shared && !Foreign(index, token, identity.userId, now) {
      OwnOpened(index, sessions, now, token, identity);
      TracksOpened(sessions, h, token, identity, now);
    }
  }

  lemma TracksOpened(sessions: Table, h: History, token: string, identity: SessionIdentity, now: nat)
    requires Tracks(sessions, h, now)
    ensures Tracks(sessions[token := Session(identity, now + SESSION_TTL)], Then(h, now, Op.Open(token, identity)), now)
  {
    var table, next := sessions[token := Session(identity, now + SESSION_TTL)], Then(h, now, Op.Open(token, identity));
    forall t ensures Unexpired(Lookup(table, t), now) == Unexpired(next.Opened(t), now) {
      assert Unexpired(Lookup(sessions, t), now) == Unexpired(h.Opened(t), now);
    }
  }

  lemma UnlistedMembers(index: Index, user: Uuid, token: string, now: nat, u: Uuid)
    ensures Members(Unlisted(index, user, token, now), u, now) ==
            if u == user then Members(index, u, now) - {token} else Members(index, u, now)
  {
  }

  lemma CoversRemoved(index: Index, sessions: Table, now: nat, token: string, user: Uuid)
    requires Covers(index, sessions, now)
    ensures Covers(Unlisted(index, user, token, now), sessions - {token}, now)
  {
    forall t | t in sessions && sessions[t].expiresAt > now {
      UnlistedMembers(index, user, token, now, sessions[t].identity.userId);
    }
  }

  /** `user` is that of the readable session, if there is one. */
  lemma RemoveKeeps(sessions: Table, index: Index, h: History, shared: bool, token: string, user: Uuid, now: nat)
    requires InOrder(sessions, index, h, shared, now)
    ensures InOrder(sessions - {token}, Unlisted(index, user, token, now), Then(h, now, Op.Remove(token)), shared, now)
    ensures Unexpired(Lookup(sessions, token), now).None? ==>
              InOrder(sessions - {token}, index, Then(h, now, Op.Remove(token)), shared, now)
  {
    var next := Then(h, now, Op.Remove(token));
    CoversRemoved(index, sessions, now, token, user);
    forall t ensures next.Fresh(t) <==> h.Fresh(t) {
    }
    if !shared {
      forall u ensures Members(Unlisted(index, user, token, now), u, now) <= Members(index, u, now) {
        UnlistedMembers(index, user, token, now, u);
      }
      OwnFewer(index, sessions, Unlisted(index, user, token, now), sessions - {token}, now);
    }
  }

  lemma RemoveUserKeeps(sessions: Table, index: Index, h: History, shared: bool, user: Uuid, now: nat)
    requires InOrder(sessions, index, h, shared, now)
    ensures InOrder(sessions - Members(index, user, now), index - {user}, Then(h, now, Op.RemoveUser(user)), shared,
                    now)
  {
    var next := Then(h, now, Op.RemoveUser(user));
    forall t ensures next.Fresh(t) <==> h.Fresh(t) {
    }
    if !shared {
      OwnFewer(index, sessions, index - {user}, sessions - Members(index, user, now), now);
    }
  }

  /** The keys of a Redis database that belong to sessions. An expired key may still be in the maps, but no
      command sees it. */
  class RedisSessionStore {
    var sessions: Table
    var index: Index
    ghost var history: History
    /** A token has been opened for one user while it was listed for another. */
    ghost var shared: bool

    ghost predicate Valid()
      reads this
    {
      InOrder(sessions, index, history, shared, history.Now())
    }

    constructor ()
      ensures Valid() && history == Start && !shared
    {
      sessions, index, history, shared := map[], map[], Start, false;
    }

    /** `SET session EX ttl; SADD index token; EXPIRE index ttl` */
    method Open(token: string, identity: SessionIdentity, now: nat)
      requires Valid() && now >= history.Now()
      modifies this
      ensures Valid() && history == Then(old(history), now, Op.Open(token, identity))
      ensures shared <==>
                old(shared) || exists u :: u != identity.userId && token in Members(old(index), u, now)
      ensures old(history).Fresh(token) ==> shared == old(shared)
      ensures sessions == old(sessions)[token := Session(identity, now + SESSION_TTL)]
      ensures index == Listing(old(index), identity.userId, token, now)
    {
      OrderLasts(sessions, index, history, shared, history.Now(), now);
      OpenKeeps(sessions, index, history, shared, token, identity, now);
      shared := shared || Foreign(index, token, identity.userId, now);
      sessions := sessions[token := Session(identity, now + SESSION_TTL)];
      index := Listing(index, identity.userId, token, now);
      history := Then(history, now, Op.Open(token, identity));
    }

    /** `GET session` */
    method Get(token: string, now: nat) returns (identity: Option<SessionIdentity>)
      requires Valid() && now >= history.Now()
      modifies this`history
      ensures Valid() && history == Then(old(history), now, Op.Get(token))
      ensures identity == Read(token, now) && (!shared ==> identity == old(history).Answer(token, now))
    {
      OrderLasts(sessions, index, history, shared, history.Now(), now);
      identity := Read(token, now);
      GetKeeps(sessions, index, history, shared, token, now);
      history := Then(history, now, Op.Get(token));
    }

    function Read(token: string, now: nat): Option<SessionIdentity>
      reads this
    {
      match Unexpired(Lookup(sessions, token), now)
      case Some(s) => Some(s.identity)
      case None => None
    }

    /** The identity is read first, to know which index to clean: `DEL session; SREM index token`, as one step. */
    method Remove(token: string, now: nat)
      requires Valid() && now >= history.Now()
      modifies this
      ensures Valid() && history == Then(old(history), now, Op.Remove(token)) && shared == old(shared)
    {
      OrderLasts(sessions, index, history, shared, history.Now(), now);
      var identity := Read(token, now);
      RemoveKeeps(sessions, index, history, shared, token, if identity.Some? then identity.value.userId else 0, now);
      sessions := sessions - {token};
      if identity.Some? {
        index := Unlisted(index, identity.value.userId, token, now);
      }
      history := Then(history, now, Op.Remove(token));
    }

    /** `SMEMBERS index`, then `DEL` of every session listed and of the index, as one step. */
    method RemoveUser(user: Uuid, now: nat)
      requires Valid() && now >= history.Now()
      modifies this
      ensures Valid() && history == Then(old(history), now, Op.RemoveUser(user)) && shared == old(shared)
      ensures forall token :: Read(token, now).Some? ==> Read(token, now).value.userId != user
      ensures sessions == old(sessions) - Members(old(index), user, now)
    {
      OrderLasts(sessions, index, history, shared, history.Now(), now);
      RemoveUserKeeps(sessions, index, history, shared, user, now);
      var tokens := Members(index, user, now);
      sessions := sessions - tokens;
      index := index - {user};
      history := Then(history, now, Op.RemoveUser(user));
    }
  }

  lemma GetKeeps(sessions: Table, index: Index, h: History, shared: bool, token: string, now: nat)
    requires InOrder(sessions, index, h, shared, now)
    ensures InOrder(sessions, index, Then(h, now, Op.Get(token)), shared, now)
    ensures !shared ==> Unexpired(Lookup(sessions, token), now) == Unexpired(h.Opened(token), now)
  {
    var next := Then(h, now, Op.Get(token));
    forall t ensures (next.Fresh(t) <==> h.Fresh(t)) && next.Opened(t) == h.Opened(t) {
    }
  }

  // --- whole runs ---

  type Run = seq<(nat, Op)>

  function After(h: History, run: Run): History {
    if run == [] then h
    else
      var (now, op) := run[|run| - 1];
      Then(After(h, run[..|run| - 1]), now, op)
  }

  /** Once a user has been removed, no session of that user is readable, at any time and under any token, until
      one is opened again. */
  lemma {:induction false} SignedOutUntilLogin(h: History, at: nat, user: Uuid, run: Run, token: string, now: nat)
    requires forall i :: 0 <= i < |run| && run[i].1.Open? ==> run[i].1.identity.userId != user
    ensures var later := After(Then(h, at, RemoveUser(user)), run);
            && (later.Answer(token, now).Some? ==> later.Answer(token, now).value.userId != user)
            && (later.Opened(token).Some? ==> later.Opened(token).value.identity.userId != user)
  {
    if run != [] {
      assert run[|run| - 1].1.Open? ==> run[|run| - 1].1.identity.userId != user;
      SignedOutUntilLogin(h, at, user, run[..|run| - 1], token, now);
    }
  }

  /** A token is fresh if no call has opened it. */
  lemma {:induction false} FreshMeaning(run: Run, token: string)
    ensures After(Start, run).Fresh(token) <==> forall i :: 0 <= i < |run| && run[i].1.Open? ==> run[i].1.token != token
  {
    if run != [] { FreshMeaning(run[..|run| - 1], token); }
  }

  /** The `i`-th call of the run opened the token for this identity at this time, and it has stood since: the token was
      neither opened again nor removed, nor was the user. */
  ghost predicate Stands(run: Run, i: nat, token: string, identity: SessionIdentity, at: nat) {
    && i < |run| && run[i] == (at, Op.Open(token, identity))
    && forall j :: i < j < |run| ==>
         !(run[j].1.Open? && run[j].1.token == token) && run[j].1 != Op.Remove(token)
         && run[j].1 != RemoveUser(identity.userId)
  }

  lemma StandsLater(run: Run, i: nat, token: string, identity: SessionIdentity, at: nat)
    requires run != []
    ensures Stands(run, i, token, identity, at) <==>
            var init, (now, op) := run[..|run| - 1], run[|run| - 1];
            if i == |init| then now == at && op == Op.Open(token, identity)
            else Stands(init, i, token, identity, at) && !(op.Open? && op.token == token)
                 && op != Op.Remove(token) && op != RemoveUser(identity.userId)
  {
    var init := run[..|run| - 1];
    if i < |init| {
      assert forall j :: 0 <= j < |init| ==> init[j] == run[j];
      if Stands(run, i, token, identity, at) { assert i < |init| < |run|; }
    }
  }

  lemma {:induction false} OpenedMeaning(run: Run, token: string, identity: SessionIdentity, at: nat)
    ensures After(Start, run).Opened(token) == Some(Session(identity, at + SESSION_TTL)) <==>
            exists i: nat :: Stands(run, i, token, identity, at)
  {
    if run != [] {
      var init := run[..|run| - 1];
      OpenedMeaning(init, token, identity, at);
      forall i: nat { StandsLater(run, i, token, identity, at); }
      if exists i: nat :: Stands(run, i, token, identity, at) {
        var i: nat :| Stands(run, i, token, identity, at);
        StandsLater(run, i, token, identity, at);
      }
      if After(Start, run).Opened(token) == Some(Session(identity, at + SESSION_TTL)) {
        OpenedStands(run, init, token, identity, at);
      }
    }
  }

  lemma OpenedStands(run: Run, init: Run, token: string, identity: SessionIdentity, at: nat)
    requires run != [] && init == run[..|run| - 1]
    requires After(Start, run).Opened(token) == Some(Session(identity, at + SESSION_TTL))
    requires After(Start, init).Opened(token) == Some(Session(identity, at + SESSION_TTL)) <==>
             exists i: nat :: Stands(init, i, token, identity, at)
    ensures exists i: nat :: Stands(run, i, token, identity, at)
  {
    var op := run[|run| - 1].1;
    if op.Open? && op.token == token {
      StandsLater(run, |init|, token, identity, at);
    } else {
      var i: nat :| Stands(init, i, token, identity, at);
      StandsLater(run, i, token, identity, at);
    }
  }

  /** A token reads as an identity exactly when it was opened for it less than 24 hours ago and has stood since. */
  lemma AnswerMeaning(run: Run, token: string, identity: SessionIdentity, now: nat)
    ensures After(Start, run).Answer(token, now) == Some(identity) <==>
            exists i: nat, at: nat :: Stands(run, i, token, identity, at) && now < at + 24 * 60 * 60 * 1000
  {
    if After(Start, run).Answer(token, now) == Some(identity) {
      OpenedLate(run, token);
      var session := After(Start, run).Opened(token).value;
      OpenedMeaning(run, token, identity, session.expiresAt - SESSION_TTL);
      assert session == Session(identity, (session.expiresAt - SESSION_TTL) + SESSION_TTL);
    }
    if i: nat, at: nat :| Stands(run, i, token, identity, at) && now < at + SESSION_TTL {
      OpenedMeaning(run, token, identity, at);
    }
  }

  lemma {:induction false} OpenedLate(run: Run, token: string)
    ensures After(Start, run).Opened(token).Some? ==> After(Start, run).Opened(token).value.expiresAt >= SESSION_TTL
  {
    if run != [] { OpenedLate(run[..|run| - 1], token); }
  }

  /** Time does not go backwards. */
  ghost predicate Timed(h: History, run: Run) {
    run == [] || (Timed(h, run[..|run| - 1]) && run[|run| - 1].0 >= After(h, run[..|run| - 1]).Now())
  }

  /** Tokens are opened once, as random ones are. */
  ghost predicate FreshTokens(h: History, run: Run) {
    if run == [] then true
    else
      var init, op := run[..|run| - 1], run[|run| - 1].1;
      FreshTokens(h, init) && (op.Open? ==> After(h, init).Fresh(op.token))
  }

  /** The answers to the run's reads: opened, not removed since, not expired. */
  function Answers(h: History, run: Run): seq<Option<SessionIdentity>> {
    if run == [] then []
    else
      var init, (now, op) := run[..|run| - 1], run[|run| - 1];
      Answers(h, init) + if op.Get? then [After(h, init).Answer(op.token, now)] else []
  }

  lemma {:induction false} RunPrefix(h: History, run: Run, n: nat)
    requires Timed(h, run) && n <= |run|
    ensures Timed(h, run[..n]) && (FreshTokens(h, run) ==> FreshTokens(h, run[..n]))
    decreases |run|
  {
    if n < |run| {
      RunPrefix(h, run[..|run| - 1], n);
      assert run[..|run| - 1][..n] == run[..n];
    } else {
      assert run[..n] == run;
    }
  }

  /** Two users on one token: once it has been opened for one while another's live index lists it, removing that other
      user signs the first one out of Redis, and not out of memory. So the stores agree for good exactly while no
      open is foreign in this sense. */
  method SharedTokenDiverges(memory: MemorySessionStore, redis: RedisSessionStore, token: string,
                             identity: SessionIdentity, other: Uuid, now: nat)
    returns (fromMemory: Option<SessionIdentity>, fromRedis: Option<SessionIdentity>)
    requires memory.Valid() && redis.Valid() && memory.history == redis.history && now >= redis.history.Now()
    requires other != identity.userId && token in Members(redis.index, other, now)
    modifies memory, redis
    ensures fromMemory == Some(identity) && fromRedis == None
  {
    memory.Open(token, identity, now);
    redis.Open(token, identity, now);
    assert memory.history.Opened(token) == Some(Session(identity, now + SESSION_TTL));
    assert token in Members(redis.index, other, now);
    memory.RemoveUser(other, now);
    redis.RemoveUser(other, now);
    assert memory.history.Opened(token) == Some(Session(identity, now + SESSION_TTL));
    assert token !in redis.sessions;
    fromMemory := memory.Get(token, now);
    fromRedis := redis.Get(token, now);
  }

  /** The two stores cannot be told apart: over any run in which no token is opened for one user while it is listed for
      another, over any run of fresh tokens in particular, both give the same answers. */
  method ServeBoth(memory: MemorySessionStore, redis: RedisSessionStore, run: Run)
    returns (fromMemory: seq<Option<SessionIdentity>>, fromRedis: seq<Option<SessionIdentity>>)
    requires memory.Valid() && redis.Valid() && memory.history == redis.history && Timed(memory.history, run)
    modifies memory, redis
    ensures memory.Valid() && redis.Valid()
    ensures fromMemory == Answers(old(memory.history), run)
    ensures !redis.shared ==> fromRedis == fromMemory
    ensures FreshTokens(old(memory.history), run) ==> redis.shared == old(redis.shared)
  {
    fromMemory, fromRedis := [], [];
    ghost var start := memory.history;
    for i := 0 to |run|
      invariant memory.Valid() && redis.Valid()
      invariant memory.history == redis.history == After(start, run[..i])
      invariant fromMemory == Answers(start, run[..i]) && (!redis.shared ==> fromRedis == fromMemory)
      invariant FreshTokens(start, run[..i]) ==> redis.shared == old(redis.shared)
      invariant old(redis.shared) ==> redis.shared
    {
      RunPrefix(start, run, i + 1);
      assert run[..i + 1][..i] == run[..i];
      var (now, op) := run[i];
      match op {
        case Open(token, identity) =>
          memory.Open(token, identity, now);
          redis.Open(token, identity, now);
        case Get(token) =>
          var a := memory.Get(token, now);
          var b := redis.Get(token, now);
          fromMemory, fromRedis := fromMemory + [a], fromRedis + [b];
        case Remove(token) =>
          memory.Remove(token, now);
          redis.Remove(token, now);
        case RemoveUser(user) =>
          memory.RemoveUser(user, now);
          redis.RemoveUser(user, now);
      }
    }
    assert run[..|run|] == run;
  }
}

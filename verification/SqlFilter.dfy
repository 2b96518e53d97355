/** The usage filter twice over: compiled to SQL with placeholders, and as an in-memory predicate
    (src/usage/recorder.rs, src/usage/query.rs). SQL text is modelled as its tokens. */
module SqlFilter {
  import opened Basics
  import opened Usage

  // --- parameters and the in-memory predicate ---

  datatype StatusFilter = Exact(code: nat) | ClientError | ServerError
  {
    predicate Matches(status: nat) {
      match this
      case Exact(code) => status == code
      case ClientError => 400 <= status < 500
      case ServerError => status >= 500
    }
  }

  datatype Params = Params(
    from: Option<int>,
    to: Option<int>,
    provider: Option<string>,
    model: Option<string>,
    status: Option<StatusFilter>,
    userId: Option<Uuid>,
    apiKeyId: Option<Uuid>)

  /** The closure of `MemoryUsageRecorder::filtered`. */
  predicate Matches(p: Params, r: UsageRecord) {
    && (p.from.Some? ==> r.createdAt >= p.from.value)
    && (p.to.Some? ==> r.createdAt <= p.to.value)
    && (p.provider.Some? ==> r.providerId == p.provider.value)
    && (p.userId.Some? ==> r.userId == p.userId)
    && (p.apiKeyId.Some? ==> r.apiKeyId == p.apiKeyId)
    && (p.model.Some? ==> r.requestedModel == p.model || r.upstreamModel == p.model)
    && (p.status.Some? ==> p.status.value.Matches(r.status))
  }

  // --- SQL: tokens, grammar, three-valued evaluation ---

  datatype Column =
    | CreatedAt | ProviderId | UserId | ApiKeyId | RequestedModel | UpstreamModel | Status | Currency | EstimatedCost
  datatype Op = Ge | Le | Lt | Eq
  datatype Token =
    | Col(column: Column)
    | Cmp(op: Op)
    | Placeholder(n: nat)
    | Number(value: int)
    | And | Or | LParen | RParen | IsNotNull | Limit | Offset

  datatype Value = Null | Int(n: int) | Text(text: string) | Id(id: Uuid) | Amount(amount: Money)
  datatype Truth = True | False | Unknown

  datatype Expr =
    | Compare(column: Column, op: Op, operand: Token)
    | Known(column: Column)
    | Both(left: Expr, right: Expr)
    | Either(left: Expr, right: Expr)

  /** `atom ::= column op operand | column IS NOT NULL | ( or )` */
  function ParseAtom(ts: seq<Token>): (r: Option<(Expr, seq<Token>)>)
    ensures r.Some? ==> |r.value.1| < |ts|
    decreases |ts|, 0
  {
    if |ts| >= 1 && ts[0] == LParen then
      match ParseOr(ts[1..])
      case Some((e, rest)) => if rest != [] && rest[0] == RParen then Some((e, rest[1..])) else None
      case None => None
    else if |ts| >= 3 && ts[0].Col? && ts[1].Cmp? && (ts[2].Placeholder? || ts[2].Number?) then
      Some((Compare(ts[0].column, ts[1].op, ts[2]), ts[3..]))
    else if |ts| >= 2 && ts[0].Col? && ts[1] == IsNotNull then
      Some((Known(ts[0].column), ts[2..]))
    else None
  }

  /** `and ::= atom [AND and]`: AND binds tighter than OR. */
  function ParseAnd(ts: seq<Token>): (r: Option<(Expr, seq<Token>)>)
    ensures r.Some? ==> |r.value.1| < |ts|
    decreases |ts|, 1
  {
    match ParseAtom(ts)
    case None => None
    case Some((e, rest)) =>
      if rest != [] && rest[0] == And then
        match ParseAnd(rest[1..])
        case None => None
        case Some((f, rest')) => Some((Both(e, f), rest'))
      else Some((e, rest))
  }

  /** `or ::= and [OR or]` */
  function ParseOr(ts: seq<Token>): (r: Option<(Expr, seq<Token>)>)
    ensures r.Some? ==> |r.value.1| < |ts|
    decreases |ts|, 2
  {
    match ParseAnd(ts)
    case None => None
    case Some((e, rest)) =>
      if rest != [] && rest[0] == Or then
        match ParseOr(rest[1..])
        case None => None
        case Some((f, rest')) => Some((Either(e, f), rest'))
      else Some((e, rest))
  }

  function OfOption<T>(o: Option<T>, f: T -> Value): Value {
    match o case None => Null case Some(v) => f(v)
  }

  /** A column of a row; absent attributions and models are NULL. */
  function ColumnOf(r: UsageRecord, c: Column): Value {
    match c
    case CreatedAt => Int(r.createdAt)
    case ProviderId => Text(r.providerId)
    case UserId => OfOption(r.userId, id => Id(id))
    case ApiKeyId => OfOption(r.apiKeyId, id => Id(id))
    case RequestedModel => OfOption(r.requestedModel, t => Text(t))
    case UpstreamModel => OfOption(r.upstreamModel, t => Text(t))
    case Status => Int(r.status)
    case Currency => OfOption(r.currency, t => Text(t))
    case EstimatedCost => OfOption(r.cost, m => Amount(m))
  }

  function OperandOf(t: Token, values: seq<Value>): Value {
    match t
    case Number(n) => Int(n)
    case Placeholder(n) => if 1 <= n <= |values| then values[n - 1] else Null
    case _ => Null
  }

  function Of(b: bool): Truth { if b then True else False }

  /** Any comparison with NULL is unknown. */
  function CompareValues(a: Value, op: Op, b: Value): Truth {
    if a.Null? || b.Null? then Unknown
    else
      match op
      case Eq => Of(a == b)
      case Ge => if a.Int? && b.Int? then Of(a.n >= b.n) else Unknown
      case Le => if a.Int? && b.Int? then Of(a.n <= b.n) else Unknown
      case Lt => if a.Int? && b.Int? then Of(a.n < b.n) else Unknown
  }

  function Conj(a: Truth, b: Truth): Truth {
    if a == False || b == False then False else if a == True && b == True then True else Unknown
  }

  function Disj(a: Truth, b: Truth): Truth {
    if a == True || b == True then True else if a == False && b == False then False else Unknown
  }

  function Eval(e: Expr, values: seq<Value>, r: UsageRecord): Truth {
    match e
    case Compare(c, op, operand) => CompareValues(ColumnOf(r, c), op, OperandOf(operand, values))
    case Known(c) => Of(!ColumnOf(r, c).Null?)
    case Both(a, b) => Conj(Eval(a, values, r), Eval(b, values, r))
    case Either(a, b) => Disj(Eval(a, values, r), Eval(b, values, r))
  }

  /** Does `SELECT ... WHERE text` return the row? Without a WHERE clause it returns every row; text that does
      not parse to its end returns none. */
  predicate Keeps(text: seq<Token>, values: seq<Value>, r: UsageRecord) {
    text == [] ||
    match ParseOr(text)
    case Some((e, rest)) => rest == [] && Eval(e, values, r) == True
    case None => false
  }

  // --- the compiler ---

  /** One entry of `clauses`, before it is written out. */
  datatype Condition =
    | Bound(column: Column, op: Op, value: Value)
    | OneOfModels(model: string)
    | StatusBetween(low: int, high: int)
    | StatusFrom(low: int)
    | Present(column: Column)

  function If(cond: bool, c: Condition): seq<Condition> {
    if cond then [c] else []
  }

  function TimeConditions(p: Params): seq<Condition> {
    If(p.from.Some?, Bound(CreatedAt, Ge, Int(p.from.GetOr(0))))
    + If(p.to.Some?, Bound(CreatedAt, Le, Int(p.to.GetOr(0))))
  }

  function OwnerConditions(p: Params): seq<Condition> {
    If(p.provider.Some?, Bound(ProviderId, Eq, Text(p.provider.GetOr(""))))
    + If(p.userId.Some?, Bound(UserId, Eq, Id(p.userId.GetOr(0))))
    + If(p.apiKeyId.Some?, Bound(ApiKeyId, Eq, Id(p.apiKeyId.GetOr(0))))
  }

  function StatusCondition(f: StatusFilter): Condition {
    match f
    case Exact(code) => Bound(Status, Eq, Int(code))
    case ClientError => StatusBetween(400, 500)
    case ServerError => StatusFrom(500)
  }

  function OutcomeConditions(p: Params): seq<Condition> {
    If(p.model.Some?, OneOfModels(p.model.GetOr(""))) + If(p.status.Some?, StatusCondition(p.status.GetOr(ServerError)))
  }

  /** What `from_params` pushes, in order. */
  function Conditions(p: Params): seq<Condition> {
    TimeConditions(p) + OwnerConditions(p) + OutcomeConditions(p)
  }

  /** The values a condition binds, and its text when its first placeholder is number `k`. */
  function ValuesOf(c: Condition): seq<Value> {
    match c
    case Bound(_, _, v) => [v]
    case OneOfModels(m) => [Text(m), Text(m)]
    case _ => []
  }

  function Render(c: Condition, k: nat): seq<Token> {
    match c
    case Bound(col, op, _) => [Col(col), Cmp(op), Placeholder(k)]
    case OneOfModels(_) =>
      [LParen, Col(RequestedModel), Cmp(Eq), Placeholder(k), Or,
       Col(UpstreamModel), Cmp(Eq), Placeholder(k + 1), RParen]
    case StatusBetween(low, high) => [Col(Status), Cmp(Ge), Number(low), And, Col(Status), Cmp(Lt), Number(high)]
    case StatusFrom(low) => [Col(Status), Cmp(Ge), Number(low)]
    case Present(col) => [Col(col), IsNotNull]
  }

  /** The clauses of a condition list whose first placeholder is number `k`, and all its values. */
  function Clauses(cs: seq<Condition>, k: nat): seq<seq<Token>> {
    if cs == [] then [] else [Render(cs[0], k)] + Clauses(cs[1..], k + |ValuesOf(cs[0])|)
  }

  function AllValues(cs: seq<Condition>): seq<Value> {
    if cs == [] then [] else ValuesOf(cs[0]) + AllValues(cs[1..])
  }

  /** `clauses.join(" AND ")` */
  function Join(clauses: seq<seq<Token>>): seq<Token> {
    if clauses == [] then []
    else if |clauses| == 1 then clauses[0]
    else clauses[0] + [And] + Join(clauses[1..])
  }

  /** `SqlFilter` and its pushes. */
  class Filter {
    var clauses: seq<seq<Token>>
    var values: seq<Value>
    ghost var conditions: seq<Condition>

    ghost predicate Valid()
      reads this
    {
      clauses == Clauses(conditions, 1) && values == AllValues(conditions)
    }

    constructor ()
      ensures Valid() && conditions == []
    {
      clauses, values, conditions := [], [], [];
    }

    function NextPlaceholder(): nat
      reads this
    {
      |values| + 1
    }

    method PushValue(column: Column, op: Op, value: Value)
      requires Valid()
      modifies this
      ensures Valid() && conditions == old(conditions) + [Bound(column, op, value)]
      ensures values == old(values) + [value]
      ensures clauses == old(clauses) + [[Col(column), Cmp(op), Placeholder(|values|)]]
    {
      AppendCondition(conditions, Bound(column, op, value), 1);
      clauses := clauses + [[Col(column), Cmp(op), Placeholder(NextPlaceholder())]];
      values := values + [value];
      conditions := conditions + [Bound(column, op, value)];
    }

    method PushModel(model: string)
      requires Valid()
      modifies this
      ensures Valid() && conditions == old(conditions) + [OneOfModels(model)]
      ensures values == old(values) + [Text(model), Text(model)]
      ensures clauses == old(clauses) + [[LParen, Col(RequestedModel), Cmp(Eq), Placeholder(|values| - 1), Or,
                                          Col(UpstreamModel), Cmp(Eq), Placeholder(|values|), RParen]]
    {
      AppendCondition(conditions, OneOfModels(model), 1);
      ghost var before := values;
      var first := NextPlaceholder();
      values := values + [Text(model)];
      var second := NextPlaceholder();
      values := values + [Text(model)];
      clauses := clauses + [[LParen, Col(RequestedModel), Cmp(Eq), Placeholder(first), Or,
                             Col(UpstreamModel), Cmp(Eq), Placeholder(second), RParen]];
      conditions := conditions + [OneOfModels(model)];
      assert values == before + [Text(model), Text(model)];
    }

    method PushText(condition: Condition)
      requires Valid() && ValuesOf(condition) == []
      modifies this
      ensures Valid() && conditions == old(conditions) + [condition]
    {
      AppendCondition(conditions, condition, 1);
      clauses := clauses + [Render(condition, NextPlaceholder())];
      conditions := conditions + [condition];
    }

    /** `from_params` */
    method FromParams(p: Params)
      requires Valid() && conditions == []
      modifies this
      ensures Valid() && conditions == Conditions(p)
      ensures Join(clauses) == WhereText(p) && values == WhereValues(p)
    {
      if p.from.Some? { PushValue(CreatedAt, Ge, Int(p.from.value)); }
      if p.to.Some? { PushValue(CreatedAt, Le, Int(p.to.value)); }
      assert conditions == TimeConditions(p);
      PushOwner(p);
      PushOutcome(p);
    }

    method PushOutcome(p: Params)
      requires Valid()
      modifies this
      ensures Valid() && conditions == old(conditions) + OutcomeConditions(p)
    {
      if p.model.Some? { PushModel(p.model.value); }
      if p.status.Some? {
        match p.status.value {
          case Exact(code) => PushValue(Status, Eq, Int(code));
          case ClientError => PushText(StatusBetween(400, 500));
          case ServerError => PushText(StatusFrom(500));
        }
      }
    }

    method PushOwner(p: Params)
      requires Valid()
      modifies this
      ensures Valid() && conditions == old(conditions) + OwnerConditions(p)
    {
      if p.provider.Some? { PushValue(ProviderId, Eq, Text(p.provider.value)); }
      if p.userId.Some? { PushValue(UserId, Eq, Id(p.userId.value)); }
      if p.apiKeyId.Some? { PushValue(ApiKeyId, Eq, Id(p.apiKeyId.value)); }
    }
  }

  lemma {:induction false} AppendCondition(cs: seq<Condition>, c: Condition, k: nat)
    ensures AllValues(cs + [c]) == AllValues(cs) + ValuesOf(c)
    ensures Clauses(cs + [c], k) == Clauses(cs, k) + [Render(c, k + |AllValues(cs)|)]
  {
    if cs == [] {
      assert cs + [c] == [c] && [c][1..] == [];
    } else {
      var n := |ValuesOf(cs[0])|;
      SplitConcat(cs, [c], 1);
      AppendCondition(cs[1..], c, k + n);
      ConcatAssoc(ValuesOf(cs[0]), AllValues(cs[1..]), ValuesOf(c));
      ConcatAssoc([Render(cs[0], k)], Clauses(cs[1..], k + n), [Render(c, k + |AllValues(cs)|)]);
    }
  }

  function WhereText(p: Params): seq<Token> {
    Join(Clauses(Conditions(p), 1))
  }

  function WhereValues(p: Params): seq<Value> {
    AllValues(Conditions(p))
  }

  // --- the text parses back to what was meant ---

  /** The expression a condition stands for. */
  function ExprOf(c: Condition, k: nat): Expr {
    match c
    case Bound(col, op, _) => Compare(col, op, Placeholder(k))
    case OneOfModels(_) =>
      Either(Compare(RequestedModel, Eq, Placeholder(k)), Compare(UpstreamModel, Eq, Placeholder(k + 1)))
    case StatusBetween(low, high) => Both(Compare(Status, Ge, Number(low)), Compare(Status, Lt, Number(high)))
    case StatusFrom(low) => Compare(Status, Ge, Number(low))
    case Present(col) => Known(col)
  }

  lemma ParsesAtom(col: Column, op: Op, operand: Token, rest: seq<Token>)
    requires operand.Placeholder? || operand.Number?
    ensures ParseAtom([Col(col), Cmp(op), operand] + rest) == Some((Compare(col, op, operand), rest))
  {
    var ts := [Col(col), Cmp(op), operand] + rest;
    assert ts[0] == Col(col) && ts[1] == Cmp(op) && ts[2] == operand && ts[3..] == rest;
  }

  lemma ParsesComparison(col: Column, op: Op, operand: Token, rest: seq<Token>)
    requires operand.Placeholder? || operand.Number?
    requires rest == [] || rest[0] != And
    ensures ParseAnd([Col(col), Cmp(op), operand] + rest) == Some((Compare(col, op, operand), rest))
  {
    ParsesAtom(col, op, operand, rest);
  }

  /** A parenthesised OR is an atom wherever it stands: without the parentheses AND would take its first half. */
  lemma ParsesModels(k: nat, rest: seq<Token>)
    ensures ParseAtom(Render(OneOfModels(""), k) + rest) == Some((ExprOf(OneOfModels(""), k), rest))
  {
    var ts := Render(OneOfModels(""), k) + rest;
    var second := [Col(UpstreamModel), Cmp(Eq), Placeholder(k + 1)] + ([RParen] + rest);
    var inner := [Col(RequestedModel), Cmp(Eq), Placeholder(k)] + ([Or] + second);
    assert ts[0] == LParen && ts[1..] == inner;
    ParsesComparison(RequestedModel, Eq, Placeholder(k), [Or] + second);
    ParsesComparison(UpstreamModel, Eq, Placeholder(k + 1), [RParen] + rest);
    var left, right := Compare(RequestedModel, Eq, Placeholder(k)), Compare(UpstreamModel, Eq, Placeholder(k + 1));
    assert ([Or] + second)[1..] == second;
    assert ParseOr(second) == Some((right, [RParen] + rest));
    assert ParseOr(inner) == Some((Either(left, right), [RParen] + rest));
    assert ([RParen] + rest)[1..] == rest;
  }

  /** Conjunction of all the conditions, nested as the parser nests it. */
  function Conjoin(c: Condition, k: nat, tail: Option<Expr>): Expr {
    match tail
    case None => ExprOf(c, k)
    case Some(e) =>
      if c.StatusBetween? then Both(ExprOf(c, k).left, Both(ExprOf(c, k).right, e)) else Both(ExprOf(c, k), e)
  }

  function ConjoinAll(cs: seq<Condition>, k: nat): Expr
    requires cs != []
  {
    Conjoin(cs[0], k, if |cs| == 1 then None else Some(ConjoinAll(cs[1..], k + |ValuesOf(cs[0])|)))
  }

  /** What comes after a clause: nothing, or AND and a text that parses to `tail`. */
  ghost predicate Continues(more: seq<Token>, tail: Option<Expr>) {
    && (tail.None? ==> more == [])
    && (tail.Some? ==> more != [] && more[0] == And && ParseAnd(more[1..]) == Some((tail.value, [])))
  }

  function AndThen(e: Expr, tail: Option<Expr>): Expr {
    match tail
    case None => e
    case Some(f) => Both(e, f)
  }

  lemma ParsesCompare(col: Column, op: Op, operand: Token, more: seq<Token>, tail: Option<Expr>)
    requires (operand.Placeholder? || operand.Number?) && Continues(more, tail)
    ensures ParseAnd([Col(col), Cmp(op), operand] + more) == Some((AndThen(Compare(col, op, operand), tail), []))
  {
    ParsesAtom(col, op, operand, more);
  }

  lemma ParsesClause(c: Condition, k: nat, more: seq<Token>, tail: Option<Expr>)
    requires Continues(more, tail)
    ensures ParseAnd(Render(c, k) + more) == Some((Conjoin(c, k, tail), []))
  {
    match c
    case Bound(col, op, _) => ParsesCompare(col, op, Placeholder(k), more, tail);
    case StatusFrom(low) => ParsesCompare(Status, Ge, Number(low), more, tail);
    case OneOfModels(m) => ParsesModels(k, more);
    case StatusBetween(low, high) => ParsesBetween(low, high, k, more, tail);
    case Present(col) => assert (Render(c, k) + more)[2..] == more;
  }

  lemma ParsesBetween(low: int, high: int, k: nat, more: seq<Token>, tail: Option<Expr>)
    requires Continues(more, tail)
    ensures ParseAnd(Render(StatusBetween(low, high), k) + more)
            == Some((Conjoin(StatusBetween(low, high), k, tail), []))
  {
    var lower, upper := [Col(Status), Cmp(Ge), Number(low)], [Col(Status), Cmp(Lt), Number(high)];
    var e := AndThen(Compare(Status, Lt, Number(high)), tail);
    ParsesCompare(Status, Lt, Number(high), more, tail);
    AndContinues(upper + more, e);
    ParsesCompare(Status, Ge, Number(low), [And] + (upper + more), Some(e));
    JoinedTokens(lower, upper, more);
    assert Render(StatusBetween(low, high), k) == lower + [And] + upper;
  }

  lemma AndContinues(tokens: seq<Token>, e: Expr)
    requires ParseAnd(tokens) == Some((e, []))
    ensures Continues([And] + tokens, Some(e))
  {
    assert ([And] + tokens)[1..] == tokens;
  }

  lemma JoinedTokens(a: seq<Token>, b: seq<Token>, more: seq<Token>)
    ensures (a + [And] + b) + more == a + ([And] + (b + more))
  {
  }

  lemma ClausesCons(cs: seq<Condition>, k: nat)
    requires cs != []
    ensures Clauses(cs, k) == [Render(cs[0], k)] + Clauses(cs[1..], k + |ValuesOf(cs[0])|)
    ensures |AllValues(cs)| == |ValuesOf(cs[0])| + |AllValues(cs[1..])|
  {
  }

  lemma JoinCons(first: seq<Token>, rest: seq<seq<Token>>)
    ensures Join([first] + rest) == if rest == [] then first else first + ([And] + Join(rest))
  {
    assert ([first] + rest)[1..] == rest;
    if rest != [] { ConcatAssoc(first, [And], Join(rest)); }
  }

  /** One more clause in front of a parsed text. */
  lemma ParsesMore(c: Condition, k: nat, joined: seq<Token>, tail: Expr)
    requires ParseAnd(joined) == Some((tail, []))
    ensures ParseAnd(Render(c, k) + ([And] + joined)) == Some((Conjoin(c, k, Some(tail)), []))
  {
    AndContinues(joined, tail);
    ParsesClause(c, k, [And] + joined, Some(tail));
  }

  lemma {:induction false} ParsesJoin(cs: seq<Condition>, k: nat)
    requires cs != []
    ensures ParseAnd(Join(Clauses(cs, k))) == Some((ConjoinAll(cs, k), []))
    decreases |cs|
  {
    var first, n := Render(cs[0], k), |ValuesOf(cs[0])|;
    var rest := Clauses(cs[1..], k + n);
    ClausesCons(cs, k);
    JoinCons(first, rest);
    if |cs| == 1 {
      ParsesClause(cs[0], k, [], None);
      assert first + [] == first;
    } else {
      ParsesJoin(cs[1..], k + n);
      ParsesMore(cs[0], k, Join(rest), ConjoinAll(cs[1..], k + n));
    }
  }

  // --- and means what the predicate means ---

  /** What one condition asks of a row, in two-valued logic. */
  predicate Holds(c: Condition, r: UsageRecord) {
    match c
    case Bound(col, op, v) => CompareValues(ColumnOf(r, col), op, v) == True
    case OneOfModels(m) => r.requestedModel == Some(m) || r.upstreamModel == Some(m)
    case StatusBetween(low, high) => low <= r.status < high
    case StatusFrom(low) => low <= r.status
    case Present(col) => !ColumnOf(r, col).Null?
  }

  /** The condition's placeholders, $k and perhaps $(k + 1), see its values. */
  predicate Binds(values: seq<Value>, k: nat, c: Condition) {
    match c
    case Bound(_, _, v) => 1 <= k <= |values| && values[k - 1] == v
    case OneOfModels(m) => 1 <= k < |values| && values[k - 1] == Text(m) && values[k] == Text(m)
    case _ => true
  }

  /** Each condition's do. */
  predicate BindsEach(values: seq<Value>, k: nat, cs: seq<Condition>)
    decreases |cs|
  {
    cs != [] ==> Binds(values, k, cs[0]) && BindsEach(values, k + |ValuesOf(cs[0])|, cs[1..])
  }

  lemma BindsMiddle(values: seq<Value>, before: seq<Value>, c: Condition, after: seq<Value>)
    requires values == before + (ValuesOf(c) + after)
    ensures Binds(values, |before| + 1, c)
  {
    var vs := ValuesOf(c);
    assert forall i :: 0 <= i < |vs| ==> values[|before| + i] == (vs + after)[i] == vs[i];
    if vs != [] { assert values[|before| + 0] == vs[0]; }
    if c.OneOfModels? { assert values[|before| + 1] == vs[1]; }
  }

  lemma {:induction false} BindsInOrder(values: seq<Value>, before: seq<Value>, cs: seq<Condition>, rest: seq<Value>)
    requires values == before + rest && AllValues(cs) <= rest
    ensures BindsEach(values, |before| + 1, cs)
    decreases |cs|
  {
    if cs != [] {
      var vs, n := ValuesOf(cs[0]), |ValuesOf(cs[0])|;
      PrefixSplits(vs, AllValues(cs[1..]), rest);
      BindsMiddle(values, before, cs[0], rest[n..]);
      ConcatAssoc(before, vs, rest[n..]);
      BindsInOrder(values, before + vs, cs[1..], rest[n..]);
    }
  }

  lemma PrefixSplits(a: seq<Value>, b: seq<Value>, s: seq<Value>)
    requires a + b <= s
    ensures s == a + s[|a|..] && b <= s[|a|..]
  {
    assert s[..|a + b|] == a + b;
    assert s[|a|..][..|b|] == (a + b)[|a|..];
  }

  /** A condition's expression is TRUE on a row exactly when it holds, if its placeholders see its values. */
  lemma ConditionTrue(c: Condition, k: nat, values: seq<Value>, r: UsageRecord)
    requires Binds(values, k, c)
    ensures Eval(ExprOf(c, k), values, r) == True <==> Holds(c, r)
  {
  }

  predicate AllHold(cs: seq<Condition>, r: UsageRecord) {
    cs == [] || (Holds(cs[0], r) && AllHold(cs[1..], r))
  }

  lemma {:induction false} AllHoldConcat(a: seq<Condition>, b: seq<Condition>, r: UsageRecord)
    ensures AllHold(a + b, r) <==> AllHold(a, r) && AllHold(b, r)
  {
    if a == [] {
      assert a + b == b;
    } else {
      SplitConcat(a, b, 1);
      AllHoldConcat(a[1..], b, r);
    }
  }

  lemma {:induction false} AllConditionsTrue(cs: seq<Condition>, k: nat, values: seq<Value>, r: UsageRecord)
    requires cs != [] && BindsEach(values, k, cs)
    ensures Eval(ConjoinAll(cs, k), values, r) == True <==> AllHold(cs, r)
    decreases |cs|
  {
    var n := |ValuesOf(cs[0])|;
    ConditionTrue(cs[0], k, values, r);
    if |cs| > 1 {
      AllConditionsTrue(cs[1..], k + n, values, r);
    }
    ConjoinTrue(cs, k, values, r);
  }

  lemma ConjoinTrue(cs: seq<Condition>, k: nat, values: seq<Value>, r: UsageRecord)
    requires cs != []
    ensures Eval(ConjoinAll(cs, k), values, r) == True <==>
            Eval(ExprOf(cs[0], k), values, r) == True
            && (|cs| > 1 ==> Eval(ConjoinAll(cs[1..], k + |ValuesOf(cs[0])|), values, r) == True)
  {
  }

  /** The conditions of a parameter set are those of the in-memory predicate, whatever is NULL. */
  lemma ConditionsMean(p: Params, r: UsageRecord)
    ensures AllHold(Conditions(p), r) <==> Matches(p, r)
  {
    AllHoldConcat(TimeConditions(p) + OwnerConditions(p), OutcomeConditions(p), r);
    AllHoldConcat(TimeConditions(p), OwnerConditions(p), r);
    TimeMeans(p, r);
    OwnerMeans(p, r);
    OutcomeMeans(p, r);
  }

  lemma TimeMeans(p: Params, r: UsageRecord)
    ensures AllHold(TimeConditions(p), r) <==>
            (p.from.Some? ==> r.createdAt >= p.from.value) && (p.to.Some? ==> r.createdAt <= p.to.value)
  {
    AllHoldConcat(If(p.from.Some?, Bound(CreatedAt, Ge, Int(p.from.GetOr(0)))),
                  If(p.to.Some?, Bound(CreatedAt, Le, Int(p.to.GetOr(0)))), r);
  }

  lemma OwnerMeans(p: Params, r: UsageRecord)
    ensures AllHold(OwnerConditions(p), r) <==>
            && (p.provider.Some? ==> r.providerId == p.provider.value)
            && (p.userId.Some? ==> r.userId == p.userId)
            && (p.apiKeyId.Some? ==> r.apiKeyId == p.apiKeyId)
  {
    var a := If(p.provider.Some?, Bound(ProviderId, Eq, Text(p.provider.GetOr(""))));
    var b := If(p.userId.Some?, Bound(UserId, Eq, Id(p.userId.GetOr(0))));
    var c := If(p.apiKeyId.Some?, Bound(ApiKeyId, Eq, Id(p.apiKeyId.GetOr(0))));
    AllHoldConcat(a + b, c, r);
    AllHoldConcat(a, b, r);
  }

  lemma OutcomeMeans(p: Params, r: UsageRecord)
    ensures AllHold(OutcomeConditions(p), r) <==>
            && (p.model.Some? ==> r.requestedModel == p.model || r.upstreamModel == p.model)
            && (p.status.Some? ==> p.status.value.Matches(r.status))
  {
    AllHoldConcat(If(p.model.Some?, OneOfModels(p.model.GetOr(""))),
                  If(p.status.Some?, StatusCondition(p.status.GetOr(ServerError))), r);
  }

  /** Joined conditions keep the rows they all hold of, even with more values bound after theirs. */
  lemma KeepsAll(cs: seq<Condition>, extra: seq<Value>, r: UsageRecord)
    ensures Keeps(Join(Clauses(cs, 1)), AllValues(cs) + extra, r) <==> AllHold(cs, r)
  {
    if cs != [] {
      ParsesJoin(cs, 1);
      EmptyConcat(AllValues(cs) + extra);
      BindsInOrder(AllValues(cs) + extra, [], cs, AllValues(cs) + extra);
      AllConditionsTrue(cs, 1, AllValues(cs) + extra, r);
      assert Join(Clauses(cs, 1)) != [];
    }
  }

  /** For every parameter combination and every NULL pattern, the SQL text with its bound values keeps exactly
      the rows the in-memory filter keeps, even with more values bound after them. */
  lemma FilterAgrees(p: Params, extra: seq<Value>, r: UsageRecord)
    ensures Keeps(WhereText(p), WhereValues(p) + extra, r) <==> Matches(p, r)
    ensures Matches(p, r) <==>
            && (p.from.Some? ==> p.from.value <= r.createdAt) && (p.to.Some? ==> r.createdAt <= p.to.value)
            && (p.provider.Some? ==> p.provider.value == r.providerId)
            && (p.userId.Some? ==> p.userId == r.userId) && (p.apiKeyId.Some? ==> p.apiKeyId == r.apiKeyId)
            && (p.model.Some? ==> p.model == r.requestedModel || p.model == r.upstreamModel)
            && (p.status.Some? ==>
                  match p.status.value
                  case Exact(code) => r.status == code
                  case ClientError => 400 <= r.status <= 499
                  case ServerError => 500 <= r.status)
  {
    KeepsAll(Conditions(p), extra, r);
    ConditionsMean(p, r);
  }

  // --- the totals' cost query ---

  const KNOWN_COST := [Col(Currency), IsNotNull, And, Col(EstimatedCost), IsNotNull]

  /** The filter, extended by two conditions of the statement's own. */
  function CostText(p: Params): seq<Token> {
    if WhereText(p) == [] then KNOWN_COST else WhereText(p) + [And] + KNOWN_COST
  }

  function CostConditions(p: Params): seq<Condition> {
    Conditions(p) + [Present(Currency)] + [Present(EstimatedCost)]
  }

  lemma {:induction false} JoinSnoc(clauses: seq<seq<Token>>, last: seq<Token>)
    ensures Join(clauses + [last]) == if clauses == [] then last else Join(clauses) + [And] + last
  {
    if |clauses| == 1 {
      assert (clauses + [last])[1..] == [last];
    } else if clauses != [] {
      SplitConcat(clauses, [last], 1);
      JoinSnoc(clauses[1..], last);
      ConcatAssoc(clauses[0] + [And], Join(clauses[1..]) + [And], last);
      ConcatAssoc(clauses[0] + [And], Join(clauses[1..]), [And]);
    }
  }

  lemma JoinTwoMore(clauses: seq<seq<Token>>, a: seq<Token>, b: seq<Token>)
    ensures Join(clauses + [a] + [b]) ==
            if clauses == [] then a + [And] + b else Join(clauses) + [And] + (a + [And] + b)
  {
    JoinSnoc(clauses, a);
    JoinSnoc(clauses + [a], b);
    if clauses != [] {
      ConcatAssoc(Join(clauses) + [And], a + [And], b);
      ConcatAssoc(Join(clauses) + [And], a, [And]);
    }
  }

  lemma AppendPresent(cs: seq<Condition>, col: Column)
    ensures Clauses(cs + [Present(col)], 1) == Clauses(cs, 1) + [[Col(col), IsNotNull]]
    ensures AllValues(cs + [Present(col)]) == AllValues(cs)
  {
    AppendCondition(cs, Present(col), 1);
    assert AllValues(cs) + [] == AllValues(cs);
  }

  lemma KnownCostJoins(clauses: seq<seq<Token>>)
    ensures Join(clauses + [[Col(Currency), IsNotNull]] + [[Col(EstimatedCost), IsNotNull]]) ==
            if clauses == [] then KNOWN_COST else Join(clauses) + [And] + KNOWN_COST
  {
    var a, b := [Col(Currency), IsNotNull], [Col(EstimatedCost), IsNotNull];
    JoinTwoMore(clauses, a, b);
    assert a + [And] + b == KNOWN_COST;
  }

  lemma KnownCostText(cs: seq<Condition>, text: seq<Token>)
    requires text == Join(Clauses(cs, 1))
    ensures Join(Clauses(cs + [Present(Currency)] + [Present(EstimatedCost)], 1)) ==
            if text == [] then KNOWN_COST else text + [And] + KNOWN_COST
    ensures AllValues(cs + [Present(Currency)] + [Present(EstimatedCost)]) == AllValues(cs)
  {
    AppendPresent(cs, Currency);
    AppendPresent(cs + [Present(Currency)], EstimatedCost);
    KnownCostJoins(Clauses(cs, 1));
    NoConditionsNoText(cs);
  }

  /** It is the text of the extended conditions: its values are those of the filter alone. */
  lemma CostTextJoins(p: Params)
    ensures CostText(p) == Join(Clauses(CostConditions(p), 1))
    ensures AllValues(CostConditions(p)) == WhereValues(p)
  {
    KnownCostText(Conditions(p), WhereText(p));
  }

  lemma NoConditionsNoText(cs: seq<Condition>)
    ensures Join(Clauses(cs, 1)) == [] <==> cs == []
  {
    if cs != [] { ParsesJoin(cs, 1); }
  }

  /** The cost query keeps the rows of the filter that have a currency and a cost. */
  lemma CostQueryAgrees(p: Params, r: UsageRecord)
    ensures Keeps(CostText(p), WhereValues(p), r) <==> Matches(p, r) && r.currency.Some? && r.cost.Some?
  {
    var cs, currency, cost := Conditions(p), Present(Currency), Present(EstimatedCost);
    CostTextJoins(p);
    assert WhereValues(p) + [] == WhereValues(p);
    KeepsAll(CostConditions(p), [], r);
    AllHoldConcat(cs + [currency], [cost], r);
    AllHoldConcat(cs, [currency], r);
    ConditionsMean(p, r);
  }

  // --- placeholders ---

  function Placeholders(ts: seq<Token>): seq<nat> {
    if ts == [] then []
    else (if ts[0].Placeholder? then [ts[0].n] else []) + Placeholders(ts[1..])
  }

  lemma {:induction false} PlaceholdersConcat(a: seq<Token>, b: seq<Token>)
    ensures Placeholders(a + b) == Placeholders(a) + Placeholders(b)
  {
    if a == [] {
      assert a + b == b;
    } else {
      SplitConcat(a, b, 1);
      PlaceholdersConcat(a[1..], b);
      ConcatAssoc(if a[0].Placeholder? then [a[0].n] else [], Placeholders(a[1..]), Placeholders(b));
    }
  }

  /** k, k + 1, ..., k + n - 1 */
  function From(k: nat, n: nat): seq<nat> {
    seq(n, i => k + i)
  }

  lemma {:induction false} NoPlaceholders(ts: seq<Token>)
    requires forall t :: t in ts ==> !t.Placeholder?
    ensures Placeholders(ts) == []
  {
    if ts != [] {
      assert ts[0] in ts;
      NoPlaceholders(ts[1..]);
    }
  }

  lemma FromSplits(k: nat, a: nat, b: nat)
    ensures From(k, a + b) == From(k, a) + From(k + a, b)
  {
  }

  lemma RenderPlaceholders(c: Condition, k: nat)
    ensures Placeholders(Render(c, k)) == From(k, |ValuesOf(c)|)
  {
    match c
    case Bound(col, op, _) =>
      ComparisonPlaceholders([Col(col), Cmp(op)], k, []);
      assert Render(c, k) == [Col(col), Cmp(op)] + [Placeholder(k)] + [];
    case OneOfModels(_) =>
      var left, right := [LParen, Col(RequestedModel), Cmp(Eq)], [Or, Col(UpstreamModel), Cmp(Eq)];
      ComparisonPlaceholders(left, k, []);
      ComparisonPlaceholders(right, k + 1, [RParen]);
      PlaceholdersConcat(left + [Placeholder(k)] + [], right + [Placeholder(k + 1)] + [RParen]);
      assert Render(c, k) == (left + [Placeholder(k)] + []) + (right + [Placeholder(k + 1)] + [RParen]);
    case StatusBetween(low, high) => NoPlaceholders(Render(c, k));
    case StatusFrom(low) => NoPlaceholders(Render(c, k));
    case Present(col) => NoPlaceholders(Render(c, k));
  }

  lemma ComparisonPlaceholders(before: seq<Token>, k: nat, after: seq<Token>)
    requires forall t :: t in before || t in after ==> !t.Placeholder?
    ensures Placeholders(before + [Placeholder(k)] + after) == [k]
  {
    NoPlaceholders(before);
    NoPlaceholders(after);
    PlaceholdersConcat(before + [Placeholder(k)], after);
    PlaceholdersConcat(before, [Placeholder(k)]);
    assert [Placeholder(k)][1..] == [];
  }

  lemma {:induction false} JoinPlaceholders(cs: seq<Condition>, k: nat)
    ensures Placeholders(Join(Clauses(cs, k))) == From(k, |AllValues(cs)|)
    decreases |cs|
  {
    if cs != [] {
      var n, rest := |ValuesOf(cs[0])|, Clauses(cs[1..], k + |ValuesOf(cs[0])|);
      ClausesCons(cs, k);
      RenderPlaceholders(cs[0], k);
      JoinPlaceholders(cs[1..], k + n);
      JoinedPlaceholders(Render(cs[0], k), rest);
      FromSplits(k, n, |AllValues(cs[1..])|);
    }
  }

  /** Joining by AND brings no placeholder of its own. */
  lemma JoinedPlaceholders(first: seq<Token>, rest: seq<seq<Token>>)
    ensures Placeholders(Join([first] + rest)) == Placeholders(first) + Placeholders(Join(rest))
  {
    JoinCons(first, rest);
    if rest != [] {
      PlaceholdersConcat(first, [And] + Join(rest));
      PlaceholdersConcat([And], Join(rest));
      NoPlaceholders([And]);
    }
  }

  function Paging(n: nat): seq<Token> {
    [Limit, Placeholder(n + 1), Offset, Placeholder(n + 2)]
  }

  /** The list statement: the filter, then LIMIT and OFFSET with the next two placeholders. */
  function ListText(p: Params): seq<Token> {
    WhereText(p) + Paging(|WhereValues(p)|)
  }

  function ListValues(p: Params, pageSize: int, offset: int): seq<Value> {
    WhereValues(p) + [Int(pageSize), Int(offset)]
  }

  lemma PagingPlaceholders(n: nat)
    ensures Placeholders(Paging(n)) == From(n + 1, 2)
  {
    var limit, offset := [Limit] + [Placeholder(n + 1)] + [], [Offset] + [Placeholder(n + 2)] + [];
    ComparisonPlaceholders([Limit], n + 1, []);
    ComparisonPlaceholders([Offset], n + 2, []);
    PlaceholdersConcat(limit, offset);
    assert Paging(n) == limit + offset;
  }

  /** LIMIT sees the value bound last but one, OFFSET the last. */
  lemma LastTwoBound(where: seq<Token>, values: seq<Value>, a: Value, b: Value)
    ensures var text, all, n := where + Paging(|values|), values + [a, b], |where|;
            && |text| == n + 4 && text[..n] == where
            && text[n] == Limit && OperandOf(text[n + 1], all) == a
            && text[n + 2] == Offset && OperandOf(text[n + 3], all) == b
  {
  }

  lemma PagedPlaceholders(text: seq<Token>, n: nat)
    requires Placeholders(text) == From(1, n)
    ensures Placeholders(text + Paging(n)) == From(1, n + 2)
  {
    PagingPlaceholders(n);
    PlaceholdersConcat(text, Paging(n));
    FromSplits(1, n, 2);
  }

  /** In text order the placeholders are $1, $2, ..., one per bound value, in the WHERE clause alone and with
      LIMIT and OFFSET appended; the last two see the page size and the offset. */
  lemma PlaceholdersInOrder(p: Params, pageSize: int, offset: int)
    ensures Placeholders(WhereText(p)) == From(1, |WhereValues(p)|)
    ensures Placeholders(ListText(p)) == From(1, |ListValues(p, pageSize, offset)|)
    ensures var text, values, n := ListText(p), ListValues(p, pageSize, offset), |WhereText(p)|;
            && |text| == n + 4 && text[..n] == WhereText(p)
            && text[n] == Limit && OperandOf(text[n + 1], values) == Int(pageSize)
            && text[n + 2] == Offset && OperandOf(text[n + 3], values) == Int(offset)
  {
    JoinPlaceholders(Conditions(p), 1);
    PagedPlaceholders(WhereText(p), |WhereValues(p)|);
    LastTwoBound(WhereText(p), WhereValues(p), Int(pageSize), Int(offset));
  }
}

/** The usage ledger, its sums, and the spend caps that are checked before a request and charged after it. */
module Spend {
  import opened Wrappers
  import opened Api

  datatype Row = Row(keyId: int, ok: bool, estimatedCost: real)

  /** Whose spend is summed: one virtual key's, or everyone's. */
  datatype Scope = OfKey(keyId: int) | Global {
    predicate Covers(id: int) {
      Global? || keyId == id
    }
  }

  /** The accumulated cost of the successful rows in a scope. */
  function Total(rows: seq<Row>, scope: Scope): real {
    if rows == [] then 0.0
    else
      Total(rows[..|rows| - 1], scope)
      + if rows[|rows| - 1].ok && scope.Covers(rows[|rows| - 1].keyId) then rows[|rows| - 1].estimatedCost else 0.0
  }

  lemma AppendRow(rows: seq<Row>, row: Row, scope: Scope)
    ensures Total(rows + [row], scope)
         == Total(rows, scope) + if row.ok && scope.Covers(row.keyId) then row.estimatedCost else 0.0
  {
    assert (rows + [row])[..|rows|] == rows;
  }

  lemma RowRaisesTotals(rows: seq<Row>, row: Row)
    ensures forall scope ::
      Total(rows + [row], scope) ==
      Total(rows, scope) + if row.ok && scope.Covers(row.keyId) then row.estimatedCost else 0.0
  {
    forall scope
      ensures Total(rows + [row], scope) ==
        Total(rows, scope) + if row.ok && scope.Covers(row.keyId) then row.estimatedCost else 0.0
    {
      AppendRow(rows, row, scope);
    }
  }

  class Ledger {
    var rows: seq<Row>

    constructor ()
      ensures rows == []
    {
      rows := [];
    }

    /** The spend of the record's key, and the global spend, grow by exactly its cost; no other key's spend moves. */
    method CreateUsageLog(record: UsageRecord)
      modifies this
      ensures rows == old(rows) + [Row(record.keyId, true, record.estimatedCost)]
      ensures Total(rows, OfKey(record.keyId)) == old(Total(rows, OfKey(record.keyId))) + record.estimatedCost
      ensures Total(rows, Global) == old(Total(rows, Global)) + record.estimatedCost
      ensures forall id :: id != record.keyId ==> Total(rows, OfKey(id)) == old(Total(rows, OfKey(id)))
    {
      var row := Row(record.keyId, true, record.estimatedCost);
      RowRaisesTotals(rows, row);
      rows := rows + [row];
    }

    /** A failed request is on record and moves nobody's spend. */
    method CreateFailedUsageLog(keyId: int)
      modifies this
      ensures rows == old(rows) + [Row(keyId, false, 0.0)]
      ensures forall scope :: Total(rows, scope) == old(Total(rows, scope))
    {
      RowRaisesTotals(rows, Row(keyId, false, 0.0));
      rows := rows + [Row(keyId, false, 0.0)];
    }

    method GetKeySpend(keyId: int) returns (spent: real)
      ensures spent == Total(rows, OfKey(keyId))
    {
      spent := 0.0;
      for i := 0 to |rows|
        invariant spent == Total(rows[..i], OfKey(keyId))
      {
        assert rows[..i + 1][..i] == rows[..i];
        if rows[i].keyId == keyId && rows[i].ok {
          spent := spent + rows[i].estimatedCost;
        }
      }
      assert rows[..|rows|] == rows;
    }

    method GetGlobalSpend() returns (spent: real)
      ensures spent == Total(rows, Global)
    {
      spent := 0.0;
      for i := 0 to |rows|
        invariant spent == Total(rows[..i], Global)
      {
        assert rows[..i + 1][..i] == rows[..i];
        if rows[i].ok {
          spent := spent + rows[i].estimatedCost;
        }
      }
      assert rows[..|rows|] == rows;
    }

    /** True when the request may go on; a missing limit is no limit. */
    method EnforceSpendCap(keyId: int, keyLimit: Option<real>, globalLimit: Option<real>) returns (admitted: bool)
      ensures admitted <==>
        (keyLimit.None? || Total(rows, OfKey(keyId)) < keyLimit.value)
        && (globalLimit.None? || Total(rows, Global) < globalLimit.value)
    {
      if keyLimit.Some? {
        var spent := GetKeySpend(keyId);
        if spent >= keyLimit.value {
          return false;
        }
      }
      if globalLimit.Some? {
        var spent := GetGlobalSpend();
        if spent >= globalLimit.value {
          return false;
        }
      }
      return true;
    }
  }

  predicate Below(rows: seq<Row>, scope: Scope, limit: Option<real>) {
    limit.Some? ==> Total(rows, scope) < limit.value
  }

  // ---------- Sums over keys ----------

  function SumOverKeys(rows: seq<Row>, keys: seq<int>): real {
    if keys == [] then 0.0 else Total(rows, OfKey(keys[0])) + SumOverKeys(rows, keys[1..])
  }

  lemma {:induction false} SumOverKeysAppend(rows: seq<Row>, row: Row, keys: seq<int>)
    requires forall i, j :: 0 <= i < j < |keys| ==> keys[i] != keys[j]
    ensures SumOverKeys(rows + [row], keys)
         == SumOverKeys(rows, keys) + if row.ok && row.keyId in keys then row.estimatedCost else 0.0
  {
    assert (rows + [row])[..|rows|] == rows;
    if keys != [] {
      SumOverKeysAppend(rows, row, keys[1..]);
      assert row.keyId in keys <==> row.keyId == keys[0] || row.keyId in keys[1..];
      assert forall j :: 0 <= j < |keys[1..]| ==> keys[1..][j] == keys[j + 1];
    }
  }

  lemma {:induction false} SumOverKeysEmpty(keys: seq<int>)
    ensures SumOverKeys([], keys) == 0.0
  {
    if keys != [] {
      SumOverKeysEmpty(keys[1..]);
    }
  }

  /** What the keys spent, each on its own, is what was spent in all. */
  lemma {:induction false} KeySpendsAddUp(rows: seq<Row>, keys: seq<int>)
    requires forall i, j :: 0 <= i < j < |keys| ==> keys[i] != keys[j]
    requires forall row :: row in rows ==> row.keyId in keys
    ensures SumOverKeys(rows, keys) == Total(rows, Global)
  {
    if rows == [] {
      SumOverKeysEmpty(keys);
    } else {
      var before, row := rows[..|rows| - 1], rows[|rows| - 1];
      KeySpendsAddUp(before, keys);
      SumOverKeysAppend(before, row, keys);
      assert before + [row] == rows;
    }
  }

  // ---------- Requests in flight: checked now, charged later ----------

  /** The key check and the global check are two reads; the charge, or its loss, comes at any later time. */
  datatype Phase = Asking | KeyPassed | Admitted | Refused | Charged | Dropped

  datatype Request = Request(keyId: int, phase: Phase)

  datatype State = State(rows: seq<Row>, requests: seq<Request>)

  datatype Limits = Limits(perKey: map<int, real>, overall: Option<real>) {
    function Of(scope: Scope): Option<real> {
      match scope
      case OfKey(keyId) => if keyId in perKey then Some(perKey[keyId]) else None
      case Global => overall
    }
  }

  /** What a charge is worked out from: the price of the model, and the token counts as the provider sent them. */
  datatype Bill = Bill(pricing: Pricing, prompt: int, completion: int, total: int) {
    function Amount(): real {
      Cost(pricing, MakeUsage(prompt, completion, total))
    }
  }

  predicate PricesNotNegative(e: Event) {
    e.Charge? ==> e.bill.pricing.inputCost >= 0.0 && e.bill.pricing.outputCost >= 0.0
  }

  lemma ChargeNotNegative(e: Event)
    requires e.Charge? && PricesNotNegative(e)
    ensures e.bill.Amount() >= 0.0
  {
    CostNeverNegative(e.bill.pricing, e.bill.prompt, e.bill.completion, e.bill.total);
  }

  datatype Event =
    | Ask(keyId: int)
    | CheckKey(request: nat)
    | CheckGlobal(request: nat)
    | Charge(request: nat, bill: Bill)
    | Drop(request: nat)
    | LogFailure(keyId: int)

  predicate Enabled(s: State, e: Event) {
    match e
    case Ask(_) | LogFailure(_) => true
    case CheckKey(i) => i < |s.requests| && s.requests[i].phase == Asking
    case CheckGlobal(i) => i < |s.requests| && s.requests[i].phase == KeyPassed
    case Charge(i, _) => i < |s.requests| && s.requests[i].phase == Admitted
    case Drop(i) => i < |s.requests| && (s.requests[i].phase == Admitted || s.requests[i].phase == KeyPassed)
  }

  function Enter(s: State, i: nat, phase: Phase): State
    requires i < |s.requests|
  {
    s.(requests := s.requests[i := s.requests[i].(phase := phase)])
  }

  function Apply(limits: Limits, s: State, e: Event): State
    requires Enabled(s, e)
  {
    match e
    case Ask(keyId) => s.(requests := s.requests + [Request(keyId, Asking)])
    case CheckKey(i) =>
      var scope := OfKey(s.requests[i].keyId);
      Enter(s, i, if Below(s.rows, scope, limits.Of(scope)) then KeyPassed else Refused)
    case CheckGlobal(i) => Enter(s, i, if Below(s.rows, Global, limits.Of(Global)) then Admitted else Refused)
    case Charge(i, bill) => Enter(s.(rows := s.rows + [Row(s.requests[i].keyId, true, bill.Amount())]), i, Charged)
    case Drop(i) => Enter(s, i, Dropped)
    case LogFailure(keyId) => s.(rows := s.rows + [Row(keyId, false, 0.0)])
  }

  /** Each check lets a request on exactly if it has no limit or what is recorded is below it. */
  lemma ChecksDecide(limits: Limits, s: State, i: nat)
    requires i < |s.requests|
    ensures s.requests[i].phase == Asking ==>
      var keyId, after := s.requests[i].keyId, Apply(limits, s, CheckKey(i)).requests[i].phase;
      (after == KeyPassed <==> keyId !in limits.perKey || Total(s.rows, OfKey(keyId)) < limits.perKey[keyId])
      && (after == KeyPassed || after == Refused)
    ensures s.requests[i].phase == KeyPassed ==>
      var after := Apply(limits, s, CheckGlobal(i)).requests[i].phase;
      (after == Admitted <==> limits.overall.None? || Total(s.rows, Global) < limits.overall.value)
      && (after == Admitted || after == Refused)
  {
  }

  /** Main result: a request whose key and whose deployment are below their limits is admitted. */
  lemma UnderLimitsIsAdmitted(limits: Limits, s: State, i: nat)
    requires i < |s.requests| && s.requests[i].phase == Asking
    requires s.requests[i].keyId in limits.perKey ==>
      Total(s.rows, OfKey(s.requests[i].keyId)) < limits.perKey[s.requests[i].keyId]
    requires limits.overall.Some? ==> Total(s.rows, Global) < limits.overall.value
    ensures var checked := Apply(limits, s, CheckKey(i));
      Enabled(checked, CheckGlobal(i)) && Apply(limits, checked, CheckGlobal(i)).requests[i].phase == Admitted
  {
    ChecksDecide(limits, s, i);
    var checked := Apply(limits, s, CheckKey(i));
    ChecksDecide(limits, checked, i);
  }

  /** A charge adds to the spend of its key and to the global one what its counts, clamped, cost at its prices. */
  lemma ChargeIsRecorded(limits: Limits, s: State, i: nat, bill: Bill)
    requires Enabled(s, Charge(i, bill))
    ensures var s', keyId := Apply(limits, s, Charge(i, bill)), s.requests[i].keyId;
      var prompt, completion := NeverNegative(bill.prompt) as real, NeverNegative(bill.completion) as real;
      var cost := bill.pricing.inputCost * prompt / 1000000.0 + bill.pricing.outputCost * completion / 1000000.0;
      Total(s'.rows, OfKey(keyId)) == Total(s.rows, OfKey(keyId)) + cost
      && Total(s'.rows, Global) == Total(s.rows, Global) + cost
      && s'.requests[i].phase == Charged
  {
    var row := Row(s.requests[i].keyId, true, bill.Amount());
    AppendRow(s.rows, row, OfKey(s.requests[i].keyId));
    AppendRow(s.rows, row, Global);
  }

  /** Past the check of this scope and not yet charged. */
  predicate Owing(r: Request, scope: Scope) {
    scope.Covers(r.keyId) && (r.phase == Admitted || (scope.OfKey? && r.phase == KeyPassed))
  }

  function Unrecorded(requests: seq<Request>, scope: Scope): nat {
    if requests == [] then 0
    else Unrecorded(requests[..|requests| - 1], scope) + if Owing(requests[|requests| - 1], scope) then 1 else 0
  }

  lemma {:induction false} UnrecordedUpdate(requests: seq<Request>, scope: Scope, i: nat, r: Request)
    requires i < |requests|
    ensures Unrecorded(requests[i := r], scope) + (if Owing(requests[i], scope) then 1 else 0)
         == Unrecorded(requests, scope) + (if Owing(r, scope) then 1 else 0)
  {
    var n := |requests| - 1;
    if i == n {
      assert requests[i := r][..n] == requests[..n];
    } else {
      assert requests[i := r][..n] == requests[..n][i := r];
      UnrecordedUpdate(requests[..n], scope, i, r);
    }
  }

  /**
   A run from `s`: at every point at most `most` requests of the scope are unrecorded, no price is
   negative, and no charge is above `dearest`.
   */
  ghost predicate BoundedRun(limits: Limits, s: State, events: seq<Event>, scope: Scope, most: nat, dearest: real)
    decreases |events|
  {
    Unrecorded(s.requests, scope) <= most
    && (events == [] ||
        (Enabled(s, events[0]) && PricesNotNegative(events[0])
         && (events[0].Charge? ==> events[0].bill.Amount() <= dearest)
         && BoundedRun(limits, Apply(limits, s, events[0]), events[1..], scope, most, dearest)))
  }

  function Run(limits: Limits, s: State, events: seq<Event>): State
    decreases |events|
  {
    if events == [] || !Enabled(s, events[0]) then s else Run(limits, Apply(limits, s, events[0]), events[1..])
  }

  /** What `n` requests can cost together. */
  function Worst(n: nat, dearest: real): real {
    if n == 0 then 0.0 else Worst(n - 1, dearest) + dearest
  }

  lemma {:induction false} WorstIsProduct(n: nat, dearest: real)
    ensures Worst(n, dearest) == n as real * dearest
  {
    if n > 0 {
      WorstIsProduct(n - 1, dearest);
      var less := (n - 1) as real;
      assert n as real == less + 1.0;
      assert (less + 1.0) * dearest == less * dearest + dearest;
    }
  }

  /** Recorded spend and what is still owed at worst stay below the limit plus the worst batch of requests. */
  ghost predicate Headroom(s: State, scope: Scope, limit: real, most: nat, dearest: real) {
    Total(s.rows, scope) + Worst(Unrecorded(s.requests, scope), dearest) < limit + Worst(most, dearest)
  }

  lemma {:induction false} FewerCostLess(a: nat, b: nat, dearest: real)
    requires a <= b && dearest >= 0.0
    ensures Worst(a, dearest) <= Worst(b, dearest)
  {
    if a < b {
      FewerCostLess(a, b - 1, dearest);
    }
  }

  /** After a passed check of this scope the room is there again, whatever it was before. */
  lemma CheckRestoresHeadroom(s: State, scope: Scope, limit: real, most: nat, dearest: real)
    requires dearest >= 0.0 && Unrecorded(s.requests, scope) <= most && Total(s.rows, scope) < limit
    ensures Headroom(s, scope, limit, most, dearest)
  {
    FewerCostLess(Unrecorded(s.requests, scope), most, dearest);
  }

  /** What one event can do to a scope: admit under the limit, settle debts, or turn one debt into a charge. */
  lemma StepEffect(limits: Limits, s: State, e: Event, scope: Scope)
    requires limits.Of(scope).Some? && Enabled(s, e)
    ensures var s' := Apply(limits, s, e);
      var n, n' := Unrecorded(s.requests, scope), Unrecorded(s'.requests, scope);
      var spent, spent' := Total(s.rows, scope), Total(s'.rows, scope);
      (spent' == spent < limits.Of(scope).value)
      || (spent' == spent && n' <= n)
      || (e.Charge? && spent' == spent + e.bill.Amount() && n' + 1 == n)
  {
    var s' := Apply(limits, s, e);
    match e
    case Ask(_) => assert s'.requests[..|s.requests|] == s.requests;
    case LogFailure(keyId) => AppendRow(s.rows, Row(keyId, false, 0.0), scope);
    case CheckKey(i) => UnrecordedUpdate(s.requests, scope, i, s'.requests[i]);
    case CheckGlobal(i) => UnrecordedUpdate(s.requests, scope, i, s'.requests[i]);
    case Drop(i) => UnrecordedUpdate(s.requests, scope, i, s'.requests[i]);
    case Charge(i, bill) =>
      UnrecordedUpdate(s.requests, scope, i, s'.requests[i]);
      AppendRow(s.rows, Row(s.requests[i].keyId, true, bill.Amount()), scope);
  }

  lemma StepKeepsHeadroom(limits: Limits, s: State, e: Event, scope: Scope, most: nat, dearest: real)
    requires dearest >= 0.0 && limits.Of(scope).Some? && Enabled(s, e)
    requires PricesNotNegative(e) && (e.Charge? ==> e.bill.Amount() <= dearest)
    requires Unrecorded(Apply(limits, s, e).requests, scope) <= most
    requires Headroom(s, scope, limits.Of(scope).value, most, dearest)
    ensures Headroom(Apply(limits, s, e), scope, limits.Of(scope).value, most, dearest)
  {
    StepEffect(limits, s, e, scope);
    if e.Charge? { ChargeNotNegative(e); }
    HeadroomMoves(s, Apply(limits, s, e), scope, limits.Of(scope).value, most, dearest,
      if e.Charge? then e.bill.Amount() else 0.0);
  }

  lemma HeadroomMoves(s: State, s': State, scope: Scope, limit: real, most: nat, dearest: real, cost: real)
    requires 0.0 <= cost <= dearest && Unrecorded(s'.requests, scope) <= most
    requires Headroom(s, scope, limit, most, dearest)
    requires var n, n' := Unrecorded(s.requests, scope), Unrecorded(s'.requests, scope);
      var spent, spent' := Total(s.rows, scope), Total(s'.rows, scope);
      (spent' == spent < limit) || (spent' == spent && n' <= n) || (spent' == spent + cost && n' + 1 == n)
    ensures Headroom(s', scope, limit, most, dearest)
  {
    var n, n' := Unrecorded(s.requests, scope), Unrecorded(s'.requests, scope);
    if Total(s'.rows, scope) < limit {
      CheckRestoresHeadroom(s', scope, limit, most, dearest);
    } else if n' <= n {
      FewerCostLess(n', n, dearest);
    }
  }

  lemma {:induction false} RunKeepsHeadroom(limits: Limits, s: State, events: seq<Event>, scope: Scope,
                                            most: nat, dearest: real)
    requires dearest >= 0.0 && limits.Of(scope).Some?
    requires BoundedRun(limits, s, events, scope, most, dearest)
    requires Headroom(s, scope, limits.Of(scope).value, most, dearest)
    ensures Headroom(Run(limits, s, events), scope, limits.Of(scope).value, most, dearest)
    decreases |events|
  {
    if events != [] {
      StepKeepsHeadroom(limits, s, events[0], scope, most, dearest);
      RunKeepsHeadroom(limits, Apply(limits, s, events[0]), events[1..], scope, most, dearest);
    }
  }

  /**
   Main result: a ledger that starts below a key's limit, or below the global one, never reaches that limit
   plus the cost of the requests that can be unrecorded at once.
   */
  lemma OvershootIsBounded(limits: Limits, s: State, events: seq<Event>, scope: Scope, most: nat, dearest: real)
    requires dearest >= 0.0 && limits.Of(scope).Some?
    requires Total(s.rows, scope) < limits.Of(scope).value
    requires BoundedRun(limits, s, events, scope, most, dearest)
    ensures Total(Run(limits, s, events).rows, scope) < limits.Of(scope).value + most as real * dearest
  {
    CheckRestoresHeadroom(s, scope, limits.Of(scope).value, most, dearest);
    RunKeepsHeadroom(limits, s, events, scope, most, dearest);
    FewerCostLess(0, Unrecorded(Run(limits, s, events).requests, scope), dearest);
    WorstIsProduct(most, dearest);
  }

  // ---------- A reached cap stays reached ----------

  /** A run in which no price is negative; the token counts may be anything. */
  ghost predicate PricedRun(limits: Limits, s: State, events: seq<Event>)
    decreases |events|
  {
    events == [] ||
    (Enabled(s, events[0]) && PricesNotNegative(events[0])
     && PricedRun(limits, Apply(limits, s, events[0]), events[1..]))
  }

  /** For any token counts, negative ones included, no recorded spend ever falls. */
  lemma {:induction false} SpendNeverFalls(limits: Limits, s: State, events: seq<Event>, scope: Scope)
    requires PricedRun(limits, s, events)
    ensures Total(Run(limits, s, events).rows, scope) >= Total(s.rows, scope)
    decreases |events|
  {
    if events != [] {
      var s' := Apply(limits, s, events[0]);
      match events[0] {
        case LogFailure(keyId) => AppendRow(s.rows, Row(keyId, false, 0.0), scope);
        case Charge(i, bill) =>
          ChargeNotNegative(events[0]);
          AppendRow(s.rows, Row(s.requests[i].keyId, true, bill.Amount()), scope);
        case _ =>
      }
      SpendNeverFalls(limits, s', events[1..], scope);
    }
  }

  /**
   Main result: once the spend of a scope has reached its limit, every later check of that scope, in
   every continuation with the same limits, refuses.
   */
  lemma CapIsSticky(limits: Limits, s: State, events: seq<Event>, scope: Scope, i: nat)
    requires PricedRun(limits, s, events) && !Below(s.rows, scope, limits.Of(scope))
    requires var e := if scope.Global? then CheckGlobal(i) else CheckKey(i);
      Enabled(Run(limits, s, events), e) && scope.Covers(Run(limits, s, events).requests[i].keyId)
    ensures var e := if scope.Global? then CheckGlobal(i) else CheckKey(i);
      Apply(limits, Run(limits, s, events), e).requests[i].phase == Refused
  {
    SpendNeverFalls(limits, s, events, scope);
  }
}

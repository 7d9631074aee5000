/** Code Mode: plugin-call waves, their budget and their identities. */
module CodeMode {
  import opened Base
  import opened PendingTools

  const MAX_CODE_BYTES: nat := 64 * 1024
  const MAX_CALLS_PER_WAVE: nat := 32
  const MAX_ARGUMENT_BYTES: nat := 256 * 1024
  const MAX_REFERENCE_BYTES: nat := 1024
  const MAX_CALLS_PER_RUN: nat := 128
  const MAX_WAVES: nat := 32
  const MAX_SNAPSHOT_BYTES: nat := 2 * 1024 * 1024
  const MAX_RESULT_BYTES: nat := 1024 * 1024
  const MAX_WAVE_RESULTS_BYTES: nat := 2 * 1024 * 1024

  // Decimal identities ------------------------------------------------------

  function Digit(d: nat): (c: char)
    requires d < 10
    ensures c != ':'
  {
    "0123456789"[d]
  }

  /** The canonical decimal text of a number. */
  function Decimal(n: nat): (s: string)
    ensures |s| >= 1 && ':' !in s
  {
    if n < 10 then [Digit(n)] else Decimal(n / 10) + [Digit(n % 10)]
  }

  /** The number a digit string reads as, or `None` for any other text. */
  function ParseDecimal(s: string): Option<nat> {
    if s == "" || !('0' <= s[|s| - 1] <= '9') then None
    else
      var unit := s[|s| - 1] as int - '0' as int;
      if |s| == 1 then Some(unit)
      else
        match ParseDecimal(s[..|s| - 1])
        case None => None
        case Some(tens) => Some(10 * tens + unit)
  }

  /** Whether `key` is exactly how a `u32` prints. */
  predicate Canonical(key: string) {
    match ParseDecimal(key)
    case None => false
    case Some(n) => n <= U32_MAX && Decimal(n) == key
  }

  lemma {:induction false} DecimalParses(n: nat)
    ensures ParseDecimal(Decimal(n)) == Some(n)
  {
    var s := Decimal(n);
    if n >= 10 {
      DecimalParses(n / 10);
      assert s[..|s| - 1] == Decimal(n / 10);
    }
  }

  lemma DecimalInjective(a: nat, b: nat)
    ensures Decimal(a) == Decimal(b) ==> a == b
  {
    DecimalParses(a);
    DecimalParses(b);
  }

  // Steps and calls ---------------------------------------------------------

  datatype CodeStep =
    | Start(source: string)
    | Resume(snapshot: string, results: map<string, string>)

  datatype CodeStepRequest = CodeStepRequest(runId: string, step: CodeStep)

  /** The JSON arguments of a plugin call, which must be an object. */
  datatype Arguments = Object(json: string) | NotObject(json: string)

  datatype CodePluginCall = CodePluginCall(callId: u32, reference: string, arguments: Arguments)

  datatype CodeStepOutput =
    | StepCompleted(value: string, isError: bool)
    | Suspended(snapshot: string, calls: seq<CodePluginCall>)

  // The budget of one run ---------------------------------------------------

  datatype CodeRun = CodeRun(runId: string, wave: nat, totalCalls: nat) {

    predicate WithinBudget() {
      wave <= MAX_WAVES && totalCalls <= MAX_CALLS_PER_RUN
    }

    /** Counts one wave of `calls` plugin calls, or refuses it. */
    function AddWave(calls: nat): (next: Loop<CodeRun>)
      ensures next.Ok? <==> 1 <= calls <= MAX_CALLS_PER_WAVE
                            && CodeRun(runId, wave + 1, totalCalls + calls).WithinBudget()
      ensures next.Ok? ==> next.value == CodeRun(runId, wave + 1, totalCalls + calls)
    {
      if calls == 0 || calls > MAX_CALLS_PER_WAVE then
        Err(InvalidWave)
      else if wave + 1 > MAX_WAVES || totalCalls + calls > MAX_CALLS_PER_RUN then
        Err(BudgetExceeded)
      else
        Ok(CodeRun(runId, wave + 1, totalCalls + calls))
    }

    function CallId(callId: nat): string {
      runId + ":" + Decimal(wave) + ":" + Decimal(callId)
    }

    predicate ValidStep(request: CodeStepRequest) {
      && request.runId == runId
      && WithinBudget()
      && match request.step
         case Start(source) =>
           wave == 0 && totalCalls == 0 && !Blank(source) && ByteLen(source) <= MAX_CODE_BYTES
         case Resume(snapshot, results) =>
           && wave > 0 && totalCalls > 0
           && snapshot != "" && ByteLen(snapshot) <= MAX_SNAPSHOT_BYTES
           && 0 < |results| <= MAX_CALLS_PER_WAVE
           && (forall key | key in results :: Canonical(key))
    }

    predicate ValidCallWave(snapshot: string, calls: CodeCallBatch) {
      && calls.Valid()
      && 0 < wave
      && |calls.order| <= totalCalls
      && WithinBudget()
      && snapshot != "" && ByteLen(snapshot) <= MAX_SNAPSHOT_BYTES
    }
  }

  // One wave ----------------------------------------------------------------

  /** A wave indexed by decimal identity, plus the evaluator's declaration order. */
  datatype CodeCallBatch = CodeCallBatch(order: seq<u32>, calls: map<string, CodePluginCall>) {

    predicate ValidEntry(id: u32) {
      var key := Decimal(id);
      && key in calls
      && calls[key].callId == id
      && calls[key].reference != ""
      && ByteLen(calls[key].reference) <= MAX_REFERENCE_BYTES
      && calls[key].arguments.Object?
      && ByteLen(calls[key].arguments.json) <= MAX_ARGUMENT_BYTES
    }

    predicate Valid() {
      && 0 < |order| <= MAX_CALLS_PER_WAVE
      && |order| == |calls|
      && (forall i, j | 0 <= i < j < |order| :: order[i] != order[j])
      && (forall i | 0 <= i < |order| :: ValidEntry(order[i]))
    }

    function Ordered(): (ordered: seq<CodePluginCall>)
      requires Valid()
    {
      seq(|order|, i requires 0 <= i < |order| => assert ValidEntry(order[i]); calls[Decimal(order[i])])
    }
  }

  /** The declaration order names every key of the map exactly once. */
  lemma {:induction false} OrderIsBijection(batch: CodeCallBatch)
    requires batch.Valid()
    ensures forall key | key in batch.calls :: exists i :: 0 <= i < |batch.order| && Decimal(batch.order[i]) == key
    ensures forall i, j | 0 <= i < j < |batch.order| :: Decimal(batch.order[i]) != Decimal(batch.order[j])
  {
    forall i, j | 0 <= i < j < |batch.order| ensures Decimal(batch.order[i]) != Decimal(batch.order[j]) {
      DecimalInjective(batch.order[i], batch.order[j]);
    }
    NamesCount(batch.order, |batch.order|);
    var named := Names(batch.order, |batch.order|);
    assert forall i | 0 <= i < |batch.order| :: batch.ValidEntry(batch.order[i]);
    assert named <= batch.calls.Keys;
    SubsetOfEqualSize(named, batch.calls.Keys);
    assert forall key | key in batch.calls :: key in named;
  }

  ghost function Names(order: seq<u32>, n: nat): set<string>
    requires n <= |order|
  {
    set i | 0 <= i < n :: Decimal(order[i])
  }

  lemma {:induction false} NamesCount(order: seq<u32>, n: nat)
    requires n <= |order|
    requires forall i, j | 0 <= i < j < |order| :: Decimal(order[i]) != Decimal(order[j])
    ensures |Names(order, n)| == n
  {
    if n > 0 {
      NamesCount(order, n - 1);
      var before, last := Names(order, n - 1), Decimal(order[n - 1]);
      assert last !in before;
      assert Names(order, n) == before + {last};
    }
  }

  /** The batch `calls` index to, without the validity check. */
  function Index(calls: seq<CodePluginCall>): map<string, CodePluginCall> {
    if calls == [] then map[]
    else
      var last := |calls| - 1;
      Index(calls[..last])[Decimal(calls[last].callId) := calls[last]]
  }

  function Identifiers(calls: seq<CodePluginCall>): (ids: seq<u32>)
    ensures |ids| == |calls|
    ensures forall i | 0 <= i < |ids| :: ids[i] == calls[i].callId
  {
    seq(|calls|, i requires 0 <= i < |calls| => calls[i].callId)
  }

  function NewBatch(calls: seq<CodePluginCall>): (batch: Loop<CodeCallBatch>)
    ensures batch.Ok? ==> batch.value.Valid() && batch.value.order == Identifiers(calls)
  {
    var batch := CodeCallBatch(Identifiers(calls), Index(calls));
    if exists i, j :: 0 <= i < j < |calls| && calls[i].callId == calls[j].callId then
      Err(RepeatedCall)
    else if !batch.Valid() then Err(InvalidWave)
    else Ok(batch)
  }

  /** Builds a batch in one pass, as the loop does when an evaluator suspends. */
  method BuildBatch(calls: seq<CodePluginCall>) returns (batch: Loop<CodeCallBatch>)
    ensures batch.Ok? <==> NewBatch(calls).Ok?
    ensures batch.Ok? ==> batch == NewBatch(calls) && batch.value.Ordered() == calls
  {
    var order: seq<u32> := [];
    var indexed: map<string, CodePluginCall> := map[];
    for n := 0 to |calls|
      invariant order == Identifiers(calls[..n])
      invariant indexed == Index(calls[..n])
      invariant forall i, j | 0 <= i < j < n :: calls[i].callId != calls[j].callId
    {
      var key := Decimal(calls[n].callId);
      order := order + [calls[n].callId];
      IndexKeys(calls[..n], calls[n].callId);
      if key in indexed {
        return Err(RepeatedCall);
      }
      assert calls[..n + 1][..n] == calls[..n];
      indexed := indexed[key := calls[n]];
    }
    assert calls[..|calls|] == calls;
    var built := CodeCallBatch(order, indexed);
    var valid := ValidateBatch(built);
    if !valid {
      return Err(InvalidWave);
    }
    OrderedOfBuilt(calls);
    return Ok(built);
  }

  lemma {:induction false} IndexKeys(calls: seq<CodePluginCall>, id: u32)
    ensures Decimal(id) in Index(calls) <==> exists i :: 0 <= i < |calls| && calls[i].callId == id
  {
    if calls != [] {
      var last := |calls| - 1;
      IndexKeys(calls[..last], id);
      DecimalInjective(id, calls[last].callId);
      assert forall i | 0 <= i < last :: calls[..last][i] == calls[i];
    }
  }

  lemma {:induction false} IndexAt(calls: seq<CodePluginCall>, i: nat)
    requires i < |calls|
    requires forall i, j | 0 <= i < j < |calls| :: calls[i].callId != calls[j].callId
    ensures Decimal(calls[i].callId) in Index(calls) && Index(calls)[Decimal(calls[i].callId)] == calls[i]
  {
    var last := |calls| - 1;
    if i < last {
      IndexAt(calls[..last], i);
      DecimalInjective(calls[i].callId, calls[last].callId);
    }
  }

  /** Reading a built batch in order gives back exactly the calls it was built from. */
  lemma {:induction false} OrderedOfBuilt(calls: seq<CodePluginCall>)
    requires NewBatch(calls).Ok?
    ensures NewBatch(calls).value.Ordered() == calls
  {
    var batch := NewBatch(calls).value;
    forall i | 0 <= i < |calls| ensures batch.Ordered()[i] == calls[i] {
      IndexAt(calls, i);
    }
  }

  /** Validates a batch with one pass over its order and a set of observed identities. */
  method ValidateBatch(batch: CodeCallBatch) returns (valid: bool)
    ensures valid <==> batch.Valid()
  {
    if |batch.order| == 0 || |batch.order| > MAX_CALLS_PER_WAVE || |batch.order| != |batch.calls| {
      return false;
    }
    var observed: set<u32> := {};
    for n := 0 to |batch.order|
      invariant forall id :: id in observed <==> id in batch.order[..n]
      invariant forall i, j | 0 <= i < j < n :: batch.order[i] != batch.order[j]
      invariant forall i | 0 <= i < n :: batch.ValidEntry(batch.order[i])
    {
      if batch.order[n] in observed || !batch.ValidEntry(batch.order[n]) {
        return false;
      }
      observed := observed + {batch.order[n]};
    }
    return true;
  }

  // Identities over a whole run ---------------------------------------------

  /** The run after each of `waves` was accepted, or the first refusal. */
  function AfterWaves(run: CodeRun, waves: seq<seq<CodePluginCall>>): Loop<CodeRun> {
    if waves == [] then Ok(run)
    else
      var last := |waves| - 1;
      var before :- AfterWaves(run, waves[..last]);
      var _ :- NewBatch(waves[last]);
      before.AddWave(|waves[last]|)
  }

  function TotalCalls(waves: seq<seq<CodePluginCall>>): nat {
    if waves == [] then 0 else TotalCalls(waves[..|waves| - 1]) + |waves[|waves| - 1]|
  }

  /** The identity the nested effect of call `c` of wave `w` carries. */
  function Identity(run: CodeRun, waves: seq<seq<CodePluginCall>>, w: nat, c: nat): string
    requires w < |waves| && c < |waves[w]|
  {
    CodeRun(run.runId, run.wave + w + 1, 0).CallId(waves[w][c].callId)
  }

  /** A run accepts at most 32 waves and 128 calls in all, and counts both exactly. */
  lemma {:induction false} WavesAreBounded(run: CodeRun, waves: seq<seq<CodePluginCall>>)
    requires run.wave == 0 && run.totalCalls == 0
    requires AfterWaves(run, waves).Ok?
    ensures |waves| <= MAX_WAVES && TotalCalls(waves) <= MAX_CALLS_PER_RUN
    ensures AfterWaves(run, waves).value == CodeRun(run.runId, |waves|, TotalCalls(waves))
    ensures forall w | 0 <= w < |waves| :: NewBatch(waves[w]).Ok?
  {
    if waves != [] {
      WavesAreBounded(run, waves[..|waves| - 1]);
    }
  }

  lemma CallIdParts(run: CodeRun, run': CodeRun, id: nat, id': nat)
    requires run.runId == run'.runId && run.CallId(id) == run'.CallId(id')
    ensures run.wave == run'.wave && id == id'
  {
    var n := |run.runId| + 1;
    var tail, tail' := Decimal(run.wave) + ":" + Decimal(id), Decimal(run'.wave) + ":" + Decimal(id');
    assert tail == run.CallId(id)[n..];
    assert tail' == run'.CallId(id')[n..];
    SplitAtColon(Decimal(run.wave), Decimal(id), Decimal(run'.wave), Decimal(id'));
    DecimalInjective(run.wave, run'.wave);
    DecimalInjective(id, id');
  }

  /** Over any sequence of accepted waves, no two nested calls share an identity. */
  lemma {:induction false} IdentitiesAreDistinct(
    run: CodeRun, waves: seq<seq<CodePluginCall>>, w: nat, c: nat, w': nat, c': nat)
    requires run.wave == 0 && run.totalCalls == 0
    requires AfterWaves(run, waves).Ok?
    requires w < |waves| && c < |waves[w]| && w' < |waves| && c' < |waves[w']|
    ensures Identity(run, waves, w, c) == Identity(run, waves, w', c') ==> w == w' && c == c'
  {
    WavesAreBounded(run, waves);
    if Identity(run, waves, w, c) == Identity(run, waves, w', c') {
      CallIdParts(CodeRun(run.runId, run.wave + w + 1, 0), CodeRun(run.runId, run.wave + w' + 1, 0),
                  waves[w][c].callId, waves[w'][c'].callId);
      DistinctInWave(waves[w], c, c');
    }
  }

  lemma DistinctInWave(calls: seq<CodePluginCall>, c: nat, c': nat)
    requires NewBatch(calls).Ok?
    requires c < |calls| && c' < |calls|
    ensures calls[c].callId == calls[c'].callId ==> c == c'
  {
  }
}

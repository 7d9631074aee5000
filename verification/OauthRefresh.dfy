/** Concurrent OAuth refreshes: any number of calls, in any number of processes,
    over one credential database and one refresh lock, with outside writers,
    failing providers and crashes at every point. */
module OauthRefresh {
  import opened Base
  import opened Credentials

  // Calls -------------------------------------------------------------------

  type CallId = nat

  /** Where one `refreshOauth` call is. From `Holding` to `Closing` it owns the lock. */
  datatype Progress =
    | Beginning
    | Polling(original: Credential)
    | Trying(original: Credential)
    | Holding(original: Credential)
    | Refreshing(snapshot: Credential)
    | Answered(snapshot: Credential, next: Credential)
    | Closing(result: Reading)
    | Ended(result: Reading)
    | Dead

  /** `begun` is the length of the store's history when the call was made; `first` is the
      credential it read first and `answer` what the provider answered it. */
  datatype Call = Call(
    provider: Provider, begun: nat, first: Option<Credential>, answer: Option<Credential>, progress: Progress)

  /** One write made by a refresh: what it read, what it found and what it left. */
  datatype RefreshWrite = RefreshWrite(provider: Provider, snapshot: Credential, found: Option<Credential>, next: Credential)

  /** `history` lists every state of the store, the current one last. */
  datatype World = World(
    rows: Rows, holder: Option<CallId>, calls: seq<Call>, history: seq<Rows>, writes: seq<RefreshWrite>)

  const EMPTY := World(map[], None, [], [map[]], [])

  predicate InRefresh(progress: Progress) {
    progress.Holding? || progress.Refreshing? || progress.Answered? || progress.Closing?
  }

  datatype Input =
    | CallRefresh(provider: Provider)
    | Advance(call: CallId)
    | ProviderAnswers(call: CallId, next: Credential)
    | ProviderFails(call: CallId)
    | LockFails(call: CallId)
    | CrashCall(call: CallId)
    | OutsideWrite(provider: Provider, credential: Credential)
    | OutsideDelete(provider: Provider)

  function SetProgress(w: World, call: CallId, progress: Progress): World
    requires call < |w.calls|
  {
    w.(calls := w.calls[call := w.calls[call].(progress := progress)])
  }

  function Row(rows: Rows, provider: Provider): Option<Credential> {
    if provider in rows then Some(rows[provider]) else None
  }

  function Record(w: World, rows: Rows): World {
    w.(rows := rows, history := w.history + [rows])
  }

  /** The first read, and each poll: anything but the original credential is returned. */
  function Poll(w: World, call: CallId, original: Credential): World
    requires call < |w.calls|
  {
    match Lookup(w.rows, w.calls[call].provider)
    case Present(Oauth(a, r, e, i)) =>
      if Oauth(a, r, e, i) == original then SetProgress(w, call, Trying(original))
      else SetProgress(w, call, Ended(Present(Oauth(a, r, e, i))))
    case other => SetProgress(w, call, Ended(other))
  }

  /** The read under the lock. */
  function CheckLocked(w: World, call: CallId, original: Credential): World
    requires call < |w.calls|
  {
    match Lookup(w.rows, w.calls[call].provider)
    case Present(Oauth(a, r, e, i)) =>
      if Oauth(a, r, e, i) == original then SetProgress(w, call, Refreshing(original))
      else SetProgress(w, call, Closing(Present(Oauth(a, r, e, i))))
    case other => SetProgress(w, call, Closing(other))
  }

  function StoreAnswer(w: World, call: CallId, snapshot: Credential, next: Credential): World
    requires call < |w.calls| && snapshot.Oauth?
  {
    var provider := w.calls[call].provider;
    var (rows, result, wrote) := Stored(w.rows, provider, snapshot, next);
    var w' := SetProgress(Record(w, rows), call, Closing(result));
    if wrote then w'.(writes := w.writes + [RefreshWrite(provider, snapshot, Row(w.rows, provider), next)]) else w'
  }

  /** What a call does between two awaits, or between two accesses to what it shares. */
  function AdvanceCall(w: World, call: CallId): Option<World>
    requires call < |w.calls|
  {
    match w.calls[call].progress
    case Beginning =>
      (match Lookup(w.rows, w.calls[call].provider)
       case Present(Oauth(a, r, e, i)) =>
         var read := Oauth(a, r, e, i);
         Some(w.(calls := w.calls[call := w.calls[call].(first := Some(read), progress := Polling(read))]))
       case other => Some(SetProgress(w, call, Ended(other))))
    case Polling(original) => Some(Poll(w, call, original))
    case Trying(original) =>
      if w.holder.Some? then Some(SetProgress(w, call, Polling(original)))
      else Some(SetProgress(w.(holder := Some(call)), call, Holding(original)))
    case Holding(original) => Some(CheckLocked(w, call, original))
    case Answered(snapshot, next) =>
      if !snapshot.Oauth? then None
      else if !next.Oauth? then Some(SetProgress(w, call, Closing(Throws)))
      else Some(StoreAnswer(w, call, snapshot, next))
    case Closing(result) => Some(SetProgress(w.(holder := None), call, Ended(result)))
    case _ => None
  }

  function Step(w: World, input: Input): Option<World> {
    match input
    case CallRefresh(provider) => Some(w.(calls := w.calls + [Call(provider, |w.history|, None, None, Beginning)]))
    case Advance(call) => if call >= |w.calls| then None else AdvanceCall(w, call)
    case ProviderAnswers(call, next) =>
      if call < |w.calls| && w.calls[call].progress.Refreshing? then
        var c := w.calls[call];
        Some(w.(calls := w.calls[call := c.(answer := Some(next), progress := Answered(c.progress.snapshot, next))]))
      else None
    case ProviderFails(call) =>
      if call < |w.calls| && w.calls[call].progress.Refreshing? then Some(SetProgress(w, call, Closing(Throws))) else None
    case LockFails(call) =>
      if call < |w.calls| && w.calls[call].progress.Trying? then Some(SetProgress(w, call, Ended(Throws))) else None
    case CrashCall(call) =>
      if call >= |w.calls| || w.calls[call].progress.Ended? then None
      else Some(SetProgress(w.(holder := if w.holder == Some(call) then None else w.holder), call, Dead))
    case OutsideWrite(provider, credential) => Some(Record(w, w.rows[provider := credential]))
    case OutsideDelete(provider) => Some(Record(w, w.rows - {provider}))
  }

  function Run(inputs: seq<Input>): Option<World> {
    if inputs == [] then Some(EMPTY)
    else
      match Run(inputs[..|inputs| - 1])
      case None => None
      case Some(w) => Step(w, inputs[|inputs| - 1])
  }

  // What every interleaving keeps -------------------------------------------

  /** The store held the value a call returns at some time since the call was made. */
  ghost predicate HeldSince(history: seq<Rows>, call: Call, value: Option<Credential>) {
    exists i :: 0 <= i < |history| && call.begun <= i + 1 && Row(history[i], call.provider) == value
  }

  function Value(result: Reading): Option<Credential> {
    if result.Present? then Some(result.credential) else None
  }

  ghost predicate Witnessed(w: World, call: Call) {
    && call.begun <= |w.history|
    && ((call.progress.Closing? || call.progress.Ended?) && !call.progress.result.Throws? ==>
          HeldSince(w.history, call, Value(call.progress.result)))
  }

  predicate Snapshots(progress: Progress) {
    match progress
    case Polling(original) => original.Oauth?
    case Trying(original) => original.Oauth?
    case Holding(original) => original.Oauth?
    case Refreshing(snapshot) => snapshot.Oauth?
    case Answered(snapshot, _) => snapshot.Oauth?
    case _ => true
  }

  ghost predicate CallInv(w: World, c: CallId)
    requires c < |w.calls|
  {
    && (InRefresh(w.calls[c].progress) <==> w.holder == Some(c))
    && Witnessed(w, w.calls[c])
    && Snapshots(w.calls[c].progress)
  }

  ghost predicate Inv(w: World) {
    && |w.history| >= 1 && w.history[|w.history| - 1] == w.rows
    && (w.holder.Some? ==> w.holder.value < |w.calls|)
    && (forall c | 0 <= c < |w.calls| :: CallInv(w, c))
    && (forall i | 0 <= i < |w.writes| :: w.writes[i].found == Some(w.writes[i].snapshot))
  }

  /** Later states of the store hide nothing a call has seen. */
  lemma WitnessStays(w: World, w': World, call: Call)
    requires Witnessed(w, call) && w.history <= w'.history
    ensures Witnessed(w', call)
  {
    if (call.progress.Closing? || call.progress.Ended?) && !call.progress.result.Throws? {
      var i :| 0 <= i < |w.history| && call.begun <= i + 1 && Row(w.history[i], call.provider) == Value(call.progress.result);
      assert Row(w'.history[i], call.provider) == Value(call.progress.result);
    }
  }

  lemma SeenNow(w: World, call: Call)
    requires |w.history| >= 1 && w.history[|w.history| - 1] == w.rows && call.begun <= |w.history|
    ensures HeldSince(w.history, call, Row(w.rows, call.provider))
  {
    assert Row(w.history[|w.history| - 1], call.provider) == Row(w.rows, call.provider);
  }

  /** One call moves; what it shares changes only as stated. */
  lemma MoveKeeps(w: World, w': World, call: CallId)
    requires Inv(w) && call < |w.calls| == |w'.calls|
    requires forall c | 0 <= c < |w.calls| && c != call :: w'.calls[c] == w.calls[c]
    requires CallInv(w', call)
    requires w.history <= w'.history && w'.history[|w'.history| - 1] == w'.rows
    requires w'.holder == w.holder || (w'.holder == Some(call) && w.holder.None?) || (w'.holder.None? && w.holder == Some(call))
    requires forall i | 0 <= i < |w'.writes| :: w'.writes[i].found == Some(w'.writes[i].snapshot)
    ensures Inv(w')
  {
    forall c | 0 <= c < |w'.calls| ensures CallInv(w', c) {
      if c != call {
        assert CallInv(w, c);
        WitnessStays(w, w', w.calls[c]);
      }
    }
  }

  predicate Stores(progress: Progress) {
    progress.Answered? && progress.next.Oauth?
  }

  lemma AdvanceIsLocal(w: World, call: CallId)
    requires call < |w.calls| && AdvanceCall(w, call).Some? && !Stores(w.calls[call].progress)
    ensures var w' := AdvanceCall(w, call).value;
      && w'.rows == w.rows && w'.history == w.history && w'.writes == w.writes && |w'.calls| == |w.calls|
      && (forall c | 0 <= c < |w.calls| && c != call :: w'.calls[c] == w.calls[c])
  {
  }

  lemma AdvanceKeepsCall(w: World, call: CallId)
    requires Inv(w) && call < |w.calls| && AdvanceCall(w, call).Some? && !Stores(w.calls[call].progress)
    ensures var w' := AdvanceCall(w, call).value;
      && call < |w'.calls| && CallInv(w', call)
      && (w'.holder == w.holder || (w'.holder == Some(call) && w.holder.None?) || (w'.holder.None? && w.holder == Some(call)))
  {
    assert CallInv(w, call);
    SeenNow(w, w.calls[call]);
  }

  lemma AdvanceKeeps(w: World, call: CallId)
    requires Inv(w) && call < |w.calls| && AdvanceCall(w, call).Some?
    ensures Inv(AdvanceCall(w, call).value)
  {
    if Stores(w.calls[call].progress) {
      StoreKeeps(w, call);
    } else {
      AdvanceIsLocal(w, call);
      AdvanceKeepsCall(w, call);
      MoveKeeps(w, AdvanceCall(w, call).value, call);
    }
  }

  lemma StoreKeeps(w: World, call: CallId)
    requires Inv(w) && call < |w.calls| && w.calls[call].progress.Answered?
    ensures var Answered(snapshot, next) := w.calls[call].progress; snapshot.Oauth? && Inv(StoreAnswer(w, call, snapshot, next))
  {
    assert CallInv(w, call);
    var Answered(snapshot, next) := w.calls[call].progress;
    var w' := StoreAnswer(w, call, snapshot, next);
    SeenNow(w', w'.calls[call]);
    MoveKeeps(w, w', call);
  }

  lemma RecordKeeps(w: World, rows: Rows)
    requires Inv(w)
    ensures Inv(Record(w, rows))
  {
    forall c | 0 <= c < |w.calls| ensures CallInv(Record(w, rows), c) {
      assert CallInv(w, c);
      WitnessStays(w, Record(w, rows), w.calls[c]);
    }
  }

  lemma StepKeepsInv(w: World, input: Input)
    requires Inv(w) && Step(w, input).Some?
    ensures Inv(Step(w, input).value)
  {
    var w' := Step(w, input).value;
    match input
    case CallRefresh(provider) =>
      forall c | 0 <= c < |w'.calls| ensures CallInv(w', c) {
        if c < |w.calls| {
          assert CallInv(w, c);
        }
      }
    case Advance(call) => AdvanceKeeps(w, call);
    case ProviderAnswers(call, next) =>
      assert CallInv(w, call);
      MoveKeeps(w, w', call);
    case ProviderFails(call) =>
      assert CallInv(w, call);
      MoveKeeps(w, w', call);
    case LockFails(call) =>
      assert CallInv(w, call);
      MoveKeeps(w, w', call);
    case CrashCall(call) =>
      assert CallInv(w, call);
      MoveKeeps(w, w', call);
    case OutsideWrite(provider, credential) => RecordKeeps(w, w.rows[provider := credential]);
    case OutsideDelete(provider) => RecordKeeps(w, w.rows - {provider});
  }

  lemma {:induction false} RunKeepsInv(inputs: seq<Input>)
    requires Run(inputs).Some?
    ensures Inv(Run(inputs).value)
  {
    if inputs != [] {
      RunKeepsInv(inputs[..|inputs| - 1]);
      StepKeepsInv(Run(inputs[..|inputs| - 1]).value, inputs[|inputs| - 1]);
    }
  }

  /** At most one call is inside a refresh, and the lock is held exactly then: a
      crashed or failed holder never leaves it behind. */
  lemma OneRefreshAtATime(inputs: seq<Input>)
    requires Run(inputs).Some?
    ensures var w := Run(inputs).value;
      && (forall a, b | 0 <= a < |w.calls| && 0 <= b < |w.calls| && InRefresh(w.calls[a].progress) && InRefresh(w.calls[b].progress) ::
            a == b)
      && (w.holder.Some? <==> exists c :: 0 <= c < |w.calls| && InRefresh(w.calls[c].progress))
  {
    RunKeepsInv(inputs);
    var w := Run(inputs).value;
    forall a, b | 0 <= a < |w.calls| && 0 <= b < |w.calls| && InRefresh(w.calls[a].progress) && InRefresh(w.calls[b].progress)
      ensures a == b
    {
      assert CallInv(w, a) && CallInv(w, b);
    }
    if w.holder.Some? {
      assert CallInv(w, w.holder.value);
    }
    if c :| 0 <= c < |w.calls| && InRefresh(w.calls[c].progress) {
      assert CallInv(w, c);
    }
  }

  /** A refresh writes only over the exact snapshot it read. */
  lemma WritesOnlyOverSnapshot(inputs: seq<Input>, i: nat)
    requires Run(inputs).Some? && i < |Run(inputs).value.writes|
    ensures Run(inputs).value.writes[i].found == Some(Run(inputs).value.writes[i].snapshot)
  {
    RunKeepsInv(inputs);
  }

  /** Every value a call returns was the stored one at some time during the call. */
  lemma ReturnsWhatWasStored(inputs: seq<Input>, c: CallId)
    requires Run(inputs).Some? && c < |Run(inputs).value.calls|
    requires var progress := Run(inputs).value.calls[c].progress; progress.Ended? && !progress.result.Throws?
    ensures var w := Run(inputs).value; HeldSince(w.history, w.calls[c], Value(w.calls[c].progress.result))
  {
    RunKeepsInv(inputs);
    assert CallInv(Run(inputs).value, c);
  }

  // Deletion and freshness --------------------------------------------------

  /** Only an outside write brings a credential into being: what was deleted while a
      refresh was pending stays deleted. */
  lemma OnlyOutsideWritesAdd(w: World, input: Input, provider: Provider)
    requires Step(w, input).Some? && provider !in w.rows
    requires !(input.OutsideWrite? && input.provider == provider)
    ensures provider !in Step(w, input).value.rows
  {
  }

  lemma {:induction false} DeletionSticks(inputs: seq<Input>, n: nat, provider: Provider)
    requires n <= |inputs| && Run(inputs).Some? && Run(inputs[..n]).Some?
    requires provider !in Run(inputs[..n]).value.rows
    requires forall i | n <= i < |inputs| :: !(inputs[i].OutsideWrite? && inputs[i].provider == provider)
    ensures provider !in Run(inputs).value.rows
    decreases |inputs|
  {
    if n == |inputs| {
      assert inputs[..n] == inputs;
    } else {
      var before := inputs[..|inputs| - 1];
      assert before[..n] == inputs[..n];
      DeletionSticks(before, n, provider);
      OnlyOutsideWritesAdd(Run(before).value, inputs[|inputs| - 1], provider);
    }
  }

  ghost predicate Held(history: seq<Rows>, provider: Provider, credential: Credential) {
    exists i :: 0 <= i < |history| && Row(history[i], provider) == Some(credential)
  }

  /** What providers answer, and what others write, the store never held before. */
  ghost predicate FreshInput(w: World, input: Input) {
    match input
    case ProviderAnswers(call, next) => call < |w.calls| ==> !Held(w.history, w.calls[call].provider, next)
    case OutsideWrite(provider, credential) => !Held(w.history, provider, credential)
    case _ => true
  }

  ghost predicate FreshRun(inputs: seq<Input>) {
    inputs == [] ||
    (var before := inputs[..|inputs| - 1];
     FreshRun(before) && (Run(before).Some? ==> FreshInput(Run(before).value, inputs[|inputs| - 1])))
  }

  ghost predicate Spent(w: World, write: RefreshWrite) {
    Held(w.history, write.provider, write.snapshot) && Row(w.rows, write.provider) != Some(write.snapshot)
  }

  ghost predicate Unspent(w: World, call: Call) {
    match call.progress
    case Refreshing(snapshot) => Held(w.history, call.provider, snapshot)
    case Answered(snapshot, next) =>
      && Held(w.history, call.provider, snapshot)
      && (Row(w.rows, call.provider) == Some(snapshot) ==> !Held(w.history, call.provider, next))
    case _ => true
  }

  ghost predicate FreshInv(w: World) {
    && (forall i | 0 <= i < |w.writes| :: Spent(w, w.writes[i]))
    && (forall c | 0 <= c < |w.calls| :: Unspent(w, w.calls[c]))
    && (forall i, j | 0 <= i < j < |w.writes| && w.writes[i].provider == w.writes[j].provider ::
          w.writes[i].snapshot != w.writes[j].snapshot)
  }

  /** The row of a provider becomes absent or a value it never had. */
  ghost predicate NewRow(w: World, rows: Rows, provider: Provider) {
    Row(rows, provider) == Row(w.rows, provider) || Row(rows, provider).None?
    || !Held(w.history, provider, Row(rows, provider).value)
  }

  lemma HeldLater(history: seq<Rows>, rows: Rows, provider: Provider, credential: Credential)
    ensures Held(history + [rows], provider, credential) <==>
      Held(history, provider, credential) || Row(rows, provider) == Some(credential)
  {
    var later := history + [rows];
    if Held(history, provider, credential) {
      var i :| 0 <= i < |history| && Row(history[i], provider) == Some(credential);
      assert Row(later[i], provider) == Some(credential);
    }
    if Row(rows, provider) == Some(credential) {
      assert Row(later[|history|], provider) == Some(credential);
    }
  }

  lemma SpentStays(w: World, rows: Rows, write: RefreshWrite)
    requires Spent(w, write) && NewRow(w, rows, write.provider)
    ensures Spent(Record(w, rows), write)
  {
    HeldLater(w.history, rows, write.provider, write.snapshot);
  }

  lemma UnspentStays(w: World, rows: Rows, call: Call)
    requires Inv(w) && Unspent(w, call) && NewRow(w, rows, call.provider)
    ensures Unspent(Record(w, rows), call)
  {
    if call.progress.Refreshing? || call.progress.Answered? {
      HeldLater(w.history, rows, call.provider, call.progress.snapshot);
    }
    if call.progress.Answered? {
      HeldLater(w.history, rows, call.provider, call.progress.next);
    }
  }

  lemma RecordKeepsFresh(w: World, rows: Rows)
    requires Inv(w) && FreshInv(w) && forall provider :: NewRow(w, rows, provider)
    ensures FreshInv(Record(w, rows))
  {
    forall i | 0 <= i < |w.writes| ensures Spent(Record(w, rows), w.writes[i]) {
      SpentStays(w, rows, w.writes[i]);
    }
    forall c | 0 <= c < |w.calls| ensures Unspent(Record(w, rows), w.calls[c]) {
      UnspentStays(w, rows, w.calls[c]);
    }
  }

  lemma RowNowHeld(w: World, provider: Provider)
    requires Inv(w) && provider in w.rows
    ensures Held(w.history, provider, w.rows[provider])
  {
    assert Row(w.history[|w.history| - 1], provider) == Some(w.rows[provider]);
  }

  lemma StoreKeepsFresh(w: World, call: CallId)
    requires Inv(w) && FreshInv(w) && call < |w.calls| && w.calls[call].progress.Answered?
    requires w.calls[call].progress.snapshot.Oauth?
    ensures var Answered(snapshot, next) := w.calls[call].progress; FreshInv(StoreAnswer(w, call, snapshot, next))
  {
    var Answered(snapshot, next) := w.calls[call].progress;
    var provider := w.calls[call].provider;
    var (rows, result, wrote) := Stored(w.rows, provider, snapshot, next);
    assert Unspent(w, w.calls[call]);
    forall other ensures NewRow(w, rows, other) {
    }
    RecordKeepsFresh(w, rows);
    var w' := StoreAnswer(w, call, snapshot, next);
    if wrote {
      forall i | 0 <= i < |w.writes| && w.writes[i].provider == provider ensures w.writes[i].snapshot != snapshot {
        assert Spent(w, w.writes[i]);
      }
      HeldLater(w.history, rows, provider, snapshot);
      RowNowHeld(w, provider);
    }
    forall i | 0 <= i < |w'.writes| ensures Spent(w', w'.writes[i]) {
      if i < |w.writes| {
        assert Spent(Record(w, rows), w.writes[i]);
      }
    }
    forall c | 0 <= c < |w'.calls| ensures Unspent(w', w'.calls[c]) {
      if c != call {
        assert Unspent(Record(w, rows), w.calls[c]);
      }
    }
  }

  /** Steps of one call that touch neither the store nor the log. */
  lemma CallKeepsFresh(w: World, w': World, call: CallId)
    requires FreshInv(w) && call < |w.calls| == |w'.calls| && Unspent(w', w'.calls[call])
    requires w'.rows == w.rows && w'.history == w.history && w'.writes == w.writes
    requires forall c | 0 <= c < |w.calls| && c != call :: w'.calls[c] == w.calls[c]
    ensures FreshInv(w')
  {
    forall i | 0 <= i < |w'.writes| ensures Spent(w', w'.writes[i]) {
      assert Spent(w, w.writes[i]);
    }
    forall c | 0 <= c < |w'.calls| ensures Unspent(w', w'.calls[c]) {
      if c != call {
        assert Unspent(w, w.calls[c]);
      }
    }
  }

  lemma AdvanceKeepsFresh(w: World, call: CallId)
    requires Inv(w) && FreshInv(w) && call < |w.calls| && AdvanceCall(w, call).Some?
    ensures FreshInv(AdvanceCall(w, call).value)
  {
    var progress, provider := w.calls[call].progress, w.calls[call].provider;
    if progress.Answered? && progress.next.Oauth? {
      StoreKeepsFresh(w, call);
    } else {
      if provider in w.rows {
        RowNowHeld(w, provider);
      }
      CallKeepsFresh(w, AdvanceCall(w, call).value, call);
    }
  }

  lemma StepKeepsFresh(w: World, input: Input)
    requires Inv(w) && FreshInv(w) && Step(w, input).Some? && FreshInput(w, input)
    ensures FreshInv(Step(w, input).value)
  {
    var w' := Step(w, input).value;
    match input
    case CallRefresh(provider) =>
      forall i | 0 <= i < |w'.writes| ensures Spent(w', w'.writes[i]) {
        assert Spent(w, w.writes[i]);
      }
      forall c | 0 <= c < |w'.calls| ensures Unspent(w', w'.calls[c]) {
        assert c < |w.calls| ==> Unspent(w, w.calls[c]);
      }
    case Advance(call) => AdvanceKeepsFresh(w, call);
    case ProviderAnswers(call, next) =>
      assert Unspent(w, w.calls[call]);
      CallKeepsFresh(w, w', call);
    case ProviderFails(call) => CallKeepsFresh(w, w', call);
    case LockFails(call) => CallKeepsFresh(w, w', call);
    case CrashCall(call) => CallKeepsFresh(w, w', call);
    case OutsideWrite(provider, credential) => RecordKeepsFresh(w, w.rows[provider := credential]);
    case OutsideDelete(provider) => RecordKeepsFresh(w, w.rows - {provider});
  }

  lemma {:induction false} FreshRunKeeps(inputs: seq<Input>)
    requires Run(inputs).Some? && FreshRun(inputs)
    ensures FreshInv(Run(inputs).value)
  {
    if inputs != [] {
      var before := inputs[..|inputs| - 1];
      FreshRunKeeps(before);
      RunKeepsInv(before);
      StepKeepsFresh(Run(before).value, inputs[|inputs| - 1]);
    }
  }

  /** With fresh answers, and no outside write that restores an earlier value, no
      credential is successfully refreshed twice, by whatever calls, crashes,
      failures and deletions. */
  lemma NeverRefreshedTwice(inputs: seq<Input>, i: nat, j: nat)
    requires Run(inputs).Some? && FreshRun(inputs)
    requires i < j < |Run(inputs).value.writes|
    requires Run(inputs).value.writes[i].provider == Run(inputs).value.writes[j].provider
    ensures Run(inputs).value.writes[i].snapshot != Run(inputs).value.writes[j].snapshot
  {
    FreshRunKeeps(inputs);
  }

  // What a call ends with ---------------------------------------------------

  /** A call remembers what it read first until it has an answer, and returns the same
      credential only as the provider's own answer. */
  predicate Remembers(call: Call) {
    match call.progress
    case Beginning => call.first.None? && call.answer.None?
    case Polling(original) => call.first == Some(original) && call.answer.None?
    case Trying(original) => call.first == Some(original) && call.answer.None?
    case Holding(original) => call.first == Some(original) && call.answer.None?
    case Refreshing(snapshot) => call.first == Some(snapshot) && call.answer.None?
    case Answered(snapshot, next) => call.first == Some(snapshot) && call.answer == Some(next)
    case Closing(result) => EndsTruly(call, result)
    case Ended(result) => EndsTruly(call, result)
    case Dead => true
  }

  predicate EndsTruly(call: Call, result: Reading) {
    result.Present? && result.credential.Oauth? && call.first == Some(result.credential) ==> call.answer == call.first
  }

  ghost predicate AllRemember(w: World) {
    forall c | 0 <= c < |w.calls| :: Remembers(w.calls[c])
  }

  lemma AdvanceRemembers(w: World, call: CallId)
    requires AllRemember(w) && call < |w.calls| && AdvanceCall(w, call).Some?
    ensures AllRemember(AdvanceCall(w, call).value)
  {
    assert Remembers(w.calls[call]);
  }

  lemma StepRemembers(w: World, input: Input)
    requires AllRemember(w) && Step(w, input).Some?
    ensures AllRemember(Step(w, input).value)
  {
    if input.Advance? {
      AdvanceRemembers(w, input.call);
    }
  }

  lemma {:induction false} RunRemembers(inputs: seq<Input>)
    requires Run(inputs).Some?
    ensures AllRemember(Run(inputs).value)
  {
    if inputs != [] {
      RunRemembers(inputs[..|inputs| - 1]);
      StepRemembers(Run(inputs[..|inputs| - 1]).value, inputs[|inputs| - 1]);
    }
  }

  /** In every interleaving, a call that ends with the OAuth credential it was to replace
      got that very credential from the provider. */
  lemma ReturnsOldOnlyAsAnswer(inputs: seq<Input>, c: CallId)
    requires Run(inputs).Some? && c < |Run(inputs).value.calls|
    requires var call := Run(inputs).value.calls[c];
      && call.progress.Ended? && call.progress.result.Present? && call.progress.result.credential.Oauth?
      && call.first == Some(call.progress.result.credential)
    ensures Run(inputs).value.calls[c].answer == Run(inputs).value.calls[c].first
  {
    RunRemembers(inputs);
  }

  // A refresh happens -------------------------------------------------------

  lemma RunSnoc(inputs: seq<Input>, input: Input)
    requires Run(inputs).Some?
    ensures Run(inputs + [input]) == Step(Run(inputs).value, input)
  {
    assert (inputs + [input])[..|inputs|] == inputs;
  }

  /** `w'` differs from `w` only in the call's progress, its answer and who holds the lock. */
  predicate OnlyCallMoved(w: World, w': World, call: CallId) {
    && call < |w.calls| == |w'.calls| && w'.rows == w.rows && w'.writes == w.writes && w'.history == w.history
    && w'.calls[call].provider == w.calls[call].provider && w'.calls[call].begun == w.calls[call].begun
    && (forall c | 0 <= c < |w.calls| && c != call :: w'.calls[c] == w.calls[c])
  }

  /** With the lock free and the row still what the call read, the provider is asked. */
  lemma ReachesProvider(w: World, call: CallId, original: Credential)
    requires call < |w.calls| && w.calls[call].progress == Trying(original) && original.Oauth? && w.holder.None?
    requires Lookup(w.rows, w.calls[call].provider) == Present(original)
    ensures Step(w, Advance(call)).Some? && Step(Step(w, Advance(call)).value, Advance(call)).Some?
    ensures var w' := Step(Step(w, Advance(call)).value, Advance(call)).value;
      OnlyCallMoved(w, w', call) && w'.calls[call].progress == Refreshing(original) && w'.holder == Some(call)
  {
  }

  /** Its OAuth answer is stored over the unchanged row, returned, and logged once. */
  lemma AnswerIsStored(w: World, call: CallId, original: Credential, next: Credential)
    requires call < |w.calls| && w.calls[call].progress == Refreshing(original) && original.Oauth? && next.Oauth?
    requires Lookup(w.rows, w.calls[call].provider) == Present(original)
    ensures var w1 := Step(w, ProviderAnswers(call, next));
      && w1.Some?
      && var w2 := Step(w1.value, Advance(call));
      && w2.Some?
      && var w3 := Step(w2.value, Advance(call));
      && w3.Some? && Refreshed(w, w3.value, call, original, next)
  {
  }

  /** The row became the answer, one write is logged, the call returns it and the lock is free. */
  predicate Refreshed(w: World, w': World, call: CallId, original: Credential, next: Credential) {
    && call < |w.calls| == |w'.calls|
    && var provider := w.calls[call].provider;
    && w'.rows == w.rows[provider := next] && w'.holder.None?
    && w'.writes == w.writes + [RefreshWrite(provider, original, Some(original), next)]
    && w'.calls[call].progress == Ended(Present(next)) && w'.calls[call].answer == Some(next)
    && (forall c | 0 <= c < |w.calls| && c != call :: w'.calls[c] == w.calls[c])
  }

  function RefreshInputs(call: CallId, next: Credential): seq<Input> {
    [Advance(call), Advance(call), ProviderAnswers(call, next), Advance(call), Advance(call)]
  }

  /** From every reachable world: a call that tries for the free lock, while the row is
      still the credential it read, refreshes it. */
  lemma RefreshHappens(inputs: seq<Input>, call: CallId, next: Credential)
    requires Run(inputs).Some? && next.Oauth?
    requires var w := Run(inputs).value;
      && call < |w.calls| && w.calls[call].progress.Trying? && w.holder.None?
      && Lookup(w.rows, w.calls[call].provider) == Present(w.calls[call].progress.original)
    ensures var w := Run(inputs).value;
      var after := Run(inputs + RefreshInputs(call, next));
      after.Some? && Refreshed(w, after.value, call, w.calls[call].progress.original, next)
  {
    RunKeepsInv(inputs);
    var w := Run(inputs).value;
    assert CallInv(w, call);
    var original, steps := w.calls[call].progress.original, RefreshInputs(call, next);
    ReachesProvider(w, call, original);
    var i1 := inputs + [steps[0]];
    var i2 := i1 + [steps[1]];
    var i3 := i2 + [steps[2]];
    var i4 := i3 + [steps[3]];
    assert inputs + steps == i4 + [steps[4]];
    RunSnoc(inputs, steps[0]);
    RunSnoc(i1, steps[1]);
    AnswerIsStored(Run(i2).value, call, original, next);
    RunSnoc(i2, steps[2]);
    RunSnoc(i3, steps[3]);
    RunSnoc(i4, steps[4]);
  }

  /** And a new call comes to try for the lock, with what the row holds. */
  lemma NewCallTries(inputs: seq<Input>, provider: Provider)
    requires Run(inputs).Some?
    requires var row := Lookup(Run(inputs).value.rows, provider); row.Present? && row.credential.Oauth?
    ensures var w, call := Run(inputs).value, |Run(inputs).value.calls|;
      var after := Run(inputs + [CallRefresh(provider)] + [Advance(call)] + [Advance(call)]);
      && after.Some? && after.value.rows == w.rows && after.value.holder == w.holder && after.value.writes == w.writes
      && |after.value.calls| == call + 1 && after.value.calls[call].provider == provider
      && after.value.calls[call].progress == Trying(Lookup(w.rows, provider).credential)
  {
    var call := |Run(inputs).value.calls|;
    RunSnoc(inputs, CallRefresh(provider));
    RunSnoc(inputs + [CallRefresh(provider)], Advance(call));
    RunSnoc(inputs + [CallRefresh(provider)] + [Advance(call)], Advance(call));
  }

  /** A row that is not what the call read first ends the call with that row: at a poll,
      and under the lock, which is then free again. Nothing is written. */
  lemma ChangedRowEndsCall(w: World, call: CallId)
    requires call < |w.calls|
    requires var progress := w.calls[call].progress;
      && (progress.Polling? || progress.Holding?) && progress.original.Oauth?
      && Lookup(w.rows, w.calls[call].provider) != Present(progress.original)
      && (w.holder == Some(call) <==> progress.Holding?)
    ensures Step(w, Advance(call)).Some?
    ensures var w1 := Step(w, Advance(call)).value;
      var w2 := if w.calls[call].progress.Polling? then Some(w1) else Step(w1, Advance(call));
      && w2.Some? && OnlyCallMoved(w, w2.value, call) && w2.value.holder != Some(call)
      && w2.value.calls[call].progress == Ended(Lookup(w.rows, w.calls[call].provider))
  {
  }
}

/** The AI gateway: app/ai/gateway.py, app/ai/budget.py, app/ai/cache.py. The lookup of providers, the schema
    validation and the credential scan are functions of their arguments, gathered in a `World`. What the
    provider answers belongs to the call, so it may differ from call to call. */
module AiGateway {
  import opened Base

  datatype Scope = Job | Candidate

  datatype Request = Request(
    operation: string,
    tenant: string,
    scope: Scope,
    prompt: string,
    input: string,
    promptVersion: string,
    schema: Option<string>,
    schemaVersion: string,
    provider: Option<string>,
    model: Option<string>,
    timeout: Option<int>,
    maxTokens: Option<int>,
    cache: bool)

  datatype Provider = Provider(name: string, model: Option<string>, configured: bool, local: bool)

  datatype Raw = Text(text: string) | Parsed(value: string)

  datatype Completion = Completed(text: string, model: Option<string>) | TimedOut | Broke

  datatype Status =
    | Ok | Disabled | Unavailable | Unsupported | BudgetExhausted | Timeout | Error | Malformed | Refused

  datatype Response = Response(
    status: Status,
    output: Option<string>,
    provider: string,
    model: Option<string>,
    cacheHit: bool)

  /** What lies outside the gateway. */
  datatype World = World(
    normalize: string -> string,
    providerFor: (string, Option<string>) -> Option<Provider>,
    known: string -> bool,
    hasCredentials: string -> bool,
    validate: (Raw, Option<string>) -> Option<string>)

  // -------------------------------------------------------------- configuration

  datatype GlobalConfig = GlobalConfig(
    enabled: bool,
    provider: string,
    model: Option<string>,
    timeout: int,
    maxCalls: int,
    maxTokens: int,
    cacheEnabled: bool,
    candidateProviders: seq<string>)

  datatype TenantSettings = TenantSettings(
    enabled: bool,
    provider: Option<string>,
    model: Option<string>,
    timeout: Option<int>,
    maxCalls: Option<int>,
    maxTokens: Option<int>,
    cacheEnabled: Option<bool>)

  datatype Effective = Effective(
    enabled: bool,
    provider: string,
    model: Option<string>,
    timeout: int,
    maxCalls: int,
    maxTokens: int,
    cacheEnabled: bool,
    candidateProviders: seq<string>,
    globalEnabled: bool,
    tenantEnabled: bool)

  /** A job-side caller passes no settings: only the global switch applies to it. */
  const SHARED := TenantSettings(true, None, None, None, None, None, None)

  function Or(a: Option<string>, b: Option<string>): Option<string> {
    if a.Some? && a.value != "" then a else b
  }

  function Narrowed(limit: int, wish: Option<int>): int {
    if wish.None? || limit <= wish.value then limit else wish.value
  }

  /** `effective`: the global configuration, narrowed by the tenant's settings. */
  function EffectiveFor(w: World, g: GlobalConfig, t: TenantSettings): Effective {
    var asked := Or(t.provider, Some(if g.provider == "" then "stub" else g.provider)).value;
    var name := w.normalize(asked);
    var own := t.provider.Some? && t.provider.value != "";
    var chosen := if own && name != g.provider && name !in {"ollama", "stub"} then g.provider else name;
    var provider := w.providerFor(chosen, Or(t.model, g.model));
    var configured := provider.Some? && provider.value.configured;
    Effective(
      g.enabled && t.enabled && configured,
      chosen,
      Or(if provider.Some? then provider.value.model else None, Or(t.model, g.model)),
      Narrowed(g.timeout, t.timeout),
      Narrowed(g.maxCalls, t.maxCalls),
      Narrowed(g.maxTokens, t.maxTokens),
      g.cacheEnabled && (t.cacheEnabled.None? || t.cacheEnabled.value),
      g.candidateProviders, g.enabled, t.enabled)
  }

  /** At most the limit and at most the wish, if there is one, and no smaller than it need be. */
  predicate AtMostBoth(x: int, wish: Option<int>, limit: int) {
    x <= limit && (wish.Some? ==> x <= wish.value) && (x == limit || wish == Some(x))
  }

  /** A tenant can narrow, never widen: every limit is the smaller of the tenant's and the global one, nothing is
      switched on that is globally off, and the provider is the global one or a local one. */
  lemma TenantOnlyNarrows(w: World, g: GlobalConfig, t: TenantSettings)
    ensures var e := EffectiveFor(w, g, t);
      && (e.enabled ==> g.enabled && t.enabled)
      && (e.cacheEnabled <==> g.cacheEnabled && t.cacheEnabled != Some(false))
      && AtMostBoth(e.timeout, t.timeout, g.timeout)
      && AtMostBoth(e.maxCalls, t.maxCalls, g.maxCalls)
      && AtMostBoth(e.maxTokens, t.maxTokens, g.maxTokens)
      && e.candidateProviders == g.candidateProviders
      && (|| e.provider in {g.provider, "ollama", "stub"}
          || e.provider == w.normalize(if g.provider == "" then "stub" else g.provider))
  {
  }

  // ----------------------------------------------------------- budget and sink

  datatype Budget = Budget(maxCalls: Option<int>, calls: nat, refused: nat, byOperation: map<string, nat>)

  function CountOf<K>(m: map<K, nat>, k: K): nat {
    if k in m then m[k] else 0
  }

  function Counted<K>(m: map<K, nat>, k: K): map<K, nat> {
    m[k := CountOf(m, k) + 1]
  }

  predicate CanCall(b: Budget) {
    b.maxCalls.None? || b.calls < b.maxCalls.value
  }

  function Take(b: Budget, operation: string): (Budget, bool) {
    if CanCall(b) then (b.(calls := b.calls + 1, byOperation := Counted(b.byOperation, operation)), true)
    else (b.(refused := b.refused + 1), false)
  }

  datatype Sink = Sink(
    counts: map<Status, nat>,
    byOperation: map<string, nat>,
    calls: nat,
    cacheHits: nat,
    recent: seq<(Request, Response)>)

  const KEEP: nat := 500

  function Record(s: Sink, req: Request, resp: Response): Sink {
    var recent := [(req, resp)] + s.recent;
    Sink(
      Counted(s.counts, resp.status),
      Counted(s.byOperation, req.operation),
      s.calls + (if resp.status.Ok? && !resp.cacheHit then 1 else 0),
      s.cacheHits + (if resp.cacheHit then 1 else 0),
      if |recent| > KEEP then recent[..KEEP] else recent)
  }

  // --------------------------------------------------------------------- cache

  /** What the digest is taken over. The digest is read as collision-free. */
  datatype Key = Key(
    operation: string,
    promptVersion: string,
    schemaVersion: string,
    provider: string,
    model: string,
    scope: Scope,
    tenant: string,
    input: string)

  function CacheKey(req: Request, p: Provider): Key {
    Key(req.operation, req.promptVersion, req.schemaVersion, p.name,
        if p.model.Some? then p.model.value else "",
        req.scope,
        if req.scope.Candidate? then req.tenant else "*",
        req.input)
  }

  datatype Entry = Entry(output: string, model: Option<string>)

  // ----------------------------------------------------------------------- run

  /** One call of `run`: the request, the settings and the budget passed with it (none for a shared caller
      or an unbudgeted call), and what the provider says if it is reached this time. */
  datatype Call = Call(req: Request, tenant: Option<TenantSettings>, budget: Option<nat>, done: Completion)

  /** One process: its cache, its budgets, its sink; `served` counts the calls that reached a provider. */
  datatype State = State(cache: map<Key, Entry>, budgets: map<nat, Budget>, sink: Sink, served: nat)

  function ConfigOf(w: World, g: GlobalConfig, c: Call): Effective {
    EffectiveFor(w, g, if c.tenant.Some? then c.tenant.value else SHARED)
  }

  datatype Ruling = Stop(resp: Response) | Go(provider: Provider)

  function Stopped(status: Status, provider: string, model: Option<string>): Ruling {
    Stop(Response(status, None, provider, model, false))
  }

  /** The rules that precede cache, budget and provider. */
  function Rules(w: World, cfg: Effective, req: Request): Ruling {
    if !cfg.enabled then
      if !(cfg.globalEnabled && cfg.tenantEnabled) then Stopped(Disabled, cfg.provider, cfg.model)
      else if !w.known(cfg.provider) && w.providerFor(cfg.provider, cfg.model).None? then
        Stopped(Unsupported, cfg.provider, cfg.model)
      else Stopped(Unavailable, cfg.provider, cfg.model)
    else
      var name := w.normalize(Or(req.provider, Some(cfg.provider)).value);
      var found := w.providerFor(name, Or(req.model, cfg.model));
      if found.None? then Stopped(Unsupported, name, None)
      else
        var p := found.value;
        if !p.configured then Stopped(Unavailable, p.name, p.model)
        else if req.scope.Candidate? && !p.local && p.name !in cfg.candidateProviders then
          Stopped(Refused, p.name, p.model)
        else if w.hasCredentials(req.prompt) then Stopped(Refused, p.name, p.model)
        else Go(p)
  }

  function Ruled(w: World, g: GlobalConfig, c: Call): Ruling {
    Rules(w, ConfigOf(w, g, c), c.req)
  }

  function Limit(wish: Option<int>, limit: int): int {
    if wish.Some? && wish.value != 0 then Min(wish.value, limit) else limit
  }

  /** What validation makes of the provider's answer. */
  function Judge(w: World, req: Request, p: Provider, done: Completion): Response {
    match done
    case TimedOut => Response(Timeout, None, p.name, p.model, false)
    case Broke => Response(Error, None, p.name, p.model, false)
    case Completed(text, model) =>
      var parsed := w.validate(Text(text), req.schema);
      Response(if parsed.Some? then Ok else Malformed, parsed, p.name, Or(model, p.model), false)
  }

  function UsesCache(cfg: Effective, req: Request): bool {
    cfg.cacheEnabled && req.cache
  }

  /** What a cached entry is worth for this request. */
  function Recalled(w: World, cfg: Effective, req: Request, p: Provider, cache: map<Key, Entry>): Option<Response> {
    var key := CacheKey(req, p);
    if !UsesCache(cfg, req) || key !in cache then None
    else
      var parsed := w.validate(Parsed(cache[key].output), req.schema);
      if parsed.None? then None
      else Some(Response(Ok, parsed, p.name, Or(cache[key].model, p.model), true))
  }

  datatype Step = Step(state: State, resp: Response)

  function Fetch(w: World, cfg: Effective, c: Call, p: Provider, st: State): Step {
    var resp := Judge(w, c.req, p, c.done);
    var st1 := st.(served := st.served + 1);
    if resp.status.Ok? && UsesCache(cfg, c.req)
    then Step(st1.(cache := st1.cache[CacheKey(c.req, p) := Entry(resp.output.value, resp.model)]), resp)
    else Step(st1, resp)
  }

  predicate OnBudget(c: Call, st: State) {
    c.budget.Some? && c.budget.value in st.budgets
  }

  /** Cache, budget, provider. */
  function Serve(w: World, cfg: Effective, c: Call, p: Provider, st: State): Step {
    var recalled := Recalled(w, cfg, c.req, p, st.cache);
    if recalled.Some? then Step(st, recalled.value)
    else if !OnBudget(c, st) then Fetch(w, cfg, c, p, st)
    else
      var (b, granted) := Take(st.budgets[c.budget.value], c.req.operation);
      var st1 := st.(budgets := st.budgets[c.budget.value := b]);
      if granted then Fetch(w, cfg, c, p, st1)
      else Step(st1, Response(BudgetExhausted, None, p.name, p.model, false))
  }

  function Decide(w: World, g: GlobalConfig, c: Call, st: State): Step {
    match Ruled(w, g, c)
    case Stop(resp) => Step(st, resp)
    case Go(p) => Serve(w, ConfigOf(w, g, c), c, p, st)
  }

  /** `run`: a decision and its accounting record. */
  function RunOp(w: World, g: GlobalConfig, c: Call, st: State): Step {
    var step := Decide(w, g, c, st);
    step.(state := step.state.(sink := Record(step.state.sink, c.req, step.resp)))
  }

  /** The state after the first `n` calls of a sequence. */
  function After(w: World, g: GlobalConfig, calls: seq<Call>, st: State, n: nat): State
    requires n <= |calls|
  {
    Iterated(Stepping(w, g), calls, st, n)
  }

  function Stepping(w: World, g: GlobalConfig): (Call, State) -> State {
    (c: Call, s: State) => RunOp(w, g, c, s).state
  }

  function Iterated(step: (Call, State) -> State, calls: seq<Call>, st: State, n: nat): State
    requires n <= |calls|
  {
    if n == 0 then st else step(calls[n - 1], Iterated(step, calls, st, n - 1))
  }

  lemma AfterOneMore(w: World, g: GlobalConfig, calls: seq<Call>, st: State, n: nat)
    requires n < |calls|
    ensures After(w, g, calls, st, n + 1) == RunOp(w, g, calls[n], After(w, g, calls, st, n)).state
  {
  }

  /** What holds at first and is kept by every call always holds. */
  lemma {:induction false} Always(step: (Call, State) -> State, calls: seq<Call>, st: State, n: nat,
                                  inv: (nat, State) -> bool)
    requires n <= |calls| && inv(0, st)
    requires forall i: nat :: i < |calls| && inv(i, Iterated(step, calls, st, i)) ==>
      inv(i + 1, Iterated(step, calls, st, i + 1))
    ensures inv(n, Iterated(step, calls, st, n))
  {
    if 0 < n {
      Always(step, calls, st, n - 1, inv);
    }
  }

  /** What two runs begin with in common, and every call keeps in common, they always have in common. */
  lemma {:induction false} InCommon(on: (Call, State) -> State, off: (Call, State) -> State, calls: seq<Call>,
                                    st: State, n: nat, both: (State, State) -> bool)
    requires n <= |calls| && both(st, st)
    requires forall i: nat, x, y :: i < |calls| && both(x, y) ==> both(on(calls[i], x), off(calls[i], y))
    ensures both(Iterated(on, calls, st, n), Iterated(off, calls, st, n))
  {
    if 0 < n {
      InCommon(on, off, calls, st, n - 1, both);
    }
  }

  /** What call `i` of the sequence is answered. */
  function AnswerTo(w: World, g: GlobalConfig, calls: seq<Call>, st: State, i: nat): Response
    requires i < |calls|
  {
    RunOp(w, g, calls[i], After(w, g, calls, st, i)).resp
  }

  /** Whether call `i` of the sequence reached a provider. */
  predicate Reached(w: World, g: GlobalConfig, calls: seq<Call>, st: State, i: nat)
    requires i < |calls|
  {
    After(w, g, calls, st, i + 1).served > After(w, g, calls, st, i).served
  }

  // ------------------------------------------------------- who sees which prompt

  /** The provider may see the request: it is configured, allowed for this data, and the prompt is clean. */
  predicate MaySee(w: World, cfg: Effective, req: Request, p: Provider) {
    && cfg.enabled && p.configured && !w.hasCredentials(req.prompt)
    && (req.scope.Candidate? ==> p.local || p.name in cfg.candidateProviders)
    && w.providerFor(w.normalize(Or(req.provider, Some(cfg.provider)).value), Or(req.model, cfg.model)) == Some(p)
  }

  /** Whatever tenants call in whatever order: call `i` is let through exactly when the provider it names
      may see it under the settings of its own tenant, and reaches that provider only then; candidate data
      never reaches a remote provider that is not on the global list, whatever the tenant's settings. */
  lemma ProvidersSeeOnlyWhatTheyMay(w: World, g: GlobalConfig, calls: seq<Call>, st: State, i: nat)
    requires i < |calls|
    ensures Ruled(w, g, calls[i]).Go? <==> exists p :: MaySee(w, ConfigOf(w, g, calls[i]), calls[i].req, p)
    ensures Reached(w, g, calls, st, i) ==> Ruled(w, g, calls[i]).Go?
    ensures Reached(w, g, calls, st, i) ==>
      var p := Ruled(w, g, calls[i]).provider;
      && MaySee(w, ConfigOf(w, g, calls[i]), calls[i].req, p)
      && g.enabled && (calls[i].req.scope.Candidate? ==> p.local || p.name in g.candidateProviders)
    ensures After(w, g, calls, st, i + 1).served <= After(w, g, calls, st, i).served + 1
  {
    RulesMeaning(w, ConfigOf(w, g, calls[i]), calls[i].req);
    RunServes(w, g, calls[i], After(w, g, calls, st, i));
  }

  lemma RulesMeaning(w: World, cfg: Effective, req: Request)
    ensures Rules(w, cfg, req).Go? <==> exists p :: MaySee(w, cfg, req, p)
    ensures Rules(w, cfg, req).Go? ==> MaySee(w, cfg, req, Rules(w, cfg, req).provider)
  {
    if Rules(w, cfg, req).Go? {
      assert MaySee(w, cfg, req, Rules(w, cfg, req).provider);
    }
  }

  lemma RunServes(w: World, g: GlobalConfig, c: Call, st: State)
    ensures var served := RunOp(w, g, c, st).state.served;
      st.served <= served <= st.served + 1 && (served > st.served ==> Ruled(w, g, c).Go?)
  {
  }

  // --------------------------------------------------------------- accounting

  function Total(counts: map<Status, nat>): nat {
    CountOf(counts, Ok) + CountOf(counts, Disabled) + CountOf(counts, Unavailable) + CountOf(counts, Unsupported)
    + CountOf(counts, BudgetExhausted) + CountOf(counts, Timeout) + CountOf(counts, Error)
    + CountOf(counts, Malformed) + CountOf(counts, Refused)
  }

  /** The calls of the sequence that named budget `k` and reached a provider. */
  function Spent(w: World, g: GlobalConfig, calls: seq<Call>, st: State, n: nat, k: nat): nat
    requires n <= |calls|
  {
    if n == 0 then 0
    else
      Spent(w, g, calls, st, n - 1, k)
      + if calls[n - 1].budget == Some(k) && Reached(w, g, calls, st, n - 1) then 1 else 0
  }

  /** The calls of the sequence that named budget `k` and found it exhausted. */
  function TurnedAway(w: World, g: GlobalConfig, calls: seq<Call>, st: State, n: nat, k: nat): nat
    requires n <= |calls|
  {
    if n == 0 then 0
    else
      TurnedAway(w, g, calls, st, n - 1, k)
      + if calls[n - 1].budget == Some(k) && AnswerTo(w, g, calls, st, n - 1).status.BudgetExhausted? then 1 else 0
  }

  /** Calls that reached a provider and came back without a usable answer. */
  function Failures(counts: map<Status, nat>): nat {
    CountOf(counts, Timeout) + CountOf(counts, Error) + CountOf(counts, Malformed)
  }

  /** The books of `n` calls between two states: one record each, an OK is a call or a hit, and the sink's
      `calls` is the provider calls less those that failed. */
  ghost predicate BooksBalance(st: State, end: State, n: nat) {
    && Total(end.sink.counts) == Total(st.sink.counts) + n
    && CountOf(end.sink.counts, Ok) - CountOf(st.sink.counts, Ok)
       == end.sink.calls - st.sink.calls + end.sink.cacheHits - st.sink.cacheHits
    && end.served - st.served
       == end.sink.calls - st.sink.calls + Failures(end.sink.counts) - Failures(st.sink.counts)
  }

  predicate WithinLimit(b: Budget) {
    b.maxCalls.Some? ==> b.calls <= b.maxCalls.value
  }

  /** One budget between two states: what it was charged and what it turned away. */
  ghost predicate Charged(st: State, end: State, k: nat, spent: nat, refused: nat) {
    && (k in st.budgets <==> k in end.budgets)
    && (k in st.budgets ==>
          var b, b' := st.budgets[k], end.budgets[k];
          && b'.maxCalls == b.maxCalls && b'.calls == b.calls + spent && b'.refused == b.refused + refused
          && (WithinLimit(b) ==> WithinLimit(b')))
  }

  /** The three ways a call can go: no provider, a refusal by its budget, a provider. */
  ghost predicate Outcomes(c: Call, st: State, step: Step) {
    && step.state.sink == st.sink
    && (|| (&& step.state.served == st.served && step.state.budgets == st.budgets
            && (if step.resp.cacheHit then step.resp.status.Ok?
                else step.resp.status in {Disabled, Unavailable, Unsupported, Refused}))
        || (&& step.state.served == st.served && OnBudget(c, st) && !CanCall(st.budgets[c.budget.value])
            && step.state.budgets == Charge(c, st) && step.resp.status.BudgetExhausted? && !step.resp.cacheHit)
        || (&& step.state.served == st.served + 1
            && (OnBudget(c, st) ==> CanCall(st.budgets[c.budget.value]))
            && step.state.budgets == Charge(c, st)
            && step.resp.status in {Ok, Timeout, Error, Malformed} && !step.resp.cacheHit))
  }

  function Charge(c: Call, st: State): map<nat, Budget> {
    if OnBudget(c, st) then st.budgets[c.budget.value := Take(st.budgets[c.budget.value], c.req.operation).0]
    else st.budgets
  }

  lemma DecideOutcomes(w: World, g: GlobalConfig, c: Call, st: State)
    ensures Outcomes(c, st, Decide(w, g, c, st))
  {
    match Ruled(w, g, c)
    case Stop(resp) =>
      assert resp.status in {Disabled, Unavailable, Unsupported, Refused} && !resp.cacheHit;
    case Go(p) =>
      var answer := Judge(w, c.req, p, c.done);
      assert answer.status in {Ok, Timeout, Error, Malformed} && !answer.cacheHit;
  }

  lemma RunKeepsBooks(w: World, g: GlobalConfig, c: Call, st: State)
    ensures BooksBalance(st, RunOp(w, g, c, st).state, 1)
  {
    var step := Decide(w, g, c, st);
    DecideOutcomes(w, g, c, st);
    CountedOnce(st.sink.counts, step.resp.status);
  }

  lemma RunCharges(w: World, g: GlobalConfig, c: Call, st: State, k: nat)
    ensures var step := RunOp(w, g, c, st);
      Charged(st, step.state, k,
        if c.budget == Some(k) && step.state.served > st.served then 1 else 0,
        if c.budget == Some(k) && step.resp.status.BudgetExhausted? then 1 else 0)
  {
    DecideOutcomes(w, g, c, st);
  }

  lemma BooksAdd(st: State, mid: State, end: State, n: nat)
    requires BooksBalance(st, mid, n) && BooksBalance(mid, end, 1)
    ensures BooksBalance(st, end, n + 1)
  {
  }

  lemma ChargesAdd(st: State, mid: State, end: State, k: nat, spent: nat, refused: nat, more: nat, less: nat)
    requires Charged(st, mid, k, spent, refused) && Charged(mid, end, k, more, less)
    ensures Charged(st, end, k, spent + more, refused + less)
  {
  }

  lemma CountedOnce(counts: map<Status, nat>, status: Status)
    ensures forall s: Status ::
      CountOf(Counted(counts, status), s) == CountOf(counts, s) + if s == status then 1 else 0
    ensures Total(Counted(counts, status)) == Total(counts) + 1
  {
    assert forall s: Status ::
      CountOf(Counted(counts, status), s) == CountOf(counts, s) + if s == status then 1 else 0;
  }

  lemma RecordedOnce(s: Sink, req: Request, resp: Response)
    ensures var after := Record(s, req, resp);
      && Total(after.counts) == Total(s.counts) + 1
      && after.calls - s.calls <= CountOf(after.counts, Ok) - CountOf(s.counts, Ok)
      && |after.recent| <= KEEP && after.recent[0] == (req, resp)
  {
    CountedOnce(s.counts, resp.status);
  }

  lemma BooksKept(w: World, g: GlobalConfig, calls: seq<Call>, st: State, n: nat)
    requires n < |calls| && BooksBalance(st, After(w, g, calls, st, n), n)
    ensures BooksBalance(st, After(w, g, calls, st, n + 1), n + 1)
  {
    AfterOneMore(w, g, calls, st, n);
    RunKeepsBooks(w, g, calls[n], After(w, g, calls, st, n));
    BooksAdd(st, After(w, g, calls, st, n), After(w, g, calls, st, n + 1), n);
  }

  lemma BooksOverRuns(w: World, g: GlobalConfig, calls: seq<Call>, st: State, n: nat)
    requires n <= |calls|
    ensures BooksBalance(st, After(w, g, calls, st, n), n)
  {
    var inv := (i: nat, s: State) => BooksBalance(st, s, i);
    forall i: nat | i < |calls| && inv(i, Iterated(Stepping(w, g), calls, st, i))
      ensures inv(i + 1, Iterated(Stepping(w, g), calls, st, i + 1))
    {
      BooksKept(w, g, calls, st, i);
    }
    Always(Stepping(w, g), calls, st, n, inv);
  }

  lemma {:induction false} ChargesOverRuns(w: World, g: GlobalConfig, calls: seq<Call>, st: State, n: nat, k: nat)
    requires n <= |calls|
    ensures Charged(st, After(w, g, calls, st, n), k,
                    Spent(w, g, calls, st, n, k), TurnedAway(w, g, calls, st, n, k))
  {
    if 0 < n {
      var before := After(w, g, calls, st, n - 1);
      ChargesOverRuns(w, g, calls, st, n - 1, k);
      RunCharges(w, g, calls[n - 1], before, k);
      var spent, refused := Spent(w, g, calls, st, n - 1, k), TurnedAway(w, g, calls, st, n - 1, k);
      ChargesAdd(st, before, After(w, g, calls, st, n), k, spent, refused,
                 Spent(w, g, calls, st, n, k) - spent, TurnedAway(w, g, calls, st, n, k) - refused);
    }
  }

  /** Over every sequence of calls by any tenants on any budgets, whatever the providers answer: a budget is
      charged exactly the provider calls made on it and never past its limit, and counts exactly those it
      turned away; every call has exactly one record; and the sink's own `calls` is the provider calls less
      those that timed out, failed or came back malformed. */
  lemma CallsAreBudgeted(w: World, g: GlobalConfig, calls: seq<Call>, st: State, k: nat)
    ensures var end, n := After(w, g, calls, st, |calls|), |calls|;
      && BooksBalance(st, end, n)
      && Charged(st, end, k, Spent(w, g, calls, st, n, k), TurnedAway(w, g, calls, st, n, k))
  {
    BooksOverRuns(w, g, calls, st, |calls|);
    ChargesOverRuns(w, g, calls, st, |calls|, k);
  }

  // ------------------------------------------------------------------ isolation

  /** The call consults and feeds the cache. */
  predicate Cacheable(w: World, g: GlobalConfig, c: Call) {
    Ruled(w, g, c).Go? && UsesCache(ConfigOf(w, g, c), c.req)
  }

  function KeyOf(w: World, g: GlobalConfig, c: Call): Key
    requires Cacheable(w, g, c)
  {
    CacheKey(c.req, Ruled(w, g, c).provider)
  }

  /** An earlier call stored this entry: same key, answered OK by a provider. */
  ghost predicate StoredBy(w: World, g: GlobalConfig, calls: seq<Call>, st: State, key: Key, j: int) {
    && 0 <= j < |calls| && Cacheable(w, g, calls[j]) && KeyOf(w, g, calls[j]) == key
    && (var resp := AnswerTo(w, g, calls, st, j); resp.status.Ok? && !resp.cacheHit && resp.output.Some?)
  }

  /** One call adds at most one entry: its own, with the provider's answer. */
  lemma RunStores(w: World, g: GlobalConfig, c: Call, st: State, key: Key)
    requires key in RunOp(w, g, c, st).state.cache
    ensures var step := RunOp(w, g, c, st);
      || (key in st.cache && step.state.cache[key] == st.cache[key])
      || (&& Cacheable(w, g, c) && KeyOf(w, g, c) == key
          && step.resp == Judge(w, c.req, Ruled(w, g, c).provider, c.done) && step.resp.status.Ok?
          && step.state.cache[key] == Entry(step.resp.output.value, step.resp.model))
  {
  }

  /** Call `j` was answered by its provider and stored exactly this entry. */
  ghost predicate Origin(w: World, g: GlobalConfig, calls: seq<Call>, st: State, key: Key, entry: Entry, j: int) {
    && StoredBy(w, g, calls, st, key, j)
    && (var answer := AnswerTo(w, g, calls, st, j); entry == Entry(answer.output.value, answer.model))
  }

  /** Every entry has its origin among the first `n` calls. */
  ghost predicate AllHaveOrigin(w: World, g: GlobalConfig, calls: seq<Call>, st: State, n: nat, s: State) {
    forall key :: key in s.cache ==> exists j :: j < n && Origin(w, g, calls, st, key, s.cache[key], j)
  }

  lemma OriginsKept(w: World, g: GlobalConfig, calls: seq<Call>, st: State, n: nat)
    requires n < |calls| && AllHaveOrigin(w, g, calls, st, n, After(w, g, calls, st, n))
    ensures AllHaveOrigin(w, g, calls, st, n + 1, After(w, g, calls, st, n + 1))
  {
    var s, s' := After(w, g, calls, st, n), After(w, g, calls, st, n + 1);
    forall key | key in s'.cache ensures exists j :: j < n + 1 && Origin(w, g, calls, st, key, s'.cache[key], j) {
      if KeptFrom(s, s', key) {
        var j :| j < n && Origin(w, g, calls, st, key, s.cache[key], j);
        assert Origin(w, g, calls, st, key, s'.cache[key], j);
      } else {
        StoredNow(w, g, calls, st, n, key);
        assert Origin(w, g, calls, st, key, s'.cache[key], n);
      }
    }
  }

  /** Every entry of a cache that began empty was stored by a call with that very key. */
  lemma EntriesHaveAnOrigin(w: World, g: GlobalConfig, calls: seq<Call>, st: State, n: nat, key: Key)
    returns (j: nat)
    requires n <= |calls| && st.cache == map[] && key in After(w, g, calls, st, n).cache
    ensures j < n && StoredBy(w, g, calls, st, key, j)
    ensures var answer := AnswerTo(w, g, calls, st, j);
      After(w, g, calls, st, n).cache[key] == Entry(answer.output.value, answer.model)
  {
    var inv := (i: nat, s: State) => AllHaveOrigin(w, g, calls, st, i, s);
    forall i: nat | i < |calls| && inv(i, Iterated(Stepping(w, g), calls, st, i))
      ensures inv(i + 1, Iterated(Stepping(w, g), calls, st, i + 1))
    {
      OriginsKept(w, g, calls, st, i);
    }
    Always(Stepping(w, g), calls, st, n, inv);
    j :| j < n && Origin(w, g, calls, st, key, After(w, g, calls, st, n).cache[key], j);
  }

  predicate KeptFrom(st: State, st': State, key: Key) {
    key in st.cache && key in st'.cache && st'.cache[key] == st.cache[key]
  }

  /** An entry that was not there before call `j` is this call's. */
  lemma StoredNow(w: World, g: GlobalConfig, calls: seq<Call>, st: State, j: nat, key: Key)
    requires j < |calls| && key in After(w, g, calls, st, j + 1).cache
    requires !KeptFrom(After(w, g, calls, st, j), After(w, g, calls, st, j + 1), key)
    ensures StoredBy(w, g, calls, st, key, j)
    ensures var answer := AnswerTo(w, g, calls, st, j);
      After(w, g, calls, st, j + 1).cache[key] == Entry(answer.output.value, answer.model)
  {
    AfterOneMore(w, g, calls, st, j);
    RunStores(w, g, calls[j], After(w, g, calls, st, j), key);
  }

  /** Among calls of all tenants under their own settings: a cache hit on candidate data was stored by a
      request of the same tenant with the same operation and input, and returns what it was answered. */
  lemma CandidateHitsStayHome(w: World, g: GlobalConfig, calls: seq<Call>, st: State, i: nat) returns (j: nat)
    requires st.cache == map[] && i < |calls| && calls[i].req.scope.Candidate?
    requires AnswerTo(w, g, calls, st, i).cacheHit
    ensures j < i && calls[j].req.scope.Candidate? && calls[j].req.tenant == calls[i].req.tenant
    ensures calls[j].req.operation == calls[i].req.operation && calls[j].req.input == calls[i].req.input
    ensures var stored, hit := AnswerTo(w, g, calls, st, j), AnswerTo(w, g, calls, st, i);
      && stored.status.Ok? && !stored.cacheHit && stored.provider == hit.provider && stored.output.Some?
      && hit.output == w.validate(Parsed(stored.output.value), calls[i].req.schema)
  {
    var before := After(w, g, calls, st, i);
    HitNeedsEntry(w, g, calls[i], before);
    j := EntriesHaveAnOrigin(w, g, calls, st, i, KeyOf(w, g, calls[i]));
    AnsweredBy(w, g, calls[j], After(w, g, calls, st, j));
  }

  lemma HitNeedsEntry(w: World, g: GlobalConfig, c: Call, st: State)
    requires RunOp(w, g, c, st).resp.cacheHit
    ensures Cacheable(w, g, c) && KeyOf(w, g, c) in st.cache
    ensures RunOp(w, g, c, st).resp.output == w.validate(Parsed(st.cache[KeyOf(w, g, c)].output), c.req.schema)
    ensures RunOp(w, g, c, st).resp.provider == Ruled(w, g, c).provider.name
  {
  }

  lemma AnsweredBy(w: World, g: GlobalConfig, c: Call, st: State)
    requires Ruled(w, g, c).Go?
    ensures RunOp(w, g, c, st).resp.provider == Ruled(w, g, c).provider.name
  {
    ServedBy(w, ConfigOf(w, g, c), c, Ruled(w, g, c).provider, st);
  }

  lemma ServedBy(w: World, cfg: Effective, c: Call, p: Provider, st: State)
    ensures Serve(w, cfg, c, p, st).resp.provider == p.name
  {
  }

  // --------------------------------------------------------------- transparency

  /** Validating a validated output changes nothing. */
  ghost predicate Idempotent(w: World) {
    forall text: string, schema: Option<string> ::
      w.validate(Text(text), schema).Some? ==>
        w.validate(Parsed(w.validate(Text(text), schema).value), schema) == w.validate(Text(text), schema)
  }

  /** What a provider is asked: itself, the prompt, whether JSON is wanted, and the limits after narrowing. */
  datatype Question = Question(provider: Provider, prompt: string, json: bool, timeout: int, tokens: int)

  function Questioned(cfg: Effective, req: Request, p: Provider): Question {
    Question(p, req.prompt, req.schema.Some?, Limit(req.timeout, cfg.timeout), Limit(req.maxTokens, cfg.maxTokens))
  }

  function QuestionOf(w: World, g: GlobalConfig, c: Call): Question
    requires Ruled(w, g, c).Go?
  {
    Questioned(ConfigOf(w, g, c), c.req, Ruled(w, g, c).provider)
  }

  /** The call of a caller whose provider, should it be reached, answers its question like this. */
  function Posed(w: World, g: GlobalConfig, req: Request, tenant: Option<TenantSettings>,
                 answer: Question -> Completion): Call
  {
    var c := Call(req, tenant, Some(0), Broke);
    if Ruled(w, g, c).Go? then c.(done := answer(QuestionOf(w, g, c))) else c
  }

  /** The same prompt, schema and limits to the same provider: all of it known before the call. */
  predicate SameQuestion(w: World, g: GlobalConfig, x: Call, y: Call)
    requires Ruled(w, g, x).Go? && Ruled(w, g, y).Go?
  {
    x.req.schema == y.req.schema && QuestionOf(w, g, x) == QuestionOf(w, g, y)
  }

  predicate SameKey(w: World, g: GlobalConfig, x: Call, y: Call) {
    Cacheable(w, g, x) && Cacheable(w, g, y) && KeyOf(w, g, x) == KeyOf(w, g, y)
  }

  /** Calls that share a cache key ask the same question. */
  predicate KeyDetermines(w: World, g: GlobalConfig, calls: seq<Call>) {
    forall i, j :: 0 <= i < |calls| && 0 <= j < |calls| && SameKey(w, g, calls[i], calls[j]) ==>
      SameQuestion(w, g, calls[i], calls[j])
  }

  /** Every provider answers as `complete` says, the same whenever it is asked the same. */
  ghost predicate Deterministic(w: World, g: GlobalConfig, calls: seq<Call>, complete: Question -> Completion) {
    forall i :: 0 <= i < |calls| && Ruled(w, g, calls[i]).Go? ==>
      calls[i].done == complete(QuestionOf(w, g, calls[i]))
  }

  function WithoutCache(g: GlobalConfig): GlobalConfig {
    g.(cacheEnabled := false)
  }

  /** What the call would be answered by its provider. */
  function Asked(w: World, g: GlobalConfig, c: Call): Response
    requires Ruled(w, g, c).Go?
  {
    Judge(w, c.req, Ruled(w, g, c).provider, c.done)
  }

  /** Every entry answers the calls of the sequence as the provider would. */
  ghost predicate Faithful(w: World, g: GlobalConfig, calls: seq<Call>, cache: map<Key, Entry>) {
    forall i :: 0 <= i < |calls| && Cacheable(w, g, calls[i]) ==> Recalls(w, g, calls[i], cache)
  }

  ghost predicate Recalls(w: World, g: GlobalConfig, c: Call, cache: map<Key, Entry>)
    requires Cacheable(w, g, c)
  {
    KeyOf(w, g, c) in cache ==>
      Recalled(w, ConfigOf(w, g, c), c.req, Ruled(w, g, c).provider, cache)
      == Some(Asked(w, g, c).(cacheHit := true))
  }

  /** The two runs side by side: with the cache, no more of any budget is used. */
  ghost predicate Ahead(on: State, off: State) {
    && on.budgets.Keys == off.budgets.Keys
    && forall k :: k in on.budgets ==>
         on.budgets[k].maxCalls == off.budgets[k].maxCalls && on.budgets[k].calls <= off.budgets[k].calls
  }

  /** The same answer, wherever it came from. */
  predicate SameAnswer(x: Response, y: Response) {
    x.(cacheHit := false) == y.(cacheHit := false)
  }

  /** What holds of the two runs after equally many calls. */
  ghost predicate Paired(w: World, g: GlobalConfig, calls: seq<Call>, on: State, off: State) {
    Ahead(on, off) && Faithful(w, g, calls, on.cache)
  }

  lemma CacheIsNoRule(w: World, g: GlobalConfig, c: Call)
    ensures Ruled(w, WithoutCache(g), c) == Ruled(w, g, c)
    ensures !UsesCache(ConfigOf(w, WithoutCache(g), c), c.req)
  {
    assert ConfigOf(w, WithoutCache(g), c) == ConfigOf(w, g, c).(cacheEnabled := false);
  }

  lemma OneStep(w: World, g: GlobalConfig, calls: seq<Call>, complete: Question -> Completion, i: nat,
                on: State, off: State)
    requires i < |calls| && Idempotent(w) && KeyDetermines(w, g, calls) && Deterministic(w, g, calls, complete)
    requires Paired(w, g, calls, on, off)
    ensures var x, y := RunOp(w, g, calls[i], on), RunOp(w, WithoutCache(g), calls[i], off);
      Agree(x, y) && Paired(w, g, calls, x.state, y.state)
  {
    DecisionsAgree(w, g, calls[i], on, off);
    if Cacheable(w, g, calls[i]) {
      StoringIsFaithful(w, g, calls, complete, i, on.cache);
    }
    StoresAtMostTheAnswer(w, g, calls[i], on);
  }

  lemma StoresAtMostTheAnswer(w: World, g: GlobalConfig, c: Call, st: State)
    ensures var cache' := Decide(w, g, c, st).state.cache;
      || cache' == st.cache
      || (&& Cacheable(w, g, c) && Asked(w, g, c).status.Ok?
          && cache' == st.cache[KeyOf(w, g, c) := Entry(Asked(w, g, c).output.value, Asked(w, g, c).model)])
  {
  }

  /** With a faithful cache the two decisions agree, unless the cacheless one found its budget exhausted. */
  lemma DecisionsAgree(w: World, g: GlobalConfig, c: Call, on: State, off: State)
    requires Ahead(on, off)
    requires Cacheable(w, g, c) ==> Recalls(w, g, c, on.cache)
    ensures Agree(Decide(w, g, c, on), Decide(w, WithoutCache(g), c, off))
  {
    CacheIsNoRule(w, g, c);
    if Ruled(w, g, c).Go? {
      ServicesAgree(w, ConfigOf(w, g, c), ConfigOf(w, WithoutCache(g), c), c, Ruled(w, g, c).provider, on, off);
    }
  }

  ghost predicate Agree(x: Step, y: Step) {
    Ahead(x.state, y.state) && (!y.resp.status.BudgetExhausted? ==> SameAnswer(x.resp, y.resp))
  }

  lemma ServicesAgree(w: World, cfg: Effective, plain: Effective, c: Call, p: Provider, on: State, off: State)
    requires Ahead(on, off) && !UsesCache(plain, c.req)
    requires UsesCache(cfg, c.req) && CacheKey(c.req, p) in on.cache ==>
      Recalled(w, cfg, c.req, p, on.cache) == Some(Judge(w, c.req, p, c.done).(cacheHit := true))
    ensures Agree(Serve(w, cfg, c, p, on), Serve(w, plain, c, p, off))
  {
    ServeMeaning(w, cfg, c, p, on);
    ServeMeaning(w, plain, c, p, off);
    ChargingKeepsAhead(c, on, off);
  }

  lemma ServeMeaning(w: World, cfg: Effective, c: Call, p: Provider, st: State)
    ensures var step, recalled := Serve(w, cfg, c, p, st), Recalled(w, cfg, c.req, p, st.cache);
      if recalled.Some? then step == Step(st, recalled.value)
      else
        && step.state.budgets == Charge(c, st)
        && step.resp == if OnBudget(c, st) && !CanCall(st.budgets[c.budget.value])
                        then Response(BudgetExhausted, None, p.name, p.model, false)
                        else Judge(w, c.req, p, c.done)
  {
  }

  lemma ChargingKeepsAhead(c: Call, on: State, off: State)
    requires Ahead(on, off)
    ensures Ahead(on, off.(budgets := Charge(c, off)))
    ensures Ahead(on.(budgets := Charge(c, on)), off.(budgets := Charge(c, off)))
  {
  }

  lemma StoringIsFaithful(w: World, g: GlobalConfig, calls: seq<Call>, complete: Question -> Completion, i: nat,
                          cache: map<Key, Entry>)
    requires i < |calls| && Idempotent(w) && KeyDetermines(w, g, calls) && Deterministic(w, g, calls, complete)
    requires Faithful(w, g, calls, cache) && Cacheable(w, g, calls[i])
    ensures var answer := Asked(w, g, calls[i]);
      answer.status.Ok? ==>
        Faithful(w, g, calls, cache[KeyOf(w, g, calls[i]) := Entry(answer.output.value, answer.model)])
  {
    var answer := Asked(w, g, calls[i]);
    if answer.status.Ok? {
      var key := KeyOf(w, g, calls[i]);
      var cache' := cache[key := Entry(answer.output.value, answer.model)];
      forall j | 0 <= j < |calls| && Cacheable(w, g, calls[j]) ensures Recalls(w, g, calls[j], cache') {
        if KeyOf(w, g, calls[j]) == key {
          assert SameKey(w, g, calls[i], calls[j]);
          assert Asked(w, g, calls[j]) == answer;
          RecallsTheAnswer(w, g, calls[j], cache');
        } else {
          assert Recalls(w, g, calls[j], cache);
        }
      }
    }
  }

  lemma RecallsTheAnswer(w: World, g: GlobalConfig, c: Call, cache: map<Key, Entry>)
    requires Idempotent(w) && Cacheable(w, g, c) && KeyOf(w, g, c) in cache && Asked(w, g, c).status.Ok?
    requires cache[KeyOf(w, g, c)] == Entry(Asked(w, g, c).output.value, Asked(w, g, c).model)
    ensures Recalls(w, g, c, cache)
  {
    assert w.validate(Text(c.done.text), c.req.schema).Some?;
  }

  lemma EmptyIsPaired(w: World, g: GlobalConfig, calls: seq<Call>, st: State)
    requires st.cache == map[]
    ensures Paired(w, g, calls, st, st)
  {
  }

  lemma SideBySide(w: World, g: GlobalConfig, calls: seq<Call>, complete: Question -> Completion, n: nat, st: State)
    requires n <= |calls| && st.cache == map[]
    requires Idempotent(w) && KeyDetermines(w, g, calls) && Deterministic(w, g, calls, complete)
    ensures Paired(w, g, calls, After(w, g, calls, st, n), After(w, WithoutCache(g), calls, st, n))
  {
    var both := (x: State, y: State) => Paired(w, g, calls, x, y);
    var on, off := Stepping(w, g), Stepping(w, WithoutCache(g));
    EmptyIsPaired(w, g, calls, st);
    forall i: nat, x, y | i < |calls| && both(x, y) ensures both(on(calls[i], x), off(calls[i], y)) {
      OneStep(w, g, calls, complete, i, x, y);
    }
    InCommon(on, off, calls, st, n, both);
  }

  /** The cache is transparent. Over every sequence of calls by any tenants on any budgets, with providers
      that answer the same question alike: when calls that share a key ask the same question, a call that
      the cacheless run does not turn away gets the same status, output, provider and model with the cache
      on. `SharedKeyChangesAnAnswer` shows that the condition on keys cannot be relaxed. */
  lemma CacheIsTransparent(w: World, g: GlobalConfig, calls: seq<Call>, complete: Question -> Completion,
                           st: State, i: nat)
    requires st.cache == map[] && i < |calls|
    requires Idempotent(w) && KeyDetermines(w, g, calls) && Deterministic(w, g, calls, complete)
    requires !AnswerTo(w, WithoutCache(g), calls, st, i).status.BudgetExhausted?
    ensures SameAnswer(AnswerTo(w, g, calls, st, i), AnswerTo(w, WithoutCache(g), calls, st, i))
  {
    SideBySide(w, g, calls, complete, i, st);
    OneStep(w, g, calls, complete, i,
            After(w, g, calls, st, i), After(w, WithoutCache(g), calls, st, i));
  }

  // ------------------------------------------------- what the key leaves out

  /** Validation that reads a fresh answer by its schema and takes a stored one as it is. */
  function BySchema(schema: Option<string>): (Raw, Option<string>) -> Option<string> {
    (raw: Raw, s: Option<string>) =>
      Some(if raw.Parsed? then raw.value else if s == schema then raw.text else "b")
  }

  function Telling(q: Question): Question -> Completion {
    (asked: Question) => Completed(if asked == q then "a" else "b", None)
  }

  function Answering(w: World, g: GlobalConfig, c: Call, complete: Question -> Completion): Call
    requires Ruled(w, g, c).Go?
  {
    c.(done := complete(QuestionOf(w, g, c)), budget := None)
  }

  /** The condition is exact. Whenever two cacheable calls share a key and differ in provider, prompt, schema
      or effective limits, there are an idempotent validation and providers that answer the same question
      alike for which the cache changes the answer to the second. */
  lemma SharedKeyChangesAnAnswer(w: World, g: GlobalConfig, x: Call, y: Call, st: State)
    returns (w': World, complete: Question -> Completion, calls: seq<Call>)
    requires st.cache == map[] && SameKey(w, g, x, y) && !SameQuestion(w, g, x, y)
    ensures w' == w.(validate := w'.validate) && Idempotent(w')
    ensures calls == [Answering(w, g, x, complete), Answering(w, g, y, complete)]
    ensures Deterministic(w', g, calls, complete)
    ensures !SameAnswer(AnswerTo(w', g, calls, st, 1), AnswerTo(w', WithoutCache(g), calls, st, 1))
  {
    complete := Telling(QuestionOf(w, g, x));
    w' := w.(validate := BySchema(x.req.schema));
    var x', y' := Answering(w, g, x, complete), Answering(w, g, y, complete);
    calls := [x', y'];
    SameRules(w, w', g, x, x');
    SameRules(w, w', g, y, y');
    AnsweringIsDeterministic(w, w', g, x, y, complete);
    AskedByQuestion(w, w', g, x, x, complete);
    AskedByQuestion(w, w', g, x, y, complete);
    SecondIsRecalled(w', g, x', y', st);
  }

  lemma AnsweringIsDeterministic(w: World, w': World, g: GlobalConfig, x: Call, y: Call,
                                 complete: Question -> Completion)
    requires Ruled(w, g, x).Go? && Ruled(w, g, y).Go? && w' == w.(validate := w'.validate)
    ensures Deterministic(w', g, [Answering(w, g, x, complete), Answering(w, g, y, complete)], complete)
  {
    SameRules(w, w', g, x, Answering(w, g, x, complete));
    SameRules(w, w', g, y, Answering(w, g, y, complete));
  }

  lemma AskedByQuestion(w: World, w': World, g: GlobalConfig, x: Call, c: Call, complete: Question -> Completion)
    requires Ruled(w, g, x).Go? && Ruled(w, g, c).Go?
    requires w' == w.(validate := BySchema(x.req.schema)) && complete == Telling(QuestionOf(w, g, x))
    requires Ruled(w', g, Answering(w, g, c, complete)) == Ruled(w, g, c)
    ensures Asked(w', g, Answering(w, g, c, complete)).output == Some(if SameQuestion(w, g, x, c) then "a" else "b")
  {
  }

  /** Rules, configuration and question know neither the validation nor the answer. */
  lemma SameRules(w: World, w': World, g: GlobalConfig, c: Call, c': Call)
    requires w' == w.(validate := w'.validate) && c' == c.(done := c'.done, budget := c'.budget)
    ensures ConfigOf(w', g, c') == ConfigOf(w, g, c) && Ruled(w', g, c') == Ruled(w, g, c)
  {
  }

  /** Of two unbudgeted calls that share a key the second is answered what the first one stored. */
  lemma SecondIsRecalled(w: World, g: GlobalConfig, x: Call, y: Call, st: State)
    requires st.cache == map[] && SameKey(w, g, x, y) && x.budget == y.budget == None
    requires Asked(w, g, x).status.Ok? && w.validate(Parsed(Asked(w, g, x).output.value), y.req.schema).Some?
    ensures AnswerTo(w, g, [x, y], st, 1).output
      == w.validate(Parsed(Asked(w, g, x).output.value), y.req.schema)
    ensures AnswerTo(w, WithoutCache(g), [x, y], st, 1).output == Asked(w, g, y).output
  {
    var calls := [x, y];
    assert After(w, g, calls, st, 1) == RunOp(w, g, calls[0], After(w, g, calls, st, 0)).state;
    FirstIsStored(w, g, x, st);
    RecallIsTheAnswer(w, ConfigOf(w, g, y), y, Ruled(w, g, y).provider, RunOp(w, g, x, st).state);
    CacheIsNoRule(w, g, y);
    PlainIsAsked(w, ConfigOf(w, WithoutCache(g), y), y, Ruled(w, g, y).provider,
                 RunOp(w, WithoutCache(g), x, st).state);
  }

  lemma RecallIsTheAnswer(w: World, cfg: Effective, c: Call, p: Provider, st: State)
    requires UsesCache(cfg, c.req) && CacheKey(c.req, p) in st.cache
    requires w.validate(Parsed(st.cache[CacheKey(c.req, p)].output), c.req.schema).Some?
    ensures Serve(w, cfg, c, p, st).resp.output
      == w.validate(Parsed(st.cache[CacheKey(c.req, p)].output), c.req.schema)
  {
  }

  lemma PlainIsAsked(w: World, cfg: Effective, c: Call, p: Provider, st: State)
    requires !UsesCache(cfg, c.req) && c.budget.None?
    ensures Serve(w, cfg, c, p, st).resp == Judge(w, c.req, p, c.done)
  {
  }

  lemma FirstIsStored(w: World, g: GlobalConfig, c: Call, st: State)
    requires st.cache == map[] && Cacheable(w, g, c) && c.budget.None? && Asked(w, g, c).status.Ok?
    ensures var answer := Asked(w, g, c);
      RunOp(w, g, c, st).state.cache == map[KeyOf(w, g, c) := Entry(answer.output.value, answer.model)]
  {
  }

  const LOCAL := Provider("stub", None, true, true)

  /** One local provider, and no rule that stops anything. */
  const OPEN := World(
    (s: string) => s,
    (name: string, model: Option<string>) => Some(LOCAL),
    (name: string) => true,
    (prompt: string) => false,
    (raw: Raw, schema: Option<string>) => Some(if raw.Text? then raw.text else raw.value))

  const ON := GlobalConfig(true, "stub", None, 20, 50, 1024, true, [])

  /** A shared summary for a tenant with this output limit, which the provider fills. */
  function Summary(maxTokens: Option<int>): Call {
    Call(Request("summary", "t", Job, "p", "i", "v1", None, "v1", None, None, None, None, true),
         Some(TenantSettings(true, None, None, None, None, maxTokens, None)), None,
         Completed(if maxTokens.Some? then "short" else "long", None))
  }

  /** The key leaves out the output limit, so the answer that a narrow tenant was allowed is what the next
      tenant gets for the same shared question, although its provider would have said more. */
  lemma KeyIgnoresLimits(st: State)
    requires st.cache == map[]
    ensures var calls := [Summary(Some(10)), Summary(None)];
      && Idempotent(OPEN) && SameKey(OPEN, ON, calls[0], calls[1])
      && calls[0].req == calls[1].req
      && AnswerTo(OPEN, ON, calls, st, 1).output == Some("short")
      && AnswerTo(OPEN, WithoutCache(ON), calls, st, 1).output == Some("long")
  {
    var x, y := Summary(Some(10)), Summary(None);
    assert Ruled(OPEN, ON, x) == Go(LOCAL) && Ruled(OPEN, ON, y) == Go(LOCAL);
    SecondIsRecalled(OPEN, ON, x, y, st);
  }

  // ------------------------------------------------- what a provider is asked

  /** The wish of a request: none, and zero, ask for nothing in particular. */
  function Wish(wish: Option<int>): Option<int> {
    if wish == Some(0) then None else wish
  }

  /** The question is the request's own, under limits that neither the request nor the settings exceed. */
  predicate WithinLimits(cfg: Effective, req: Request, p: Provider, question: Question) {
    && question.provider == p && question.prompt == req.prompt && (question.json <==> req.schema.Some?)
    && AtMostBoth(question.tokens, Wish(req.maxTokens), cfg.maxTokens)
    && AtMostBoth(question.timeout, Wish(req.timeout), cfg.timeout)
  }

  lemma QuestionIsNarrowed(cfg: Effective, req: Request, p: Provider)
    ensures WithinLimits(cfg, req, p, Questioned(cfg, req, p))
  {
  }

  /** The questions that the first `n` calls of a sequence put to providers. */
  function Put(w: World, g: GlobalConfig, calls: seq<Call>, st: State, n: nat): seq<Question>
    requires n <= |calls|
  {
    if n == 0 then []
    else
      Put(w, g, calls, st, n - 1)
      + if Reached(w, g, calls, st, n - 1) && Ruled(w, g, calls[n - 1]).Go? then [QuestionOf(w, g, calls[n - 1])]
        else []
  }

  /** The question is that of call `i`, within the global limits, the limits of the caller's tenant and the wishes
      of the request. */
  ghost predicate OfCall(w: World, g: GlobalConfig, calls: seq<Call>, st: State, i: int, question: Question) {
    && 0 <= i < |calls| && Reached(w, g, calls, st, i)
    && question.prompt == calls[i].req.prompt && (question.json <==> calls[i].req.schema.Some?)
    && question.tokens <= g.maxTokens && question.timeout <= g.timeout
    && (var t := calls[i].tenant;
        t.Some? ==>
          && (t.value.maxTokens.Some? ==> question.tokens <= t.value.maxTokens.value)
          && (t.value.timeout.Some? ==> question.timeout <= t.value.timeout.value))
    && (calls[i].req.maxTokens.Some? && calls[i].req.maxTokens.value != 0 ==>
          question.tokens <= calls[i].req.maxTokens.value)
    && (calls[i].req.timeout.Some? && calls[i].req.timeout.value != 0 ==>
          question.timeout <= calls[i].req.timeout.value)
  }

  lemma PutByCall(w: World, g: GlobalConfig, calls: seq<Call>, st: State, i: nat)
    requires i < |calls| && Reached(w, g, calls, st, i) && Ruled(w, g, calls[i]).Go?
    ensures OfSomeCall(w, g, calls, st, i + 1, QuestionOf(w, g, calls[i]))
  {
    var c := calls[i];
    QuestionIsNarrowed(ConfigOf(w, g, c), c.req, Ruled(w, g, c).provider);
    TenantOnlyNarrows(w, g, if c.tenant.Some? then c.tenant.value else SHARED);
    assert OfCall(w, g, calls, st, i, QuestionOf(w, g, c));
  }

  ghost predicate OfSomeCall(w: World, g: GlobalConfig, calls: seq<Call>, st: State, n: nat, question: Question) {
    exists i :: 0 <= i < n && OfCall(w, g, calls, st, i, question)
  }

  lemma PutStep(w: World, g: GlobalConfig, calls: seq<Call>, st: State, n: nat, question: Question)
    requires 0 < n <= |calls| && question in Put(w, g, calls, st, n) && question !in Put(w, g, calls, st, n - 1)
    ensures Reached(w, g, calls, st, n - 1) && Ruled(w, g, calls[n - 1]).Go?
    ensures question == QuestionOf(w, g, calls[n - 1])
  {
  }

  lemma SomeEarlierCall(w: World, g: GlobalConfig, calls: seq<Call>, st: State, n: nat, question: Question)
    requires 0 < n && OfSomeCall(w, g, calls, st, n - 1, question)
    ensures OfSomeCall(w, g, calls, st, n, question)
  {
  }

  lemma {:induction false} QuestionIsOfSomeCall(w: World, g: GlobalConfig, calls: seq<Call>, st: State, n: nat,
                                                question: Question)
    requires n <= |calls| && question in Put(w, g, calls, st, n)
    ensures OfSomeCall(w, g, calls, st, n, question)
  {
    if question in Put(w, g, calls, st, n - 1) {
      QuestionIsOfSomeCall(w, g, calls, st, n - 1, question);
      SomeEarlierCall(w, g, calls, st, n, question);
    } else {
      PutStep(w, g, calls, st, n, question);
      PutByCall(w, g, calls, st, n - 1);
    }
  }

  lemma ReachedOnce(w: World, g: GlobalConfig, calls: seq<Call>, st: State, i: nat)
    requires i < |calls|
    ensures Reached(w, g, calls, st, i) ==> Ruled(w, g, calls[i]).Go?
    ensures After(w, g, calls, st, i + 1).served
      == After(w, g, calls, st, i).served + if Reached(w, g, calls, st, i) then 1 else 0
  {
    AfterOneMore(w, g, calls, st, i);
    RunServes(w, g, calls[i], After(w, g, calls, st, i));
  }

  lemma {:induction false} OneQuestionPerCall(w: World, g: GlobalConfig, calls: seq<Call>, st: State, n: nat)
    requires n <= |calls|
    ensures |Put(w, g, calls, st, n)| == After(w, g, calls, st, n).served - st.served
  {
    if 0 < n {
      OneQuestionPerCall(w, g, calls, st, n - 1);
      ReachedOnce(w, g, calls, st, n - 1);
    }
  }

  /** Whatever tenants call in whatever order: a question is put for every call that reaches a provider and for no
      other, and none exceeds the global limits, its caller's tenant's, or its request's wish. */
  lemma QuestionsKeepLimits(w: World, g: GlobalConfig, calls: seq<Call>, st: State, n: nat)
    requires n <= |calls|
    ensures |Put(w, g, calls, st, n)| == After(w, g, calls, st, n).served - st.served
    ensures forall question :: question in Put(w, g, calls, st, n) ==> OfSomeCall(w, g, calls, st, n, question)
  {
    OneQuestionPerCall(w, g, calls, st, n);
    forall question | question in Put(w, g, calls, st, n) ensures OfSomeCall(w, g, calls, st, n, question) {
      QuestionIsOfSomeCall(w, g, calls, st, n, question);
    }
  }

  // ------------------------------------------------------- what a status means

  /** The provider a request goes to, once AI is on. */
  function Named(w: World, cfg: Effective, req: Request): Option<Provider> {
    var name := if req.provider.Some? && req.provider.value != "" then req.provider.value else cfg.provider;
    w.providerFor(w.normalize(name), if req.model.Some? && req.model.value != "" then req.model else cfg.model)
  }

  predicate ForbiddenTo(w: World, cfg: Effective, req: Request, p: Provider) {
    (req.scope.Candidate? && !p.local && p.name !in cfg.candidateProviders) || w.hasCredentials(req.prompt)
  }

  /** A cached entry answers the request: the cache is on for both, and the entry still validates. */
  predicate FromCache(w: World, cfg: Effective, req: Request, p: Provider, cache: map<Key, Entry>) {
    && cfg.cacheEnabled && req.cache && CacheKey(req, p) in cache
    && w.validate(Parsed(cache[CacheKey(req, p)].output), req.schema).Some?
  }

  predicate Exhausted(c: Call, st: State) {
    && c.budget.Some? && c.budget.value in st.budgets
    && (var b := st.budgets[c.budget.value]; b.maxCalls.Some? && b.calls >= b.maxCalls.value)
  }

  /** Each status exactly in its own case, and with it what is answered and what is cached. */
  ghost predicate AnsweredAs(w: World, g: GlobalConfig, c: Call, st: State, step: Step) {
    var t := if c.tenant.Some? then c.tenant.value else SHARED;
    var cfg := EffectiveFor(w, g, t);
    var p := Named(w, cfg, c.req);
    var on := g.enabled && t.enabled;
    var known := w.known(cfg.provider) || w.providerFor(cfg.provider, cfg.model).Some?;
    var through := cfg.enabled && p.Some? && p.value.configured && !ForbiddenTo(w, cfg, c.req, p.value);
    var hit := through && FromCache(w, cfg, c.req, p.value, st.cache);
    var spent := through && !hit && Exhausted(c, st);
    var asked := through && !hit && !spent;
    var output := if asked && c.done.Completed? then w.validate(Text(c.done.text), c.req.schema) else None;
    var resp := step.resp;
    && (resp.status.Disabled? <==> !cfg.enabled && !on)
    && (resp.status.Unsupported? <==> if cfg.enabled then p.None? else on && !known)
    && (resp.status.Unavailable? <==> if cfg.enabled then p.Some? && !p.value.configured else on && known)
    && (resp.status.Refused? <==>
          cfg.enabled && p.Some? && p.value.configured && ForbiddenTo(w, cfg, c.req, p.value))
    && (resp.status.BudgetExhausted? <==> spent)
    && (resp.status.Timeout? <==> asked && c.done.TimedOut?)
    && (resp.status.Error? <==> asked && c.done.Broke?)
    && (resp.status.Malformed? <==> asked && c.done.Completed? && output.None?)
    && (resp.status.Ok? <==> hit || output.Some?)
    && (resp.cacheHit <==> hit)
    && resp.output ==
       (if hit then w.validate(Parsed(st.cache[CacheKey(c.req, p.value)].output), c.req.schema) else output)
    && (through ==>
          && resp.provider == p.value.name
          && resp.model == Or(if hit then st.cache[CacheKey(c.req, p.value)].model
                              else if asked && c.done.Completed? then c.done.model else None, p.value.model))
    // a provider was asked exactly when nothing came before it, and what it gave is kept when it is good
    && step.state.served == st.served + (if asked then 1 else 0)
    && step.state.cache ==
       if asked && output.Some? && cfg.cacheEnabled && c.req.cache
       then st.cache[CacheKey(c.req, p.value) := Entry(output.value, resp.model)] else st.cache
  }

  lemma StoppedMeans(w: World, g: GlobalConfig, c: Call, st: State)
    requires Ruled(w, g, c).Stop?
    ensures AnsweredAs(w, g, c, st, RunOp(w, g, c, st))
  {
  }

  lemma RecalledMeans(w: World, g: GlobalConfig, c: Call, st: State)
    requires Ruled(w, g, c).Go? && FromCache(w, ConfigOf(w, g, c), c.req, Ruled(w, g, c).provider, st.cache)
    ensures AnsweredAs(w, g, c, st, RunOp(w, g, c, st))
  {
    assert Some(Ruled(w, g, c).provider) == Named(w, ConfigOf(w, g, c), c.req);
  }

  lemma SpentMeans(w: World, g: GlobalConfig, c: Call, st: State)
    requires Ruled(w, g, c).Go? && !FromCache(w, ConfigOf(w, g, c), c.req, Ruled(w, g, c).provider, st.cache)
    requires Exhausted(c, st)
    ensures AnsweredAs(w, g, c, st, RunOp(w, g, c, st))
  {
    assert Some(Ruled(w, g, c).provider) == Named(w, ConfigOf(w, g, c), c.req);
  }

  lemma AskedMeans(w: World, g: GlobalConfig, c: Call, st: State)
    requires Ruled(w, g, c).Go? && !FromCache(w, ConfigOf(w, g, c), c.req, Ruled(w, g, c).provider, st.cache)
    requires !Exhausted(c, st)
    ensures AnsweredAs(w, g, c, st, RunOp(w, g, c, st))
  {
    assert Some(Ruled(w, g, c).provider) == Named(w, ConfigOf(w, g, c), c.req);
    var step := Serve(w, ConfigOf(w, g, c), c, Ruled(w, g, c).provider, st);
    assert RunOp(w, g, c, st).resp == step.resp;
    assert RunOp(w, g, c, st).state == step.state.(sink := Record(step.state.sink, c.req, step.resp));
  }

  lemma StatusMeans(w: World, g: GlobalConfig, c: Call, st: State)
    ensures AnsweredAs(w, g, c, st, RunOp(w, g, c, st))
  {
    if Ruled(w, g, c).Stop? {
      StoppedMeans(w, g, c, st);
    } else if FromCache(w, ConfigOf(w, g, c), c.req, Ruled(w, g, c).provider, st.cache) {
      RecalledMeans(w, g, c, st);
    } else if Exhausted(c, st) {
      SpentMeans(w, g, c, st);
    } else {
      AskedMeans(w, g, c, st);
    }
  }

  lemma PosedAsks(w: World, g: GlobalConfig, req: Request, tenant: Option<TenantSettings>,
                  answer: Question -> Completion)
    ensures var c := Posed(w, g, req, tenant, answer); var ruling := Rules(w, ConfigOf(w, g, c), req);
      && c.req == req && c.budget == Some(0) && c.tenant == tenant
      && (ruling.Go? ==> c.done == answer(Questioned(ConfigOf(w, g, c), req, ruling.provider)))
  {
  }

  lemma RunRecords(w: World, g: GlobalConfig, c: Call, st: State, step: Step)
    requires step == Decide(w, g, c, st)
    ensures RunOp(w, g, c, st) == Step(step.state.(sink := Record(step.state.sink, c.req, step.resp)), step.resp)
  {
  }

  // ------------------------------------------------------------ as it is written

  class CallBudget {
    var b: Budget

    constructor (maxCalls: Option<int>)
      ensures b == Budget(maxCalls, 0, 0, map[])
    {
      b := Budget(maxCalls, 0, 0, map[]);
    }

    method TakeOne(operation: string) returns (granted: bool)
      modifies this
      ensures (b, granted) == Take(old(b), operation)
      // every request is a call or a refusal, and the limit is kept
      ensures b.calls + b.refused == old(b).calls + old(b).refused + 1 && b.maxCalls == old(b).maxCalls
      ensures granted <==> old(b).maxCalls.None? || old(b).calls < old(b).maxCalls.value
      ensures granted && b.maxCalls.Some? ==> b.calls <= b.maxCalls.value
      ensures CountOf(b.byOperation, operation) == CountOf(old(b).byOperation, operation) + if granted then 1 else 0
    {
      if !(b.maxCalls.None? || b.calls < b.maxCalls.value) {
        b := b.(refused := b.refused + 1);
        return false;
      }
      b := b.(calls := b.calls + 1);
      var used := if operation in b.byOperation then b.byOperation[operation] else 0;
      b := b.(byOperation := b.byOperation[operation := used + 1]);
      return true;
    }
  }

  class Gateway {
    const world: World
    const config: GlobalConfig
    var cache: map<Key, Entry>
    var hits: nat
    var misses: nat
    var writes: nat
    var sink: Sink
    ghost var served: nat
    ghost var put: Option<Question>  // what the provider was asked by the last call, if it reached one

    constructor (world: World, config: GlobalConfig)
      ensures this.world == world && this.config == config && cache == map[]
      ensures sink == Sink(map[], map[], 0, 0, []) && served == 0
      ensures hits == misses == writes == 0 && put == None
    {
      this.world := world;
      this.config := config;
      cache, sink, served := map[], Sink(map[], map[], 0, 0, []), 0;
      hits, misses, writes, put := 0, 0, 0, None;
    }

    /** The process as this call sees it; its budget, when it has one, goes by number 0. */
    ghost function View(budget: CallBudget?): State
      reads this, budget
    {
      State(cache, if budget == null then map[] else map[0 := budget.b], sink, served)
    }

    method Get(key: Key) returns (entry: Option<Entry>)
      modifies this`hits, this`misses
      ensures entry == if key in cache then Some(cache[key]) else None
      ensures hits + misses == old(hits) + old(misses) + 1 && (hits == old(hits) + 1 <==> entry.Some?)
    {
      if key !in cache {
        misses := misses + 1;
        return None;
      }
      hits := hits + 1;
      return Some(cache[key]);
    }

    method Finish(req: Request, resp: Response)
      modifies this`sink
      ensures sink == Record(old(sink), req, resp)
      // one record more, the newest first and at most KEEP of them
      ensures Total(sink.counts) == Total(old(sink).counts) + 1
      ensures |sink.recent| <= KEEP && sink.recent[0] == (req, resp)
      ensures sink.calls - old(sink).calls <= CountOf(sink.counts, Ok) - CountOf(old(sink).counts, Ok)
    {
      ghost var was := sink;
      var seen := if resp.status in sink.counts then sink.counts[resp.status] else 0;
      sink := sink.(counts := sink.counts[resp.status := seen + 1]);
      var used := if req.operation in sink.byOperation then sink.byOperation[req.operation] else 0;
      sink := sink.(byOperation := sink.byOperation[req.operation := used + 1]);
      assert sink.counts == Counted(was.counts, resp.status);
      assert sink.byOperation == Counted(was.byOperation, req.operation);
      if resp.status.Ok? && !resp.cacheHit {
        sink := sink.(calls := sink.calls + 1);
      }
      if resp.cacheHit {
        sink := sink.(cacheHits := sink.cacheHits + 1);
      }
      var recent := [(req, resp)] + sink.recent;
      sink := sink.(recent := if |recent| > KEEP then recent[..KEEP] else recent);
      assert sink == Record(was, req, resp);
      RecordedOnce(was, req, resp);
    }

    /** `run`: one decision under the caller's settings, one accounting record. `answer` is what providers
        say this time, to the question with its narrowed limits. */
    method Run(req: Request, tenant: Option<TenantSettings>, budget: CallBudget?, answer: Question -> Completion)
      returns (resp: Response)
      modifies this, budget
      ensures Step(View(budget), resp)
        == RunOp(world, config, Posed(world, config, req, tenant, answer), old(View(budget)))
      // a provider that is reached is asked within the limits of the request and of the caller's settings
      ensures served == old(served) + (if put.Some? then 1 else 0)
      ensures put.Some? ==>
        && WithinLimits(EffectiveFor(world, config, if tenant.Some? then tenant.value else SHARED), req,
                        put.value.provider, put.value)
        && Posed(world, config, req, tenant, answer).done == answer(put.value)
    {
      ghost var c := Posed(world, config, req, tenant, answer);
      var cfg := EffectiveFor(world, config, if tenant.Some? then tenant.value else SHARED);
      PosedAsks(world, config, req, tenant, answer);
      resp := DecideOne(req, cfg, budget, answer, c);
      ghost var step := Step(View(budget), resp);
      RunRecords(world, config, c, old(View(budget)), step);
      Finish(req, resp);
    }

    /** The rules, then cache, budget and provider. */
    method DecideOne(req: Request, cfg: Effective, budget: CallBudget?, answer: Question -> Completion, ghost c: Call)
      returns (resp: Response)
      requires c.req == req && c.budget == Some(0) && cfg == ConfigOf(world, config, c)
      requires var ruling := Rules(world, cfg, req);
        ruling.Go? ==> c.done == answer(Questioned(cfg, req, ruling.provider))
      modifies this, budget
      ensures Step(View(budget), resp) == Decide(world, config, c, old(View(budget)))
      ensures served == old(served) + (if put.Some? then 1 else 0)
      ensures put.Some? ==> WithinLimits(cfg, req, put.value.provider, put.value) && c.done == answer(put.value)
    {
      put := None;
      var ruling := Rules(world, cfg, req);
      if ruling.Stop? {
        return ruling.resp;
      }
      resp := ServeOne(req, cfg, budget, ruling.provider, answer, c);
    }

    /** Cache, budget, provider. */
    method ServeOne(req: Request, cfg: Effective, budget: CallBudget?, p: Provider,
                    answer: Question -> Completion, ghost c: Call)
      returns (resp: Response)
      requires c.req == req && c.budget == Some(0) && c.done == answer(Questioned(cfg, req, p)) && put == None
      modifies this, budget
      ensures Step(View(budget), resp) == Serve(world, cfg, c, p, old(View(budget)))
      ensures served == old(served) + (if put.Some? then 1 else 0)
      ensures put.Some? ==> WithinLimits(cfg, req, p, put.value) && c.done == answer(put.value)
    {
      ghost var before := View(budget);
      var recalled := Recall(req, cfg, p);
      if recalled.Some? {
        return recalled.value;
      }
      if budget != null {
        var granted := budget.TakeOne(req.operation);
        assert View(budget).budgets == before.budgets[0 := budget.b];
        if !granted {
          return Response(BudgetExhausted, None, p.name, p.model, false);
        }
      }
      ghost var st := View(budget);
      resp := Ask(req, cfg, p, answer, c, st.budgets);
      assert View(budget) == State(cache, st.budgets, sink, served);
    }

    method Recall(req: Request, cfg: Effective, p: Provider) returns (recalled: Option<Response>)
      modifies this`hits, this`misses
      ensures recalled == Recalled(world, cfg, req, p, cache)
    {
      if !(cfg.cacheEnabled && req.cache) { return None; }
      var entry := Get(CacheKey(req, p));
      if entry.None? { return None; }
      var parsed := world.validate(Parsed(entry.value.output), req.schema);
      if parsed.None? { return None; }
      return Some(Response(Ok, parsed, p.name, Or(entry.value.model, p.model), true));
    }

    /** The provider call, validation and the write to the cache. */
    method Ask(req: Request, cfg: Effective, p: Provider, answer: Question -> Completion,
               ghost c: Call, ghost b: map<nat, Budget>)
      returns (resp: Response)
      requires c.req == req && c.done == answer(Questioned(cfg, req, p))
      modifies this`cache, this`writes, this`served, this`put
      ensures Step(State(cache, b, sink, served), resp)
        == Fetch(world, cfg, c, p, State(old(cache), b, sink, old(served)))
      ensures served == old(served) + 1
      ensures put.Some? && WithinLimits(cfg, req, p, put.value) && c.done == answer(put.value)
    {
      served := served + 1;
      resp := Complete(req, cfg, p, answer);
      if resp.status.Ok? && cfg.cacheEnabled && req.cache {
        cache := cache[CacheKey(req, p) := Entry(resp.output.value, resp.model)];
        writes := writes + 1;
      }
    }

    method Complete(req: Request, cfg: Effective, p: Provider, answer: Question -> Completion)
      returns (resp: Response)
      modifies this`put
      ensures put == Some(Questioned(cfg, req, p)) && WithinLimits(cfg, req, p, put.value)
      ensures resp == Judge(world, req, p, answer(put.value))
    {
      var timeout := cfg.timeout;
      if req.timeout.Some? && req.timeout.value != 0 {
        timeout := Min(req.timeout.value, cfg.timeout);
      }
      var tokens := cfg.maxTokens;
      if req.maxTokens.Some? && req.maxTokens.value != 0 {
        tokens := Min(req.maxTokens.value, cfg.maxTokens);
      }
      var question := Question(p, req.prompt, req.schema.Some?, timeout, tokens);
      assert question == Questioned(cfg, req, p);
      QuestionIsNarrowed(cfg, req, p);
      put := Some(question);
      var done := answer(question);
      if done.TimedOut? { return Response(Timeout, None, p.name, p.model, false); }
      if done.Broke? { return Response(Error, None, p.name, p.model, false); }
      var parsed := world.validate(Text(done.text), req.schema);
      if parsed.None? { return Response(Malformed, None, p.name, Or(done.model, p.model), false); }
      return Response(Ok, parsed, p.name, Or(done.model, p.model), false);
    }
  }
}

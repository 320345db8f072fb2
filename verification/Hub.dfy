/** The hub as a state machine: node records, audit queue, graph and key-value store,
    and what each endpoint handler does to them. */
module Hub {
  import opened Common
  import opened Timestamps
  import opened Schemas
  import opened PreAudit
  import opened Graph
  import opened Pull
  import opened Abuse

  // ---- State -------------------------------------------------------------

  datatype Handshake = Pending | Accepted | Rejected

  /** A federation node. `apiKey` is the key whose hash the record holds. */
  datatype Node = Node(
    status: Handshake, apiKey: Option<string>, blocked: bool,
    totalPushes: nat, triplesAccepted: nat, triplesRejected: nat,
    lastPush: Option<Instant>, lastPull: Option<Instant>)

  const NEW_NODE: Node := Node(Pending, None, false, 0, 0, 0, None, None)

  datatype Review = InReview | Approved | Refused

  datatype Entry = Entry(origin: string, bundle: Bundle, status: Review, committedAt: Option<Instant>)

  datatype State = State(nodes: map<string, Node>, queue: map<string, Entry>, graph: Store, kv: KV)

  const INITIAL: State := State(map[], map[], EMPTY, map[])

  // ---- Replies -----------------------------------------------------------

  datatype Reply =
    | Unauthorized | Forbidden | Unprocessable | TooManyRequests | BadRequest | NotFound | ServerError
    | PushRejected(rejected: nat)
    | PushQueued(queued: nat, id: string)
    | PullAnswer(bundle: Bundle, total: nat, hasMore: bool)
    | HandshakePending | AlreadyConnected
    | NodeAccepted(apiKey: string) | NodeRejected | NodeBlocked | NodeUnblocked
    | EntryApproved(stats: Stats) | EntryRefused

  // ---- Authentication ----------------------------------------------------

  datatype Caller = NoSuchKey | BlockedNode | Caller(node: string)

  /** The record a key opens: its hash is stored and the handshake is accepted. */
  predicate HoldsKey(nodes: map<string, Node>, key: string, n: string)
  {
    n in nodes && nodes[n].apiKey == Some(key) && nodes[n].status == Accepted
  }

  ghost function Authenticate(nodes: map<string, Node>, apiKey: Option<string>): (c: Caller)
    ensures c.Caller? ==> apiKey.Some? && HoldsKey(nodes, apiKey.value, c.node) && !nodes[c.node].blocked
  {
    if apiKey.None? || apiKey.value == "" then NoSuchKey
    else if exists n :: HoldsKey(nodes, apiKey.value, n) then
      var n :| HoldsKey(nodes, apiKey.value, n);
      if nodes[n].blocked then BlockedNode else Caller(n)
    else NoSuchKey
  }

  function Refusal(c: Caller): Reply
    requires !c.Caller?
  {
    if c.NoSuchKey? then Unauthorized else Forbidden
  }

  // ---- Record updates ----------------------------------------------------

  function SetBlocked(nodes: map<string, Node>, n: string, blocked: bool): map<string, Node>
  {
    if n in nodes then nodes[n := nodes[n].(blocked := blocked)] else nodes
  }

  /** `increment_node_push_stats`, which also runs on approval. */
  function Credited(nodes: map<string, Node>, n: string, accepted: nat, rejected: nat, now: Instant): map<string, Node>
  {
    if n in nodes then
      nodes[n := nodes[n].(
        totalPushes := nodes[n].totalPushes + 1,
        triplesAccepted := nodes[n].triplesAccepted + accepted,
        triplesRejected := nodes[n].triplesRejected + rejected,
        lastPush := Some(now))]
    else nodes
  }

  // ---- Handlers ----------------------------------------------------------

  /** A push of an authenticated node: rate check, audit, then strike or queue. */
  function PushFrom(rules: RuleSet, st: State, n: string, b: Bundle, id: string, now: Instant): (State, Reply)
  {
    var t := Micros(now);
    var (kv, admitted) := RateChecked(st.kv, n, t);
    if !admitted then (st.(kv := kv), TooManyRequests)
    else if !Passes(rules, b) then
      var struck := StrikeRecorded(kv, n, Security, t);
      (st.(kv := struck, nodes := if MustBlock(struck, n, t) then SetBlocked(st.nodes, n, true) else st.nodes),
       PushRejected(|b.relations| + |b.entities|))
    else
      (st.(kv := kv, queue := st.queue[id := Entry(n, b, InReview, None)], nodes := Credited(st.nodes, n, 0, 0, now)),
       PushQueued(|b.relations| + |b.entities|, id))
  }

  ghost function PushEffect(
    rules: RuleSet, st: State, apiKey: Option<string>, b: Bundle, id: string, now: Instant): (State, Reply)
  {
    var c := Authenticate(st.nodes, apiKey);
    if !c.Caller? then (st, Refusal(c))
    else if !SchemaOk(b) then (st, Unprocessable)
    else PushFrom(rules, st, c.node, b, id, now)
  }

  predicate KnownDomains(domains: seq<string>)
  {
    forall d :: d in domains ==> d in KNOWLEDGE_DOMAINS
  }

  const MAX_PULL: int := 10000

  /** The limit a pull runs with. */
  function PullLimit(limit: int): int
  {
    if limit < MAX_PULL then limit else MAX_PULL
  }

  /** The pull is authenticated, names known domains and has a limit the query accepts. */
  ghost predicate PullAnswers(st: State, apiKey: Option<string>, domains: seq<string>, limit: int)
  {
    Authenticate(st.nodes, apiKey).Caller? && KnownDomains(domains) && limit >= 0
  }

  /** The pull handler only writes `last_pull_at`, and only when the query succeeded. */
  ghost function PullEffect(st: State, apiKey: Option<string>, domains: seq<string>, limit: int, now: Instant): State
  {
    var c := Authenticate(st.nodes, apiKey);
    if PullAnswers(st, apiKey, domains, limit)
    then st.(nodes := st.nodes[c.node := st.nodes[c.node].(lastPull := Some(now))])
    else st
  }

  /** The reply to a pull: the rows of its two queries in a bundle of this hub, or an error
      when that bundle does not fit the response schema. Rows that are not in the graph
      are no answer either; a well-shaped graph never gives any. */
  ghost function PullReply(
    hubId: string, st: State, apiKey: Option<string>, domains: seq<string>, limit: int,
    page: seq<string>, keys: seq<RelKey>): Reply
  {
    var c := Authenticate(st.nodes, apiKey);
    if !c.Caller? then Refusal(c)
    else if !KnownDomains(domains) then BadRequest
    else if limit < 0 || !JoinEndpointsExist(st.graph, page, keys) then ServerError
    else
      var p := AnswerOf(st.graph, page, keys, PullLimit(limit));
      if SchemaOk(BundleOf(hubId, p)) then PullAnswer(BundleOf(hubId, p), p.total, p.hasMore) else ServerError
  }

  /** A rejected node's id is taken, so inserting it again violates the unique column. */
  function HandshakeEffect(st: State, n: string): (State, Reply)
  {
    if n !in st.nodes then (st.(nodes := st.nodes[n := NEW_NODE]), HandshakePending)
    else match st.nodes[n].status
      case Accepted => (st, AlreadyConnected)
      case Pending => (st, HandshakePending)
      case Rejected => (st, ServerError)
  }

  function AcceptEffect(st: State, n: string, key: string): (State, Reply)
  {
    if n !in st.nodes then (st, NotFound)
    else if st.nodes[n].status != Pending then (st, BadRequest)
    else (st.(nodes := st.nodes[n := st.nodes[n].(status := Accepted, apiKey := Some(key))]), NodeAccepted(key))
  }

  /** Any handshake can be rejected, also one accepted long ago. */
  function RejectNodeEffect(st: State, n: string): (State, Reply)
  {
    if n !in st.nodes then (st, NotFound)
    else (st.(nodes := st.nodes[n := st.nodes[n].(status := Rejected)]), NodeRejected)
  }

  function BlockEffect(st: State, n: string): (State, Reply)
  {
    (st.(nodes := SetBlocked(st.nodes, n, true)), NodeBlocked)
  }

  function UnblockEffect(st: State, n: string): (State, Reply)
  {
    (st.(nodes := SetBlocked(st.nodes, n, false), kv := StrikesCleared(st.kv, n)), NodeUnblocked)
  }

  /** The statements an approval performs; none unless the entry is in review. */
  function ApprovalWrites(rules: RuleSet, st: State, id: string, failure: Option<nat>, now: Instant): seq<Write>
  {
    if id in st.queue && st.queue[id].status == InReview
    then Writes(Performed(rules, st.queue[id].bundle, failure), st.queue[id].origin, Iso(now))
    else []
  }

  /** Commit first; mark and credit only when the commit went through. */
  function ApproveEffect(rules: RuleSet, st: State, id: string, failure: Option<nat>, now: Instant): (State, Reply)
  {
    if id !in st.queue then (st, NotFound)
    else if st.queue[id].status != InReview then (st, BadRequest)
    else
      var e := st.queue[id];
      var ws := ApprovalWrites(rules, st, id, failure, now);
      var committed := st.(graph := ApplyAll(st.graph, ws));
      if failure.Some? then (committed, ServerError)
      else
        var stats := Counters(st.graph, ws);
        (committed.(
           queue := st.queue[id := e.(status := Approved, committedAt := Some(now))],
           nodes := Credited(st.nodes, e.origin, stats.entitiesCreated + stats.relationsCreated, 0, now)),
         EntryApproved(stats))
  }

  function RefuseEffect(st: State, id: string): (State, Reply)
  {
    if id in st.queue && st.queue[id].status == InReview
    then (st.(queue := st.queue[id := st.queue[id].(status := Refused)]), EntryRefused)
    else (st, NotFound)
  }

  // ---- Runs --------------------------------------------------------------

  datatype Call =
    | RequestHandshake(n: string)
    | AcceptNode(n: string, key: string)
    | RejectNode(n: string)
    | BlockNode(n: string)
    | UnblockNode(n: string)
    | PushBundle(apiKey: Option<string>, b: Bundle, id: string)
    | PullKnowledge(apiKey: Option<string>, since: Option<Instant>, domains: seq<string>, limit: int,
                    page: seq<string>, keys: seq<RelKey>)
    | ApproveEntry(id: string, failure: Option<nat>)
    | RefuseEntry(id: string)

  /** A request and the time it is handled. */
  datatype Step = Step(now: Instant, call: Call)

  ghost function Next(rules: RuleSet, st: State, s: Step): State
  {
    match s.call
    case RequestHandshake(n) => HandshakeEffect(st, n).0
    case AcceptNode(n, key) => AcceptEffect(st, n, key).0
    case RejectNode(n) => RejectNodeEffect(st, n).0
    case BlockNode(n) => BlockEffect(st, n).0
    case UnblockNode(n) => UnblockEffect(st, n).0
    case PushBundle(apiKey, b, id) => PushEffect(rules, st, apiKey, b, id, s.now).0
    case PullKnowledge(apiKey, _, domains, limit, _, _) => PullEffect(st, apiKey, domains, limit, s.now)
    case ApproveEntry(id, failure) => ApproveEffect(rules, st, id, failure, s.now).0
    case RefuseEntry(id) => RefuseEffect(st, id).0
  }

  /** Time does not go back, new entry ids and new API keys are fresh, and the database
      answers a pull's queries as the graph says. */
  ghost predicate Enabled(st: State, clock: Instant, s: Step)
  {
    && Micros(clock) <= Micros(s.now)
    && (s.call.PushBundle? ==> s.call.id !in st.queue)
    && (s.call.AcceptNode? ==>
          s.call.key != "" && forall n :: n in st.nodes ==> st.nodes[n].apiKey != Some(s.call.key))
    && (s.call.PullKnowledge? && PullAnswers(st, s.call.apiKey, s.call.domains, s.call.limit) ==>
          && IsPage(st.graph, CursorString(s.call.since), s.call.domains, PullLimit(s.call.limit), s.call.page)
          && IsJoin(st.graph, s.call.page, s.call.keys))
  }

  ghost predicate ValidRun(rules: RuleSet, st: State, clock: Instant, steps: seq<Step>)
    decreases |steps|
  {
    steps != [] ==>
      && Enabled(st, clock, steps[0])
      && ValidRun(rules, Next(rules, st, steps[0]), steps[0].now, steps[1..])
  }

  ghost function Run(rules: RuleSet, st: State, steps: seq<Step>): State
    decreases |steps|
  {
    if steps == [] then st else Run(rules, Next(rules, st, steps[0]), steps[1..])
  }

  function LastTime(clock: Instant, steps: seq<Step>): Instant
  {
    if steps == [] then clock else steps[|steps| - 1].now
  }
}

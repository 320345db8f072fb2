/** What every endpoint answers and does, in every reachable state, over the records, the
    key-value store and the request as they are. */
module Endpoints {
  import opened Common
  import opened Timestamps
  import opened Schemas
  import opened PreAudit
  import opened Graph
  import opened GraphTheory
  import opened Pull
  import opened Abuse
  import opened Hub
  import opened HubInvariants
  import opened AbuseRuns
  import opened ClientRuns
  import opened Lifecycle

  /** The reply to a request, in a given state of the hub with this id. */
  ghost function ReplyOf(rules: RuleSet, hubId: string, st: State, s: Step): Reply
  {
    match s.call
    case RequestHandshake(n) => HandshakeEffect(st, n).1
    case AcceptNode(n, key) => AcceptEffect(st, n, key).1
    case RejectNode(n) => RejectNodeEffect(st, n).1
    case BlockNode(n) => BlockEffect(st, n).1
    case UnblockNode(n) => UnblockEffect(st, n).1
    case PushBundle(apiKey, b, id) => PushEffect(rules, st, apiKey, b, id, s.now).1
    case PullKnowledge(_, _, _, _, _, _) => ReplyTo(hubId, st, s)
    case ApproveEntry(id, failure) => ApproveEffect(rules, st, id, failure, s.now).1
    case RefuseEntry(id) => RefuseEffect(st, id).1
  }

  // ---- The guard ---------------------------------------------------------

  /** The node is accepted and its record holds this key, which is not empty. */
  predicate Holder(nodes: map<string, Node>, apiKey: Option<string>, n: string)
  {
    && apiKey.Some? && |apiKey.value| > 0
    && n in nodes && nodes[n].status == Accepted && nodes[n].apiKey == apiKey
  }

  lemma HolderIsCaller(nodes: map<string, Node>, apiKey: Option<string>)
    requires KeysOk(nodes)
    ensures Authenticate(nodes, apiKey) == NoSuchKey <==> forall n :: !Holder(nodes, apiKey, n)
    ensures Authenticate(nodes, apiKey) == BlockedNode <==> exists n :: Holder(nodes, apiKey, n) && nodes[n].blocked
    ensures forall n :: Authenticate(nodes, apiKey) == Caller(n) <==> Holder(nodes, apiKey, n) && !nodes[n].blocked
  {
    if apiKey.Some? {
      forall n ensures Holder(nodes, apiKey, n) <==> apiKey.value != "" && HoldsKey(nodes, apiKey.value, n) {
      }
      if n :| Holder(nodes, apiKey, n) {
        assert HoldsKey(nodes, apiKey.value, n);
        forall m | HoldsKey(nodes, apiKey.value, m) ensures m == n {
        }
      }
    }
  }

  ghost predicate GuardHolds(nodes: map<string, Node>, apiKey: Option<string>, reply: Reply)
  {
    && (reply == Forbidden <==> exists n :: Holder(nodes, apiKey, n) && nodes[n].blocked)
    && (reply == Unauthorized <==> forall n :: !Holder(nodes, apiKey, n))
  }

  lemma GuardOf(rules: RuleSet, hubId: string, st: State, clock: Instant, s: Step)
    requires Inv(rules, st, clock) && (s.call.PushBundle? || s.call.PullKnowledge?)
    ensures GuardHolds(st.nodes, s.call.apiKey, ReplyOf(rules, hubId, st, s))
    ensures (forall n :: Holder(st.nodes, s.call.apiKey, n) ==> st.nodes[n].blocked) ==> Next(rules, st, s) == st
  {
    hide Inv, Authenticate, SchemaOk, KnownDomains, PushFrom, AnswerOf, BundleOf, Holder, JoinEndpointsExist;
    KeysOf(rules, st, clock);
    HolderIsCaller(st.nodes, s.call.apiKey);
    if s.call.PushBundle? {
      PushFromReplies(rules, st, Authenticate(st.nodes, s.call.apiKey), s.call.b, s.call.id, s.now);
    }
  }

  lemma PushFromReplies(rules: RuleSet, st: State, c: Caller, b: Bundle, id: string, now: Instant)
    ensures c.Caller? ==> PushFrom(rules, st, c.node, b, id, now).1 !in {Forbidden, Unauthorized, Unprocessable}
  {
    hide RateChecked, Passes, StrikeRecorded, MustBlock, Micros;
  }

  /** In every reachable state a push or a pull is answered 403 exactly when its key is that
      of a blocked accepted node, and 401 exactly when it has no key, an empty one, or one
      no accepted node holds; so neither for the holder of a key that is not blocked. */
  lemma ReachableGuard(rules: RuleSet, hubId: string, clock: Instant, steps: seq<Step>, i: nat)
    requires ValidRun(rules, INITIAL, clock, steps) && i < |steps|
    requires steps[i].call.PushBundle? || steps[i].call.PullKnowledge?
    ensures
      var nodes, apiKey := StateAt(rules, steps, i).nodes, steps[i].call.apiKey;
      var reply := ReplyOf(rules, hubId, StateAt(rules, steps, i), steps[i]);
      && (reply == Forbidden <==> exists n :: Holder(nodes, apiKey, n) && nodes[n].blocked)
      && (reply == Unauthorized <==> forall n :: !Holder(nodes, apiKey, n))
      && forall n :: Holder(nodes, apiKey, n) && !nodes[n].blocked ==> reply !in {Forbidden, Unauthorized}
  {
    hide Inv, ValidRun, Run, StateAt, ReplyOf;
    PositionIsSound(rules, clock, steps, i);
    var st := StateAt(rules, steps, i);
    GuardOf(rules, hubId, st, LastTime(clock, steps[..i]), steps[i]);
    OneHolder(rules, st, LastTime(clock, steps[..i]), steps[i].call.apiKey);
  }

  lemma OneHolder(rules: RuleSet, st: State, clock: Instant, apiKey: Option<string>)
    requires Inv(rules, st, clock)
    ensures forall m, n :: Holder(st.nodes, apiKey, m) && Holder(st.nodes, apiKey, n) ==> m == n
  {
    hide QueueOk, GraphOk, ApprovedOk, SoundStore, StrikesOk, StatsOk, Micros;
  }

  // ---- Administration of nodes -------------------------------------------

  /** Nothing but the record of n and the strikes of n has changed. */
  ghost predicate OnlyNode(st: State, st': State, n: string)
  {
    && st'.queue == st.queue && st'.graph == st.graph
    && (forall m :: m != n ==> Lookup(st'.nodes, m) == Lookup(st.nodes, m))
    && (forall k: Key :: !(k.StrikeKey? && k.node == n) ==>
          Lookup(st'.kv, k) == Lookup(st.kv, k))
  }

  /** A handshake request registers an unknown node as pending and changes nothing else; it
      tells a pending node so, an accepted one that it is connected, and fails for a
      rejected one. */
  lemma HandshakeMeans(rules: RuleSet, hubId: string, st: State, s: Step)
    requires s.call.RequestHandshake?
    ensures
      var n, st', reply := s.call.n, Next(rules, st, s), ReplyOf(rules, hubId, st, s);
      && OnlyNode(st, st', n) && st'.kv == st.kv && n in st'.nodes
      && (n in st.nodes ==> st' == st)
      && (n !in st.nodes ==> st'.nodes[n] == Node(Pending, None, false, 0, 0, 0, None, None))
      && (reply == HandshakePending <==> n !in st.nodes || st.nodes[n].status == Pending)
      && (reply == AlreadyConnected <==> n in st.nodes && st.nodes[n].status == Accepted)
      && (reply == ServerError <==> n in st.nodes && st.nodes[n].status == Rejected)
  {
  }

  /** Accepting hands out a key exactly when the node was pending, and from then on that key
      is this node's and nobody else's: it is a holder of it, and of no other key. */
  lemma AcceptMeans(rules: RuleSet, hubId: string, st: State, clock: Instant, s: Step)
    requires Inv(rules, st, clock) && Enabled(st, clock, s) && s.call.AcceptNode?
    ensures
      var n, st', reply := s.call.n, Next(rules, st, s), ReplyOf(rules, hubId, st, s);
      && OnlyNode(st, st', n) && st'.kv == st.kv
      && (reply == NotFound <==> n !in st.nodes)
      && (reply == BadRequest <==> n in st.nodes && st.nodes[n].status != Pending)
      && (reply.NodeAccepted? <==> n in st.nodes && st.nodes[n].status == Pending)
      && (!reply.NodeAccepted? ==> st' == st)
      && (reply.NodeAccepted? ==>
            && (forall m :: Holder(st'.nodes, Some(reply.apiKey), m) <==> m == n)
            && st'.nodes[n].blocked == st.nodes[n].blocked)
  {
    hide QueueOk, GraphOk, ApprovedOk, SoundStore, StrikesOk, StatsOk, Micros;
  }

  /** Rejecting puts a known node out, whatever its handshake was. */
  lemma RejectMeans(rules: RuleSet, hubId: string, st: State, s: Step)
    requires s.call.RejectNode?
    ensures
      var n, st', reply := s.call.n, Next(rules, st, s), ReplyOf(rules, hubId, st, s);
      && OnlyNode(st, st', n) && st'.kv == st.kv
      && (reply == NotFound <==> n !in st.nodes) && (reply == NodeRejected <==> n in st.nodes)
      && (n !in st.nodes ==> st' == st)
      && st'.nodes.Keys == st.nodes.Keys
      && (n in st.nodes ==> st'.nodes[n] == st.nodes[n].(status := Rejected))
  {
  }

  /** Blocking sets the flag of a known node and nothing else. */
  lemma BlockMeans(rules: RuleSet, hubId: string, st: State, s: Step)
    requires s.call.BlockNode?
    ensures
      var n, st' := s.call.n, Next(rules, st, s);
      && ReplyOf(rules, hubId, st, s) == NodeBlocked
      && OnlyNode(st, st', n) && st'.kv == st.kv && st'.nodes.Keys == st.nodes.Keys
      && (n in st.nodes ==> st'.nodes[n].blocked && st'.nodes[n].(blocked := st.nodes[n].blocked) == st.nodes[n])
  {
  }

  /** Unblocking clears the flag of a known node and all three of its strike counters, at
      any time; its key works again if it is accepted, and its rate key is left running. */
  lemma UnblockMeans(rules: RuleSet, hubId: string, st: State, s: Step, c: Category, t: int)
    requires s.call.UnblockNode?
    ensures
      var n, st' := s.call.n, Next(rules, st, s);
      && ReplyOf(rules, hubId, st, s) == NodeUnblocked
      && OnlyNode(st, st', n) && st'.nodes.Keys == st.nodes.Keys
      && StrikeKey(n, c) !in st'.kv && Strikes(st'.kv, n, c, t) == 0
      && (n in st.nodes ==> !st'.nodes[n].blocked && st'.nodes[n].(blocked := st.nodes[n].blocked) == st.nodes[n])
      && forall apiKey :: Holder(st.nodes, apiKey, n) ==> Holder(st'.nodes, apiKey, n)
  {
    match c case Syntax => case Security => case General =>
  }

  // ---- Out over runs -----------------------------------------------------

  /** The step is a push or a pull with a key the record of n holds. */
  predicate RequestBy(st: State, s: Step, n: string)
  {
    && (s.call.PushBundle? || s.call.PullKnowledge?) && s.call.apiKey.Some?
    && n in st.nodes && st.nodes[n].apiKey == s.call.apiKey
  }

  /** The request changed nothing and was refused. */
  ghost predicate TurnedAway(rules: RuleSet, hubId: string, st: State, s: Step)
  {
    Next(rules, st, s) == st && ReplyOf(rules, hubId, st, s) in {Unauthorized, Forbidden}
  }

  lemma OutIsTurnedAway(rules: RuleSet, hubId: string, st: State, clock: Instant, s: Step, n: string)
    requires Inv(rules, st, clock) && RequestBy(st, s, n)
    requires st.nodes[n].blocked || st.nodes[n].status == Rejected
    ensures TurnedAway(rules, hubId, st, s)
  {
    hide Next, ReplyOf, QueueOk, GraphOk, ApprovedOk, SoundStore, StrikesOk, StatsOk, Micros;
    GuardOf(rules, hubId, st, clock, s);
    forall m | Holder(st.nodes, s.call.apiKey, m) ensures m == n {
    }
  }

  lemma {:induction false} BlockedUntilUnblocked(
    rules: RuleSet, st: State, clock: Instant, steps: seq<Step>, n: string)
    requires Inv(rules, st, clock) && ValidRun(rules, st, clock, steps) && IsBlocked(st.nodes, n)
    requires forall k :: 0 <= k < |steps| ==> steps[k].call != UnblockNode(n)
    ensures IsBlocked(Run(rules, st, steps).nodes, n)
    decreases |steps|
  {
    hide Inv, Next, Enabled, IsBlocked;
    if steps != [] {
      BlockFlagAfter(rules, st, steps[0], n);
      NextKeepsInv(rules, st, clock, steps[0]);
      BlockedUntilUnblocked(rules, Next(rules, st, steps[0]), steps[0].now, steps[1..], n);
    }
  }

  /** A block holds until an unblock: once a node is blocked, by an administrator or by its
      strikes, every push and pull with its key is turned away, in every later state up to
      the next unblock of it. */
  lemma BlockedStaysOut(
    rules: RuleSet, hubId: string, clock: Instant, steps: seq<Step>, i: nat, j: nat, n: string)
    requires ValidRun(rules, INITIAL, clock, steps) && i <= j < |steps|
    requires n in StateAt(rules, steps, i).nodes
    requires StateAt(rules, steps, i).nodes[n].blocked || (i < j && steps[i].call == BlockNode(n))
    requires forall k :: i <= k < j ==> steps[k].call != UnblockNode(n)
    ensures IsBlocked(StateAt(rules, steps, j).nodes, n)
    ensures RequestBy(StateAt(rules, steps, j), steps[j], n) ==>
      TurnedAway(rules, hubId, StateAt(rules, steps, j), steps[j])
  {
    hide Inv, ValidRun, Run, StateAt, TurnedAway, Next;
    BetweenPositions(rules, clock, steps, i, j);
    if StateAt(rules, steps, i).nodes[n].blocked {
      PositionIsSound(rules, clock, steps, i);
      BlockedUntilUnblocked(rules, StateAt(rules, steps, i), LastTime(clock, steps[..i]), steps[i..j], n);
    } else {
      BlockMeans(rules, hubId, StateAt(rules, steps, i), steps[i]);
      PositionIsSound(rules, clock, steps, i + 1);
      BetweenPositions(rules, clock, steps, i + 1, j);
      BlockedUntilUnblocked(rules, StateAt(rules, steps, i + 1), LastTime(clock, steps[..i + 1]), steps[i + 1..j], n);
    }
    PositionIsSound(rules, clock, steps, j);
    if RequestBy(StateAt(rules, steps, j), steps[j], n) {
      OutIsTurnedAway(rules, hubId, StateAt(rules, steps, j), LastTime(clock, steps[..j]), steps[j], n);
    }
  }

  /** Rejecting a handshake is final: from the next state on, every push and pull with the
      node's key is turned away. */
  lemma RejectionIsFinal(
    rules: RuleSet, hubId: string, clock: Instant, steps: seq<Step>, i: nat, j: nat, n: string)
    requires ValidRun(rules, INITIAL, clock, steps) && i < j < |steps|
    requires steps[i].call == RejectNode(n) && n in StateAt(rules, steps, i).nodes
    ensures n in StateAt(rules, steps, j).nodes && StateAt(rules, steps, j).nodes[n].status == Rejected
    ensures RequestBy(StateAt(rules, steps, j), steps[j], n) ==>
      TurnedAway(rules, hubId, StateAt(rules, steps, j), steps[j])
  {
    hide Inv, ValidRun, Run, StateAt, TurnedAway, Next;
    BetweenPositions(rules, clock, steps, i, i + 1);
    RejectMeans(rules, hubId, StateAt(rules, steps, i), steps[i]);
    HandshakeNeverGoesBack(rules, clock, steps, i + 1, j);
    assert NodeEvolves(StateAt(rules, steps, i + 1).nodes[n], StateAt(rules, steps, j).nodes[n]);
    PositionIsSound(rules, clock, steps, j);
    if RequestBy(StateAt(rules, steps, j), steps[j], n) {
      OutIsTurnedAway(rules, hubId, StateAt(rules, steps, j), LastTime(clock, steps[..j]), steps[j], n);
    }
  }

  /** Unblocking brings an accepted node back: a push or pull with its key right after is
      neither 401 nor 403, and no strike of any category is left against it. */
  lemma UnblockedIsBack(
    rules: RuleSet, hubId: string, clock: Instant, steps: seq<Step>, i: nat, n: string, c: Category)
    requires ValidRun(rules, INITIAL, clock, steps) && i + 1 < |steps| && steps[i].call == UnblockNode(n)
    requires RequestBy(StateAt(rules, steps, i + 1), steps[i + 1], n) && |steps[i + 1].call.apiKey.value| > 0
    requires StateAt(rules, steps, i + 1).nodes[n].status == Accepted
    ensures ReplyOf(rules, hubId, StateAt(rules, steps, i + 1), steps[i + 1]) !in {Unauthorized, Forbidden}
    ensures Strikes(StateAt(rules, steps, i + 1).kv, n, c, Micros(steps[i + 1].now)) == 0
  {
    hide Inv, ValidRun, Run, StateAt, Next, ReplyOf, Strikes, Micros;
    BetweenPositions(rules, clock, steps, i, i + 1);
    UnblockMeans(rules, hubId, StateAt(rules, steps, i), steps[i], c, Micros(steps[i + 1].now));
    ReachableGuard(rules, hubId, clock, steps, i + 1);
    assert Holder(StateAt(rules, steps, i + 1).nodes, steps[i + 1].call.apiKey, n);
  }

  // ---- Push --------------------------------------------------------------

  /** What the request schema takes: a short origin, at most 5000 entities and relations, and
      in every relation texts and types that are not too long and a confidence from 0 to 1. */
  predicate WithinSchema(b: Bundle)
  {
    && |b.origin| <= 64 && |b.entities| <= 5000 && |b.relations| <= 5000
    && forall i :: 0 <= i < |b.relations| ==>
         match b.relations[i]
         case Triple(subject, Some(subjectType), pred, obj, Some(objectType), confidence, domain) =>
           && |subject| <= 512 && |subjectType| <= 128 && |pred| <= 128 && |obj| <= 512 && |objectType| <= 128
           && 0.0 <= confidence && confidence <= 1.0 && |domain| <= 64
         case _ => false
  }

  lemma SchemaIs(b: Bundle)
    ensures SchemaOk(b) <==> WithinSchema(b)
  {
    if WithinSchema(b) {
      forall t | t in b.relations ensures TripleSchemaOk(t) {
        var i :| 0 <= i < |b.relations| && b.relations[i] == t;
      }
    }
    if SchemaOk(b) {
      assert forall i :: 0 <= i < |b.relations| ==> b.relations[i] in b.relations && TripleSchemaOk(b.relations[i]);
    }
  }

  /** What a push of n may leave: the rate key and the security strikes of n, the record of
      n, and an entry under the new id. */
  ghost predicate PushTouches(st: State, st': State, n: string, id: string)
  {
    && st'.graph == st.graph && st'.nodes.Keys == st.nodes.Keys
    && (forall m :: m != n ==> Lookup(st'.nodes, m) == Lookup(st.nodes, m))
    && (forall k :: k != RateKey(n) && k != StrikeKey(n, Security) ==> Lookup(st'.kv, k) == Lookup(st.kv, k))
    && (forall e :: e != id ==> Lookup(st'.queue, e) == Lookup(st.queue, e))
  }

  ghost predicate PushOutcome(rules: RuleSet, st: State, st': State, n: string, s: Step, reply: Reply)
    requires s.call.PushBundle? && n in st.nodes && n in st'.nodes
  {
    var b, id, t := s.call.b, s.call.id, Micros(s.now);
    var admitted, size := RateChecked(st.kv, n, t).1, |b.relations| + |b.entities|;
    var before, after := Strikes(st.kv, n, Security, t), Strikes(st'.kv, n, Security, t);
    && PushTouches(st, st', n, id)
    && reply == (if !WithinSchema(b) then Unprocessable
                 else if !admitted then TooManyRequests
                 else if !Acceptable(rules, b) then PushRejected(size)
                 else PushQueued(size, id))
    && (reply == Unprocessable ==> st' == st)
    && after == (if reply.PushRejected? then before + 1 else before)
    && Lookup(st'.queue, id) == (if reply.PushQueued? then Some(Entry(n, b, InReview, None)) else Lookup(st.queue, id))
    && st'.nodes[n] ==
         (if reply.PushQueued? then st.nodes[n].(totalPushes := st.nodes[n].totalPushes + 1, lastPush := Some(s.now))
          else if reply.PushRejected? && before == 3 then st.nodes[n].(blocked := true)
          else st.nodes[n])
  }

  lemma PushFromMeans(rules: RuleSet, st: State, clock: Instant, s: Step, n: string)
    requires Inv(rules, st, clock) && Enabled(st, clock, s) && s.call.PushBundle?
    requires n in st.nodes && !st.nodes[n].blocked && SchemaOk(s.call.b)
    ensures
      var (st', reply) := PushFrom(rules, st, n, s.call.b, s.call.id, s.now);
      n in st'.nodes && PushOutcome(rules, st, st', n, s, reply)
  {
    hide KeysOk, QueueOk, GraphOk, ApprovedOk, StatsOk, RateChecked, StrikeRecorded, MustBlock, SchemaOk, Passes,
      Acceptable, WithinSchema, Micros, Strikes;
    var t := Micros(s.now);
    var kv := RateChecked(st.kv, n, t).0;
    SchemaIs(s.call.b);
    PassesIsAcceptable(rules, s.call.b);
    AfterRateCheck(rules, st, clock, s, n);
    assert !IsBlocked(st.nodes, n);
    FourthStrikeBlocks(kv, n, t);
    RateCheckFrame(st.kv, n, t);
    StrikeRecordedFrame(kv, n, t);
  }

  lemma RateCheckFrame(kv: KV, n: string, t: int)
    ensures forall k :: k != RateKey(n) ==> Lookup(RateChecked(kv, n, t).0, k) == Lookup(kv, k)
  {
  }

  lemma StrikeRecordedFrame(kv: KV, n: string, t: int)
    ensures forall k :: k != StrikeKey(n, Security) ==>
      Lookup(StrikeRecorded(kv, n, Security, t), k) == Lookup(kv, k)
  {
  }

  /** A push of a holder that is not blocked, in every reachable state: 422 outside the
      schema, 429 when the rate check refuses, a rejection with the size of the bundle and
      a strike when the pre-audit does, and a block at three strikes; otherwise the bundle
      is queued under the holder's name and the push is counted. Nothing else changes. */
  lemma PushMeans(rules: RuleSet, hubId: string, clock: Instant, steps: seq<Step>, i: nat, n: string)
    requires ValidRun(rules, INITIAL, clock, steps) && i < |steps| && steps[i].call.PushBundle?
    requires Holder(StateAt(rules, steps, i).nodes, steps[i].call.apiKey, n)
    requires !StateAt(rules, steps, i).nodes[n].blocked
    ensures
      var st, st' := StateAt(rules, steps, i), StateAt(rules, steps, i + 1);
      n in st'.nodes && PushOutcome(rules, st, st', n, steps[i], ReplyOf(rules, hubId, st, steps[i]))
  {
    hide ValidRun, Run, StateAt, PushFrom, Authenticate, SchemaOk, WithinSchema, Acceptable, Strikes, RateChecked,
      Micros, QueueOk, GraphOk, ApprovedOk, SoundStore, StrikesOk, StatsOk;
    PositionIsSound(rules, clock, steps, i);
    BetweenPositions(rules, clock, steps, i, i + 1);
    var st := StateAt(rules, steps, i);
    HolderIsCaller(st.nodes, steps[i].call.apiKey);
    SchemaIs(steps[i].call.b);
    if SchemaOk(steps[i].call.b) {
      PushFromMeans(rules, st, LastTime(clock, steps[..i]), steps[i], n);
    }
  }

  // ---- Pull --------------------------------------------------------------

  /** A field of a pulled item: the text the graph has, or null for nothing. */
  predicate Shown(field: Field, value: Option<string>)
  {
    match value
    case None => field == Null
    case Some(text) => field == Text(text)
  }

  predicate ItemFor(b: Bundle, n: string)
  {
    exists i :: 0 <= i < |b.entities| && b.entities[i].name == Some(n)
  }

  /** The items of a pulled bundle are wanted entities of the graph with the type and domain
      it has for them, each once, oldest first and no more than the limit; a wanted entity
      that is missing is no older than any item and is missing only at the limit. */
  ghost predicate ItemsServe(g: Store, since: Option<string>, domains: seq<string>, limit: nat, b: Bundle)
  {
    && |b.entities| <= limit
    && (forall i :: 0 <= i < |b.entities| ==>
          var item := b.entities[i];
          && item.name.Some? && item.name.value in g.entities && item.description.Absent?
          && var e := g.entities[item.name.value];
             Shown(item.typ, e.typ) && Shown(item.domain, e.domain) && Wanted(since, domains, e.domain, e.approvedAt))
    && (forall i, j :: 0 <= i < j < |b.entities| ==>
          var m, n := b.entities[i].name.value, b.entities[j].name.value;
          m != n && StrLeq(g.entities[m].approvedAt, g.entities[n].approvedAt))
    && (forall n :: n in g.entities && Wanted(since, domains, g.entities[n].domain, g.entities[n].approvedAt) ==>
          || ItemFor(b, n)
          || (&& |b.entities| == limit
              && forall i :: 0 <= i < |b.entities| ==>
                   StrLeq(g.entities[b.entities[i].name.value].approvedAt, g.entities[n].approvedAt)))
  }

  function KeyOfTriple(t: Triple): RelKey
  {
    RelKey(t.subject, t.pred, t.obj)
  }

  /** Its relations are exactly those whose subject is an item, each once, as in the graph. */
  ghost predicate TriplesServe(g: Store, b: Bundle)
  {
    && (forall i :: 0 <= i < |b.relations| ==>
          var t := b.relations[i];
          && ItemFor(b, t.subject) && KeyOfTriple(t) in g.relations
          && t.confidence == g.relations[KeyOfTriple(t)].confidence && t.domain == g.relations[KeyOfTriple(t)].domain
          && t.subject in g.entities && t.subjectType == g.entities[t.subject].typ
          && t.obj in g.entities && t.objectType == g.entities[t.obj].typ)
    && (forall i, j :: 0 <= i < j < |b.relations| ==> KeyOfTriple(b.relations[i]) != KeyOfTriple(b.relations[j]))
    && (forall k :: k in g.relations && ItemFor(b, k.subject) ==>
          exists i :: 0 <= i < |b.relations| && KeyOfTriple(b.relations[i]) == k)
  }

  lemma ServedItems(g: Store, since: Option<string>, domains: seq<string>, limit: nat, hubId: string, p: Pulled)
    requires ServesEntities(g, since, domains, limit, p)
    ensures ItemsServe(g, since, domains, limit, BundleOf(hubId, p))
    ensures forall n :: ItemFor(BundleOf(hubId, p), n) <==> Lists(p, n)
  {
    hide StrLess, StrLeq, Wanted;
    var b := BundleOf(hubId, p);
    assert forall i :: 0 <= i < |p.entities| ==> b.entities[i] == ItemOf(p.entities[i]);
    forall n ensures ItemFor(b, n) <==> Lists(p, n) {
      assert forall i :: 0 <= i < |p.entities| ==> (p.entities[i].name == n <==> b.entities[i].name == Some(n));
    }
    assert forall i :: 0 <= i < |b.entities| ==>
      g.entities[b.entities[i].name.value].approvedAt == p.entities[i].approvedAt;
  }

  lemma ServedTriples(g: Store, hubId: string, p: Pulled)
    requires ServesRelations(g, p)
    requires forall n :: ItemFor(BundleOf(hubId, p), n) <==> Lists(p, n)
    ensures TriplesServe(g, BundleOf(hubId, p))
  {
    hide ItemFor, Lists;
    var b := BundleOf(hubId, p);
    assert forall i :: 0 <= i < |p.relations| ==>
      b.relations[i] == TripleOf(p.relations[i]) && KeyOfTriple(b.relations[i]) == KeyOf(p.relations[i]);
  }

  /** Every answered pull, in every reachable state, hands out what it was asked for: items
      of the requested domains stamped after the cursor, oldest first, all of them or as
      many as the limit of at most 10000 allows, the relations of those, and the right
      total and flag, in a bundle under the hub's own id. */
  lemma AnswerMeans(rules: RuleSet, hubId: string, clock: Instant, steps: seq<Step>, i: nat)
    requires ValidRun(rules, INITIAL, clock, steps) && i < |steps| && steps[i].call.PullKnowledge?
    requires ReplyOf(rules, hubId, StateAt(rules, steps, i), steps[i]).PullAnswer?
    ensures
      var g, call := StateAt(rules, steps, i).graph, steps[i].call;
      var reply := ReplyOf(rules, hubId, StateAt(rules, steps, i), steps[i]);
      var since := if call.since.Some? then Some(Iso(call.since.value)) else None;
      && 0 <= call.limit
      && var limit := if call.limit <= 10_000 then call.limit else 10_000;
      && reply.bundle.origin == hubId
      && ItemsServe(g, since, call.domains, limit, reply.bundle) && TriplesServe(g, reply.bundle)
      && reply.total == |reply.bundle.entities| + |reply.bundle.relations|
      && (reply.hasMore <==> |reply.bundle.entities| == limit)
  {
    hide ValidRun, Run, StateAt, Authenticate, KnownDomains, SchemaOk, Iso, Micros, IsPage, IsJoin, ServesEntities,
      ServesRelations, ItemsServe, TriplesServe, Answers;
    BetweenPositions(rules, clock, steps, i, i);
    var g, call, limit := StateAt(rules, steps, i).graph, steps[i].call, PullLimit(steps[i].call.limit);
    var since := CursorString(call.since);
    var p := AnswerOf(g, call.page, call.keys, limit);
    AnswerServes(g, since, call.domains, limit, call.page, call.keys, p);
    ServedItems(g, since, call.domains, limit, hubId, p);
    ServedTriples(g, hubId, p);
  }

  lemma KnownMeans(domains: seq<string>)
    ensures KnownDomains(domains) <==>
      forall j :: 0 <= j < |domains| ==> domains[j] in {
        "general", "code_reviewer", "technical_support", "creative_writer", "math", "science", "legal_advisor",
        "medical_consult", "reasoning", "data_analyst", "translation"}
  {
    var eleven := {
      "general", "code_reviewer", "technical_support", "creative_writer", "math", "science", "legal_advisor",
      "medical_consult", "reasoning", "data_analyst", "translation"};
    assert KNOWLEDGE_DOMAINS == eleven;
    if forall j :: 0 <= j < |domains| ==> domains[j] in eleven {
      forall d | d in domains ensures d in KNOWLEDGE_DOMAINS {
        var j :| 0 <= j < |domains| && domains[j] == d;
      }
    }
    if KnownDomains(domains) {
      assert forall j :: 0 <= j < |domains| ==> domains[j] in domains;
    }
  }

  /** The pull of a holder that is not blocked: 400 exactly when it names a domain that is
      none of the eleven, an error for a negative limit, and otherwise, whatever becomes of
      the response, the time of the pull is written on its record and nothing else is. */
  lemma PullMeans(rules: RuleSet, hubId: string, clock: Instant, steps: seq<Step>, i: nat, n: string)
    requires ValidRun(rules, INITIAL, clock, steps) && i < |steps| && steps[i].call.PullKnowledge?
    requires Holder(StateAt(rules, steps, i).nodes, steps[i].call.apiKey, n)
    requires !StateAt(rules, steps, i).nodes[n].blocked
    ensures
      var st, st', call := StateAt(rules, steps, i), StateAt(rules, steps, i + 1), steps[i].call;
      var reply := ReplyOf(rules, hubId, st, steps[i]);
      var known := forall j :: 0 <= j < |call.domains| ==> call.domains[j] in {
        "general", "code_reviewer", "technical_support", "creative_writer", "math", "science", "legal_advisor",
        "medical_consult", "reasoning", "data_analyst", "translation"};
      && (reply == BadRequest <==> !known)
      && (known && call.limit < 0 ==> reply == ServerError)
      && (reply == BadRequest || reply == ServerError || reply.PullAnswer?)
      && st' == if known && call.limit >= 0
                then st.(nodes := st.nodes[n := st.nodes[n].(lastPull := Some(steps[i].now))]) else st
  {
    hide ValidRun, Run, StateAt, Authenticate, SchemaOk, BundleOf, AnswerOf, Micros, QueueOk, GraphOk, ApprovedOk,
      SoundStore, StrikesOk, StatsOk, JoinEndpointsExist;
    PositionIsSound(rules, clock, steps, i);
    BetweenPositions(rules, clock, steps, i, i + 1);
    HolderIsCaller(StateAt(rules, steps, i).nodes, steps[i].call.apiKey);
    KnownMeans(steps[i].call.domains);
    hide KnownDomains;
  }

  // ---- Review ------------------------------------------------------------

  /** An approval answers 404 for an unknown entry and 400 for a reviewed one, changing
      nothing; 500 when the commit fails, leaving the first statements written; otherwise the entry is
      approved as of now, its bundle committed, and the counters of the commit, which are
      the numbers of statements with a new element, are reported and credited to its node. */
  lemma ApproveMeans(rules: RuleSet, hubId: string, st: State, clock: Instant, s: Step)
    requires Inv(rules, st, clock) && s.call.ApproveEntry?
    ensures
      var id, failure, st', reply := s.call.id, s.call.failure, Next(rules, st, s), ReplyOf(rules, hubId, st, s);
      && (reply == NotFound <==> id !in st.queue)
      && (reply == BadRequest <==> id in st.queue && st.queue[id].status != InReview)
      && (reply == ServerError <==> id in st.queue && st.queue[id].status == InReview && failure.Some?)
      && (reply.EntryApproved? <==> id in st.queue && st.queue[id].status == InReview && failure.None?)
      && st'.kv == st.kv
      && (reply in {NotFound, BadRequest} ==> st' == st)
      && (reply == ServerError ==>
            var e := st.queue[id];
            var stmts := BundleStmts(rules, e.bundle);
            var part := stmts[..if failure.value < |stmts| then failure.value else |stmts|];
            && st'.queue == st.queue && st'.nodes == st.nodes
            && st'.graph == ApplyAll(st.graph, Writes(part, e.origin, Iso(s.now))))
      && (reply.EntryApproved? ==>
            var e := st.queue[id];
            var ws := Writes(BundleStmts(rules, e.bundle), e.origin, Iso(s.now));
            && st'.queue == st.queue[id := Entry(e.origin, e.bundle, Approved, Some(s.now))]
            && st'.graph == ApplyAll(st.graph, ws)
            && (Unused(st.graph, Iso(s.now)) ==>
                  reply.stats == Stats(|NewNames(st.graph, ws)|, |NewKeys(st.graph, ws)|))
            && e.origin in st.nodes
            && var r := st.nodes[e.origin];
               st'.nodes == st.nodes[e.origin := r.(
                 totalPushes := r.totalPushes + 1,
                 triplesAccepted := r.triplesAccepted + reply.stats.entitiesCreated + reply.stats.relationsCreated,
                 lastPush := Some(s.now))])
  {
    hide KeysOk, GraphOk, ApprovedOk, SoundStore, StrikesOk, StatsOk, Micros, Iso, BundleStmts, Counters, ApplyAll,
      Passes, SchemaOk, NewNames, NewKeys, Unused;
    var id, failure := s.call.id, s.call.failure;
    if id in st.queue && failure.Some? {
      var stmts := BundleStmts(rules, st.queue[id].bundle);
      assert stmts[..if failure.value < |stmts| then failure.value else |stmts|] == Prefix(stmts, failure.value);
    }
    if id in st.queue && Unused(st.graph, Iso(s.now)) {
      var e := st.queue[id];
      FreshCounters(st.graph, Writes(BundleStmts(rules, e.bundle), e.origin, Iso(s.now)), Iso(s.now));
    }
  }

  /** Refusing an entry in review changes its status and nothing else; anything else is 404. */
  lemma RefuseMeans(rules: RuleSet, hubId: string, st: State, s: Step)
    requires s.call.RefuseEntry?
    ensures
      var id, st', reply := s.call.id, Next(rules, st, s), ReplyOf(rules, hubId, st, s);
      && (reply == EntryRefused <==> id in st.queue && st.queue[id].status == InReview)
      && reply in {EntryRefused, NotFound}
      && (reply == NotFound ==> st' == st)
      && (reply == EntryRefused ==>
            var e := st.queue[id];
            && st'.queue == st.queue[id := Entry(e.origin, e.bundle, Refused, e.committedAt)]
            && st'.nodes == st.nodes && st'.graph == st.graph && st'.kv == st.kv)
  {
  }
}

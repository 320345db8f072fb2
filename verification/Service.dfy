/**
 The endpoint handlers as they run, on database records, the graph and the key-value
 store, each proved to make exactly the step of the state machine.
 */
module Service {
  import opened Common
  import opened Timestamps
  import opened Schemas
  import opened PreAudit
  import opened Graph
  import opened GraphTheory
  import opened Pull
  import opened Abuse
  import opened Hub
  import opened HubInvariants

  // ---- Database records --------------------------------------------------

  class Database {
    var nodes: map<string, Node>
    var queue: map<string, Entry>

    constructor ()
      ensures nodes == map[] && queue == map[]
    {
      nodes, queue := map[], map[];
    }

    /** The node whose accepted record holds the key's hash; keys are unique. */
    method GetNodeByApiKey(key: string) returns (n: Option<string>)
      requires KeysOk(nodes)
      ensures n.Some? ==> HoldsKey(nodes, key, n.value)
      ensures n.None? ==> forall m :: !HoldsKey(nodes, key, m)
    {
      if m :| m in nodes && HoldsKey(nodes, key, m) {
        n := Some(m);
      } else {
        n := None;
      }
    }

    method CreateNode(n: string)
      requires n !in nodes
      modifies this
      ensures nodes == old(nodes)[n := NEW_NODE] && queue == old(queue)
    {
      nodes := nodes[n := NEW_NODE];
    }

    method AcceptHandshake(n: string, key: string)
      modifies this
      ensures queue == old(queue)
      ensures nodes == if n in old(nodes) && old(nodes)[n].status == Pending
        then old(nodes)[n := old(nodes)[n].(status := Accepted, apiKey := Some(key))] else old(nodes)
    {
      if n !in nodes || nodes[n].status != Pending {
        return;
      }
      nodes := nodes[n := nodes[n].(status := Accepted)];
      nodes := nodes[n := nodes[n].(apiKey := Some(key))];
    }

    method BlockNode(n: string)
      modifies this
      ensures nodes == SetBlocked(old(nodes), n, true) && queue == old(queue)
    {
      if n in nodes {
        nodes := nodes[n := nodes[n].(blocked := true)];
      }
    }

    method UnblockNode(n: string)
      modifies this
      ensures nodes == SetBlocked(old(nodes), n, false) && queue == old(queue)
    {
      if n in nodes {
        nodes := nodes[n := nodes[n].(blocked := false)];
      }
    }

    method IncrementNodePushStats(n: string, accepted: nat, rejected: nat, now: Instant)
      modifies this
      ensures nodes == Credited(old(nodes), n, accepted, rejected, now) && queue == old(queue)
    {
      if n in nodes {
        var r := nodes[n];
        r := r.(totalPushes := r.totalPushes + 1);
        r := r.(triplesAccepted := r.triplesAccepted + accepted);
        r := r.(triplesRejected := r.triplesRejected + rejected);
        nodes := nodes[n := r.(lastPush := Some(now))];
      }
    }

    method CreateAuditEntry(id: string, origin: string, b: Bundle)
      requires id !in queue
      modifies this
      ensures queue == old(queue)[id := Entry(origin, b, InReview, None)] && nodes == old(nodes)
    {
      queue := queue[id := Entry(origin, b, InReview, None)];
    }

    method ApproveAuditEntry(id: string, now: Instant) returns (done: bool)
      modifies this
      ensures nodes == old(nodes)
      ensures done <==> id in old(queue) && old(queue)[id].status == InReview
      ensures queue == if done
        then old(queue)[id := old(queue)[id].(status := Approved, committedAt := Some(now))] else old(queue)
    {
      if id !in queue || queue[id].status != InReview {
        return false;
      }
      var e := queue[id].(status := Approved);
      queue := queue[id := e.(committedAt := Some(now))];
      return true;
    }

    method RejectAuditEntry(id: string) returns (done: bool)
      modifies this
      ensures nodes == old(nodes)
      ensures done <==> id in old(queue) && old(queue)[id].status == InReview
      ensures queue == if done then old(queue)[id := old(queue)[id].(status := Refused)] else old(queue)
    {
      if id !in queue || queue[id].status != InReview {
        return false;
      }
      queue := queue[id := queue[id].(status := Refused)];
      return true;
    }
  }

  lemma KeyOpensOne(nodes: map<string, Node>, key: string, n: string)
    requires KeysOk(nodes) && HoldsKey(nodes, key, n) && key != ""
    ensures Authenticate(nodes, Some(key)) == if nodes[n].blocked then BlockedNode else Caller(n)
  {
  }

  // ---- Handlers ----------------------------------------------------------

  class HubService {
    const rules: Rules
    const hubId: string
    const db: Database
    const graph: GraphStore
    const valkey: Valkey

    constructor (rules: Rules, hubId: string, ghost clock: Instant)
      ensures this.rules == rules && this.hubId == hubId
      ensures fresh(db) && fresh(graph) && fresh(valkey)
      ensures Contents() == INITIAL && Valid(clock)
    {
      this.rules, this.hubId := rules, hubId;
      db := new Database();
      graph := new GraphStore();
      valkey := new Valkey();
      new;
      InitialInv(rules, clock);
    }

    ghost function Contents(): State
      reads this, db, graph, valkey
    {
      State(db.nodes, db.queue, graph.Contents(), valkey.data)
    }

    /** The invariants of every reachable state, at the present time. */
    ghost predicate Valid(clock: Instant)
      reads this, db, graph, valkey
    {
      Inv(rules, Contents(), clock)
    }

    /** `get_current_node`: 401 without a known key, 403 for a blocked node. */
    method GetCurrentNode(apiKey: Option<string>) returns (c: Caller)
      requires KeysOk(db.nodes)
      ensures c == Authenticate(db.nodes, apiKey)
    {
      if apiKey.None? || apiKey.value == "" {
        return NoSuchKey;
      }
      var n := db.GetNodeByApiKey(apiKey.value);
      if n.None? {
        return NoSuchKey;
      }
      KeyOpensOne(db.nodes, apiKey.value, n.value);
      if db.nodes[n.value].blocked {
        return BlockedNode;
      }
      return Caller(n.value);
    }

    /** The body of the push handler, for an authenticated node and a valid request. */
    method ReceiveBundle(n: string, b: Bundle, id: string, now: Instant) returns (reply: Reply)
      requires id !in db.queue
      modifies db, valkey
      ensures (Contents(), reply) == PushFrom(rules, old(Contents()), n, b, id, now)
    {
      hide Passes, RateChecked, StrikeRecorded, MustBlock, Credited, SetBlocked, Micros;
      var t := Micros(now);
      var admitted := CheckRateLimit(valkey, n, t);
      if !admitted {
        return TooManyRequests;
      }
      var result := RunPreAudit(rules, b);
      if !result.passed {
        var category := if !result.heuristicOk then Security else Category.Syntax;
        var strikes := RecordStrike(valkey, n, category, t);
        var block := ShouldBlock(valkey, n, t);
        if block {
          db.BlockNode(n);
        }
        return PushRejected(|b.relations| + |b.entities|);
      }
      db.CreateAuditEntry(id, n, b);
      db.IncrementNodePushStats(n, 0, 0, now);
      return PushQueued(|b.relations| + |b.entities|, id);
    }

    method PushKnowledge(apiKey: Option<string>, b: Bundle, id: string, now: Instant, ghost clock: Instant)
      returns (reply: Reply)
      requires Valid(clock) && Enabled(Contents(), clock, Step(now, PushBundle(apiKey, b, id)))
      modifies db, valkey
      ensures (Contents(), reply) == PushEffect(rules, old(Contents()), apiKey, b, id, now)
      ensures Valid(now)
    {
      hide Inv, PushFrom, SchemaOk, Authenticate;
      KeysOf(rules, Contents(), clock);
      NextKeepsInv(rules, Contents(), clock, Step(now, PushBundle(apiKey, b, id)));
      var c := GetCurrentNode(apiKey);
      if !c.Caller? {
        return Refusal(c);
      }
      if !SchemaOk(b) {
        return Unprocessable;
      }
      reply := ReceiveBundle(c.node, b, id, now);
    }

    /** A pull writes the time of the pull once its queries succeeded; the response is
        checked against the schema after that, so a failing response leaves the time set. */
    method PullKnowledgeSince(apiKey: Option<string>, since: Option<Instant>, domains: seq<string>, limit: int,
                              page: seq<string>, keys: seq<RelKey>, now: Instant, ghost clock: Instant)
      returns (reply: Reply)
      requires Valid(clock)
      requires Enabled(Contents(), clock, Step(now, PullKnowledge(apiKey, since, domains, limit, page, keys)))
      modifies db
      ensures Contents() == PullEffect(old(Contents()), apiKey, domains, limit, now)
      ensures Valid(now)
      ensures reply == PullReply(hubId, old(Contents()), apiKey, domains, limit, page, keys)
    {
      hide Inv, SchemaOk, BundleOf, Answers, IsPage, IsJoin, Authenticate, KnownDomains, Iso, Micros;
      KeysOf(rules, Contents(), clock);
      GraphOf(rules, Contents(), clock);
      NextKeepsInv(rules, Contents(), clock, Step(now, PullKnowledge(apiKey, since, domains, limit, page, keys)));
      ghost var g := graph.Contents();
      assert Shaped(g);
      var c := GetCurrentNode(apiKey);
      if !c.Caller? {
        return Refusal(c);
      }
      if !KnownDomains(domains) {
        return BadRequest;
      }
      var r := PullSince(graph, since, domains, PullLimit(limit), page, keys);
      if r.Err? {
        return ServerError;
      }
      db.nodes := db.nodes[c.node := db.nodes[c.node].(lastPull := Some(now))];
      var p := r.value;
      AnswerIsUnique(g, page, keys, PullLimit(limit), p);
      var bundle := BundleOf(hubId, p);
      if !SchemaOk(bundle) {
        return ServerError;
      }
      return PullAnswer(bundle, p.total, p.hasMore);
    }

    method RequestNodeHandshake(n: string, now: Instant, ghost clock: Instant) returns (reply: Reply)
      requires Valid(clock) && Enabled(Contents(), clock, Step(now, RequestHandshake(n)))
      modifies db
      ensures (Contents(), reply) == HandshakeEffect(old(Contents()), n)
      ensures Valid(now)
    {
      hide Inv;
      NextKeepsInv(rules, Contents(), clock, Step(now, RequestHandshake(n)));
      if n in db.nodes {
        if db.nodes[n].status == Accepted {
          return AlreadyConnected;
        }
        if db.nodes[n].status == Pending {
          return HandshakePending;
        }
        return ServerError;
      }
      db.CreateNode(n);
      return HandshakePending;
    }

    method AcceptNodeHandshake(n: string, key: string, now: Instant, ghost clock: Instant) returns (reply: Reply)
      requires Valid(clock) && Enabled(Contents(), clock, Step(now, AcceptNode(n, key)))
      modifies db
      ensures (Contents(), reply) == AcceptEffect(old(Contents()), n, key)
      ensures Valid(now)
    {
      hide Inv;
      NextKeepsInv(rules, Contents(), clock, Step(now, AcceptNode(n, key)));
      if n !in db.nodes {
        return NotFound;
      }
      if db.nodes[n].status != Pending {
        return BadRequest;
      }
      db.AcceptHandshake(n, key);
      return NodeAccepted(key);
    }

    method RejectNodeHandshake(n: string, now: Instant, ghost clock: Instant) returns (reply: Reply)
      requires Valid(clock) && Enabled(Contents(), clock, Step(now, RejectNode(n)))
      modifies db
      ensures (Contents(), reply) == RejectNodeEffect(old(Contents()), n)
      ensures Valid(now)
    {
      hide Inv;
      NextKeepsInv(rules, Contents(), clock, Step(now, RejectNode(n)));
      if n !in db.nodes {
        return NotFound;
      }
      db.nodes := db.nodes[n := db.nodes[n].(status := Rejected)];
      return NodeRejected;
    }

    method BlockByAdmin(n: string, now: Instant, ghost clock: Instant) returns (reply: Reply)
      requires Valid(clock) && Enabled(Contents(), clock, Step(now, BlockNode(n)))
      modifies db
      ensures (Contents(), reply) == BlockEffect(old(Contents()), n)
      ensures Valid(now)
    {
      hide Inv;
      NextKeepsInv(rules, Contents(), clock, Step(now, BlockNode(n)));
      db.BlockNode(n);
      return NodeBlocked;
    }

    method UnblockByAdmin(n: string, now: Instant, ghost clock: Instant) returns (reply: Reply)
      requires Valid(clock) && Enabled(Contents(), clock, Step(now, UnblockNode(n)))
      modifies db, valkey
      ensures (Contents(), reply) == UnblockEffect(old(Contents()), n)
      ensures Valid(now)
    {
      hide Inv;
      NextKeepsInv(rules, Contents(), clock, Step(now, UnblockNode(n)));
      db.UnblockNode(n);
      ClearStrikes(valkey, n);
      return NodeUnblocked;
    }

    /** Commit to the graph first; approve and credit only when that succeeded. */
    method ApproveAudit(id: string, failure: Option<nat>, now: Instant, ghost clock: Instant) returns (reply: Reply)
      requires Valid(clock) && Enabled(Contents(), clock, Step(now, ApproveEntry(id, failure)))
      modifies db, graph
      ensures (Contents(), reply) == ApproveEffect(rules, old(Contents()), id, failure, now)
      ensures Valid(now)
    {
      hide Inv, ApplyAll, Counters, BundleStmts, Prefix, Credited, Iso, Micros;
      NextKeepsInv(rules, Contents(), clock, Step(now, ApproveEntry(id, failure)));
      if id !in db.queue {
        return NotFound;
      }
      var e := db.queue[id];
      if e.status != InReview {
        return BadRequest;
      }
      var r := graph.CommitBundle(rules, e.bundle, e.origin, Iso(now), failure);
      if r.Err? {
        return ServerError;
      }
      var done := db.ApproveAuditEntry(id, now);
      db.IncrementNodePushStats(e.origin, r.value.entitiesCreated + r.value.relationsCreated, 0, now);
      return EntryApproved(r.value);
    }

    method RejectAudit(id: string, now: Instant, ghost clock: Instant) returns (reply: Reply)
      requires Valid(clock) && Enabled(Contents(), clock, Step(now, RefuseEntry(id)))
      modifies db
      ensures (Contents(), reply) == RefuseEffect(old(Contents()), id)
      ensures Valid(now)
    {
      hide Inv;
      NextKeepsInv(rules, Contents(), clock, Step(now, RefuseEntry(id)));
      var done := db.RejectAuditEntry(id);
      if !done {
        return NotFound;
      }
      return EntryRefused;
    }
  }
}

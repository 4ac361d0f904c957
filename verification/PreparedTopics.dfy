/**
 The prepared edges between partner products and topics: the taxonomy triggers that invalidate them
 (migrations/versions/0024_partnerships.py:1075-1165, 1182-1214) and the worker that publishes them
 (packages/core/src/partner_matching.py:169-248, 427-490).
 */
module PreparedTopics {
  import opened Options
  import opened MatchingTokens
  import Runs

  type Id = int

  /** The columns of TOPIC_FIELDS, and everything else. */
  datatype Topic = Topic(name: string, aliases: seq<string>, active: bool, identity: int, updatedAt: int, rest: int)

  /** The columns of PRODUCT_FIELDS, and everything else. */
  datatype Product = Product(technologies: Technologies, evidence: int, revision: int, updatedAt: int, policy: int,
                             rest: int)

  datatype Kind = RelatedTo | PartOf | UsesLanguage | DependsOn | OtherKind

  datatype Relation = Relation(topic: Id, related: Id, kind: Kind)

  /** A prepared edge with what it records of the product and the topic it was prepared from. */
  datatype Edge = Edge(score: int, revision: int, productUpdatedAt: int, topicUpdatedAt: int, reason: string)

  datatype JobKind = ProductJob | ArticleJob | TopicsJob

  datatype Job = Job(generation: int, cursor: Option<Id>)

  /** The tables. */
  datatype State = State(topics: map<Id, Topic>, relations: set<Relation>, products: map<Id, Product>,
                         edges: map<(Id, Id), Edge>, jobs: map<(JobKind, Id), Job>)

  /** What the rules compare: the token columns, equality of names under casefold, and the broad names. */
  datatype Rules = Rules(productTokens: Technologies -> set<string>, topicTokens: (string, seq<string>) -> set<string>,
                         names: (Technologies, int, string, seq<string>) -> bool, broad: string -> bool)

  const RELATION_LIMIT := 200

  /* ---------- what the worker publishes ---------- */

  function TokensOf(r: Rules, topic: Topic): set<string> {
    r.topicTokens(topic.name, topic.aliases)
  }

  predicate Names(r: Rules, p: Product, topic: Topic) {
    r.names(p.technologies, p.evidence, topic.name, topic.aliases)
  }

  /** An active topic found through the index and named by a grounded technology. */
  predicate Direct(r: Rules, p: Product, topics: map<Id, Topic>, t: Id) {
    && t in topics && topics[t].active && Selects(r.productTokens(p.technologies), TokensOf(r, topics[t]))
    && Names(r, p, topics[t])
  }

  predicate Touches(r: Rules, p: Product, topics: map<Id, Topic>, relation: Relation) {
    && relation.kind != OtherKind
    && (Direct(r, p, topics, relation.topic) || Direct(r, p, topics, relation.related))
  }

  function Touching(r: Rules, p: Product, topics: map<Id, Topic>, relations: set<Relation>): (touching: set<Relation>)
    ensures forall relation :: relation in touching <==> relation in relations && Touches(r, p, topics, relation)
  {
    set relation | relation in relations && Touches(r, p, topics, relation)
  }

  /** Of a relation with a direct topic, the other end; against its direction only when it is symmetric. */
  predicate LeadsTo(r: Rules, p: Product, topics: map<Id, Topic>, relation: Relation, t: Id) {
    if Direct(r, p, topics, relation.topic) then relation.related == t
    else relation.kind == RelatedTo && relation.topic == t
  }

  predicate Reached(r: Rules, p: Product, topics: map<Id, Topic>, chosen: set<Relation>, t: Id) {
    exists relation :: relation in chosen && LeadsTo(r, p, topics, relation, t)
  }

  function EdgeFor(r: Rules, p: Product, topics: map<Id, Topic>, chosen: set<Relation>, t: Id): Option<Edge> {
    if Direct(r, p, topics, t) then
      Some(Edge(100, p.revision, p.updatedAt, topics[t].updatedAt, "Verified support for " + topics[t].name))
    else if t in topics && topics[t].active && !r.broad(topics[t].name) && Reached(r, p, topics, chosen, t) then
      Some(Edge(65, p.revision, p.updatedAt, topics[t].updatedAt, "Related to " + topics[t].name))
    else
      None
  }

  /** The relations of one query with a limit and no order: all of them, or any 200. */
  predicate Chosen(touching: set<Relation>, chosen: set<Relation>) {
    chosen <= touching && |chosen| == if |touching| <= RELATION_LIMIT then |touching| else RELATION_LIMIT
  }

  function EdgeAt(edges: map<(Id, Id), Edge>, p: Id, t: Id): Option<Edge> {
    if (p, t) in edges then Some(edges[(p, t)]) else None
  }

  /** The edges of p are what the worker would publish from the facts as they are now. */
  ghost predicate PublishedFrom(r: Rules, s: State, p: Id, chosen: set<Relation>)
    requires p in s.products
  {
    && Chosen(Touching(r, s.products[p], s.topics, s.relations), chosen)
    && forall t :: EdgeAt(s.edges, p, t) == EdgeFor(r, s.products[p], s.topics, chosen, t)
  }

  ghost predicate Published(r: Rules, s: State, p: Id)
    requires p in s.products
  {
    exists chosen :: PublishedFrom(r, s, p, chosen)
  }

  /** A job will publish p anew: a topics job, or a product job that has not yet begun. */
  predicate Pending(s: State, p: Id) {
    (TopicsJob, p) in s.jobs || ((ProductJob, p) in s.jobs && s.jobs[(ProductJob, p)].cursor.None?)
  }

  ghost predicate Inv(r: Rules, s: State) {
    forall p | p in s.products :: Published(r, s, p) || Pending(s, p)
  }

  /* ---------- invalidation ---------- */

  predicate IsAffected(r: Rules, s: State, ids: set<Id>, tokens: set<string>, p: Id) {
    && p in s.products
    && (Selects(r.productTokens(s.products[p].technologies), tokens) || exists t :: t in ids && (p, t) in s.edges)
  }

  /** The four branches of the UNION; an edge has its product (the foreign key). */
  function Affected(r: Rules, s: State, ids: set<Id>, tokens: set<string>): (affected: set<Id>)
    ensures forall p :: p in affected <==> IsAffected(r, s, ids, tokens, p)
  {
    (set p | p in s.products && r.productTokens(s.products[p].technologies) * tokens != {})
    + (set p | p in s.products && ANY in r.productTokens(s.products[p].technologies))
    + (set p | p in s.products && UNICODE in tokens)
    + (set p | p in s.products && exists t :: t in ids && (p, t) in s.edges)
  }

  function Requeued(jobs: map<(JobKind, Id), Job>, key: (JobKind, Id)): Job {
    Job(if key in jobs then jobs[key].generation + 1 else 1, None)
  }

  /** partner_matching_invalidate_topics: one statement. */
  function Invalidated(r: Rules, s: State, ids: set<Id>, tokens: set<string>): State {
    var affected := Affected(r, s, ids, tokens);
    s.(edges := Without(s.edges, affected), jobs := Requeue(s.jobs, affected))
  }

  function Without(edges: map<(Id, Id), Edge>, products: set<Id>): map<(Id, Id), Edge> {
    map key | key in edges && key.0 !in products :: edges[key]
  }

  function Requeue(jobs: map<(JobKind, Id), Job>, products: set<Id>): map<(JobKind, Id), Job> {
    jobs + map p | p in products :: (TopicsJob, p) := Requeued(jobs, (TopicsJob, p))
  }

  /** Topics joined to one of these by any relation, and these. */
  function Around(relations: set<Relation>, ids: set<Id>): (around: set<Id>)
    ensures ids <= around
    ensures forall relation | relation in relations && (relation.topic in ids || relation.related in ids) ::
              relation.topic in around && relation.related in around
  {
    ids + (set relation | relation in relations && (relation.topic in ids || relation.related in ids) :: relation.topic)
        + (set relation | relation in relations && (relation.topic in ids || relation.related in ids) ::
             relation.related)
  }

  function TokensAt(r: Rules, topics: map<Id, Topic>, ids: set<Id>): (tokens: set<string>)
    ensures forall t | t in ids && t in topics :: TokensOf(r, topics[t]) <= tokens
  {
    set t, token | t in ids && t in topics && token in TokensOf(r, topics[t]) :: token
  }

  function OwnTokens(r: Rules, topic: Option<Topic>): set<string> {
    if topic.Some? then TokensOf(r, topic.value) else {}
  }

  function TopicAt(s: State, t: Id): Option<Topic> {
    if t in s.topics then Some(s.topics[t]) else None
  }

  function WithTopic(s: State, t: Id, topic: Option<Topic>): State {
    s.(topics := if topic.Some? then s.topics[t := topic.value] else s.topics - {t})
  }

  /** partner_matching_topic_changed and the change itself, without the cascade of a deletion. */
  function TopicChanged(r: Rules, s: State, t: Id, next: Option<Topic>): State {
    var previous := TopicAt(s, t);
    if previous.Some? && next.Some? && previous.value.(rest := next.value.rest) == next.value then
      WithTopic(s, t, next)
    else
      var ids := Around(s.relations, {t});
      var tokens := OwnTokens(r, previous) + OwnTokens(r, next) + TokensAt(r, s.topics, ids);
      WithTopic(Invalidated(r, s, ids, tokens), t, next)
  }

  function Ends(relation: Option<Relation>): set<Id> {
    if relation.Some? then {relation.value.topic, relation.value.related} else {}
  }

  function One(relation: Option<Relation>): set<Relation> {
    if relation.Some? then {relation.value} else {}
  }

  /** partner_matching_relation_changed and the change itself. */
  function RelationChanged(r: Rules, s: State, previous: Option<Relation>, next: Option<Relation>): State {
    if previous == next then s
    else
      var ids := Ends(previous) + Ends(next);
      Invalidated(r, s, ids, TokensAt(r, s.topics, ids)).(relations := s.relations - One(previous) + One(next))
  }

  /* ---------- what a change leaves alone ---------- */

  lemma AfterInvalidation(r: Rules, s: State, ids: set<Id>, tokens: set<string>, p: Id)
    requires p in s.products
    ensures var after := Invalidated(r, s, ids, tokens);
            if IsAffected(r, s, ids, tokens, p) then
              Pending(after, p) && forall t :: EdgeAt(after.edges, p, t) == None
            else
              (Pending(s, p) ==> Pending(after, p)) && forall t :: EdgeAt(after.edges, p, t) == EdgeAt(s.edges, p, t)
  {
  }

  /** Nothing p's edges depend on differs between the two tables of topics and of relations. */
  ghost predicate SameFor(r: Rules, p: Product, topics: map<Id, Topic>, relations: set<Relation>,
                          topics': map<Id, Topic>, relations': set<Relation>)
  {
    && Touching(r, p, topics, relations) == Touching(r, p, topics', relations')
    && forall chosen, t | chosen <= Touching(r, p, topics, relations) ::
         EdgeFor(r, p, topics', chosen, t) == EdgeFor(r, p, topics, chosen, t)
  }

  lemma StaysPublished(r: Rules, s: State, s': State, p: Id)
    requires p in s.products && p in s'.products && s'.products[p] == s.products[p]
    requires Published(r, s, p) && forall t :: EdgeAt(s'.edges, p, t) == EdgeAt(s.edges, p, t)
    requires SameFor(r, s.products[p], s.topics, s.relations, s'.topics, s'.relations)
    ensures Published(r, s', p)
  {
    var chosen :| PublishedFrom(r, s, p, chosen);
    assert PublishedFrom(r, s', p, chosen);
  }

  /** A direct topic shares its tokens, so changing it affects the product. */
  lemma DirectIsSelected(r: Rules, p: Product, topics: map<Id, Topic>, t: Id, tokens: set<string>)
    requires Direct(r, p, topics, t) && TokensOf(r, topics[t]) <= tokens
    ensures Selects(r.productTokens(p.technologies), tokens)
  {
    var shared := r.productTokens(p.technologies) * TokensOf(r, topics[t]);
    if shared != {} {
      var token :| token in shared;
      assert token in r.productTokens(p.technologies) * tokens;
    }
  }

  lemma DirectElsewhere(r: Rules, p: Product, topics: map<Id, Topic>, topics': map<Id, Topic>, t: Id)
    requires !Direct(r, p, topics, t) && !Direct(r, p, topics', t)
    requires forall u | u != t :: (u in topics <==> u in topics') && (u in topics ==> topics[u] == topics'[u])
    ensures forall u :: Direct(r, p, topics, u) <==> Direct(r, p, topics', u)
  {
  }

  /** A topic that is neither direct nor joined to a direct one plays no part for this product. */
  lemma ElsewhereIsSame(r: Rules, p: Product, topics: map<Id, Topic>, topics': map<Id, Topic>, relations: set<Relation>,
                        t: Id)
    requires !Direct(r, p, topics, t) && !Direct(r, p, topics', t)
    requires forall u | u != t :: (u in topics <==> u in topics') && (u in topics ==> topics[u] == topics'[u])
    requires forall relation | relation in Touching(r, p, topics, relations) ::
               relation.topic != t && relation.related != t
    ensures SameFor(r, p, topics, relations, topics', relations)
  {
    DirectElsewhere(r, p, topics, topics', t);
    assert forall relation :: Touches(r, p, topics, relation) == Touches(r, p, topics', relation);
    forall chosen, u | chosen <= Touching(r, p, topics, relations)
      ensures EdgeFor(r, p, topics', chosen, u) == EdgeFor(r, p, topics, chosen, u)
    {
      SameReach(r, p, topics, topics', chosen, u);
      if u == t {
        NotReached(r, p, topics, relations, chosen, t);
      }
    }
  }

  lemma SameReach(r: Rules, p: Product, topics: map<Id, Topic>, topics': map<Id, Topic>, chosen: set<Relation>, u: Id)
    requires forall v :: Direct(r, p, topics, v) <==> Direct(r, p, topics', v)
    ensures Reached(r, p, topics, chosen, u) <==> Reached(r, p, topics', chosen, u)
  {
    assert forall relation :: LeadsTo(r, p, topics, relation, u) == LeadsTo(r, p, topics', relation, u);
  }

  lemma NotReached(r: Rules, p: Product, topics: map<Id, Topic>, relations: set<Relation>, chosen: set<Relation>, t: Id)
    requires chosen <= Touching(r, p, topics, relations)
    requires forall relation | relation in Touching(r, p, topics, relations) ::
               relation.topic != t && relation.related != t
    ensures !Reached(r, p, topics, chosen, t)
  {
  }

  lemma UnaffectedByTopic(r: Rules, s: State, t: Id, next: Option<Topic>, p: Id)
    requires p in s.products
    requires var ids := Around(s.relations, {t});
             !IsAffected(r, s, ids, OwnTokens(r, TopicAt(s, t)) + OwnTokens(r, next) + TokensAt(r, s.topics, ids), p)
    ensures SameFor(r, s.products[p], s.topics, s.relations, WithTopic(s, t, next).topics, s.relations)
  {
    var product, ids := s.products[p], Around(s.relations, {t});
    var tokens := OwnTokens(r, TopicAt(s, t)) + OwnTokens(r, next) + TokensAt(r, s.topics, ids);
    var topics' := WithTopic(s, t, next).topics;
    if Direct(r, product, s.topics, t) { DirectIsSelected(r, product, s.topics, t, tokens); }
    if Direct(r, product, topics', t) { DirectIsSelected(r, product, topics', t, tokens); }
    forall relation | relation in Touching(r, product, s.topics, s.relations)
      ensures relation.topic != t && relation.related != t
    {
      if relation.topic == t || relation.related == t {
        var other := if relation.topic == t then relation.related else relation.topic;
        assert other in ids && Direct(r, product, s.topics, other);
        DirectIsSelected(r, product, s.topics, other, tokens);
      }
    }
    ElsewhereIsSame(r, product, s.topics, topics', s.relations, t);
  }

  lemma OtherColumnsAreSame(r: Rules, p: Product, topics: map<Id, Topic>, topics': map<Id, Topic>,
                            relations: set<Relation>, t: Id)
    requires t in topics && t in topics' && topics' == topics[t := topics'[t]]
    requires topics[t].(rest := topics'[t].rest) == topics'[t]
    ensures SameFor(r, p, topics, relations, topics', relations)
  {
    assert forall u :: Direct(r, p, topics, u) <==> Direct(r, p, topics', u);
    assert forall relation :: Touches(r, p, topics, relation) == Touches(r, p, topics', relation);
    forall chosen, u ensures EdgeFor(r, p, topics', chosen, u) == EdgeFor(r, p, topics, chosen, u) {
      SameReach(r, p, topics, topics', chosen, u);
    }
  }

  lemma TopicKeepsInv(r: Rules, s: State, t: Id, next: Option<Topic>)
    requires Inv(r, s)
    ensures Inv(r, TopicChanged(r, s, t, next))
  {
    var after := TopicChanged(r, s, t, next);
    forall p | p in after.products ensures Published(r, after, p) || Pending(after, p) {
      TopicKeepsProduct(r, s, t, next, p);
    }
  }

  lemma TopicKeepsProduct(r: Rules, s: State, t: Id, next: Option<Topic>, p: Id)
    requires p in s.products && (Published(r, s, p) || Pending(s, p))
    ensures var after := TopicChanged(r, s, t, next); Published(r, after, p) || Pending(after, p)
  {
    var previous := TopicAt(s, t);
    if previous.Some? && next.Some? && previous.value.(rest := next.value.rest) == next.value {
      if Published(r, s, p) {
        OtherColumnsAreSame(r, s.products[p], s.topics, s.topics[t := next.value], s.relations, t);
        StaysPublished(r, s, TopicChanged(r, s, t, next), p);
      }
    } else {
      var ids := Around(s.relations, {t});
      var tokens := OwnTokens(r, previous) + OwnTokens(r, next) + TokensAt(r, s.topics, ids);
      AfterInvalidation(r, s, ids, tokens, p);
      if !IsAffected(r, s, ids, tokens, p) && Published(r, s, p) {
        UnaffectedByTopic(r, s, t, next, p);
        StaysPublished(r, s, TopicChanged(r, s, t, next), p);
      }
    }
  }

  lemma UnaffectedByRelation(r: Rules, s: State, previous: Option<Relation>, next: Option<Relation>, p: Id)
    requires p in s.products
    requires !IsAffected(r, s, Ends(previous) + Ends(next), TokensAt(r, s.topics, Ends(previous) + Ends(next)), p)
    ensures SameFor(r, s.products[p], s.topics, s.relations, s.topics, s.relations - One(previous) + One(next))
  {
    var product, ids := s.products[p], Ends(previous) + Ends(next);
    forall t | t in ids ensures !Direct(r, product, s.topics, t) {
      if Direct(r, product, s.topics, t) { DirectIsSelected(r, product, s.topics, t, TokensAt(r, s.topics, ids)); }
    }
    assert forall relation | relation in One(previous) + One(next) :: !Touches(r, product, s.topics, relation);
  }

  lemma RelationKeepsProduct(r: Rules, s: State, previous: Option<Relation>, next: Option<Relation>, p: Id)
    requires p in s.products && (Published(r, s, p) || Pending(s, p))
    ensures var after := RelationChanged(r, s, previous, next); Published(r, after, p) || Pending(after, p)
  {
    if previous != next {
      var ids := Ends(previous) + Ends(next);
      AfterInvalidation(r, s, ids, TokensAt(r, s.topics, ids), p);
      if !IsAffected(r, s, ids, TokensAt(r, s.topics, ids), p) && Published(r, s, p) {
        UnaffectedByRelation(r, s, previous, next, p);
        StaysPublished(r, s, RelationChanged(r, s, previous, next), p);
      }
    }
  }

  lemma RelationKeepsInv(r: Rules, s: State, previous: Option<Relation>, next: Option<Relation>)
    requires Inv(r, s)
    ensures Inv(r, RelationChanged(r, s, previous, next))
  {
    var after := RelationChanged(r, s, previous, next);
    forall p | p in after.products ensures Published(r, after, p) || Pending(after, p) {
      RelationKeepsProduct(r, s, previous, next, p);
    }
  }

  /* ---------- products and the worker ---------- */

  /** partner_matching_source_changed for products, the change itself and the cascade of a deletion. */
  function ProductChanged(s: State, p: Id, next: Option<Product>): State {
    var changed := s.(products := if next.Some? then s.products[p := next.value] else s.products - {p},
                      edges := if next.Some? then s.edges else map key | key in s.edges && key.0 != p :: s.edges[key]);
    if p in s.products && next.Some? && s.products[p].(rest := next.value.rest) == next.value then changed
    else changed.(jobs := s.jobs[(ProductJob, p) := Requeued(s.jobs, (ProductJob, p))])
  }

  /** prepare_topics: what was there for the product goes, what the facts say now comes. */
  function Prepared(r: Rules, s: State, p: Id, chosen: set<Relation>): (edges: map<(Id, Id), Edge>)
    requires p in s.products
    ensures forall q, t ::
              EdgeAt(edges, q, t) == if q == p then EdgeFor(r, s.products[p], s.topics, chosen, t)
                                     else EdgeAt(s.edges, q, t)
  {
    (map key | key in s.edges && key.0 != p :: s.edges[key])
    + map t | t in s.topics && EdgeFor(r, s.products[p], s.topics, chosen, t).Some?
        :: (p, t) := EdgeFor(r, s.products[p], s.topics, chosen, t).value
  }

  /** How a page of work ends: the job is complete, or it stays with a cursor. */
  datatype Outcome = Complete | Continue(cursor: Option<Id>)

  /** _prepare_job: a topics job always prepares and completes, a product job prepares while it has no cursor. */
  function Worked(r: Rules, s: State, kind: JobKind, p: Id, chosen: set<Relation>, outcome: Outcome): State
    requires (kind, p) in s.jobs
  {
    var prepares := kind == TopicsJob || (kind == ProductJob && s.jobs[(kind, p)].cursor.None?);
    s.(edges := if prepares && p in s.products then Prepared(r, s, p, chosen) else s.edges,
       jobs := if kind == TopicsJob || outcome.Complete? || (kind == ProductJob && p !in s.products)
               then s.jobs - {(kind, p)}
               else s.jobs[(kind, p) := s.jobs[(kind, p)].(cursor := outcome.cursor)])
  }

  datatype Event =
    | TopicEvent(topicId: Id, topic: Option<Topic>)
    | RelationEvent(previous: Option<Relation>, relation: Option<Relation>)
    | ProductEvent(productId: Id, product: Option<Product>)
    | Work(kind: JobKind, id: Id, chosen: set<Relation>, outcome: Outcome)

  ghost predicate Enabled(r: Rules, s: State, e: Event) {
    e.Work? ==> (e.kind, e.id) in s.jobs
                && (e.id in s.products ==> Chosen(Touching(r, s.products[e.id], s.topics, s.relations), e.chosen))
  }

  function Next(r: Rules, s: State, e: Event): State
    requires Enabled(r, s, e)
  {
    match e
    case TopicEvent(t, topic) => TopicChanged(r, s, t, topic)
    case RelationEvent(previous, relation) => RelationChanged(r, s, previous, relation)
    case ProductEvent(p, product) => ProductChanged(s, p, product)
    case Work(kind, p, chosen, outcome) => Worked(r, s, kind, p, chosen, outcome)
  }

  lemma ProductKeepsInv(r: Rules, s: State, p: Id, next: Option<Product>)
    requires Inv(r, s)
    ensures Inv(r, ProductChanged(s, p, next))
  {
    var after := ProductChanged(s, p, next);
    forall q | q in after.products ensures Published(r, after, q) || Pending(after, q) {
      if q != p {
        if Published(r, s, q) { StaysPublished(r, s, after, q); }
      } else if !Pending(after, p) {
        var chosen :| PublishedFrom(r, s, p, chosen);
        SameProduct(r, s.products[p], after.products[p], s.topics, s.relations, chosen);
        assert PublishedFrom(r, after, p, chosen);
      }
    }
  }

  lemma SameProduct(r: Rules, p: Product, p': Product, topics: map<Id, Topic>, relations: set<Relation>,
                    chosen: set<Relation>)
    requires p.(rest := p'.rest) == p'
    ensures Touching(r, p, topics, relations) == Touching(r, p', topics, relations)
    ensures forall t :: EdgeFor(r, p, topics, chosen, t) == EdgeFor(r, p', topics, chosen, t)
  {
    assert forall t :: Direct(r, p, topics, t) <==> Direct(r, p', topics, t);
    assert forall relation :: Touches(r, p, topics, relation) <==> Touches(r, p', topics, relation);
    assert forall relation, t :: LeadsTo(r, p, topics, relation, t) == LeadsTo(r, p', topics, relation, t);
  }

  lemma WorkKeepsInv(r: Rules, s: State, e: Event)
    requires Inv(r, s) && e.Work? && Enabled(r, s, e)
    ensures Inv(r, Next(r, s, e))
  {
    var after := Worked(r, s, e.kind, e.id, e.chosen, e.outcome);
    forall q | q in after.products ensures Published(r, after, q) || Pending(after, q) {
      var prepares := e.kind == TopicsJob || (e.kind == ProductJob && s.jobs[(e.kind, e.id)].cursor.None?);
      if q == e.id && prepares {
        assert PublishedFrom(r, after, q, e.chosen);
      } else if Published(r, s, q) {
        StaysPublished(r, s, after, q);
      }
    }
  }

  lemma StepKeepsInv(r: Rules, s: State, e: Event)
    requires Inv(r, s) && Enabled(r, s, e)
    ensures Inv(r, Next(r, s, e))
  {
    match e
    case TopicEvent(t, topic) => TopicKeepsInv(r, s, t, topic);
    case RelationEvent(previous, relation) => RelationKeepsInv(r, s, previous, relation);
    case ProductEvent(p, product) => ProductKeepsInv(r, s, p, product);
    case Work(_, _, _, _) => WorkKeepsInv(r, s, e);
  }

  /* ---------- what an invalidation does to a product ---------- */

  /** A tracked change of a topic leaves no product an edge to it or to a topic joined to it. */
  lemma ChangedTopicKeepsNoEdge(r: Rules, s: State, t: Id, next: Option<Topic>, p: Id, u: Id)
    requires TopicAt(s, t) != next
    requires !(TopicAt(s, t).Some? && next.Some? && s.topics[t].(rest := next.value.rest) == next.value)
    requires p in s.products && u in Around(s.relations, {t})
    ensures EdgeAt(TopicChanged(r, s, t, next).edges, p, u) == None
  {
    var ids := Around(s.relations, {t});
    AfterInvalidation(r, s, ids, OwnTokens(r, TopicAt(s, t)) + OwnTokens(r, next) + TokensAt(r, s.topics, ids), p);
  }

  /** An affected product is queued under a generation no earlier reader of the queue has seen. */
  lemma AffectedProductIsRequeued(r: Rules, s: State, ids: set<Id>, tokens: set<string>, p: Id)
    requires IsAffected(r, s, ids, tokens, p)
    ensures var jobs := Invalidated(r, s, ids, tokens).jobs;
            && (TopicsJob, p) in jobs && jobs[(TopicsJob, p)].cursor.None?
            && ((TopicsJob, p) in s.jobs ==> jobs[(TopicsJob, p)].generation > s.jobs[(TopicsJob, p)].generation)
            && forall key | key in s.jobs && key.0 != TopicsJob :: key in jobs && jobs[key] == s.jobs[key]
  {
  }

  /* ---------- whole runs ---------- */

  ghost predicate Step(r: Rules, s: State, e: Event, t: State) {
    Enabled(r, s, e) && t == Next(r, s, e)
  }

  ghost function Steps(r: Rules): (State, Event, State) -> bool {
    (s, e, t) => Step(r, s, e, t)
  }

  /** At every point of every run, each product's edges are right for the current facts or about to be replaced. */
  lemma RunKeepsInv(r: Rules, states: seq<State>, events: seq<Event>, i: nat)
    requires |states| > 0 && states[0].products == map[]
    requires Runs.Run(states[0], Steps(r), states, events) && i < |states|
    ensures Inv(r, states[i])
  {
    var inv := (s: State) => Inv(r, s);
    forall s: State, e: Event, t: State | inv(s) && Steps(r)(s, e, t) ensures inv(t) {
      StepKeepsInv(r, s, e);
    }
    Runs.Stays(states[0], Steps(r), inv, states, events, 0, i);
  }

  /* ---------- the rules themselves ---------- */

  /** A technology that equals the name or an alias under casefold. */
  predicate Named(casefold: string -> string, technologies: seq<string>, name: string, aliases: seq<string>) {
    exists i :: 0 <= i < |technologies|
      && (casefold(technologies[i]) == casefold(name)
          || exists j :: 0 <= j < |aliases| && casefold(technologies[i]) == casefold(aliases[j]))
  }

  ghost predicate Grounds(grounded: (Technologies, int) -> seq<string>) {
    forall technologies, evidence, i | 0 <= i < |grounded(technologies, evidence)| ::
      technologies.List? && grounded(technologies, evidence)[i] in technologies.items
  }

  /** The rules of the repository, for its casefold and for the technologies its evidence grounds. */
  ghost function RulesOf(casefold: string -> string, grounded: (Technologies, int) -> seq<string>,
                         broad: string -> bool): Rules
  {
    Rules(technologies => ProductTokens(technologies),
          (name, aliases) => Tokens(TopicText(name, aliases)),
          (technologies, evidence, name, aliases) => Named(casefold, grounded(technologies, evidence), name, aliases),
          broad)
  }

  /** The token filter of the query loses no topic a grounded technology names. */
  lemma FilterLosesNothing(casefold: string -> string, technologies: Technologies, grounded: seq<string>,
                           name: string, aliases: seq<string>)
    requires Casefolds(casefold) && Named(casefold, grounded, name, aliases)
    requires forall i | 0 <= i < |grounded| :: technologies.List? && grounded[i] in technologies.items
    ensures Selects(ProductTokens(technologies), Tokens(TopicText(name, aliases)))
  {
    var i :| 0 <= i < |grounded|
      && (casefold(grounded[i]) == casefold(name)
          || exists j :: 0 <= j < |aliases| && casefold(grounded[i]) == casefold(aliases[j]));
    var line := name;
    if casefold(grounded[i]) != casefold(name) {
      var j :| 0 <= j < |aliases| && casefold(grounded[i]) == casefold(aliases[j]);
      line := aliases[j];
    }
    TopicFilterIsComplete(casefold, technologies.items, grounded[i], name, aliases, line);
  }

  /** With no job left for a product, it has a full-score edge to exactly the active topics its technologies name. */
  lemma QuietProductsAreComplete(casefold: string -> string, grounded: (Technologies, int) -> seq<string>,
                                 broad: string -> bool,
                                 s: State, p: Id, t: Id)
    requires Casefolds(casefold) && Grounds(grounded) && Inv(RulesOf(casefold, grounded, broad), s)
    requires p in s.products && !Pending(s, p)
    ensures (EdgeAt(s.edges, p, t).Some? && s.edges[(p, t)].score == 100) <==>
            (t in s.topics && s.topics[t].active
             && Named(casefold, grounded(s.products[p].technologies, s.products[p].evidence), s.topics[t].name,
                      s.topics[t].aliases))
  {
    var r, product := RulesOf(casefold, grounded, broad), s.products[p];
    var chosen :| PublishedFrom(r, s, p, chosen);
    assert EdgeAt(s.edges, p, t) == EdgeFor(r, product, s.topics, chosen, t);
    if t in s.topics
      && Named(casefold, grounded(product.technologies, product.evidence), s.topics[t].name, s.topics[t].aliases)
    {
      FilterLosesNothing(casefold, product.technologies, grounded(product.technologies, product.evidence),
                         s.topics[t].name, s.topics[t].aliases);
    }
  }

  /**
   Its other edges lead to active topics, neither named nor broad, at the other end of a relation with a named topic,
   and to all of them as long as the relations fit into the limit of the query.
   */
  lemma QuietProductsAreRelated(r: Rules, s: State, p: Id, t: Id)
    requires Inv(r, s) && p in s.products && !Pending(s, p)
    ensures var product := s.products[p]; var touching := Touching(r, product, s.topics, s.relations);
            var related := t in s.topics && s.topics[t].active && !Direct(r, product, s.topics, t)
              && !r.broad(s.topics[t].name)
                           && Reached(r, product, s.topics, touching, t);
            && (EdgeAt(s.edges, p, t).Some? && s.edges[(p, t)].score != 100 ==> related && s.edges[(p, t)].score == 65)
            && (|touching| <= RELATION_LIMIT && related ==> EdgeAt(s.edges, p, t).Some? && s.edges[(p, t)].score == 65)
  {
    var product := s.products[p];
    var chosen :| PublishedFrom(r, s, p, chosen);
    assert EdgeAt(s.edges, p, t) == EdgeFor(r, product, s.topics, chosen, t);
    var touching := Touching(r, product, s.topics, s.relations);
    if |touching| <= RELATION_LIMIT {
      WholeSet(chosen, touching);
    }
    if Reached(r, product, s.topics, chosen, t) {
      var relation :| relation in chosen && LeadsTo(r, product, s.topics, relation, t);
      assert relation in touching;
    }
  }

  lemma WholeSet<T>(part: set<T>, whole: set<T>)
    requires part <= whole && |part| == |whole|
    ensures part == whole
  {
    assert whole == part + (whole - part) && |whole - part| == 0;
  }

  lemma OneLess(relations: set<Relation>, doomed: set<Relation>, left: set<Relation>, relation: Relation)
    requires relation in left && left <= doomed
    ensures relations - (doomed - left) - One(Some(relation)) + One(None) == relations - (doomed - (left - {relation}))
    ensures |left - {relation}| < |left|
  {
  }

  /* ---------- the tables ---------- */

  /** The tables, with the trigger functions that run inside each change of the taxonomy. */
  class Tables {
    const rules: Rules
    var topics: map<Id, Topic>
    var relations: set<Relation>
    var products: map<Id, Product>
    var edges: map<(Id, Id), Edge>
    var jobs: map<(JobKind, Id), Job>

    function View(): State
      reads this
    {
      State(topics, relations, products, edges, jobs)
    }

    constructor (rules: Rules, topics: map<Id, Topic>, relations: set<Relation>)
      ensures this.rules == rules && View() == State(topics, relations, map[], map[], map[]) && Inv(rules, View())
    {
      this.rules, this.topics, this.relations := rules, topics, relations;
      products, edges, jobs := map[], map[], map[];
    }

    method Enqueue(kind: JobKind, id: Id)
      modifies `jobs
      ensures (kind, id) in jobs && jobs[(kind, id)].cursor.None?
      ensures (kind, id) in old(jobs) ==> jobs[(kind, id)].generation > old(jobs)[(kind, id)].generation
      ensures forall key | key != (kind, id) ::
                (key in jobs <==> key in old(jobs)) && (key in jobs ==> jobs[key] == old(jobs)[key])
      ensures jobs == old(jobs)[(kind, id) := Requeued(old(jobs), (kind, id))]
    {
      if (kind, id) in jobs {
        jobs := jobs[(kind, id) := Job(jobs[(kind, id)].generation + 1, None)];
      } else {
        jobs := jobs[(kind, id) := Job(1, None)];
      }
    }

    /** INSERT, UPDATE or DELETE of a product, with what goes with a deleted one. */
    method ChangeProduct(p: Id, product: Option<Product>)
      modifies this
      ensures View() == ProductChanged(old(View()), p, product)
      ensures Inv(rules, old(View())) ==> Inv(rules, View())
    {
      if Inv(rules, View()) { ProductKeepsInv(rules, View(), p, product); }
      var same := p in products && product.Some? && products[p].(rest := product.value.rest) == product.value;
      if product.Some? {
        products := products[p := product.value];
      } else {
        products, edges := products - {p}, map key | key in edges && key.0 != p :: edges[key];
      }
      if !same {
        Enqueue(ProductJob, p);
      }
    }

    method InvalidateTopics(ids: set<Id>, tokens: set<string>)
      modifies `edges, `jobs
      ensures View() == Invalidated(rules, old(View()), ids, tokens)
      ensures forall p | IsAffected(rules, old(View()), ids, tokens, p) ::
                Pending(View(), p) && forall t :: (p, t) !in edges
    {
      var affected := Affected(rules, View(), ids, tokens);
      edges := Without(edges, affected);
      jobs := Requeue(jobs, affected);
    }

    /** A tracked change that brings no new timestamp is given one. */
    method ChangeTopic(t: Id, topic: Option<Topic>, clock: int)
      modifies this
      ensures exists stamped: Option<Topic> :: View() == TopicChanged(rules, old(View()), t, stamped)
                && (stamped.Some? <==> topic.Some?)
                && (topic.Some? ==> stamped.value == topic.value || stamped.value == topic.value.(updatedAt := clock))
      ensures Inv(rules, old(View())) ==> Inv(rules, View())
    {
      var next, previous := topic, TopicAt(View(), t);
      if previous.Some? && next.Some? {
        if previous.value.(rest := next.value.rest) == next.value {
          if Inv(rules, View()) { TopicKeepsInv(rules, View(), t, next); }
          assert View().(topics := topics[t := next.value]) == TopicChanged(rules, View(), t, next);
          topics := topics[t := next.value];
          return;
        }
        if next.value.updatedAt == previous.value.updatedAt {
          next := Some(next.value.(updatedAt := clock));
        }
      }
      if Inv(rules, View()) { TopicKeepsInv(rules, View(), t, next); }
      ghost var stamped, before := next, View();
      var ids := Around(relations, {t});
      InvalidateTopics(ids, OwnTokens(rules, previous) + OwnTokens(rules, next) + TokensAt(rules, topics, ids));
      topics := if next.Some? then topics[t := next.value] else topics - {t};
      assert previous.Some? && next.Some? ==>
               previous.value.(rest := next.value.rest) != next.value || stamped == topic;
    }

    method ChangeRelation(previous: Option<Relation>, next: Option<Relation>)
      modifies this
      ensures View() == RelationChanged(rules, old(View()), previous, next)
      ensures Inv(rules, old(View())) ==> Inv(rules, View())
    {
      if Inv(rules, View()) { RelationKeepsInv(rules, View(), previous, next); }
      if previous == next { return; }
      var ids := Ends(previous) + Ends(next);
      InvalidateTopics(ids, TokensAt(rules, topics, ids));
      relations := relations - One(previous) + One(next);
    }

    /** The foreign keys of topic_relations take every relation of a deleted topic, trigger by trigger. */
    method Cascade(doomed: set<Relation>)
      requires doomed <= relations
      modifies this
      ensures topics == old(topics) && relations == old(relations) - doomed
      ensures Inv(rules, old(View())) ==> Inv(rules, View())
    {
      ghost var sound := Inv(rules, View());
      var left := doomed;
      while left != {}
        invariant left <= doomed && topics == old(topics) && relations == old(relations) - (doomed - left)
        invariant sound ==> Inv(rules, View())
        decreases |left|
      {
        var relation :| relation in left;
        ChangeRelation(Some(relation), None);
        OneLess(old(relations), doomed, left, relation);
        left := left - {relation};
      }
    }

    method DeleteTopic(t: Id, clock: int)
      modifies this
      ensures t !in topics
      ensures relations == set relation | relation in old(relations) && relation.topic != t && relation.related != t
      ensures Inv(rules, old(View())) ==> Inv(rules, View())
    {
      ChangeTopic(t, None, clock);
      Cascade(set relation | relation in relations && (relation.topic == t || relation.related == t));
    }
  }
}

/** Knowledge bundles, their schema limits and the shared validation constants. */
module Schemas {
  import opened Common

  // ---- Constants ---------------------------------------------------------

  const ALLOWED_PREDICATES: set<string> := {
    "IS_A", "PART_OF", "TREATS", "CAUSES", "INTERACTS_WITH",
    "CONTRAINDICATES", "DEFINES", "REGULATES", "USES", "IMPLEMENTS",
    "DEPENDS_ON", "EXTENDS", "RELATED_TO", "EQUIVALENT_TO", "AFFECTS",
    "RUNS", "NECESSITATES_PRESENCE", "DEPENDS_ON_LOCATION", "ENABLES_ACTION",
    "HAS_PROPERTY", "BELONGS_TO", "CONTAINS", "PRODUCES", "REQUIRES",
    "SUPPORTS", "CONTRADICTS", "SUPERSEDES"
  }

  const MAX_ENTITY_NAME_LEN: nat := 512
  const MAX_TRIPLE_FIELD_LEN: nat := 512
  const MAX_BUNDLE_TRIPLES: nat := 5000
  const MAX_BUNDLE_ENTITIES: nat := 5000

  const KNOWLEDGE_DOMAINS: set<string> := {
    "general", "code_reviewer", "technical_support", "creative_writer", "math", "science",
    "legal_advisor", "medical_consult", "reasoning", "data_analyst", "translation"
  }

  // ---- Bundles -----------------------------------------------------------

  /** A key of a JSON object: missing, null, or a string. */
  datatype Field = Absent | Null | Text(text: string)
  {
    /** `d.get(key, default)`: the default stands in for a missing key only. */
    function Get(default: string): Option<string>
    {
      match this
      case Absent => Some(default)
      case Null => None
      case Text(s) => Some(s)
    }
  }

  /** An entity dictionary. Its name, when present, is a string. */
  datatype Item = Item(name: Option<string>, typ: Field, domain: Field, description: Field)
  {
    function Name(): string
    {
      if name.Some? then name.value else ""
    }
  }

  /** A relation. The endpoint types may be null in rows read back from the graph. */
  datatype Triple = Triple(
    subject: string, subjectType: Option<string>, pred: string,
    obj: string, objectType: Option<string>, confidence: real, domain: string)

  datatype Bundle = Bundle(origin: string, entities: seq<Item>, relations: seq<Triple>)

  /** A string field that is required and has a maximum length. */
  predicate Fits(o: Option<string>, max: nat)
  {
    o.Some? && |o.value| <= max
  }

  predicate TripleSchemaOk(t: Triple)
  {
    && |t.subject| <= 512 && |t.obj| <= 512
    && Fits(t.subjectType, 128) && Fits(t.objectType, 128)
    && |t.pred| <= 128
    && 0.0 <= t.confidence <= 1.0
    && |t.domain| <= 64
  }

  /** What the request and response schema demands of a bundle. */
  predicate SchemaOk(b: Bundle)
  {
    && |b.origin| <= 64
    && |b.entities| <= 5000
    && |b.relations| <= 5000
    && forall t :: t in b.relations ==> TripleSchemaOk(t)
  }

  // ---- Validation rules --------------------------------------------------

  /** One sensitive-content pattern: its tag and its search. */
  datatype Pattern = Pattern(tag: string, search: string -> bool)

  /** What audit and commit share: the regex scan, upper-casing and the allow-list. */
  datatype RuleSet = RuleSet(patterns: seq<Pattern>, upper: string -> string, allowed: set<string>)
  {
    predicate Sensitive(text: string)
    {
      exists i :: 0 <= i < |patterns| && patterns[i].search(text)
    }

    /** The upper-cased predicate of a relation is on the allow-list. */
    predicate Allows(predicateText: string)
    {
      upper(predicateText) in allowed
    }

    /** Allowed predicates fit the schema, are upper-case already and trip no pattern. */
    ghost predicate Sound()
    {
      forall p :: p in allowed ==> 0 < |p| <= 128 && upper(p) == p && !Sensitive(p)
    }
  }

  type Rules = r: RuleSet | r.Sound() witness RuleSet([], s => s, {})

  lemma AllowedPredicateLengths(p: string)
    requires p in ALLOWED_PREDICATES
    ensures 0 < |p| <= 128
  {
  }

  /** The rules the hub is deployed with are sound, given an upper-casing that keeps the
      27 predicates and patterns that match none of them. */
  lemma DeployedRulesAreSound(patterns: seq<Pattern>, upper: string -> string)
    requires forall p :: p in ALLOWED_PREDICATES ==> upper(p) == p
    requires forall p, i :: p in ALLOWED_PREDICATES && 0 <= i < |patterns| ==> !patterns[i].search(p)
    ensures RuleSet(patterns, upper, ALLOWED_PREDICATES).Sound()
  {
    var rules := RuleSet(patterns, upper, ALLOWED_PREDICATES);
    forall p | p in rules.allowed ensures 0 < |p| <= 128 && upper(p) == p && !rules.Sensitive(p) {
      AllowedPredicateLengths(p);
    }
  }
}

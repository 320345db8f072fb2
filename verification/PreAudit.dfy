/** The pre-audit pipeline: syntax, then heuristics. */
module PreAudit {
  import opened Common
  import opened Schemas

  // ---- What an audited bundle is -----------------------------------------

  predicate WellFormedTriple(t: Triple)
  {
    && 0 < |t.subject| <= MAX_TRIPLE_FIELD_LEN
    && 0 < |t.obj| <= MAX_TRIPLE_FIELD_LEN
    && 0 < |t.pred|
    && 0.0 <= t.confidence <= 1.0
  }

  predicate WellFormed(b: Bundle)
  {
    && b.origin != ""
    && |b.relations| <= MAX_BUNDLE_TRIPLES
    && |b.entities| <= MAX_BUNDLE_ENTITIES
    && (forall t :: t in b.relations ==> WellFormedTriple(t))
    && (forall e :: e in b.entities ==> 0 < |e.Name()| <= MAX_ENTITY_NAME_LEN)
  }

  /** The empty text is never scanned. */
  predicate CleanText(rules: RuleSet, text: string)
  {
    text == "" || !rules.Sensitive(text)
  }

  function DescriptionText(e: Item): string
  {
    if e.description.Text? then e.description.text else ""
  }

  predicate CleanTriple(rules: RuleSet, t: Triple)
  {
    CleanText(rules, t.subject) && CleanText(rules, t.obj) && CleanText(rules, t.pred)
  }

  predicate Clean(rules: RuleSet, b: Bundle)
  {
    && (forall t :: t in b.relations ==> CleanTriple(rules, t))
    && (forall e :: e in b.entities ==> CleanText(rules, e.Name()) && CleanText(rules, DescriptionText(e)))
  }

  predicate AllowedRelations(rules: RuleSet, b: Bundle)
  {
    forall t :: t in b.relations ==> rules.Allows(t.pred)
  }

  /** The declarative meaning of passing the pre-audit. */
  predicate Passes(rules: RuleSet, b: Bundle)
  {
    WellFormed(b) && Clean(rules, b) && AllowedRelations(rules, b)
  }

  /** A nonempty text no pattern finds anything in. */
  predicate Unsuspicious(rules: RuleSet, text: string)
  {
    text != "" ==> forall k :: 0 <= k < |rules.patterns| ==> !rules.patterns[k].search(text)
  }

  /** Passing the pre-audit, over the raw fields of the bundle: the origin is there, the
      lists are within the caps, every relation has its three texts, none of them too long
      or suspicious, a confidence in range and an allowed predicate once upper-cased, and
      every entity has a name that is neither too long nor suspicious, and a description,
      if it has one, that is not suspicious. */
  predicate Acceptable(rules: RuleSet, b: Bundle)
  {
    && |b.origin| > 0 && |b.relations| <= 5000 && |b.entities| <= 5000
    && (forall i :: 0 <= i < |b.relations| ==>
          var t := b.relations[i];
          && 1 <= |t.subject| <= 512 && 1 <= |t.obj| <= 512 && 1 <= |t.pred|
          && Unsuspicious(rules, t.subject) && Unsuspicious(rules, t.obj) && Unsuspicious(rules, t.pred)
          && 0.0 <= t.confidence <= 1.0 && rules.upper(t.pred) in rules.allowed)
    && (forall i :: 0 <= i < |b.entities| ==>
          match b.entities[i]
          case Item(None, _, _, _) => false
          case Item(Some(name), _, _, description) =>
            && 1 <= |name| <= 512 && Unsuspicious(rules, name)
            && match description
               case Absent => true
               case Null => true
               case Text(text) => Unsuspicious(rules, text))
  }

  lemma PassesIsAcceptable(rules: RuleSet, b: Bundle)
    ensures Passes(rules, b) <==> Acceptable(rules, b)
  {
    assert forall text :: CleanText(rules, text) <==> Unsuspicious(rules, text);
    hide CleanText, Unsuspicious;
    if Passes(rules, b) {
      assert forall i :: 0 <= i < |b.relations| ==> b.relations[i] in b.relations;
      forall i | 0 <= i < |b.relations|
        ensures CleanTriple(rules, b.relations[i]) && rules.Allows(b.relations[i].pred)
      {
        assert b.relations[i] in b.relations;
      }
      forall i | 0 <= i < |b.entities|
        ensures 1 <= |b.entities[i].Name()| <= 512 && CleanText(rules, b.entities[i].Name())
        ensures CleanText(rules, DescriptionText(b.entities[i]))
      {
        assert b.entities[i] in b.entities;
      }
    }
    if Acceptable(rules, b) {
      forall t | t in b.relations ensures WellFormedTriple(t) && CleanTriple(rules, t) && rules.Allows(t.pred) {
        var i :| 0 <= i < |b.relations| && b.relations[i] == t;
      }
      forall e | e in b.entities
        ensures 0 < |e.Name()| <= 512 && CleanText(rules, e.Name()) && CleanText(rules, DescriptionText(e))
      {
        var i :| 0 <= i < |b.entities| && b.entities[i] == e;
        EmptyIsClean(rules);
      }
    }
  }

  lemma EmptyIsClean(rules: RuleSet)
    ensures CleanText(rules, "")
  {
  }

  // ---- Stage 1 -----------------------------------------------------------

  datatype SyntaxNote =
    | MissingOrigin
    | TooManyTriples
    | TooManyEntities
    | SubjectTooLong(i: nat)
    | ObjectTooLong(i: nat)
    | EmptyField(i: nat)
    | ConfidenceOutOfRange(i: nat)
    | MissingName(i: nat)
    | NameTooLong(i: nat)

  /** The offence a syntax note reports, read off the bundle. */
  predicate Offends(b: Bundle, note: SyntaxNote)
  {
    match note
    case MissingOrigin => b.origin == ""
    case TooManyTriples => |b.relations| > MAX_BUNDLE_TRIPLES
    case TooManyEntities => |b.entities| > MAX_BUNDLE_ENTITIES
    case SubjectTooLong(i) => i < |b.relations| && |b.relations[i].subject| > MAX_TRIPLE_FIELD_LEN
    case ObjectTooLong(i) => i < |b.relations| && |b.relations[i].obj| > MAX_TRIPLE_FIELD_LEN
    case EmptyField(i) =>
      i < |b.relations| && "" in [b.relations[i].subject, b.relations[i].obj, b.relations[i].pred]
    case ConfidenceOutOfRange(i) => i < |b.relations| && !(0.0 <= b.relations[i].confidence <= 1.0)
    case MissingName(i) => i < |b.entities| && b.entities[i].Name() == ""
    case NameTooLong(i) => i < |b.entities| && |b.entities[i].Name()| > MAX_ENTITY_NAME_LEN
  }

  predicate AboutTriple(note: SyntaxNote)
  {
    note.SubjectTooLong? || note.ObjectTooLong? || note.EmptyField? || note.ConfidenceOutOfRange?
  }

  predicate AboutEntity(note: SyntaxNote)
  {
    note.MissingName? || note.NameTooLong?
  }

  /** No offence at all is the same as being well-formed. */
  lemma OffencesDecideWellFormed(b: Bundle)
    ensures WellFormed(b) <==> forall note :: !Offends(b, note)
  {
    if forall note :: !Offends(b, note) {
      assert !Offends(b, MissingOrigin) && !Offends(b, TooManyTriples) && !Offends(b, TooManyEntities);
      forall t | t in b.relations ensures WellFormedTriple(t) {
        var i: nat :| i < |b.relations| && b.relations[i] == t;
        assert !Offends(b, SubjectTooLong(i)) && !Offends(b, ObjectTooLong(i));
        assert !Offends(b, EmptyField(i)) && !Offends(b, ConfidenceOutOfRange(i));
        assert t.subject != "" && t.obj != "" && t.pred != "";
      }
      forall e | e in b.entities ensures 0 < |e.Name()| <= MAX_ENTITY_NAME_LEN {
        var i: nat :| i < |b.entities| && b.entities[i] == e;
        assert !Offends(b, MissingName(i)) && !Offends(b, NameTooLong(i));
      }
    }
    if WellFormed(b) {
      forall note ensures !Offends(b, note) {
        if AboutTriple(note) && note.i < |b.relations| {
          assert WellFormedTriple(b.relations[note.i]);
        }
        if AboutEntity(note) && note.i < |b.entities| {
          assert b.entities[note.i] in b.entities;
        }
      }
    }
  }

  /** The notes one relation earns. */
  method TripleNotes(b: Bundle, i: nat) returns (notes: seq<SyntaxNote>)
    requires i < |b.relations|
    ensures forall note :: note in notes <==> Offends(b, note) && AboutTriple(note) && note.i == i
  {
    var t := b.relations[i];
    notes := [];
    if |t.subject| > MAX_TRIPLE_FIELD_LEN {
      notes := notes + [SubjectTooLong(i)];
    }
    if |t.obj| > MAX_TRIPLE_FIELD_LEN {
      notes := notes + [ObjectTooLong(i)];
    }
    if t.subject == "" || t.obj == "" || t.pred == "" {
      notes := notes + [EmptyField(i)];
    }
    if !(0.0 <= t.confidence <= 1.0) {
      notes := notes + [ConfidenceOutOfRange(i)];
    }
  }

  /** The notes one entity earns. */
  method EntityNotes(b: Bundle, i: nat) returns (notes: seq<SyntaxNote>)
    requires i < |b.entities|
    ensures forall note :: note in notes <==> Offends(b, note) && AboutEntity(note) && note.i == i
  {
    var name := b.entities[i].Name();
    notes := [];
    if name == "" {
      notes := notes + [MissingName(i)];
    }
    if |name| > MAX_ENTITY_NAME_LEN {
      notes := notes + [NameTooLong(i)];
    }
  }

  /** Every offence is noted, every note is an offence, and `ok` decides WellFormed. */
  method Stage1Syntax(b: Bundle) returns (ok: bool, notes: seq<SyntaxNote>)
    ensures forall note :: note in notes <==> Offends(b, note)
    ensures ok <==> WellFormed(b)
    ensures ok <==> notes == []
  {
    notes := [];
    if b.origin == "" {
      notes := notes + [MissingOrigin];
    }
    if |b.relations| > MAX_BUNDLE_TRIPLES {
      notes := notes + [TooManyTriples];
    }
    if |b.entities| > MAX_BUNDLE_ENTITIES {
      notes := notes + [TooManyEntities];
    }
    for i := 0 to |b.relations|
      invariant forall note :: note in notes <==>
        Offends(b, note) && !AboutEntity(note) && (AboutTriple(note) ==> note.i < i)
    {
      var found := TripleNotes(b, i);
      notes := notes + found;
    }
    for i := 0 to |b.entities|
      invariant forall note :: note in notes <==>
        Offends(b, note) && (AboutEntity(note) ==> note.i < i)
    {
      var found := EntityNotes(b, i);
      notes := notes + found;
    }
    ok := |notes| == 0;
    assert ok <==> forall note :: !Offends(b, note) by {
      assert notes != [] ==> notes[0] in notes;
    }
    OffencesDecideWellFormed(b);
  }

  // ---- Stage 2 -----------------------------------------------------------

  datatype HeuristicNote =
    | SensitiveContent(tag: string, text: string)
    | UnknownPredicate(predicateText: string)
    | Skipped

  /** The texts stage 2 collects from the bundle. */
  predicate IsTextOf(b: Bundle, text: string)
  {
    || (exists t :: t in b.relations && text in [t.subject, t.obj, t.pred])
    || (exists e :: e in b.entities && IsTextOfItem(e, text))
  }

  /** The name or the description, each the empty text when it is missing. */
  predicate IsTextOfItem(e: Item, text: string)
  {
    || (match e.name case Some(name) => text == name case None => text == "")
    || (match e.description case Text(description) => text == description case _ => text == "")
  }

  lemma CleanMeansCleanTexts(rules: RuleSet, b: Bundle)
    ensures Clean(rules, b) <==> forall text :: IsTextOf(b, text) ==> CleanText(rules, text)
  {
    if forall text :: IsTextOf(b, text) ==> CleanText(rules, text) {
      forall t | t in b.relations ensures CleanTriple(rules, t) {
        var fields := [t.subject, t.obj, t.pred];
        assert fields[0] in fields && fields[1] in fields && fields[2] in fields;
        assert IsTextOf(b, t.subject) && IsTextOf(b, t.obj) && IsTextOf(b, t.pred);
      }
      forall e | e in b.entities ensures CleanText(rules, e.Name()) && CleanText(rules, DescriptionText(e)) {
        assert IsTextOfItem(e, e.Name()) && IsTextOfItem(e, DescriptionText(e));
        assert IsTextOf(b, e.Name()) && IsTextOf(b, DescriptionText(e));
      }
    }
  }

  /** `texts` of stage 2: relation texts first, then names and descriptions. */
  method CollectTexts(b: Bundle) returns (texts: seq<string>)
    ensures forall text :: text in texts <==> IsTextOf(b, text)
  {
    texts := [];
    for i := 0 to |b.relations|
      invariant forall text :: text in texts <==>
        exists j :: 0 <= j < i && text in [b.relations[j].subject, b.relations[j].obj, b.relations[j].pred]
    {
      var t := b.relations[i];
      texts := texts + [t.subject, t.obj, t.pred];
    }
    ghost var fromRelations := texts;
    for i := 0 to |b.entities|
      invariant forall text :: text in texts <==>
        || text in fromRelations
        || exists j :: 0 <= j < i && IsTextOfItem(b.entities[j], text)
    {
      var e := b.entities[i];
      texts := texts + [e.Name()];
      texts := texts + [DescriptionText(e)];
    }
  }

  /** The note says that one of the patterns finds something in this text. */
  predicate Finds(rules: RuleSet, text: string, note: HeuristicNote)
  {
    && note.SensitiveContent? && note.text == text && text != ""
    && exists k :: 0 <= k < |rules.patterns| && rules.patterns[k].tag == note.tag && rules.patterns[k].search(text)
  }

  /** The note says that the predicate of relation i is not allowed. */
  predicate Unlisted(rules: RuleSet, b: Bundle, i: nat, note: HeuristicNote)
    requires i < |b.relations|
  {
    note == UnknownPredicate(b.relations[i].pred) && rules.upper(b.relations[i].pred) !in rules.allowed
  }

  /** What stage 2 has to report of a bundle. */
  ghost predicate Reports(rules: RuleSet, b: Bundle, note: HeuristicNote)
  {
    || (exists text :: IsTextOf(b, text) && Finds(rules, text, note))
    || (exists i :: 0 <= i < |b.relations| && Unlisted(rules, b, i, note))
  }

  /** Nothing to report is the same as being clean with allowed predicates only. */
  lemma ReportsDecideClean(rules: RuleSet, b: Bundle)
    ensures Clean(rules, b) && AllowedRelations(rules, b) <==> forall note :: !Reports(rules, b, note)
  {
    CleanMeansCleanTexts(rules, b);
    if Clean(rules, b) && AllowedRelations(rules, b) {
      forall note ensures !Reports(rules, b, note) {
        forall text | IsTextOf(b, text) ensures !Finds(rules, text, note) {
          assert CleanText(rules, text);
        }
        assert forall i :: 0 <= i < |b.relations| ==>
          b.relations[i] in b.relations && rules.Allows(b.relations[i].pred);
      }
    }
    if forall note :: !Reports(rules, b, note) {
      forall text | IsTextOf(b, text) ensures CleanText(rules, text) {
        forall k | 0 <= k < |rules.patterns| && text != "" ensures !rules.patterns[k].search(text) {
          assert !Reports(rules, b, SensitiveContent(rules.patterns[k].tag, text));
          assert !Finds(rules, text, SensitiveContent(rules.patterns[k].tag, text));
        }
      }
      forall t | t in b.relations ensures rules.Allows(t.pred) {
        var i: nat :| i < |b.relations| && b.relations[i] == t;
        assert !Reports(rules, b, UnknownPredicate(t.pred));
        assert !Unlisted(rules, b, i, UnknownPredicate(t.pred));
      }
    }
  }

  /** The notes one text earns. */
  method ScanText(rules: RuleSet, text: string) returns (notes: seq<HeuristicNote>)
    ensures forall note :: note in notes <==> Finds(rules, text, note)
  {
    notes := [];
    if text == "" {
      return;
    }
    for k := 0 to |rules.patterns|
      invariant forall note :: note in notes <==>
        && note.SensitiveContent? && note.text == text
        && exists m :: 0 <= m < k && rules.patterns[m].tag == note.tag && rules.patterns[m].search(text)
    {
      if rules.patterns[k].search(text) {
        notes := notes + [SensitiveContent(rules.patterns[k].tag, text)];
      }
    }
  }

  /** Stage 2 reports every pattern that finds something in a text and every predicate that
      is not allowed, and passes exactly the bundles it has nothing to report of. */
  method Stage2Heuristics(rules: RuleSet, b: Bundle) returns (ok: bool, notes: seq<HeuristicNote>)
    ensures forall note :: note in notes <==> Reports(rules, b, note)
    ensures ok <==> Clean(rules, b) && AllowedRelations(rules, b)
    ensures ok <==> notes == []
  {
    notes := [];
    var texts := CollectTexts(b);
    for i := 0 to |texts|
      invariant forall note :: note in notes <==> exists j :: 0 <= j < i && Finds(rules, texts[j], note)
    {
      var found := ScanText(rules, texts[i]);
      notes := notes + found;
    }
    ghost var scanned := notes;
    assert forall note :: note in scanned <==> exists text :: IsTextOf(b, text) && Finds(rules, text, note) by {
      assert forall text :: IsTextOf(b, text) ==> exists j :: 0 <= j < |texts| && texts[j] == text;
      assert forall j :: 0 <= j < |texts| ==> IsTextOf(b, texts[j]);
    }
    for i := 0 to |b.relations|
      invariant forall note :: note in notes <==>
        note in scanned || exists j :: 0 <= j < i && Unlisted(rules, b, j, note)
    {
      ghost var before := notes;
      if rules.upper(b.relations[i].pred) !in rules.allowed {
        notes := notes + [UnknownPredicate(b.relations[i].pred)];
      }
      assert forall note :: note in notes <==> note in before || Unlisted(rules, b, i, note);
    }
    assert forall note :: note in notes <==> Reports(rules, b, note);
    ok := |notes| == 0;
    assert ok <==> forall note :: !Reports(rules, b, note) by {
      assert notes != [] ==> notes[0] in notes;
    }
    ReportsDecideClean(rules, b);
  }

  // ---- The pipeline ------------------------------------------------------

  datatype Note = Syntax(s: SyntaxNote) | Heuristic(h: HeuristicNote)

  datatype AuditResult = AuditResult(
    syntaxOk: bool, heuristicOk: bool, llmTriageOk: Option<bool>, passed: bool, notes: seq<Note>)

  /** `passed` decides Passes and is the same as having no note; a failed bundle
      always has `heuristicOk` false, also when only its syntax was wrong. */
  method RunPreAudit(rules: RuleSet, b: Bundle) returns (result: AuditResult)
    ensures result.passed <==> Passes(rules, b)
    ensures result.passed <==> Acceptable(rules, b)
    ensures result.passed <==> result.notes == []
    ensures result.syntaxOk <==> WellFormed(b)
    ensures result.heuristicOk <==> result.passed
    ensures result.llmTriageOk == None
    ensures forall note :: Syntax(note) in result.notes <==> Offends(b, note)
    ensures forall note :: Heuristic(note) in result.notes <==> WellFormed(b) && Reports(rules, b, note)
  {
    PassesIsAcceptable(rules, b);
    hide Acceptable;
    var syntaxOk, syntaxNotes := Stage1Syntax(b);
    var heuristicOk, heuristicNotes := false, [Skipped];
    if syntaxOk {
      heuristicOk, heuristicNotes := Stage2Heuristics(rules, b);
    }
    assert Skipped in heuristicNotes <==> !syntaxOk;
    var notes: seq<Note> := [];
    if syntaxNotes != [] {
      notes := notes + seq(|syntaxNotes|, i requires 0 <= i < |syntaxNotes| => Syntax(syntaxNotes[i]));
    }
    ghost var first := notes;
    assert forall note :: Syntax(note) in first <==> note in syntaxNotes by {
      assert forall i :: 0 <= i < |syntaxNotes| ==> first[i] == Syntax(syntaxNotes[i]);
    }
    if heuristicNotes != [] && heuristicNotes != [Skipped] {
      var more := seq(|heuristicNotes|, i requires 0 <= i < |heuristicNotes| => Heuristic(heuristicNotes[i]));
      assert forall i :: 0 <= i < |heuristicNotes| ==> more[i] == Heuristic(heuristicNotes[i]);
      assert forall note :: Heuristic(note) in more <==> note in heuristicNotes;
      notes := notes + more;
    }
    result := AuditResult(syntaxOk, heuristicOk, None, syntaxOk && heuristicOk, notes);
  }
}

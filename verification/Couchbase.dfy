/** The document-store authority of the generated services: publication as read, check, bump the
    counter, insert or replace, by any number of writers at once. Each state carries, beside the
    documents, the atomic store of FlagStore, which takes one publish at the moment a writer's
    outcome is settled; the theorems say the two never disagree. */
module Couchbase {
  import opened Wrappers
  import opened Flags
  import opened Listing
  import opened Text
  import FlagStore

  type Store = FlagStore.Store

  function DocumentKey(environment: string, key: string): string {
    "flag::" + environment + "::" + key
  }

  /** Distinct flags never share a document: it is enough that environments hold no colon. */
  lemma DocumentKeyIsInjective(a: FlagId, b: FlagId)
    requires ':' !in a.environment && ':' !in b.environment
    requires DocumentKey(a.environment, a.key) == DocumentKey(b.environment, b.key)
    ensures a == b
  {
    var x, y := DocumentKey(a.environment, a.key), DocumentKey(b.environment, b.key);
    assert x[6..] == a.environment + [':'] + (":" + a.key);
    assert y[6..] == b.environment + [':'] + (":" + b.key);
    SplitsOnce(a.environment, b.environment, ':', ":" + a.key, ":" + b.key);
    assert (":" + a.key)[1..] == a.key && (":" + b.key)[1..] == b.key;
  }

  /** Without the segment check they could. */
  lemma UncheckedSegmentsCollide()
    ensures DocumentKey("a", "b::c") == DocumentKey("a::b", "c")
  {
  }

  datatype Row = Row(sequence: nat, environment: string, key: string, revision: int, actor: string, occurredAt: int)

  datatype Document = Document(environment: string, key: string, revision: int, definition: Flag, audit: seq<Row>)

  datatype Stored = Stored(document: Document, cas: nat)

  datatype Publication = Publication(environment: string, flag: Flag, expected: int, actor: string) {
    function Id(): FlagId { FlagId(environment, flag.key) }

    function Key(): string { DocumentKey(environment, flag.key) }
  }

  /** A writer's position, and when it is done what it returned and what the atomic store would
      have returned. */
  datatype Writer =
    | Started(op: Publication)
    | Checked(op: Publication, current: Option<Stored>, now: int)
    | Sequenced(op: Publication, current: Option<Stored>, now: int, sequence: nat)
    | Done(op: Publication, result: Result<Flag, Error>, atomic: Result<Flag, Error>)
    | Abandoned

  datatype State = State(
    documents: map<string, Stored>,
    counter: nat,
    nextCas: nat,
    writers: map<nat, Writer>,
    atomic: Store)

  datatype Move =
    | Start(writer: nat, op: Publication)
    | ReadAndCheck(writer: nat, now: int)
    | Bump(writer: nat)
    | Write(writer: nat)
    | Abandon(writer: nat)

  /** Whether a revision read from the store, if any, is the expected one. */
  predicate RevisionMatches(current: Option<int>, expected: int) {
    (current.None? && expected == 0) || current == Some(expected)
  }

  function Find(s: State, key: string): Option<Stored> {
    if key in s.documents then Some(s.documents[key]) else None
  }

  function RevisionIn(current: Option<Stored>): Option<int> {
    match current
    case None => None
    case Some(stored) => Some(stored.document.revision)
  }

  /** Route and flag validation come before the authority. */
  predicate Allowed(s: State, m: Move) {
    match m
    case Start(w, op) => w !in s.writers && ValidKey(op.environment) && ValidKey(op.flag.key)
    case ReadAndCheck(w, _) => w in s.writers && s.writers[w].Started?
    case Bump(w) => w in s.writers && s.writers[w].Checked?
    case Write(w) => w in s.writers && s.writers[w].Sequenced?
    case Abandon(w) => w in s.writers && !s.writers[w].Done?
  }

  /** The writer returns, and the atomic store publishes the same thing at this moment. */
  function Settle(s: State, w: nat, op: Publication, now: int, result: Result<Flag, Error>): State {
    var (store, atomic) := FlagStore.PublishStep(s.atomic, op.environment, op.flag, op.expected, op.actor, now);
    s.(atomic := store, writers := s.writers[w := Done(op, result, atomic)])
  }

  function NewDocument(op: Publication, current: Option<Stored>, now: int, sequence: nat): Document {
    var published := FlagStore.Published(op.flag, op.expected + 1, now);
    var history := match current case None => [] case Some(stored) => stored.document.audit;
    Document(op.environment, op.flag.key, published.revision, published,
             history + [Row(sequence, op.environment, op.flag.key, published.revision, op.actor, published.updatedAt)])
  }

  /** An insert needs the key to be free, a replace the version that was read. */
  predicate WriteLands(s: State, op: Publication, current: Option<Stored>) {
    match current
    case None => op.Key() !in s.documents
    case Some(stored) => op.Key() in s.documents && s.documents[op.Key()].cas == stored.cas
  }

  /** Why a write did not land. A document that was read and is gone is not found, which is let
      through as it is. */
  function WriteError(s: State, op: Publication, current: Option<Stored>): Error {
    if current.Some? && op.Key() !in s.documents then NotFound else Conflict
  }

  function After(s: State, m: Move): State
    requires Allowed(s, m)
  {
    match m
    case Start(w, op) => s.(writers := s.writers[w := Started(op)])
    case ReadAndCheck(w, now) =>
      var op := s.writers[w].op;
      var current := Find(s, op.Key());
      if RevisionMatches(RevisionIn(current), op.expected) then s.(writers := s.writers[w := Checked(op, current, now)])
      else Settle(s, w, op, now, Err(Conflict))
    case Bump(w) =>
      var Checked(op, current, now) := s.writers[w];
      s.(counter := s.counter + 1, writers := s.writers[w := Sequenced(op, current, now, s.counter + 1)])
    case Write(w) =>
      var Sequenced(op, current, now, sequence) := s.writers[w];
      if WriteLands(s, op, current) then
        var document := NewDocument(op, current, now, sequence);
        Settle(s, w, op, now, Ok(document.definition)).(
          documents := s.documents[op.Key() := Stored(document, s.nextCas)], nextCas := s.nextCas + 1)
      else Settle(s, w, op, now, Err(WriteError(s, op, current)))
    case Abandon(w) => s.(writers := s.writers[w := Abandoned])
  }

  const INITIAL := State(map[], 0, 0, map[], FlagStore.Store(map[], []))

  ghost predicate Behavior(ss: seq<State>, moves: seq<Move>) {
    && |ss| == |moves| + 1
    && ss[0] == INITIAL
    && forall i | 0 <= i < |moves| :: Allowed(ss[i], moves[i]) && ss[i + 1] == After(ss[i], moves[i])
  }

  // ---------------------------------------------------------------------------------------
  // The documents and the atomic store agree
  // ---------------------------------------------------------------------------------------

  /** A row without the sequence number, which the two stores assign differently. */
  datatype Fact = Fact(environment: string, key: string, revision: int, actor: string, occurredAt: int)

  function Facts(rows: seq<Row>): seq<Fact> {
    seq(|rows|, i requires 0 <= i < |rows| =>
      Fact(rows[i].environment, rows[i].key, rows[i].revision, rows[i].actor, rows[i].occurredAt))
  }

  /** The atomic store's rows about one flag, oldest first. */
  function AtomicFacts(audit: seq<FlagStore.AuditEntry>, id: FlagId): seq<Fact> {
    if audit == [] then []
    else
      var rest := AtomicFacts(audit[..|audit| - 1], id);
      var last := audit[|audit| - 1];
      if FlagId(last.environment, last.key) == id then
        rest + [Fact(last.environment, last.key, last.revision, last.actor, last.occurredAt)]
      else rest
  }

  /** A document's revision is its definition's and the number of its rows, which list the
      revisions in order. */
  predicate DocumentSound(d: Document) {
    && d.revision == d.definition.revision == |d.audit|
    && d.revision >= 1
    && d.definition.key == d.key
    && ValidKey(d.environment) && ValidKey(d.key)
    && forall i | 0 <= i < |d.audit| ::
         d.audit[i].revision == i + 1 && d.audit[i].environment == d.environment && d.audit[i].key == d.key
  }

  ghost predicate DocumentsSound(s: State) {
    forall k | k in s.documents ::
      var stored := s.documents[k];
      && k == DocumentKey(stored.document.environment, stored.document.key)
      && DocumentSound(stored.document)
      && stored.cas < s.nextCas
  }

  /** One flag's share of the agreement. */
  predicate AgreeOn(s: State, id: FlagId) {
    var found := Find(s, DocumentKey(id.environment, id.key));
    && (found.Some? <==> id in s.atomic.flags)
    && (found.Some? ==> found.value.document.definition == s.atomic.flags[id])
    && AtomicFacts(s.atomic.audit, id) == (if found.Some? then Facts(found.value.document.audit) else [])
  }

  /** Apart from sequence numbers, the documents are the atomic store's flags and rows. */
  ghost predicate Agree(s: State) {
    && (forall id | id in s.atomic.flags :: ValidKey(id.environment))
    && (forall id: FlagId | ValidKey(id.environment) :: AgreeOn(s, id))
  }

  /** What a writer read is still there, or has been overtaken by a later revision. */
  predicate ReadSound(s: State, op: Publication, current: Option<Stored>) {
    && ValidKey(op.environment) && ValidKey(op.flag.key)
    && RevisionMatches(RevisionIn(current), op.expected)
    && (current.Some? ==>
          && DocumentSound(current.value.document)
          && op.Key() in s.documents
          && current.value.document.environment == op.environment && current.value.document.key == op.flag.key
          && (if s.documents[op.Key()].cas == current.value.cas then s.documents[op.Key()] == current.value
              else s.documents[op.Key()].document.revision > current.value.document.revision)
          && current.value.cas < s.nextCas)
  }

  predicate WriterSound(s: State, writer: Writer) {
    match writer
    case Started(op) => ValidKey(op.environment) && ValidKey(op.flag.key)
    case Checked(op, current, _) => ReadSound(s, op, current)
    case Sequenced(op, current, _, _) => ReadSound(s, op, current)
    case Done(_, result, atomic) => result == atomic
    case Abandoned => true
  }

  ghost predicate WritersSound(s: State) {
    forall w | w in s.writers :: WriterSound(s, s.writers[w])
  }

  ghost predicate Sound(s: State) {
    DocumentsSound(s) && Agree(s) && WritersSound(s)
  }

  lemma KeysOfValidIds(a: FlagId, b: FlagId)
    requires ValidKey(a.environment) && ValidKey(b.environment)
    ensures DocumentKey(a.environment, a.key) == DocumentKey(b.environment, b.key) <==> a == b
  {
    assert ':' !in a.environment && ':' !in b.environment;
    if DocumentKey(a.environment, a.key) == DocumentKey(b.environment, b.key) { DocumentKeyIsInjective(a, b); }
  }

  /** The row the atomic store appends for a publish that it accepts. */
  function AtomicRow(s: State, op: Publication, now: int): FlagStore.AuditEntry {
    FlagStore.AuditEntry(|s.atomic.audit| + 1, op.environment, op.flag.key, op.expected + 1, op.actor, "published", now)
  }

  /** The atomic store accepts a publish exactly when the document now stored has its revision. */
  lemma AtomicDecides(s: State, op: Publication, now: int)
    requires Agree(s) && DocumentsSound(s) && ValidKey(op.environment)
    ensures var (store, r) := FlagStore.PublishStep(s.atomic, op.environment, op.flag, op.expected, op.actor, now);
      if RevisionMatches(RevisionIn(Find(s, op.Key())), op.expected) then
        && r == Ok(FlagStore.Published(op.flag, op.expected + 1, now))
        && store.flags == s.atomic.flags[op.Id() := r.value]
        && store.audit == s.atomic.audit + [AtomicRow(s, op, now)]
      else r == Err(Conflict) && store == s.atomic
  {
    hide ValidKey;
    var found := Find(s, op.Key());
    assert AgreeOn(s, op.Id());
    if found.Some? { assert found.value.document.definition == s.atomic.flags[op.Id()]; }
  }

  /** A write lands exactly when the revision that was checked is still the stored one. */
  lemma LandsIfCurrent(s: State, op: Publication, current: Option<Stored>)
    requires DocumentsSound(s) && ReadSound(s, op, current)
    ensures WriteLands(s, op, current) ==> Find(s, op.Key()) == current
    ensures WriteLands(s, op, current) <==> RevisionMatches(RevisionIn(Find(s, op.Key())), op.expected)
  {
    hide ValidKey, DocumentKey;
    if op.Key() in s.documents { assert DocumentSound(s.documents[op.Key()].document); }
  }

  lemma NewDocumentIsSound(op: Publication, current: Option<Stored>, now: int, sequence: nat)
    requires ValidKey(op.environment) && ValidKey(op.flag.key) && RevisionMatches(RevisionIn(current), op.expected)
    requires current.Some? ==>
      DocumentSound(current.value.document) && current.value.document.environment == op.environment && current.value.document.key == op.flag.key
    ensures DocumentSound(NewDocument(op, current, now, sequence))
  {
  }

  /** Everything but one writer's position stayed. */
  predicate Steady(s: State, v: State, w: nat) {
    && v.documents == s.documents && v.nextCas == s.nextCas && v.atomic == s.atomic
    && w in v.writers && v.writers == s.writers[w := v.writers[w]]
  }

  lemma SteadyKeepsSound(s: State, v: State, w: nat)
    requires Sound(s) && Steady(s, v, w) && WriterSound(v, v.writers[w])
    ensures Sound(v)
  {
    hide ValidKey, DocumentKey, DocumentSound, AtomicFacts, Facts;
    forall id: FlagId | ValidKey(id.environment) ensures AgreeOn(v, id) { assert AgreeOn(s, id); }
    forall o | o in v.writers ensures WriterSound(v, v.writers[o]) {
      if o != w { assert WriterSound(s, s.writers[o]); }
    }
  }

  /** One document was written by a writer whose read was still current. */
  ghost predicate Landing(s: State, v: State, w: nat, op: Publication, current: Option<Stored>, now: int, sequence: nat) {
    && w in s.writers && s.writers[w] == Sequenced(op, current, now, sequence) && ReadSound(s, op, current)
    && Find(s, op.Key()) == current
    && v.documents == s.documents[op.Key() := Stored(NewDocument(op, current, now, sequence), s.nextCas)]
    && v.nextCas == s.nextCas + 1
    && v.atomic.flags == s.atomic.flags[op.Id() := FlagStore.Published(op.flag, op.expected + 1, now)]
    && v.atomic.audit == s.atomic.audit + [AtomicRow(s, op, now)]
    && v.writers == s.writers[w := Done(op, Ok(FlagStore.Published(op.flag, op.expected + 1, now)), Ok(FlagStore.Published(op.flag, op.expected + 1, now)))]
  }

  lemma LandingKeepsDocuments(s: State, v: State, w: nat, op: Publication, current: Option<Stored>, now: int, sequence: nat)
    requires DocumentsSound(s) && Landing(s, v, w, op, current, now, sequence)
    ensures DocumentsSound(v)
  {
    NewDocumentIsSound(op, current, now, sequence);
    hide ValidKey, DocumentKey, DocumentSound;
  }

  lemma LandingKeepsWriters(s: State, v: State, w: nat, op: Publication, current: Option<Stored>, now: int, sequence: nat)
    requires WritersSound(s) && Landing(s, v, w, op, current, now, sequence)
    ensures WritersSound(v)
  {
    hide ValidKey, DocumentKey, DocumentSound;
    forall o | o in v.writers ensures WriterSound(v, v.writers[o]) {
      if o != w {
        assert WriterSound(s, s.writers[o]);
        if s.writers[o].Checked? || s.writers[o].Sequenced? {
          ReadSurvives(s, v, w, op, current, now, sequence, s.writers[o].op, s.writers[o].current);
        }
      }
    }
  }

  /** A read that was current before the landing is overtaken by it; one that was overtaken still is. */
  lemma ReadSurvives(s: State, v: State, w: nat, op: Publication, current: Option<Stored>, now: int, sequence: nat, other: Publication, read: Option<Stored>)
    requires Landing(s, v, w, op, current, now, sequence) && ReadSound(s, other, read)
    ensures ReadSound(v, other, read)
  {
    hide ValidKey, DocumentSound;
  }

  lemma FactsGrow(s: State, op: Publication, now: int, id: FlagId)
    ensures AtomicFacts(s.atomic.audit + [AtomicRow(s, op, now)], id)
         == AtomicFacts(s.atomic.audit, id)
            + (if id == op.Id() then [Fact(op.environment, op.flag.key, op.expected + 1, op.actor, now)] else [])
  {
    var longer := s.atomic.audit + [AtomicRow(s, op, now)];
    assert longer[..|longer| - 1] == s.atomic.audit;
  }

  lemma NewDocumentFacts(op: Publication, current: Option<Stored>, now: int, sequence: nat)
    ensures Facts(NewDocument(op, current, now, sequence).audit)
         == (if current.Some? then Facts(current.value.document.audit) else [])
            + [Fact(op.environment, op.flag.key, op.expected + 1, op.actor, now)]
  {
  }

  lemma LandingKeepsAgreement(s: State, v: State, w: nat, op: Publication, current: Option<Stored>, now: int, sequence: nat)
    requires Agree(s) && Landing(s, v, w, op, current, now, sequence)
    ensures Agree(v)
  {
    forall id: FlagId | ValidKey(id.environment) ensures AgreeOn(v, id) {
      KeysOfValidIds(id, op.Id());
      FactsGrow(s, op, now, id);
      NewDocumentFacts(op, current, now, sequence);
      assert AgreeOn(s, id);
      hide ValidKey, DocumentKey, DocumentSound, AtomicFacts, Facts, ReadSound;
    }
  }

  lemma WriteKeepsSound(s: State, m: Move)
    requires Sound(s) && m.Write? && Allowed(s, m)
    ensures Sound(After(s, m))
  {
    var Sequenced(op, current, now, sequence) := s.writers[m.writer];
    assert WriterSound(s, s.writers[m.writer]);
    LandsIfCurrent(s, op, current);
    AtomicDecides(s, op, now);
    hide ValidKey, DocumentKey, DocumentSound, DocumentsSound, Agree, WritersSound, FlagStore.PublishStep, ReadSound;
    var v := After(s, m);
    if WriteLands(s, op, current) {
      LandingKeepsDocuments(s, v, m.writer, op, current, now, sequence);
      LandingKeepsWriters(s, v, m.writer, op, current, now, sequence);
      LandingKeepsAgreement(s, v, m.writer, op, current, now, sequence);
    } else {
      SteadyKeepsSound(s, v, m.writer);
    }
  }

  lemma ReadKeepsSound(s: State, m: Move)
    requires Sound(s) && m.ReadAndCheck? && Allowed(s, m)
    ensures Sound(After(s, m))
  {
    var op := s.writers[m.writer].op;
    assert WriterSound(s, s.writers[m.writer]);
    AtomicDecides(s, op, m.now);
    hide Agree, WritersSound, FlagStore.PublishStep;
    var v, found := After(s, m), Find(s, op.Key());
    if found.Some? {
      KeysOfValidIds(FlagId(found.value.document.environment, found.value.document.key), op.Id());
    }
    hide ValidKey, DocumentKey, DocumentSound;
    SteadyKeepsSound(s, v, m.writer);
  }

  lemma MoveKeepsSound(s: State, m: Move)
    requires Sound(s) && Allowed(s, m)
    ensures Sound(After(s, m))
  {
    if m.Write? {
      WriteKeepsSound(s, m);
    } else if m.ReadAndCheck? {
      ReadKeepsSound(s, m);
    } else {
      assert m.Bump? ==> WriterSound(s, s.writers[m.writer]);
      hide ValidKey, DocumentKey, DocumentSound, DocumentsSound, Agree;
      SteadyKeepsSound(s, After(s, m), m.writer);
    }
  }

  lemma {:induction false} AlwaysSound(ss: seq<State>, moves: seq<Move>, i: nat)
    requires Behavior(ss, moves) && i < |ss|
    ensures Sound(ss[i])
    decreases i
  {
    hide After, Allowed;
    if i > 0 {
      AlwaysSound(ss, moves, i - 1);
      hide Sound;
      MoveKeepsSound(ss[i - 1], moves[i - 1]);
    }
  }

  // ---------------------------------------------------------------------------------------
  // One writer undisturbed
  // ---------------------------------------------------------------------------------------

  /** The moves of one writer with nothing in between. */
  function Alone(s: State, w: nat, op: Publication, now: int): State
    requires Allowed(s, Start(w, op))
  {
    var checked := After(After(s, Start(w, op)), ReadAndCheck(w, now));
    if checked.writers[w].Done? then checked else After(After(checked, Bump(w)), Write(w))
  }

  /** An undisturbed publish does and answers what the atomic store does, and never finds its
      document taken at the last moment. */
  lemma UndisturbedIsAtomic(s: State, w: nat, op: Publication, now: int)
    requires Sound(s) && Allowed(s, Start(w, op))
    ensures var v := Alone(s, w, op, now);
      && Sound(v) && v.writers[w].Done?
      && (v.atomic, v.writers[w].result)
         == FlagStore.PublishStep(s.atomic, op.environment, op.flag, op.expected, op.actor, now)
      && (v.writers[w].result.Err? <==> v.documents == s.documents)
  {
    var started := After(s, Start(w, op));
    var checked := After(started, ReadAndCheck(w, now));
    MoveKeepsSound(s, Start(w, op));
    MoveKeepsSound(started, ReadAndCheck(w, now));
    AtomicDecides(s, op, now);
    hide Sound, FlagStore.PublishStep, ValidKey, DocumentKey, NewDocument;
    if !checked.writers[w].Done? {
      MoveKeepsSound(checked, Bump(w));
      MoveKeepsSound(After(checked, Bump(w)), Write(w));
      FreshCas(s, op);
    }
  }

  lemma FreshCas(s: State, op: Publication)
    requires Sound(s)
    ensures op.Key() in s.documents ==> s.documents[op.Key()].cas < s.nextCas
  {
  }

  /** The bucket as its client sees it: documents with version stamps, and a counter. */
  class Bucket {
    var documents: map<string, Stored>
    var counter: nat
    var nextCas: nat

    constructor ()
      ensures documents == map[] && counter == 0 && nextCas == 0
    {
      documents, counter, nextCas := map[], 0, 0;
    }

    /** This is the bucket of the machine's state s. */
    predicate Shows(s: State)
      reads this
    {
      documents == s.documents && counter == s.counter && nextCas == s.nextCas
    }

    method ReadDocument(environment: string, key: string) returns (r: Option<Stored>)
      ensures r.Some? <==> DocumentKey(environment, key) in documents
      ensures r.Some? ==> r.value == documents[DocumentKey(environment, key)]
    {
      var id := DocumentKey(environment, key);
      return if id in documents then Some(documents[id]) else None;
    }

    method InsertDocument(environment: string, key: string, document: Document) returns (r: Result<(), Error>)
      modifies this
      ensures counter == old(counter)
      ensures r == (if DocumentKey(environment, key) in old(documents) then Err(Conflict) else Ok(()))
      ensures r.Ok? ==> documents == old(documents)[DocumentKey(environment, key) := Stored(document, old(nextCas))] && nextCas == old(nextCas) + 1
      ensures r.Err? ==> documents == old(documents) && nextCas == old(nextCas)
    {
      var id := DocumentKey(environment, key);
      if id in documents {
        return Err(Conflict);
      }
      documents, nextCas := documents[id := Stored(document, nextCas)], nextCas + 1;
      return Ok(());
    }

    method ReplaceDocument(environment: string, key: string, document: Document, cas: nat) returns (r: Result<(), Error>)
      modifies this
      ensures counter == old(counter)
      ensures r.Ok? <==> DocumentKey(environment, key) in old(documents) && old(documents)[DocumentKey(environment, key)].cas == cas
      ensures r.Ok? ==> documents == old(documents)[DocumentKey(environment, key) := Stored(document, old(nextCas))] && nextCas == old(nextCas) + 1
      ensures r == Err(NotFound) <==> DocumentKey(environment, key) !in old(documents)
      ensures r.Err? ==> r.error in {Conflict, NotFound} && documents == old(documents) && nextCas == old(nextCas)
    {
      var id := DocumentKey(environment, key);
      if id !in documents {
        return Err(NotFound);
      }
      if documents[id].cas != cas {
        return Err(Conflict);
      }
      documents, nextCas := documents[id := Stored(document, nextCas)], nextCas + 1;
      return Ok(());
    }

    method NextSequence() returns (sequence: nat)
      modifies `counter
      ensures sequence == counter == old(counter) + 1
    {
      counter := counter + 1;
      return counter;
    }

    /** The whole publish as one writer's call, whose moves in a machine showing this bucket are
        exactly those of the writer undisturbed. */
    method Publish(op: Publication, now: int, ghost s: State, ghost w: nat) returns (r: Result<Flag, Error>)
      requires Shows(s) && Allowed(s, Start(w, op))
      modifies this
      ensures Shows(Alone(s, w, op, now))
      ensures Alone(s, w, op, now).writers[w].Done? && r == Alone(s, w, op, now).writers[w].result
    {
      hide DocumentKey, ValidKey, FlagStore.PublishStep;
      var current := ReadDocument(op.environment, op.flag.key);
      if !RevisionMatches(RevisionIn(current), op.expected) {
        return Err(Conflict);
      }
      var published := FlagStore.Published(op.flag, op.expected + 1, now);
      var sequence := NextSequence();
      var history := if current.Some? then current.value.document.audit else [];
      var row := Row(sequence, op.environment, op.flag.key, published.revision, op.actor, published.updatedAt);
      var document := Document(op.environment, op.flag.key, published.revision, published, history + [row]);
      var written;
      match current {
        case None => written := InsertDocument(op.environment, op.flag.key, document);
        case Some(stored) => written := ReplaceDocument(op.environment, op.flag.key, document, stored.cas);
      }
      return if written.Ok? then Ok(published) else Err(Conflict);
    }
  }

  // ---------------------------------------------------------------------------------------
  // Linearizability
  // ---------------------------------------------------------------------------------------

  /** The move settles its writer's outcome: a failed check, or the final write. */
  predicate Settles(s: State, m: Move) {
    Allowed(s, m) && After(s, m).writers[m.writer].Done?
  }

  /** The publish the atomic store takes when m settles. */
  function AttemptOf(s: State, m: Move): FlagStore.Attempt
    requires Settles(s, m)
  {
    var op := After(s, m).writers[m.writer].op;
    var now := if m.ReadAndCheck? then m.now else s.writers[m.writer].now;
    FlagStore.Attempt(op.environment, op.flag, op.expected, op.actor, now, true)
  }

  /** The publishes settled by the first i moves, in the order they were settled. */
  function Attempts(ss: seq<State>, moves: seq<Move>, i: nat): seq<FlagStore.Attempt>
    requires i <= |moves| < |ss|
  {
    if i == 0 then []
    else Attempts(ss, moves, i - 1)
         + (if Settles(ss[i - 1], moves[i - 1]) then [AttemptOf(ss[i - 1], moves[i - 1])] else [])
  }

  /** The atomic store before the first of them and after each. */
  function Atomics(ss: seq<State>, moves: seq<Move>, i: nat): seq<Store>
    requires i <= |moves| < |ss|
  {
    if i == 0 then [ss[0].atomic]
    else Atomics(ss, moves, i - 1) + (if Settles(ss[i - 1], moves[i - 1]) then [ss[i].atomic] else [])
  }

  lemma SettlingIsAtomic(s: State, m: Move)
    requires Allowed(s, m)
    ensures Settles(s, m) ==>
      After(s, m).atomic == FlagStore.Next(s.atomic, AttemptOf(s, m))
      && m.writer in s.writers && !s.writers[m.writer].Done? && AttemptOf(s, m).Id() == After(s, m).writers[m.writer].op.Id()
    ensures !Settles(s, m) ==> After(s, m).atomic == s.atomic && After(s, m).documents == s.documents
  {
    hide ValidKey;
  }

  lemma StoreRunExtends(stores: seq<Store>, attempts: seq<FlagStore.Attempt>, a: FlagStore.Attempt)
    requires FlagStore.Behavior(stores, attempts)
    ensures FlagStore.Behavior(stores + [FlagStore.Next(stores[|stores| - 1], a)], attempts + [a])
  {
    var longer := attempts + [a];
    forall i | 0 <= i < |longer| ensures (stores + [FlagStore.Next(stores[|stores| - 1], a)])[i + 1] == FlagStore.Next((stores + [FlagStore.Next(stores[|stores| - 1], a)])[i], longer[i]) {
    }
  }

  /** However the writers interleave, their settled publishes in settling order are a run of the
      atomic store, which ends in the store the documents agree with. */
  lemma {:induction false} SettledPublishesAreARun(ss: seq<State>, moves: seq<Move>, i: nat)
    requires Behavior(ss, moves) && i <= |moves|
    ensures FlagStore.Behavior(Atomics(ss, moves, i), Attempts(ss, moves, i))
    ensures Atomics(ss, moves, i)[|Atomics(ss, moves, i)| - 1] == ss[i].atomic
    decreases i
  {
    hide Allowed, After, Settles, AttemptOf, FlagStore.Next;
    if i > 0 {
      SettledPublishesAreARun(ss, moves, i - 1);
      SettlingIsAtomic(ss[i - 1], moves[i - 1]);
      if Settles(ss[i - 1], moves[i - 1]) {
        StoreRunExtends(Atomics(ss, moves, i - 1), Attempts(ss, moves, i - 1), AttemptOf(ss[i - 1], moves[i - 1]));
      }
    }
  }

  /** What each settled writer returns is what the atomic store answers at that moment; a success
      commits on exactly the expected revision and a conflict would conflict atomically. */
  lemma WritersGetAtomicAnswers(ss: seq<State>, moves: seq<Move>, i: nat)
    requires Behavior(ss, moves) && i < |moves| && Settles(ss[i], moves[i])
    ensures var a := AttemptOf(ss[i], moves[i]);
      var result := ss[i + 1].writers[moves[i].writer].result;
      && result == FlagStore.PublishStep(ss[i].atomic, a.environment, a.flag, a.expected, a.actor, a.now).1
      && (result.Ok? ==> ss[i].atomic.Revision(a.Id()) == a.expected && result.value.revision == a.expected + 1)
      && (result.Err? ==> result.error == Conflict && ss[i].atomic.Revision(a.Id()) != a.expected)
  {
    AlwaysSound(ss, moves, i);
    AlwaysSound(ss, moves, i + 1);
    SettledPublishesAreARun(ss, moves, i);
    FlagStore.AuditCountsRevisions(Atomics(ss, moves, i), Attempts(ss, moves, i), |Atomics(ss, moves, i)| - 1);
    SettledAnswer(ss[i], moves[i]);
  }

  /** Writer w was started on op, and checked it at this reading if it has got so far. */
  ghost predicate Began(moves: seq<Move>, i: nat, w: nat, op: Publication)
    requires i <= |moves|
  {
    exists k :: 0 <= k < i && moves[k] == Start(w, op)
  }

  ghost predicate CheckedAt(moves: seq<Move>, i: nat, w: nat, now: int)
    requires i <= |moves|
  {
    exists k :: 0 <= k < i && moves[k] == ReadAndCheck(w, now)
  }

  ghost predicate WriterTraced(moves: seq<Move>, i: nat, w: nat, writer: Writer)
    requires i <= |moves|
  {
    && (!writer.Abandoned? ==> Began(moves, i, w, writer.op))
    && (writer.Checked? || writer.Sequenced? ==> CheckedAt(moves, i, w, writer.now))
  }

  lemma TraceStays(moves: seq<Move>, i: nat, w: nat, writer: Writer)
    requires i < |moves| && WriterTraced(moves, i, w, writer)
    ensures WriterTraced(moves, i + 1, w, writer)
  {
  }

  lemma {:induction false} AlwaysTraced(ss: seq<State>, moves: seq<Move>, i: nat, w: nat)
    requires Behavior(ss, moves) && i <= |moves| && w in ss[i].writers
    ensures WriterTraced(moves, i, w, ss[i].writers[w])
    decreases i
  {
    assert i > 0;
    var s, m := ss[i - 1], moves[i - 1];
    assert Allowed(s, m) && ss[i] == After(s, m);
    if w in s.writers {
      AlwaysTraced(ss, moves, i - 1, w);
      TraceStays(moves, i - 1, w, s.writers[w]);
    }
    WriterStep(s, m, w);
    hide After, Allowed, Behavior;
  }

  lemma WriterStep(s: State, m: Move, w: nat)
    requires Allowed(s, m) && w in After(s, m).writers
    ensures var after := After(s, m).writers[w];
      || (w in s.writers && after == s.writers[w])
      || (m.writer == w && after.Abandoned?)
      || (m.Start? && m.writer == w && after == Started(m.op))
      || (m.writer == w && w in s.writers && !s.writers[w].Abandoned? && !after.Abandoned? && after.op == s.writers[w].op
          && (after.Checked? ==> m == ReadAndCheck(w, after.now))
          && (after.Sequenced? ==> s.writers[w].Checked? && after.now == s.writers[w].now)
          && !after.Started?)
  {
    hide FlagStore.PublishStep, ValidKey;
  }

  /** What a settled writer had the atomic store take is its own publish, at the time it read when it
      checked the revision. */
  lemma AttemptsAreTheirWriters(ss: seq<State>, moves: seq<Move>, i: nat)
    requires Behavior(ss, moves) && i < |moves| && Settles(ss[i], moves[i])
    ensures var a, w := AttemptOf(ss[i], moves[i]), moves[i].writer;
      && CheckedAt(moves, i + 1, w, a.now)
      && exists op :: Began(moves, i, w, op) && a == FlagStore.Attempt(op.environment, op.flag, op.expected, op.actor, a.now, true)
  {
    var s, m := ss[i], moves[i];
    SettledWriter(s, m);
    AlwaysTraced(ss, moves, i, m.writer);
    TraceStays(moves, i, m.writer, s.writers[m.writer]);
    hide Behavior, Settles, AttemptOf, After, Allowed;
    if m.ReadAndCheck? { assert moves[i] == ReadAndCheck(m.writer, m.now); }
  }

  lemma SettledWriter(s: State, m: Move)
    requires Settles(s, m)
    ensures m.writer in s.writers && !s.writers[m.writer].Abandoned?
    ensures var op, a := s.writers[m.writer].op, AttemptOf(s, m);
      a == FlagStore.Attempt(op.environment, op.flag, op.expected, op.actor, a.now, true)
    ensures m.ReadAndCheck? ==> AttemptOf(s, m).now == m.now
    ensures !m.ReadAndCheck? ==> s.writers[m.writer].Sequenced? && AttemptOf(s, m).now == s.writers[m.writer].now
  {
    hide FlagStore.PublishStep, ValidKey;
  }

  lemma SettledAnswer(s: State, m: Move)
    requires Settles(s, m) && WritersSound(After(s, m)) && FlagStore.Sound(s.atomic)
    ensures var a := AttemptOf(s, m);
      var result := After(s, m).writers[m.writer].result;
      && result == FlagStore.PublishStep(s.atomic, a.environment, a.flag, a.expected, a.actor, a.now).1
      && (result.Ok? ==> s.atomic.Revision(a.Id()) == a.expected && result.value.revision == a.expected + 1)
      && (result.Err? ==> result.error == Conflict && s.atomic.Revision(a.Id()) != a.expected)
  {
    assert WriterSound(After(s, m), After(s, m).writers[m.writer]);
    hide ValidKey;
  }

  /** What a load finds is what the atomic store holds, and each document's revision is its
      definition's and the number of its rows. */
  lemma DocumentsAreTheStore(ss: seq<State>, moves: seq<Move>, i: nat, id: FlagId)
    requires Behavior(ss, moves) && i < |ss| && ValidKey(id.environment)
    ensures var found := Find(ss[i], DocumentKey(id.environment, id.key));
      && (found.Some? <==> id in ss[i].atomic.flags)
      && (found.Some? ==>
            && found.value.document.definition == ss[i].atomic.flags[id]
            && found.value.document.revision == found.value.document.definition.revision == |found.value.document.audit|
            && Facts(found.value.document.audit) == AtomicFacts(ss[i].atomic.audit, id))
  {
    AlwaysSound(ss, moves, i);
    assert AgreeOn(ss[i], id);
  }

  // ---------------------------------------------------------------------------------------
  // Sequence numbers
  // ---------------------------------------------------------------------------------------

  /** Strictly increasing numbers between 1 and the bound. */
  predicate Increase(rows: seq<Row>, bound: nat) {
    && (forall i | 0 <= i < |rows| :: 1 <= rows[i].sequence <= bound)
    && (forall i, j | 0 <= i < j < |rows| :: rows[i].sequence < rows[j].sequence)
  }

  predicate Carries(s: State, k: string, i: nat, sequence: nat) {
    k in s.documents && i < |s.documents[k].document.audit| && s.documents[k].document.audit[i].sequence == sequence
  }

  function History(current: Option<Stored>): seq<Row> {
    match current case None => [] case Some(stored) => stored.document.audit
  }

  predicate WriterNumbered(s: State, writer: Writer) {
    match writer
    case Checked(_, current, _) => Increase(History(current), s.counter)
    case Sequenced(_, current, _, sequence) => 1 <= sequence <= s.counter && Increase(History(current), sequence - 1)
    case _ => true
  }

  /** No number is carried twice, and one on its way to a document is carried by none and held by
      no other writer. */
  ghost predicate Numbered(s: State) {
    && (forall k | k in s.documents :: Increase(s.documents[k].document.audit, s.counter))
    && (forall k, i, l, j, n :: Carries(s, k, i, n) && Carries(s, l, j, n) ==> k == l && i == j)
    && (forall w | w in s.writers :: WriterNumbered(s, s.writers[w]))
    && (forall w, k, i | w in s.writers && s.writers[w].Sequenced? :: !Carries(s, k, i, s.writers[w].sequence))
    && (forall w, x | w in s.writers && x in s.writers && s.writers[w].Sequenced? && s.writers[x].Sequenced? ::
          s.writers[w].sequence == s.writers[x].sequence ==> w == x)
  }

  lemma SteadyKeepsNumbered(s: State, v: State, w: nat)
    requires Numbered(s) && v.documents == s.documents && v.counter == s.counter
    requires w in v.writers && v.writers == s.writers[w := v.writers[w]]
    requires WriterNumbered(s, v.writers[w]) && !v.writers[w].Sequenced?
    ensures Numbered(v)
  {
    hide Increase;
    assert forall k, i, n :: Carries(v, k, i, n) <==> Carries(s, k, i, n);
    forall o | o in v.writers ensures WriterNumbered(v, v.writers[o]) {
      if o != w { assert WriterNumbered(s, s.writers[o]); }
    }
  }

  lemma BumpKeepsNumbered(s: State, v: State, w: nat)
    requires Numbered(s) && v.documents == s.documents && v.counter == s.counter + 1
    requires w in s.writers && s.writers[w].Checked?
    requires v.writers == s.writers[w := Sequenced(s.writers[w].op, s.writers[w].current, s.writers[w].now, s.counter + 1)]
    ensures Numbered(v)
  {
    assert forall k, i, n :: Carries(v, k, i, n) <==> Carries(s, k, i, n);
    forall k: string, i: nat, n: nat | Carries(s, k, i, n) ensures n <= s.counter {
      assert Increase(s.documents[k].document.audit, s.counter);
    }
    forall o | o in s.writers ensures WriterNumbered(v, v.writers[o]) {
      assert WriterNumbered(s, s.writers[o]);
    }
    forall o | o in s.writers && s.writers[o].Sequenced? ensures s.writers[o].sequence <= s.counter {
      assert WriterNumbered(s, s.writers[o]);
    }
  }

  /** A document was extended by one row carrying its writer's number. */
  predicate Extending(s: State, v: State, w: nat, key: string) {
    && v.counter == s.counter
    && w in s.writers && s.writers[w].Sequenced?
    && w in v.writers && v.writers[w].Done? && v.writers == s.writers[w := v.writers[w]]
    && key in v.documents && v.documents == s.documents[key := v.documents[key]]
    && History(Find(s, key)) == History(s.writers[w].current)
    && |v.documents[key].document.audit| == |History(s.writers[w].current)| + 1
    && History(s.writers[w].current) == v.documents[key].document.audit[..|History(s.writers[w].current)|]
    && v.documents[key].document.audit[|History(s.writers[w].current)|].sequence == s.writers[w].sequence
  }

  lemma ExtendingCarries(s: State, v: State, w: nat, key: string, k: string, i: nat, n: nat)
    requires Extending(s, v, w, key)
    ensures Carries(v, k, i, n) <==>
      Carries(s, k, i, n) || (k == key && i == |History(s.writers[w].current)| && n == s.writers[w].sequence)
  {
    var rows := v.documents[key].document.audit;
    if k == key && i < |rows| - 1 {
      assert rows[i] == rows[..|rows| - 1][i];
      assert key in s.documents;
    }
  }

  lemma ExtendingKeepsUnique(s: State, v: State, w: nat, key: string)
    requires Numbered(s) && Extending(s, v, w, key)
    ensures forall k, i, l, j, n :: Carries(v, k, i, n) && Carries(v, l, j, n) ==> k == l && i == j
    ensures forall o, k, i | o in v.writers && v.writers[o].Sequenced? :: !Carries(v, k, i, v.writers[o].sequence)
  {
    forall k, i, n { ExtendingCarries(s, v, w, key, k, i, n); }
    hide Carries, Extending, Increase, WriterNumbered;
    assert w in s.writers && s.writers[w].Sequenced?;
  }

  lemma ExtendingKeepsNumbered(s: State, v: State, w: nat, key: string)
    requires Numbered(s) && Extending(s, v, w, key)
    ensures Numbered(v)
  {
    ExtendingKeepsUnique(s, v, w, key);
    hide Carries;
    assert WriterNumbered(s, s.writers[w]);
    var rows := v.documents[key].document.audit;
    assert Increase(rows, s.counter) by {
      assert forall i | 0 <= i < |rows| - 1 :: rows[i] == rows[..|rows| - 1][i];
    }
    hide Increase;
    forall o | o in v.writers ensures WriterNumbered(v, v.writers[o]) {
      if o != w { assert WriterNumbered(s, s.writers[o]); }
    }
  }

  /** A write that lands extends one document; one that does not changes none. */
  lemma WriteExtends(s: State, m: Move)
    requires Sound(s) && m.Write? && Allowed(s, m)
    ensures var v, op := After(s, m), s.writers[m.writer].op;
      if WriteLands(s, op, s.writers[m.writer].current) then Extending(s, v, m.writer, op.Key())
      else v.documents == s.documents && v.counter == s.counter && v.writers[m.writer].Done?
           && v.writers == s.writers[m.writer := v.writers[m.writer]]
  {
    var Sequenced(op, current, now, sequence) := s.writers[m.writer];
    assert WriterSound(s, s.writers[m.writer]);
    LandsIfCurrent(s, op, current);
    hide Sound, FlagStore.PublishStep, ReadSound, DocumentSound, ValidKey, DocumentKey, WriteError;
  }

  lemma WriteKeepsNumbered(s: State, m: Move)
    requires Sound(s) && Numbered(s) && m.Write? && Allowed(s, m)
    ensures Numbered(After(s, m))
  {
    WriteExtends(s, m);
    var v, op := After(s, m), s.writers[m.writer].op;
    hide Numbered, Sound, After, Extending, WriteLands, DocumentKey;
    if WriteLands(s, op, s.writers[m.writer].current) {
      ExtendingKeepsNumbered(s, v, m.writer, op.Key());
    } else {
      SteadyKeepsNumbered(s, v, m.writer);
    }
  }

  lemma MoveKeepsNumbered(s: State, m: Move)
    requires Sound(s) && Numbered(s) && Allowed(s, m)
    ensures Numbered(After(s, m))
  {
    var v := After(s, m);
    if m.Bump? {
      hide Numbered, Sound;
      BumpKeepsNumbered(s, v, m.writer);
    } else if m.Write? {
      hide Numbered, Sound, After, Allowed;
      WriteKeepsNumbered(s, m);
    } else {
      hide Sound, FlagStore.PublishStep, DocumentSound, ValidKey, DocumentKey;
      assert WriterNumbered(s, v.writers[m.writer]);
      hide Numbered;
      SteadyKeepsNumbered(s, v, m.writer);
    }
  }

  lemma {:induction false} AlwaysNumbered(ss: seq<State>, moves: seq<Move>, i: nat)
    requires Behavior(ss, moves) && i < |ss|
    ensures Numbered(ss[i])
    decreases i
  {
    hide After, Allowed, Sound;
    if i > 0 {
      AlwaysNumbered(ss, moves, i - 1);
      AlwaysSound(ss, moves, i - 1);
      hide Numbered;
      MoveKeepsNumbered(ss[i - 1], moves[i - 1]);
    }
  }

  /** Whatever writers fail and whatever numbers they burn: sequence numbers rise strictly within
      every document, and no two rows anywhere carry the same one. */
  lemma SequencesAreUnique(ss: seq<State>, moves: seq<Move>, t: nat, k: string, i: nat, l: string, j: nat)
    requires Behavior(ss, moves) && t < |ss|
    requires k in ss[t].documents && i < |ss[t].documents[k].document.audit|
    requires l in ss[t].documents && j < |ss[t].documents[l].document.audit|
    ensures var a, b := ss[t].documents[k].document.audit[i], ss[t].documents[l].document.audit[j];
      && (a.sequence == b.sequence ==> k == l && i == j)
      && (k == l && i < j ==> a.sequence < b.sequence)
      && 1 <= a.sequence <= ss[t].counter
  {
    hide After, Allowed;
    AlwaysNumbered(ss, moves, t);
    var n := ss[t].documents[k].document.audit[i].sequence;
    assert Carries(ss[t], k, i, n);
    assert Carries(ss[t], l, j, ss[t].documents[l].document.audit[j].sequence);
    assert Increase(ss[t].documents[k].document.audit, ss[t].counter);
  }
}

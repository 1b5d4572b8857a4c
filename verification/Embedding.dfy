/** The derived embedding queue: a note is read, its text is embedded by the host with no lock held,
    and the vector is stored only if the note still says what was read. */
module EmbeddingModel {
  import opened Data
  import opened ReplicaModel

  /** A note's staleness token: its content tag, or its stamp when it has none. */
  datatype Token = Tag(tag: string) | ByStamp(stamp: int)

  /** A vector, told by the token its note was read under, the model, and the text it was made from. */
  datatype Vector = Vector(token: Token, key: string, text: string)

  /** A stored row; no vector is a skip marker. */
  datatype Embedding = Embedding(key: string, token: Token, vector: Option<Vector>)

  datatype Corpus = Corpus(notes: map<string, Row>, embeddings: map<string, Embedding>)

  predicate Live(c: Corpus, id: string) {
    id in c.notes && Get(c.notes[id], Deleted) == Some(Bool(false))
  }

  function TokenOf(row: Row): Token {
    match Get(row, ContentTag)
    case Some(Str(tag)) => Tag(tag)
    case _ => ByStamp(StampOr0(row))
  }

  /** What it takes for a row to bear a token: its tag, or, with no tag, its stamp. */
  predicate Bears(row: Row, token: Token) {
    match token
    case Tag(tag) => Get(row, ContentTag) == Some(Str(tag))
    case ByStamp(stamp) => !(ContentTag in row && row[ContentTag].Str?) && StampOr0(row) == stamp
  }

  /** The same tag, or no tag and the same stamp. */
  predicate SameContent(a: Row, b: Row) {
    if ContentTag in a && a[ContentTag].Str? then Get(b, ContentTag) == Get(a, ContentTag)
    else !(ContentTag in b && b[ContentTag].Str?) && StampOr0(a) == StampOr0(b)
  }

  lemma TokenMeans(a: Row, b: Row)
    ensures TokenOf(a) == TokenOf(b) <==> SameContent(a, b)
    ensures forall token :: Bears(a, token) <==> TokenOf(a) == token
  {
    hide StampOr0;
  }

  /** The live note's token; None when the note is absent or deleted. */
  function NoteToken(c: Corpus, id: string): Option<Token> {
    if Live(c, id) then Some(TokenOf(c.notes[id])) else None
  }

  predicate IsCurrent(c: Corpus, id: string, key: string) {
    id in c.embeddings && c.embeddings[id].key == key && NoteToken(c, id) == Some(c.embeddings[id].token)
  }

  /** The derived queue: live notes without a row of this key and their present token. */
  function Pending(c: Corpus, key: string): set<string> {
    set id | id in c.notes && Live(c, id) && !IsCurrent(c, id, key)
  }

  function CurrentSealed(c: Corpus, id: string, key: string): Option<Vector> {
    if IsCurrent(c, id, key) then c.embeddings[id].vector else None
  }

  // ── Transactions ───────────────────────────────────────────────────────────

  /** Storing a note row; a deleted one takes its vector along. */
  function ApplyNote(c: Corpus, id: string, row: Row): Corpus {
    Corpus(c.notes[id := Project(Notes, row)], if Truthy(Get(row, Deleted)) then c.embeddings - {id} else c.embeddings)
  }

  function UpsertIfCurrent(c: Corpus, id: string, e: Embedding): Corpus {
    if NoteToken(c, id) == Some(e.token) then c.(embeddings := c.embeddings[id := e]) else c
  }

  function DropOtherKeys(c: Corpus, key: string): Corpus {
    c.(embeddings := map id | id in c.embeddings && c.embeddings[id].key == key :: c.embeddings[id])
  }

  function SweepOrphans(c: Corpus): Corpus {
    c.(embeddings := map id | id in c.embeddings && Live(c, id) :: c.embeddings[id])
  }

  /** The local tables, each method one locked store call. */
  class EmbeddingStore {
    var notes: map<string, Row>
    var embeddings: map<string, Embedding>

    function View(): Corpus
      reads this
    {
      Corpus(notes, embeddings)
    }

    method ApplyRow(id: string, row: Row)
      modifies this
      ensures View() == ApplyNote(old(View()), id, row)
      ensures Truthy(Get(row, Deleted)) ==> !Live(View(), id) && id !in embeddings
      ensures Get(row, Deleted) == Some(Bool(false)) ==> Live(View(), id) && SameContent(notes[id], row)
      ensures Live(View(), id) ==> (id in embeddings <==> id in old(embeddings))
      ensures forall x :: x != id ==>
        && (Live(View(), x) <==> Live(old(View()), x)) && NoteToken(View(), x) == NoteToken(old(View()), x)
        && (x in embeddings <==> x in old(embeddings)) && (x in embeddings ==> embeddings[x] == old(embeddings)[x])
    {
      DeadIsNotLive(row);
      StoredContent(row);
      hide Project, TokenOf, SameContent;
      notes := notes[id := Project(Notes, row)];
      if Truthy(Get(row, Deleted)) {
        embeddings := embeddings - {id};
      }
    }

    /** Writes exactly when the note is live and its token is still the one that was read. */
    method UpsertEmbeddingIfCurrent(id: string, key: string, token: Token, sealed_: Option<Vector>) returns (written: bool)
      modifies this`embeddings
      ensures View() == UpsertIfCurrent(old(View()), id, Embedding(key, token, sealed_))
      ensures written <==> Live(old(View()), id) && Bears(old(notes)[id], token)
      ensures written ==> CurrentSealed(View(), id, key) == sealed_ && id !in Pending(View(), key)
      ensures !written ==> Pending(View(), key) == Pending(old(View()), key)
    {
      if Live(View(), id) {
        TokenMeans(notes[id], notes[id]);
      }
      hide TokenOf, Bears;
      if NoteToken(View(), id) != Some(token) {
        return false;
      }
      embeddings := embeddings[id := Embedding(key, token, sealed_)];
      return true;
    }

    method DeleteEmbeddingsNotMatching(key: string) returns (count: nat)
      modifies this`embeddings
      ensures View() == DropOtherKeys(old(View()), key)
      ensures Pending(View(), key) == Pending(old(View()), key)
      ensures count == |old(embeddings).Keys - embeddings.Keys|
    {
      hide TokenOf;
      var kept := map id | id in embeddings && embeddings[id].key == key :: embeddings[id];
      count := |embeddings.Keys - kept.Keys|;
      embeddings := kept;
    }

    method SweepOrphanEmbeddings() returns (count: nat)
      modifies this`embeddings
      ensures View() == SweepOrphans(old(View()))
      ensures count == |old(embeddings).Keys - embeddings.Keys|
    {
      hide Live;
      var kept := map id | id in embeddings && Live(View(), id) :: embeddings[id];
      count := |embeddings.Keys - kept.Keys|;
      embeddings := kept;
    }
  }

  lemma DeadIsNotLive(row: Row)
    ensures Truthy(Get(row, Deleted)) ==> Get(Project(Notes, row), Deleted) != Some(Bool(false))
  {
    SchemaFacts(Notes);
    hide Columns;
  }

  /** Sweeping orphans leaves every queue as it was. */
  lemma SweepKeepsQueue(c: Corpus, key: string)
    ensures Pending(SweepOrphans(c), key) == Pending(c, key)
  {
    hide TokenOf;
    var c' := SweepOrphans(c);
    forall id ensures id in Pending(c', key) <==> id in Pending(c, key) {
      assert Live(c', id) <==> Live(c, id);
    }
  }

  /** Storing a vector at the present token takes exactly its note off the queue. */
  lemma UpsertDrainsOne(c: Corpus, id: string, e: Embedding)
    requires NoteToken(c, id) == Some(e.token)
    ensures Pending(UpsertIfCurrent(c, id, e), e.key) == Pending(c, e.key) - {id}
    ensures CurrentSealed(UpsertIfCurrent(c, id, e), id, e.key) == e.vector
  {
    var c' := UpsertIfCurrent(c, id, e);
    forall x ensures x in Pending(c', e.key) <==> x in Pending(c, e.key) - {id} {
    }
  }

  // ── Interleaving ───────────────────────────────────────────────────────────

  /** What a note's row says when it is read: its text, or nothing when there is none to embed. */
  type Reading = (string, Row) -> Option<string>

  /** An embed in progress: what was read, before the lock was released. */
  datatype Job = Job(id: string, key: string, token: Token, text: Option<string>)

  datatype System = System(corpus: Corpus, jobs: map<nat, Job>)

  const NOTHING := System(Corpus(map[], map[]), map[])

  datatype Step =
    | StoreNote(id: string, row: Row)
    | Begin(job: nat, id: string, key: string)
    | Finish(job: nat)
    | Abandon(job: nat)
    | Remove(id: string)
    | Register(key: string)
    | Sweep

  predicate Enabled(s: System, step: Step) {
    match step
    case Begin(job, id, _) => job !in s.jobs && Live(s.corpus, id)
    case Finish(job) => job in s.jobs
    case Abandon(job) => job in s.jobs
    case _ => true
  }

  /** What a finished embed stores: a vector of what was read, or a skip marker. */
  function Stored(j: Job): Embedding {
    Embedding(j.key, j.token, if j.text.Some? then Some(Vector(j.token, j.key, j.text.value)) else None)
  }

  function Do(reading: Reading, s: System, step: Step): System
    requires Enabled(s, step)
  {
    match step
    case StoreNote(id, row) => s.(corpus := ApplyNote(s.corpus, id, row))
    case Begin(job, id, key) =>
      var row := s.corpus.notes[id];
      s.(jobs := s.jobs[job := Job(id, key, TokenOf(row), reading(id, row))])
    case Finish(job) =>
      var j := s.jobs[job];
      System(UpsertIfCurrent(s.corpus, j.id, Stored(j)), s.jobs - {job})
    case Abandon(job) => s.(jobs := s.jobs - {job})
    case Remove(id) => s.(corpus := s.corpus.(embeddings := s.corpus.embeddings - {id}))
    case Register(key) => s.(corpus := DropOtherKeys(s.corpus, key))
    case Sweep => s.(corpus := SweepOrphans(s.corpus))
  }

  /** Any interleaving of stores, embeds in progress, removals, registrations and sweeps. */
  ghost predicate IsRun(reading: Reading, states: seq<System>, steps: seq<Step>) {
    && |states| == |steps| + 1 && states[0] == NOTHING
    && forall i :: 0 <= i < |steps| ==> Enabled(states[i], steps[i]) && states[i + 1] == Do(reading, states[i], steps[i])
  }

  /** Every stored vector was read under its row's token and made with its row's model. */
  ghost predicate Inv(s: System) {
    forall id :: id in s.corpus.embeddings ==> Labelled(s.corpus.embeddings[id])
  }

  predicate Labelled(e: Embedding) {
    e.vector.Some? ==> e.vector.value.token == e.token && e.vector.value.key == e.key
  }

  lemma StepKeepsInv(reading: Reading, s: System, step: Step)
    requires Inv(s) && Enabled(s, step)
    ensures Inv(Do(reading, s, step))
  {
    hide Project, TokenOf, Live, Labelled;
    match step
    case Finish(job) => StoredIsLabelled(s.jobs[job]);
    case Begin(_, _, _) => BeginNote(s, step);
    case _ =>
  }

  lemma StoredIsLabelled(j: Job)
    ensures Labelled(Stored(j))
  {
  }

  lemma BeginNote(s: System, step: Step)
    requires step.Begin? && Enabled(s, step)
    ensures step.id in s.corpus.notes
  {
  }

  lemma {:induction false} RunKeepsInv(reading: Reading, states: seq<System>, steps: seq<Step>, i: nat)
    requires IsRun(reading, states, steps) && i < |states|
    ensures Inv(states[i])
  {
    if i > 0 {
      hide Enabled, Do, Inv;
      RunKeepsInv(reading, states, steps, i - 1);
      StepKeepsInv(reading, states[i - 1], steps[i - 1]);
    }
  }

  /** In every run, for every key: a live note off the queue has a row of that key and a token the note
      bears, whose vector, unless it is a skip marker, was read under that token and made with that
      model; and a vector is returned as current only for such a note. */
  lemma QueueIsSound(reading: Reading, states: seq<System>, steps: seq<Step>, i: nat, id: string, key: string)
    requires IsRun(reading, states, steps) && i < |states|
    ensures var c := states[i].corpus;
      && (Live(c, id) && id !in Pending(c, key) ==>
            id in c.embeddings && c.embeddings[id].key == key && Bears(c.notes[id], c.embeddings[id].token) &&
            (c.embeddings[id].vector.Some? ==>
               Bears(c.notes[id], c.embeddings[id].vector.value.token) && c.embeddings[id].vector.value.key == key))
      && (CurrentSealed(c, id, key).Some? ==>
            Live(c, id) && id !in Pending(c, key) &&
            Bears(c.notes[id], CurrentSealed(c, id, key).value.token) && CurrentSealed(c, id, key).value.key == key)
  {
    RunKeepsInv(reading, states, steps, i);
    if Live(states[i].corpus, id) {
      TokenMeans(states[i].corpus.notes[id], states[i].corpus.notes[id]);
    }
    hide IsRun, TokenOf, Bears;
  }

  /** Storing a live row over a note that is off the queue: it stays off exactly when the row has the same
      tag, or neither has one and the stamps are equal; otherwise it is back on the queue of every key
      and no vector is current. */
  lemma EditRequeuesIff(c: Corpus, id: string, row: Row, key: string)
    requires Live(c, id) && id !in Pending(c, key) && Get(row, Deleted) == Some(Bool(false))
    ensures var c' := ApplyNote(c, id, row);
      if SameContent(c.notes[id], row) then id !in Pending(c', key) && CurrentSealed(c', id, key) == CurrentSealed(c, id, key)
      else forall other :: id in Pending(c', other) && CurrentSealed(c', id, other) == None
  {
    StoredContent(row);
    TokenMeans(c.notes[id], Project(Notes, row));
    TokenMeans(Project(Notes, row), row);
    hide TokenOf, Project, SameContent, Bears;
  }

  /** Storing a row keeps its tag, its stamp and a plain flag. */
  lemma StoredContent(row: Row)
    ensures SameContent(Project(Notes, row), row)
    ensures Get(row, Deleted) == Some(Bool(false)) ==> Get(Project(Notes, row), Deleted) == Some(Bool(false))
  {
    SchemaFacts(Notes);
    TagInNotes();
    ProjectStamp(Notes, row);
    hide Columns, StampOr0;
  }

  lemma TagInNotes()
    ensures ContentTag in Columns(Notes)
  {
  }

  // ── What was read ──────────────────────────────────────────────────────────

  /** At some time up to now the live note bore the token and read as the text. */
  ghost predicate WasRead(reading: Reading, states: seq<System>, i: nat, id: string, token: Token, text: Option<string>)
    requires i < |states|
  {
    exists j :: 0 <= j <= i && ReadAt(reading, states[j], id, token, text)
  }

  ghost predicate ReadAt(reading: Reading, s: System, id: string, token: Token, text: Option<string>) {
    Live(s.corpus, id) && Bears(s.corpus.notes[id], token) && reading(id, s.corpus.notes[id]) == text
  }

  ghost predicate AllWereRead(reading: Reading, states: seq<System>, i: nat)
    requires i < |states|
  {
    var s := states[i];
    && (forall n :: n in s.jobs ==> WasRead(reading, states, i, s.jobs[n].id, s.jobs[n].token, s.jobs[n].text))
    && (forall id :: id in s.corpus.embeddings ==>
          WasRead(reading, states, i, id, s.corpus.embeddings[id].token, TextOf(s.corpus.embeddings[id])))
  }

  lemma {:induction false} RunReads(reading: Reading, states: seq<System>, steps: seq<Step>, i: nat)
    requires IsRun(reading, states, steps) && i < |states|
    ensures AllWereRead(reading, states, i)
  {
    if i > 0 {
      RunReads(reading, states, steps, i - 1);
      hide IsRun, AllWereRead;
      assert Enabled(states[i - 1], steps[i - 1]) && states[i] == Do(reading, states[i - 1], steps[i - 1]) by {
        RunStep(reading, states, steps, i - 1);
      }
      StepReads(reading, states, steps[i - 1], i);
    }
  }

  lemma RunStep(reading: Reading, states: seq<System>, steps: seq<Step>, i: nat)
    requires IsRun(reading, states, steps) && i < |steps|
    ensures i + 1 < |states| && Enabled(states[i], steps[i]) && states[i + 1] == Do(reading, states[i], steps[i])
  {
    hide Enabled, Do;
  }

  lemma StepReads(reading: Reading, states: seq<System>, step: Step, i: nat)
    requires 0 < i < |states| && Enabled(states[i - 1], step) && states[i] == Do(reading, states[i - 1], step)
    requires AllWereRead(reading, states, i - 1)
    ensures AllWereRead(reading, states, i)
  {
    var s, s' := states[i - 1], states[i];
    forall id, token, text | WasRead(reading, states, i - 1, id, token, text) ensures WasRead(reading, states, i, id, token, text) {
      var j :| 0 <= j <= i - 1 && ReadAt(reading, states[j], id, token, text);
    }
    if step.Begin? {
      var row := s.corpus.notes[step.id];
      TokenMeans(row, row);
      assert ReadAt(reading, states[i - 1], step.id, TokenOf(row), reading(step.id, row));
      assert WasRead(reading, states, i - 1, step.id, TokenOf(row), reading(step.id, row));
    }
    hide Project, TokenOf, Live, ReadAt, WasRead;
  }

  /** The note had its present tag, or no tag and its present stamp, and read as what is stored now. */
  ghost predicate ReadAsNow(reading: Reading, then_: Corpus, now: Corpus, id: string) {
    && id in then_.notes && id in now.notes && id in now.embeddings
    && SameContent(then_.notes[id], now.notes[id]) && TextOf(now.embeddings[id]) == reading(id, then_.notes[id])
  }

  /** In every run: what is stored for a live note off the queue is what the note read as at some time at
      which it had its present tag, or, with no tag then and now, its present stamp. */
  lemma CurrentWasRead(reading: Reading, states: seq<System>, steps: seq<Step>, i: nat, id: string, key: string)
    requires IsRun(reading, states, steps) && i < |states|
    requires var c := states[i].corpus; Live(c, id) && id !in Pending(c, key)
    ensures var c := states[i].corpus;
      id in c.embeddings && exists j :: 0 <= j <= i && ReadAsNow(reading, states[j].corpus, c, id)
  {
    RunReads(reading, states, steps, i);
    hide IsRun;
    var c := states[i].corpus;
    var e := c.embeddings[id];
    var j :| 0 <= j <= i && ReadAt(reading, states[j], id, e.token, TextOf(e));
    TokenMeans(states[j].corpus.notes[id], c.notes[id]);
    TokenMeans(c.notes[id], c.notes[id]);
    assert ReadAsNow(reading, states[j].corpus, c, id);
  }

  /** A finished embed takes its note off the queue exactly when the token it read still stands;
      otherwise nothing changes and the note waits for its new text. */
  lemma FinishOrRequeue(reading: Reading, s: System, job: nat)
    requires job in s.jobs
    ensures var j, c := s.jobs[job], s.corpus;
      var c' := Do(reading, s, Finish(job)).corpus;
      if NoteToken(c, j.id) == Some(j.token) then Pending(c', j.key) == Pending(c, j.key) - {j.id}
      else c' == c
  {
    var j, c := s.jobs[job], s.corpus;
    if NoteToken(c, j.id) == Some(j.token) {
      UpsertDrainsOne(c, j.id, Stored(j));
    }
  }

  // ── From tokens to texts ───────────────────────────────────────────────────

  /** The normal form a tag is made from. */
  type Normal = string -> string

  function NormalForm(norm: Normal, text: Option<string>): Option<string> {
    if text.Some? then Some(norm(text.value)) else None
  }

  /** What each token of each note has been read as, in normal form. */
  type Naming = map<(string, Token), Option<string>>

  ghost predicate Names(norm: Normal, h: Naming, id: string, token: Token, text: Option<string>) {
    (id, token) in h && h[(id, token)] == NormalForm(norm, text)
  }

  /** A stored note whose token has been read before reads the same, up to the normal form. */
  ghost predicate KeepsNames(reading: Reading, norm: Normal, h: Naming, step: Step) {
    step.StoreNote? ==>
      var row := Project(Notes, step.row);
      (step.id, TokenOf(row)) in h ==> h[(step.id, TokenOf(row))] == NormalForm(norm, reading(step.id, row))
  }

  ghost function Named(reading: Reading, norm: Normal, h: Naming, step: Step): Naming {
    if step.StoreNote? then
      var row := Project(Notes, step.row);
      h[(step.id, TokenOf(row)) := NormalForm(norm, reading(step.id, row))]
    else h
  }

  ghost predicate NamesHold(reading: Reading, norm: Normal, s: System, h: Naming) {
    && (forall id :: id in s.corpus.notes ==> Names(norm, h, id, TokenOf(s.corpus.notes[id]), reading(id, s.corpus.notes[id])))
    && (forall j :: j in s.jobs ==> Names(norm, h, s.jobs[j].id, s.jobs[j].token, s.jobs[j].text))
    && (forall id :: id in s.corpus.embeddings ==> Honest(norm, h, id, s.corpus.embeddings[id]))
  }

  /** The text of a stored row; None for a skip marker. */
  function TextOf(e: Embedding): Option<string> {
    if e.vector.Some? then Some(e.vector.value.text) else None
  }

  /** A stored row holds what its token has been read as. */
  ghost predicate Honest(norm: Normal, h: Naming, id: string, e: Embedding) {
    Names(norm, h, id, e.token, TextOf(e))
  }

  lemma StepKeepsNames(reading: Reading, norm: Normal, s: System, h: Naming, step: Step)
    requires NamesHold(reading, norm, s, h) && Enabled(s, step) && KeepsNames(reading, norm, h, step)
    ensures NamesHold(reading, norm, Do(reading, s, step), Named(reading, norm, h, step))
  {
    hide Project, TokenOf, Live, NormalForm;
    assert forall id, token, text :: Names(norm, h, id, token, text) ==> Names(norm, Named(reading, norm, h, step), id, token, text);
    match step
    case Begin(_, _, _) => BeginNote(s, step);
    case _ =>
  }

  /** A run in which no token of a note is read as two texts of different normal form, with what has
      been read so far. */
  ghost predicate IsNamedRun(reading: Reading, norm: Normal, states: seq<System>, steps: seq<Step>, hs: seq<Naming>) {
    && IsRun(reading, states, steps) && |hs| == |states| && hs[0] == map[]
    && forall i :: 0 <= i < |steps| ==>
         KeepsNames(reading, norm, hs[i], steps[i]) && hs[i + 1] == Named(reading, norm, hs[i], steps[i])
  }

  lemma {:induction false} RunKeepsNames(reading: Reading, norm: Normal, states: seq<System>, steps: seq<Step>, hs: seq<Naming>, i: nat)
    requires IsNamedRun(reading, norm, states, steps, hs) && i < |states|
    ensures NamesHold(reading, norm, states[i], hs[i])
  {
    if i > 0 {
      hide Enabled, Do, KeepsNames, Named, NamesHold;
      RunKeepsNames(reading, norm, states, steps, hs, i - 1);
      StepKeepsNames(reading, norm, states[i - 1], hs[i - 1], steps[i - 1]);
    }
  }

  /** In such a run a live note off the queue has a vector of its present text up to the normal form, or
      a skip marker exactly when there is none to embed; and only such a vector is returned as current. */
  lemma TextIsCurrent(reading: Reading, norm: Normal, states: seq<System>, steps: seq<Step>, hs: seq<Naming>, i: nat, id: string, key: string)
    requires IsNamedRun(reading, norm, states, steps, hs) && i < |states|
    ensures var c := states[i].corpus;
      && (Live(c, id) && id !in Pending(c, key) ==>
            id in c.embeddings && NormalForm(norm, TextOf(c.embeddings[id])) == NormalForm(norm, reading(id, c.notes[id])))
      && (CurrentSealed(c, id, key).Some? ==>
            Live(c, id) && Some(norm(CurrentSealed(c, id, key).value.text)) == NormalForm(norm, reading(id, c.notes[id])))
  {
    RunKeepsNames(reading, norm, states, steps, hs, i);
    hide IsNamedRun, TokenOf, Project;
  }

  /** A tag that determines the normal form of what it was made from. */
  ghost predicate Determines(tag: (string, Option<Cell>) -> string, norm: Normal) {
    forall a, x, b, y :: tag(a, x) == tag(b, y) ==> norm(a) == norm(b)
  }

  /** A note stored with the tag of what it reads as, or with no tag at a stamp new to it. */
  ghost predicate Tagged(reading: Reading, tag: (string, Option<Cell>) -> string, h: Naming, id: string, row: Row) {
    if TokenOf(row).Tag? then
      reading(id, row).Some? && TokenOf(row) == Tag(tag(reading(id, row).value, Get(row, BookId)))
    else (id, TokenOf(row)) !in h
  }

  /** So far, every tag stands for the normal form of a text it was made from. */
  ghost predicate NamedByTags(tag: (string, Option<Cell>) -> string, norm: Normal, h: Naming) {
    forall id, token :: (id, token) in h && token.Tag? ==>
      exists text, book :: h[(id, token)] == Some(norm(text)) && token == Tag(tag(text, book))
  }

  /** Notes stored so keep the names, however often one is sealed again or edited within its normal form:
      the tag stands for the normal form, not for the ciphertext. */
  lemma TaggedNotesKeepNames(reading: Reading, tag: (string, Option<Cell>) -> string, norm: Normal, h: Naming, step: Step)
    requires Determines(tag, norm) && NamedByTags(tag, norm, h)
    requires step.StoreNote? ==> Tagged(reading, tag, h, step.id, Project(Notes, step.row))
    ensures KeepsNames(reading, norm, h, step) && NamedByTags(tag, norm, Named(reading, norm, h, step))
  {
    hide Project, TokenOf;
    if step.StoreNote? {
      var row := Project(Notes, step.row);
      var token, h' := TokenOf(row), Named(reading, norm, h, step);
      if (step.id, token) in h && token.Tag? {
        var text, book :| h[(step.id, token)] == Some(norm(text)) && token == Tag(tag(text, book));
      }
      if token.Tag? {
        var now := reading(step.id, row).value;
        assert h'[(step.id, token)] == Some(norm(now)) && token == Tag(tag(now, Get(row, BookId)));
      }
    }
  }

  /** A tag of the normal form, as the code makes it, is such a tag. */
  lemma NormalTagDetermines(mac: (string, Option<Cell>) -> string, norm: Normal, tag: (string, Option<Cell>) -> string)
    requires forall a, x, b, y :: mac(a, x) == mac(b, y) ==> a == b
    requires forall a, x :: tag(a, x) == mac(norm(a), x)
    ensures Determines(tag, norm)
  {
    forall a, x, b, y | tag(a, x) == tag(b, y) ensures norm(a) == norm(b) {
      assert mac(norm(a), x) == mac(norm(b), y);
    }
  }

  /** Without that hypothesis the guard is not enough: if a note is overwritten in mid-embed by a row
      that reads otherwise under the token that was read, the vector of the old text is stored and
      returned as current. */
  lemma ReusedTokenFoolsTheGuard(reading: Reading, s: System, job: nat, row: Row)
    requires job in s.jobs && s.jobs[job].text.Some? && Get(Project(Notes, row), Deleted) == Some(Bool(false))
    requires TokenOf(Project(Notes, row)) == s.jobs[job].token && reading(s.jobs[job].id, Project(Notes, row)) != s.jobs[job].text
    ensures var j := s.jobs[job];
      var c := Do(reading, Do(reading, s, StoreNote(j.id, row)), Finish(job)).corpus;
      && CurrentSealed(c, j.id, j.key) == Some(Vector(j.token, j.key, j.text.value))
      && reading(j.id, c.notes[j.id]) != j.text
  {
    hide Project, TokenOf;
  }
}

/**
  Progress observations (src/airgap_sync/monitor/progress.py): a recorder numbers what it writes,
  and the receiver keeps the newest observation of every stage however they arrive.
 */
module Progress {
  import opened Wrappers

  type Stage = nat
  type Attempt = nat

  datatype StageState = RUNNING | COMPLETE | INTERRUPTED

  datatype Counters = Counters(rows: nat, chunks: nat, bytes: nat, attempts: nat, retryBytes: nat, seconds: nat)

  // The position is missing in observations of older versions.
  datatype Position = Position(generation: nat, sequence: nat)

  datatype Item = Item(attempt: Attempt, position: Option<Position>, state: StageState, counters: Counters, observedAt: int)

  predicate AtMost(a: Counters, b: Counters) {
    && a.rows <= b.rows && a.chunks <= b.chunks && a.bytes <= b.bytes
    && a.attempts <= b.attempts && a.retryBytes <= b.retryBytes && a.seconds <= b.seconds
  }

  function Plus(a: Counters, b: Counters): Counters {
    Counters(a.rows + b.rows, a.chunks + b.chunks, a.bytes + b.bytes, a.attempts + b.attempts,
             a.retryBytes + b.retryBytes, a.seconds + b.seconds)
  }

  predicate Before(a: Position, b: Position) {
    a.generation < b.generation || (a.generation == b.generation && a.sequence < b.sequence)
  }

  // --- The receiver ---

  predicate Supersedes(prior: Item, incoming: Item) {
    && (match prior.position
        case Some(p) =>
          && incoming.position.Some? && p.generation <= incoming.position.value.generation
          && (p.generation == incoming.position.value.generation ==>
                prior.attempt == incoming.attempt && p.sequence < incoming.position.value.sequence)
        case None => incoming.position.Some? || prior.observedAt < incoming.observedAt)
    && (incoming.attempt == prior.attempt ==> AtMost(prior.counters, incoming.counters))
  }

  function Merge(prior: Option<Item>, incoming: Item): Item {
    if prior.Some? && !Supersedes(prior.value, incoming) then prior.value else incoming
  }

  // The stages of one received fact, as merge_received loops over them.
  method MergeReceived(saved: map<Stage, Item>, fact: seq<(Stage, Item)>) returns (stages: map<Stage, Item>)
    ensures stages == MergeAll(saved, fact)
  {
    stages := saved;
    for i := 0 to |fact|
      invariant stages == MergeAll(saved, fact[..i])
    {
      var stage, incoming := fact[i].0, fact[i].1;
      assert fact[..i + 1][..i] == fact[..i];
      if stage in stages {
        var prior := stages[stage];
        var kept := false;
        if prior.position.Some? {
          if incoming.position.None? || incoming.position.value.generation < prior.position.value.generation {
            kept := true;
          } else if incoming.position.value.generation == prior.position.value.generation {
            kept := incoming.attempt != prior.attempt || incoming.position.value.sequence <= prior.position.value.sequence;
          }
        } else if incoming.position.None? {
          kept := incoming.observedAt <= prior.observedAt;
        }
        if !kept && incoming.attempt == prior.attempt && !AtMost(prior.counters, incoming.counters) {
          kept := true;
        }
        if !kept {
          stages := stages[stage := incoming];
        }
      } else {
        stages := stages[stage := incoming];
      }
    }
    assert fact[..|fact|] == fact;
  }

  function MergeAll(saved: map<Stage, Item>, fact: seq<(Stage, Item)>): map<Stage, Item> {
    if fact == [] then saved
    else
      var (stage, incoming) := fact[|fact| - 1];
      var before := MergeAll(saved, fact[..|fact| - 1]);
      before[stage := Merge(if stage in before then Some(before[stage]) else None, incoming)]
  }

  // Within an attempt nothing the receiver shows goes back.
  lemma MergeNeverRegresses(prior: Item, incoming: Item)
    ensures var r := Merge(Some(prior), incoming);
            && (r.attempt == prior.attempt ==> AtMost(prior.counters, r.counters))
            && (prior.position.Some? ==> r.position.Some? && (r == prior || Before(prior.position.value, r.position.value)))
  {
  }

  // --- What one run publishes ---

  predicate Final(state: StageState) {
    state != RUNNING
  }

  // Two observations of one stage: generations stand for attempts, and within an attempt a later
  // one has no smaller counters and the same final state.
  predicate Consistent(a: Item, b: Item) {
    && a.position.Some? && b.position.Some?
    && (a.attempt == b.attempt <==> a.position.value.generation == b.position.value.generation)
    && (a.position == b.position ==> a == b)
    && (a.attempt == b.attempt && Before(a.position.value, b.position.value) ==>
          AtMost(a.counters, b.counters) && (Final(a.state) ==> b.state == a.state))
  }

  ghost predicate AllConsistent(published: set<(Stage, Item)>) {
    forall s, a, b :: (s, a) in published && (s, b) in published ==> Consistent(a, b)
  }

  // The observation with the greatest position.
  predicate Newest(newest: Item, items: seq<Item>) {
    newest in items && newest.position.Some?
    && forall x :: x in items && x.position.Some? ==> x.position == newest.position || Before(x.position.value, newest.position.value)
  }

  function FoldItems(items: seq<Item>): Item
    requires items != []
  {
    if |items| == 1 then items[0]
    else Merge(Some(FoldItems(items[..|items| - 1])), items[|items| - 1])
  }

  // In whatever order, and however often, the observations of a stage arrive, the newest is kept.
  lemma {:induction false} NewestIsKept(items: seq<Item>)
    requires items != [] && forall a, b :: a in items && b in items ==> Consistent(a, b)
    ensures Newest(FoldItems(items), items)
  {
    if |items| > 1 {
      var n := |items| - 1;
      var last := items[n];
      assert items == items[..n] + [last];
      NewestIsKept(items[..n]);
      var newest := FoldItems(items[..n]);
      assert newest in items && last in items;
      assert Consistent(newest, last) && Consistent(last, newest);
    }
  }

  // So the order of arrival does not matter.
  lemma ArrivalConverges(xs: seq<Item>, ys: seq<Item>)
    requires xs != [] && ys != [] && forall x :: x in xs <==> x in ys
    requires forall a, b :: a in xs && b in xs ==> Consistent(a, b)
    ensures FoldItems(xs) == FoldItems(ys)
  {
    NewestIsKept(xs);
    NewestIsKept(ys);
    assert Consistent(FoldItems(xs), FoldItems(ys));
  }

  // --- The recorder ---

  predicate Own(item: Item, attempt: Attempt) {
    item.attempt == attempt
  }

  // What was published, of which the file holds the last: nothing is of a later generation.
  ghost predicate History(published: set<(Stage, Item)>, saved: map<Stage, Item>, attempts: set<Attempt>, top: nat) {
    && AllConsistent(published)
    && (forall s :: s in saved ==> (s, saved[s]) in published)
    && (forall s, a :: (s, a) in published ==> a.position.Some? && a.attempt in attempts && Generation(a) <= top)
    && Reaches(saved, top)
  }

  // The latest generation is still in the file.
  ghost predicate Reaches(saved: map<Stage, Item>, top: nat) {
    top == 0 || exists s :: s in saved && Generation(saved[s]) == top
  }

  function Generation(item: Item): nat {
    if item.position.Some? then item.position.value.generation else 0
  }

  function Sequence(item: Item): nat {
    if item.position.Some? then item.position.value.sequence else 0
  }

  // The item in memory is what was published of its attempt, or follows it.
  predicate Follows(x: Item, p: Item) {
    && Sequence(p) <= Sequence(x) && AtMost(p.counters, x.counters)
    && (Final(p.state) ==> x.state == p.state)
    && (Sequence(p) == Sequence(x) && Final(x.state) ==> p == x)
  }

  // Everything of a recorder that is relevant for what it publishes.
  datatype Book = Book(published: set<(Stage, Item)>, stages: map<Stage, Item>, attempt: Attempt, generation: nat)

  ghost predicate BookOk(b: Book) {
    && AllConsistent(b.published)
    && (forall s, a :: (s, a) in b.published ==>
          a.position.Some? && Generation(a) <= b.generation && (Own(a, b.attempt) <==> Generation(a) == b.generation))
    && (forall s :: s in b.stages ==>
          && b.stages[s].position.Some?
          && (if Own(b.stages[s], b.attempt) then Generation(b.stages[s]) == b.generation
              else (s, b.stages[s]) in b.published))
    && (forall s, a :: (s, a) in b.published && Own(a, b.attempt) ==>
          s in b.stages && Own(b.stages[s], b.attempt) && Follows(b.stages[s], a))
  }

  // A stage gets its next number when it is written because it changed or is running.
  function Numbered(item: Item, now: int): Item {
    if item.position.None? then item
    else item.(position := Some(Position(item.position.value.generation, item.position.value.sequence + 1)), observedAt := now)
  }

  function Bumped(stages: map<Stage, Item>, attempt: Attempt, stage: Stage, now: int): map<Stage, Item> {
    map s | s in stages ::
      if Own(stages[s], attempt) && (s == stage || stages[s].state == RUNNING) then Numbered(stages[s], now) else stages[s]
  }

  // The new memory of a stage may differ from the old one, as long as it follows what is published
  // and is numbered before it is written.
  ghost predicate Dirty(b: Book, stage: Stage) {
    && BookOk(b.(stages := b.stages - {stage}, published := set e | e in b.published && e.0 != stage))
    && AllConsistent(b.published)
    && stage in b.stages && Own(b.stages[stage], b.attempt) && b.stages[stage].position.Some? && Generation(b.stages[stage]) == b.generation
    && (forall a :: (stage, a) in b.published ==>
          && a.position.Some? && Generation(a) <= b.generation && (Own(a, b.attempt) <==> Generation(a) == b.generation)
          && (Own(a, b.attempt) ==>
                && Sequence(a) <= Sequence(b.stages[stage]) && AtMost(a.counters, b.stages[stage].counters)
                && (Final(a.state) ==> b.stages[stage].state == a.state)))
  }

  // The running stages of the attempt have numbers that were not published yet.
  ghost predicate Fresh(b: Book) {
    forall s, a :: s in b.stages && b.stages[s].state == RUNNING && Own(b.stages[s], b.attempt) && (s, a) in b.published && Own(a, b.attempt) ==>
      Sequence(a) < Sequence(b.stages[s])
  }

  // The three states of memory: as it was written, changed in one stage, and numbered.

  ghost predicate Sound(book: Book) {
    forall b :: b == book ==> BookOk(b)
  }

  ghost predicate Changed(book: Book, stage: Stage) {
    forall b :: b == book ==> Dirty(b, stage)
  }

  ghost predicate Publishable(book: Book) {
    forall b :: b == book ==> BookOk(b) && Fresh(b)
  }

  lemma NumberingCleans(b: Book, stage: Stage, now: int)
    requires Changed(b, stage)
    ensures Publishable(b.(stages := Bumped(b.stages, b.attempt, stage, now)))
  {
    assert Dirty(b, stage);
    var after := Bumped(b.stages, b.attempt, stage, now);
    var rest := b.(stages := b.stages - {stage}, published := set e | e in b.published && e.0 != stage);
    forall s | s in after
      ensures after[s].position.Some?
      ensures if Own(after[s], b.attempt) then Generation(after[s]) == b.generation else (s, after[s]) in b.published
    {
      assert s != stage ==> s in rest.stages;
    }
    forall s, a | (s, a) in b.published
      ensures a.position.Some? && Generation(a) <= b.generation && (Own(a, b.attempt) <==> Generation(a) == b.generation)
      ensures Own(a, b.attempt) ==> s in after && Own(after[s], b.attempt) && Follows(after[s], a)
    {
      assert s != stage ==> (s, a) in rest.published;
    }
  }

  // What a clean memory publishes is consistent with all that was published.
  lemma PublishingIsConsistent(b: Book)
    requires Publishable(b)
    ensures Sound(b.(published := b.published + Additions(b.stages)))
  {
    assert BookOk(b) && Fresh(b);
    var added := Additions(b.stages);
    var all := b.published + added;
    forall s, x, y | (s, x) in all && (s, y) in all
      ensures Consistent(x, y)
    {
      if (s, x) in b.published && (s, y) in b.published {
      } else if (s, x) in b.published {
        assert y == b.stages[s];
        PublishedAndNew(b, s, x);
      } else if (s, y) in b.published {
        assert x == b.stages[s];
        PublishedAndNew(b, s, y);
      }
    }
  }

  lemma PublishedAndNew(b: Book, s: Stage, x: Item)
    requires BookOk(b) && Fresh(b) && (s, x) in b.published && s in b.stages
    ensures Consistent(x, b.stages[s]) && Consistent(b.stages[s], x)
  {
    var y := b.stages[s];
    if Own(y, b.attempt) {
      if Own(x, b.attempt) {
        assert Follows(y, x);
      }
    } else {
      assert (s, y) in b.published;
    }
  }

  lemma HistoryStarts(published: set<(Stage, Item)>, saved: map<Stage, Item>, attempts: set<Attempt>, top: nat, attempt: Attempt, generation: nat)
    requires History(published, saved, attempts, top) && attempt !in attempts
    requires 0 < generation && forall s :: s in saved ==> Generation(saved[s]) < generation
    ensures Sound(Book(published, saved, attempt, generation)) && Filed(File(saved, published, top), attempt, generation)
  {
    assert FileOfBook(File(saved, published, top), attempt, generation);
  }

  // The file, and everything that ever was in it.
  datatype File = File(saved: map<Stage, Item>, published: set<(Stage, Item)>, top: nat)

  // Of this attempt it holds the last observation of every stage.
  ghost predicate FileOfBook(f: File, attempt: Attempt, generation: nat) {
    && (forall s :: s in f.saved ==> (s, f.saved[s]) in f.published)
    && (forall s, a :: (s, a) in f.published ==> Generation(a) <= f.top)
    && Reaches(f.saved, f.top) && f.top <= generation
    && (forall s, a :: (s, a) in f.published && Own(a, attempt) ==>
          s in f.saved && Own(f.saved[s], attempt) && Sequence(a) <= Sequence(f.saved[s]))
  }

  ghost predicate Filed(file: File, attempt: Attempt, generation: nat) {
    forall f :: f == file ==> FileOfBook(f, attempt, generation)
  }

  function Additions(stages: map<Stage, Item>): set<(Stage, Item)> {
    set s | s in stages :: (s, stages[s])
  }

  // The file is replaced by what is in memory.
  lemma Replaced(b: Book, stage: Stage, before: File)
    requires Publishable(b) && before.published == b.published && Filed(before, b.attempt, b.generation)
    requires stage in b.stages && Generation(b.stages[stage]) == b.generation
    ensures Filed(File(b.stages, b.published + Additions(b.stages), b.generation), b.attempt, b.generation)
    ensures before.top <= b.generation
  {
    assert BookOk(b) && FileOfBook(before, b.attempt, b.generation);
    var after := File(b.stages, b.published + Additions(b.stages), b.generation);
    forall s, a | (s, a) in after.published && Own(a, b.attempt)
      ensures s in after.saved && Own(after.saved[s], b.attempt) && Sequence(a) <= Sequence(after.saved[s])
    {
      assert (s, a) in b.published ==> Follows(b.stages[s], a);
    }
    assert FileOfBook(after, b.attempt, b.generation);
  }

  const ZERO := Counters(0, 0, 0, 0, 0, 0)

  class Recorder {
    const attempt: Attempt
    const generation: nat
    var stages: map<Stage, Item>
    var lastWrite: int

    var saved: map<Stage, Item>
    ghost var published: set<(Stage, Item)>
    ghost var top: nat

    ghost function Now(): Book
      reads this
    {
      Book(published, stages, attempt, generation)
    }

    ghost predicate Valid()
      reads this
    {
      Sound(Now()) && FileOk()
    }

    ghost predicate FileOk()
      reads this
    {
      Filed(File(saved, published, top), attempt, generation)
    }

    // What was published stays consistent over all recorders of a run, one after the other.
    lemma IsHistory(attempts: set<Attempt>)
      requires Valid() && forall s, a :: (s, a) in published ==> a.attempt in attempts
      ensures History(published, saved, attempts, top)
    {
      assert BookOk(Now()) && FileOfBook(File(saved, published, top), attempt, generation);
    }

    // A new attempt takes the generation after all that are in the file.
    constructor (saved: map<Stage, Item>, attempt: Attempt, ghost published: set<(Stage, Item)>, ghost attempts: set<Attempt>, ghost top: nat)
      requires History(published, saved, attempts, top) && attempt !in attempts
      ensures Valid() && this.saved == saved && this.published == published && this.attempt == attempt && stages == saved
    {
      this.saved, this.attempt := saved, attempt;
      this.published, this.top := published, top;
      stages, lastWrite := saved, 0;
      var rest := saved.Keys;
      var highest: nat := 0;
      while rest != {}
        invariant rest <= saved.Keys
        invariant forall s :: s in saved && s !in rest ==> Generation(saved[s]) <= highest
        decreases rest
      {
        var s :| s in rest;
        if highest < Generation(saved[s]) {
          highest := Generation(saved[s]);
        }
        rest := rest - {s};
      }
      generation := highest + 1;
      HistoryStarts(published, saved, attempts, top, attempt, highest + 1);
    }

    // A stage this attempt has not begun yet begins at 0.
    function Current(stage: Stage): Item
      reads this
    {
      if stage in stages && Own(stages[stage], attempt) then stages[stage]
      else Item(attempt, Some(Position(generation, 0)), RUNNING, ZERO, 0)
    }

    // An interruption counts only for a stage this attempt began and left running; a final state stays.
    predicate Ignored(stage: Stage, state: StageState)
      reads this
    {
      || (state == INTERRUPTED && (stage !in stages || !Own(stages[stage], attempt) || Sequence(stages[stage]) == 0
                                   || stages[stage].state != RUNNING))
      || (Final(Current(stage).state) && state != Current(stage).state)
    }

    // The counters of a completed stage change without a new number: nothing forces a write, none is
    // due, and the file already has the stage under its present number.
    predicate Hides(stage: Stage, delta: Counters, state: StageState, force: bool, now: int)
      reads this
    {
      && !force && now - lastWrite < 1 && state == COMPLETE && delta != ZERO
      && stage in stages && Own(stages[stage], attempt) && stages[stage].state == COMPLETE
      && stage in saved && saved[stage] == stages[stage]
    }

    // writes: whether the file can be written. Memory stays fit for publishing exactly if the update
    // hides nothing; what it hides is numbered by the next write of the same stage.
    method Update(stage: Stage, delta: Counters, state: StageState, force: bool, now: int, writes: bool) returns (written: bool)
      requires Valid()
      modifies this
      ensures FileOk() && (Valid() <==> !old(Hides(stage, delta, state, force, now)))
      ensures !Valid() ==> Changed(Now(), stage)
      ensures old(published) <= published && old(top) <= top
      ensures forall e :: e in published ==> e in old(published) || Own(e.1, attempt)
      ensures old(Ignored(stage, state)) ==> !written && stages == old(stages)
      ensures !old(Ignored(stage, state)) ==>
        && stage in stages && Own(stages[stage], attempt) && stages[stage].state == state
        && stages[stage].counters == Plus(old(Current(stage)).counters, delta)
      ensures written ==> saved == stages && published == old(published) + Additions(stages)
      ensures !written ==> saved == old(saved) && published == old(published)
      ensures written ==> Sequence(stages[stage]) == Sequence(old(Current(stage))) + 1 && stages[stage].observedAt == now
      ensures written <==> writes && !old(Ignored(stage, state))
                           && (force || old(stage !in stages || !Own(stages[stage], attempt)) || old(Current(stage)).state != state
                               || now - old(lastWrite) >= 1)
    {
      written := false;
      if state == INTERRUPTED
         && (stage !in stages || !Own(stages[stage], attempt) || Sequence(stages[stage]) == 0 || stages[stage].state != RUNNING) {
        return;
      }
      CurrentIsOwn(stage);
      var item, due := Current(stage), force;
      if stage !in stages || !Own(stages[stage], attempt) {
        due := true;
      }
      if Final(item.state) && state != item.state { return; }
      due := due || item.state != state || now - lastWrite >= 1;
      var next := item.(counters := Plus(item.counters, delta), state := state);
      Changes(Now(), stage, next);
      if !due {
        Unnumbered(Now(), stage, next);
        InFile(stage);
      }
      stages := stages[stage := next];
      if due {
        written := Write(stage, now, writes);
      }
    }

    // A stage is published with its present number exactly if the file has it.
    lemma InFile(stage: Stage)
      requires Valid() && stage in stages && Own(stages[stage], attempt)
      ensures (stage, stages[stage]) in published <==> stage in saved && saved[stage] == stages[stage]
    {
      assert BookOk(Now()) && FileOfBook(File(saved, published, top), attempt, generation);
      if (stage, stages[stage]) in published {
        assert Follows(stages[stage], saved[stage]);
        assert Consistent(stages[stage], saved[stage]);
      }
    }

    lemma Belongs(stage: Stage)
      requires Changed(Now(), stage)
      ensures stage in stages && Generation(stages[stage]) == generation && stages[stage].position.Some?
    {
      assert Dirty(Now(), stage);
    }

    lemma OthersPublished(stage: Stage)
      requires Changed(Now(), stage)
      ensures forall s :: s in stages && !Own(stages[s], attempt) ==> (s, stages[s]) in published
    {
      assert Dirty(Now(), stage);
      forall s | s in stages && !Own(stages[s], attempt)
        ensures (s, stages[s]) in published
      {
        assert s in stages - {stage};
      }
    }

    lemma CurrentIsOwn(stage: Stage)
      requires Valid()
      ensures Own(Current(stage), attempt) && Current(stage).position.Some? && Generation(Current(stage)) == generation
    {
      assert BookOk(Now());
    }

    // The stages are numbered, and the file is replaced if that is possible.
    method Write(stage: Stage, now: int, writes: bool) returns (written: bool)
      requires Changed(Now(), stage) && FileOk()
      modifies this
      ensures Valid() && written == writes && old(top) <= top
      ensures stages == Bumped(old(stages), attempt, stage, now)
      ensures written ==> saved == stages && published == old(published) + Additions(stages)
      ensures !written ==> saved == old(saved) && published == old(published)
      ensures forall e :: e in published ==> e in old(published) || Own(e.1, attempt)
    {
      Belongs(stage);
      OthersPublished(stage);
      NumberingCleans(Now(), stage, now);
      stages := Bumped(stages, attempt, stage, now);
      written := writes;
      assert Sound(Now()) by { assert Publishable(Now()); }
      if writes {
        PublishingIsConsistent(Now());
        Replaced(Now(), stage, File(saved, published, top));
        published := published + Additions(stages);
        saved, lastWrite, top := stages, now, generation;
      }
    }
  }

  // Memory that is changed but not numbered yet can still be numbered.
  lemma Changes(b: Book, stage: Stage, next: Item)
    requires Sound(b) && Own(next, b.attempt) && next.position.Some? && Generation(next) == b.generation
    requires if stage in b.stages && Own(b.stages[stage], b.attempt)
             then Sequence(next) == Sequence(b.stages[stage]) && AtMost(b.stages[stage].counters, next.counters)
                  && (Final(b.stages[stage].state) ==> next.state == b.stages[stage].state)
             else true
    ensures Changed(b.(stages := b.stages[stage := next]), stage)
  {
    assert BookOk(b);
    var after := b.(stages := b.stages[stage := next]);
    var rest := after.(stages := after.stages - {stage}, published := set e | e in b.published && e.0 != stage);
    assert forall s, a :: (s, a) in rest.published <==> (s, a) in b.published && s != stage;
    assert BookOk(rest);
  }

  // It is clean as it is, unless it has a final state that was published with the same number and
  // other counters.
  lemma Unnumbered(b: Book, stage: Stage, next: Item)
    requires Sound(b) && stage in b.stages && Own(b.stages[stage], b.attempt)
    requires AtMost(b.stages[stage].counters, next.counters) && next == b.stages[stage].(counters := next.counters)
    ensures Sound(b.(stages := b.stages[stage := next])) <==>
              !(Final(next.state) && (stage, b.stages[stage]) in b.published && next != b.stages[stage])
  {
    assert BookOk(b);
    var item, after := b.stages[stage], b.(stages := b.stages[stage := next]);
    if Final(next.state) && (stage, item) in b.published && next != item {
      assert BookOk(after) ==> Follows(next, item);
    } else {
      forall a | (stage, a) in b.published && Own(a, b.attempt)
        ensures Follows(next, a)
      {
        assert Follows(item, a);
      }
      assert BookOk(after);
    }
  }

  // What is hidden is published by the next write of another stage, under a number that was
  // published with other counters.
  lemma UnforcedFinalCollides(b: Book, stage: Stage, other: Stage, delta: Counters, now: int)
    requires BookOk(b) && stage in b.stages && other != stage && (stage, b.stages[stage]) in b.published
    requires Own(b.stages[stage], b.attempt) && Final(b.stages[stage].state) && delta != ZERO
    ensures var item := b.stages[stage].(counters := Plus(b.stages[stage].counters, delta));
            var written := Bumped(b.stages[stage := item], b.attempt, other, now);
            && written[stage].position == b.stages[stage].position && !Consistent(b.stages[stage], written[stage])
            && !AllConsistent(b.published + Additions(written))
  {
    var item := b.stages[stage].(counters := Plus(b.stages[stage].counters, delta));
    var written := Bumped(b.stages[stage := item], b.attempt, other, now);
    assert (stage, written[stage]) in Additions(written);
  }

  // --- End to end ---

  function ItemsOf(fact: seq<(Stage, Item)>, s: Stage): seq<Item> {
    if fact == [] then []
    else
      var last := fact[|fact| - 1];
      ItemsOf(fact[..|fact| - 1], s) + (if last.0 == s then [last.1] else [])
  }

  lemma {:induction false} ItemsOfHas(fact: seq<(Stage, Item)>, s: Stage, x: Item)
    ensures x in ItemsOf(fact, s) <==> (s, x) in fact
  {
    if fact != [] {
      var n := |fact| - 1;
      ItemsOfHas(fact[..n], s, x);
      assert fact == fact[..n] + [fact[n]];
    }
  }

  // Received facts are merged one stage at a time, as if they were one long fact.
  lemma {:induction false} MergeAllIsFold(fact: seq<(Stage, Item)>, s: Stage)
    ensures s in MergeAll(map[], fact) <==> ItemsOf(fact, s) != []
    ensures s in MergeAll(map[], fact) ==> MergeAll(map[], fact)[s] == FoldItems(ItemsOf(fact, s))
  {
    if fact != [] {
      var n := |fact| - 1;
      MergeAllIsFold(fact[..n], s);
      var items := ItemsOf(fact[..n], s);
      if fact[n].0 == s {
        assert ItemsOf(fact, s) == items + [fact[n].1];
        assert (items + [fact[n].1])[..|items|] == items;
      } else {
        assert ItemsOf(fact, s) == items;
      }
    }
  }

  lemma {:induction false} MergeAllAppends(saved: map<Stage, Item>, first: seq<(Stage, Item)>, second: seq<(Stage, Item)>)
    ensures MergeAll(MergeAll(saved, first), second) == MergeAll(saved, first + second)
  {
    if second == [] {
      assert first + second == first;
    } else {
      var n := |second| - 1;
      MergeAllAppends(saved, first, second[..n]);
      assert (first + second)[..|first| + n] == first + second[..n];
    }
  }

  // Whatever part of what a run published arrives, in whatever order and however often: for every
  // stage the receiver ends up with the newest of the observations it received.
  lemma ReceiverConverges(published: set<(Stage, Item)>, saved: map<Stage, Item>, attempts: set<Attempt>, top: nat,
                          arrived: seq<(Stage, Item)>, s: Stage)
    requires History(published, saved, attempts, top) && forall e :: e in arrived ==> e in published
    requires exists x :: (s, x) in arrived
    ensures s in MergeAll(map[], arrived)
    ensures var kept := MergeAll(map[], arrived)[s];
            && (s, kept) in arrived && kept.position.Some?
            && forall x :: (s, x) in arrived ==> x == kept || Before(x.position.value, kept.position.value)
  {
    var items := ItemsOf(arrived, s);
    forall x
      ensures x in items <==> (s, x) in arrived
    {
      ItemsOfHas(arrived, s, x);
    }
    var x :| (s, x) in arrived;
    assert x in items;
    MergeAllIsFold(arrived, s);
    NewestIsKept(items);
    var kept := FoldItems(items);
    forall y | (s, y) in arrived
      ensures y == kept || Before(y.position.value, kept.position.value)
    {
      assert Consistent(y, kept);
    }
  }

  ghost predicate Arrives(published: set<(Stage, Item)>, arrived: seq<(Stage, Item)>) {
    forall e :: e in arrived ==> e in published
  }

  // Two receivers to which the same observations arrive, in different order and differently often,
  // show the same.
  ghost predicate Converges(published: set<(Stage, Item)>) {
    forall xs, ys :: Arrives(published, xs) && Arrives(published, ys) && (forall e :: e in xs <==> e in ys) ==>
      MergeAll(map[], xs) == MergeAll(map[], ys)
  }

  lemma HistoryConverges(published: set<(Stage, Item)>, saved: map<Stage, Item>, attempts: set<Attempt>, top: nat)
    requires History(published, saved, attempts, top)
    ensures Converges(published)
  {
    forall xs, ys | Arrives(published, xs) && Arrives(published, ys) && (forall e :: e in xs <==> e in ys)
      ensures MergeAll(map[], xs) == MergeAll(map[], ys)
    {
      forall s
        ensures s in MergeAll(map[], xs) <==> s in MergeAll(map[], ys)
        ensures s in MergeAll(map[], xs) ==> MergeAll(map[], xs)[s] == MergeAll(map[], ys)[s]
      {
        StageConverges(published, xs, ys, s);
      }
    }
  }

  lemma StageConverges(published: set<(Stage, Item)>, xs: seq<(Stage, Item)>, ys: seq<(Stage, Item)>, s: Stage)
    requires AllConsistent(published) && Arrives(published, xs) && Arrives(published, ys) && forall e :: e in xs <==> e in ys
    ensures s in MergeAll(map[], xs) <==> s in MergeAll(map[], ys)
    ensures s in MergeAll(map[], xs) ==> MergeAll(map[], xs)[s] == MergeAll(map[], ys)[s]
  {
    var a, b := ItemsOf(xs, s), ItemsOf(ys, s);
    forall x
      ensures (x in a <==> (s, x) in xs) && (x in b <==> (s, x) in ys)
    {
      ItemsOfHas(xs, s, x);
      ItemsOfHas(ys, s, x);
    }
    MergeAllIsFold(xs, s);
    MergeAllIsFold(ys, s);
    if a != [] {
      assert a[0] in b;
      ArrivalConverges(a, b);
    }
    if b != [] {
      assert b[0] in a;
    }
  }

  // A call of update, and whether the file can be written then.
  datatype Call = Call(stage: Stage, delta: Counters, state: StageState, force: bool, now: int, writes: bool)

  // Callers force an update to a final state, unless it adds nothing.
  predicate Forces(call: Call) {
    Final(call.state) ==> call.force || call.delta == ZERO
  }

  predicate Forced(calls: seq<Call>) {
    forall i :: 0 <= i < |calls| ==> Forces(calls[i])
  }

  // One attempt: a new recorder on what the file holds, and its updates.
  method Record(before: map<Stage, Item>, attempt: Attempt, calls: seq<Call>,
                ghost earlier: set<(Stage, Item)>, ghost attempts: set<Attempt>, ghost top: nat)
      returns (saved: map<Stage, Item>, ghost published: set<(Stage, Item)>, ghost top': nat)
    requires History(earlier, before, attempts, top) && attempt !in attempts && Forced(calls)
    ensures History(published, saved, attempts + {attempt}, top') && earlier <= published
  {
    var recorder := new Recorder(before, attempt, earlier, attempts, top);
    for i := 0 to |calls|
      invariant recorder.Valid() && earlier <= recorder.published
      invariant recorder.attempt == attempt
      invariant forall e :: e in recorder.published ==> e.1.attempt in attempts + {attempt}
    {
      assert Forces(calls[i]);
      var _ := recorder.Update(calls[i].stage, calls[i].delta, calls[i].state, calls[i].force, calls[i].now, calls[i].writes);
    }
    recorder.IsHistory(attempts + {attempt});
    saved, published, top' := recorder.saved, recorder.published, recorder.top;
  }

  function All(attempts: seq<Attempt>): set<Attempt> {
    set a | a in attempts
  }

  // All attempts of a run, one after the other, from an empty file: what they publish together
  // converges at every receiver.
  method RecordAll(attempts: seq<Attempt>, calls: seq<seq<Call>>)
      returns (saved: map<Stage, Item>, ghost published: set<(Stage, Item)>, ghost top: nat)
    requires |calls| == |attempts| && forall i, j :: 0 <= i < j < |attempts| ==> attempts[i] != attempts[j]
    requires forall i :: 0 <= i < |calls| ==> Forced(calls[i])
    ensures History(published, saved, All(attempts), top)
    ensures Converges(published)
  {
    saved, published, top := map[], {}, 0;
    for i := 0 to |attempts|
      invariant History(published, saved, All(attempts[..i]), top)
    {
      assert attempts[..i + 1] == attempts[..i] + [attempts[i]];
      assert All(attempts[..i + 1]) == All(attempts[..i]) + {attempts[i]};
      saved, published, top := Record(saved, attempts[i], calls[i], published, All(attempts[..i]), top);
    }
    assert attempts[..|attempts|] == attempts;
    HistoryConverges(published, saved, All(attempts), top);
  }
}

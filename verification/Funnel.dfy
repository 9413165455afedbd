/** Product events and the ordered funnel: a chain of minima against the choice of events it stands for. */
module Funnel {
  import opened Common

  type Id = string

  /** One row a funnel looks at: an event under the correlation id the funnel asks for. */
  datatype Event = Event(seqNo: int, key: Id, name: string, props: map<string, string>)

  datatype FunnelStep = FunnelStep(name: string, props: map<string, string>)

  /** `name = … AND props @> …`. */
  predicate Matches(e: Event, step: FunnelStep) {
    e.name == step.name && forall p :: p in step.props ==> p in e.props && e.props[p] == step.props[p]
  }

  // ---------------------------------------------------------------- the chained minima

  predicate Counts(e: Event, key: Id, step: FunnelStep, after: Option<int>) {
    e.key == key && Matches(e, step) && (after.Some? ==> e.seqNo > after.value)
  }

  /** The least sequence number of the key's events that match the step, past `after` if that is given. */
  function MinSeq(log: seq<Event>, key: Id, step: FunnelStep, after: Option<int>): Option<int> {
    if log == [] then None
    else
      var front, e := MinSeq(log[..|log| - 1], key, step, after), log[|log| - 1];
      if !Counts(e, key, step, after) then front
      else if front.None? || e.seqNo < front.value then Some(e.seqNo)
      else front
  }

  /** `s0`, `s1`, …: each step starts behind the row that satisfied the step before. */
  function Reached(log: seq<Event>, key: Id, steps: seq<FunnelStep>, n: nat): Option<int>
    requires n < |steps|
  {
    if n == 0 then MinSeq(log, key, steps[0], None)
    else
      match Reached(log, key, steps, n - 1)
      case None => None
      case Some(s) => MinSeq(log, key, steps[n], Some(s))
  }

  lemma {:induction false} MinIsLeast(log: seq<Event>, key: Id, step: FunnelStep, after: Option<int>, i: nat)
    requires i < |log| && Counts(log[i], key, step, after)
    ensures MinSeq(log, key, step, after).Some? && MinSeq(log, key, step, after).value <= log[i].seqNo
  {
    hide Counts;
    if i < |log| - 1 {
      MinIsLeast(log[..|log| - 1], key, step, after, i);
    }
  }

  lemma {:induction false} MinIsReached(log: seq<Event>, key: Id, step: FunnelStep, after: Option<int>) returns (i: nat)
    requires MinSeq(log, key, step, after).Some?
    ensures i < |log| && Counts(log[i], key, step, after) && log[i].seqNo == MinSeq(log, key, step, after).value
  {
    hide Counts;
    var front := MinSeq(log[..|log| - 1], key, step, after);
    if front == MinSeq(log, key, step, after) {
      i := MinIsReached(log[..|log| - 1], key, step, after);
    } else {
      i := |log| - 1;
    }
  }

  // ---------------------------------------------------------------- what the funnel means

  /** `choice` picks one event of the key for each of steps 0..n, in strictly increasing order. */
  predicate Walks(log: seq<Event>, key: Id, steps: seq<FunnelStep>, n: nat, choice: seq<nat>)
    requires n < |steps|
  {
    && |choice| == n + 1
    && choice[n] < |log| && log[choice[n]].key == key && Matches(log[choice[n]], steps[n])
    && (n > 0 ==> Walks(log, key, steps, n - 1, choice[..n]) && log[choice[n - 1]].seqNo < log[choice[n]].seqNo)
  }

  /** Greedy is complete: wherever some choice gets, the chain gets at least as early. */
  lemma {:induction false} GreedyIsComplete(log: seq<Event>, key: Id, steps: seq<FunnelStep>, n: nat, choice: seq<nat>)
    requires n < |steps| && Walks(log, key, steps, n, choice)
    ensures Reached(log, key, steps, n).Some? && Reached(log, key, steps, n).value <= log[choice[n]].seqNo
  {
    hide Matches;
    if n == 0 {
      MinIsLeast(log, key, steps[0], None, choice[0]);
    } else {
      GreedyIsComplete(log, key, steps, n - 1, choice[..n]);
      MinIsLeast(log, key, steps[n], Reached(log, key, steps, n - 1), choice[n]);
    }
  }

  /** Greedy is sound: where the chain gets, some choice gets, at exactly that event. */
  lemma {:induction false} GreedyIsSound(log: seq<Event>, key: Id, steps: seq<FunnelStep>, n: nat) returns (choice: seq<nat>)
    requires n < |steps| && Reached(log, key, steps, n).Some?
    ensures Walks(log, key, steps, n, choice) && log[choice[n]].seqNo == Reached(log, key, steps, n).value
  {
    hide Matches;
    if n == 0 {
      var i := MinIsReached(log, key, steps[0], None);
      choice := [i];
    } else {
      var front := GreedyIsSound(log, key, steps, n - 1);
      var i := MinIsReached(log, key, steps[n], Reached(log, key, steps, n - 1));
      choice := front + [i];
      assert choice[..n] == front;
    }
  }

  /** A key counts at a step exactly when some strictly increasing choice of its events matches all steps up to it. */
  lemma {:induction false} CountsIffWalks(log: seq<Event>, key: Id, steps: seq<FunnelStep>, n: nat)
    requires n < |steps|
    ensures Reached(log, key, steps, n).Some? <==> exists choice :: Walks(log, key, steps, n, choice)
  {
    hide Walks, Reached;
    if Reached(log, key, steps, n).Some? {
      var choice := GreedyIsSound(log, key, steps, n);
    }
    if choice :| Walks(log, key, steps, n, choice) {
      GreedyIsComplete(log, key, steps, n, choice);
    }
  }

  // ---------------------------------------------------------------- counting keys

  function Keys(log: seq<Event>): set<Id> {
    if log == [] then {} else Keys(log[..|log| - 1]) + {log[|log| - 1].key}
  }

  /** The keys in the table of step `n`. */
  function ReachedKeys(log: seq<Event>, steps: seq<FunnelStep>, n: nat): set<Id>
    requires n < |steps|
  {
    set k | k in Keys(log) && Reached(log, k, steps, n).Some?
  }

  lemma {:induction false} KeyAt(log: seq<Event>, i: nat, key: Id)
    requires i < |log| && log[i].key == key
    ensures key in Keys(log)
  {
    if i < |log| - 1 {
      KeyAt(log[..|log| - 1], i, key);
    }
  }

  lemma {:induction false} WalkIsCounted(log: seq<Event>, steps: seq<FunnelStep>, n: nat, key: Id, choice: seq<nat>)
    requires n < |steps| && Walks(log, key, steps, n, choice)
    ensures key in ReachedKeys(log, steps, n)
  {
    GreedyIsComplete(log, key, steps, n, choice);
    KeyAt(log, choice[n], key);
  }

  /** Every key a choice exists for is counted, and no other. */
  lemma {:induction false} CountedKeys(log: seq<Event>, steps: seq<FunnelStep>, n: nat, key: Id)
    requires n < |steps|
    ensures key in ReachedKeys(log, steps, n) <==> exists choice :: Walks(log, key, steps, n, choice)
  {
    CountsIffWalks(log, key, steps, n);
    if choice :| Walks(log, key, steps, n, choice) {
      WalkIsCounted(log, steps, n, key, choice);
    }
  }

  lemma {:induction false} SubsetCount<T>(a: set<T>, b: set<T>)
    requires a <= b
    ensures |a| <= |b|
    decreases |a|
  {
    if x :| x in a {
      SubsetCount(a - {x}, b - {x});
    }
  }

  /** Counts never increase from step to step. */
  lemma CountsNeverIncrease(log: seq<Event>, steps: seq<FunnelStep>, n: nat)
    requires n + 1 < |steps|
    ensures |ReachedKeys(log, steps, n + 1)| <= |ReachedKeys(log, steps, n)|
  {
    hide MinSeq;
    SubsetCount(ReachedKeys(log, steps, n + 1), ReachedKeys(log, steps, n));
  }

  // ---------------------------------------------------------------- recording events

  /** What an event may be correlated by. */
  datatype KeyKind = Session | User | Customer | Order

  /** One stored event; `seqNo` is the table's identity column. */
  datatype Stored = Stored(id: Id, seqNo: int, keys: map<KeyKind, Id>, name: string, props: map<string, string>, occurredAt: int)

  datatype NewEvent = NewEvent(id: Option<Id>, keys: map<KeyKind, Id>, name: string, props: map<string, string>, occurredAt: Option<int>)

  datatype EventError = UnknownEvent | NoCorrelationKey

  predicate HasId(log: seq<Stored>, id: Id) {
    log != [] && (log[|log| - 1].id == id || HasId(log[..|log| - 1], id))
  }

  function NextSeq(log: seq<Stored>): int {
    if log == [] then 1 else log[|log| - 1].seqNo + 1
  }

  /** The event's own id, or the one drawn for it. */
  function IdOf(e: NewEvent, drawn: Id): Id {
    if e.id.Some? then e.id.value else drawn
  }

  function RowFor(log: seq<Stored>, e: NewEvent, drawn: Id, now: int): Stored {
    Stored(IdOf(e, drawn), NextSeq(log), e.keys, e.name, e.props, if e.occurredAt.Some? then e.occurredAt.value else now)
  }

  /** `INSERT … ON CONFLICT (id) DO NOTHING`. */
  function Inserted(log: seq<Stored>, e: NewEvent, drawn: Id, now: int): seq<Stored> {
    if HasId(log, IdOf(e, drawn)) then log else log + [RowFor(log, e, drawn, now)]
  }

  function Refused(known: set<string>, e: NewEvent): Option<EventError> {
    if e.name !in known then Some(UnknownEvent)
    else if e.keys == map[] then Some(NoCorrelationKey)
    else None
  }

  /** `recordMany`: one transaction, so an unacceptable event undoes the batch. `drawn(i)` is the id drawn for event `i`. */
  function RecordedMany(log: seq<Stored>, known: set<string>, es: seq<NewEvent>, drawn: nat -> Id, now: int):
    Result<seq<Stored>, EventError>
  {
    if es == [] then Ok(log)
    else
      match RecordedMany(log, known, es[..|es| - 1], drawn, now)
      case Err(e) => Err(e)
      case Ok(before) =>
        var e := es[|es| - 1];
        if Refused(known, e).Some? then Err(Refused(known, e).value) else Ok(Inserted(before, e, drawn(|es| - 1), now))
  }

  lemma {:induction false} HasIdPush(log: seq<Stored>, e: Stored, id: Id)
    ensures HasId(log + [e], id) <==> HasId(log, id) || e.id == id
  {
    assert (log + [e])[..|log|] == log;
  }

  lemma {:induction false} RecordedHas(log: seq<Stored>, known: set<string>, es: seq<NewEvent>, drawn: nat -> Id, now: int)
    requires RecordedMany(log, known, es, drawn, now).Ok?
    ensures log <= RecordedMany(log, known, es, drawn, now).value
    ensures forall i :: 0 <= i < |es| ==> HasId(RecordedMany(log, known, es, drawn, now).value, IdOf(es[i], drawn(i)))
  {
    hide HasId, Refused;
    if es != [] {
      var front := es[..|es| - 1];
      RecordedHas(log, known, front, drawn, now);
      var before, e := RecordedMany(log, known, front, drawn, now).value, es[|es| - 1];
      var row := RowFor(before, e, drawn(|front|), now);
      var after := Inserted(before, e, drawn(|front|), now);
      forall x | HasId(before, x) ensures HasId(after, x) {
        HasIdPush(before, row, x);
      }
      HasIdPush(before, row, row.id);
      forall i | 0 <= i < |es| ensures HasId(after, IdOf(es[i], drawn(i))) {
        assert i < |front| ==> es[i] == front[i];
      }
    }
  }

  /** A batch adds nothing exactly when every id it brings or is given is there. */
  lemma {:induction false} AddsNothingIff(log: seq<Stored>, known: set<string>, es: seq<NewEvent>, drawn: nat -> Id, now: int)
    requires RecordedMany(log, known, es, drawn, now).Ok?
    ensures RecordedMany(log, known, es, drawn, now).value == log
      <==> forall i :: 0 <= i < |es| ==> HasId(log, IdOf(es[i], drawn(i)))
  {
    hide HasId, Refused;
    if es != [] {
      var front := es[..|es| - 1];
      AddsNothingIff(log, known, front, drawn, now);
      RecordedHas(log, known, front, drawn, now);
      var before := RecordedMany(log, known, front, drawn, now).value;
      assert forall i :: 0 <= i < |front| ==> es[i] == front[i];
      if before != log {
        assert |before| > |log|;
      }
    }
  }

  lemma {:induction false} AcceptanceIgnoresLog(a: seq<Stored>, b: seq<Stored>, known: set<string>, es: seq<NewEvent>,
                                                drawn: nat -> Id, now: int, again: nat -> Id, later: int)
    ensures RecordedMany(a, known, es, drawn, now).Ok? <==> RecordedMany(b, known, es, again, later).Ok?
  {
    hide Refused;
    if es != [] {
      AcceptanceIgnoresLog(a, b, known, es[..|es| - 1], drawn, now, again, later);
    }
  }

  /** Replaying a batch that was recorded is accepted, and changes nothing exactly when no event draws a new id. */
  lemma {:induction false} ReplayChangesNothingIff(log: seq<Stored>, known: set<string>, es: seq<NewEvent>,
                                                   drawn: nat -> Id, now: int, again: nat -> Id, later: int)
    requires RecordedMany(log, known, es, drawn, now).Ok?
    ensures var after := RecordedMany(log, known, es, drawn, now).value;
      && RecordedMany(after, known, es, again, later).Ok?
      && (RecordedMany(after, known, es, again, later).value == after
          <==> forall i :: 0 <= i < |es| ==> es[i].id.Some? || HasId(after, again(i)))
  {
    hide HasId, RecordedMany;
    var after := RecordedMany(log, known, es, drawn, now).value;
    RecordedHas(log, known, es, drawn, now);
    AcceptanceIgnoresLog(log, after, known, es, drawn, now, again, later);
    AddsNothingIff(after, known, es, again, later);
    forall i | 0 <= i < |es| ensures HasId(after, IdOf(es[i], again(i))) <==> es[i].id.Some? || HasId(after, again(i)) {
      assert HasId(after, IdOf(es[i], drawn(i)));
    }
  }

  /** Sequence numbers rise with the log, so no event stands at two places of a choice. */
  predicate Rising(log: seq<Stored>) {
    |log| <= 1 || (Rising(log[..|log| - 1]) && log[|log| - 2].seqNo < log[|log| - 1].seqNo)
  }

  lemma {:induction false} RecordingRises(log: seq<Stored>, known: set<string>, es: seq<NewEvent>, drawn: nat -> Id, now: int)
    requires Rising(log) && RecordedMany(log, known, es, drawn, now).Ok?
    ensures Rising(RecordedMany(log, known, es, drawn, now).value)
  {
    hide HasId, Refused;
    if es != [] {
      RecordingRises(log, known, es[..|es| - 1], drawn, now);
      var before := RecordedMany(log, known, es[..|es| - 1], drawn, now).value;
      var after := RecordedMany(log, known, es, drawn, now).value;
      if after != before {
        assert after[..|after| - 1] == before;
      }
    }
  }

  ghost predicate Acceptable(known: set<string>, e: NewEvent) {
    e.name in known && exists kind :: kind in e.keys
  }

  /** A batch is recorded exactly when each of its events has a known name and some correlation id; otherwise the first that has not says why. */
  lemma {:induction false} RecordedIff(log: seq<Stored>, known: set<string>, es: seq<NewEvent>, drawn: nat -> Id, now: int)
    ensures var r := RecordedMany(log, known, es, drawn, now);
      && (r.Ok? <==> forall i :: 0 <= i < |es| ==> Acceptable(known, es[i]))
      && (r.Err? ==> exists i :: 0 <= i < |es| && FirstRefused(known, es, i, r.error))
  {
    hide Inserted;
    if es != [] {
      var front, last := es[..|es| - 1], es[|es| - 1];
      RecordedIff(log, known, front, drawn, now);
      assert forall i :: 0 <= i < |front| ==> front[i] == es[i];
      assert Refused(known, last).None? <==> Acceptable(known, last) by {
        assert last.keys == map[] <==> forall kind :: kind !in last.keys;
      }
      var r := RecordedMany(log, known, es, drawn, now);
      if RecordedMany(log, known, front, drawn, now).Err? {
        var i :| 0 <= i < |front| && FirstRefused(known, front, i, r.error);
        assert FirstRefused(known, es, i, r.error);
      } else if r.Err? {
        assert FirstRefused(known, es, |front|, r.error);
      }
    }
  }

  /** The events before it are acceptable and this one is not, for this reason. */
  ghost predicate FirstRefused(known: set<string>, es: seq<NewEvent>, i: nat, error: EventError)
    requires i < |es|
  {
    && (forall j :: 0 <= j < i ==> Acceptable(known, es[j]))
    && !Acceptable(known, es[i])
    && error == if es[i].name !in known then UnknownEvent else NoCorrelationKey
  }

  /** What a row keeps of its event: the id it brought or else the drawn one, and the time it brought or else now. */
  ghost predicate Keeps(row: Stored, e: NewEvent, drawn: Id, now: int) {
    && row.id == (match e.id case Some(own) => own case None => drawn)
    && row.occurredAt == (match e.occurredAt case Some(own) => own case None => now)
    && row.keys == e.keys && row.name == e.name && row.props == e.props
  }

  /** A recorded batch appends rows of its own events only, and leaves the rows that were there. */
  lemma {:induction false} RecordedRows(log: seq<Stored>, known: set<string>, es: seq<NewEvent>, drawn: nat -> Id, now: int, j: nat)
    requires RecordedMany(log, known, es, drawn, now).Ok?
    requires |log| <= j < |RecordedMany(log, known, es, drawn, now).value|
    ensures exists i :: 0 <= i < |es| && Keeps(RecordedMany(log, known, es, drawn, now).value[j], es[i], drawn(i), now)
  {
    hide HasId, Refused;
    if es != [] {
      var front := es[..|es| - 1];
      RecordedHas(log, known, front, drawn, now);
      var before := RecordedMany(log, known, front, drawn, now).value;
      if j < |before| {
        RecordedRows(log, known, front, drawn, now, j);
        var i :| 0 <= i < |front| && Keeps(before[j], front[i], drawn(i), now);
        assert front[i] == es[i];
      } else {
        assert Keeps(RecordedMany(log, known, es, drawn, now).value[j], es[|front|], drawn(|front|), now);
      }
    }
  }

  lemma {:induction false} RecordedManySticks(log: seq<Stored>, known: set<string>, es: seq<NewEvent>, drawn: nat -> Id, now: int, k: nat)
    requires k <= |es| && RecordedMany(log, known, es[..k], drawn, now).Err?
    ensures RecordedMany(log, known, es, drawn, now) == RecordedMany(log, known, es[..k], drawn, now)
  {
    if k == |es| {
      assert es[..k] == es;
    } else {
      assert es[..|es| - 1][..k] == es[..k];
      RecordedManySticks(log, known, es[..|es| - 1], drawn, now, k);
    }
  }

  // ---------------------------------------------------------------- the rows a funnel looks at

  /** What a funnel correlates by, and its window. */
  datatype Scope = Scope(kind: KeyKind, from: int, until: int)

  predicate InBase(e: Stored, scope: Scope) {
    scope.kind in e.keys && scope.from <= e.occurredAt < scope.until
  }

  /** `base`: the events of the window that have the correlation id, under it. */
  function Base(log: seq<Stored>, scope: Scope): seq<Event> {
    if log == [] then []
    else
      var e := log[|log| - 1];
      Base(log[..|log| - 1], scope)
      + (if InBase(e, scope) then [Event(e.seqNo, e.keys[scope.kind], e.name, e.props)] else [])
  }

  /** Steps taken in a choice from the log: events of one key inside the window, in strictly increasing order. */
  predicate Follows(log: seq<Stored>, scope: Scope, key: Id, steps: seq<FunnelStep>, n: nat, choice: seq<nat>)
    requires n < |steps|
  {
    && |choice| == n + 1
    && choice[n] < |log|
    && scope.kind in log[choice[n]].keys && log[choice[n]].keys[scope.kind] == key
    && scope.from <= log[choice[n]].occurredAt < scope.until
    && log[choice[n]].name == steps[n].name
    && (forall p :: p in steps[n].props ==> p in log[choice[n]].props && log[choice[n]].props[p] == steps[n].props[p])
    && (n > 0 ==> Follows(log, scope, key, steps, n - 1, choice[..n])
                  && log[choice[n - 1]].seqNo < log[choice[n]].seqNo)
  }

  predicate SameRow(e: Stored, kind: KeyKind, row: Event) {
    kind in e.keys && row == Event(e.seqNo, e.keys[kind], e.name, e.props)
  }

  /** Every event of the window is in the base, … */
  lemma {:induction false} EventIsInBase(log: seq<Stored>, scope: Scope, i: nat) returns (j: nat)
    requires i < |log| && InBase(log[i], scope)
    ensures j < |Base(log, scope)| && SameRow(log[i], scope.kind, Base(log, scope)[j])
  {
    if i < |log| - 1 {
      j := EventIsInBase(log[..|log| - 1], scope, i);
    } else {
      j := |Base(log[..|log| - 1], scope)|;
    }
  }

  /** … and nothing else is. */
  lemma {:induction false} BaseIsFromLog(log: seq<Stored>, scope: Scope, j: nat) returns (i: nat)
    requires j < |Base(log, scope)|
    ensures i < |log| && InBase(log[i], scope) && SameRow(log[i], scope.kind, Base(log, scope)[j])
  {
    var front := Base(log[..|log| - 1], scope);
    if j < |front| {
      i := BaseIsFromLog(log[..|log| - 1], scope, j);
    } else {
      i := |log| - 1;
    }
  }

  lemma {:induction false} FollowsInBase(log: seq<Stored>, scope: Scope, key: Id, steps: seq<FunnelStep>,
                                         n: nat, choice: seq<nat>) returns (walk: seq<nat>)
    requires n < |steps| && Follows(log, scope, key, steps, n, choice)
    ensures var base := Base(log, scope);
      Walks(base, key, steps, n, walk) && base[walk[n]].seqNo == log[choice[n]].seqNo
  {
    var j := EventIsInBase(log, scope, choice[n]);
    if n == 0 {
      walk := [j];
    } else {
      var before := FollowsInBase(log, scope, key, steps, n - 1, choice[..n]);
      walk := before + [j];
      assert walk[..n] == before;
    }
  }

  lemma {:induction false} WalksInLog(log: seq<Stored>, scope: Scope, key: Id, steps: seq<FunnelStep>,
                                      n: nat, walk: seq<nat>) returns (choice: seq<nat>)
    requires n < |steps| && Walks(Base(log, scope), key, steps, n, walk)
    ensures Follows(log, scope, key, steps, n, choice)
    ensures log[choice[n]].seqNo == Base(log, scope)[walk[n]].seqNo
  {
    var i := BaseIsFromLog(log, scope, walk[n]);
    if n == 0 {
      choice := [i];
    } else {
      var before := WalksInLog(log, scope, key, steps, n - 1, walk[..n]);
      choice := before + [i];
      assert choice[..n] == before;
    }
  }

  /** The keys a funnel counts at a step are those that followed the steps so far in the stored events of its window. */
  lemma {:induction false} FunnelCountsFollowers(log: seq<Stored>, scope: Scope, steps: seq<FunnelStep>, n: nat, key: Id)
    requires n < |steps|
    ensures key in ReachedKeys(Base(log, scope), steps, n)
      <==> exists choice :: Follows(log, scope, key, steps, n, choice)
  {
    hide Base, ReachedKeys;
    var base := Base(log, scope);
    CountedKeys(base, steps, n, key);
    if key in ReachedKeys(base, steps, n) {
      var walk :| Walks(base, key, steps, n, walk);
      var choice := WalksInLog(log, scope, key, steps, n, walk);
      assert Follows(log, scope, key, steps, n, choice);
    }
    if choice :| Follows(log, scope, key, steps, n, choice) {
      var walk := FollowsInBase(log, scope, key, steps, n, choice);
      WalkIsCounted(base, steps, n, key, walk);
    }
  }

  /** One step's minimum, joined with the table of the step before unless it is the first. */
  function StepMin(base: seq<Event>, key: Id, step: FunnelStep, first: bool, previous: map<Id, int>): Option<int> {
    if first then MinSeq(base, key, step, None)
    else if key in previous then MinSeq(base, key, step, Some(previous[key]))
    else None
  }

  // ---------------------------------------------------------------- the service

  class EventService {
    var log: seq<Stored>

    constructor ()
      ensures log == []
    {
      log := [];
    }

    /** Record a batch, all or none. The answer counts the batch, not what was new in it. */
    method RecordMany(known: set<string>, es: seq<NewEvent>, drawn: nat -> Id, now: int) returns (r: Result<nat, EventError>)
      modifies this
      ensures match RecordedMany(old(log), known, es, drawn, now)
        case Ok(after) => r == Ok(|es|) && log == after
        case Err(e) => r == Err(e) && log == old(log)
    {
      hide HasId;
      var begin := log;
      var i := 0;
      while i < |es|
        invariant 0 <= i <= |es| && RecordedMany(begin, known, es[..i], drawn, now) == Ok(log)
      {
        assert es[..i + 1][..i] == es[..i];
        var e := es[i];
        if e.name !in known {
          RecordedManySticks(begin, known, es, drawn, now, i + 1);
          log := begin;
          return Err(UnknownEvent);
        }
        if e.keys == map[] {
          RecordedManySticks(begin, known, es, drawn, now, i + 1);
          log := begin;
          return Err(NoCorrelationKey);
        }
        if !HasId(log, IdOf(e, drawn(i))) {
          log := log + [RowFor(log, e, drawn(i), now)];
        }
        i := i + 1;
      }
      assert es[..i] == es;
      r := Ok(|es|);
    }

    method SelectBase(scope: Scope) returns (base: seq<Event>)
      ensures base == Base(log, scope)
    {
      base := [];
      var i := 0;
      while i < |log|
        invariant 0 <= i <= |log| && base == Base(log[..i], scope)
      {
        assert log[..i + 1][..i] == log[..i];
        var e := log[i];
        if scope.kind in e.keys && scope.from <= e.occurredAt < scope.until {
          base := base + [Event(e.seqNo, e.keys[scope.kind], e.name, e.props)];
        }
        i := i + 1;
      }
      assert log[..i] == log;
    }

    /** One step's table: the least matching sequence number per key, scanning the base rows once. */
    method StepTable(base: seq<Event>, step: FunnelStep, first: bool, previous: map<Id, int>) returns (table: map<Id, int>)
      ensures forall k :: k in table <==> StepMin(base, k, step, first, previous).Some?
      ensures forall k :: k in table ==> StepMin(base, k, step, first, previous) == Some(table[k])
    {
      table := map[];
      var i := 0;
      while i < |base|
        invariant 0 <= i <= |base|
        invariant forall k :: k in table <==> StepMin(base[..i], k, step, first, previous).Some?
        invariant forall k :: k in table ==> StepMin(base[..i], k, step, first, previous) == Some(table[k])
      {
        assert base[..i + 1][..i] == base[..i];
        var e := base[i];
        if Matches(e, step) && (first || (e.key in previous && e.seqNo > previous[e.key])) {
          if e.key !in table || e.seqNo < table[e.key] {
            table := table[e.key := e.seqNo];
          }
        }
        i := i + 1;
      }
      assert base[..i] == base;
    }

    /** `funnel`: the counts of keys at each step, over the stored events of a window. */
    method CountFunnel(scope: Scope, steps: seq<FunnelStep>) returns (counts: seq<nat>)
      ensures |counts| == |steps|
      ensures forall n :: 0 <= n < |steps| ==> counts[n] == |ReachedKeys(Base(log, scope), steps, n)|
    {
      hide MinSeq, Keys, Base;
      var base := SelectBase(scope);
      counts := [];
      var table: map<Id, int> := map[];
      var n := 0;
      while n < |steps|
        invariant 0 <= n <= |steps| && |counts| == n
        invariant forall j :: 0 <= j < n ==> counts[j] == |ReachedKeys(base, steps, j)|
        invariant n > 0 ==> forall k :: k in table <==> Reached(base, k, steps, n - 1).Some?
        invariant n > 0 ==> forall k :: k in table ==> Reached(base, k, steps, n - 1) == Some(table[k])
      {
        table := StepTable(base, steps[n], n == 0, table);
        forall k | k in table ensures k in Keys(base) {
          ReachedIsKey(base, k, steps, n);
        }
        assert table.Keys == ReachedKeys(base, steps, n);
        counts := counts + [|table|];
        n := n + 1;
      }
    }
  }

  lemma {:induction false} ReachedIsKey(log: seq<Event>, key: Id, steps: seq<FunnelStep>, n: nat)
    requires n < |steps| && Reached(log, key, steps, n).Some?
    ensures key in Keys(log)
  {
    var choice := GreedyIsSound(log, key, steps, n);
    KeyAt(log, choice[n], key);
  }
}

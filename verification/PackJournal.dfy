/** The write-ahead journal around a pack's hardware effect. */
module PackJournal {
  import opened Wrappers

  /** An idempotency key: the hash of these, taken as injective. */
  datatype Key = Key(plan: nat, action: string, verb: string, args: string)

  datatype JournalState = IN_FLIGHT | SUCCEEDED | ERRED | EXPIRED

  type Payload = map<string, string>

  /** `detail` is the recorded result or error. */
  datatype Entry = Entry(run: nat, state: JournalState, detail: Payload)

  datatype ResultStatus = Success | Failure | Expired | InFlight

  datatype Result = Result(status: ResultStatus, detail: Payload)

  /** What the hardware effect comes back with: a result, or an exception. */
  datatype Realization = Returns(result: Payload) | Throws(kind: string, message: string)

  /** The outcome that an entry stands for, when it is asked again. */
  function Replay(e: Entry): Result {
    match e.state
    case IN_FLIGHT => Result(InFlight, map["reason" := "already_in_flight"])
    case EXPIRED => Result(Expired, map["reason" := "expired"])
    case SUCCEEDED => Result(Success, e.detail)
    case ERRED => Result(Failure, if e.detail == map[] then map["reason" := "previous_failure"] else e.detail)
  }

  function Finished(run: nat, r: Realization): Entry {
    match r
    case Returns(result) => Entry(run, SUCCEEDED, result)
    case Throws(kind, message) => Entry(run, ERRED, map["type" := kind, "message" := message])
  }

  /** The journal, and how often the effect of each key was started. */
  datatype Book = Book(entries: map<Key, Entry>, effects: multiset<Key>)

  const BLANK := Book(map[], multiset{})

  /** How a call of `execute` may go: to its end, or into a crash at one of its points. */
  datatype Fate =
    | Completes(outcome: Realization)
    | DiesBeforeJournal
    | DiesBeforeEffect
    | DiesInEffect
    | DiesAfterEffect

  datatype Call = Call(key: Key, run: nat, fate: Fate)

  /** One call: what it leaves in the journal and at the hardware, and what it returns, if it does. */
  function Execute(b: Book, c: Call): (Book, Option<Result>) {
    if c.key in b.entries then
      (b, if c.fate.Completes? then Some(Replay(b.entries[c.key])) else None)
    else
      var started := b.entries[c.key := Entry(c.run, IN_FLIGHT, map[])];
      match c.fate
      case DiesBeforeJournal => (b, None)
      case DiesBeforeEffect => (b.(entries := started), None)
      case DiesInEffect => (Book(started, b.effects + multiset{c.key}), None)
      case DiesAfterEffect => (Book(started, b.effects + multiset{c.key}), None)
      case Completes(outcome) =>
        (Book(b.entries[c.key := Finished(c.run, outcome)], b.effects + multiset{c.key}),
         Some(Replay(Finished(c.run, outcome))))
  }

  function ExecuteAll(b: Book, calls: seq<Call>): Book {
    if calls == [] then b else Execute(ExecuteAll(b, calls[..|calls| - 1]), calls[|calls| - 1]).0
  }

  predicate KeyCovered(b: Book, k: Key) {
    b.effects[k] <= 1 && (b.effects[k] == 1 ==> k in b.entries)
    && (k in b.entries && b.entries[k].state != IN_FLIGHT ==> b.effects[k] == 1)
  }

  /** What the journal says of each key covers what happened at the hardware. */
  ghost predicate Covers(b: Book) {
    forall k :: KeyCovered(b, k)
  }

  lemma CallKeepsCover(b: Book, c: Call, k: Key)
    requires KeyCovered(b, k)
    ensures KeyCovered(Execute(b, c).0, k)
  {
  }

  lemma {:induction false} JournalCoversEffects(calls: seq<Call>)
    ensures Covers(ExecuteAll(BLANK, calls))
  {
    if calls != [] {
      var b := ExecuteAll(BLANK, calls[..|calls| - 1]);
      JournalCoversEffects(calls[..|calls| - 1]);
      forall k ensures KeyCovered(ExecuteAll(BLANK, calls), k) {
        CallKeepsCover(b, calls[|calls| - 1], k);
      }
    }
  }

  lemma ExecuteConcat(b: Book, a: seq<Call>, c: Call)
    ensures ExecuteAll(b, a + [c]) == Execute(ExecuteAll(b, a), c).0
  {
    assert (a + [c])[..|a|] == a;
  }

  /** Once a key is in the journal, no later call, finished or not, changes its entry or starts its effect. */
  lemma {:induction false} EntriesAreFinal(b: Book, calls: seq<Call>, k: Key)
    requires k in b.entries
    ensures var v := ExecuteAll(b, calls);
            k in v.entries && v.entries[k] == b.entries[k] && v.effects[k] == b.effects[k]
  {
    if calls != [] {
      EntriesAreFinal(b, calls[..|calls| - 1], k);
    }
  }

  /** At most once, with a stable answer: whatever calls and crashes come before and after it, the effect of
    * a key is started at most once in all; and if a call completes, it and every later completing call
    * with its key return the same. */
  lemma AtMostOnceWithStableReplay(before: seq<Call>, c: Call, after: seq<Call>, again: Call)
    requires c.fate.Completes? && again.fate.Completes? && again.key == c.key
    ensures var b := ExecuteAll(BLANK, before);
            var v := ExecuteAll(Execute(b, c).0, after);
            && v.effects[c.key] <= 1
            && Execute(v, again).1 == Execute(b, c).1
            && Execute(v, again).0 == v
  {
    var b := ExecuteAll(BLANK, before);
    ExecuteConcat(BLANK, before, c);
    JournalCoversEffects(before + [c]);
    assert KeyCovered(ExecuteAll(BLANK, before + [c]), c.key);
    EntriesAreFinal(Execute(b, c).0, after, c.key);
  }

  /** After a crash between the journal entry and its outcome, every later call is told that the effect may
    * have happened, and never repeats it. */
  lemma InterruptedStaysInFlight(before: seq<Call>, c: Call, after: seq<Call>, again: Call)
    requires c.key !in ExecuteAll(BLANK, before).entries
    requires c.fate == DiesBeforeEffect || c.fate == DiesInEffect || c.fate == DiesAfterEffect
    requires again.key == c.key && again.fate.Completes?
    ensures var v := ExecuteAll(Execute(ExecuteAll(BLANK, before), c).0, after);
            Execute(v, again) == (v, Some(Result(InFlight, map["reason" := "already_in_flight"])))
  {
    EntriesAreFinal(Execute(ExecuteAll(BLANK, before), c).0, after, c.key);
  }

  // ----- What is recorded and answered -----

  /** The first call with a key: the effect runs once; a result is recorded and answered as a success with
    * that result, an exception as a failure with its kind and message. */
  lemma NewKeyTellsTheOutcome(b: Book, key: Key, run: nat, outcome: Realization)
    requires key !in b.entries
    ensures var (v, answer) := Execute(b, Call(key, run, Completes(outcome)));
            && v.effects == b.effects + multiset{key} && answer.Some? && key in v.entries && v.entries[key].run == run
            && (outcome.Returns? ==>
                  && v.entries[key].state == SUCCEEDED && v.entries[key].detail == outcome.result
                  && answer.value.status == Success && answer.value.detail == outcome.result)
            && (outcome.Throws? ==>
                  var error := map["type" := outcome.kind, "message" := outcome.message];
                  && v.entries[key].state == ERRED && v.entries[key].detail == error
                  && answer.value.status == Failure && answer.value.detail == error)
  {
    if outcome.Throws? {
      assert "type" in map["type" := outcome.kind, "message" := outcome.message];
    }
  }

  /** A key that is there already: no effect, and the answer is the recorded outcome. */
  lemma OldKeyIsAnswered(b: Book, key: Key, run: nat, outcome: Realization)
    requires key in b.entries
    ensures var (v, answer) := Execute(b, Call(key, run, Completes(outcome)));
            var e := b.entries[key];
            && v == b && answer.Some?
            && (answer.value.status == Success <==> e.state == SUCCEEDED)
            && (answer.value.status == Failure <==> e.state == ERRED)
            && (answer.value.status == Expired <==> e.state == EXPIRED)
            && (answer.value.status == InFlight <==> e.state == IN_FLIGHT)
            && (e.state == SUCCEEDED || (e.state == ERRED && e.detail != map[]) ==> answer.value.detail == e.detail)
  {
  }

  /** Over any calls and crashes: every completing call is answered as the one effect of its key came out,
    * if the call that ran it completed. */
  lemma AnswersTellTheOutcome(before: seq<Call>, c: Call, after: seq<Call>, again: Call)
    requires c.key !in ExecuteAll(BLANK, before).entries
    requires c.fate.Completes? && again.fate.Completes? && again.key == c.key
    ensures var answer := Execute(ExecuteAll(Execute(ExecuteAll(BLANK, before), c).0, after), again).1;
            && answer.Some?
            && (c.fate.outcome.Returns? ==> answer.value == Result(Success, c.fate.outcome.result))
            && (c.fate.outcome.Throws? ==>
                  answer.value == Result(Failure, map["type" := c.fate.outcome.kind, "message" := c.fate.outcome.message]))
  {
    AtMostOnceWithStableReplay(before, c, after, again);
    NewKeyTellsTheOutcome(ExecuteAll(BLANK, before), c.key, c.run, c.fate.outcome);
  }
}

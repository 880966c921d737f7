/** The producer's batch enqueue (`src/ftq/client.py`): one round trip, and in block mode one more for
    whatever was refused, until all is admitted or the deadline has passed. Other clients act before
    every script call, and every call runs on the queue as it is then. */
module EnqueueMany {
  import opened QueueTypes
  import opened Steps
  import Scripts
  import Protocol
  import Guarantees
  import RedisQueue

  /** One job of the batch as it is sent, each time it is sent: its id is made before the first round. */
  datatype NewJob = NewJob(job: Job, key: Option<IdemKey>)

  /** The batch and the client's settings. */
  datatype Batch = Batch(s: Settings, jobs: seq<NewJob>, block: bool)

  /** `ProducerCounters`. */
  datatype Counters = Counters(accepted: nat, duplicates: nat, rejected: nat, blocked: nat, blockedSeconds: real)

  datatype Result = AllIn(ids: seq<JobId>) | QueueFull(depth: nat, accepted: seq<Option<JobId>>)

  // ---------------------------------------------------------------- the log of a batch

  /** One of the client's calls, with the queue at that moment: the enqueue of an input, and when it was
      sent; or the count of a block that gave up. */
  datatype Call =
    | Sent(input: nat, what: NewJob, countAs: CountAs, at: Queue, time: real)
    | Reported(refused: nat, at: Queue, time: real)

  function Reply(b: Batch, c: Call): Admission
    requires c.Sent?
  {
    Scripts.Admit(b.s, c.at, c.what.job, c.what.key)
  }

  function After(b: Batch, c: Call): Queue {
    if c.Sent? then Scripts.Enqueue(b.s, c.at, c.what.job, c.what.key, c.countAs)
    else c.at.(stats := c.at.stats.(rejected := c.at.stats.rejected + c.refused))
  }

  function AfterAll(b: Batch, q0: Queue, log: seq<Call>): Queue {
    if log == [] then q0 else After(b, log[|log| - 1])
  }

  /** Other clients' turn: entry ids are never reused. `quiet` if there are no others. */
  predicate Gap(quiet: bool, q: Queue, r: Queue) {
    q.g.nextId <= r.g.nextId && (quiet ==> r == q)
  }

  /** Every step of the protocol is such a turn. */
  lemma StepIsGap(s: Settings, x: Protocol.System, a: Protocol.Action, y: Protocol.System)
    requires Protocol.Next(s, x, a, y)
    ensures Gap(false, x.q, y.q)
  {
    match a
    case DoEnqueue(job, key, _) =>
      if Scripts.Admit(s, x.q, job, key).Added? {} else if Scripts.Admit(s, x.q, job, key).Refused? {} else {}
    case DoHeartbeat(w, e, _) => if Scripts.Owns(x.q.g, w, e) {} else {}
    case DoEffect(_, e) => if s.KeyOf(x.written[e].jobType, x.written[e].id) in x.q.ledger.marks {} else {}
    case DoCommit(_, e, _, _) => if x.q.v.HasSucceeded(x.written[e].id) {} else {}
    case DoRetry(w, e, _, _, _) =>
      match Scripts.RetryOutcome(x.q, w, e, x.written[e].id) {
        case LeaseLost => case TerminalState => case EntryMissing => case Ok =>
      }
    case DoDead(w, e, _, _, _, _, _) =>
      match Scripts.DeadOutcome(x.q, w, e, x.written[e].id) {
        case LeaseLost => case TerminalState => case EntryMissing => case Ok =>
      }
    case DoSchedule(_, due, _) => ScheduleNextId(x.q, due);
    case DoRequeue(j) => if Scripts.RequeueOutcomeOf(x.q.v, j).Requeued? {} else {}
    case _ =>
  }

  lemma {:induction false} ScheduleNextId(q: Queue, due: seq<Job>)
    ensures q.g.nextId <= Scripts.Schedule(q, due).g.nextId
    decreases |due|
  {
    if due != [] {
      ScheduleNextId(Scripts.MoveOne(q, due[0]), due[1..]);
    }
  }

  /** Between any two calls, and before the first, others have their turn. */
  predicate IsTrace(b: Batch, quiet: bool, q0: Queue, log: seq<Call>) {
    forall i {:trigger log[..i]} :: 0 <= i < |log| ==> Gap(quiet, AfterAll(b, q0, log[..i]), log[i].at)
  }

  /** The first reply to an input that was not a refusal. */
  function Answer(b: Batch, log: seq<Call>, i: nat): Option<Admission> {
    if log == [] then None
    else
      var c := log[|log| - 1];
      var before := Answer(b, log[..|log| - 1], i);
      if before.Some? then before
      else if c.Sent? && c.input == i && !Reply(b, c).Refused? then Some(Reply(b, c))
      else None
  }

  function IdOf(answer: Option<Admission>): Option<JobId> {
    if answer.Some? && !answer.value.Refused? then Some(answer.value.id) else None
  }

  predicate IsAdded(b: Batch, c: Call) {
    c.Sent? && Reply(b, c).Added?
  }

  predicate IsDuplicate(b: Batch, c: Call) {
    c.Sent? && Reply(b, c).DuplicateOf?
  }

  /** How many calls of a log satisfy a condition. */
  function Count(log: seq<Call>, which: Call -> bool): nat {
    if log == [] then 0 else Count(log[..|log| - 1], which) + if which(log[|log| - 1]) then 1 else 0
  }

  function Added(b: Batch, log: seq<Call>): nat {
    Count(log, c => IsAdded(b, c))
  }

  function Duplicates(b: Batch, log: seq<Call>): nat {
    Count(log, c => IsDuplicate(b, c))
  }

  // ---------------------------------------------------------------- the procedure

  /** Where the batch stands: in a round, with inputs still to send and those refused so far; between
      rounds; given up; or not following the procedure. */
  datatype Stage =
    | Asking(round: nat, rest: seq<nat>, refused: seq<nat>)
    | RoundOver(rounds: nat, refused: seq<nat>)
    | GaveUp(rounds: nat, refused: seq<nat>)
    | Astray

  /** The counter that a refusal is counted in: only the first round's. */
  function CountAsIn(b: Batch, round: nat): CountAs {
    if round > 0 then CountNone else if b.block then CountBlocked else CountRejected
  }

  function Ask(b: Batch, round: nat, rest: seq<nat>, refused: seq<nat>, c: Call): Stage {
    if rest == [] || !c.Sent? || c.input != rest[0] || c.input >= |b.jobs| || c.what != b.jobs[c.input] || c.countAs != CountAsIn(b, round) then
      Astray
    else
      var out := if Reply(b, c).Refused? then refused + [c.input] else refused;
      if |rest| == 1 then RoundOver(round + 1, out) else Asking(round, rest[1..], out)
  }

  /** A round sends every input that has not been answered, in order, the same each time; block mode may
      go on with another round, or report that it gives up. */
  function Advance(b: Batch, stage: Stage, c: Call): Stage {
    match stage
    case Asking(round, rest, refused) => Ask(b, round, rest, refused, c)
    case RoundOver(rounds, refused) =>
      if !b.block || refused == [] then Astray
      else if c.Reported? then if c.refused == |refused| then GaveUp(rounds, refused) else Astray
      else Ask(b, rounds, refused, [], c)
    case _ => Astray
  }

  function Inputs(n: nat): (all: seq<nat>)
    ensures |all| == n && forall i :: 0 <= i < n ==> all[i] == i
  {
    seq(n, (i: nat) => i)
  }

  function StageOf(b: Batch, log: seq<Call>): Stage {
    if log == [] then Asking(0, Inputs(|b.jobs|), [])
    else Advance(b, StageOf(b, log[..|log| - 1]), log[|log| - 1])
  }

  // ---------------------------------------------------------------- what every such log achieves

  /** The inputs not yet answered. */
  function Outstanding(stage: Stage): seq<nat> {
    match stage
    case Asking(_, rest, refused) => refused + rest
    case RoundOver(_, refused) => refused
    case GaveUp(_, refused) => refused
    case Astray => []
  }

  predicate Ascending(s: seq<nat>) {
    forall i, k :: 0 <= i < k < |s| ==> s[i] < s[k]
  }

  /** The outstanding inputs are those without an answer, in order, and everyone is counted once. */
  ghost predicate AreOutstanding(b: Batch, log: seq<Call>, out: seq<nat>) {
    && Ascending(out) && (forall i: nat :: i in out <==> i < |b.jobs| && Answer(b, log, i).None?)
    && Added(b, log) + Duplicates(b, log) + |out| == |b.jobs|
  }

  ghost predicate Kept(b: Batch, log: seq<Call>) {
    AreOutstanding(b, log, Outstanding(StageOf(b, log)))
  }

  /** What one enqueue does to who is outstanding. */
  lemma AskOutstanding(b: Batch, round: nat, rest: seq<nat>, refused: seq<nat>, c: Call)
    requires Ask(b, round, rest, refused, c) != Astray && Ascending(refused + rest)
    ensures var out := Outstanding(Ask(b, round, rest, refused, c));
            && c.Sent? && c.input in refused + rest && Ascending(out)
            && (if Reply(b, c).Refused? then out == refused + rest
                else |out| == |refused + rest| - 1 && forall i :: i in out <==> i in refused + rest && i != c.input)
  {
    var out := Outstanding(Ask(b, round, rest, refused, c));
    assert rest == [rest[0]] + rest[1..];
    if Reply(b, c).Refused? {
      assert (refused + [rest[0]]) + rest[1..] == refused + rest;
      assert |rest| == 1 ==> rest[1..] == [] && refused + [rest[0]] == refused + rest;
    } else {
      assert |rest| == 1 ==> rest[1..] == [] && refused == refused + rest[1..];
      assert refused + [rest[0]] + rest[1..] == refused + rest;
      Without(refused, rest[0], rest[1..]);
    }
  }

  lemma Without(before: seq<nat>, x: nat, after: seq<nat>)
    requires Ascending(before + [x] + after)
    ensures Ascending(before + after) && forall i :: i in before + after <==> i in before + [x] + after && i != x
  {
    var all := before + [x] + after;
    assert forall k :: 0 <= k < |before| ==> before[k] == all[k];
    assert all[|before|] == x && forall k :: 0 <= k < |after| ==> after[k] == all[|before| + 1 + k];
    forall i ensures i in before + after <==> i in all && i != x {
      if i in all && i != x {
        var k :| 0 <= k < |all| && all[k] == i;
        assert if k < |before| then before[k] == i else after[k - |before| - 1] == i;
      }
    }
  }

  lemma AskKeeps(b: Batch, log: seq<Call>, out: seq<nat>, c: Call, next: seq<nat>)
    requires AreOutstanding(b, log, out) && c.Sent? && c.input in out && Ascending(next)
    requires if Reply(b, c).Refused? then next == out
             else |next| == |out| - 1 && forall i :: i in next <==> i in out && i != c.input
    ensures AreOutstanding(b, log + [c], next)
  {
    assert (log + [c])[..|log|] == log;
  }

  lemma ReportKeeps(b: Batch, log: seq<Call>, out: seq<nat>, c: Call)
    requires AreOutstanding(b, log, out) && c.Reported?
    ensures AreOutstanding(b, log + [c], out)
  {
    assert (log + [c])[..|log|] == log;
  }

  lemma KeptNext(b: Batch, log: seq<Call>, c: Call)
    requires Advance(b, StageOf(b, log), c) != Astray && Kept(b, log)
    ensures AreOutstanding(b, log + [c], Outstanding(Advance(b, StageOf(b, log), c)))
  {
    match StageOf(b, log) {
      case Asking(round, rest, refused) =>
        AskOutstanding(b, round, rest, refused, c);
        AskKeeps(b, log, refused + rest, c, Outstanding(Advance(b, StageOf(b, log), c)));
      case RoundOver(rounds, refused) =>
        if c.Sent? {
          assert [] + refused == refused;
          AskOutstanding(b, rounds, refused, [], c);
          AskKeeps(b, log, refused, c, Outstanding(Advance(b, StageOf(b, log), c)));
        } else {
          ReportKeeps(b, log, refused, c);
        }
    }
  }

  lemma InputsAreBelow(n: nat)
    ensures Ascending(Inputs(n)) && forall i: nat :: i in Inputs(n) <==> i < n
  {
    forall i: nat ensures i in Inputs(n) <==> i < n {
      if i < n {
        assert Inputs(n)[i] == i;
      }
    }
  }

  lemma KeptAtFirst(b: Batch)
    ensures Kept(b, [])
  {
    InputsAreBelow(|b.jobs|);
    assert [] + Inputs(|b.jobs|) == Inputs(|b.jobs|);
  }

  lemma {:induction false} AllKept(b: Batch, log: seq<Call>)
    requires StageOf(b, log) != Astray
    ensures Kept(b, log)
    decreases |log|
  {
    if log == [] {
      KeptAtFirst(b);
    } else {
      AllKept(b, log[..|log| - 1]);
      KeptNext(b, log[..|log| - 1], log[|log| - 1]);
      assert log == log[..|log| - 1] + [log[|log| - 1]];
    }
  }

  /** Whoever has no answer yet is outstanding, and each input was accepted, or a duplicate, or is. */
  lemma EachCountedOnce(b: Batch, log: seq<Call>)
    requires StageOf(b, log) != Astray
    ensures Added(b, log) + Duplicates(b, log) + |Outstanding(StageOf(b, log))| == |b.jobs|
    ensures forall i: nat :: i in Outstanding(StageOf(b, log)) <==> i < |b.jobs| && Answer(b, log, i).None?
  {
    AllKept(b, log);
  }

  lemma {:induction false} NotAstray(b: Batch, log: seq<Call>, n: nat)
    requires StageOf(b, log) != Astray && n <= |log|
    ensures StageOf(b, log[..n]) != Astray
    ensures n < |log| ==> Advance(b, StageOf(b, log[..n]), log[n]) != Astray
    decreases |log|
  {
    if n == |log| {
      assert log[..n] == log;
    } else {
      var init := log[..|log| - 1];
      if n < |init| {
        NotAstray(b, init, n);
        assert log[..n] == init[..n] && log[n] == init[n];
      }
    }
  }

  /** An answer stays. */
  lemma {:induction false} AnswerStays(b: Batch, log: seq<Call>, n: nat, i: nat)
    requires n <= |log| && Answer(b, log[..n], i).Some?
    ensures Answer(b, log, i) == Answer(b, log[..n], i)
    decreases |log|
  {
    if n == |log| {
      assert log[..n] == log;
    } else {
      assert log[..|log| - 1][..n] == log[..n];
      AnswerStays(b, log[..|log| - 1], n, i);
    }
  }

  /** An input is sent only while it has no answer, and always the same, with the same job id. */
  lemma SentUntilAnswered(b: Batch, log: seq<Call>, n: nat)
    requires StageOf(b, log) != Astray && n < |log| && log[n].Sent?
    ensures log[n].input < |b.jobs| && log[n].what == b.jobs[log[n].input] && Answer(b, log[..n], log[n].input).None?
  {
    NotAstray(b, log, n);
    AllKept(b, log[..n]);
    match StageOf(b, log[..n]) {
      case Asking(_, rest, refused) => assert (refused + rest)[|refused|] == log[n].input;
      case RoundOver(_, refused) => assert refused[0] == log[n].input;
    }
  }

  lemma AddedAnswers(b: Batch, log: seq<Call>, n: nat)
    requires StageOf(b, log) != Astray && n < |log| && IsAdded(b, log[n])
    ensures Answer(b, log, log[n].input) == Some(Reply(b, log[n]))
  {
    SentUntilAnswered(b, log, n);
    assert log[..n + 1][..n] == log[..n];
    AnswerStays(b, log, n + 1, log[n].input);
  }

  /** Entry ids only grow from call to call, and an admission uses one up. */
  lemma {:induction false} IdsGrow(b: Batch, quiet: bool, q0: Queue, log: seq<Call>, m: nat, n: nat)
    requires IsTrace(b, quiet, q0, log) && m < n < |log|
    ensures After(b, log[m]).g.nextId <= log[n].at.g.nextId
    decreases n
  {
    assert AfterAll(b, q0, log[..n]) == After(b, log[n - 1]);
    if m + 1 < n {
      IdsGrow(b, quiet, q0, log, m, n - 1);
      NextIdGrows(b, log[n - 1]);
    }
  }

  lemma NextIdGrows(b: Batch, c: Call)
    ensures After(b, c).g.nextId == c.at.g.nextId + if IsAdded(b, c) then 1 else 0
    ensures IsAdded(b, c) ==> After(b, c).g.stream == c.at.g.stream[c.at.g.nextId := c.what.job]
  {
    if c.Sent? {
      match Reply(b, c) { case Added(_, _) => case DuplicateOf(_) => case Refused(_) => }
    }
  }

  /** Input `i` became entry `e` in the `m`-th call, and in no other. */
  ghost predicate AddedAs(b: Batch, log: seq<Call>, i: nat, m: nat, e: EntryId)
    requires i < |b.jobs|
  {
    && m < |log| && IsAdded(b, log[m]) && log[m].input == i && log[m].at.g.nextId == e
    && After(b, log[m]).g.stream == log[m].at.g.stream[e := b.jobs[i].job]
    && forall n :: 0 <= n < |log| && n != m && IsAdded(b, log[n]) ==> log[n].input != i && log[n].at.g.nextId != e
  }

  /** An input that was added kept its job id over all re-sends, and is in exactly one of the entries
      that this batch appended, and alone in it. */
  lemma AddedInOneEntry(b: Batch, quiet: bool, q0: Queue, log: seq<Call>, m: nat)
    requires IsTrace(b, quiet, q0, log) && StageOf(b, log) != Astray && m < |log| && IsAdded(b, log[m])
    ensures log[m].input < |b.jobs| && AddedAs(b, log, log[m].input, m, log[m].at.g.nextId)
    ensures IdOf(Answer(b, log, log[m].input)) == Some(b.jobs[log[m].input].job.id)
  {
    SentUntilAnswered(b, log, m);
    AddedAnswers(b, log, m);
    NextIdGrows(b, log[m]);
    forall n | 0 <= n < |log| && n != m && IsAdded(b, log[n])
      ensures log[n].input != log[m].input && log[n].at.g.nextId != log[m].at.g.nextId
    {
      AddedApart(b, quiet, q0, log, if m < n then m else n, if m < n then n else m);
    }
  }

  lemma AddedApart(b: Batch, quiet: bool, q0: Queue, log: seq<Call>, m: nat, n: nat)
    requires IsTrace(b, quiet, q0, log) && StageOf(b, log) != Astray && m < n < |log| && IsAdded(b, log[m]) && IsAdded(b, log[n])
    ensures log[n].input != log[m].input && log[m].at.g.nextId < log[n].at.g.nextId
  {
    IdsGrow(b, quiet, q0, log, m, n);
    NextIdGrows(b, log[m]);
    SentUntilAnswered(b, log, n);
    NotAstray(b, log, n);
    assert log[..n][m] == log[m];
    AddedAnswers(b, log[..n], m);
  }

  /** Conversely, an input whose answer is an admission was added by one of the calls. */
  lemma {:induction false} AnswerIsFromCall(b: Batch, log: seq<Call>, i: nat) returns (m: nat)
    requires Answer(b, log, i).Some?
    ensures m < |log| && log[m].Sent? && log[m].input == i && Answer(b, log, i) == Some(Reply(b, log[m]))
    decreases |log|
  {
    if Answer(b, log[..|log| - 1], i).Some? {
      m := AnswerIsFromCall(b, log[..|log| - 1], i);
    } else {
      m := |log| - 1;
    }
  }

  lemma {:induction false} AnswerIsNoRefusal(b: Batch, log: seq<Call>, i: nat)
    ensures Answer(b, log, i).Some? ==> !Answer(b, log, i).value.Refused?
    decreases |log|
  {
    if log != [] {
      AnswerIsNoRefusal(b, log[..|log| - 1], i);
    }
  }

  // ---------------------------------------------------------------- what the queue counts

  /** The queue's `rejected` and `blocked` as this batch moved them. */
  function RejectedIn(b: Batch, log: seq<Call>): nat {
    if log == [] then 0
    else
      var c := log[|log| - 1];
      RejectedIn(b, log[..|log| - 1]) + RejectedBy(b, c)
  }

  function RejectedBy(b: Batch, c: Call): nat {
    if c.Reported? then c.refused else if Reply(b, c).Refused? && c.countAs.CountRejected? then 1 else 0
  }

  function BlockedIn(b: Batch, log: seq<Call>): nat {
    Count(log, c => IsBlocked(b, c))
  }

  predicate IsBlocked(b: Batch, c: Call) {
    c.Sent? && Reply(b, c).Refused? && c.countAs.CountBlocked?
  }

  /** Which is what its calls do to them, and to no other counter of the queue. */
  lemma CallCounts(b: Batch, c: Call)
    ensures After(b, c).stats ==
            c.at.stats.(rejected := c.at.stats.rejected + RejectedBy(b, c), blocked := c.at.stats.blocked + if IsBlocked(b, c) then 1 else 0)
  {
    if c.Sent? {
      match Reply(b, c) { case Added(_, _) => case DuplicateOf(_) => case Refused(_) => }
    }
  }

  /** With no other clients, the queue's counters have moved by exactly that when the batch is over. */
  lemma {:induction false} AloneCounts(b: Batch, q0: Queue, log: seq<Call>)
    requires IsTrace(b, true, q0, log)
    ensures AfterAll(b, q0, log).stats ==
            q0.stats.(rejected := q0.stats.rejected + RejectedIn(b, log), blocked := q0.stats.blocked + BlockedIn(b, log))
    decreases |log|
  {
    if log != [] {
      var init := log[..|log| - 1];
      assert forall i :: 0 <= i < |init| ==> init[..i] == log[..i];
      AloneCounts(b, q0, init);
      CallCounts(b, log[|log| - 1]);
    }
  }

  /** In the first round each refusal is counted once, as blocked or as rejected; later ones are not; a
      block that gives up is counted as rejected. */
  ghost predicate Tallied(b: Batch, stage: Stage, rejected: nat, blocked: nat) {
    match stage
    case Asking(round, rest, refused) =>
      && rest != []
      && if round == 0 then rejected + blocked == |refused| && if b.block then rejected == 0 else blocked == 0
         else b.block && rejected == 0
    case RoundOver(rounds, refused) =>
      && 1 <= rounds
      && if rounds == 1 then rejected + blocked == |refused| && if b.block then rejected == 0 else blocked == 0
         else b.block && rejected == 0
    case GaveUp(_, refused) => b.block && rejected == |refused|
    case Astray => true
  }

  lemma {:induction false} LogTallied(b: Batch, log: seq<Call>)
    requires b.jobs != [] && StageOf(b, log) != Astray
    ensures Tallied(b, StageOf(b, log), RejectedIn(b, log), BlockedIn(b, log))
    decreases |log|
  {
    if log != [] {
      var init, c := log[..|log| - 1], log[|log| - 1];
      LogTallied(b, init);
      match StageOf(b, init) {
        case Asking(_, _, _) =>
        case RoundOver(_, _) => if c.Sent? {} else {}
      }
    }
  }

  // ---------------------------------------------------------------- the client

  /** What the other clients make of the queue before this one's `n`-th call. */
  type World = (nat, Queue) -> Queue

  ghost predicate IsWorld(quiet: bool, others: World) {
    forall n: nat, q: Queue {:trigger others(n, q)} :: Gap(quiet, q, others(n, q))
  }

  /** `rng.uniform(0.5, 1.5)`. */
  predicate IsJitter(x: real) {
    0.5 <= x <= 1.5
  }

  function Jittered(poll: real, jitter: real): (pause: real)
    requires 0.0 < poll && IsJitter(jitter)
    ensures poll * 0.5 <= pause <= poll * 1.5
  {
    NoLess(jitter, 1.5, poll);
    poll * jitter
  }

  /** The event loop's clock. A sleep lasts at most `slack` longer than it should; a round trip takes
      any time. */
  class Clock {
    const slack: real
    var now: real

    constructor (t: real, s: real)
      requires 0.0 <= s
      ensures now == t && slack == s
    {
      now, slack := t, s;
    }

    method RoundTrip()
      modifies this
      ensures old(now) <= now
    {
      var latency: real :| 0.0 <= latency;
      now := now + latency;
    }

    method Sleep(time: real)
      requires 0.0 <= time && 0.0 <= slack
      modifies this
      ensures old(now) + time <= now <= old(now) + time + slack
    {
      assert IsLate(0.0, slack);
      var late: real :| IsLate(late, slack);
      assert IsLate(late, slack);
      now := now + time + late;
    }
  }

  predicate IsLate(late: real, slack: real) {
    0.0 <= late <= slack
  }

  /** Every enqueue was sent between two times. */
  predicate SentBetween(log: seq<Call>, from: real, upto: real) {
    forall i :: 0 <= i < |log| && log[i].Sent? ==> from <= log[i].time <= upto
  }

  /** Only the first round counts refusals as blocked. */
  lemma BlockedAfter(b: Batch, was: seq<Call>, now: seq<Call>, round: nat)
    requires |now| == |was| + 1 && was <= now && now[|was|].Sent? && now[|was|].countAs == CountAsIn(b, round) && 0 < round
    ensures BlockedIn(b, now) == BlockedIn(b, was)
  {
    assert now[..|was|] == was;
  }

  lemma TimesAfter(was: seq<Call>, now: seq<Call>, from: real, upto: real)
    requires SentBetween(was, from, upto) && |now| == |was| + 1 && was <= now && from <= upto
    requires now[|was|].Sent? ==> now[|was|].time == upto
    ensures SentBetween(now, from, upto)
  {
    assert forall i :: 0 <= i < |was| ==> now[i] == was[i];
  }

  /** A batch that is going on: its log so far, and where it stands. */
  ghost predicate Ongoing(b: Batch, quiet: bool, q0: Queue, log: seq<Call>, q: Queue, stage: Stage) {
    IsTrace(b, quiet, q0, log) && q == AfterAll(b, q0, log) && StageOf(b, log) == stage
  }

  lemma OngoingNext(b: Batch, quiet: bool, q0: Queue, log: seq<Call>, q: Queue, stage: Stage, c: Call)
    requires Ongoing(b, quiet, q0, log, q, stage) && Gap(quiet, q, c.at)
    ensures Ongoing(b, quiet, q0, log + [c], After(b, c), Advance(b, stage, c))
  {
    var all := log + [c];
    assert all[..|log|] == log;
    forall i | 0 <= i < |all| ensures Gap(quiet, AfterAll(b, q0, all[..i]), all[i].at) {
      assert i < |log| ==> all[..i] == log[..i];
    }
  }

  /** `accepted`, as far as the replies go. */
  ghost predicate AcceptedSoFar(b: Batch, log: seq<Call>, accepted: seq<Option<JobId>>) {
    |accepted| == |b.jobs| && forall i :: 0 <= i < |b.jobs| ==> accepted[i] == IdOf(Answer(b, log, i))
  }

  /** The client's counters, as far as the replies go. */
  ghost predicate CountedSoFar(b: Batch, log: seq<Call>, c0: Counters, c: Counters) {
    c == c0.(accepted := c0.accepted + Added(b, log), duplicates := c0.duplicates + Duplicates(b, log))
  }

  /** All but `rejected` and `blockedSeconds`, which only the end of a batch moves. */
  function Counted(b: Batch, log: seq<Call>, c0: Counters): Counters {
    c0.(accepted := c0.accepted + Added(b, log), duplicates := c0.duplicates + Duplicates(b, log), blocked := c0.blocked + BlockedIn(b, log))
  }

  function CountReply(c: Counters, reply: Admission): Counters {
    match reply
    case Refused(_) => c
    case Added(_, _) => c.(accepted := c.accepted + 1)
    case DuplicateOf(_) => c.(duplicates := c.duplicates + 1)
  }

  /** The depth that the last refusal reported. */
  function LastDepth(b: Batch, log: seq<Call>): nat {
    if log == [] then 0
    else
      var c := log[|log| - 1];
      if c.Sent? && Reply(b, c).Refused? then Reply(b, c).depth else LastDepth(b, log[..|log| - 1])
  }

  lemma ReplyCounted(b: Batch, log: seq<Call>, c: Call, c0: Counters, now: Counters)
    requires c.Sent? && CountedSoFar(b, log, c0, now)
    ensures CountedSoFar(b, log + [c], c0, CountReply(now, Reply(b, c)))
  {
    assert (log + [c])[..|log|] == log;
    match Reply(b, c) { case Added(_, _) => case DuplicateOf(_) => case Refused(_) => }
  }

  lemma ReplyAccepted(b: Batch, log: seq<Call>, c: Call, accepted: seq<Option<JobId>>)
    requires c.Sent? && c.input < |b.jobs| && Answer(b, log, c.input).None? && AcceptedSoFar(b, log, accepted)
    ensures AcceptedSoFar(b, log + [c], if Reply(b, c).Refused? then accepted else accepted[c.input := Some(Reply(b, c).id)])
  {
    assert (log + [c])[..|log|] == log;
  }

  /** The ids of the inputs that have one, in order. */
  function Present(accepted: seq<Option<JobId>>): seq<JobId> {
    if accepted == [] then []
    else Present(accepted[..|accepted| - 1]) + if accepted[|accepted| - 1].Some? then [accepted[|accepted| - 1].value] else []
  }

  lemma {:induction false} AllPresent(accepted: seq<Option<JobId>>)
    requires forall i :: 0 <= i < |accepted| ==> accepted[i].Some?
    ensures |Present(accepted)| == |accepted| && forall i :: 0 <= i < |accepted| ==> accepted[i] == Some(Present(accepted)[i])
    decreases |accepted|
  {
    if accepted != [] {
      AllPresent(accepted[..|accepted| - 1]);
    }
  }

  /** What the caller gets: all the ids, in order, or who was refused last, and the depth that the last
      refusal gave. */
  ghost predicate Concluded(b: Batch, log: seq<Call>, rounds: nat, result: Result) {
    var left := Outstanding(StageOf(b, log));
    match result
    case AllIn(ids) =>
      && StageOf(b, log) == RoundOver(rounds, []) && |ids| == |b.jobs|
      && forall i :: 0 <= i < |ids| ==> IdOf(Answer(b, log, i)) == Some(ids[i])
    case QueueFull(depth, accepted) =>
      && left != [] && StageOf(b, log) == (if b.block then GaveUp(rounds, left) else RoundOver(rounds, left))
      && AcceptedSoFar(b, log, accepted) && depth == LastDepth(b, log)
  }

  /** Every input of a batch that is over was accepted, a duplicate, or counted as rejected, once. */
  lemma EachEndsOnce(b: Batch, log: seq<Call>, rounds: nat, result: Result)
    requires b.jobs != [] && Concluded(b, log, rounds, result)
    ensures Added(b, log) + Duplicates(b, log) + RejectedIn(b, log) == |b.jobs|
    ensures result.AllIn? ==> RejectedIn(b, log) == 0
  {
    EachCountedOnce(b, log);
    LogTallied(b, log);
  }

  /** The time that the client counts as blocked, of a batch begun at `started`. */
  function TimeBlocked(log: seq<Call>, rounds: nat, started: real, now: real): real {
    if log != [] && log[|log| - 1].Reported? then log[|log| - 1].time - started else if rounds > 1 then now - started else 0.0
  }

  /** All the client's counters after a batch: what the replies and the queue's own counters say. */
  function AllCounted(b: Batch, log: seq<Call>, c0: Counters, blockedFor: real): Counters {
    Counted(b, log, c0).(rejected := c0.rejected + RejectedIn(b, log), blockedSeconds := c0.blockedSeconds + blockedFor)
  }

  /** A report changes no answer. */
  lemma ReportAnswersNobody(b: Batch, was: seq<Call>, log: seq<Call>, c0: Counters, accepted: seq<Option<JobId>>)
    requires |log| == |was| + 1 && was <= log && log[|was|].Reported? && AcceptedSoFar(b, was, accepted)
    ensures AcceptedSoFar(b, log, accepted) && LastDepth(b, log) == LastDepth(b, was) && Counted(b, log, c0) == Counted(b, was, c0)
  {
    assert log[..|was|] == was;
  }

  class Client {
    const timeout: real
    const poll: real
    const others: World
    var counters: Counters
    var calls: nat
    /** Written by the two calls alone, each with the queue as it was when Redis ran it. */
    ghost var log: seq<Call>

    ghost predicate Valid() {
      0.0 <= timeout && 0.0 < poll
    }

    constructor (blockTimeout: real, interval: real, world: World)
      requires 0.0 <= blockTimeout && 0.0 < interval
      ensures Valid() && timeout == blockTimeout && poll == interval && others == world
      ensures counters == Counters(0, 0, 0, 0, 0.0) && log == []
    {
      timeout, poll, others, counters, calls, log := blockTimeout, interval, world, Counters(0, 0, 0, 0, 0.0), 0, [];
    }

    method OthersTurn(store: RedisQueue.Store, ghost quiet: bool)
      requires IsWorld(quiet, others)
      modifies this`calls, store
      ensures Gap(quiet, old(store.View()), store.View())
    {
      var q := Queue(store.g, store.delayed, store.v, store.ledger, store.door, store.stats, store.reclaims);
      var r := others(calls, q);
      calls := calls + 1;
      store.g, store.delayed, store.v, store.ledger, store.door, store.stats, store.reclaims :=
        r.g, r.delayed, r.v, r.ledger, r.door, r.stats, r.reclaims;
    }

    /** The enqueue script. */
    method Send(store: RedisQueue.Store, clock: Clock, b: Batch, input: nat, countAs: CountAs, ghost quiet: bool) returns (reply: Admission)
      requires input < |b.jobs| && IsWorld(quiet, others)
      modifies this`calls, this`log, store
      ensures |log| == |old(log)| + 1 && old(log) <= log
      ensures var c := log[|old(log)|];
              && c == Sent(input, b.jobs[input], countAs, c.at, clock.now) && Gap(quiet, old(store.View()), c.at)
              && reply == Reply(b, c) && store.View() == After(b, c)
    {
      OthersTurn(store, quiet);
      ghost var c := Sent(input, b.jobs[input], countAs, store.View(), clock.now);
      reply := store.Enqueue(b.s, b.jobs[input].job, b.jobs[input].key, countAs);
      log := log + [c];
    }

    /** HINCRBY of the queue's `rejected`. */
    method Report(store: RedisQueue.Store, clock: Clock, refused: nat, ghost b: Batch, ghost quiet: bool)
      requires IsWorld(quiet, others)
      modifies this`calls, this`log, store
      ensures |log| == |old(log)| + 1 && old(log) <= log
      ensures var c := log[|old(log)|];
              && c == Reported(refused, c.at, clock.now) && Gap(quiet, old(store.View()), c.at)
              && store.View() == After(b, c)
    {
      OthersTurn(store, quiet);
      ghost var c := Reported(refused, store.View(), clock.now);
      store.stats := store.stats.(rejected := store.stats.rejected + refused);
      log := log + [c];
    }

    /** Ready to send `rest`, in round `round`, with `refused` refused so far in it. */
    ghost predicate IsReady(b: Batch, stage: Stage, round: nat, rest: seq<nat>, refused: seq<nat>) {
      && rest != []
      && (stage == Asking(round, rest, refused) || (stage == RoundOver(round, rest) && refused == [] && b.block))
    }

    /** Where the batch stands after an input was sent. */
    function StageAfter(round: nat, rest: seq<nat>, out: seq<nat>): Stage
      requires rest != []
    {
      if |rest| == 1 then RoundOver(round + 1, out) else Asking(round, rest[1..], out)
    }

    function OutAfter(b: Batch, refused: seq<nat>, c: Call): seq<nat>
      requires c.Sent?
    {
      if Reply(b, c).Refused? then refused + [c.input] else refused
    }

    /** The input that is sent next has no answer yet. */
    lemma NextIsOutstanding(b: Batch, log: seq<Call>, stage: Stage, round: nat, rest: seq<nat>, refused: seq<nat>)
      requires StageOf(b, log) == stage && IsReady(b, stage, round, rest, refused)
      ensures rest[0] < |b.jobs| && Answer(b, log, rest[0]).None?
    {
      AllKept(b, log);
      assert rest[0] in Outstanding(stage) by {
        if stage.Asking? {
          assert (refused + rest)[|refused|] == rest[0];
        }
      }
    }

    lemma NextStage(b: Batch, stage: Stage, round: nat, rest: seq<nat>, refused: seq<nat>, c: Call)
      requires IsReady(b, stage, round, rest, refused) && c.Sent? && c.input == rest[0] < |b.jobs|
      requires c.what == b.jobs[c.input] && c.countAs == CountAsIn(b, round)
      ensures Advance(b, stage, c) == StageAfter(round, rest, OutAfter(b, refused, c))
    {
    }

    /** One input of a round is sent, and its reply read. */
    method AskNext(store: RedisQueue.Store, clock: Clock, b: Batch, round: nat, input: nat, ghost rest: seq<nat>, refused: seq<nat>,
                   before: seq<Option<JobId>>, countAs: CountAs,
                   ghost stage: Stage, ghost quiet: bool, ghost q0: Queue, ghost c0: Counters)
      returns (reply: Admission, out: seq<nat>, accepted: seq<Option<JobId>>)
      requires IsWorld(quiet, others) && IsReady(b, stage, round, rest, refused) && input == rest[0] && countAs == CountAsIn(b, round)
      requires Ongoing(b, quiet, q0, log, store.View(), stage) && AcceptedSoFar(b, log, before) && CountedSoFar(b, log, c0, counters)
      modifies this`calls, this`log, this`counters, store
      ensures |log| == |old(log)| + 1 && old(log) <= log
      ensures var c := log[|old(log)|];
              && c.Sent? && c.time == clock.now && c.countAs == countAs
              && reply == Reply(b, c) && out == OutAfter(b, refused, c)
      ensures Ongoing(b, quiet, q0, log, store.View(), StageAfter(round, rest, out))
      ensures AcceptedSoFar(b, log, accepted) && CountedSoFar(b, log, c0, counters)
    {
      ghost var was, q := log, store.View();
      NextIsOutstanding(b, was, stage, round, rest, refused);
      reply := Send(store, clock, b, input, countAs, quiet);
      ghost var c := log[|was|];
      assert log == was + [c];
      NextStage(b, stage, round, rest, refused, c);
      OngoingNext(b, quiet, q0, was, q, stage, c);
      ReplyCounted(b, was, c, c0, counters);
      ReplyAccepted(b, was, c, before);
      counters := CountReply(counters, reply);
      out := if reply.Refused? then refused + [input] else refused;
      accepted := if reply.Refused? then before else before[input := Some(reply.id)];
    }

    /** One turn of a round's loop. */
    method Turn(store: RedisQueue.Store, clock: Clock, b: Batch, round: nat, input: nat, ghost rest: seq<nat>, refused: seq<nat>,
                before: seq<Option<JobId>>, was: nat,
                ghost stage: Stage, ghost quiet: bool, ghost q0: Queue, ghost c0: Counters, ghost from: real)
      returns (out: seq<nat>, accepted: seq<Option<JobId>>, depth: nat)
      requires IsWorld(quiet, others) && IsReady(b, stage, round, rest, refused) && input == rest[0]
      requires Ongoing(b, quiet, q0, log, store.View(), stage) && AcceptedSoFar(b, log, before) && CountedSoFar(b, log, c0, counters)
      requires SentBetween(log, from, clock.now) && from <= clock.now
      requires refused != [] ==> was == LastDepth(b, log)
      modifies this`calls, this`log, this`counters, store
      ensures Ongoing(b, quiet, q0, log, store.View(), StageAfter(round, rest, out))
      ensures AcceptedSoFar(b, log, accepted) && CountedSoFar(b, log, c0, counters) && SentBetween(log, from, clock.now)
      ensures out != [] ==> depth == LastDepth(b, log)
      ensures 0 < round ==> BlockedIn(b, log) == BlockedIn(b, old(log))
    {
      ghost var calls := log;
      var reply;
      reply, out, accepted := AskNext(store, clock, b, round, input, rest, refused, before, CountAsIn(b, round), stage, quiet, q0, c0);
      DepthAfter(b, calls, log);
      TimesAfter(calls, log, from, clock.now);
      if 0 < round {
        BlockedAfter(b, calls, log, round);
      }
      depth := if reply.Refused? then reply.depth else was;
    }

    lemma ReadyNext(b: Batch, round: nat, pending: seq<nat>, i: nat, refused: seq<nat>)
      requires i < |pending|
      ensures var here := StageAfter(round, pending[i..], refused);
              if i + 1 < |pending| then IsReady(b, here, round, pending[i + 1..], refused) else here == RoundOver(round + 1, refused)
    {
      assert pending[i..][1..] == pending[i + 1..];
    }

    /** One round: everything outstanding is sent, and its replies read, in order. */
    method Round(store: RedisQueue.Store, clock: Clock, b: Batch, round: nat, pending: seq<nat>, before: seq<Option<JobId>>,
                 ghost stage: Stage, ghost quiet: bool, ghost q0: Queue, ghost c0: Counters, ghost from: real)
      returns (refused: seq<nat>, accepted: seq<Option<JobId>>, depth: nat)
      requires IsWorld(quiet, others) && IsReady(b, stage, round, pending, []) && from <= clock.now
      requires Ongoing(b, quiet, q0, log, store.View(), stage) && AcceptedSoFar(b, log, before) && CountedSoFar(b, log, c0, counters)
      requires SentBetween(log, from, clock.now)
      modifies this`calls, this`log, this`counters, store
      ensures Ongoing(b, quiet, q0, log, store.View(), RoundOver(round + 1, refused))
      ensures AcceptedSoFar(b, log, accepted) && CountedSoFar(b, log, c0, counters) && SentBetween(log, from, clock.now)
      ensures refused != [] ==> depth == LastDepth(b, log)
      ensures 0 < round ==> BlockedIn(b, log) == BlockedIn(b, old(log))
    {
      refused, accepted, depth := [], before, 0;
      var i := 0;
      ghost var here := stage;
      assert pending[0..] == pending;
      while i < |pending|
        invariant i <= |pending| && Ongoing(b, quiet, q0, log, store.View(), here)
        invariant if i < |pending| then IsReady(b, here, round, pending[i..], refused) else here == RoundOver(round + 1, refused)
        invariant AcceptedSoFar(b, log, accepted) && CountedSoFar(b, log, c0, counters) && SentBetween(log, from, clock.now)
        invariant refused != [] ==> depth == LastDepth(b, log)
        invariant 0 < round ==> BlockedIn(b, log) == BlockedIn(b, old(log))
      {
        refused, accepted, depth := Turn(store, clock, b, round, pending[i], pending[i..], refused, accepted, depth, here, quiet, q0, c0, from);
        here := StageAfter(round, pending[i..], refused);
        ReadyNext(b, round, pending, i, refused);
        i := i + 1;
      }
    }

    lemma DepthAfter(b: Batch, was: seq<Call>, now: seq<Call>)
      requires |now| == |was| + 1 && was <= now && now[|was|].Sent?
      ensures var reply := Reply(b, now[|was|]); LastDepth(b, now) == if reply.Refused? then reply.depth else LastDepth(b, was)
    {
      assert now[..|was|] == was;
    }

    /** The jittered sleep, never meant to last past the deadline. */
    method Pause(clock: Clock, deadline: real, ghost since: real, ghost steps: nat)
      requires Valid() && 0.0 <= clock.slack && since <= clock.now < deadline && Within(deadline - since, steps, poll * 0.5)
      modifies clock
      ensures old(clock.now) <= clock.now <= deadline + clock.slack
      ensures old(clock.now) + poll * 0.5 <= clock.now || deadline <= clock.now
      ensures clock.now <= old(clock.now) + poll * 1.5 + clock.slack
      ensures 1 <= steps && Within(deadline - clock.now, steps - 1, poll * 0.5)
    {
      LessTime(deadline - since, deadline - clock.now, steps, poll * 0.5);
      assert IsJitter(1.0);
      var jitter: real :| IsJitter(jitter);
      var pause, left := Jittered(poll, jitter), deadline - clock.now;
      clock.Sleep(if pause < left then pause else left);
      if pause < left {
        LessTime(left - poll * 0.5, deadline - clock.now, steps - 1, poll * 0.5);
      }
    }

    /** A block's rounds are at least half a poll interval apart, but for the last. */
    function MostRounds(): nat
      requires Valid()
    {
      2 + (timeout / (poll * 0.5)).Floor
    }

    /** A round and its round trip; after the first, block mode notes who has to wait. */
    method OneRound(store: RedisQueue.Store, clock: Clock, b: Batch, round: nat, pending: seq<nat>, before: seq<Option<JobId>>,
                    ghost stage: Stage, ghost quiet: bool, ghost q0: Queue, ghost c0: Counters, ghost from: real)
      returns (refused: seq<nat>, accepted: seq<Option<JobId>>, depth: nat)
      requires IsWorld(quiet, others) && IsReady(b, stage, round, pending, []) && from <= clock.now && b.jobs != []
      requires Ongoing(b, quiet, q0, log, store.View(), stage) && AcceptedSoFar(b, log, before)
      requires counters == Counted(b, log, c0) && (round == 0 ==> log == [])
      requires SentBetween(log, from, clock.now)
      modifies this`calls, this`log, this`counters, store, clock
      ensures Ongoing(b, quiet, q0, log, store.View(), RoundOver(round + 1, refused)) && AcceptedSoFar(b, log, accepted)
      ensures counters == Counted(b, log, c0)
      ensures SentBetween(log, from, old(clock.now)) && old(clock.now) <= clock.now
      ensures refused != [] ==> depth == LastDepth(b, log)
    {
      ghost var was := BlockedIn(b, log);
      refused, accepted, depth := Round(store, clock, b, round, pending, before, stage, quiet, q0, c0.(blocked := c0.blocked + was), from);
      clock.RoundTrip();
      CountWaiting(b, log, round, refused, was, c0, counters);
      if round == 0 && b.block {
        counters := counters.(blocked := counters.blocked + |refused|);
      }
    }

    /** After the first round of a block, those refused are counted as blocked, as the script counted them. */
    lemma CountWaiting(b: Batch, log: seq<Call>, round: nat, refused: seq<nat>, was: nat, c0: Counters, now: Counters)
      requires b.jobs != [] && StageOf(b, log) == RoundOver(round + 1, refused) && was == if round == 0 then 0 else BlockedIn(b, log)
      requires CountedSoFar(b, log, c0.(blocked := c0.blocked + was), now)
      ensures (if round == 0 && b.block then now.(blocked := now.blocked + |refused|) else now) == Counted(b, log, c0)
    {
      LogTallied(b, log);
    }

    /** When the loop ends. */
    predicate Settled(b: Batch, refused: seq<nat>, now: real, deadline: real) {
      refused == [] || !b.block || deadline <= now
    }

    /** After a round: done, or sleep and go on. */
    method Wait(clock: Clock, b: Batch, refused: seq<nat>, deadline: real, ghost since: real, ghost steps: nat) returns (settled: bool)
      requires Valid() && 0.0 <= clock.slack && since <= clock.now && Within(deadline - since, steps, poll * 0.5)
      modifies clock
      ensures old(clock.now) <= clock.now && settled == Settled(b, refused, old(clock.now), deadline)
      ensures settled ==> Settled(b, refused, clock.now, deadline)
      ensures !settled ==> clock.now <= deadline + clock.slack && 1 <= steps && Within(deadline - clock.now, steps - 1, poll * 0.5)
    {
      settled := refused == [] || !b.block || clock.now >= deadline;
      if !settled {
        Pause(clock, deadline, since, steps);
      }
    }

    /** One turn of the loop. */
    method RoundAndWait(store: RedisQueue.Store, clock: Clock, b: Batch, round: nat, pending: seq<nat>, before: seq<Option<JobId>>,
                        deadline: real, ghost steps: nat,
                        ghost stage: Stage, ghost quiet: bool, ghost q0: Queue, ghost c0: Counters, ghost from: real)
      returns (settled: bool, refused: seq<nat>, accepted: seq<Option<JobId>>, depth: nat)
      requires Valid() && 0.0 <= clock.slack && Within(deadline - clock.now, steps, poll * 0.5)
      requires IsWorld(quiet, others) && IsReady(b, stage, round, pending, []) && from <= clock.now && b.jobs != []
      requires Ongoing(b, quiet, q0, log, store.View(), stage) && AcceptedSoFar(b, log, before)
      requires counters == Counted(b, log, c0) && (round == 0 ==> log == [])
      requires SentBetween(log, from, clock.now)
      modifies this`calls, this`log, this`counters, store, clock
      ensures Ongoing(b, quiet, q0, log, store.View(), RoundOver(round + 1, refused)) && AcceptedSoFar(b, log, accepted)
      ensures counters == Counted(b, log, c0)
      ensures SentBetween(log, from, old(clock.now)) && old(clock.now) <= clock.now
      ensures refused != [] ==> depth == LastDepth(b, log)
      ensures settled ==> Settled(b, refused, clock.now, deadline)
      ensures !settled ==> refused != [] && b.block && clock.now <= deadline + clock.slack
      ensures !settled ==> 1 <= steps && Within(deadline - clock.now, steps - 1, poll * 0.5)
    {
      ghost var since := clock.now;
      refused, accepted, depth := OneRound(store, clock, b, round, pending, before, stage, quiet, q0, c0, from);
      ghost var q := store.View();
      settled := Wait(clock, b, refused, deadline, since, steps);
      assert store.View() == q;
    }

    method NobodyAnswered(b: Batch) returns (accepted: seq<Option<JobId>>)
      ensures AcceptedSoFar(b, [], accepted)
    {
      accepted := seq(|b.jobs|, i => None);
    }

    /** The loop: ask, and ask again for whatever was refused, until nothing is left or time is up. */
    method AskUntilSettled(store: RedisQueue.Store, clock: Clock, b: Batch, ghost quiet: bool, ghost q0: Queue, ghost c0: Counters)
      returns (rounds: nat, refused: seq<nat>, accepted: seq<Option<JobId>>, depth: nat)
      requires Valid() && IsWorld(quiet, others) && 0.0 <= clock.slack && b.jobs != []
      requires log == [] && q0 == store.View() && counters == c0
      modifies this`calls, this`log, this`counters, store, clock
      ensures Ongoing(b, quiet, q0, log, store.View(), RoundOver(rounds, refused)) && AcceptedSoFar(b, log, accepted)
      ensures counters == Counted(b, log, c0)
      ensures 1 <= rounds <= MostRounds() && (!b.block ==> rounds == 1) && old(clock.now) <= clock.now
      ensures refused != [] && b.block ==> old(clock.now) + timeout <= clock.now
      ensures SentBetween(log, old(clock.now), old(clock.now) + timeout + clock.slack)
      ensures refused != [] ==> depth == LastDepth(b, log)
    {
      var deadline := clock.now + timeout;
      ghost var from, sent := clock.now, clock.now;
      ghost var steps := StepsFor(timeout, poll * 0.5);
      ghost var stage := Asking(0, Inputs(|b.jobs|), []);
      rounds, refused, depth := 0, Inputs(|b.jobs|), 0;
      accepted := NobodyAnswered(b);
      var settled := false;
      while !settled
        invariant Ongoing(b, quiet, q0, log, store.View(), stage) && AcceptedSoFar(b, log, accepted)
        invariant counters == Counted(b, log, c0)
        invariant if rounds == 0 then log == [] && stage == Asking(0, refused, []) && !settled else stage == RoundOver(rounds, refused)
        invariant SentBetween(log, from, sent) && from <= sent <= clock.now && sent <= deadline + clock.slack
        invariant if settled then Settled(b, refused, clock.now, deadline) && rounds <= MostRounds()
                  else refused != [] && clock.now <= deadline + clock.slack && rounds + steps + 1 == MostRounds()
                       && Within(deadline - clock.now, steps, poll * 0.5)
        invariant rounds <= 1 || b.block
        invariant 0 < rounds && !settled ==> b.block
        invariant 0 < rounds && refused != [] ==> depth == LastDepth(b, log)
        decreases !settled, steps
      {
        sent := clock.now;
        settled, refused, accepted, depth := RoundAndWait(store, clock, b, rounds, refused, accepted, deadline, steps, stage, quiet, q0, c0, from);
        rounds := rounds + 1;
        stage := RoundOver(rounds, refused);
        steps := if settled then steps else steps - 1;
      }
      SentWithin(log, from, sent, deadline + clock.slack);
    }

    ghost predicate OnlyReports(was: seq<Call>, now: seq<Call>) {
      was <= now && forall i :: |was| <= i < |now| ==> now[i].Reported?
    }

    lemma SentUpTo(was: seq<Call>, now: seq<Call>, from: real, upto: real)
      requires SentBetween(was, from, upto) && OnlyReports(was, now)
      ensures SentBetween(now, from, upto)
    {
      assert forall i :: 0 <= i < |was| ==> now[i] == was[i];
    }

    /** What giving up leaves behind. */
    ghost predicate GivenUp(b: Batch, was: seq<Call>, calls: seq<Call>, rounds: nat, refused: seq<nat>,
                            c0: Counters, c1: Counters, time: real)
    {
      && StageOf(b, calls) == (if b.block then GaveUp(rounds, refused) else RoundOver(rounds, refused))
      && c1 == AllCounted(b, calls, c0, if b.block then time else 0.0)
      && LastDepth(b, calls) == LastDepth(b, was)
    }

    lemma BlockGivenUp(b: Batch, was: seq<Call>, calls: seq<Call>, rounds: nat, refused: seq<nat>, accepted: seq<Option<JobId>>,
                       c0: Counters, time: real)
      requires b.jobs != [] && b.block && refused != [] && StageOf(b, was) == RoundOver(rounds, refused) && AcceptedSoFar(b, was, accepted)
      requires |calls| == |was| + 1 && was <= calls && calls[|was|].Reported? && calls[|was|].refused == |refused|
      ensures AcceptedSoFar(b, calls, accepted) && OnlyReports(was, calls)
      ensures var c1 := Counted(b, was, c0);
              GivenUp(b, was, calls, rounds, refused, c0,
                      c1.(rejected := c1.rejected + |refused|, blockedSeconds := c1.blockedSeconds + time), time)
    {
      ReportAnswersNobody(b, was, calls, c0, accepted);
      assert calls[..|was|] == was;
      LogTallied(b, calls);
    }

    lemma RejectGivenUp(b: Batch, calls: seq<Call>, rounds: nat, refused: seq<nat>, c0: Counters)
      requires b.jobs != [] && !b.block && rounds == 1 && StageOf(b, calls) == RoundOver(rounds, refused)
      ensures var c1 := Counted(b, calls, c0); GivenUp(b, calls, calls, rounds, refused, c0, c1.(rejected := c1.rejected + |refused|), 0.0)
      ensures calls != [] && calls[|calls| - 1].Sent?
    {
      LogTallied(b, calls);
    }

    /** The count of a block that gave up, in the queue. */
    method ReportBlock(store: RedisQueue.Store, clock: Clock, b: Batch, rounds: nat, ghost refused: seq<nat>, many: nat,
                       ghost quiet: bool, ghost q0: Queue)
      requires IsWorld(quiet, others) && b.jobs != [] && b.block && refused != [] && many == |refused|
      requires Ongoing(b, quiet, q0, log, store.View(), RoundOver(rounds, refused))
      modifies this`calls, this`log, store, clock
      ensures Ongoing(b, quiet, q0, log, store.View(), GaveUp(rounds, refused)) && old(clock.now) <= clock.now
      ensures |log| == |old(log)| + 1 && old(log) <= log
      ensures var c := log[|old(log)|]; c.Reported? && c.refused == many && c.time == old(clock.now)
    {
      ghost var was, q := log, store.View();
      Report(store, clock, many, b, quiet);
      clock.RoundTrip();
      assert log == was + [log[|was|]];
      OngoingNext(b, quiet, q0, was, q, RoundOver(rounds, refused), log[|was|]);
    }

    /** QueueFull: those refused are counted, by the client and, for a block, in the queue. */
    method GiveUp(store: RedisQueue.Store, clock: Clock, b: Batch, rounds: nat, refused: seq<nat>,
                  accepted: seq<Option<JobId>>, started: real, ghost quiet: bool, ghost q0: Queue, ghost c0: Counters)
      requires IsWorld(quiet, others) && b.jobs != [] && refused != [] && (!b.block ==> rounds == 1)
      requires Ongoing(b, quiet, q0, log, store.View(), RoundOver(rounds, refused)) && AcceptedSoFar(b, log, accepted)
      requires counters == Counted(b, log, c0)
      modifies this`calls, this`log, this`counters, store, clock
      ensures IsTrace(b, quiet, q0, log) && store.View() == AfterAll(b, q0, log) && AcceptedSoFar(b, log, accepted)
      ensures GivenUp(b, old(log), log, rounds, refused, c0, counters, old(clock.now) - started)
      ensures OnlyReports(old(log), log) && log != [] && old(clock.now) <= clock.now
      ensures if b.block then log[|log| - 1].Reported? && log[|log| - 1].time == old(clock.now) else log[|log| - 1].Sent?
    {
      ghost var was := log;
      counters := counters.(rejected := counters.rejected + |refused|);
      if b.block {
        counters := counters.(blockedSeconds := counters.blockedSeconds + (clock.now - started));
        ghost var time := clock.now - started;
        ReportBlock(store, clock, b, rounds, refused, |refused|, quiet, q0);
        BlockGivenUp(b, was, log, rounds, refused, accepted, c0, time);
      } else {
        RejectGivenUp(b, log, rounds, refused, c0);
      }
    }

    lemma FullConcluded(b: Batch, was: seq<Call>, calls: seq<Call>, rounds: nat, refused: seq<nat>, accepted: seq<Option<JobId>>, depth: nat,
                        c0: Counters, c1: Counters, started: real, at: real, now: real)
      requires GivenUp(b, was, calls, rounds, refused, c0, c1, at - started) && AcceptedSoFar(b, calls, accepted) && depth == LastDepth(b, was)
      requires refused != [] && calls != [] && (!b.block ==> rounds == 1)
      requires if b.block then calls[|calls| - 1].Reported? && calls[|calls| - 1].time == at else calls[|calls| - 1].Sent?
      ensures Concluded(b, calls, rounds, QueueFull(depth, accepted))
      ensures c1 == AllCounted(b, calls, c0, TimeBlocked(calls, rounds, started, now))
    {
    }

    lemma SentWithin(calls: seq<Call>, from: real, since: real, upto: real)
      requires SentBetween(calls, from, since) && since <= upto
      ensures SentBetween(calls, from, upto)
    {
    }

    /** Everything is in. */
    method Conclude(store: RedisQueue.Store, clock: Clock, b: Batch, rounds: nat, accepted: seq<Option<JobId>>, started: real,
                    ghost quiet: bool, ghost q0: Queue, ghost c0: Counters)
      returns (result: Result)
      requires b.jobs != [] && (!b.block ==> rounds == 1)
      requires Ongoing(b, quiet, q0, log, store.View(), RoundOver(rounds, [])) && AcceptedSoFar(b, log, accepted)
      requires counters == Counted(b, log, c0)
      modifies this`counters
      ensures IsTrace(b, quiet, q0, log) && store.View() == AfterAll(b, q0, log) && OnlyReports(old(log), log)
      ensures result.AllIn? && Concluded(b, log, rounds, result)
      ensures counters == AllCounted(b, log, c0, TimeBlocked(log, rounds, started, clock.now))
    {
      LogTallied(b, log);
      NobodyLeft(b, log, rounds, accepted);
      AllPresent(accepted);
      if rounds > 1 {
        counters := counters.(blockedSeconds := counters.blockedSeconds + (clock.now - started));
      }
      result := AllIn(Present(accepted));
    }

    lemma NobodyLeft(b: Batch, calls: seq<Call>, rounds: nat, accepted: seq<Option<JobId>>)
      requires StageOf(b, calls) == RoundOver(rounds, []) && AcceptedSoFar(b, calls, accepted)
      ensures forall i :: 0 <= i < |accepted| ==> accepted[i].Some?
      ensures calls != [] && calls[|calls| - 1].Sent?
    {
      AllKept(b, calls);
      forall i | 0 <= i < |accepted| ensures accepted[i].Some? {
        AnswerIsNoRefusal(b, calls, i);
      }
    }

    /** Counted, and raised. */
    method RaiseQueueFull(store: RedisQueue.Store, clock: Clock, b: Batch, rounds: nat, refused: seq<nat>, accepted: seq<Option<JobId>>, depth: nat,
                          started: real, ghost quiet: bool, ghost q0: Queue, ghost c0: Counters)
      returns (result: Result)
      requires IsWorld(quiet, others) && b.jobs != [] && refused != [] && (!b.block ==> rounds == 1)
      requires Ongoing(b, quiet, q0, log, store.View(), RoundOver(rounds, refused)) && AcceptedSoFar(b, log, accepted)
      requires counters == Counted(b, log, c0) && depth == LastDepth(b, log)
      modifies this`calls, this`log, this`counters, store, clock
      ensures IsTrace(b, quiet, q0, log) && store.View() == AfterAll(b, q0, log) && OnlyReports(old(log), log)
      ensures result.QueueFull? && Concluded(b, log, rounds, result) && old(clock.now) <= clock.now
      ensures counters == AllCounted(b, log, c0, TimeBlocked(log, rounds, started, clock.now))
      ensures b.block ==> log != [] && log[|log| - 1].Reported? && log[|log| - 1].time == old(clock.now)
    {
      ghost var was, at := log, clock.now;
      GiveUp(store, clock, b, rounds, refused, accepted, started, quiet, q0, c0);
      result := QueueFull(depth, accepted);
      FullConcluded(b, was, log, rounds, refused, accepted, depth, c0, counters, started, at, clock.now);
    }

    /** After the loop: give up, or conclude. */
    method Finish(store: RedisQueue.Store, clock: Clock, b: Batch, rounds: nat, refused: seq<nat>, accepted: seq<Option<JobId>>, depth: nat,
                  started: real, ghost quiet: bool, ghost q0: Queue, ghost c0: Counters)
      returns (result: Result)
      requires IsWorld(quiet, others) && b.jobs != [] && (!b.block ==> rounds == 1)
      requires Ongoing(b, quiet, q0, log, store.View(), RoundOver(rounds, refused)) && AcceptedSoFar(b, log, accepted)
      requires counters == Counted(b, log, c0) && (refused != [] ==> depth == LastDepth(b, log))
      modifies this`calls, this`log, this`counters, store, clock
      ensures IsTrace(b, quiet, q0, log) && store.View() == AfterAll(b, q0, log) && OnlyReports(old(log), log)
      ensures Concluded(b, log, rounds, result)
      ensures counters == AllCounted(b, log, c0, TimeBlocked(log, rounds, started, clock.now))
      ensures old(clock.now) <= clock.now
      ensures result.QueueFull? ==> refused != []
      ensures result.QueueFull? && b.block ==> log != [] && log[|log| - 1].Reported? && log[|log| - 1].time == old(clock.now)
    {
      if refused != [] {
        result := RaiseQueueFull(store, clock, b, rounds, refused, accepted, depth, started, quiet, q0, c0);
      } else {
        result := Conclude(store, clock, b, rounds, accepted, started, quiet, q0, c0);
      }
    }

    method EnqueueSome(store: RedisQueue.Store, clock: Clock, b: Batch, ghost quiet: bool, ghost q0: Queue, ghost c0: Counters)
      returns (result: Result, rounds: nat)
      requires Valid() && IsWorld(quiet, others) && 0.0 <= clock.slack && b.jobs != []
      requires log == [] && q0 == store.View() && counters == c0
      modifies this`calls, this`log, this`counters, store, clock
      ensures IsTrace(b, quiet, q0, log) && store.View() == AfterAll(b, q0, log)
      ensures Concluded(b, log, rounds, result)
      ensures counters == AllCounted(b, log, c0, TimeBlocked(log, rounds, old(clock.now), clock.now))
      ensures SentBetween(log, old(clock.now), old(clock.now) + timeout + clock.slack) && old(clock.now) <= clock.now
      ensures rounds <= MostRounds() && (!b.block ==> rounds <= 1)
      ensures result.QueueFull? && b.block ==>
                log != [] && log[|log| - 1].Reported? && old(clock.now) + timeout <= log[|log| - 1].time <= clock.now
    {
      var started := clock.now;
      var refused, accepted, depth;
      rounds, refused, accepted, depth := AskUntilSettled(store, clock, b, quiet, q0, c0);
      ghost var was := log;
      result := Finish(store, clock, b, rounds, refused, accepted, depth, started, quiet, q0, c0);
      SentUpTo(was, log, started, started + timeout + clock.slack);
    }

    /** The batch enqueue. Its calls follow the procedure on the queue as it is at each of them; the
        result and all counters are what the replies say; nothing is sent later than a sleep's slack
        past the deadline, and block mode gives up only after it. */
    method EnqueueMany(store: RedisQueue.Store, clock: Clock, b: Batch, ghost quiet: bool) returns (result: Result, rounds: nat)
      requires Valid() && IsWorld(quiet, others) && 0.0 <= clock.slack
      modifies this`calls, this`log, this`counters, store, clock
      ensures IsTrace(b, quiet, old(store.View()), log) && store.View() == AfterAll(b, old(store.View()), log)
      ensures b.jobs == [] ==> result == AllIn([]) && log == [] && counters == old(counters)
      ensures b.jobs != [] ==> Concluded(b, log, rounds, result)
      ensures b.jobs != [] ==> counters == AllCounted(b, log, old(counters), TimeBlocked(log, rounds, old(clock.now), clock.now))
      ensures SentBetween(log, old(clock.now), old(clock.now) + timeout + clock.slack) && old(clock.now) <= clock.now
      ensures rounds <= MostRounds() && (!b.block ==> rounds <= 1)
      ensures result.QueueFull? && b.block ==>
                log != [] && log[|log| - 1].Reported? && old(clock.now) + timeout <= log[|log| - 1].time <= clock.now
    {
      log := [];
      if b.jobs == [] {
        return AllIn([]), 0;
      }
      result, rounds := EnqueueSome(store, clock, b, quiet, store.View(), counters);
    }
  }
}

/** Requeueing the whole dead-letter queue (`src/ftq/dlq.py`) while workers keep adding to it and
    taking from it between any two of the sweep's own calls. */
module DlqSweep {
  import opened QueueTypes
  import opened Invariants
  import Scripts
  import Protocol
  import Reachability = Reachable
  import Guarantees
  import RedisQueue

  const PAGE := 100

  predicate Ascending(ids: seq<EntryId>) {
    forall i, k :: 0 <= i < k < |ids| ==> ids[i] < ids[k]
  }

  lemma AscendingFrom(first: EntryId, rest: seq<EntryId>)
    requires Ascending(rest) && forall d :: d in rest ==> first < d
    ensures Ascending([first] + rest)
  {
    assert forall i :: 0 <= i < |rest| ==> rest[i] in rest;
  }

  /** XRANGE: the first `count` entries with ids from `from` to `end`. */
  function Page(dlq: map<EntryId, DeadJob>, from: EntryId, end: EntryId, count: nat): (page: seq<EntryId>)
    ensures forall d :: d in page ==> d in dlq && from <= d <= end
    ensures Ascending(page)
    ensures page == [] ==> count == 0 || forall d :: d in dlq ==> !(from <= d <= end)
    ensures page != [] ==> forall d :: d in dlq && from <= d <= page[|page| - 1] ==> d in page
    decreases count, if from <= end then end - from + 1 else 0
  {
    if count == 0 || from > end then []
    else if from in dlq then
      var rest := Page(dlq, from + 1, end, count - 1);
      AscendingFrom(from, rest);
      [from] + rest
    else Page(dlq, from + 1, end, count)
  }

  /** XREVRANGE with COUNT 1: the last entry below `upto`. */
  function Last(dlq: map<EntryId, DeadJob>, upto: EntryId): (last: Option<EntryId>)
    ensures last.None? ==> forall d :: d in dlq ==> upto <= d
    ensures last.Some? ==> last.value in dlq && last.value < upto && forall d :: d in dlq && d < upto ==> d <= last.value
  {
    if upto == 0 then None else if upto - 1 in dlq then Some(upto - 1) else Last(dlq, upto - 1)
  }

  // ---------------------------------------------------------------- interference

  /** What others may do to the DLQ: append at its end and remove anywhere. */
  ghost predicate Later(v: Verdicts, w: Verdicts) {
    && v.nextDead <= w.nextDead
    && forall d :: d in w.dlq && d < v.nextDead ==> d in v.dlq && w.dlq[d] == v.dlq[d]
  }

  /** Other clients' turn: the DLQ is still exactly the DEAD jobs. `quiet` if there are no others. */
  ghost predicate Gap(quiet: bool, q: Queue, r: Queue) {
    VerdictsOk(r.v) && Later(q.v, r.v) && (quiet ==> r == q)
  }

  /** Every step of the protocol is such a turn. */
  lemma StepIsGap(s: Settings, x: Protocol.System, a: Protocol.Action, y: Protocol.System)
    requires Reachability.SystemInv(s, x) && Protocol.Next(s, x, a, y)
    ensures Gap(false, x.q, y.q)
  {
    Reachability.StepKeeps(s, x, a, y);
    StepIsLater(s, x, a, y);
  }

  lemma StepIsLater(s: Settings, x: Protocol.System, a: Protocol.Action, y: Protocol.System)
    requires VerdictsOk(x.q.v) && Protocol.Next(s, x, a, y)
    ensures Later(x.q.v, y.q.v)
  {
    if a.DoCommit? {
      if x.q.v.HasSucceeded(x.written[a.e].id) {} else if x.q.v.IsDead(x.written[a.e].id) {} else {}
    } else if a.DoDead? {
      match Scripts.DeadOutcome(x.q, a.w, a.e, x.written[a.e].id) {
        case LeaseLost => case TerminalState => case EntryMissing => case Ok =>
      }
    } else if a.DoRequeue? {
      if Scripts.RequeueOutcomeOf(x.q.v, a.j).Requeued? {} else {}
    } else {
      Guarantees.VerdictsFrame(s, x, a, y);
    }
  }

  lemma RequeueIsLater(q: Queue, j: JobId)
    ensures Later(q.v, Scripts.Requeue(q, j).v)
  {
    if Scripts.RequeueOutcomeOf(q.v, j).Requeued? {} else {}
  }

  /** After its requeue an entry is gone, if it still was its job's. */
  lemma RequeueRemoves(q: Queue, d: EntryId, j: JobId)
    requires VerdictsOk(q.v) && (d in q.v.dlq ==> q.v.dlq[d].jobId == j)
    ensures VerdictsOk(Scripts.Requeue(q, j).v) && d !in Scripts.Requeue(q, j).v.dlq
  {
    if d in q.v.dlq {
      assert BuriedAt(q.v, q.v.dlq[d].jobId, d);
    }
    if Scripts.RequeueOutcomeOf(q.v, j).Requeued? {
      UnburyKeeps(q.v, j);
    }
  }

  // ---------------------------------------------------------------- the log of a sweep

  /** One of the sweep's calls, with the queue at that moment: a page read from `from` on, or the
      requeue of a job, as its DLQ entry was read. */
  datatype Call = Listed(from: EntryId, at: Queue) | Asked(entry: EntryId, job: JobId, at: Queue)

  function After(c: Call): Queue {
    if c.Listed? then c.at else Scripts.Requeue(c.at, c.job)
  }

  function AfterAll(q0: Queue, log: seq<Call>): Queue {
    if log == [] then q0 else After(log[|log| - 1])
  }

  /** Between any two calls, and before the first, others have their turn. */
  ghost predicate IsTrace(quiet: bool, q0: Queue, log: seq<Call>) {
    forall i :: 0 <= i < |log| ==> Gap(quiet, AfterAll(q0, log[..i]), log[i].at)
  }

  datatype Item = Item(entry: EntryId, job: JobId)

  /** A page as XRANGE answers it: each entry with the job it names. */
  function PageAt(dlq: map<EntryId, DeadJob>, from: EntryId, end: EntryId): (page: seq<Item>)
    ensures |page| == |Page(dlq, from, end, PAGE)|
    ensures forall i :: 0 <= i < |page| ==> page[i].entry == Page(dlq, from, end, PAGE)[i]
    ensures forall i :: 0 <= i < |page| ==> page[i].entry in dlq && page[i].job == dlq[page[i].entry].jobId
  {
    var ids := Page(dlq, from, end, PAGE);
    assert forall i :: 0 <= i < |ids| ==> ids[i] in ids;
    seq(|ids|, i requires 0 <= i < |ids| && ids[i] in dlq => Item(ids[i], dlq[ids[i]].jobId))
  }

  /** Where the sweep stands: about to read from `from`; with the rest of a page still to requeue and
      the next page starting at `next`; done; or not following the procedure. */
  datatype Stage = Reading(from: EntryId) | Working(rest: seq<Item>, next: EntryId) | Finished | Astray

  /** The procedure: read a page up to `end`, requeue what is on it in order, go on behind it, and
      stop at an empty page. */
  function Advance(stage: Stage, c: Call, end: EntryId): Stage {
    match stage
    case Reading(from) =>
      if !c.Listed? || c.from != from then Astray
      else
        var page := PageAt(c.at.v.dlq, from, end);
        if page == [] then Finished else Working(page, page[|page| - 1].entry + 1)
    case Working(rest, next) =>
      if rest == [] || !c.Asked? || c.entry != rest[0].entry || c.job != rest[0].job then Astray
      else if |rest| == 1 then Reading(next)
      else Working(rest[1..], next)
    case _ => Astray
  }

  function StageOf(log: seq<Call>, end: EntryId): Stage {
    if log == [] then Reading(0) else Advance(StageOf(log[..|log| - 1], end), log[|log| - 1], end)
  }

  /** The entries whose jobs the sweep asked to requeue, in order. */
  function Visited(log: seq<Call>): seq<EntryId> {
    if log == [] then []
    else Visited(log[..|log| - 1]) + if log[|log| - 1].Asked? then [log[|log| - 1].entry] else []
  }

  /** How often the answer was that the job was requeued. */
  function Granted(log: seq<Call>): nat {
    if log == [] then 0
    else
      var c := log[|log| - 1];
      Granted(log[..|log| - 1]) + if c.Asked? && Scripts.RequeueOutcomeOf(c.at.v, c.job).Requeued? then 1 else 0
  }

  // ---------------------------------------------------------------- what every such log achieves

  function Entries(rest: seq<Item>): (r: seq<EntryId>)
    ensures |r| == |rest| && forall i :: 0 <= i < |rest| ==> r[i] == rest[i].entry
  {
    seq(|rest|, i requires 0 <= i < |rest| => rest[i].entry)
  }

  /** What is still to be requeued of the page at hand. */
  function Rest(stage: Stage): seq<Item> {
    if stage.Working? then stage.rest else []
  }

  /** Every id below it has been covered by a page. */
  function Frontier(stage: Stage, end: EntryId): EntryId {
    match stage
    case Reading(from) => from
    case Working(_, next) => next
    case _ => end + 1
  }

  /** What is left of the first `end` entries is behind the frontier or still on the page at hand. */
  ghost predicate Remaining(v: Verdicts, stage: Stage, end: EntryId) {
    && VerdictsOk(v)
    && (forall d :: d in v.dlq && d <= end ==> Frontier(stage, end) <= d || d in Entries(Rest(stage)))
    && (forall item :: item in Rest(stage) && item.entry in v.dlq ==> v.dlq[item.entry].jobId == item.job)
  }

  /** The page at hand follows what was visited, and none of it is new. */
  ghost predicate InOrder(v0: Verdicts, visited: seq<EntryId>, stage: Stage, end: EntryId) {
    && Ascending(visited + Entries(Rest(stage)))
    && (forall d :: d in visited + Entries(Rest(stage)) ==> d in v0.dlq && d < Frontier(stage, end))
    && (stage.Working? ==> stage.rest != [] && stage.next <= end + 1)
    && (stage.Reading? ==> stage.from <= end + 1)
  }

  lemma LaterAgain(u: Verdicts, v: Verdicts, w: Verdicts)
    requires Later(u, v) && Later(v, w)
    ensures Later(u, w)
  {
  }

  /** Others' turn adds nothing to what is left. */
  lemma GapRemaining(quiet: bool, v0: Verdicts, visited: seq<EntryId>, q: Queue, r: Queue, stage: Stage, end: EntryId)
    requires VerdictsOk(v0) && end < v0.nextDead && Later(v0, q.v) && Gap(quiet, q, r)
    requires Remaining(q.v, stage, end) && InOrder(v0, visited, stage, end)
    ensures Later(v0, r.v) && Remaining(r.v, stage, end)
  {
    LaterAgain(v0, q.v, r.v);
    forall item | item in Rest(stage) && item.entry in r.v.dlq ensures r.v.dlq[item.entry].jobId == item.job {
      var i :| 0 <= i < |Rest(stage)| && Rest(stage)[i] == item;
      assert (visited + Entries(Rest(stage)))[|visited| + i] == item.entry;
      assert item.entry in v0.dlq;
    }
  }

  lemma ListRemaining(v: Verdicts, from: EntryId, end: EntryId, at: Queue)
    requires v == at.v && Remaining(v, Reading(from), end)
    ensures Remaining(v, Advance(Reading(from), Listed(from, at), end), end)
  {
    var ids, page := Page(v.dlq, from, end, PAGE), PageAt(v.dlq, from, end);
    assert Entries(page) == ids;
  }

  lemma FirstEntry(rest: seq<Item>)
    requires rest != []
    ensures Entries(rest) == [rest[0].entry] + Entries(rest[1..])
  {
  }

  lemma AskRemaining(q: Queue, rest: seq<Item>, next: EntryId, end: EntryId)
    requires rest != [] && Remaining(q.v, Working(rest, next), end)
    ensures Remaining(Scripts.Requeue(q, rest[0].job).v, if |rest| == 1 then Reading(next) else Working(rest[1..], next), end)
  {
    assert rest[0] in Rest(Working(rest, next));
    var w := Scripts.Requeue(q, rest[0].job).v;
    RequeueRemoves(q, rest[0].entry, rest[0].job);
    DlqShrinks(q, rest[0].job);
    FirstEntry(rest);
    OneLessLeft(q.v, w, rest, next, end);
  }

  lemma OneLessLeft(v: Verdicts, w: Verdicts, rest: seq<Item>, next: EntryId, end: EntryId)
    requires rest != [] && Remaining(v, Working(rest, next), end) && VerdictsOk(w) && rest[0].entry !in w.dlq
    requires forall d :: d in w.dlq ==> d in v.dlq && w.dlq[d] == v.dlq[d]
    requires Entries(rest) == [rest[0].entry] + Entries(rest[1..])
    ensures Remaining(w, if |rest| == 1 then Reading(next) else Working(rest[1..], next), end)
  {
    forall item | item in rest[1..] && item.entry in w.dlq ensures w.dlq[item.entry].jobId == item.job {
      assert item in Rest(Working(rest, next));
    }
  }

  lemma DlqShrinks(q: Queue, j: JobId)
    ensures var after := Scripts.Requeue(q, j).v.dlq; forall d :: d in after ==> d in q.v.dlq && after[d] == q.v.dlq[d]
  {
    if Scripts.RequeueOutcomeOf(q.v, j).Requeued? {} else {}
  }

  lemma AscendingAfter(visited: seq<EntryId>, page: seq<EntryId>, from: EntryId)
    requires Ascending(visited) && Ascending(page)
    requires (forall d :: d in visited ==> d < from) && forall d :: d in page ==> from <= d
    ensures Ascending(visited + page)
  {
    assert forall i :: 0 <= i < |visited| ==> visited[i] in visited;
    assert forall i :: 0 <= i < |page| ==> page[i] in page;
  }

  lemma NoRest(visited: seq<EntryId>)
    ensures visited + Entries([]) == visited
  {
  }

  lemma ListInOrder(v0: Verdicts, visited: seq<EntryId>, from: EntryId, end: EntryId, at: Queue)
    requires Later(v0, at.v) && end < v0.nextDead && InOrder(v0, visited, Reading(from), end)
    ensures InOrder(v0, visited, Advance(Reading(from), Listed(from, at), end), end)
  {
    var ids, page := Page(at.v.dlq, from, end, PAGE), PageAt(at.v.dlq, from, end);
    NoRest(visited);
    assert Entries(page) == ids;
    AscendingAfter(visited, ids, from);
    if page != [] {
      PageAhead(at.v.dlq, from, end);
      PageBounded(ids);
    }
  }

  lemma PageBounded(ids: seq<EntryId>)
    requires Ascending(ids) && ids != []
    ensures forall d :: d in ids ==> d <= ids[|ids| - 1]
  {
  }

  lemma AskInOrder(v0: Verdicts, visited: seq<EntryId>, rest: seq<Item>, next: EntryId, end: EntryId, at: Queue)
    requires rest != [] && InOrder(v0, visited, Working(rest, next), end)
    ensures visited + Entries(rest) == (visited + [rest[0].entry]) + Entries(rest[1..])
    ensures InOrder(v0, visited + [rest[0].entry], Advance(Working(rest, next), Asked(rest[0].entry, rest[0].job, at), end), end)
  {
    assert Entries(rest) == [rest[0].entry] + Entries(rest[1..]);
    assert visited + Entries(rest) == (visited + [rest[0].entry]) + Entries(rest[1..]);
    assert |rest| == 1 ==> Entries(rest[1..]) == Entries([]);
  }

  /** What holds after every call of a log. */
  ghost predicate Kept(q0: Queue, log: seq<Call>, end: EntryId) {
    var stage, q := StageOf(log, end), AfterAll(q0, log);
    Later(q0.v, q.v) && Remaining(q.v, stage, end) && InOrder(q0.v, Visited(log), stage, end)
  }

  lemma KeptNext(quiet: bool, q0: Queue, log: seq<Call>, end: EntryId)
    requires VerdictsOk(q0.v) && end < q0.v.nextDead && log != [] && StageOf(log, end) != Astray
    requires var init := log[..|log| - 1]; Kept(q0, init, end) && Gap(quiet, AfterAll(q0, init), log[|log| - 1].at)
    ensures Kept(q0, log, end)
  {
    var init, c := log[..|log| - 1], log[|log| - 1];
    var stage, visited := StageOf(init, end), Visited(init);
    GapRemaining(quiet, q0.v, visited, AfterAll(q0, init), c.at, stage, end);
    match stage {
      case Reading(from) =>
        ListRemaining(c.at.v, from, end, c.at);
        ListInOrder(q0.v, visited, from, end, c.at);
        assert Visited(log) == visited;
      case Working(rest, next) =>
        AskRemaining(c.at, rest, next, end);
        AskInOrder(q0.v, visited, rest, next, end, c.at);
        RequeueIsLater(c.at, c.job);
        LaterAgain(q0.v, c.at.v, After(c).v);
    }
  }

  lemma NothingYet(q0: Queue, end: EntryId)
    requires VerdictsOk(q0.v)
    ensures Kept(q0, [], end)
  {
    assert Visited([]) + Entries(Rest(Reading(0))) == [];
  }

  lemma TracePrefix(quiet: bool, q0: Queue, log: seq<Call>, n: nat)
    requires IsTrace(quiet, q0, log) && n <= |log|
    ensures IsTrace(quiet, q0, log[..n])
    ensures n < |log| ==> Gap(quiet, AfterAll(q0, log[..n]), log[n].at)
  {
    forall i | 0 <= i < n ensures log[..n][..i] == log[..i] {
    }
  }

  lemma {:induction false} AllKept(quiet: bool, q0: Queue, log: seq<Call>, end: EntryId)
    requires VerdictsOk(q0.v) && end < q0.v.nextDead && IsTrace(quiet, q0, log) && StageOf(log, end) != Astray
    ensures Kept(q0, log, end)
    decreases |log|
  {
    if log == [] {
      NothingYet(q0, end);
    } else {
      TracePrefix(quiet, q0, log, |log| - 1);
      AllKept(quiet, q0, log[..|log| - 1], end);
      KeptNext(quiet, q0, log, end);
    }
  }

  /** Whatever others do meanwhile: when the sweep is done, nothing is left of what the DLQ held up to
      its end when it began; and it asked at most once about each of those, and about nothing else. */
  lemma SweepLeavesNothing(quiet: bool, q0: Queue, log: seq<Call>, end: EntryId)
    requires VerdictsOk(q0.v) && end < q0.v.nextDead && IsTrace(quiet, q0, log) && StageOf(log, end) == Finished
    ensures forall d :: d in AfterAll(q0, log).v.dlq ==> end < d
    ensures Ascending(Visited(log)) && forall d :: d in Visited(log) ==> d in q0.v.dlq && d <= end
  {
    AllKept(quiet, q0, log, end);
    assert Visited(log) + Entries([]) == Visited(log);
  }

  // ---------------------------------------------------------------- who is visited

  /** The last id that a read covers. */
  function Upto(c: Call, end: EntryId): EntryId
    requires c.Listed?
  {
    var page := PageAt(c.at.v.dlq, c.from, end);
    if page == [] then end else page[|page| - 1].entry
  }

  /** A read whose range the id is in, and by which it was visited exactly if it was there. */
  ghost predicate SettledBy(c: Call, visited: seq<EntryId>, d: EntryId, end: EntryId) {
    c.Listed? && c.from <= d <= Upto(c, end) && (d in visited <==> d in c.at.v.dlq)
  }

  ghost predicate Settled(log: seq<Call>, visited: seq<EntryId>, d: EntryId, end: EntryId) {
    exists i :: 0 <= i < |log| && SettledBy(log[i], visited, d, end)
  }

  ghost predicate AllSettled(log: seq<Call>, visited: seq<EntryId>, stage: Stage, end: EntryId) {
    forall d: EntryId :: d < Frontier(stage, end) ==> Settled(log, visited + Entries(Rest(stage)), d, end)
  }

  lemma ListSettles(v0: Verdicts, log: seq<Call>, visited: seq<EntryId>, c: Call, end: EntryId)
    requires c.Listed? && AllSettled(log, visited, Reading(c.from), end) && InOrder(v0, visited, Reading(c.from), end)
    ensures AllSettled(log + [c], visited, Advance(Reading(c.from), c, end), end)
  {
    var ids, page, stage := Page(c.at.v.dlq, c.from, end, PAGE), PageAt(c.at.v.dlq, c.from, end), Advance(Reading(c.from), c, end);
    assert Entries(page) == ids && visited + Entries([]) == visited;
    forall d: EntryId | d < Frontier(stage, end) ensures Settled(log + [c], visited + Entries(Rest(stage)), d, end) {
      if d < c.from {
        assert Settled(log, visited + Entries([]), d, end);
        var i :| 0 <= i < |log| && SettledBy(log[i], visited + Entries([]), d, end);
        assert SettledBy((log + [c])[i], visited + Entries(Rest(stage)), d, end);
      } else {
        assert SettledBy((log + [c])[|log|], visited + Entries(Rest(stage)), d, end);
      }
    }
  }

  lemma AskSettles(log: seq<Call>, visited: seq<EntryId>, rest: seq<Item>, next: EntryId, c: Call, end: EntryId)
    requires c.Asked? && rest != [] && AllSettled(log, visited, Working(rest, next), end)
    requires visited + Entries(rest) == (visited + [rest[0].entry]) + Entries(rest[1..])
    requires Advance(Working(rest, next), c, end) != Astray
    ensures AllSettled(log + [c], visited + [rest[0].entry], Advance(Working(rest, next), c, end), end)
  {
    var stage, now := Advance(Working(rest, next), c, end), visited + [rest[0].entry];
    assert now + Entries(Rest(stage)) == visited + Entries(rest);
    forall d: EntryId | d < Frontier(stage, end) ensures Settled(log + [c], now + Entries(Rest(stage)), d, end) {
      assert Settled(log, visited + Entries(Rest(Working(rest, next))), d, end);
      var i :| 0 <= i < |log| && SettledBy(log[i], visited + Entries(rest), d, end);
      assert SettledBy((log + [c])[i], now + Entries(Rest(stage)), d, end);
    }
  }

  lemma SettledNext(q0: Queue, log: seq<Call>, end: EntryId)
    requires log != [] && StageOf(log, end) != Astray
    requires var init := log[..|log| - 1];
             AllSettled(init, Visited(init), StageOf(init, end), end) && InOrder(q0.v, Visited(init), StageOf(init, end), end)
    ensures AllSettled(log, Visited(log), StageOf(log, end), end)
  {
    var init, c := log[..|log| - 1], log[|log| - 1];
    assert log == init + [c];
    match StageOf(init, end) {
      case Reading(_) =>
        ListSettles(q0.v, init, Visited(init), c, end);
        assert Visited(log) == Visited(init);
      case Working(rest, next) =>
        AskInOrder(q0.v, Visited(init), rest, next, end, c.at);
        AskSettles(init, Visited(init), rest, next, c, end);
    }
  }

  lemma {:induction false} VisitsSettled(quiet: bool, q0: Queue, log: seq<Call>, end: EntryId)
    requires VerdictsOk(q0.v) && end < q0.v.nextDead && IsTrace(quiet, q0, log) && StageOf(log, end) != Astray
    ensures AllSettled(log, Visited(log), StageOf(log, end), end)
    decreases |log|
  {
    if log != [] {
      TracePrefix(quiet, q0, log, |log| - 1);
      VisitsSettled(quiet, q0, log[..|log| - 1], end);
      AllKept(quiet, q0, log[..|log| - 1], end);
      SettledNext(q0, log, end);
    }
  }

  /** Each entry of the DLQ as it was at first is visited exactly if it was still there when the page
      that covers it was read. */
  lemma VisitedIfStillThere(quiet: bool, q0: Queue, log: seq<Call>, end: EntryId, d: EntryId)
    requires VerdictsOk(q0.v) && end < q0.v.nextDead && IsTrace(quiet, q0, log) && StageOf(log, end) == Finished && d <= end
    ensures Settled(log, Visited(log), d, end)
  {
    VisitsSettled(quiet, q0, log, end);
    assert Settled(log, Visited(log) + Entries(Rest(Finished)), d, end);
    assert Visited(log) + Entries(Rest(Finished)) == Visited(log);
  }

  // ---------------------------------------------------------------- the sweep alone

  /** With nobody else about: the visited entries are gone from the DLQ, and their jobs, and no
      others, are no longer dead. */
  ghost predicate Revived(v0: Verdicts, v: Verdicts, visited: seq<EntryId>) {
    && VerdictsOk(v) && |v.dlq| + |visited| == |v0.dlq|
    && (forall d :: d in v.dlq <==> d in v0.dlq && d !in visited)
    && (forall d :: d in v.dlq ==> v.dlq[d] == v0.dlq[d])
    && forall j :: v0.IsDead(j) ==>
         if v0.done[j].entry in visited then j !in v.done else j in v.done && v.done[j] == v0.done[j]
  }

  /** And they are back on the stream, in order and with attempt 0. */
  ghost predicate Restreamed(q0: Queue, g: Group, visited: seq<EntryId>) {
    && g.nextId == q0.g.nextId + |visited|
    && forall i :: 0 <= i < |visited| ==>
         && visited[i] in q0.v.dlq && q0.v.dlq[visited[i]].fields.Some? && q0.g.nextId + i in g.stream
         && g.stream[q0.g.nextId + i] == q0.v.dlq[visited[i]].fields.value.(attempt := 0)
  }

  ghost predicate Swept(q0: Queue, q: Queue, visited: seq<EntryId>) {
    Revived(q0.v, q.v, visited) && Restreamed(q0, q.g, visited)
  }

  lemma ReviveOne(v0: Verdicts, v: Verdicts, visited: seq<EntryId>, d: EntryId)
    requires VerdictsOk(v0) && Revived(v0, v, visited) && d in v0.dlq && d !in visited
    ensures var j := v0.dlq[d].jobId;
            && Scripts.RequeueOutcomeOf(v, j).Requeued? && v.done[j].entry == d
            && Revived(v0, Scripts.Unbury(v, j), visited + [d])
  {
    var j := v0.dlq[d].jobId;
    assert d in v.dlq && BuriedAt(v, v.dlq[d].jobId, d) && BuriedAt(v0, j, d);
    UnburyKeeps(v, j);
    assert forall e :: e in visited + [d] <==> e in visited || e == d;
  }

  lemma SweepOne(q0: Queue, q: Queue, visited: seq<EntryId>, d: EntryId)
    requires VerdictsOk(q0.v) && Swept(q0, q, visited) && d in q0.v.dlq && d !in visited
    ensures var j := q0.v.dlq[d].jobId;
            Scripts.RequeueOutcomeOf(q.v, j).Requeued? && Swept(q0, Scripts.Requeue(q, j), visited + [d])
  {
    var j := q0.v.dlq[d].jobId;
    ReviveOne(q0.v, q.v, visited, d);
    assert Scripts.Revived(q.v, j) == q0.v.dlq[d].fields.value.(attempt := 0);
    StreamOne(q0, q.g, visited, d);
  }

  lemma StreamOne(q0: Queue, g: Group, visited: seq<EntryId>, d: EntryId)
    requires Restreamed(q0, g, visited) && d in q0.v.dlq && q0.v.dlq[d].fields.Some?
    ensures Restreamed(q0, Scripts.Append(g, q0.v.dlq[d].fields.value.(attempt := 0)), visited + [d])
  {
  }

  lemma {:induction false} GrantedAtMost(log: seq<Call>)
    ensures Granted(log) <= |Visited(log)|
    decreases |log|
  {
    if log != [] {
      GrantedAtMost(log[..|log| - 1]);
    }
  }

  ghost predicate GrantedSoFar(q0: Queue, log: seq<Call>) {
    Swept(q0, AfterAll(q0, log), Visited(log)) && Granted(log) == |Visited(log)|
  }

  lemma GrantedNext(q0: Queue, log: seq<Call>, end: EntryId)
    requires VerdictsOk(q0.v) && end < q0.v.nextDead && log != [] && StageOf(log, end) != Astray
    requires var init := log[..|log| - 1];
             Kept(q0, init, end) && GrantedSoFar(q0, init) && log[|log| - 1].at == AfterAll(q0, init)
    ensures GrantedSoFar(q0, log)
  {
    var init, c := log[..|log| - 1], log[|log| - 1];
    if c.Asked? {
      NextIsDead(q0, init, c, end);
      SweepOne(q0, c.at, Visited(init), c.entry);
      assert Visited(log) == Visited(init) + [c.entry];
    } else {
      assert Visited(log) == Visited(init);
    }
  }

  lemma NothingSwept(q0: Queue)
    requires VerdictsOk(q0.v)
    ensures GrantedSoFar(q0, [])
  {
  }

  /** Alone, every requeue is granted, and the jobs visited so far are back on the stream. */
  lemma {:induction false} AllGranted(q0: Queue, log: seq<Call>, end: EntryId)
    requires VerdictsOk(q0.v) && end < q0.v.nextDead && IsTrace(true, q0, log) && StageOf(log, end) != Astray
    ensures GrantedSoFar(q0, log)
    decreases |log|
  {
    if log == [] {
      NothingSwept(q0);
    } else {
      TracePrefix(true, q0, log, |log| - 1);
      AllGranted(q0, log[..|log| - 1], end);
      AllKept(true, q0, log[..|log| - 1], end);
      GrantedNext(q0, log, end);
    }
  }

  /** Alone, the next entry to be requeued is still there, and names the job it named at first. */
  lemma NextIsDead(q0: Queue, init: seq<Call>, c: Call, end: EntryId)
    requires VerdictsOk(q0.v) && end < q0.v.nextDead && Kept(q0, init, end) && Swept(q0, AfterAll(q0, init), Visited(init))
    requires c.Asked? && c.at == AfterAll(q0, init) && Advance(StageOf(init, end), c, end) != Astray
    ensures c.entry in q0.v.dlq && c.entry !in Visited(init) && q0.v.dlq[c.entry].jobId == c.job
  {
    var visited, rest := Visited(init), Rest(StageOf(init, end));
    var all := visited + Entries(rest);
    assert all[|visited|] == c.entry;
    forall i | 0 <= i < |visited| ensures visited[i] != c.entry {
      assert all[i] == visited[i];
    }
    assert rest[0] in rest;
  }

  // ---------------------------------------------------------------- the procedure

  /** What the other clients make of the queue before the sweep's `n`-th call. */
  type World = (nat, Queue) -> Queue

  ghost predicate IsWorld(quiet: bool, others: World) {
    forall n: nat, q: Queue {:trigger others(n, q)} :: VerdictsOk(q.v) ==> Gap(quiet, q, others(n, q))
  }

  /** The connection the sweep works over. Its two calls, and nothing else, write the log, each with the
      queue as it was when Redis ran it; others may have had their turn just before. */
  class Session {
    const others: World
    var calls: nat
    ghost var log: seq<Call>

    constructor (world: World)
      ensures others == world && log == []
    {
      others, calls, log := world, 0, [];
    }

    method OthersTurn(store: RedisQueue.Store, ghost quiet: bool)
      requires VerdictsOk(store.v) && IsWorld(quiet, others)
      modifies this`calls, store
      ensures Gap(quiet, old(store.View()), store.View())
    {
      var q := Queue(store.g, store.delayed, store.v, store.ledger, store.door, store.stats, store.reclaims);
      var r := others(calls, q);
      calls := calls + 1;
      store.g, store.delayed, store.v, store.ledger, store.door, store.stats, store.reclaims :=
        r.g, r.delayed, r.v, r.ledger, r.door, r.stats, r.reclaims;
    }

    /** XRANGE. */
    method List(store: RedisQueue.Store, from: EntryId, end: EntryId, ghost quiet: bool) returns (page: seq<Item>)
      requires VerdictsOk(store.v) && IsWorld(quiet, others)
      modifies this, store
      ensures Gap(quiet, old(store.View()), store.View()) && page == PageAt(store.v.dlq, from, end)
      ensures log == old(log) + [Listed(from, store.View())]
    {
      OthersTurn(store, quiet);
      page := PageAt(store.v.dlq, from, end);
      log := log + [Listed(from, store.View())];
    }

    /** The requeue script. */
    method Ask(store: RedisQueue.Store, item: Item, ghost quiet: bool) returns (ok: bool)
      requires VerdictsOk(store.v) && IsWorld(quiet, others)
      modifies this, store
      ensures |log| == |old(log)| + 1 && old(log) <= log
      ensures var c := log[|old(log)|];
              && c.Asked? && c.entry == item.entry && c.job == item.job && Gap(quiet, old(store.View()), c.at)
              && store.View() == After(c) && ok == Scripts.RequeueOutcomeOf(c.at.v, item.job).Requeued?
    {
      OthersTurn(store, quiet);
      ghost var c := Asked(item.entry, item.job, store.View());
      var outcome := store.Requeue(item.job);
      log := log + [c];
      ok := outcome.Requeued?;
    }
  }

  /** Where a sweep that is going on stands: its log, what it left of the queue, and its total. */
  ghost predicate Ongoing(quiet: bool, q0: Queue, log: seq<Call>, q: Queue, end: EntryId, stage: Stage, total: nat) {
    && IsTrace(quiet, q0, log) && q == AfterAll(q0, log) && StageOf(log, end) == stage && total == Granted(log)
    && VerdictsOk(q.v)
  }

  lemma OngoingNext(quiet: bool, q0: Queue, log: seq<Call>, q: Queue, end: EntryId, stage: Stage, total: nat, c: Call)
    requires Ongoing(quiet, q0, log, q, end, stage, total) && Gap(quiet, q, c.at)
    ensures Ongoing(quiet, q0, log + [c], After(c), end, Advance(stage, c, end), Granted(log + [c]))
    ensures Granted(log + [c]) == total + if c.Asked? && Scripts.RequeueOutcomeOf(c.at.v, c.job).Requeued? then 1 else 0
  {
    var all := log + [c];
    assert all[..|log|] == log;
    forall i | 0 <= i < |all| ensures Gap(quiet, AfterAll(q0, all[..i]), all[i].at) {
      assert i < |log| ==> all[..i] == log[..i];
    }
    if c.Asked? {
      RequeueKeepsVerdicts(c.at, c.job);
    }
  }

  lemma RequeueKeepsVerdicts(q: Queue, j: JobId)
    requires VerdictsOk(q.v)
    ensures VerdictsOk(Scripts.Requeue(q, j).v)
  {
    if Scripts.RequeueOutcomeOf(q.v, j).Requeued? {
      UnburyKeeps(q.v, j);
    }
  }

  /** One turn of the inner loop. */
  method AskNext(store: RedisQueue.Store, session: Session, item: Item, ghost rest: seq<Item>, next: EntryId, ghost end: EntryId, before: nat,
                 ghost quiet: bool, ghost q0: Queue)
    returns (total: nat)
    requires rest != [] && item == rest[0] && IsWorld(quiet, session.others)
    requires Ongoing(quiet, q0, session.log, store.View(), end, Working(rest, next), before)
    modifies store, session
    ensures Ongoing(quiet, q0, session.log, store.View(), end, if |rest| == 1 then Reading(next) else Working(rest[1..], next), total)
  {
    ghost var log, q := session.log, store.View();
    var ok := session.Ask(store, item, quiet);
    ghost var c := session.log[|log|];
    assert session.log == log + [c];
    OngoingNext(quiet, q0, log, q, end, Working(rest, next), before, c);
    total := if ok then before + 1 else before;
  }

  /** The inner loop: requeue every job of one page, as the page was read. */
  method RequeuePage(store: RedisQueue.Store, session: Session, page: seq<Item>, next: EntryId, ghost end: EntryId, before: nat,
                     ghost quiet: bool, ghost q0: Queue)
    returns (total: nat)
    requires page != [] && IsWorld(quiet, session.others)
    requires Ongoing(quiet, q0, session.log, store.View(), end, Working(page, next), before)
    modifies store, session
    ensures Ongoing(quiet, q0, session.log, store.View(), end, Reading(next), total)
  {
    total := before;
    var i := 0;
    while i < |page|
      invariant i <= |page|
      invariant Ongoing(quiet, q0, session.log, store.View(), end, if i < |page| then Working(page[i..], next) else Reading(next), total)
    {
      assert page[i..][1..] == page[i + 1..];
      total := AskNext(store, session, page[i], page[i..], next, end, total, quiet, q0);
      i := i + 1;
    }
  }

  method ReadPage(store: RedisQueue.Store, session: Session, start: EntryId, end: EntryId, ghost before: nat, ghost quiet: bool, ghost q0: Queue)
    returns (page: seq<Item>)
    requires IsWorld(quiet, session.others)
    requires Ongoing(quiet, q0, session.log, store.View(), end, Reading(start), before)
    modifies store, session
    ensures page != [] ==> start <= page[|page| - 1].entry <= end
    ensures Ongoing(quiet, q0, session.log, store.View(), end,
                    if page == [] then Finished else Working(page, page[|page| - 1].entry + 1), before)
  {
    ghost var log, q := session.log, store.View();
    page := session.List(store, start, end, quiet);
    OngoingNext(quiet, q0, log, q, end, Reading(start), before, Listed(start, store.View()));
    if page != [] {
      PageAhead(store.v.dlq, start, end);
    }
  }

  /** One turn of the outer loop: read a page, and requeue what is on it. */
  method SweepPage(store: RedisQueue.Store, session: Session, start: EntryId, end: EntryId, before: nat, ghost quiet: bool, ghost q0: Queue)
    returns (more: bool, next: EntryId, total: nat)
    requires IsWorld(quiet, session.others)
    requires Ongoing(quiet, q0, session.log, store.View(), end, Reading(start), before)
    modifies store, session
    ensures if more then start < next <= end + 1 else next == start
    ensures Ongoing(quiet, q0, session.log, store.View(), end, if more then Reading(next) else Finished, total)
  {
    var page := ReadPage(store, session, start, end, before, quiet, q0);
    if page == [] {
      return false, start, before;
    }
    next := page[|page| - 1].entry + 1;
    total := RequeuePage(store, session, page, next, end, before, quiet, q0);
    more := true;
  }

  /** The outer loop: page after page, up to `end`. */
  method Sweep(store: RedisQueue.Store, session: Session, end: EntryId, ghost quiet: bool, ghost q0: Queue) returns (total: nat)
    requires IsWorld(quiet, session.others) && Ongoing(quiet, q0, session.log, store.View(), end, Reading(0), 0)
    modifies store, session
    ensures Ongoing(quiet, q0, session.log, store.View(), end, Finished, total)
  {
    var start, more := 0, true;
    total := 0;
    while more
      invariant start <= end + 1
      invariant Ongoing(quiet, q0, session.log, store.View(), end, if more then Reading(start) else Finished, total)
      decreases end + 1 - start, more
    {
      more, start, total := SweepPage(store, session, start, end, total, quiet, q0);
    }
  }

  /** `requeue_all`, with others acting before every one of its calls: it ends; its log is that of the
      procedure, run on the queue as it was at each call; it returns how many requeues were granted; and
      nothing is left of what the DLQ held when it began. */
  method RequeueAll(store: RedisQueue.Store, others: World, ghost quiet: bool) returns (total: nat, session: Session)
    requires VerdictsOk(store.v) && IsWorld(quiet, others)
    modifies store
    ensures fresh(session) && IsTrace(quiet, old(store.View()), session.log) && store.View() == AfterAll(old(store.View()), session.log)
    ensures if old(store.v).dlq == map[] then session.log == []
            else StageOf(session.log, Last(old(store.v).dlq, old(store.v).nextDead).value) == Finished
    ensures total == Granted(session.log)
    ensures forall d :: d in old(store.v).dlq ==> d !in store.v.dlq
  {
    ghost var q0 := store.View();
    session := new Session(others);
    var last := Last(store.v.dlq, store.v.nextDead);
    if last.None? {
      assert store.v.dlq == map[];
      return 0, session;
    }
    total := Sweep(store, session, last.value, quiet, q0);
    SweepLeavesNothing(quiet, q0, session.log, last.value);
  }

  lemma PageAhead(dlq: map<EntryId, DeadJob>, from: EntryId, end: EntryId)
    requires PageAt(dlq, from, end) != []
    ensures var page := PageAt(dlq, from, end); from <= page[|page| - 1].entry <= end
  {
    var ids := Page(dlq, from, end, PAGE);
    assert ids[|ids| - 1] in ids;
  }

  lemma {:induction false} AscendingSize(ids: seq<EntryId>, all: set<EntryId>)
    requires Ascending(ids) && forall d :: d in ids ==> d in all
    ensures |ids| <= |all|
    decreases |ids|
  {
    if ids != [] {
      var last := ids[|ids| - 1];
      AscendingSize(ids[..|ids| - 1], all - {last});
    }
  }

  /** What such a log returns: at most as many as the DLQ held at first; and alone, exactly as many, the
      DLQ is empty, and every job that was dead is back on the stream, once, in order, with attempt 0. */
  lemma SweepTotal(quiet: bool, q0: Queue, log: seq<Call>, end: EntryId)
    requires VerdictsOk(q0.v) && end < q0.v.nextDead && (forall d :: d in q0.v.dlq ==> d <= end)
    requires IsTrace(quiet, q0, log) && StageOf(log, end) == Finished
    ensures Granted(log) <= |Visited(log)| <= |q0.v.dlq|
    ensures quiet ==> Granted(log) == |q0.v.dlq| && Swept(q0, AfterAll(q0, log), Visited(log)) && AfterAll(q0, log).v.dlq == map[]
  {
    SweepLeavesNothing(quiet, q0, log, end);
    GrantedAtMost(log);
    AscendingSize(Visited(log), q0.v.dlq.Keys);
    if quiet {
      AllGranted(q0, log, end);
      assert AfterAll(q0, log).v.dlq == map[];
    }
  }
}

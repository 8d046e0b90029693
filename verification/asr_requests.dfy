/**
 * Answers of the speech worker and the requests waiting for them
 * (src/asr/persistent-local-process-asr.ts:175-229, 312-340, 379-385). Each request has a timer.
 * Reading a line as a protocol message is a parameter. An error thrown while a line is handled is
 * caught nowhere, and the process ends (src/web/server/index.ts:28-31).
 */
module AsrRequests {
  import opened AsrLines
  import opened Text

  /** What a worker's answer carries: an error, a result that can be read, or one that cannot. */
  datatype Body = ErrorBody | Readable | Unreadable

  /** A protocol line: of no concern to the requests, the JSON text `null`, or an answer. */
  datatype Reply = Unrelated | NullReply | Reply(id: string, body: Body)

  datatype Outcome = Resolved | Rejected

  /** Request n was sent under `ids[n]`; `pending` finds it by that id; `timed` requests have a running timer. */
  datatype Requests = Requests(ids: seq<string>, pending: map<string, nat>, timed: set<nat>, settled: map<nat, Outcome>)

  const NO_REQUESTS := Requests([], map[], {}, map[])

  datatype Event =
    | Send(id: string)
    | Arrive(reply: Reply)
    | TimeOut(request: nat)
    | WriteFails(request: nat)
    | RejectAll

  /** A timer fires only while it runs; a write fails only for a request that was sent. */
  predicate Possible(r: Requests, e: Event) {
    match e
    case Send(id) => id != ""
    case TimeOut(n) => n in r.timed && n < |r.ids|
    case WriteFails(n) => n < |r.ids|
    case _ => true
  }

  /** A promise is settled once. */
  function Settle(settled: map<nat, Outcome>, n: nat, outcome: Outcome): map<nat, Outcome> {
    if n in settled then settled else settled[n := outcome]
  }

  function SettleAll(settled: map<nat, Outcome>, requests: set<nat>): map<nat, Outcome> {
    map n | n in settled.Keys + requests :: if n in settled then settled[n] else Rejected
  }

  /** The reply is an answer to a pending request. */
  predicate Answers(r: Requests, reply: Reply) {
    reply.Reply? && reply.id != "" && reply.id in r.pending
  }

  /** What an event does to the requests. */
  function After(r: Requests, e: Event): Requests
    requires Possible(r, e)
  {
    match e
    case Send(id) =>
      var n := |r.ids|;
      r.(ids := r.ids + [id], pending := r.pending[id := n], timed := r.timed + {n})
    case Arrive(reply) =>
      if !Answers(r, reply) then r
      else
        var n := r.pending[reply.id];
        r.(pending := r.pending - {reply.id}, timed := r.timed - {n},
           settled := match reply.body
                      case ErrorBody => Settle(r.settled, n, Rejected)
                      case Readable => Settle(r.settled, n, Resolved)
                      case Unreadable => r.settled)
    case TimeOut(n) =>
      r.(pending := r.pending - {r.ids[n]}, timed := r.timed - {n}, settled := Settle(r.settled, n, Rejected))
    case WriteFails(n) =>
      r.(pending := r.pending - {r.ids[n]}, timed := r.timed - {n}, settled := Settle(r.settled, n, Rejected))
    case RejectAll =>
      r.(pending := map[], timed := r.timed - r.pending.Values, settled := SettleAll(r.settled, r.pending.Values))
  }

  /** What holds in every state that can be reached: a pending entry is a timed request sent under that id. */
  ghost predicate Invariant(r: Requests) {
    && (forall id :: id in r.pending ==> r.pending[id] < |r.ids| && r.ids[r.pending[id]] == id && r.pending[id] in r.timed)
    && (forall n :: n in r.timed ==> n < |r.ids| && n !in r.settled)
    && (forall n :: n in r.settled ==> n < |r.ids|)
  }

  lemma InvariantKept(r: Requests, e: Event)
    requires Invariant(r) && Possible(r, e)
    ensures Invariant(After(r, e))
  {
    if e.RejectAll? {
      forall n | n in r.pending.Values ensures n < |r.ids| {
        var id :| id in r.pending && r.pending[id] == n;
      }
    } else if e.Arrive? && After(r, e) != r {
      PendingIsInjective(r);
    }
  }

  lemma PendingIsInjective(r: Requests)
    requires Invariant(r)
    ensures forall id, id' :: id in r.pending && id' in r.pending && r.pending[id] == r.pending[id'] ==> id == id'
  {
  }

  // ----- what an event does, request by request -----

  /** The event decides this request. */
  ghost predicate Decides(r: Requests, e: Event, n: nat, outcome: Outcome) {
    match e
    case Send(_) => false
    case Arrive(reply) =>
      reply.Reply? && reply.id != "" && reply.id in r.pending && r.pending[reply.id] == n
      && reply.body == if outcome == Resolved then Readable else ErrorBody
    case TimeOut(m) => m == n && outcome == Rejected
    case WriteFails(m) => m == n && outcome == Rejected
    case RejectAll => n in r.pending.Values && outcome == Rejected
  }

  /** After the event this id leads to no request any more. */
  ghost predicate Frees(r: Requests, e: Event, id: string) {
    match e
    case Send(_) => false
    case Arrive(reply) => reply.Reply? && reply.id != "" && reply.id == id
    case TimeOut(n) => n < |r.ids| && r.ids[n] == id
    case WriteFails(n) => n < |r.ids| && r.ids[n] == id
    case RejectAll => true
  }

  /** The event stops the timer of this request. */
  ghost predicate StopsTimer(r: Requests, e: Event, n: nat) {
    match e
    case Send(_) => false
    case Arrive(reply) => reply.Reply? && reply.id != "" && reply.id in r.pending && r.pending[reply.id] == n
    case TimeOut(m) => m == n
    case WriteFails(m) => m == n
    case RejectAll => n in r.pending.Values
  }

  /** What was settled stays so; an id newly sent leads to the latest request, with a timer running. */
  ghost predicate Does(r: Requests, e: Event, r': Requests) {
    && r'.ids == r.ids + (if e.Send? then [e.id] else [])
    && (forall n: nat, outcome :: (n in r'.settled && r'.settled[n] == outcome)
                                  <==> if n in r.settled then r.settled[n] == outcome else Decides(r, e, n, outcome))
    && (forall n: nat :: n in r'.timed <==> (e.Send? && n == |r.ids|) || (n in r.timed && !StopsTimer(r, e, n)))
    && forall id :: if e == Send(id) then id in r'.pending && r'.pending[id] == |r.ids|
                    else (id in r'.pending <==> id in r.pending && !Frees(r, e, id))
                         && (id in r'.pending ==> r'.pending[id] == r.pending[id])
  }

  lemma AfterDoes(r: Requests, e: Event)
    requires Possible(r, e)
    ensures Does(r, e, After(r, e))
  {
  }

  // ----- the end of the process -----

  /** Handling this reply throws: a null message, or a result for a pending request that is neither text nor object. */
  predicate Throws(r: Requests, reply: Reply) {
    reply == NullReply || (Answers(r, reply) && reply.body == Unreadable)
  }

  predicate Kills(r: Requests, e: Event) {
    e.Arrive? && Throws(r, e.reply)
  }

  /** The process with its requests; once it has ended they are as it left them. */
  datatype Process = Alive(requests: Requests) | Dead(requests: Requests)

  function Step(p: Process, e: Event): Process
    requires p.Alive? ==> Possible(p.requests, e)
  {
    if p.Dead? then p
    else if Kills(p.requests, e) then Dead(After(p.requests, e))
    else Alive(After(p.requests, e))
  }

  /** Neither settled nor timed. */
  predicate Hangs(r: Requests, n: nat) {
    n < |r.ids| && n !in r.settled && n !in r.timed
  }

  /** While the process lives a step leaves no request hanging; at its end just the one whose result could not be read. */
  lemma HangsIff(r: Requests, e: Event, n: nat)
    requires Invariant(r) && Possible(r, e) && !Hangs(r, n)
    ensures Hangs(After(r, e), n)
            <==> Kills(r, e) && e.reply != NullReply && n == r.pending[e.reply.id]
  {
  }

  predicate Feasible(p: Process, events: seq<Event>)
    decreases |events|
  {
    events == [] || ((p.Alive? ==> Possible(p.requests, events[0])) && Feasible(Step(p, events[0]), events[1..]))
  }

  function Run(p: Process, events: seq<Event>): Process
    requires Feasible(p, events)
    decreases |events|
  {
    if events == [] then p else Run(Step(p, events[0]), events[1..])
  }

  lemma {:induction false} RunInTwo(p: Process, events: seq<Event>, k: nat)
    requires Feasible(p, events) && k <= |events|
    ensures Feasible(p, events[..k]) && Feasible(Run(p, events[..k]), events[k..])
    ensures Run(p, events) == Run(Run(p, events[..k]), events[k..])
    decreases |events|
  {
    hide After, Kills, Possible, Step;
    if k == 0 {
      assert events[..0] == [] && events[0..] == events;
    } else {
      RunInTwo(Step(p, events[0]), events[1..], k - 1);
      assert events[..k][1..] == events[1..][..k - 1] && events[1..][k - 1..] == events[k..];
    }
  }

  lemma {:induction false} DeadStaysDead(p: Process, events: seq<Event>)
    requires p.Dead? && Feasible(p, events)
    ensures Run(p, events) == p
    decreases |events|
  {
    if events != [] {
      DeadStaysDead(p, events[1..]);
    }
  }

  /** Event `k` of the run throws. */
  ghost predicate ThrowsAt(p: Process, events: seq<Event>, k: nat)
    requires Feasible(p, events) && k < |events|
  {
    RunInTwo(p, events, k);
    Run(p, events[..k]).Alive? && Kills(Run(p, events[..k]).requests, events[k])
  }

  /** The process lives exactly as long as no reply is null or an unreadable result for a request that is pending then. */
  lemma SurvivesIff(p: Process, events: seq<Event>)
    requires p.Alive? && Feasible(p, events)
    ensures Run(p, events).Alive? <==> forall k: nat :: k < |events| ==> !ThrowsAt(p, events, k)
  {
    if k: nat :| k < |events| && ThrowsAt(p, events, k) {
      RunInTwo(p, events, k);
      var before := Run(p, events[..k]);
      assert events[k..][0] == events[k];
      DeadStaysDead(Step(before, events[k]), events[k..][1..]);
    } else {
      AliveUpTo(p, events, |events|);
      assert events[..|events|] == events;
    }
  }

  lemma {:induction false} AliveUpTo(p: Process, events: seq<Event>, k: nat)
    requires p.Alive? && Feasible(p, events) && k <= |events|
    requires forall j: nat :: j < |events| ==> !ThrowsAt(p, events, j)
    ensures Feasible(p, events[..k]) && Run(p, events[..k]).Alive?
  {
    RunInTwo(p, events, k);
    if k > 0 {
      AliveUpTo(p, events, k - 1);
      assert !ThrowsAt(p, events, k - 1);
      RunInTwo(p, events[..k], k - 1);
      assert events[..k][..k - 1] == events[..k - 1] && events[..k][k - 1..] == [events[k - 1]];
      assert [events[k - 1]][1..] == [];
    }
  }

  /** As long as the process lives every request is settled or its timer runs, after any sequence of steps. */
  lemma {:induction false} NoneHangs(p: Process, events: seq<Event>)
    requires Invariant(p.requests) && Feasible(p, events) && forall n :: !Hangs(p.requests, n)
    ensures Run(p, events).Alive? ==> forall n: nat :: n < |Run(p, events).requests.ids| ==>
              n in Run(p, events).requests.settled || n in Run(p, events).requests.timed
    decreases |events|
  {
    if events == [] {
      forall n: nat | n < |p.requests.ids| ensures n in p.requests.settled || n in p.requests.timed {
        assert !Hangs(p.requests, n);
      }
    } else if p.Alive? && !Kills(p.requests, events[0]) {
      InvariantKept(p.requests, events[0]);
      forall n ensures !Hangs(After(p.requests, events[0]), n) {
        HangsIff(p.requests, events[0], n);
      }
      NoneHangs(Step(p, events[0]), events[1..]);
    } else {
      DeadStaysDead(Step(p, events[0]), events[1..]);
    }
  }

  /** A settled request keeps its outcome. */
  lemma {:induction false} OutcomesAreFinal(p: Process, events: seq<Event>, n: nat)
    requires Invariant(p.requests) && Feasible(p, events) && n in p.requests.settled
    ensures Invariant(Run(p, events).requests)
    ensures n in Run(p, events).requests.settled && Run(p, events).requests.settled[n] == p.requests.settled[n]
    decreases |events|
  {
    if events != [] {
      if p.Alive? {
        InvariantKept(p.requests, events[0]);
        OneStepIsFinal(p.requests, events[0], n);
      }
      hide After, Invariant;
      OutcomesAreFinal(Step(p, events[0]), events[1..], n);
    }
  }

  lemma OneStepIsFinal(r: Requests, e: Event, n: nat)
    requires Possible(r, e) && n in r.settled
    ensures n in After(r, e).settled && After(r, e).settled[n] == r.settled[n]
  {
  }

  // ----- ids used twice -----

  /** The answer to this id reaches this request. */
  predicate Reachable(r: Requests, n: nat) {
    n < |r.ids| && r.ids[n] in r.pending && r.pending[r.ids[n]] == n
  }

  /** No id is sent again while a request under it still waits. */
  ghost predicate Unambiguous(r: Requests) {
    forall n :: n in r.timed ==> Reachable(r, n)
  }

  /** Every waiting request stays reachable by its answer exactly as long as no id is sent again before its request is settled. */
  lemma UnambiguousKeptIff(r: Requests, e: Event)
    requires Invariant(r) && Possible(r, e) && Unambiguous(r)
    ensures Unambiguous(After(r, e))
            <==> !(e.Send? && e.id in r.pending)
                 && !(e.WriteFails? && e.request !in r.timed && r.ids[e.request] in r.pending)
  {
    var r' := After(r, e);
    match e
    case Send(id) =>
      if id in r.pending {
        assert r.pending[id] in r'.timed && !Reachable(r', r.pending[id]);
      } else {
        forall n | n in r'.timed ensures Reachable(r', n) {
          assert n in r.timed ==> Reachable(r, n);
        }
      }
    case WriteFails(m) =>
      if m !in r.timed && r.ids[m] in r.pending {
        var n := r.pending[r.ids[m]];
        assert n in r'.timed && !Reachable(r', n);
      } else {
        KeptReachable(r, e);
      }
    case _ => KeptReachable(r, e);
  }

  lemma KeptReachable(r: Requests, e: Event)
    requires Invariant(r) && Possible(r, e) && Unambiguous(r) && !e.Send?
    requires e.WriteFails? ==> e.request in r.timed || r.ids[e.request] !in r.pending
    ensures Unambiguous(After(r, e))
  {
    var r' := After(r, e);
    forall n | n in r'.timed ensures Reachable(r', n) {
      assert n in r.timed;
      assert Reachable(r, n);
    }
  }

  /**
   * A request whose id was sent again takes the later one down with it: when its timer fires, the later
   * request can no longer be answered, only time out.
   */
  lemma ReusedIdLosesTheLater(r: Requests, id: string, reply: Reply)
    requires Invariant(r) && id != "" && id in r.pending && reply.Reply? && reply.id == id
    ensures var first, second := r.pending[id], |r.ids|;
            var r2 := After(After(r, Send(id)), TimeOut(first));
            && Possible(After(r, Send(id)), TimeOut(first))
            && second in r2.timed && !Reachable(r2, second)
            && After(r2, Arrive(reply)) == r2
  {
  }

  // ----- reading the stream -----

  /** A line as a message: blank lines are skipped, the rest is read without the blanks around it. */
  function ReadLine(line: string, parse: string -> Reply): Reply {
    var trimmed := Trim(line);
    if trimmed == "" then Unrelated else parse(trimmed)
  }

  ghost predicate ReadsAs(line: string, parse: string -> Reply, reply: Reply) {
    exists text, i: nat :: IsTrimmed(line, text, i) && reply == if text == "" then Unrelated else parse(text)
  }

  lemma ReadsIff(line: string, parse: string -> Reply, reply: Reply)
    ensures ReadsAs(line, parse, reply) <==> reply == ReadLine(line, parse)
  {
    var i := TrimIs(line);
    hide Trim, IsTrimmed;
    if ReadsAs(line, parse, reply) {
      var text, k: nat :| IsTrimmed(line, text, k) && reply == if text == "" then Unrelated else parse(text);
      TrimmedUnique(line, text, k, Trim(line), i);
    }
  }

  /** The lines handled in order, up to the first that throws. */
  function HandleLines(r: Requests, lines: seq<string>, parse: string -> Reply): Process
    decreases |lines|
  {
    if lines == [] then Alive(r)
    else
      var reply := ReadLine(lines[0], parse);
      if Throws(r, reply) then Dead(After(r, Arrive(reply))) else HandleLines(After(r, Arrive(reply)), lines[1..], parse)
  }

  /** The reading process: with the text kept for later while it lives. */
  datatype Reader = Reading(buffer: string, requests: Requests) | Ended(requests: Requests)

  /** One chunk: all complete lines are taken off the buffer before the first is handled. */
  function Feed(w: Reader, chunk: string, parse: string -> Reply): Reader {
    if w.Ended? then w
    else
      var lines := Split(w.buffer + chunk);
      var p := HandleLines(w.requests, Init(lines), parse);
      if p.Dead? then Ended(p.requests) else Reading(Last(lines), p.requests)
  }

  function Concat(chunks: seq<string>): string {
    if chunks == [] then "" else chunks[0] + Concat(chunks[1..])
  }

  function FeedAll(w: Reader, chunks: seq<string>, parse: string -> Reply): Reader
    decreases |chunks|
  {
    if chunks == [] then w else FeedAll(Feed(w, chunks[0], parse), chunks[1..], parse)
  }

  lemma {:induction false} HandleInTwo(r: Requests, a: seq<string>, b: seq<string>, parse: string -> Reply)
    ensures HandleLines(r, a + b, parse)
            == if HandleLines(r, a, parse).Dead? then HandleLines(r, a, parse)
               else HandleLines(HandleLines(r, a, parse).requests, b, parse)
    decreases |a|
  {
    hide After, ReadLine, Throws;
    if a == [] {
      assert a + b == b;
    } else {
      var reply := ReadLine(a[0], parse);
      assert (a + b)[0] == a[0] && (a + b)[1..] == a[1..] + b;
      HandleInTwo(After(r, Arrive(reply)), a[1..], b, parse);
    }
  }

  /** One chunk after another is the same as both at once, also when a line in the first throws. */
  lemma FeedTwice(w: Reader, a: string, b: string, parse: string -> Reply)
    ensures Feed(Feed(w, a, parse), b, parse) == Feed(w, a + b, parse)
  {
    hide Split, HandleLines;
    if w.Reading? {
      var s := w.buffer + a;
      assert w.buffer + (a + b) == s + b;
      SplitAppend(s, b);
      var rest := Split(Last(Split(s)) + b);
      var all := Split(s + b);
      assert Last(all) == Last(rest);
      assert Init(all) == Init(Split(s)) + Init(rest);
      HandleInTwo(w.requests, Init(Split(s)), Init(rest), parse);
    }
  }

  /**
   * However the worker's output is cut into chunks, the requests, the kept text and whether the process
   * still lives are those of the whole text handled at once.
   */
  lemma {:induction false} StreamIsBatch(w: Reader, chunks: seq<string>, parse: string -> Reply)
    requires chunks != []
    ensures FeedAll(w, chunks, parse) == Feed(w, Concat(chunks), parse)
    decreases |chunks|
  {
    if |chunks| == 1 {
      assert Concat(chunks[1..]) == "" && chunks[0] + "" == chunks[0];
    } else {
      FeedTwice(w, chunks[0], Concat(chunks[1..]), parse);
      StreamIsBatch(Feed(w, chunks[0], parse), chunks[1..], parse);
      hide Feed;
    }
  }

  /** Line `k` of the lines is reached and throws. */
  predicate LineThrows(r: Requests, lines: seq<string>, k: nat, parse: string -> Reply)
    requires k < |lines|
  {
    var p := HandleLines(r, lines[..k], parse);
    p.Alive? && Throws(p.requests, ReadLine(lines[k], parse))
  }

  /** The reader lives on exactly when none of the complete lines throws. */
  lemma {:induction false} ReaderSurvivesIff(r: Requests, lines: seq<string>, parse: string -> Reply)
    ensures HandleLines(r, lines, parse).Alive? <==> forall k: nat :: k < |lines| ==> !LineThrows(r, lines, k, parse)
    decreases |lines|
  {
    hide After, ReadLine, Throws;
    if lines != [] {
      var n := |lines| - 1;
      ReaderSurvivesIff(r, lines[..n], parse);
      assert lines == lines[..n] + [lines[n]];
      HandleInTwo(r, lines[..n], [lines[n]], parse);
      assert [lines[n]][1..] == [];
      forall k: nat | k < n ensures LineThrows(r, lines, k, parse) <==> LineThrows(r, lines[..n], k, parse) {
        assert lines[..n][..k] == lines[..k];
      }
      if HandleLines(r, lines, parse).Dead? && HandleLines(r, lines[..n], parse).Alive? {
        assert LineThrows(r, lines, n, parse);
      }
    }
  }

  // ----- the service -----

  ghost function Found(pending: map<string, nat>, ids: set<string>): set<nat>
    requires ids <= pending.Keys
  {
    set id | id in ids :: pending[id]
  }

  lemma FoundSplits(pending: map<string, nat>, ids: set<string>, id: string)
    requires ids <= pending.Keys && id in ids
    ensures Found(pending, ids) == {pending[id]} + Found(pending, ids - {id})
  {
    assert ids == {id} + (ids - {id});
  }

  lemma FoundAll(pending: map<string, nat>)
    ensures Found(pending, pending.Keys) == pending.Values
  {
  }

  lemma NoneFound(pending: map<string, nat>)
    ensures Found(pending, {}) == {}
  {
  }

  lemma SettleNone(settled: map<nat, Outcome>)
    ensures SettleAll(settled, {}) == settled
  {
  }

  lemma SettleOneMore(settled: map<nat, Outcome>, done: set<nat>, n: nat)
    ensures Settle(SettleAll(settled, done), n, Rejected) == SettleAll(settled, done + {n})
  {
  }

  class PersistentWorker {
    var stdoutBuffer: string
    var requests: Requests
    var alive: bool

    function State(): Reader
      reads this
    {
      if alive then Reading(stdoutBuffer, requests) else Ended(requests)
    }

    constructor ()
      ensures State() == Reading("", NO_REQUESTS)
    {
      stdoutBuffer := "";
      requests := NO_REQUESTS;
      alive := true;
    }

    /** Handles one protocol line; the error that it may throw ends the process. */
    method HandleProtocolLine(line: string, parse: string -> Reply)
      requires alive
      modifies this`requests, this`alive
      ensures requests == After(old(requests), Arrive(ReadLine(line, parse)))
      ensures alive <==> !Throws(old(requests), ReadLine(line, parse))
      ensures exists reply :: && ReadsAs(line, parse, reply) && Does(old(requests), Arrive(reply), requests)
                              && (!alive <==> reply == NullReply
                                              || (reply.Reply? && reply.body == Unreadable && reply.id != ""
                                                  && reply.id in old(requests).pending))
    {
      hide Does, ReadsAs;
      ReadsIff(line, parse, ReadLine(line, parse));
      AfterDoes(requests, Arrive(ReadLine(line, parse)));
      var trimmed := Trim(line);
      if trimmed == "" {
        return;
      }
      var reply := parse(trimmed);
      if reply == NullReply {
        alive := false;
        return;
      }
      if reply.Unrelated? || reply.id == "" || reply.id !in requests.pending {
        return;
      }
      var n := requests.pending[reply.id];
      requests := requests.(pending := requests.pending - {reply.id});
      requests := requests.(timed := requests.timed - {n});
      if reply.body == ErrorBody {
        requests := requests.(settled := Settle(requests.settled, n, Rejected));
        return;
      }
      if reply.body == Unreadable {
        alive := false;
        return;
      }
      requests := requests.(settled := Settle(requests.settled, n, Resolved));
    }

    /** One chunk of the worker's output. */
    method HandleStdout(chunk: string, parse: string -> Reply)
      requires alive
      modifies this
      ensures State() == Feed(old(State()), chunk, parse)
    {
      hide After, ReadLine, Throws, Split;
      stdoutBuffer := stdoutBuffer + chunk;
      var lines := Split(stdoutBuffer);
      stdoutBuffer := Last(lines);
      var complete := Init(lines);
      var i := 0;
      while i < |complete|
        invariant 0 <= i <= |complete| && alive
        invariant stdoutBuffer == Last(lines)
        invariant HandleLines(requests, complete[i..], parse) == HandleLines(old(requests), complete, parse)
      {
        assert complete[i..][0] == complete[i] && complete[i..][1..] == complete[i + 1..];
        HandleProtocolLine(complete[i], parse);
        if !alive {
          return;
        }
        i := i + 1;
      }
    }

    /** A request written to the worker. */
    method SendRequest(id: string) returns (request: nat)
      requires id != ""
      modifies this`requests
      ensures requests == After(old(requests), Send(id)) && request == |old(requests).ids|
      ensures Does(old(requests), Send(id), requests)
    {
      AfterDoes(requests, Send(id));
      request := |requests.ids|;
      requests := requests.(ids := requests.ids + [id], timed := requests.timed + {request});
      requests := requests.(pending := requests.pending[id := request]);
    }

    /** Every pending request is rejected, in any order. */
    method RejectAllPending()
      modifies this`requests
      ensures requests == After(old(requests), RejectAll)
      ensures Does(old(requests), RejectAll, requests)
    {
      hide SettleAll, Settle, Found, Does;
      AfterDoes(requests, RejectAll);
      var ids := requests.pending.Keys;
      var pending, timed, settled := requests.pending, requests.timed, requests.settled;
      ghost var done: set<nat> := {};
      FoundAll(pending);
      SettleNone(settled);
      while ids != {}
        invariant ids <= pending.Keys
        invariant done + Found(pending, ids) == pending.Values
        invariant requests.ids == old(requests).ids && requests.pending == pending
        invariant requests.timed == timed - done && requests.settled == SettleAll(settled, done)
        decreases |ids|
      {
        var id :| id in ids;
        var n := pending[id];
        FoundSplits(pending, ids, id);
        SettleOneMore(settled, done, n);
        ids := ids - {id};
        requests := requests.(timed := requests.timed - {n}, settled := Settle(requests.settled, n, Rejected));
        done := done + {n};
      }
      NoneFound(pending);
      assert done == pending.Values;
      requests := requests.(pending := map[]);
    }
  }
}

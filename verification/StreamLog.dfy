/** The replayable stream log: an append-only file of newline-terminated records that any number of
    subscribers read from the start, however late they join. */
module StreamLog {
  import opened Prelude

  // ---------------------------------------------------------------- records

  /** One encoded event: its only newline is at the end. */
  predicate Payload(p: string) {
    p != [] && p[|p| - 1] == '\n' && '\n' !in p[..|p| - 1]
  }

  /** The part of a log up to and including its first newline. */
  function FirstLine(s: string): (line: string)
    ensures |line| <= |s| && line == s[..|line|]
    ensures s != [] ==> line != []
  {
    if s == [] then [] else if s[0] == '\n' then s[..1] else [s[0]] + FirstLine(s[1..])
  }

  function Records(s: string): seq<string>
    decreases |s|
  {
    if s == [] then [] else [FirstLine(s)] + Records(s[|FirstLine(s)|..])
  }

  /** Every record of the log is complete. */
  predicate Whole(s: string) {
    s == [] || s[|s| - 1] == '\n'
  }

  lemma FirstLineUnfold(s: string)
    requires s != []
    ensures FirstLine(s) == if s[0] == '\n' then [s[0]] else [s[0]] + FirstLine(s[1..])
  {
  }

  lemma NewlineFirst(a: string)
    requires a != [] && a[0] == '\n' && Whole(a)
    ensures Payload([a[0]]) && Whole(a[1..])
  {
  }

  lemma WholeTail(a: string)
    requires a != [] && a[0] != '\n' && Whole(a)
    ensures a[1..] != [] && Whole(a[1..])
  {
  }

  lemma PayloadCons(x: char, rest: string)
    requires x != '\n' && Payload(rest)
    ensures Payload([x] + rest)
  {
    assert ([x] + rest)[..|rest|] == [x] + rest[..|rest| - 1];
  }

  lemma {:induction false} FirstLineOfAppend(a: string, b: string)
    requires a != [] && Whole(a)
    ensures FirstLine(a + b) == FirstLine(a) && Payload(FirstLine(a)) && Whole(a[|FirstLine(a)|..])
  {
    hide FirstLine, Payload, Whole;
    FirstLineUnfold(a);
    FirstLineUnfold(a + b);
    if a[0] == '\n' {
      NewlineFirst(a);
    } else {
      WholeTail(a);
      FirstLineOfAppend(a[1..], b);
      assert (a + b)[1..] == a[1..] + b;
      var rest := FirstLine(a[1..]);
      PayloadCons(a[0], rest);
      assert a[1 + |rest|..] == a[1..][|rest|..];
    }
  }

  lemma RecordsUnfold(a: string)
    requires a != []
    ensures Records(a) == [FirstLine(a)] + Records(a[|FirstLine(a)|..])
  {
  }

  lemma RecordsStep(a: string, b: string)
    requires a != [] && Whole(a)
    requires Records(a[|FirstLine(a)|..] + b) == Records(a[|FirstLine(a)|..]) + Records(b)
    ensures Records(a + b) == Records(a) + Records(b)
  {
    hide *;
    FirstLineOfAppend(a, b);
    var n := |FirstLine(a)|;
    assert (a + b)[n..] == a[n..] + b;
    RecordsUnfold(a);
    RecordsUnfold(a + b);
    var first, middle, last := [FirstLine(a)], Records(a[n..]), Records(b);
    assert first + (middle + last) == (first + middle) + last;
  }

  lemma {:induction false} RecordsOfAppend(a: string, b: string)
    requires Whole(a)
    ensures Records(a + b) == Records(a) + Records(b)
    decreases |a|
  {
    if a == [] {
      assert a + b == b;
    } else {
      hide *;
      FirstLineOfAppend(a, b);
      FirstLineNonempty(a);
      RecordsOfAppend(a[|FirstLine(a)|..], b);
      RecordsStep(a, b);
    }
  }

  lemma FirstLineNonempty(a: string)
    requires a != []
    ensures 0 < |FirstLine(a)| <= |a|
  {
  }

  lemma {:induction false} FirstLineOfPayload(p: string)
    requires Payload(p)
    ensures FirstLine(p) == p
  {
    if |p| > 1 {
      assert p[0] in p[..|p| - 1];
      assert p[1..][..|p| - 2] == p[..|p| - 1][1..];
      FirstLineOfPayload(p[1..]);
    }
  }

  lemma PayloadIsOneRecord(p: string)
    requires Payload(p)
    ensures Records(p) == [p]
  {
    FirstLineOfPayload(p);
    assert p[|p|..] == [];
  }

  /** Putting the records together gives back the log. */
  function Flat(records: seq<string>): string {
    if records == [] then [] else records[0] + Flat(records[1..])
  }

  /** Putting the records together gives back the log. */
  lemma {:induction false} RecordsAreTheLog(s: string)
    ensures Flat(Records(s)) == s
    decreases |s|
  {
    if s != [] {
      hide *;
      FirstLineNonempty(s);
      RecordsAreTheLog(s[|FirstLine(s)|..]);
      FlatStep(s);
    }
  }

  lemma FlatStep(s: string)
    requires s != [] && |FirstLine(s)| <= |s| && Flat(Records(s[|FirstLine(s)|..])) == s[|FirstLine(s)|..]
    ensures Flat(Records(s)) == s
  {
    hide *;
    FirstLineStarts(s);
    RecordsUnfold(s);
    FlatUnfold(FirstLine(s), Records(s[|FirstLine(s)|..]));
  }

  lemma FirstLineStarts(s: string)
    requires |FirstLine(s)| <= |s|
    ensures FirstLine(s) + s[|FirstLine(s)|..] == s
  {
    var line := FirstLine(s);
    assert line == s[..|line|];
  }

  lemma FlatUnfold(first: string, rest: seq<string>)
    ensures Flat([first] + rest) == first + Flat(rest)
  {
    assert ([first] + rest)[1..] == rest;
  }

  // ---------------------------------------------------------------- one session's state

  /** Where a subscriber is: between two reads, waiting for a wake-up, or on its way out. */
  datatype Stage = Looping | Waiting | Ending(complete: bool)

  /** `woken` is the one-place queue of a subscriber. */
  datatype Reader = Reader(position: nat, received: seq<string>, stage: Stage, woken: bool)

  datatype Gone = Gone(received: seq<string>, complete: bool)

  /** `left` only observes: what each subscriber had received when it left, and whether it had ended because
      the run was done. */
  datatype Stream = Stream(log: string, closed: bool, logOpen: bool, done: bool, readers: map<nat, Reader>,
      left: map<nat, Gone>)

  const FRESH := Stream("", false, true, false, map[], map[])

  datatype Step =
    | Push(payload: string)
    | Join(id: nat)
    | ReadNext(id: nat)
    | Wake(id: nat, timeout: bool)
    | Stop(id: nat)
    | Leave(id: nat)
    | Finish
    | Close

  /** Events are pushed by the run, before it is done. */
  predicate Enabled(v: Stream, step: Step) {
    match step
    case Push(p) => Payload(p) && !v.done && v.logOpen
    case Join(id) => id !in v.readers && id !in v.left
    case ReadNext(id) => id in v.readers && v.readers[id].stage.Looping? && v.readers[id].position <= |v.log|
    case Wake(id, timeout) => id in v.readers && v.readers[id].stage.Waiting? && (timeout || v.readers[id].woken)
    case Stop(id) => id in v.readers && !v.readers[id].stage.Ending?
    case Leave(id) => id in v.readers && v.readers[id].stage.Ending?
    case Finish => true
    case Close => true
  }

  function AfterRead(v: Stream, r: Reader): Reader
    requires r.position <= |v.log|
  {
    var line := FirstLine(v.log[r.position..]);
    if line != [] then r.(position := r.position + |line|, received := r.received + [line])
    else r.(stage := if v.done then Ending(true) else Waiting)
  }

  function Stepped(v: Stream, step: Step): Stream
    requires Enabled(v, step)
  {
    match step
    case Push(p) => v.(log := v.log + p, readers := map id | id in v.readers :: v.readers[id].(woken := true))
    case Join(id) => if v.closed then v else v.(readers := v.readers[id := Reader(0, [], Looping, false)])
    case ReadNext(id) => v.(readers := v.readers[id := AfterRead(v, v.readers[id])])
    case Wake(id, timeout) => v.(readers := v.readers[id := v.readers[id].(stage := Looping, woken := timeout
        && v.readers[id].woken)])
    case Stop(id) => v.(readers := v.readers[id := v.readers[id].(stage := Ending(false))])
    case Leave(id) =>
      v.(readers := v.readers - {id}, logOpen := v.logOpen && !(v.closed && v.readers - {id} == map[]),
         left := v.left[id := Gone(v.readers[id].received, v.readers[id].stage.complete)])
    case Finish => v.(done := true)
    case Close => v.(closed := true, logOpen := v.logOpen && v.readers != map[])
  }

  // ---------------------------------------------------------------- invariant

  /** The cursor is on a record boundary, and the records before it are what the subscriber has received. */
  ghost predicate ReaderOk(v: Stream, r: Reader) {
    && r.position <= |v.log| && Whole(v.log[..r.position]) && r.received == Records(v.log[..r.position])
    && (r.stage.Waiting? && !r.woken ==> r.position == |v.log|)
    && (r.stage == Ending(true) ==> v.done && r.position == |v.log|)
  }

  ghost predicate StreamOk(v: Stream) {
    && Whole(v.log)
    && (forall id :: id in v.readers ==> ReaderOk(v, v.readers[id]))
    && (!v.logOpen ==> v.closed && v.readers == map[])
    && (forall id :: id in v.left ==> v.left[id].received <= Records(v.log))
    && (forall id :: id in v.left && v.left[id].complete ==> v.done && v.left[id].received == Records(v.log))
  }

  lemma ReceivedPrefix(v: Stream, r: Reader)
    requires ReaderOk(v, r)
    ensures r.received <= Records(v.log)
    ensures r.position == |v.log| ==> r.received == Records(v.log)
  {
    assert v.log == v.log[..r.position] + v.log[r.position..];
    RecordsOfAppend(v.log[..r.position], v.log[r.position..]);
    assert r.position == |v.log| ==> v.log[..r.position] == v.log;
  }

  /** The log before a cursor, its next line, and what follows. */
  lemma WholeRest(log: string, p: nat)
    requires Whole(log) && p < |log|
    ensures Whole(log[p..]) && log[p..] != []
  {
  }

  lemma WholeJoin(a: string, b: string)
    ensures Payload(b) ==> Whole(a + b) && Whole(b) && b != []
  {
  }

  lemma NextLine(log: string, p: nat)
    requires Whole(log) && p < |log| && Whole(log[..p])
    ensures var line := FirstLine(log[p..]);
            && line != [] && p + |line| <= |log| && log[..p + |line|] == log[..p] + line && Whole(log[..p + |line|])
            && Records(log[..p + |line|]) == Records(log[..p]) + [line]
  {
    hide FirstLine, Records, Whole, Payload;
    var rest := log[p..];
    WholeRest(log, p);
    FirstLineOfAppend(rest, []);
    assert rest + [] == rest;
    var line := FirstLine(rest);
    FirstLineNonempty(rest);
    assert log[..p + |line|] == log[..p] + line;
    WholeJoin(log[..p], line);
    RecordsOfAppend(log[..p], line);
    PayloadIsOneRecord(line);
  }

  lemma RecordAt(log: string, p: nat)
    requires p < |log| && Whole(log[..p])
    ensures |Records(log[..p])| < |Records(log)| && Records(log)[|Records(log[..p])|] == FirstLine(log[p..])
  {
    hide FirstLine;
    assert log == log[..p] + log[p..];
    RecordsOfAppend(log[..p], log[p..]);
  }

  /** A read takes exactly the next record of the log. */
  lemma ReadTakesNext(v: Stream, r: Reader)
    requires Whole(v.log) && ReaderOk(v, r) && r.stage.Looping?
    ensures ReaderOk(v, AfterRead(v, r))
    ensures r.position < |v.log| ==>
              && |r.received| < |Records(v.log)|
              && AfterRead(v, r).received == r.received + [Records(v.log)[|r.received|]]
  {
    hide FirstLine, Records, Whole;
    if r.position < |v.log| {
      NextLine(v.log, r.position);
      RecordAt(v.log, r.position);
    } else {
      assert v.log[r.position..] == [];
    }
  }

  lemma PushKeeps(v: Stream, p: string)
    requires StreamOk(v) && Enabled(v, Push(p))
    ensures StreamOk(Stepped(v, Push(p))) && Records(Stepped(v, Push(p)).log) == Records(v.log) + [p]
  {
    RecordsOfAppend(v.log, p);
    PayloadIsOneRecord(p);
    var v' := Stepped(v, Push(p));
    forall id | id in v'.readers ensures ReaderOk(v', v'.readers[id]) {
      assert v'.log[..v.readers[id].position] == v.log[..v.readers[id].position];
    }
  }

  lemma LeaveKeeps(v: Stream, id: nat)
    requires StreamOk(v) && Enabled(v, Leave(id))
    ensures StreamOk(Stepped(v, Leave(id)))
  {
    ReceivedPrefix(v, v.readers[id]);
  }

  /** A step that changes one reader only keeps the others, and the rest. */
  lemma OneReaderChanges(v: Stream, id: nat, r: Reader)
    requires StreamOk(v) && v.logOpen && ReaderOk(v, r)
    ensures StreamOk(v.(readers := v.readers[id := r]))
  {
    var v' := v.(readers := v.readers[id := r]);
    forall x | x in v'.readers ensures ReaderOk(v', v'.readers[x]) {
      assert ReaderOk(v, v'.readers[x]);
    }
  }

  lemma OneReaderKeeps(v: Stream, step: Step)
    requires StreamOk(v) && Enabled(v, step) && (step.Join? || step.ReadNext? || step.Wake? || step.Stop?)
    ensures StreamOk(Stepped(v, step))
  {
    assert v.log[..0] == [];
    if step.Join? {
      if !v.closed {
        OneReaderChanges(v, step.id, Reader(0, [], Looping, false));
      }
    } else {
      var r := v.readers[step.id];
      assert ReaderOk(v, r);
      if step.ReadNext? {
        ReadTakesNext(v, r);
        OneReaderChanges(v, step.id, AfterRead(v, r));
      } else if step.Wake? {
        OneReaderChanges(v, step.id, r.(stage := Looping, woken := step.timeout && r.woken));
      } else {
        OneReaderChanges(v, step.id, r.(stage := Ending(false)));
      }
    }
  }

  /** A subscriber starts at the beginning with nothing received, and only reading gives it anything. */
  lemma StepGives(v: Stream, step: Step, id: nat)
    requires Enabled(v, step)
    ensures step == Join(id) && !v.closed ==>
              id in Stepped(v, step).readers && Stepped(v, step).readers[id] == Reader(0, [], Looping, false)
    ensures id in v.readers && id in Stepped(v, step).readers && step != ReadNext(id) ==>
              && Stepped(v, step).readers[id].received == v.readers[id].received
              && Stepped(v, step).readers[id].position == v.readers[id].position
    ensures step == Leave(id) ==>
              && id !in Stepped(v, step).readers && id in Stepped(v, step).left
              && Stepped(v, step).left[id].received == v.readers[id].received
    ensures step.Wake? && step.id == id ==>
              && Stepped(v, step).readers[id].stage == Looping
              && (Stepped(v, step).readers[id].woken <==> step.timeout && v.readers[id].woken)
    ensures Stepped(v, step).done <==> v.done || step.Finish?
    ensures Stepped(v, step).closed <==> v.closed || step.Close?
    ensures step.Push? ==> forall r :: r in v.readers ==>
              r in Stepped(v, step).readers && Stepped(v, step).readers[r].woken
  {
  }

  lemma StepKeeps(v: Stream, step: Step)
    requires StreamOk(v) && Enabled(v, step)
    ensures StreamOk(Stepped(v, step))
  {
    match step
    case Push(p) => PushKeeps(v, p);
    case Leave(id) => LeaveKeeps(v, id);
    case Finish =>
    case Close =>
    case _ => OneReaderKeeps(v, step);
  }

  // ---------------------------------------------------------------- every run

  ghost predicate Run(run: seq<Stream>, steps: seq<Step>) {
    && |run| == |steps| + 1 && run[0] == FRESH
    && forall i :: 0 <= i < |steps| ==> Enabled(run[i], steps[i]) && run[i + 1] == Stepped(run[i], steps[i])
  }

  lemma {:induction false} RunKeeps(run: seq<Stream>, steps: seq<Step>, i: nat)
    requires Run(run, steps) && i < |run|
    ensures StreamOk(run[i])
  {
    if i > 0 {
      RunKeeps(run, steps, i - 1);
      StepKeeps(run[i - 1], steps[i - 1]);
    }
  }

  /** In every reachable state each subscriber has received a prefix of the log, in order and without
      repeats: put together it is the log up to its cursor. */
  lemma SubscriberSeesPrefix(run: seq<Stream>, steps: seq<Step>, i: nat, id: nat)
    requires Run(run, steps) && i < |run| && id in run[i].readers
    ensures var v, r := run[i], run[i].readers[id];
            r.received <= Records(v.log) && r.position <= |v.log| && Flat(r.received) == v.log[..r.position]
  {
    RunKeeps(run, steps, i);
    ReceivedPrefix(run[i], run[i].readers[id]);
    RecordsAreTheLog(run[i].log[..run[i].readers[id].position]);
  }

  /** A subscriber that ended because the run was done has received the whole log, for good, however
      late it joined. */
  lemma LateJoinersMissNothing(run: seq<Stream>, steps: seq<Step>, i: nat, id: nat)
    requires Run(run, steps) && i < |run| && id in run[i].left && run[i].left[id].complete
    ensures run[i].left[id].received == Records(run[i].log) && run[i].done
  {
    RunKeeps(run, steps, i);
  }

  /** The log is open as long as anybody is subscribed, and who waits behind it has a wake-up coming. */
  lemma LogOpenForSubscribers(run: seq<Stream>, steps: seq<Step>, i: nat, id: nat)
    requires Run(run, steps) && i < |run| && id in run[i].readers
    ensures run[i].logOpen
    ensures run[i].readers[id].stage.Waiting? && run[i].readers[id].position < |run[i].log| ==> run[i].readers[id].woken
  {
    RunKeeps(run, steps, i);
  }

  /** Once closed, the log itself is closed exactly when nobody is subscribed. */
  lemma {:induction false} ClosedWhenUnused(run: seq<Stream>, steps: seq<Step>, i: nat)
    requires Run(run, steps) && i < |run|
    ensures !run[i].logOpen <==> run[i].closed && run[i].readers == map[]
  {
    if i > 0 {
      ClosedWhenUnused(run, steps, i - 1);
    }
  }

  // ---------------------------------------------------------------- everybody gets to the end

  /** How far a subscriber is from its end once nothing more is pushed. */
  function ToGo(v: Stream, r: Reader): nat
    requires r.position <= |v.log|
  {
    3 * (|v.log| - r.position) + match r.stage case Waiting => 2 case Looping => 1 case Ending(_) => 0
  }

  /** The reading and waiting of subscriber `id`. */
  predicate Own(step: Step, id: nat) {
    step == ReadNext(id) || (step.Wake? && step.id == id)
  }

  /** Once the run is done a subscriber that has not ended always has a step of its own, at the latest when its wait
      times out, and each such step brings it nearer to its end, which is then a complete one. */
  lemma DoneMovesOn(v: Stream, id: nat, step: Step)
    requires StreamOk(v) && v.done && id in v.readers && !v.readers[id].stage.Ending?
    ensures Enabled(v, ReadNext(id)) || Enabled(v, Wake(id, true))
    ensures Enabled(v, step) && Own(step, id) ==>
              var v' := Stepped(v, step);
              && v'.done && id in v'.readers && v'.log == v.log && v'.readers[id].position <= |v'.log|
              && ToGo(v', v'.readers[id]) < ToGo(v, v.readers[id])
              && (v'.readers[id].stage.Ending? ==> v'.readers[id].stage == Ending(true))
  {
    assert ReaderOk(v, v.readers[id]);
    if step == ReadNext(id) && Enabled(v, step) {
      DoneReads(v, v.readers[id]);
    }
    hide AfterRead, FirstLine, Records, Whole;
  }

  lemma DoneReads(v: Stream, r: Reader)
    requires v.done && r.stage.Looping? && r.position <= |v.log|
    ensures AfterRead(v, r).position <= |v.log| && ToGo(v, AfterRead(v, r)) < ToGo(v, r)
    ensures AfterRead(v, r).stage.Ending? ==> AfterRead(v, r).stage == Ending(true)
  {
    hide FirstLine;
    if r.position < |v.log| {
      FirstLineNonempty(v.log[r.position..]);
    } else {
      FirstLineOfNothing(v.log[r.position..]);
    }
  }

  lemma FirstLineOfNothing(s: string)
    requires s == []
    ensures FirstLine(s) == []
  {
  }

  /** Nobody is ever stuck: a subscriber reads, or waits no longer than its timeout, or leaves; it may be stopped at
      any time, anybody may join, and the run may push until it is done. */
  lemma NobodyIsStuck(v: Stream, id: nat, payload: string)
    requires StreamOk(v)
    ensures id in v.readers ==>
              match v.readers[id].stage
              case Looping => Enabled(v, ReadNext(id)) && Enabled(v, Stop(id))
              case Waiting => Enabled(v, Wake(id, true)) && Enabled(v, Stop(id))
                && (v.readers[id].woken ==> Enabled(v, Wake(id, false)))
              case Ending(_) => Enabled(v, Leave(id))
    ensures id !in v.readers && id !in v.left ==> Enabled(v, Join(id))
    ensures Payload(payload) && !v.done && !v.closed ==> Enabled(v, Push(payload))
    ensures Enabled(v, Finish) && Enabled(v, Close)
  {
    if id in v.readers {
      assert ReaderOk(v, v.readers[id]);
    }
  }

  /** All that others do leaves it where it is. */
  lemma OthersDoNotDelay(v: Stream, id: nat, step: Step)
    requires v.done && id in v.readers && Enabled(v, step) && !Own(step, id) && step != Stop(id) && step != Leave(id)
    ensures var v' := Stepped(v, step);
            && v'.done && v'.log == v.log && id in v'.readers
            && v'.readers[id].position == v.readers[id].position && v'.readers[id].stage == v.readers[id].stage
  {
  }

  function OwnSteps(steps: seq<Step>, id: nat): nat {
    if steps == [] then 0
    else OwnSteps(steps[..|steps| - 1], id) + if Own(steps[|steps| - 1], id) then 1 else 0
  }

  /** From the time the run is done: a subscriber that is not stopped ends complete, after no more steps of its own
      than three for each character still to read and two. */
  lemma {:induction false} DoneSubscribersEnd(run: seq<Stream>, steps: seq<Step>, i: nat, j: nat, id: nat)
    requires Run(run, steps) && i <= j < |run| && run[i].done && id in run[i].readers
    requires !run[i].readers[id].stage.Ending?
    requires forall k :: i <= k < j ==> steps[k] != Stop(id) && steps[k] != Leave(id)
    ensures run[j].done && run[j].log == run[i].log
    ensures id in run[j].readers && run[j].readers[id].position <= |run[j].log|
    ensures run[j].readers[id].stage.Ending? ==> run[j].readers[id].stage == Ending(true)
    ensures run[i].readers[id].position <= |run[i].log|
    ensures OwnSteps(steps[i..j], id) + ToGo(run[j], run[j].readers[id]) <= ToGo(run[i], run[i].readers[id])
  {
    hide StreamOk, Stepped, Enabled;
    RunKeeps(run, steps, i);
    ReadersOk(run[i], id);
    if i < j {
      DoneSubscribersEnd(run, steps, i, j - 1, id);
      RunKeeps(run, steps, j - 1);
      assert steps[i..j][..j - 1 - i] == steps[i..j - 1] && steps[i..j][j - 1 - i] == steps[j - 1];
      if Own(steps[j - 1], id) {
        if run[j - 1].readers[id].stage.Ending? {
          EndedIsIdle(run[j - 1], steps[j - 1], id);
        } else {
          DoneMovesOn(run[j - 1], id, steps[j - 1]);
        }
      } else {
        OthersDoNotDelay(run[j - 1], id, steps[j - 1]);
      }
    }
  }

  lemma ReadersOk(v: Stream, id: nat)
    requires StreamOk(v) && id in v.readers
    ensures v.readers[id].position <= |v.log|
  {
  }

  lemma EndedIsIdle(v: Stream, step: Step, id: nat)
    requires id in v.readers && v.readers[id].stage.Ending? && Own(step, id)
    ensures !Enabled(v, step)
  {
  }

  // ---------------------------------------------------------------- the session object

  class ChatStreamSession {
    const threadId: string
    var eventLog: string
    var logOpen: bool
    var closed: bool
    var done: bool
    var queues: map<nat, bool>
    var superseded: bool
    /** The run has been asked to stop; it stops at its next await. */
    var cancelling: bool
    ghost var readers: map<nat, Reader>
    ghost var left: map<nat, Gone>

    ghost predicate Valid()
      reads this
    {
      && StreamOk(Value())
      && queues.Keys == readers.Keys && (forall id :: id in queues ==> queues[id] == readers[id].woken)
    }

    ghost function Value(): Stream
      reads this
    {
      Stream(eventLog, closed, logOpen, done, readers, left)
    }

    constructor (threadId: string)
      ensures Valid() && Value() == FRESH && this.threadId == threadId && !superseded && !cancelling
    {
      this.threadId := threadId;
      eventLog, logOpen, closed, done, queues := "", true, false, false, map[];
      superseded, cancelling := false, false;
      readers, left := map[], map[];
    }

    method PushEvent(payload: string)
      requires Valid() && Enabled(Value(), Push(payload))
      modifies this
      ensures Valid() && Value() == Stepped(old(Value()), Push(payload))
      ensures Records(eventLog) == Records(old(eventLog)) + [payload] && Flat(Records(eventLog)) == eventLog
      ensures queues.Keys == old(queues).Keys && forall id :: id in queues ==> queues[id]
    {
      hide StreamOk;
      StepKeeps(Value(), Push(payload));
      PushKeeps(Value(), payload);
      RecordsAreTheLog(eventLog + payload);
      eventLog := eventLog + payload;
      queues := map id | id in queues :: true;
      readers := map id | id in readers :: readers[id].(woken := true);
    }

    /** The first lock segment of subscribing. */
    method Subscribe(id: nat) returns (joined: bool)
      requires Valid() && Enabled(Value(), Join(id))
      modifies this
      ensures Valid() && Value() == Stepped(old(Value()), Join(id)) && joined == !old(closed)
      ensures joined ==> readers == old(readers)[id := Reader(0, [], Looping, false)]
    {
      hide StreamOk;
      StepKeeps(Value(), Join(id));
      joined := !closed;
      if joined {
        queues := queues[id := false];
        readers := readers[id := Reader(0, [], Looping, false)];
      }
    }

    /** The lock segment of the reading loop: the next line, the cursor after it, and whether to stop. */
    method ReadLine(id: nat, position: nat) returns (line: string, next: nat, isDone: bool)
      requires Valid() && Enabled(Value(), ReadNext(id)) && readers[id].position == position
      modifies this`readers
      ensures Valid() && Value() == Stepped(old(Value()), ReadNext(id))
      ensures next == readers[id].position && isDone == done
      ensures line != [] ==> readers[id].received == old(readers[id].received) + [line]
      ensures line == [] ==> readers[id].stage == if isDone then Ending(true) else Waiting
    {
      hide StreamOk;
      StepKeeps(Value(), ReadNext(id));
      line := FirstLine(eventLog[position..]);
      next := position + |line|;
      isDone := done;
      readers := readers[id := AfterRead(Value(), readers[id])];
    }

    /** The wait of the reading loop ends, by a wake-up or by its timeout. */
    method Wait(id: nat, timeout: bool)
      requires Valid() && Enabled(Value(), Wake(id, timeout))
      modifies this
      ensures Valid() && Value() == Stepped(old(Value()), Wake(id, timeout))
    {
      hide StreamOk;
      StepKeeps(Value(), Wake(id, timeout));
      queues := queues[id := timeout && queues[id]];
      readers := readers[id := readers[id].(stage := Looping, woken := timeout && readers[id].woken)];
    }

    /** The subscriber's last lock segment. */
    method Unsubscribe(id: nat)
      requires Valid() && Enabled(Value(), Leave(id))
      modifies this
      ensures Valid() && Value() == Stepped(old(Value()), Leave(id))
      ensures logOpen == (old(logOpen) && !(closed && queues == map[])) && queues == old(queues) - {id}
    {
      hide StreamOk;
      StepKeeps(Value(), Leave(id));
      queues := queues - {id};
      left := left[id := Gone(readers[id].received, readers[id].stage.complete)];
      readers := readers - {id};
      if closed && queues == map[] {
        logOpen := false;
      }
    }

    method Done()
      requires Valid()
      modifies this`done
      ensures Valid() && Value() == Stepped(old(Value()), Finish)
    {
      StepKeeps(Value(), Finish);
      done := true;
    }

    /** A session that a newer one takes the place of does not record its own error. */
    method Cancel(bySuccessor: bool)
      modifies this`superseded, this`cancelling
      ensures superseded == (old(superseded) || bySuccessor) && cancelling
    {
      superseded := superseded || bySuccessor;
      cancelling := true;
    }

    method CloseLog()
      requires Valid()
      modifies this`closed, this`logOpen
      ensures Valid() && Value() == Stepped(old(Value()), Close)
      ensures closed && logOpen == (old(logOpen) && queues != map[])
    {
      StepKeeps(Value(), Close);
      closed := true;
      if queues == map[] {
        logOpen := false;
      }
    }
  }

  // ---------------------------------------------------------------- the manager

  /** Ghost history: the newest session of each thread, and the sessions that have cleaned up. */
  class ChatStreamManager {
    var sessions: map<string, ChatStreamSession>
    ghost var newest: map<string, ChatStreamSession>
    ghost var cleaned: set<ChatStreamSession>

    /** A thread's entry is its newest session, until that session's own cleanup. */
    ghost predicate Valid()
      reads this
    {
      && (forall t :: t in newest ==> newest[t].threadId == t)
      && (forall t :: t in sessions <==> t in newest && newest[t] !in cleaned)
      && (forall t :: t in sessions ==> sessions[t] == newest[t])
    }

    constructor ()
      ensures Valid() && sessions == map[]
    {
      sessions, newest, cleaned := map[], map[], {};
    }

    /** A new message starts a new session, which takes the place of the thread's entry; a predecessor that
        still runs is cancelled, and no other session is touched. */
    method CreateSession(threadId: string) returns (session: ChatStreamSession)
      requires Valid()
      modifies this, if threadId in sessions then {sessions[threadId]} else {}
      ensures Valid() && fresh(session) && session.Valid() && session.threadId == threadId
      ensures sessions == old(sessions)[threadId := session] && newest == old(newest)[threadId := session]
      ensures cleaned == old(cleaned)
      ensures threadId in old(sessions) ==>
                var before := old(sessions)[threadId];
                && before.Value() == old(before.Value())
                && before.superseded == (old(before.superseded) || !old(before.done))
                && before.cancelling == (old(before.cancelling) || !old(before.done))
    {
      if threadId in sessions && !sessions[threadId].done {
        sessions[threadId].Cancel(true);
      }
      session := new ChatStreamSession(threadId);
      sessions := sessions[threadId := session];
      newest := newest[threadId := session];
    }

    method GetSession(threadId: string) returns (session: Option<ChatStreamSession>)
      requires Valid()
      ensures session == if threadId in newest && newest[threadId] !in cleaned then Some(newest[threadId]) else None
    {
      session := if threadId in sessions then Some(sessions[threadId]) else None;
    }

    /** A session's own cleanup: it closes its log, and takes the thread's entry only if that is still its
        own, so a superseded session never removes its successor. */
    method RemoveSession(session: ChatStreamSession)
      requires Valid() && session.Valid()
      modifies this, session`closed, session`logOpen
      ensures Valid() && session.Valid() && session.Value() == Stepped(old(session.Value()), Close)
      ensures newest == old(newest) && cleaned == old(cleaned) + {session}
      ensures forall t :: t in old(sessions) && old(sessions)[t] != session ==>
          t in sessions && sessions[t] == old(sessions)[t]
      ensures forall t :: t in sessions ==>
          t in old(sessions) && sessions[t] == old(sessions)[t] && sessions[t] != session
    {
      var t := session.threadId;
      if t in sessions && sessions[t] == session {
        sessions := sessions - {t};
      }
      session.CloseLog();
      cleaned := cleaned + {session};
    }
  }
}

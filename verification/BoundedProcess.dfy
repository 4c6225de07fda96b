/**
 The bounded process runner (scripts/gb10_bounded_process.py): capped capture of a child's streams,
 the polling loop of command, and the cleanup of _bounded_reap. Everything the operating system
 answers is left open; the clock only moves forward, by at least one unit per poll.
 */
module BoundedProcess {
  import opened Foundations

  const MAX_STREAM_BYTES: nat := 4 * 1024 * 1024
  const READ_BYTES: nat := 64 * 1024

  /** _Capture: keeps a prefix of what it is given. */
  class Capture {
    var retained: Bytes
    const limit: nat
    var total: nat
    var truncated: bool
    ghost var stream: Bytes

    ghost predicate Valid()
      reads this
    {
      && retained == stream[..Min(limit, |stream|)]
      && total == |stream|
      && (truncated <==> |stream| > limit)
    }

    constructor (limit: nat)
      ensures Valid() && stream == [] && this.limit == limit
    {
      this.limit := limit;
      retained, total, truncated, stream := [], 0, false, [];
    }

    method Append(payload: Bytes)
      requires Valid()
      modifies this
      ensures Valid() && stream == old(stream) + payload
    {
      stream := stream + payload;
      total := total + |payload|;
      var available := Max(0, limit - |retained|);
      if available > 0 {
        retained := retained + payload[..Min(available, |payload|)];
      }
      if |payload| > available {
        truncated := true;
      }
    }
  }

  /** One output pipe: source is everything that will ever be written to it. */
  class Pipe {
    const source: Bytes
    var position: nat
    var open: bool
    const capture: Capture

    ghost predicate Valid()
      reads this, capture
    {
      && position <= |source|
      && capture.Valid()
      && capture.limit == MAX_STREAM_BYTES
      && capture.stream == source[..position]
      && (!open ==> position == |source|)
    }

    constructor (source: Bytes)
      ensures Valid() && open && position == 0 && this.source == source && fresh(capture)
    {
      this.source := source;
      position, open := 0, true;
      capture := new Capture(MAX_STREAM_BYTES);
    }

    /** One turn of _drain_once for this pipe: not ready, some bytes, or end of file. */
    method Drain() returns (ready: bool)
      requires Valid()
      modifies this, capture
      ensures Valid()
      ensures !ready || !old(open) ==> position == old(position) && open == old(open)
      ensures ready && old(open) && old(position) < |source| ==>
                open && old(position) < position <= old(position) + READ_BYTES
      ensures ready && old(open) && old(position) == |source| ==> !open && position == old(position)
    {
      ready := *;
      if !open || !ready {
        return;
      }
      if position == |source| {
        open := false;
        return;
      }
      var room := |source| - position;
      var count: nat :| 1 <= count <= room && count <= READ_BYTES;
      var payload := source[position..position + count];
      assert source[..position + count] == source[..position] + payload;
      capture.Append(payload);
      position := position + count;
    }
  }

  datatype Failure = OutputBound | Survivors | Deadline | Interrupted | NonZeroExit | NotUtf8

  datatype CommandResult = Returned(text: Bytes) | Failed(failure: Failure)

  /**
   command, from the spawned child on. exit and census are the last poll result and the last scan.
   It returns only after both streams ended, with every byte of stdout, exit zero and no descendant.
   */
  method Command(stdout: Pipe, stderr: Pipe, start: nat, deadline: nat, utf8: Bytes -> bool)
    returns (result: CommandResult, exit: Option<int>, census: set<int>, now: nat)
    requires stdout.Valid() && stderr.Valid() && stdout.open && stderr.open
    requires stdout != stderr && stdout.capture != stderr.capture
    modifies stdout, stderr, stdout.capture, stderr.capture
    ensures result.Returned? ==> result.text == stdout.source && utf8(stdout.source)
    ensures result.Returned? ==> !stdout.open && !stderr.open
    ensures result.Returned? ==> exit == Some(0) && census == {}
    ensures result.Returned? ==> |stdout.source| <= MAX_STREAM_BYTES && |stderr.source| <= MAX_STREAM_BYTES
    ensures result == Failed(OutputBound) ==>
              |stdout.source| > MAX_STREAM_BYTES || |stderr.source| > MAX_STREAM_BYTES
    ensures result == Failed(Survivors) ==> exit.Some? && !stdout.open && !stderr.open && census != {}
    ensures result == Failed(Deadline) ==> now >= deadline
    ensures result == Failed(NonZeroExit) ==>
              exit.Some? && exit != Some(0) && !stdout.open && !stderr.open && census == {}
    ensures result == Failed(NotUtf8) ==> exit == Some(0) && census == {} && !utf8(stdout.source)
  {
    now, exit, census := start, None, {};
    while true
      invariant stdout.Valid() && stderr.Valid()
      invariant now >= start
      decreases deadline - now
    {
      var interrupted: bool, ended: bool, code: int := *, *, *;
      if interrupted {
        return Failed(Interrupted), exit, census, now;
      }
      var outReady := stdout.Drain();
      var errReady := stderr.Drain();
      if exit.None? && ended {
        exit := Some(code);
      }
      census := *;
      if stdout.capture.truncated || stderr.capture.truncated {
        return Failed(OutputBound), exit, census, now;
      }
      if exit.Some? && !stdout.open && !stderr.open {
        if census != {} {
          return Failed(Survivors), exit, census, now;
        }
        break;
      }
      var tick: nat :| tick >= 1;
      now := now + tick;
      if now >= deadline {
        return Failed(Deadline), exit, census, now;
      }
    }
    if exit != Some(0) {
      return Failed(NonZeroExit), exit, census, now;
    }
    assert stdout.source[..|stdout.source|] == stdout.source;
    if !utf8(stdout.capture.retained) {
      return Failed(NotUtf8), exit, census, now;
    }
    result := Returned(stdout.capture.retained);
  }

  // ----- cleanup -----

  datatype Signal = Term | Kill

  /** A signalling action that was attempted, whether or not it failed. */
  datatype Attempt = Scope(signal: Signal) | Group(signal: Signal) | Descendants(signal: Signal)

  /** An exception object, by its identity. */
  type Error = nat

  /** first_error = first_error or error */
  function Remember(first: Option<Error>, error: Option<Error>): Option<Error> {
    if first.Some? then first else error
  }

  /** The earliest error of a list of steps, each of which may have raised one. */
  function Earliest(steps: seq<Option<Error>>): Option<Error> {
    if steps == [] then None
    else if steps[0].Some? then steps[0]
    else Earliest(steps[1..])
  }

  /** It is the first error there is. */
  lemma {:induction false} EarliestMeaning(steps: seq<Option<Error>>, i: nat)
    requires i < |steps| && steps[i].Some? && forall j :: 0 <= j < i ==> steps[j].None?
    ensures Earliest(steps) == steps[i]
  {
    if i > 0 {
      EarliestMeaning(steps[1..], i - 1);
    }
  }

  lemma {:induction false} EarliestOfBoth(a: seq<Option<Error>>, b: seq<Option<Error>>)
    ensures Earliest(a + b) == Remember(Earliest(a), Earliest(b))
    decreases |a|
  {
    if a == [] {
      assert a + b == b;
    } else {
      assert (a + b)[1..] == a[1..] + b;
      EarliestOfBoth(a[1..], b);
    }
  }

  lemma {:induction false} EarliestSnoc(steps: seq<Option<Error>>, error: Option<Error>)
    ensures Earliest(steps + [error]) == Remember(Earliest(steps), error)
  {
    EarliestOfBoth(steps, [error]);
    assert [error][1..] == [];
  }

  /** What _signal_cleanup must attempt, in order. */
  function Actions(scoped: bool, signal: Signal): seq<Attempt> {
    if scoped then (if signal == Kill then [Scope(Kill), Group(Kill)] else [Group(Term), Scope(Term)])
    else [Group(signal), Descendants(signal)]
  }

  /** Some step that may raise. */
  method Try() returns (error: Option<Error>) {
    var raised: bool, which: Error := *, *;
    error := if raised then Some(which) else None;
  }

  /** The group and the scope, or the descendants where there is no scope; the scope is killed first. */
  predicate Signals(attempts: seq<Attempt>, scoped: bool, signal: Signal) {
    && |attempts| == 2 && attempts[0] != attempts[1]
    && (forall a :: a in attempts ==> a.signal == signal)
    && Group(signal) in attempts
    && (Scope(signal) in attempts <==> scoped) && (Descendants(signal) in attempts <==> !scoped)
    && (attempts[0].Scope? <==> scoped && signal == Kill)
  }

  lemma {:induction false} ActionsAreSignals(scoped: bool, signal: Signal)
    ensures Signals(Actions(scoped, signal), scoped, signal)
  {}

  /** Every action is attempted, no matter which of them fail; the error of the first that failed is raised. */
  method SignalCleanup(scoped: bool, signal: Signal)
    returns (attempts: seq<Attempt>, steps: seq<Option<Error>>, raised: Option<Error>)
    ensures Signals(attempts, scoped, signal)
    ensures attempts == Actions(scoped, signal) && |steps| == |attempts|
    ensures raised == Earliest(steps)
  {
    var actions: seq<Attempt> := [];
    if scoped && signal == Kill {
      actions := actions + [Scope(signal), Group(signal)];
    } else {
      actions := actions + [Group(signal)];
      if scoped {
        actions := actions + [Scope(signal)];
      }
    }
    if !scoped {
      actions := actions + [Descendants(signal)];
    }
    ActionsAreSignals(scoped, signal);
    attempts, steps, raised := [], [], None;
    for i := 0 to |actions|
      invariant attempts == actions[..i] && |steps| == i
      invariant raised == Earliest(steps)
    {
      var error := Try();
      EarliestSnoc(steps, error);
      attempts, steps := attempts + [actions[i]], steps + [error];
      raised := Remember(raised, error);
    }
    assert actions[..|actions|] == actions;
  }

  /** first: the remembered error; the rest is what the loops have seen so far. */
  datatype ReapState = ReapState(first: Option<Error>, complete: bool, exited: bool, openStreams: nat)

  /** One of the two polling phases: drain, poll, reap, take a census; stop when all is gone. */
  method PollUntil(state: ReapState, start: nat, deadline: nat)
    returns (after: ReapState, now: nat, ghost steps: seq<Option<Error>>)
    ensures now >= start
    ensures state.exited ==> after.exited
    ensures after.openStreams <= state.openStreams
    ensures after.first == Remember(state.first, Earliest(steps))
  {
    after, now, steps := state, start, [];
    while now < deadline
      invariant now >= start
      invariant state.exited ==> after.exited
      invariant after.openStreams <= state.openStreams
      invariant after.first == Remember(state.first, Earliest(steps))
      decreases deadline - now
    {
      var tick: nat :| tick >= 1;
      now := now + tick;
      var closed: bool, ended: bool, empty: bool := *, *, *;
      var drainError := Try();
      EarliestSnoc(steps, drainError);
      steps := steps + [drainError];
      after := after.(first := Remember(after.first, drainError));
      if drainError.Some? {
        break;
      }
      if closed && after.openStreams > 0 {
        after := after.(openStreams := after.openStreams - 1);
      }
      after := after.(exited := after.exited || ended);
      var reapError := Try();
      EarliestSnoc(steps, reapError);
      steps := steps + [reapError];
      after := after.(first := Remember(after.first, reapError),
                      complete := reapError.None? && empty && after.openStreams == 0);
      if after.complete {
        break;
      }
    }
  }

  /** Steps done one after another, whatever they raise: closing streams, waiting, reaping, the last census. */
  method TryAll(count: nat, before: Option<Error>) returns (first: Option<Error>, steps: seq<Option<Error>>)
    ensures |steps| == count && first == Remember(before, Earliest(steps))
  {
    first, steps := before, [];
    for i := 0 to count
      invariant |steps| == i && first == Remember(before, Earliest(steps))
    {
      var error := Try();
      EarliestSnoc(steps, error);
      steps := steps + [error];
      first := Remember(first, error);
    }
  }

  /** survivors: how many are left; cause: the error named in the diagnostic, if any. */
  datatype ReapResult = Clean | ContainmentError(survivors: nat, cause: Option<Error>) | FirstError(error: Error)

  /**
   _bounded_reap under any pattern of errors. attempts is what was signalled, termComplete whether the
   TERM phase ended with nothing left, survivors the final census with the child itself when it was not
   reaped, steps everything that could raise, in order. The earliest error is the one reported.
   */
  method BoundedReap(pid: int, scoped: bool, streams: nat, exitedBefore: bool, start: nat, hardDeadline: nat)
    returns (result: ReapResult, attempts: seq<Attempt>, termComplete: bool, survivors: set<int>, exited: bool,
             ghost steps: seq<Option<Error>>)
    ensures scoped || !termComplete ==>
              Group(Kill) in attempts && (if scoped then Scope(Kill) else Descendants(Kill)) in attempts
    ensures Group(Term) in attempts || attempts == Actions(scoped, Kill)
    ensures !scoped && termComplete ==> forall a :: a in attempts ==> a.signal == Term
    ensures scoped || !termComplete ==> |attempts| >= 2 && attempts[|attempts| - 2..] == Actions(scoped, Kill)
    ensures !scoped && termComplete ==> attempts == Actions(false, Term)
    ensures attempts == Actions(scoped, Term) || attempts == Actions(scoped, Kill)
            || attempts == Actions(scoped, Term) + Actions(scoped, Kill)
    ensures !exited ==> pid in survivors
    ensures result == if survivors != {} then ContainmentError(|survivors|, Earliest(steps))
                      else if Earliest(steps).Some? then FirstError(Earliest(steps).value) else Clean
  {
    var state := ReapState(None, false, exitedBefore, streams);
    var now := start;
    attempts, steps := [], [];
    var clockError := Try();
    if clockError.Some? {
      steps := [clockError];
      state := state.(first := clockError);
    } else {
      var signalled, raised;
      attempts, signalled, raised := SignalCleanup(scoped, Term);
      state, steps := state.(first := raised), signalled;
      var half := if hardDeadline > now then (hardDeadline - now) / 2 else 0;
      ghost var polled;
      state, now, polled := PollUntil(state, now, Min(hardDeadline, now + half));
      EarliestOfBoth(steps, polled);
      steps := steps + polled;
    }
    termComplete := state.complete;
    if scoped || !state.complete {
      var kills, signalled, raised := SignalCleanup(scoped, Kill);
      attempts := attempts + kills;
      EarliestOfBoth(steps, signalled);
      state, steps := state.(first := Remember(state.first, raised)), steps + signalled;
    }
    ghost var polled;
    state, now, polled := PollUntil(state, now, hardDeadline);
    EarliestOfBoth(steps, polled);
    steps := steps + polled;
    var first, closing := TryAll(state.openStreams + 3, state.first);
    EarliestOfBoth(steps, closing);
    steps := steps + closing;
    var reaped: bool, left: set<int> := *, *;
    exited := state.exited || reaped;
    survivors := if closing[|closing| - 1].Some? then {} else left;
    survivors := if exited then survivors else survivors + {pid};
    if survivors != {} {
      result := ContainmentError(|survivors|, first);
    } else {
      result := if first.Some? then FirstError(first.value) else Clean;
    }
  }

  // ----- the whole of command -----

  /** A containment error says that processes are left, and must not be taken for a failure to retry. */
  datatype Exception = Plain(error: Error) | Containment(survivors: nat, cause: Option<Error>)

  /** One cleanup: closing the input, whose error skips the rest, then _bounded_reap. */
  datatype Cleanup = Skipped(error: Error) | Ran(result: ReapResult)

  datatype Ending = Output(text: Bytes) | Refused(failure: Failure) | Raises(exception: Exception)

  function RaisedBy(cleanup: Cleanup): Option<Exception> {
    match cleanup
    case Skipped(error) => Some(Plain(error))
    case Ran(Clean) => None
    case Ran(FirstError(error)) => Some(Plain(error))
    case Ran(ContainmentError(survivors, cause)) => Some(Containment(survivors, cause))
  }

  function AsList(exception: Option<Exception>): seq<Exception> {
    if exception.Some? then [exception.value] else []
  }

  /** Everything raised until the cleanups were over, in order. */
  function AllRaised(loop: Option<Exception>, cleanups: seq<Cleanup>): seq<Exception> {
    if cleanups == [] then AsList(loop)
    else AllRaised(loop, cleanups[..|cleanups| - 1]) + AsList(RaisedBy(cleanups[|cleanups| - 1]))
  }

  function FirstContainment(raised: seq<Exception>): Option<Exception> {
    if raised == [] then None
    else
      var before := FirstContainment(raised[..|raised| - 1]);
      if before.None? && raised[|raised| - 1].Containment? then Some(raised[|raised| - 1]) else before
  }

  /** The first containment error of a list if there is one, else its last error. */
  function Shown(raised: seq<Exception>): Option<Exception> {
    if FirstContainment(raised).Some? then FirstContainment(raised)
    else if raised != [] then Some(raised[|raised| - 1])
    else None
  }

  lemma {:induction false} FirstContainmentMeaning(raised: seq<Exception>)
    ensures FirstContainment(raised).Some? <==> exists e :: e in raised && e.Containment?
    ensures FirstContainment(raised).Some? ==> FirstContainment(raised).value.Containment?
  {
    if raised != [] {
      var front, last := raised[..|raised| - 1], raised[|raised| - 1];
      FirstContainmentMeaning(front);
      assert raised == front + [last];
    }
  }

  /** One more exception, or none. */
  lemma {:induction false} ShownSnoc(raised: seq<Exception>, next: Option<Exception>)
    ensures FirstContainment(raised + AsList(next))
            == if FirstContainment(raised).None? && next.Some? && next.value.Containment? then next
               else FirstContainment(raised)
    ensures Shown(raised + AsList(next))
            == if FirstContainment(raised).None? && next.Some? then next else Shown(raised)
  {
    if next.Some? {
      assert (raised + [next.value])[..|raised|] == raised;
    } else {
      assert raised + [] == raised;
    }
  }

  lemma {:induction false} AllRaisedSnoc(loop: Option<Exception>, cleanups: seq<Cleanup>, cleanup: Cleanup)
    ensures AllRaised(loop, cleanups + [cleanup]) == AllRaised(loop, cleanups) + AsList(RaisedBy(cleanup))
  {
    assert (cleanups + [cleanup])[..|cleanups|] == cleanups;
  }

  /**
   What the caller sees: the first containment error, whatever came after it; else the error of the
   final closing; else the latest error of loop and cleanups; else the result itself.
   */
  function EndingOf(result: CommandResult, raised: seq<Exception>, closing: Option<Error>): Ending {
    if closing.Some? && FirstContainment(raised).None? then Raises(Plain(closing.value))
    else if Shown(raised).Some? then Raises(Shown(raised).value)
    else match result
      case Returned(text) => Output(text)
      case Failed(failure) => Refused(failure)
  }

  /** The failures that end the loop while the child may still run. */
  predicate BreaksOff(result: CommandResult) {
    result.Failed? && (result.failure == OutputBound || result.failure == Survivors || result.failure == Deadline)
  }

  method CleanUp(inputOpen: bool, pid: int, streams: nat, exited: bool, start: nat, hardDeadline: nat)
    returns (cleanup: Cleanup)
    ensures cleanup.Skipped? ==> inputOpen
  {
    if inputOpen {
      var error := Try();
      if error.Some? {
        return Skipped(error.value);
      }
    }
    var reaped, attempts, termComplete, survivors, gone;
    ghost var steps;
    reaped, attempts, termComplete, survivors, gone, steps :=
      BoundedReap(pid, false, streams, exited, start, hardDeadline);
    cleanup := Ran(reaped);
  }

  /** The cleanup of a failure, and the handler around the loop: raised says what came up before it. */
  method Handle(result: CommandResult, loop: Option<Exception>, inputOpen: bool, pid: int, streams: nat, exited: bool,
                start: nat, hardDeadline: nat)
    returns (error: Option<Exception>, containment: Option<Exception>, cleanups: seq<Cleanup>)
    requires loop.Some? ==> !BreaksOff(result)
    ensures containment == FirstContainment(AllRaised(loop, cleanups)) && error == Shown(AllRaised(loop, cleanups))
    ensures BreaksOff(result) ==> 1 <= |cleanups| <= 2 && (|cleanups| == 2 <==> RaisedBy(cleanups[0]).Some?)
    ensures BreaksOff(result) ==> cleanups[|cleanups| - 1].Ran?
    ensures loop.Some? ==> |cleanups| == 1
    ensures !BreaksOff(result) && loop.None? ==> cleanups == []
    ensures forall c :: c in cleanups && c.Skipped? ==> inputOpen
  {
    var closeFirst := inputOpen;
    error, cleanups := loop, [];
    ShownSnoc([], loop);
    if BreaksOff(result) {
      var cleanup := CleanUp(closeFirst, pid, streams, exited, start, hardDeadline);
      AllRaisedSnoc(loop, [], cleanup);
      ShownSnoc([], RaisedBy(cleanup));
      cleanups, closeFirst, error := [cleanup], false, RaisedBy(cleanup);
    }
    containment := if error.Some? && error.value.Containment? then error else None;
    if error.Some? {
      var cleanup := CleanUp(closeFirst, pid, streams, exited, start, hardDeadline);
      var next := RaisedBy(cleanup);
      AllRaisedSnoc(loop, cleanups, cleanup);
      ShownSnoc(AllRaised(loop, cleanups), next);
      cleanups := cleanups + [cleanup];
      if next.Some? {
        if next.value.Containment? && containment.None? {
          containment := next;
        }
        error := if containment.Some? then containment else next;
      }
    }
  }

  /**
   command, with its nested handlers. inputOpen: there is an input that is not closed yet when the
   loop ends. loop is what the loop raised, closing what the final closing of streams and tree raised.
   An error from the cleanup of a failure is handled like one of the loop: by a second cleanup.
   */
  method RunCommand(stdout: Pipe, stderr: Pipe, inputOpen: bool, pid: int, start: nat, workDeadline: nat,
                    hardDeadline: nat, utf8: Bytes -> bool)
    returns (ending: Ending, result: CommandResult, loop: Option<Exception>, cleanups: seq<Cleanup>,
             closing: Option<Error>)
    requires stdout.Valid() && stderr.Valid() && stdout.open && stderr.open
    requires stdout != stderr && stdout.capture != stderr.capture
    modifies stdout, stderr, stdout.capture, stderr.capture
    ensures loop.Some? <==> result == Failed(Interrupted)
    ensures ending == EndingOf(result, AllRaised(loop, cleanups), closing)
    ensures ending.Output? ==> ending.text == stdout.source && utf8(stdout.source)
    ensures BreaksOff(result) ==> 1 <= |cleanups| <= 2 && (|cleanups| == 2 <==> RaisedBy(cleanups[0]).Some?)
    ensures BreaksOff(result) ==> cleanups[|cleanups| - 1].Ran?
    ensures loop.Some? ==> |cleanups| == 1
    ensures !BreaksOff(result) && loop.None? ==> cleanups == []
    ensures forall c :: c in cleanups && c.Skipped? ==> inputOpen
  {
    var exit, census, now;
    result, exit, census, now := Command(stdout, stderr, start, workDeadline, utf8);
    loop := None;
    if result == Failed(Interrupted) {
      var nested: bool, which: Error, survivors: nat := *, *, *;
      loop := Some(if nested then Containment(survivors, Some(which)) else Plain(which));
    }
    var streams: nat := (if stdout.open then 1 else 0) + (if stderr.open then 1 else 0);
    var error, containment;
    error, containment, cleanups := Handle(result, loop, inputOpen, pid, streams, exit.Some?, start, hardDeadline);
    closing := Try();
    if closing.Some? {
      error := if containment.Some? then containment else Some(Plain(closing.value));
    }
    if error.Some? {
      ending := Raises(error.value);
    } else {
      ending := match result case Returned(text) => Output(text) case Failed(failure) => Refused(failure);
    }
  }

  /** Without a containment error: the closing error, else the cleanup's, else the loop's, else the failure. */
  lemma {:induction false} EndingCases(failure: Failure, error: Error, other: Error, last: Error)
    ensures EndingOf(Failed(failure), AllRaised(None, [Ran(Clean)]), None) == Refused(failure)
    ensures EndingOf(Failed(failure), AllRaised(Some(Plain(error)), [Ran(Clean)]), None) == Raises(Plain(error))
    ensures EndingOf(Failed(failure), AllRaised(Some(Plain(error)), [Ran(FirstError(other))]), None)
            == Raises(Plain(other))
    ensures EndingOf(Failed(failure), AllRaised(Some(Plain(error)), [Ran(FirstError(other))]), Some(last))
            == Raises(Plain(last))
  {
    AllRaisedSnoc(None, [], Ran(Clean));
    AllRaisedSnoc(Some(Plain(error)), [], Ran(Clean));
    AllRaisedSnoc(Some(Plain(error)), [], Ran(FirstError(other)));
    ShownSnoc([], None);
    ShownSnoc([], Some(Plain(error)));
    ShownSnoc([Plain(error)], None);
    ShownSnoc([Plain(error)], Some(Plain(other)));
    assert [] + AsList(None) == AsList(None);
  }

  /** What is raised is a containment error exactly when some step raised one: nothing later hides it. */
  lemma {:induction false} ContainmentIsFinal(result: CommandResult, loop: Option<Exception>, cleanups: seq<Cleanup>,
                                              closing: Option<Error>)
    ensures var ending := EndingOf(result, AllRaised(loop, cleanups), closing);
            (ending.Raises? && ending.exception.Containment?)
            <==> (loop.Some? && loop.value.Containment?)
                 || exists c :: c in cleanups && c.Ran? && c.result.ContainmentError?
  {
    FirstContainmentMeaning(AllRaised(loop, cleanups));
    RaisedContainment(loop, cleanups);
  }

  lemma {:induction false} RaisedContainment(loop: Option<Exception>, cleanups: seq<Cleanup>)
    ensures (exists e :: e in AllRaised(loop, cleanups) && e.Containment?)
            <==> (loop.Some? && loop.value.Containment?)
                 || exists c :: c in cleanups && c.Ran? && c.result.ContainmentError?
    decreases |cleanups|
  {
    if cleanups == [] {
      assert AllRaised(loop, cleanups) == AsList(loop);
      assert loop.Some? ==> loop.value in AsList(loop);
    } else {
      var front, last := cleanups[..|cleanups| - 1], cleanups[|cleanups| - 1];
      RaisedContainment(loop, front);
      assert cleanups == front + [last];
      var raised := RaisedBy(last);
      assert raised.Some? ==> raised.value in AsList(raised);
      assert forall e :: e in AllRaised(loop, cleanups) <==> e in AllRaised(loop, front) || e in AsList(raised);
    }
  }

  predicate AllClean(cleanups: seq<Cleanup>) {
    forall i :: 0 <= i < |cleanups| ==> cleanups[i] == Ran(Clean)
  }

  /** The text of stdout is returned exactly when the run succeeded and nothing was raised anywhere. */
  lemma {:induction false} OutputMeansNothingRaised(result: CommandResult, loop: Option<Exception>,
                                                    cleanups: seq<Cleanup>, closing: Option<Error>)
    ensures EndingOf(result, AllRaised(loop, cleanups), closing).Output?
            <==> result.Returned? && loop.None? && closing.None?
                 && AllClean(cleanups)
  {
    NothingRaised(loop, cleanups);
  }

  lemma {:induction false} NothingRaised(loop: Option<Exception>, cleanups: seq<Cleanup>)
    ensures AllRaised(loop, cleanups) == [] <==> loop.None? && AllClean(cleanups)
    decreases |cleanups|
  {
    if cleanups != [] {
      var front, last := cleanups[..|cleanups| - 1], cleanups[|cleanups| - 1];
      NothingRaised(loop, front);
      CleanIsQuiet(last);
      assert |AllRaised(loop, cleanups)| == |AllRaised(loop, front)| + |AsList(RaisedBy(last))|;
    }
  }

  lemma {:induction false} CleanIsQuiet(cleanup: Cleanup)
    ensures RaisedBy(cleanup).None? <==> cleanup == Ran(Clean)
  {}
}

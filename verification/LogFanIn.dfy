/**
 Logs over several sources: one worker per source writes prefixed lines under a mutex and
 reports at most one fault on a buffered channel, while the main thread waits for the wait
 group, a fault or cancellation. Threads interleave at every step.
 */
module LogFanIn {
  import opened GoStrings

  /** The lines a source delivers, and whether its stream then breaks off instead of ending. */
  datatype Source = Source(prefix: string, lines: seq<string>, broken: bool)

  datatype Line = Line(tag: string, text: string)

  datatype Fault = OpenFault | WriteFault | ScanFault | Cancelled

  /** Where a worker is. told: it has sent a fault. */
  datatype Pc = Idle | Skipped | Scanning | Got | Locking | Writing | Broke
              | Sending(fault: Fault) | Leaving(telling: bool) | Finished(told: bool)

  datatype Worker = Worker(pc: Pc, pos: nat)

  datatype Stage = Opening(next: nat) | Waiting | Draining | Returned(result: Option<Fault>)

  /** The line as it is written. */
  function Printed(l: Line): string {
    "[" + l.tag + "] " + l.text + "\n"
  }

  /** What a failed write has left: the beginning of a printed line, behind so many whole lines. */
  datatype Fragment = Fragment(owner: nat, behind: nat, piece: string)

  /** live is the wait group's counter, errs the channel, taken the number of receives. */
  datatype Sys = Sys(workers: seq<Worker>, stage: Stage, mutex: Option<nat>, live: nat, closed: bool,
                     errs: seq<Fault>, taken: nat, cancelled: bool, output: seq<Line>, torn: seq<Fragment>)

  datatype Work = ScanLine | ScanEnd | ScanBreak | CheckContext | Lock | Write | Tear(part: nat) | Judge | Send | Leave

  datatype Act = Open(success: bool) | EndOpening | CloseDone | PickDone | PickError | PickCancel | Drain
               | Cancel | Run(w: nat, work: Work)

  function Init(srcs: seq<Source>): Sys {
    Sys(seq(|srcs|, i => Worker(Idle, 0)), Opening(0), None, 0, false, [], 0, false, [], [])
  }

  // ----- one step of a worker -----

  /**
   What the step does to the worker, if it can be taken. A line is checked against the
   context, then written under the lock. The stream may break off anywhere once the context
   is cancelled. A scan error is kept to itself when the context is cancelled.
   */
  function Moved(src: Source, wk: Worker, work: Work, cancelled: bool, free: bool, room: bool): Option<Worker> {
    match work
    case ScanLine => if wk.pc == Scanning && wk.pos < |src.lines| then Some(wk.(pc := Got)) else None
    case ScanEnd => if wk.pc == Scanning && wk.pos == |src.lines| && !src.broken then Some(wk.(pc := Leaving(false))) else None
    case ScanBreak =>
      if wk.pc == Scanning && ((wk.pos == |src.lines| && src.broken) || cancelled) then Some(wk.(pc := Broke)) else None
    case CheckContext =>
      if wk.pc == Got then Some(wk.(pc := if cancelled then Sending(Cancelled) else Locking)) else None
    case Lock => if wk.pc == Locking && free then Some(wk.(pc := Writing)) else None
    case Write => if wk.pc == Writing then Some(Worker(Scanning, wk.pos + 1)) else None
    case Tear(_) => if wk.pc == Writing then Some(wk.(pc := Sending(WriteFault))) else None
    case Judge =>
      if wk.pc == Broke then Some(wk.(pc := if cancelled then Leaving(false) else Sending(ScanFault))) else None
    case Send => if wk.pc.Sending? && room then Some(wk.(pc := Leaving(true))) else None
    case Leave => if wk.pc.Leaving? then Some(wk.(pc := Finished(wk.pc.telling))) else None
  }

  /** The worker's step on the shared state: the mutex, the channel, the wait group, the writer. */
  function RunWorker(srcs: seq<Source>, s: Sys, w: nat, work: Work): (r: Option<Sys>)
    requires |s.workers| == |srcs|
    ensures r.Some? ==> |r.value.workers| == |srcs|
  {
    if w >= |srcs| then None
    else
      var wk := s.workers[w];
      var m := Moved(srcs[w], wk, work, s.cancelled, s.mutex == None, |s.errs| < |srcs|);
      if m.None? then None
      else
        var s' := s.(workers := s.workers[w := m.value]);
        match work
        case Lock => Some(s'.(mutex := Some(w)))
        case Write =>
          if wk.pos < |srcs[w].lines|
          then Some(s'.(mutex := None, output := s.output + [Line(srcs[w].prefix, srcs[w].lines[wk.pos])]))
          else Some(s'.(mutex := None))
        case Tear(part) =>
          if wk.pos < |srcs[w].lines| && 0 < part <= |Printed(Line(srcs[w].prefix, srcs[w].lines[wk.pos]))|
          then Some(s'.(mutex := None, torn := s.torn + [Fragment(w, |s.output|, Printed(Line(srcs[w].prefix, srcs[w].lines[wk.pos]))[..part])]))
          else Some(s'.(mutex := None))
        case Send => if wk.pc.Sending? then Some(s'.(errs := s.errs + [wk.pc.fault])) else None
        case Leave => if s.live == 0 then None else Some(s'.(live := s.live - 1))
        case _ => Some(s')
  }

  // ----- one step of the system -----

  /** Receiving the first fault from the channel. */
  function Received(s: Sys): Sys
    requires s.errs != []
  {
    s.(stage := Returned(Some(s.errs[0])), errs := s.errs[1..], taken := s.taken + 1)
  }

  /** The main thread, the goroutine that closes done, the caller's cancellation, or a worker. */
  function Next(srcs: seq<Source>, s: Sys, a: Act): (r: Option<Sys>)
    requires |s.workers| == |srcs|
    ensures r.Some? ==> |r.value.workers| == |srcs|
  {
    match a
    case Open(success) =>
      if !s.stage.Opening? || s.stage.next >= |srcs| then None
      else
        var k := s.stage.next;
        if success then Some(s.(workers := s.workers[k := Worker(Scanning, 0)], live := s.live + 1, stage := Opening(k + 1)))
        else if srcs[k].prefix == "proxy" then Some(s.(workers := s.workers[k := Worker(Skipped, 0)], stage := Opening(k + 1)))
        else Some(s.(stage := Returned(Some(OpenFault))))
    case EndOpening => if s.stage == Opening(|srcs|) then Some(s.(stage := Waiting)) else None
    case CloseDone => if s.stage == Waiting && s.live == 0 && !s.closed then Some(s.(closed := true)) else None
    case PickDone => if s.stage == Waiting && s.closed then Some(s.(stage := Draining)) else None
    case PickError =>
      if s.stage == Waiting && s.errs != []
      then Some(Received(s)) else None
    case PickCancel => if s.stage == Waiting && s.cancelled then Some(s.(stage := Returned(Some(Cancelled)))) else None
    case Drain =>
      if s.stage != Draining then None
      else if s.errs == [] then Some(s.(stage := Returned(None)))
      else Some(Received(s))
    case Cancel => Some(s.(cancelled := true))
    case Run(w, work) => RunWorker(srcs, s, w, work)
  }

  // ----- counting workers -----

  predicate Live(pc: Pc) {
    !pc.Idle? && !pc.Skipped? && !pc.Finished?
  }

  predicate Told(pc: Pc) {
    pc == Leaving(true) || pc == Finished(true)
  }

  function Lives(ws: seq<Worker>): nat {
    if ws == [] then 0 else Lives(ws[1..]) + if Live(ws[0].pc) then 1 else 0
  }

  function Tolds(ws: seq<Worker>): nat {
    if ws == [] then 0 else Tolds(ws[1..]) + if Told(ws[0].pc) then 1 else 0
  }

  lemma {:induction false} CountsUpdate(ws: seq<Worker>, i: nat, wk: Worker)
    requires i < |ws|
    ensures Lives(ws[i := wk]) == Lives(ws) - (if Live(ws[i].pc) then 1 else 0) + if Live(wk.pc) then 1 else 0
    ensures Tolds(ws[i := wk]) == Tolds(ws) - (if Told(ws[i].pc) then 1 else 0) + if Told(wk.pc) then 1 else 0
  {
    if i == 0 {
      assert ws[i := wk][1..] == ws[1..];
    } else {
      CountsUpdate(ws[1..], i - 1, wk);
      assert ws[i := wk][1..] == ws[1..][i - 1 := wk];
    }
  }

  /** A worker that has told nothing leaves room for one more. */
  lemma {:induction false} CountsBound(ws: seq<Worker>)
    ensures Tolds(ws) <= |ws|
    ensures forall i :: 0 <= i < |ws| && !Told(ws[i].pc) ==> Tolds(ws) < |ws|
    ensures forall i :: 0 <= i < |ws| && Told(ws[i].pc) ==> Tolds(ws) > 0
    ensures forall i :: 0 <= i < |ws| && Live(ws[i].pc) ==> Lives(ws) > 0
  {
    if ws != [] {
      CountsBound(ws[1..]);
      assert forall i :: 0 < i < |ws| ==> ws[i] == ws[1..][i - 1];
    }
  }

  lemma {:induction false} CountsZero(ws: seq<Worker>)
    requires forall i :: 0 <= i < |ws| ==> !Live(ws[i].pc) && !Told(ws[i].pc)
    ensures Lives(ws) == 0 && Tolds(ws) == 0
  {
    if ws != [] {
      CountsZero(ws[1..]);
    }
  }

  // ----- what a source has had written -----

  function Of(output: seq<Line>, tag: string): seq<string> {
    if output == [] then []
    else
      var n := |output| - 1;
      Of(output[..n], tag) + if output[n].tag == tag then [output[n].text] else []
  }

  lemma OfAppend(output: seq<Line>, l: Line, tag: string)
    ensures Of(output + [l], tag) == Of(output, tag) + if l.tag == tag then [l.text] else []
  {
    assert (output + [l])[..|output|] == output;
  }

  // ----- the invariant -----

  predicate DistinctPrefixes(srcs: seq<Source>) {
    forall i, j :: 0 <= i < j < |srcs| ==> srcs[i].prefix != srcs[j].prefix
  }

  /** What is true of one worker in every reachable state. */
  predicate WorkerInv(src: Source, wk: Worker, cancelled: bool) {
    && wk.pos <= |src.lines|
    && (wk.pc.Idle? || wk.pc.Skipped? ==> wk.pos == 0)
    && (wk.pc.Skipped? ==> src.prefix == "proxy")
    && (wk.pc.Got? || wk.pc.Locking? || wk.pc.Writing? ==> wk.pos < |src.lines|)
    && (wk.pc.Broke? ==> cancelled || src.broken)
    && (wk.pc.Sending? ==> Earned(src, wk.pc.fault, cancelled))
    && (wk.pc == Leaving(false) || wk.pc == Finished(false) ==> cancelled || (wk.pos == |src.lines| && !src.broken))
  }

  /** A fault a worker may report: it was cancelled, its stream broke, or a write failed. */
  predicate Earned(src: Source, f: Fault, cancelled: bool) {
    && f != OpenFault
    && (f == Cancelled ==> cancelled)
    && (f == ScanFault ==> src.broken)
  }

  predicate Reported(srcs: seq<Source>, f: Fault, cancelled: bool) {
    exists i :: 0 <= i < |srcs| && Earned(srcs[i], f, cancelled)
  }

  predicate Over(pc: Pc) {
    pc.Skipped? || pc.Finished?
  }

  ghost predicate WorkersInv(srcs: seq<Source>, s: Sys) {
    && |s.workers| == |srcs|
    && (forall i :: 0 <= i < |srcs| ==> WorkerInv(srcs[i], s.workers[i], s.cancelled))
    && (forall i :: 0 <= i < |srcs| ==> (s.workers[i].pc == Writing <==> s.mutex == Some(i)))
    && (s.mutex.Some? ==> s.mutex.value < |srcs|)
  }

  /** The lines written under the source's prefix are its first pos lines. */
  predicate ShownAt(src: Source, pos: nat, output: seq<Line>) {
    pos <= |src.lines| && Of(output, src.prefix) == src.lines[..pos]
  }

  predicate Tagged(srcs: seq<Source>, tag: string) {
    exists i :: 0 <= i < |srcs| && tag == srcs[i].prefix
  }

  ghost predicate OutputInv(srcs: seq<Source>, s: Sys)
    requires |s.workers| == |srcs|
  {
    && (forall i :: 0 <= i < |srcs| ==> ShownAt(srcs[i], s.workers[i].pos, s.output))
    && (forall k :: 0 <= k < |s.output| ==> Tagged(srcs, s.output[k].tag))
  }

  ghost predicate ChannelInv(srcs: seq<Source>, s: Sys)
    requires |s.workers| == |srcs|
  {
    && s.live == Lives(s.workers)
    && |s.errs| + s.taken == Tolds(s.workers)
    && (forall k :: 0 <= k < |s.errs| ==> Reported(srcs, s.errs[k], s.cancelled))
  }

  ghost predicate StageInv(srcs: seq<Source>, s: Sys)
    requires |s.workers| == |srcs|
  {
    && (s.taken > 0 ==> s.stage.Returned? && s.stage.result.Some?)
    && (s.stage.Opening? ==>
          && s.stage.next <= |srcs| && !s.closed
          && forall i :: 0 <= i < |srcs| ==> (s.workers[i].pc == Idle <==> s.stage.next <= i))
    && (s.stage == Waiting || s.stage == Draining ==> forall i :: 0 <= i < |srcs| ==> s.workers[i].pc != Idle)
    && (s.stage == Draining ==> s.closed)
    && (s.closed ==> forall i :: 0 <= i < |srcs| ==> Over(s.workers[i].pc))
    && (s.stage == Returned(None) ==> s.closed && s.errs == [])
    && (s.stage.Returned? && s.stage.result.Some? ==>
          s.stage.result.value == OpenFault || (s.stage.result.value == Cancelled && s.cancelled) ||
          Reported(srcs, s.stage.result.value, s.cancelled))
  }

  ghost predicate Inv(srcs: seq<Source>, s: Sys) {
    WorkersInv(srcs, s) && OutputInv(srcs, s) && ChannelInv(srcs, s) && StageInv(srcs, s)
  }

  lemma InitInv(srcs: seq<Source>)
    ensures Inv(srcs, Init(srcs))
  {
    CountsZero(Init(srcs).workers);
  }

  /** The possible moves of a worker, seen from outside. */
  lemma MovedKeepsWorker(src: Source, wk: Worker, work: Work, cancelled: bool, free: bool, room: bool)
    requires WorkerInv(src, wk, cancelled) && Moved(src, wk, work, cancelled, free, room).Some?
    ensures var m := Moved(src, wk, work, cancelled, free, room).value;
            && WorkerInv(src, m, cancelled)
            && Live(wk.pc) && m.pc != Idle && m.pc != Skipped
            && (Live(m.pc) <==> work != Leave)
            && (Told(m.pc) <==> Told(wk.pc) || work == Send) && (work == Send ==> !Told(wk.pc))
            && (wk.pc == Writing <==> work.Write? || work.Tear?) && (m.pc == Writing <==> work == Lock) && (work == Lock ==> free)
            && m.pos == (if work == Write then wk.pos + 1 else wk.pos)
            && (work == Write ==> wk.pos < |src.lines|)
            && (work == Send ==> wk.pc.Sending?)
  {
  }

  /** What a worker's step leaves alone, and what it does to the shared fields. */
  lemma RunShape(srcs: seq<Source>, s: Sys, w: nat, work: Work) returns (m: Worker)
    requires |s.workers| == |srcs| && RunWorker(srcs, s, w, work).Some?
    ensures w < |srcs|
    ensures Moved(srcs[w], s.workers[w], work, s.cancelled, s.mutex == None, |s.errs| < |srcs|) == Some(m)
    ensures var s' := RunWorker(srcs, s, w, work).value;
            && s'.workers == s.workers[w := m]
            && s'.stage == s.stage && s'.closed == s.closed && s'.taken == s.taken && s'.cancelled == s.cancelled
            && s'.mutex == (if work == Lock then Some(w) else if work.Write? || work.Tear? then None else s.mutex)
            && s'.errs == (if work == Send && s.workers[w].pc.Sending? then s.errs + [s.workers[w].pc.fault] else s.errs)
            && s'.live == (if work == Leave then s.live - 1 else s.live)
            && s'.output == if work == Write && s.workers[w].pos < |srcs[w].lines|
                            then s.output + [Line(srcs[w].prefix, srcs[w].lines[s.workers[w].pos])] else s.output
  {
    m := Moved(srcs[w], s.workers[w], work, s.cancelled, s.mutex == None, |s.errs| < |srcs|).value;
  }

  lemma RunKeepsWorkers(srcs: seq<Source>, s: Sys, w: nat, work: Work)
    requires WorkersInv(srcs, s) && RunWorker(srcs, s, w, work).Some?
    ensures WorkersInv(srcs, RunWorker(srcs, s, w, work).value)
  {
    var s' := RunWorker(srcs, s, w, work).value;
    var m := RunShape(srcs, s, w, work);
    assert WorkerInv(srcs[w], s.workers[w], s.cancelled);
    MovedKeepsWorker(srcs[w], s.workers[w], work, s.cancelled, s.mutex == None, |s.errs| < |srcs|);
    forall i | 0 <= i < |srcs|
      ensures WorkerInv(srcs[i], s'.workers[i], s'.cancelled)
      ensures s'.workers[i].pc == Writing <==> s'.mutex == Some(i)
    {
      assert s.workers[i].pc == Writing <==> s.mutex == Some(i);
      assert i != w ==> s'.workers[i] == s.workers[i];
    }
  }

  /** One more line of a source, under its own prefix and no other. */
  lemma LineKeepsShown(srcs: seq<Source>, output: seq<Line>, w: nat, i: nat, at: nat, pos: nat)
    requires DistinctPrefixes(srcs) && w < |srcs| && i < |srcs| && at < |srcs[w].lines|
    requires ShownAt(srcs[i], pos, output) && (i == w ==> pos == at)
    ensures ShownAt(srcs[i], if i == w then pos + 1 else pos, output + [Line(srcs[w].prefix, srcs[w].lines[at])])
  {
    OfAppend(output, Line(srcs[w].prefix, srcs[w].lines[at]), srcs[i].prefix);
    if i == w {
      assert srcs[w].lines[..at + 1] == srcs[w].lines[..at] + [srcs[w].lines[at]];
    }
  }

  lemma RunKeepsOutput(srcs: seq<Source>, s: Sys, w: nat, work: Work)
    requires DistinctPrefixes(srcs) && WorkersInv(srcs, s) && OutputInv(srcs, s) && RunWorker(srcs, s, w, work).Some?
    ensures var s' := RunWorker(srcs, s, w, work).value;
            |s'.workers| == |srcs| && OutputInv(srcs, s')
  {
    var s' := RunWorker(srcs, s, w, work).value;
    var m := RunShape(srcs, s, w, work);
    var wk := s.workers[w];
    assert WorkerInv(srcs[w], wk, s.cancelled);
    MovedKeepsWorker(srcs[w], wk, work, s.cancelled, s.mutex == None, |s.errs| < |srcs|);
    if work == Write {
      forall i | 0 <= i < |srcs|
        ensures ShownAt(srcs[i], s'.workers[i].pos, s'.output)
      {
        LineKeepsShown(srcs, s.output, w, i, wk.pos, s.workers[i].pos);
      }
      assert Tagged(srcs, srcs[w].prefix);
    }
  }

  lemma RunKeepsChannel(srcs: seq<Source>, s: Sys, w: nat, work: Work)
    requires WorkersInv(srcs, s) && ChannelInv(srcs, s) && RunWorker(srcs, s, w, work).Some?
    ensures var s' := RunWorker(srcs, s, w, work).value;
            |s'.workers| == |srcs| && ChannelInv(srcs, s')
  {
    var m := RunShape(srcs, s, w, work);
    assert WorkerInv(srcs[w], s.workers[w], s.cancelled);
    MovedKeepsWorker(srcs[w], s.workers[w], work, s.cancelled, s.mutex == None, |s.errs| < |srcs|);
    CountsUpdate(s.workers, w, m);
    if work == Send {
      assert Earned(srcs[w], s.workers[w].pc.fault, s.cancelled);
    }
  }

  lemma RunKeepsStage(srcs: seq<Source>, s: Sys, w: nat, work: Work)
    requires WorkersInv(srcs, s) && StageInv(srcs, s) && RunWorker(srcs, s, w, work).Some?
    ensures var s' := RunWorker(srcs, s, w, work).value;
            |s'.workers| == |srcs| && StageInv(srcs, s')
  {
    var s' := RunWorker(srcs, s, w, work).value;
    var m := RunShape(srcs, s, w, work);
    assert WorkerInv(srcs[w], s.workers[w], s.cancelled);
    MovedKeepsWorker(srcs[w], s.workers[w], work, s.cancelled, s.mutex == None, |s.errs| < |srcs|);
    assert !s.closed;
    assert forall i :: 0 <= i < |srcs| ==> (s'.workers[i].pc == Idle <==> s.workers[i].pc == Idle);
  }

  /** A worker that has not started becomes a running or a skipped one. */
  lemma StartKeepsWorkers(srcs: seq<Source>, s: Sys, k: nat, pc: Pc)
    requires WorkersInv(srcs, s) && OutputInv(srcs, s) && k < |srcs| && s.workers[k].pc == Idle
    requires pc == Scanning || (pc == Skipped && srcs[k].prefix == "proxy")
    ensures var s' := s.(workers := s.workers[k := Worker(pc, 0)]);
            WorkersInv(srcs, s') && OutputInv(srcs, s')
  {
    var s' := s.(workers := s.workers[k := Worker(pc, 0)]);
    assert WorkerInv(srcs[k], s.workers[k], s.cancelled);
    assert ShownAt(srcs[k], 0, s.output);
    assert forall i :: 0 <= i < |srcs| && i != k ==> s'.workers[i] == s.workers[i];
  }

  lemma StartKeepsStage(srcs: seq<Source>, s: Sys, k: nat, pc: Pc, live: nat)
    requires |s.workers| == |srcs| && StageInv(srcs, s) && s.stage == Opening(k) && k < |srcs| && pc != Idle
    ensures StageInv(srcs, s.(workers := s.workers[k := Worker(pc, 0)], live := live, stage := Opening(k + 1)))
  {
  }

  lemma OpenKeepsInv(srcs: seq<Source>, s: Sys, success: bool)
    requires Inv(srcs, s) && Next(srcs, s, Open(success)).Some?
    ensures Inv(srcs, Next(srcs, s, Open(success)).value)
  {
    var s' := Next(srcs, s, Open(success)).value;
    var k := s.stage.next;
    if s'.stage.Opening? {
      var pc := if success then Scanning else Skipped;
      StartKeepsWorkers(srcs, s, k, pc);
      CountsUpdate(s.workers, k, Worker(pc, 0));
      SameWorkers(srcs, s.(workers := s.workers[k := Worker(pc, 0)]), s');
      StartKeepsStage(srcs, s, k, pc, s'.live);
    } else {
      SameWorkers(srcs, s, s');
    }
  }

  lemma SameWorkers(srcs: seq<Source>, s: Sys, s': Sys)
    requires WorkersInv(srcs, s) && OutputInv(srcs, s)
    requires s'.workers == s.workers && s'.mutex == s.mutex && s'.output == s.output && s'.cancelled == s.cancelled
    ensures WorkersInv(srcs, s') && OutputInv(srcs, s')
  {
  }

  lemma CancelKeepsInv(srcs: seq<Source>, s: Sys)
    requires Inv(srcs, s)
    ensures Inv(srcs, s.(cancelled := true))
  {
    forall f | Reported(srcs, f, s.cancelled)
      ensures Reported(srcs, f, true)
    {
      var i :| 0 <= i < |srcs| && Earned(srcs[i], f, s.cancelled);
      assert Earned(srcs[i], f, true);
    }
    forall i | 0 <= i < |srcs|
      ensures WorkerInv(srcs[i], s.workers[i], true)
    {
      assert WorkerInv(srcs[i], s.workers[i], s.cancelled);
    }
  }

  lemma ReceiveKeepsInv(srcs: seq<Source>, s: Sys)
    requires Inv(srcs, s) && s.errs != [] && (s.stage == Waiting || s.stage == Draining)
    ensures Inv(srcs, Received(s))
  {
    SameWorkers(srcs, s, Received(s));
  }

  lemma WaitKeepsInv(srcs: seq<Source>, s: Sys, a: Act)
    requires Inv(srcs, s) && !a.Run? && !a.Open? && !a.Cancel? && Next(srcs, s, a).Some?
    ensures Inv(srcs, Next(srcs, s, a).value)
  {
    var s' := Next(srcs, s, a).value;
    if a.PickError? || (a.Drain? && s.errs != []) {
      ReceiveKeepsInv(srcs, s);
    } else {
      SameWorkers(srcs, s, s');
      assert ChannelInv(srcs, s');
      if a.CloseDone? {
        CountsBound(s.workers);
      }
    }
  }

  lemma StepKeepsInv(srcs: seq<Source>, s: Sys, a: Act)
    requires DistinctPrefixes(srcs) && Inv(srcs, s) && Next(srcs, s, a).Some?
    ensures Inv(srcs, Next(srcs, s, a).value)
  {
    if a.Run? {
      RunKeepsWorkers(srcs, s, a.w, a.work);
      RunKeepsOutput(srcs, s, a.w, a.work);
      RunKeepsChannel(srcs, s, a.w, a.work);
      RunKeepsStage(srcs, s, a.w, a.work);
    } else if a.Open? {
      OpenKeepsInv(srcs, s, a.success);
    } else if a.Cancel? {
      CancelKeepsInv(srcs, s);
    } else {
      WaitKeepsInv(srcs, s, a);
    }
  }

  // ----- whole runs -----

  /** The state after the acts from the start, if every one of them could be taken. */
  function After(srcs: seq<Source>, acts: seq<Act>): (r: Option<Sys>)
    ensures r.Some? ==> |r.value.workers| == |srcs|
  {
    if acts == [] then Some(Init(srcs))
    else
      var s := After(srcs, acts[..|acts| - 1]);
      if s.None? then None else Next(srcs, s.value, acts[|acts| - 1])
  }

  lemma {:induction false} RunsKeepInv(srcs: seq<Source>, acts: seq<Act>)
    requires DistinctPrefixes(srcs) && After(srcs, acts).Some?
    ensures Inv(srcs, After(srcs, acts).value)
  {
    if acts == [] {
      InitInv(srcs);
    } else {
      RunsKeepInv(srcs, acts[..|acts| - 1]);
      StepKeepsInv(srcs, After(srcs, acts[..|acts| - 1]).value, acts[|acts| - 1]);
    }
  }

  /** A worker with a fault to send always finds room in the channel, and sends only one. */
  lemma SendNeverBlocks(srcs: seq<Source>, acts: seq<Act>, w: nat)
    requires DistinctPrefixes(srcs) && After(srcs, acts).Some? && w < |srcs|
    requires After(srcs, acts).value.workers[w].pc.Sending?
    ensures Next(srcs, After(srcs, acts).value, Run(w, Send)).Some?
    ensures Next(srcs, After(srcs, acts).value, Run(w, Send)).value.workers[w].pc == Leaving(true)
  {
    RunsKeepInv(srcs, acts);
    CountsBound(After(srcs, acts).value.workers);
  }

  /** At any moment the lines under a prefix are, in order, the first lines of that source. */
  lemma OutputIsInOrder(srcs: seq<Source>, acts: seq<Act>, i: nat)
    requires DistinctPrefixes(srcs) && After(srcs, acts).Some? && i < |srcs|
    ensures Of(After(srcs, acts).value.output, srcs[i].prefix) <= srcs[i].lines
  {
    RunsKeepInv(srcs, acts);
    var s := After(srcs, acts).value;
    assert ShownAt(srcs[i], s.workers[i].pos, s.output);
  }

  // ----- fragments of failed writes -----

  /** A worker whose write has failed writes no more. */
  predicate Stopped(pc: Pc) {
    pc == Sending(WriteFault) || pc == Leaving(true) || pc == Finished(true)
  }

  /** The fragment begins the line that its worker wanted to write. */
  predicate Begins(srcs: seq<Source>, s: Sys, f: Fragment) {
    && f.owner < |srcs| && f.owner < |s.workers| && Stopped(s.workers[f.owner].pc) && s.workers[f.owner].pos < |srcs[f.owner].lines|
    && f.piece <= Printed(Line(srcs[f.owner].prefix, srcs[f.owner].lines[s.workers[f.owner].pos]))
  }

  ghost predicate TornInv(srcs: seq<Source>, s: Sys) {
    && (forall k :: 0 <= k < |s.torn| ==> Begins(srcs, s, s.torn[k]))
    && (forall k, l :: 0 <= k < l < |s.torn| ==> s.torn[k].owner != s.torn[l].owner)
  }

  lemma RunTears(srcs: seq<Source>, s: Sys, w: nat, work: Work)
    requires |s.workers| == |srcs| && TornInv(srcs, s) && RunWorker(srcs, s, w, work).Some?
    ensures TornInv(srcs, RunWorker(srcs, s, w, work).value)
  {
    var s' := RunWorker(srcs, s, w, work).value;
    var m := RunShape(srcs, s, w, work);
    assert Stopped(s.workers[w].pc) ==> Stopped(m.pc) && m.pos == s.workers[w].pos;
    forall k | 0 <= k < |s.torn|
      ensures Begins(srcs, s', s.torn[k])
    {
      assert Begins(srcs, s, s.torn[k]);
    }
    if s'.torn != s.torn {
      assert s'.torn == s.torn + [s'.torn[|s.torn|]] && s'.torn[|s.torn|].owner == w && s.workers[w].pc == Writing;
    }
  }

  lemma {:induction false} RunsTear(srcs: seq<Source>, acts: seq<Act>)
    requires DistinctPrefixes(srcs) && After(srcs, acts).Some?
    ensures TornInv(srcs, After(srcs, acts).value)
  {
    if acts != [] {
      var before, a := acts[..|acts| - 1], acts[|acts| - 1];
      RunsTear(srcs, before);
      var s := After(srcs, before).value;
      if a.Run? {
        RunTears(srcs, s, a.w, a.work);
      } else {
        RunsKeepInv(srcs, before);
        MainTears(srcs, s, a);
      }
    }
  }

  lemma MainTears(srcs: seq<Source>, s: Sys, a: Act)
    requires |s.workers| == |srcs| && StageInv(srcs, s) && TornInv(srcs, s) && !a.Run? && Next(srcs, s, a).Some?
    ensures TornInv(srcs, Next(srcs, s, a).value)
  {
    var s' := Next(srcs, s, a).value;
    assert s'.torn == s.torn;
    forall k | 0 <= k < |s.torn|
      ensures Begins(srcs, s', s.torn[k])
    {
      assert Begins(srcs, s, s.torn[k]);
      assert s'.workers[s.torn[k].owner] == s.workers[s.torn[k].owner];
    }
  }

  /**
   A failed write leaves at most one fragment for a source: the beginning of just the line
   that would have come next under its prefix. That source writes nothing more.
   */
  lemma FragmentIsNextLine(srcs: seq<Source>, acts: seq<Act>, k: nat)
    requires DistinctPrefixes(srcs) && After(srcs, acts).Some? && k < |After(srcs, acts).value.torn|
    ensures var s := After(srcs, acts).value;
            var f := s.torn[k];
            && f.owner < |srcs| && Stopped(s.workers[f.owner].pc)
            && var written := |Of(s.output, srcs[f.owner].prefix)|;
               written < |srcs[f.owner].lines| && f.piece <= Printed(Line(srcs[f.owner].prefix, srcs[f.owner].lines[written]))
    ensures forall l :: 0 <= l < |After(srcs, acts).value.torn| && l != k ==>
              After(srcs, acts).value.torn[l].owner != After(srcs, acts).value.torn[k].owner
  {
    RunsTear(srcs, acts);
    RunsKeepInv(srcs, acts);
    var s := After(srcs, acts).value;
    assert Begins(srcs, s, s.torn[k]);
    assert ShownAt(srcs[s.torn[k].owner], s.workers[s.torn[k].owner].pos, s.output);
  }

  /**
   A nil result: every worker is done or was skipped, none reported a fault, the channel is
   empty, and without cancellation every opened source was written out in full.
   */
  lemma NilMeansComplete(srcs: seq<Source>, acts: seq<Act>)
    requires DistinctPrefixes(srcs) && After(srcs, acts).Some?
    requires After(srcs, acts).value.stage == Returned(None)
    ensures forall i :: 0 <= i < |srcs| ==> Quiet(srcs[i], After(srcs, acts).value.workers[i].pc)
    ensures var s := After(srcs, acts).value;
            !s.cancelled ==> forall i :: 0 <= i < |srcs| && s.workers[i].pc != Skipped ==>
              Of(s.output, srcs[i].prefix) == srcs[i].lines && !srcs[i].broken
  {
    RunsKeepInv(srcs, acts);
    var s := After(srcs, acts).value;
    NilIsQuiet(srcs, s);
    forall i | 0 <= i < |srcs| && s.workers[i].pc != Skipped && !s.cancelled
      ensures Of(s.output, srcs[i].prefix) == srcs[i].lines && !srcs[i].broken
    {
      assert Quiet(srcs[i], s.workers[i].pc);
      assert WorkerInv(srcs[i], s.workers[i], s.cancelled);
      assert ShownAt(srcs[i], s.workers[i].pos, s.output);
      assert srcs[i].lines[..|srcs[i].lines|] == srcs[i].lines;
    }
  }

  /** Ended without a fault, or a proxy that was never opened. */
  predicate Quiet(src: Source, pc: Pc) {
    pc == Finished(false) || (pc == Skipped && src.prefix == "proxy")
  }

  lemma NilIsQuiet(srcs: seq<Source>, s: Sys)
    requires WorkersInv(srcs, s) && ChannelInv(srcs, s) && StageInv(srcs, s) && s.stage == Returned(None)
    ensures forall i :: 0 <= i < |srcs| ==> Quiet(srcs[i], s.workers[i].pc)
  {
    CountsBound(s.workers);
    forall i | 0 <= i < |srcs|
      ensures Quiet(srcs[i], s.workers[i].pc)
    {
      assert WorkerInv(srcs[i], s.workers[i], s.cancelled);
      assert Over(s.workers[i].pc) && !Told(s.workers[i].pc);
    }
  }

  /** After a nil result nothing is written any more. */
  lemma NilIsFinal(srcs: seq<Source>, acts: seq<Act>, a: Act)
    requires DistinctPrefixes(srcs) && After(srcs, acts).Some? && Next(srcs, After(srcs, acts).value, a).Some?
    requires After(srcs, acts).value.stage == Returned(None)
    ensures Next(srcs, After(srcs, acts).value, a).value.output == After(srcs, acts).value.output
    ensures Next(srcs, After(srcs, acts).value, a).value.torn == After(srcs, acts).value.torn
  {
    RunsKeepInv(srcs, acts);
    var s := After(srcs, acts).value;
    if a.Run? {
      var m := RunShape(srcs, s, a.w, a.work);
      assert Over(s.workers[a.w].pc);
    }
  }

  /** A fault that really happened in the run: a failed open, a failed write, or the cancellation. */
  ghost predicate Happened(acts: seq<Act>, f: Fault) {
    && (f == OpenFault ==> Open(false) in acts)
    && (f == WriteFault ==> exists w, part :: Run(w, Tear(part)) in acts)
    && (f == Cancelled ==> Cancel in acts)
  }

  /** Every fault on its way, in the channel or returned, has happened. */
  ghost predicate AllHappened(acts: seq<Act>, s: Sys) {
    && (s.cancelled ==> Cancel in acts)
    && (forall i :: 0 <= i < |s.workers| && s.workers[i].pc.Sending? ==> Happened(acts, s.workers[i].pc.fault))
    && (forall k :: 0 <= k < |s.errs| ==> Happened(acts, s.errs[k]))
    && (s.stage.Returned? && s.stage.result.Some? ==> Happened(acts, s.stage.result.value))
  }

  lemma StillHappened(acts: seq<Act>, a: Act, s: Sys)
    requires AllHappened(acts, s)
    ensures AllHappened(acts + [a], s)
  {
    forall f | Happened(acts, f)
      ensures Happened(acts + [a], f)
    {
      if f == WriteFault {
        var w, part :| Run(w, Tear(part)) in acts;
        assert Run(w, Tear(part)) in acts + [a];
      }
    }
  }

  /** A worker takes up only a fault that happens in this step. */
  lemma MovedHappens(src: Source, wk: Worker, work: Work, cancelled: bool, free: bool, room: bool)
    requires Moved(src, wk, work, cancelled, free, room).Some?
    ensures var m := Moved(src, wk, work, cancelled, free, room).value;
            m.pc.Sending? ==>
              && (m.pc.fault == WriteFault ==> work.Tear?)
              && (m.pc.fault == Cancelled ==> cancelled) && m.pc.fault != OpenFault
  {
  }

  lemma RunHappens(srcs: seq<Source>, acts: seq<Act>, s: Sys, w: nat, work: Work)
    requires |s.workers| == |srcs| && AllHappened(acts, s) && Run(w, work) in acts && RunWorker(srcs, s, w, work).Some?
    ensures AllHappened(acts, RunWorker(srcs, s, w, work).value)
  {
    var s' := RunWorker(srcs, s, w, work).value;
    var m := RunShape(srcs, s, w, work);
    MovedHappens(srcs[w], s.workers[w], work, s.cancelled, s.mutex == None, |s.errs| < |srcs|);
    assert m.pc.Sending? ==> Happened(acts, m.pc.fault);
    forall i | 0 <= i < |s'.workers| && s'.workers[i].pc.Sending?
      ensures Happened(acts, s'.workers[i].pc.fault)
    {
      assert i != w ==> s'.workers[i] == s.workers[i];
    }
  }

  lemma StepHappens(srcs: seq<Source>, acts: seq<Act>, s: Sys, a: Act)
    requires |s.workers| == |srcs| && AllHappened(acts, s) && a in acts && Next(srcs, s, a).Some?
    ensures AllHappened(acts, Next(srcs, s, a).value)
  {
    if a.Run? {
      RunHappens(srcs, acts, s, a.w, a.work);
    } else if a.Open? {
      var s' := Next(srcs, s, a).value;
      assert forall i :: 0 <= i < |srcs| && s'.workers[i].pc.Sending? ==> s'.workers[i] == s.workers[i];
    }
  }

  lemma {:induction false} RunsHappen(srcs: seq<Source>, acts: seq<Act>)
    requires After(srcs, acts).Some?
    ensures AllHappened(acts, After(srcs, acts).value)
  {
    if acts != [] {
      var before, a := acts[..|acts| - 1], acts[|acts| - 1];
      RunsHappen(srcs, before);
      assert acts == before + [a];
      StillHappened(before, a, After(srcs, before).value);
      StepHappens(srcs, acts, After(srcs, before).value, a);
    }
  }

  /**
   An error result is never invented: an open or a write has failed, the context was
   cancelled, or a stream is broken.
   */
  lemma ErrorIsEarned(srcs: seq<Source>, acts: seq<Act>)
    requires DistinctPrefixes(srcs) && After(srcs, acts).Some?
    requires After(srcs, acts).value.stage.Returned? && After(srcs, acts).value.stage.result.Some?
    ensures var f := After(srcs, acts).value.stage.result.value;
            Happened(acts, f) && (f == ScanFault ==> exists i :: 0 <= i < |srcs| && srcs[i].broken)
  {
    RunsKeepInv(srcs, acts);
    RunsHappen(srcs, acts);
  }

  // ----- progress -----

  /** The next thing a worker can do, whatever the others do, unless it waits for the lock. */
  function Ready(src: Source, wk: Worker): Work {
    match wk.pc
    case Got => CheckContext
    case Locking => Lock
    case Writing => Write
    case Broke => Judge
    case Sending(_) => Send
    case Leaving(_) => Leave
    case _ => if wk.pos < |src.lines| then ScanLine else if src.broken then ScanBreak else ScanEnd
  }

  lemma WorkerCanRun(srcs: seq<Source>, s: Sys, w: nat)
    requires Inv(srcs, s) && w < |srcs| && Live(s.workers[w].pc)
    requires s.workers[w].pc == Locking ==> s.mutex == None
    ensures Next(srcs, s, Run(w, Ready(srcs[w], s.workers[w]))).Some?
  {
    CountsBound(s.workers);
    assert WorkerInv(srcs[w], s.workers[w], s.cancelled);
  }

  /** Until Logs returns, some thread can move without the caller cancelling. */
  lemma NoDeadlock(srcs: seq<Source>, acts: seq<Act>) returns (a: Act)
    requires DistinctPrefixes(srcs) && After(srcs, acts).Some?
    requires !After(srcs, acts).value.stage.Returned?
    ensures a != Cancel && Next(srcs, After(srcs, acts).value, a).Some?
  {
    RunsKeepInv(srcs, acts);
    var s := After(srcs, acts).value;
    if s.stage.Opening? {
      a := if s.stage.next < |srcs| then Open(true) else EndOpening;
    } else if s.stage == Draining {
      a := Drain;
    } else if s.closed {
      a := PickDone;
    } else if s.mutex.Some? {
      var w := s.mutex.value;
      WorkerCanRun(srcs, s, w);
      a := Run(w, Ready(srcs[w], s.workers[w]));
    } else if w: nat :| w < |srcs| && Live(s.workers[w].pc) {
      WorkerCanRun(srcs, s, w);
      a := Run(w, Ready(srcs[w], s.workers[w]));
    } else {
      NoLives(s.workers);
      a := CloseDone;
    }
  }

  /** Once every source is open Logs need not wait for the others: a cancellation or the first fault can end it at once. */
  lemma EndsAtOnce(srcs: seq<Source>, acts: seq<Act>)
    requires DistinctPrefixes(srcs) && After(srcs, acts).Some?
    requires After(srcs, acts).value.stage == Waiting
    ensures var s := After(srcs, acts).value;
            && (s.cancelled ==> exists a :: EndsWith(srcs, s, a, Cancelled))
            && (s.errs != [] ==> exists a :: EndsWith(srcs, s, a, s.errs[0]))
  {
    RunsKeepInv(srcs, acts);
    var s := After(srcs, acts).value;
    if s.cancelled {
      assert EndsWith(srcs, s, PickCancel, Cancelled);
    }
    if s.errs != [] {
      assert EndsWith(srcs, s, PickError, s.errs[0]);
    }
  }

  predicate EndsWith(srcs: seq<Source>, s: Sys, a: Act, f: Fault)
    requires |s.workers| == |srcs|
  {
    Next(srcs, s, a).Some? && Next(srcs, s, a).value.stage == Returned(Some(f))
  }

  lemma {:induction false} NoLives(ws: seq<Worker>)
    requires forall i :: 0 <= i < |ws| ==> !Live(ws[i].pc)
    ensures Lives(ws) == 0
  {
    if ws != [] {
      NoLives(ws[1..]);
    }
  }

  /** How many steps a worker still has before it. */
  function Ahead(src: Source, wk: Worker): int {
    var rest := 4 * (|src.lines| - wk.pos);
    match wk.pc
    case Idle => rest + 5
    case Scanning => rest + 4
    case Got => rest + 3
    case Locking => rest + 2
    case Writing => rest + 1
    case Broke => 3
    case Sending(_) => 2
    case Leaving(_) => 1
    case Skipped => 0
    case Finished(_) => 0
  }

  function AllAhead(srcs: seq<Source>, ws: seq<Worker>): int
    requires |srcs| == |ws|
  {
    if ws == [] then 0 else Ahead(srcs[0], ws[0]) + AllAhead(srcs[1..], ws[1..])
  }

  function Remaining(srcs: seq<Source>, s: Sys): int
    requires |s.workers| == |srcs|
  {
    AllAhead(srcs, s.workers) + (if s.closed then 0 else 1) +
    match s.stage
    case Opening(k) => |srcs| - k + 3
    case Waiting => 2
    case Draining => 1
    case Returned(_) => 0
  }

  lemma {:induction false} AheadUpdate(srcs: seq<Source>, ws: seq<Worker>, i: nat, wk: Worker)
    requires |srcs| == |ws| && i < |ws|
    ensures AllAhead(srcs, ws[i := wk]) == AllAhead(srcs, ws) - Ahead(srcs[i], ws[i]) + Ahead(srcs[i], wk)
  {
    if i == 0 {
      assert ws[i := wk][1..] == ws[1..];
    } else {
      AheadUpdate(srcs[1..], ws[1..], i - 1, wk);
      assert ws[i := wk][1..] == ws[1..][i - 1 := wk];
    }
  }

  lemma {:induction false} AheadIsNat(srcs: seq<Source>, ws: seq<Worker>)
    requires |srcs| == |ws| && forall i :: 0 <= i < |ws| ==> ws[i].pos <= |srcs[i].lines|
    ensures AllAhead(srcs, ws) >= 0
  {
    if ws != [] {
      AheadIsNat(srcs[1..], ws[1..]);
    }
  }

  lemma MovedIsAhead(src: Source, wk: Worker, work: Work, cancelled: bool, free: bool, room: bool)
    requires WorkerInv(src, wk, cancelled) && Moved(src, wk, work, cancelled, free, room).Some?
    ensures Ahead(src, Moved(src, wk, work, cancelled, free, room).value) < Ahead(src, wk)
  {
  }

  lemma StepUsesUp(srcs: seq<Source>, s: Sys, a: Act)
    requires WorkersInv(srcs, s) && StageInv(srcs, s) && a != Cancel && Next(srcs, s, a).Some?
    ensures |Next(srcs, s, a).value.workers| == |srcs|
    ensures Remaining(srcs, Next(srcs, s, a).value) < Remaining(srcs, s)
  {
    if a.Run? {
      var m := RunShape(srcs, s, a.w, a.work);
      assert WorkerInv(srcs[a.w], s.workers[a.w], s.cancelled);
      MovedIsAhead(srcs[a.w], s.workers[a.w], a.work, s.cancelled, s.mutex == None, |s.errs| < |srcs|);
      AheadUpdate(srcs, s.workers, a.w, m);
    } else if a.Open? {
      var k := s.stage.next;
      assert WorkerInv(srcs[k], s.workers[k], s.cancelled);
      AheadUpdate(srcs, s.workers, k, Worker(Scanning, 0));
      AheadUpdate(srcs, s.workers, k, Worker(Skipped, 0));
    }
  }

  function Steps(acts: seq<Act>): nat {
    if acts == [] then 0 else Steps(acts[..|acts| - 1]) + if acts[|acts| - 1] == Cancel then 0 else 1
  }

  /** Every run is short: its steps, cancellations aside, are bounded by what there was to do. */
  lemma RunsEnd(srcs: seq<Source>, acts: seq<Act>)
    requires DistinctPrefixes(srcs) && After(srcs, acts).Some?
    ensures Steps(acts) <= Remaining(srcs, Init(srcs))
  {
    RunsKeepInv(srcs, acts);
    var s := After(srcs, acts).value;
    assert forall i :: 0 <= i < |srcs| ==> WorkerInv(srcs[i], s.workers[i], s.cancelled);
    AheadIsNat(srcs, s.workers);
    RunsUseUp(srcs, acts);
  }

  lemma {:induction false} RunsUseUp(srcs: seq<Source>, acts: seq<Act>)
    requires DistinctPrefixes(srcs) && After(srcs, acts).Some?
    ensures Steps(acts) + Remaining(srcs, After(srcs, acts).value) <= Remaining(srcs, Init(srcs))
  {
    if acts != [] {
      var before := acts[..|acts| - 1];
      var a := acts[|acts| - 1];
      RunsUseUp(srcs, before);
      RunsKeepInv(srcs, before);
      if a != Cancel {
        StepUsesUp(srcs, After(srcs, before).value, a);
      }
    }
  }

  // ----- streams without end -----

  /** How many steps a worker has made at most, by the lines it has written. */
  function Spent(wk: Worker): nat {
    match wk.pc
    case Idle => 0
    case Skipped => 1
    case Scanning => 4 * wk.pos + 1
    case Got => 4 * wk.pos + 2
    case Broke => 4 * wk.pos + 2
    case Locking => 4 * wk.pos + 3
    case Writing => 4 * wk.pos + 4
    case Sending(_) => 4 * wk.pos + 5
    case Leaving(_) => 4 * wk.pos + 6
    case Finished(_) => 4 * wk.pos + 7
  }

  function AllSpent(ws: seq<Worker>): nat {
    if ws == [] then 0 else Spent(ws[0]) + AllSpent(ws[1..])
  }

  function Positions(ws: seq<Worker>): nat {
    if ws == [] then 0 else ws[0].pos + Positions(ws[1..])
  }

  function StageSpent(n: nat, stage: Stage): nat {
    match stage
    case Opening(k) => k
    case Waiting => n + 1
    case Draining => n + 2
    case Returned(_) => n + 3
  }

  function TotalSpent(srcs: seq<Source>, s: Sys): nat {
    AllSpent(s.workers) + StageSpent(|srcs|, s.stage) + if s.closed then 1 else 0
  }

  lemma {:induction false} SpentUpdate(ws: seq<Worker>, i: nat, wk: Worker)
    requires i < |ws|
    ensures AllSpent(ws[i := wk]) == AllSpent(ws) - Spent(ws[i]) + Spent(wk)
    ensures Positions(ws[i := wk]) == Positions(ws) - ws[i].pos + wk.pos
  {
    if i == 0 {
      assert ws[i := wk][1..] == ws[1..];
    } else {
      SpentUpdate(ws[1..], i - 1, wk);
      assert ws[i := wk][1..] == ws[1..][i - 1 := wk];
    }
  }

  lemma {:induction false} SpentBound(ws: seq<Worker>)
    ensures AllSpent(ws) <= 4 * Positions(ws) + 7 * |ws|
  {
    if ws != [] {
      SpentBound(ws[1..]);
    }
  }

  lemma MovedSpends(src: Source, wk: Worker, work: Work, cancelled: bool, free: bool, room: bool)
    requires Moved(src, wk, work, cancelled, free, room).Some?
    ensures Spent(Moved(src, wk, work, cancelled, free, room).value) > Spent(wk)
  {
  }

  lemma StepSpends(srcs: seq<Source>, s: Sys, a: Act)
    requires WorkersInv(srcs, s) && StageInv(srcs, s) && a != Cancel && Next(srcs, s, a).Some?
    requires Positions(s.workers) == |s.output|
    ensures var s' := Next(srcs, s, a).value;
            TotalSpent(srcs, s') > TotalSpent(srcs, s) && Positions(s'.workers) == |s'.output|
  {
    if a.Run? {
      var m := RunShape(srcs, s, a.w, a.work);
      assert WorkerInv(srcs[a.w], s.workers[a.w], s.cancelled);
      MovedKeepsWorker(srcs[a.w], s.workers[a.w], a.work, s.cancelled, s.mutex == None, |s.errs| < |srcs|);
      MovedSpends(srcs[a.w], s.workers[a.w], a.work, s.cancelled, s.mutex == None, |s.errs| < |srcs|);
      SpentUpdate(s.workers, a.w, m);
    } else if a.Open? {
      var k := s.stage.next;
      assert WorkerInv(srcs[k], s.workers[k], s.cancelled);
      SpentUpdate(s.workers, k, Worker(Scanning, 0));
      SpentUpdate(s.workers, k, Worker(Skipped, 0));
    }
  }

  lemma {:induction false} NothingSpent(ws: seq<Worker>)
    requires forall i :: 0 <= i < |ws| ==> ws[i] == Worker(Idle, 0)
    ensures AllSpent(ws) == 0 && Positions(ws) == 0
  {
    if ws != [] {
      NothingSpent(ws[1..]);
    }
  }

  lemma {:induction false} RunsSpend(srcs: seq<Source>, acts: seq<Act>)
    requires DistinctPrefixes(srcs) && After(srcs, acts).Some?
    ensures var s := After(srcs, acts).value; Positions(s.workers) == |s.output| && Steps(acts) <= TotalSpent(srcs, s)
  {
    if acts == [] {
      NothingSpent(Init(srcs).workers);
    } else {
      var before, a := acts[..|acts| - 1], acts[|acts| - 1];
      RunsSpend(srcs, before);
      RunsKeepInv(srcs, before);
      if a != Cancel {
        StepSpends(srcs, After(srcs, before).value, a);
      }
    }
  }

  /**
   However long the streams are, a run takes at most four steps for each line it writes and
   a fixed number for each source besides: no thread works without output coming of it.
   */
  lemma StepsFollowOutput(srcs: seq<Source>, acts: seq<Act>)
    requires DistinctPrefixes(srcs) && After(srcs, acts).Some?
    ensures Steps(acts) <= 4 * |After(srcs, acts).value.output| + 8 * |srcs| + 4
  {
    RunsSpend(srcs, acts);
    RunsKeepInv(srcs, acts);
    SpentBound(After(srcs, acts).value.workers);
  }

  // ----- without faults the result is nil -----

  /** An act in which nothing goes wrong, except that a proxy may fail to open. */
  predicate Harmless(srcs: seq<Source>, s: Sys, a: Act)
  {
    && a != Cancel
    && (a == Open(false) && s.stage.Opening? && s.stage.next < |srcs| ==> srcs[s.stage.next].prefix == "proxy")
    && (a.Run? ==> !a.work.Tear?)
  }

  predicate Calm(s: Sys) {
    && !s.cancelled && s.errs == []
    && (s.stage.Returned? ==> s.stage.result == None)
    && forall i :: 0 <= i < |s.workers| ==> !s.workers[i].pc.Sending? && s.workers[i].pc != Broke
  }

  predicate HarmlessRun(srcs: seq<Source>, acts: seq<Act>) {
    acts == [] ||
    var before := acts[..|acts| - 1];
    HarmlessRun(srcs, before) && After(srcs, before).Some? &&
    Harmless(srcs, After(srcs, before).value, acts[|acts| - 1])
  }

  /** If no stream breaks, no write fails, the sandbox opens and nobody cancels, Logs can only return nil. */
  lemma {:induction false} HarmlessRunsReturnNil(srcs: seq<Source>, acts: seq<Act>)
    requires forall i :: 0 <= i < |srcs| ==> !srcs[i].broken
    requires After(srcs, acts).Some? && HarmlessRun(srcs, acts)
    ensures Calm(After(srcs, acts).value)
  {
    if acts != [] {
      HarmlessRunsReturnNil(srcs, acts[..|acts| - 1]);
      CalmStep(srcs, After(srcs, acts[..|acts| - 1]).value, acts[|acts| - 1]);
    }
  }

  lemma CalmStep(srcs: seq<Source>, s: Sys, a: Act)
    requires |s.workers| == |srcs| && forall i :: 0 <= i < |srcs| ==> !srcs[i].broken
    requires Calm(s) && Harmless(srcs, s, a) && Next(srcs, s, a).Some?
    ensures Calm(Next(srcs, s, a).value)
  {
  }

  // ----- nil does not mean complete once the context is cancelled -----

  lemma AfterStep(srcs: seq<Source>, acts: seq<Act>, s: Sys, a: Act)
    requires After(srcs, acts) == Some(s) && |s.workers| == |srcs|
    ensures After(srcs, acts + [a]) == Next(srcs, s, a)
  {
    assert (acts + [a])[..|acts|] == acts;
  }

  /** Both sources dealt with, then the context cancelled before anything is read. */
  lemma UpToCancel(srcs: seq<Source>) returns (acts: seq<Act>, s: Sys)
    requires |srcs| == 2 && srcs[1].prefix == "proxy" && |srcs[0].lines| == 1
    ensures After(srcs, acts) == Some(s) && |s.workers| == |srcs|
    ensures s.stage == Waiting && s.output == [] && s.cancelled && s.errs == [] && s.live == 1 && !s.closed
    ensures s.workers[0] == Worker(Scanning, 0)
  {
    s, acts := Init(srcs), [];
    s, acts := TakeStep(srcs, acts, s, Open(true));
    s, acts := TakeStep(srcs, acts, s, Open(false));
    s, acts := TakeStep(srcs, acts, s, EndOpening);
    s, acts := TakeStep(srcs, acts, s, Cancel);
  }

  /** The only worker's stream breaks off; it keeps the error to itself and leaves. */
  lemma UpToLeave(srcs: seq<Source>) returns (acts: seq<Act>, s: Sys)
    requires |srcs| == 2 && srcs[1].prefix == "proxy" && |srcs[0].lines| == 1
    ensures After(srcs, acts) == Some(s) && |s.workers| == |srcs|
    ensures s.stage == Waiting && s.output == [] && s.errs == [] && s.live == 0 && !s.closed
    ensures s.workers[0].pc == Finished(false)
  {
    acts, s := UpToCancel(srcs);
    s, acts := TakeStep(srcs, acts, s, Run(0, ScanBreak));
    s, acts := TakeStep(srcs, acts, s, Run(0, Judge));
    s, acts := TakeStep(srcs, acts, s, Run(0, Leave));
  }

  lemma TakeStep(srcs: seq<Source>, acts: seq<Act>, s: Sys, a: Act) returns (s': Sys, acts': seq<Act>)
    requires After(srcs, acts) == Some(s) && |s.workers| == |srcs| && Next(srcs, s, a).Some?
    ensures Some(s') == Next(srcs, s, a) && After(srcs, acts') == Some(s') && |s'.workers| == |srcs|
  {
    acts' := acts + [a];
    AfterStep(srcs, acts, s, a);
    s' := Next(srcs, s, a).value;
  }

  /** The sandbox's only line is lost: its stream breaks off after the cancellation, and Logs returns nil. */
  lemma CancelledNilIsTruncated() returns (srcs: seq<Source>, acts: seq<Act>)
    ensures DistinctPrefixes(srcs) && After(srcs, acts).Some? && srcs != []
    ensures var s := After(srcs, acts).value;
            s.stage == Returned(None) && s.output == [] && s.workers[0].pc != Skipped && srcs[0].lines != []
  {
    srcs := [Source("sandbox", ["a"], false), Source("proxy", ["b"], false)];
    assert |srcs[0].prefix| != |srcs[1].prefix|;
    var s;
    acts, s := UpToLeave(srcs);
    s, acts := TakeStep(srcs, acts, s, CloseDone);
    s, acts := TakeStep(srcs, acts, s, PickDone);
    s, acts := TakeStep(srcs, acts, s, Drain);
  }
}

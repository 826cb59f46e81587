/** A run with a parser, as one system. */
module ExactLoad {
  // The raw source, the core's data phase with its feed and pump, the parser and
  // the destination, each taking its steps in any order, over pipes that keep
  // what is written to them. Any of them may fail or die at any step.
  //
  // The claim: whatever a destination finalized is exactly the batches of every
  // distinct announced file, in the order of first announcement.

  import opened Wrappers
  import opened ParserFeed
  import opened CommitPoint

  /** The raw source and the core's feed: the core received the first
      `received` announcements; `handed` are the lines written to the parser. */
  datatype Feeding = Feeding(announced: seq<Path>, announcing: bool, received: nat, sent: set<Path>, handed: seq<Path>)

  /** The file being parsed and how many of its batches were written. */
  datatype Current = Current(path: Path, next: nat)

  /** The parser: it read `taken` lines of its input. */
  datatype Parser = Parser(taken: nat, eof: bool, seen: set<Path>, queue: seq<Path>, current: Option<Current>,
                           parsed: seq<Path>, out: seq<Batch>, ended: bool, alive: bool)

  /** The pump read `read` of the parser's batches and wrote `forwarded`. */
  datatype Copying = Copying(read: nat, writerOpen: bool, aborted: bool, forwarded: seq<Batch>,
                             done: bool, clean: bool, marker: bool)

  datatype Loading = Loading(written: seq<Batch>, finalized: Option<seq<Batch>>, alive: bool)

  datatype Sys = Sys(disk: Disk, declaresSchema: bool,
                     feed: Feeding, core: Core, parser: Parser, pump: Copying, load: Loading)

  datatype Step =
    | Announce(path: Path)
    | AnnouncesNoMore
    | CoreSees(event: Event)
    | ParserTakes
    | ParserOpens
    | ParserWrites
    | ParserCloses
    | ParserEnds
    | ParserDies
    | PumpCopies(delivered: bool)
    | PumpDrops
    | PumpStops(atMarker: bool)
    | MarkerIsWritten
    | DestinationWrites
    | DestinationFinalizes
    | DestinationDies

  ghost predicate Initial(s: Sys) {
    && s.feed == Feeding([], true, 0, {}, [])
    && CanStart(s.core) && s.core.parser && s.core.filesOpen
    && s.core.raw.Running? && s.core.producer.Running?
    && s.parser == Parser(0, false, {}, [], None, [], [], false, true)
    && !s.pump.aborted && !s.pump.done && !s.pump.clean && !s.pump.marker && s.pump.read == 0 && s.pump.forwarded == []
    && s.load.written == [] && s.load.finalized.None?
  }

  // ----- the steps ---------------------------------------------------------------

  /** What the core can be told depends on what the others did. */
  predicate Plausible(s: Sys, e: Event) {
    match e
    case Announced(file) =>
      if file then s.feed.received < |s.feed.announced|
      else s.feed.received == |s.feed.announced| && !s.feed.announcing
    case PumpEnded(readError, markerRead, output) =>
      s.pump.done && markerRead == s.pump.clean && output == if s.pump.writerOpen then Open else Closed
    case MarkerReported(ok) => ok ==> s.pump.marker
    case FromProducer(i) => i == Finished(true) ==> s.parser.ended
    case FromDestination(i) => i == Finished(true) ==> s.load.finalized.Some?
    case _ => true
  }

  predicate CoreCan(s: Sys, e: Event) { !Over(s.core) && Enabled(s.core, e) && Plausible(s, e) }

  /** The core reacts, then does what it does before it waits again. */
  function CoreAfter(c: Core, e: Event): Core { Top(React(c, e)) }

  function FeedAfter(f: Feeding, e: Event): Feeding
    requires e == Announced(true) ==> f.received < |f.announced|
  {
    if e == Announced(true) then
      var path := f.announced[f.received];
      f.(received := f.received + 1, sent := f.sent + {path},
         handed := if path in f.sent then f.handed else f.handed + [path])
    else f
  }

  predicate ParserCan(s: Sys, step: Step) {
    var p := s.parser;
    match step
    case ParserTakes => p.alive && !p.eof && (p.taken < |s.feed.handed| || s.core.inputClosed)
    case ParserOpens => p.alive && p.current.None? && p.queue != []
    case ParserWrites => p.alive && p.current.Some? && p.current.value.path in s.disk
                         && p.current.value.next < |s.disk[p.current.value.path]|
    case ParserCloses => p.alive && p.current.Some? && p.current.value.path in s.disk
                         && p.current.value.next == |s.disk[p.current.value.path]|
    case ParserEnds => p.alive && p.eof && p.queue == [] && p.current.None? && (s.declaresSchema || p.parsed != [])
    case ParserDies => true
    case _ => false
  }

  function ParserAfter(s: Sys, step: Step): Parser
    requires ParserCan(s, step)
  {
    var p := s.parser;
    match step
    case ParserTakes =>
      if p.taken < |s.feed.handed| then
        var path := s.feed.handed[p.taken];
        p.(taken := p.taken + 1, seen := p.seen + {path}, queue := if path in p.seen then p.queue else p.queue + [path])
      else p.(eof := true)
    case ParserOpens =>
      if p.queue[0] in s.disk then p.(queue := p.queue[1..], current := Some(Current(p.queue[0], 0)))
      else p.(alive := false)
    case ParserWrites =>
      var c := p.current.value;
      p.(current := Some(Current(c.path, c.next + 1)), out := p.out + [s.disk[c.path][c.next]])
    case ParserCloses => p.(current := None, parsed := p.parsed + [p.current.value.path])
    case ParserEnds => p.(ended := true, alive := false)
    case ParserDies => p.(alive := false)
  }

  predicate PumpCan(s: Sys, step: Step) {
    match step
    case PumpCopies(_) => !s.pump.done && s.pump.read < |s.parser.out|
    case PumpDrops => !s.pump.done && s.pump.read < |s.parser.out| && s.core.failed
    case PumpStops(atMarker) => !s.pump.done && (atMarker ==> s.pump.read == |s.parser.out| && s.parser.ended)
    case MarkerIsWritten => s.core.writing && s.pump.writerOpen
    case _ => false
  }

  function PumpAfter(s: Sys, step: Step): Copying
    requires PumpCan(s, step)
  {
    var p := s.pump;
    match step
    case PumpCopies(delivered) =>
      if !p.writerOpen then p.(read := p.read + 1)
      else if delivered then p.(read := p.read + 1, forwarded := p.forwarded + [s.parser.out[p.read]])
      else p.(read := p.read + 1, writerOpen := false)
    case PumpDrops => p.(read := p.read + 1, aborted := true)
    case PumpStops(atMarker) => p.(done := true, clean := atMarker)
    case MarkerIsWritten => p.(marker := true)
  }

  predicate LoadCan(s: Sys, step: Step) {
    match step
    case DestinationWrites => s.load.alive && |s.load.written| < |s.pump.forwarded|
    case DestinationFinalizes =>
      s.load.alive && s.load.written == s.pump.forwarded && s.pump.marker && s.load.finalized.None?
    case DestinationDies => true
    case _ => false
  }

  function LoadAfter(s: Sys, step: Step): Loading
    requires LoadCan(s, step)
  {
    match step
    case DestinationWrites => s.load.(written := s.load.written + [s.pump.forwarded[|s.load.written|]])
    case DestinationFinalizes => s.load.(finalized := Some(s.load.written))
    case DestinationDies => s.load.(alive := false)
  }

  predicate CanStep(s: Sys, step: Step) {
    || ((step.Announce? || step.AnnouncesNoMore?) && s.feed.announcing)
    || (step.CoreSees? && CoreCan(s, step.event))
    || ParserCan(s, step) || PumpCan(s, step) || LoadCan(s, step)
  }

  function Next(s: Sys, step: Step): Sys
    requires CanStep(s, step)
  {
    if step.Announce? then s.(feed := s.feed.(announced := s.feed.announced + [step.path]))
    else if step.AnnouncesNoMore? then s.(feed := s.feed.(announcing := false))
    else if step.CoreSees? then s.(core := CoreAfter(s.core, step.event), feed := FeedAfter(s.feed, step.event))
    else if ParserCan(s, step) then s.(parser := ParserAfter(s, step))
    else if PumpCan(s, step) then s.(pump := PumpAfter(s, step))
    else s.(load := LoadAfter(s, step))
  }

  function Run(s: Sys, steps: seq<Step>): Option<Sys>
    decreases |steps|
  {
    if steps == [] then Some(s)
    else if CanStep(s, steps[0]) then Run(Next(s, steps[0]), steps[1..])
    else None
  }

  // ----- the invariant --------------------------------------------------------

  /** The feed handed over each announced file once; its end is the end of the
      announcements. */
  ghost predicate FeedOk(f: Feeding, filesOpen: bool, inputClosed: bool) {
    && f.received <= |f.announced|
    && f.handed == Distinct(f.announced[..f.received])
    && (forall p :: p in f.sent <==> p in f.announced[..f.received])
    && (!filesOpen ==> !f.announcing && f.received == |f.announced|)
    && (inputClosed ==> !filesOpen)
  }

  function Begun(p: Parser): seq<Path> { p.parsed + if p.current.Some? then [p.current.value.path] else [] }

  /** Parsed, being parsed and queued: exactly what was taken, in order. */
  ghost predicate QueueOk(handed: seq<Path>, p: Parser) {
    && p.taken <= |handed|
    && Begun(p) + p.queue == handed[..p.taken]
    && (forall x :: x in p.seen <==> x in handed[..p.taken])
    && (p.ended ==> p.eof && p.queue == [] && p.current.None? && !p.alive)
  }

  /** The stream holds the parsed files and the begun part of the current one. */
  ghost predicate OutOk(disk: Disk, p: Parser) {
    && (forall x :: x in p.parsed ==> x in disk)
    && (p.current.Some? ==> p.current.value.path in disk && p.current.value.next <= |disk[p.current.value.path]|)
    && p.out == Batches(disk, p.parsed)
                + (if p.current.Some? then disk[p.current.value.path][..p.current.value.next] else [])
  }

  ghost predicate InputOk(handed: seq<Path>, inputClosed: bool, p: Parser) {
    p.eof ==> p.taken == |handed| && inputClosed
  }

  ghost predicate PumpOk(p: Copying, out: seq<Batch>, ended: bool, core: Core) {
    && p.read <= |out|
    && (p.writerOpen && !p.aborted ==> p.forwarded == out[..p.read])
    && (p.aborted ==> core.failed)
    && (p.clean ==> p.done && p.read == |out| && ended)
    && (core.pump.Ended? ==> p.done && (core.pump.clean ==> p.clean))
    && (core.pump.Ended? && core.pump.output.Open? ==> p.writerOpen)
  }

  /** Once the end marker may be in the pipe, everything was forwarded. */
  ghost predicate SealedOk(p: Copying, out: seq<Batch>, core: Core) {
    && (core.writing || core.committed || p.marker ==> p.done && p.clean && p.writerOpen && p.forwarded == out)
    && (core.committed ==> p.marker)
  }

  ghost predicate LoadOk(l: Loading, p: Copying, core: Core) {
    && l.written <= p.forwarded
    && (l.finalized.Some? ==> p.marker && l.finalized.value == p.forwarded)
    && (core.destination.Succeeded? ==> l.finalized.Some?)
    && (core.destination.Unsuccessful? ==> core.failed)
  }

  ghost predicate Inv(s: Sys) {
    && FeedOk(s.feed, s.core.filesOpen, s.core.inputClosed)
    && QueueOk(s.feed.handed, s.parser) && OutOk(s.disk, s.parser)
    && InputOk(s.feed.handed, s.core.inputClosed, s.parser)
    && PumpOk(s.pump, s.parser.out, s.parser.ended, s.core)
    && SealedOk(s.pump, s.parser.out, s.core)
    && LoadOk(s.load, s.pump, s.core)
  }

  // ----- the core's step --------------------------------------------------------

  lemma TopMoves(c: Core)
    ensures var t := Top(c);
            && t.filesOpen == c.filesOpen && t.destination == c.destination && t.committed == c.committed
            && (c.failed ==> t.failed) && (c.inputClosed ==> t.inputClosed)
            && (t.inputClosed ==> c.inputClosed || !c.filesOpen)
            && (t.writing ==> c.writing || (!t.failed && t.pump.Ended? && t.pump.clean && c.pump.output.Open?))
            && (t.pump.Ended? <==> c.pump.Ended?)
            && (t.pump.Ended? ==> t.pump.clean == c.pump.clean && (t.pump.output.Open? ==> c.pump.output.Open?))
  {
    hide Note, Fail;
    var a := JudgeEarlySuccess(c);
    assert a == c || a == Fail(c);
    var b := MaybeEndInput(a);
    hide JudgeEarlySuccess, MaybeEndInput;
    assert a.(failed := c.failed, log := c.log) == c && (c.failed ==> a.failed);
    assert b.(inputClosed := a.inputClosed, log := a.log) == a by { EndInputMoves(a); }
    assert (a.inputClosed ==> b.inputClosed) && (b.inputClosed ==> a.inputClosed || !a.filesOpen) by { EndInputMoves(a); }
  }

  lemma EndInputMoves(c: Core)
    ensures var t := MaybeEndInput(c);
            && t.(inputClosed := c.inputClosed, log := c.log) == c
            && (c.inputClosed ==> t.inputClosed) && (t.inputClosed ==> c.inputClosed || !c.filesOpen)
  {
  }

  lemma ReactMoves(c: Core, e: Event)
    requires !c.failed && Enabled(c, e)
    ensures var t := React(c, e);
            && t.filesOpen == (c.filesOpen && e != Announced(false)) && t.inputClosed == c.inputClosed
            && (t.committed <==> c.committed || e == MarkerReported(true))
            && (t.writing ==> c.writing)
            && (t.pump == if e.PumpEnded? then Ended(e.markerRead && !e.readError, e.output) else c.pump)
            && (t.destination.Succeeded? ==> c.destination.Succeeded? || e == FromDestination(Finished(true)))
            && (t.destination.Unsuccessful? ==> c.destination.Unsuccessful? || t.failed)
  {
    hide OnProducer, OnRaw, OnDestination, Note, Fail;
    match e {
      case Halt =>
      case MarkerReported(ok) =>
      case PumpEnded(readError, markerRead, output) =>
      case PumpPanicked =>
      case FromProducer(i) =>
      case FromRaw(i) =>
      case Announced(file) =>
      case FromDestination(i) =>
      case Deadline =>
    }
  }

  // ----- every step keeps the invariant --------------------------------------------

  lemma AnnounceKeeps(s: Sys, step: Step)
    requires Inv(s) && CanStep(s, step) && (step.Announce? || step.AnnouncesNoMore?)
    ensures Inv(Next(s, step))
  {
    hide QueueOk, OutOk, InputOk, PumpOk, SealedOk, LoadOk, Distinct;
    if step.Announce? {
      assert (s.feed.announced + [step.path])[..s.feed.received] == s.feed.announced[..s.feed.received];
    }
  }

  lemma FeedKept(f: Feeding, c: Core, t: Core, e: Event)
    requires FeedOk(f, c.filesOpen, c.inputClosed)
    requires e.Announced? ==> c.filesOpen && if e.file then f.received < |f.announced| else f.received == |f.announced| && !f.announcing
    requires t.filesOpen == (c.filesOpen && e != Announced(false)) && (t.inputClosed ==> c.inputClosed || !t.filesOpen)
    ensures FeedOk(FeedAfter(f, e), t.filesOpen, t.inputClosed)
    ensures f.handed <= FeedAfter(f, e).handed && (!c.filesOpen ==> FeedAfter(f, e) == f)
  {
    hide Distinct;
    if e == Announced(true) {
      assert f.announced[..f.received + 1] == f.announced[..f.received] + [f.announced[f.received]];
      DistinctSnoc(f.announced[..f.received], f.announced[f.received]);
    }
  }

  lemma QueueStays(handed: seq<Path>, more: seq<Path>, p: Parser)
    requires QueueOk(handed, p) && handed <= more
    ensures QueueOk(more, p)
  {
    assert handed[..p.taken] == more[..p.taken];
  }

  lemma CoreKeeps(s: Sys, e: Event)
    requires Inv(s) && CoreCan(s, e)
    ensures Inv(Next(s, CoreSees(e)))
  {
    hide React, Top, QueueOk, OutOk, FeedOk;
    ReactMoves(s.core, e);
    TopMoves(React(s.core, e));
    CoreKeepsStream(s, e);
    var t := CoreAfter(s.core, e);
    FeedKept(s.feed, s.core, t, e);
    QueueStays(s.feed.handed, FeedAfter(s.feed, e).handed, s.parser);
    assert s.core.inputClosed ==> !s.core.filesOpen by { InputClosedAfterFiles(s); }
    hide PumpOk, SealedOk, LoadOk;
  }

  lemma CoreKeepsStream(s: Sys, e: Event)
    requires Inv(s) && CoreCan(s, e)
    ensures var t := CoreAfter(s.core, e);
            && PumpOk(s.pump, s.parser.out, s.parser.ended, t)
            && SealedOk(s.pump, s.parser.out, t)
            && LoadOk(s.load, s.pump, t)
  {
    hide React, Top, QueueOk, OutOk, FeedOk, InputOk;
    ReactMoves(s.core, e);
    TopMoves(React(s.core, e));
  }

  lemma InputClosedAfterFiles(s: Sys)
    requires FeedOk(s.feed, s.core.filesOpen, s.core.inputClosed)
    ensures s.core.inputClosed ==> !s.core.filesOpen
  {
  }

  lemma QueueKept(s: Sys, step: Step)
    requires ParserCan(s, step) && QueueOk(s.feed.handed, s.parser) && NoRepeats(s.feed.handed)
    ensures QueueOk(s.feed.handed, ParserAfter(s, step))
  {
    var p, handed := s.parser, s.feed.handed;
    var t := ParserAfter(s, step);
    match step {
      case ParserTakes =>
        if p.taken < |handed| {
          assert handed[..p.taken + 1] == handed[..p.taken] + [handed[p.taken]];
          assert handed[p.taken] !in handed[..p.taken];
          assert Begun(p) + (p.queue + [handed[p.taken]]) == (Begun(p) + p.queue) + [handed[p.taken]];
        }
      case ParserOpens =>
        if p.queue[0] in s.disk {
          assert Begun(t) + t.queue == Begun(p) + p.queue;
        }
      case ParserCloses => assert Begun(t) == Begun(p);
      case ParserWrites => assert Begun(t) == Begun(p);
      case _ =>
    }
  }

  lemma OutKept(s: Sys, step: Step)
    requires ParserCan(s, step) && OutOk(s.disk, s.parser)
    ensures OutOk(s.disk, ParserAfter(s, step)) && s.parser.out <= ParserAfter(s, step).out
  {
    hide Batches;
    if step.ParserCloses? {
      var path := s.parser.current.value.path;
      assert s.disk[path][..|s.disk[path]|] == s.disk[path];
      BatchesSnoc(s.disk, s.parser.parsed, path);
    } else if step.ParserWrites? {
      var c := s.parser.current.value;
      assert s.disk[c.path][..c.next + 1] == s.disk[c.path][..c.next] + [s.disk[c.path][c.next]];
    }
  }

  lemma ParserKeeps(s: Sys, step: Step)
    requires Inv(s) && ParserCan(s, step)
    ensures Inv(Next(s, step))
  {
    assert NoRepeats(s.feed.handed) by { DistinctIsDistinct(s.feed.announced[..s.feed.received]); }
    QueueKept(s, step);
    OutKept(s, step);
    hide FeedOk, QueueOk, OutOk, Distinct;
    EndedParserIsDead(s);
  }

  lemma EndedParserIsDead(s: Sys)
    requires QueueOk(s.feed.handed, s.parser)
    ensures s.parser.ended ==> !s.parser.alive
  {
  }

  lemma PumpKeeps(s: Sys, step: Step)
    requires Inv(s) && PumpCan(s, step)
    ensures Inv(Next(s, step))
  {
    hide FeedOk, QueueOk, OutOk, InputOk;
    if step.PumpCopies? {
      assert s.parser.out[..s.pump.read + 1] == s.parser.out[..s.pump.read] + [s.parser.out[s.pump.read]];
    }
  }

  lemma LoadKeeps(s: Sys, step: Step)
    requires Inv(s) && LoadCan(s, step)
    ensures Inv(Next(s, step))
  {
    hide FeedOk, QueueOk, OutOk, InputOk, PumpOk, SealedOk;
  }

  lemma StepKeeps(s: Sys, step: Step)
    requires Inv(s) && CanStep(s, step)
    ensures Inv(Next(s, step))
  {
    hide Inv, Next;
    if step.Announce? || step.AnnouncesNoMore? {
      AnnounceKeeps(s, step);
    } else if step.CoreSees? {
      CoreKeeps(s, step.event);
    } else if ParserCan(s, step) {
      ParserKeeps(s, step);
    } else if PumpCan(s, step) {
      PumpKeeps(s, step);
    } else {
      LoadKeeps(s, step);
    }
  }

  lemma {:induction false} RunKeeps(s: Sys, steps: seq<Step>)
    requires Inv(s) && Run(s, steps).Some?
    ensures Inv(Run(s, steps).value) && Run(s, steps).value.disk == s.disk
    decreases |steps|
  {
    hide Inv, CanStep, CoreCan, ParserCan, PumpCan, LoadCan;
    if steps != [] {
      StepKeeps(s, steps[0]);
      RunKeeps(Next(s, steps[0]), steps[1..]);
    }
  }

  lemma InitialIsFine(s: Sys)
    requires Initial(s)
    ensures Inv(s)
  {
  }

  // ----- the exact load ----------------------------------------------------------

  /** Whatever else happens, in any order: if the destination finalized, then no
      more files can be announced and it finalized exactly the batches of every
      distinct announced file, in the order of their first announcement. */
  lemma FinalizedIsExact(start: Sys, steps: seq<Step>)
    requires Initial(start) && Run(start, steps).Some?
    ensures var s := Run(start, steps).value;
            s.load.finalized.Some? ==>
              && !s.feed.announcing
              && (forall p :: p in Distinct(s.feed.announced) ==> p in s.disk)
              && s.parser.parsed == Distinct(s.feed.announced)
              && s.load.finalized.value == Batches(s.disk, Distinct(s.feed.announced))
  {
    InitialIsFine(start);
    RunKeeps(start, steps);
    var s := Run(start, steps).value;
    if s.load.finalized.Some? {
      assert s.feed.announced[..s.feed.received] == s.feed.announced;
      assert s.feed.handed[..s.parser.taken] == s.feed.handed;
      assert Begun(s.parser) + s.parser.queue == s.parser.parsed;
    }
  }

  /** A data phase that ended without a failure left an exact load. */
  lemma SuccessIsAnExactLoad(start: Sys, steps: seq<Step>)
    requires Initial(start) && Run(start, steps).Some?
    ensures var s := Run(start, steps).value;
            Over(s.core) && !s.core.failed ==>
              && (forall p :: p in Distinct(s.feed.announced) ==> p in s.disk)
              && s.load.finalized == Some(Batches(s.disk, Distinct(s.feed.announced)))
  {
    InitialIsFine(start);
    RunKeeps(start, steps);
    FinalizedIsExact(start, steps);
  }

  /** The core of the system runs the supervisor's loop: its state is what the
      loop makes of the events it saw. */
  function Seen(steps: seq<Step>): seq<Event> {
    if steps == [] then []
    else (if steps[0].CoreSees? then [steps[0].event] else []) + Seen(steps[1..])
  }

  lemma {:induction false} CoreIsTheSupervisor(s: Sys, steps: seq<Step>)
    requires Run(s, steps).Some? && Top(s.core) == s.core
    ensures Run(s, steps).value.core == Supervised(s.core, Seen(steps))
    decreases |steps|
  {
    hide ParserCan, PumpCan, LoadCan, ParserAfter, PumpAfter, LoadAfter, React, Top, Over, Enabled, Plausible, FeedAfter;
    if steps != [] {
      var t := Next(s, steps[0]);
      if steps[0].CoreSees? {
        var e := steps[0].event;
        OnlyTheCoreSees(s, e);
        TopIsStable(React(s.core, e));
        CoreIsTheSupervisor(t, steps[1..]);
        SupervisedFromTop(React(s.core, e), Seen(steps[1..]));
        assert Seen(steps) == [e] + Seen(steps[1..]);
        assert Seen(steps)[1..] == Seen(steps[1..]);
      } else {
        assert t.core == s.core;
        CoreIsTheSupervisor(t, steps[1..]);
        assert [] + Seen(steps[1..]) == Seen(steps[1..]);
      }
    }
  }

  lemma OnlyTheCoreSees(s: Sys, e: Event)
    requires CanStep(s, CoreSees(e))
    ensures CoreCan(s, e)
  {
  }

  lemma SupervisedFromTop(c: Core, events: seq<Event>)
    ensures Supervised(Top(c), events) == Supervised(c, events)
  {
    hide React, Top, Over, Enabled;
    TopIsStable(c);
  }

  // ----- who dies before its end ------------------------------------------------------

  /** The parser died before the end of its stream, or the destination before it finalized. */
  predicate DiedEarly(s: Sys) {
    (!s.parser.alive && !s.parser.ended) || (!s.load.alive && s.load.finalized.None?)
  }

  lemma DeadStayDead(s: Sys, step: Step)
    requires DiedEarly(s) && CanStep(s, step)
    ensures DiedEarly(Next(s, step))
  {
  }

  lemma {:induction false} RunKeepsDead(s: Sys, steps: seq<Step>)
    requires DiedEarly(s) && Run(s, steps).Some?
    ensures DiedEarly(Run(s, steps).value)
    decreases |steps|
  {
    hide DiedEarly, CanStep, Next;
    if steps != [] {
      DeadStayDead(s, steps[0]);
      RunKeepsDead(Next(s, steps[0]), steps[1..]);
    }
  }

  /** Whenever the parser dies before its stream ended (as it does where a file
      is missing), or the destination before it finalized, nothing is ever
      finalized and the data phase never succeeds, whatever happens after. */
  lemma EarlyDeathIsNoLoad(start: Sys, steps: seq<Step>, dies: Step, more: seq<Step>)
    requires Initial(start) && Run(start, steps).Some?
    requires var s := Run(start, steps).value; CanStep(s, dies) && Run(Next(s, dies), more).Some?
    requires var s := Run(start, steps).value;
             || (dies == ParserDies && !s.parser.ended)
             || (dies == ParserOpens && s.parser.queue[0] !in s.disk)
             || (dies == DestinationDies && s.load.finalized.None?)
    ensures var t := Run(Next(Run(start, steps).value, dies), more).value;
            t.load.finalized.None? && (Over(t.core) ==> t.core.failed)
  {
    var s := Run(start, steps).value;
    InitialIsFine(start);
    RunKeeps(start, steps);
    StepKeeps(s, dies);
    EndedParserIsDead(s);
    assert DiedEarly(Next(s, dies));
    hide Next, CanStep, Inv;
    RunKeeps(Next(s, dies), more);
    RunKeepsDead(Next(s, dies), more);
    DeadHaveNoLoad(Run(Next(s, dies), more).value);
  }

  lemma DeadHaveNoLoad(t: Sys)
    requires Inv(t) && DiedEarly(t)
    ensures t.load.finalized.None? && (Over(t.core) ==> t.core.failed)
  {
    hide FeedOk, QueueOk, OutOk, InputOk;
  }

  // ----- a run that succeeds ----------------------------------------------------------

  predicate Reaches(s: Sys, steps: seq<Step>, t: Sys) { Run(s, steps) == Some(t) }

  lemma OneStep(s: Sys, step: Step)
    requires CanStep(s, step)
    ensures Reaches(s, [step], Next(s, step))
  {
    hide CanStep, Next;
    assert [step][1..] == [];
    assert Run(Next(s, step), []) == Some(Next(s, step));
  }

  lemma {:induction false} Then(s: Sys, a: seq<Step>, t: Sys, b: seq<Step>, u: Sys)
    requires Reaches(s, a, t) && Reaches(t, b, u)
    ensures Reaches(s, a + b, u)
    decreases |a|
  {
    hide CanStep, Next;
    if a == [] {
      assert a + b == b;
    } else {
      assert (a + b)[1..] == a[1..] + b;
      Then(Next(s, a[0]), a[1..], t, b, u);
    }
  }

  /** The core after an event, but for its log. */
  predicate Like(c: Core, d: Core) { c.(log := d.log) == d }

  function SetOf(paths: seq<Path>): set<Path> { set p | p in paths }

  /** The raw source announces files, and the feed hands over those that are new. */
  lemma {:induction false} FilesAreFed(s: Sys, paths: seq<Path>) returns (steps: seq<Step>, t: Sys)
    requires Initial(s)
    ensures Reaches(s, steps, t)
    ensures t == s.(feed := Feeding(paths, true, |paths|, SetOf(paths), Distinct(paths)))
  {
    if paths == [] {
      steps, t := [], s;
    } else {
      var before, p := paths[..|paths| - 1], paths[|paths| - 1];
      var a, s1 := FilesAreFed(s, before);
      var s2 := Next(s1, Announce(p));
      OneStep(s1, Announce(p));
      assert s2.feed.announced == paths && paths[|before|] == p;
      t := Next(s2, CoreSees(Event.Announced(true)));
      WaitingCore(s.core);
      OneStep(s2, CoreSees(Event.Announced(true)));
      hide Reaches, Next, CanStep;
      Then(s1, [Announce(p)], s2, [CoreSees(Event.Announced(true))], t);
      Then(s, a, s1, [Announce(p)] + [CoreSees(Event.Announced(true))], t);
      steps := a + ([Announce(p)] + [CoreSees(Event.Announced(true))]);
      assert SetOf(before) + {p} == SetOf(paths);
    }
  }

  lemma WaitingCore(c: Core)
    requires CanStart(c) && c.parser && c.filesOpen && c.raw.Running? && c.producer.Running?
    ensures !Over(c) && Enabled(c, Event.Announced(true)) && CoreAfter(c, Event.Announced(true)) == c
  {
  }

  /** It announces no more and succeeds: the parser's input ends. */
  lemma FeedEnds(s: Sys) returns (steps: seq<Step>, t: Sys)
    requires s.feed.announcing && s.feed.received == |s.feed.announced|
    requires CanStart(s.core) && s.core.parser && s.core.filesOpen && s.core.raw.Running? && s.core.producer.Running?
    ensures Reaches(s, steps, t)
    ensures t == s.(feed := s.feed.(announcing := false), core := t.core)
    ensures Like(t.core, s.core.(raw := Status.Succeeded, filesOpen := false, inputClosed := true))
  {
    var s1 := Next(s, AnnouncesNoMore);
    var s2 := Next(s1, CoreSees(Event.Announced(false)));
    t := Next(s2, CoreSees(FromRaw(Finished(true))));
    OneStep(s, AnnouncesNoMore);
    OneStep(s1, CoreSees(Event.Announced(false)));
    OneStep(s2, CoreSees(FromRaw(Finished(true))));
    hide Reaches, Next, CanStep;
    Then(s, [AnnouncesNoMore], s1, [CoreSees(Event.Announced(false))], s2);
    steps := [AnnouncesNoMore] + [CoreSees(Event.Announced(false))];
    Then(s, steps, s2, [CoreSees(FromRaw(Finished(true)))], t);
    steps := steps + [CoreSees(FromRaw(Finished(true)))];
  }

  /** A parser that has read `n` lines of its input and done nothing else. */
  function Reading(lines: seq<Path>, n: nat): Parser
    requires n <= |lines|
  {
    Parser(n, false, SetOf(lines[..n]), lines[..n], None, [], [], false, true)
  }

  lemma {:induction false} LinesAreTaken(s: Sys, n: nat) returns (steps: seq<Step>, t: Sys)
    requires n <= |s.feed.handed| && NoRepeats(s.feed.handed) && s.parser == Reading(s.feed.handed, 0)
    ensures Reaches(s, steps, t) && t == s.(parser := Reading(s.feed.handed, n))
  {
    var lines := s.feed.handed;
    if n == 0 {
      steps, t := [], s;
    } else {
      var a, s1 := LinesAreTaken(s, n - 1);
      OneStep(s1, ParserTakes);
      t := Next(s1, ParserTakes);
      assert lines[..n] == lines[..n - 1] + [lines[n - 1]];
      assert lines[n - 1] !in lines[..n - 1];
      assert SetOf(lines[..n - 1]) + {lines[n - 1]} == SetOf(lines[..n]);
      assert t.parser.seen == Reading(lines, n).seen && t.parser.queue == Reading(lines, n).queue;
      hide Reaches, Next, CanStep;
      Then(s, a, s1, [ParserTakes], t);
      steps := a + [ParserTakes];
    }
  }

  /** One file is written batch by batch. */
  lemma {:induction false} BatchesAreWritten(s: Sys, p: Path, n: nat) returns (steps: seq<Step>, t: Sys)
    requires s.parser.alive && s.parser.current == Some(Current(p, 0)) && p in s.disk && n <= |s.disk[p]|
    ensures Reaches(s, steps, t)
    ensures t == s.(parser := s.parser.(current := Some(Current(p, n)), out := s.parser.out + s.disk[p][..n]))
  {
    if n == 0 {
      steps, t := [], s;
      assert s.parser.out + s.disk[p][..0] == s.parser.out;
    } else {
      var a, s1 := BatchesAreWritten(s, p, n - 1);
      OneStep(s1, ParserWrites);
      t := Next(s1, ParserWrites);
      assert s.disk[p][..n] == s.disk[p][..n - 1] + [s.disk[p][n - 1]];
      assert t.parser.out == s.parser.out + s.disk[p][..n];
      hide Reaches, Next, CanStep;
      Then(s, a, s1, [ParserWrites], t);
      steps := a + [ParserWrites];
    }
  }

  /** The next file in the queue is opened, written and closed. */
  lemma FileIsParsed(s: Sys, p: Path, rest: seq<Path>) returns (steps: seq<Step>, t: Sys)
    requires s.parser.alive && s.parser.current.None? && s.parser.queue == [p] + rest && p in s.disk
    ensures Reaches(s, steps, t)
    ensures t == s.(parser := s.parser.(queue := rest, parsed := s.parser.parsed + [p], out := s.parser.out + s.disk[p]))
  {
    OneStep(s, ParserOpens);
    var s1 := Next(s, ParserOpens);
    assert s1.parser == s.parser.(queue := rest, current := Some(Current(p, 0)));
    var a, s2 := BatchesAreWritten(s1, p, |s.disk[p]|);
    assert s.disk[p][..|s.disk[p]|] == s.disk[p];
    OneStep(s2, ParserCloses);
    t := Next(s2, ParserCloses);
    hide Reaches, Next, CanStep;
    Then(s, [ParserOpens], s1, a, s2);
    Then(s, [ParserOpens] + a, s2, [ParserCloses], t);
    steps := [ParserOpens] + a + [ParserCloses];
  }

  lemma {:induction false} FilesAreParsed(s: Sys, queue: seq<Path>) returns (steps: seq<Step>, t: Sys)
    requires s.parser.alive && s.parser.current.None? && s.parser.queue == queue && forall p :: p in queue ==> p in s.disk
    ensures Reaches(s, steps, t)
    ensures t == s.(parser := s.parser.(queue := [], parsed := s.parser.parsed + queue, out := s.parser.out + Batches(s.disk, queue)))
    decreases |queue|
  {
    if queue == [] {
      steps, t := [], s;
      assert s.parser.parsed + [] == s.parser.parsed && s.parser.out + Batches(s.disk, []) == s.parser.out;
    } else {
      var p, rest := queue[0], queue[1..];
      assert queue == [p] + rest;
      var a, s1 := FileIsParsed(s, p, rest);
      hide Batches, Reaches;
      var b;
      b, t := FilesAreParsed(s1, rest);
      FirstBatches(s.disk, p, rest);
      InTwoParts(s.parser.parsed, [p], rest);
      InTwoParts(s.parser.out, s.disk[p], Batches(s.disk, rest));
      Then(s, a, s1, b, t);
      steps := a + b;
    }
  }

  lemma InTwoParts<T>(a: seq<T>, b: seq<T>, c: seq<T>)
    ensures a + b + c == a + (b + c)
  {
  }

  lemma {:induction false} FirstBatches(disk: Disk, p: Path, rest: seq<Path>)
    requires p in disk && forall q :: q in rest ==> q in disk
    ensures (forall q :: q in [p] + rest ==> q in disk) && Batches(disk, [p] + rest) == disk[p] + Batches(disk, rest)
    decreases |rest|
  {
    if rest == [] {
      assert [p] + rest == [p] && [p][..0] == [];
      assert Batches(disk, []) == [];
    } else {
      var before, last := rest[..|rest| - 1], rest[|rest| - 1];
      FirstBatches(disk, p, before);
      BatchesSnoc(disk, [p] + before, last);
      BatchesSnoc(disk, before, last);
      hide Batches;
      assert rest == before + [last];
      InTwoParts([p], before, [last]);
      InTwoParts(disk[p], Batches(disk, before), disk[last]);
    }
  }

  /** The parser reads its input, parses every file and ends. */
  lemma ParserSucceeds(s: Sys) returns (steps: seq<Step>, t: Sys)
    requires s.parser == Reading(s.feed.handed, 0) && NoRepeats(s.feed.handed) && s.core.inputClosed
    requires (forall p :: p in s.feed.handed ==> p in s.disk) && (s.declaresSchema || s.feed.handed != [])
    ensures Reaches(s, steps, t) && t == s.(parser := t.parser)
    ensures t.parser.ended && t.parser.out == Batches(s.disk, s.feed.handed)
  {
    var lines := s.feed.handed;
    var a, s1 := LinesAreTaken(s, |lines|);
    assert lines[..|lines|] == lines;
    OneStep(s1, ParserTakes);
    var s2 := Next(s1, ParserTakes);
    var b, s3 := FilesAreParsed(s2, lines);
    assert [] + lines == lines && [] + Batches(s.disk, lines) == Batches(s.disk, lines);
    OneStep(s3, ParserEnds);
    t := Next(s3, ParserEnds);
    hide Reaches, Next, CanStep;
    Then(s, a, s1, [ParserTakes], s2);
    Then(s, a + [ParserTakes], s2, b, s3);
    Then(s, a + [ParserTakes] + b, s3, [ParserEnds], t);
    steps := a + [ParserTakes] + b + [ParserEnds];
  }

  /** What the parser wrote is copied. */
  lemma {:induction false} BatchesAreCopied(s: Sys, n: nat) returns (steps: seq<Step>, t: Sys)
    requires s.pump == Copying(0, true, false, [], false, false, false) && n <= |s.parser.out|
    ensures Reaches(s, steps, t) && t == s.(pump := Copying(n, true, false, s.parser.out[..n], false, false, false))
  {
    if n == 0 {
      steps, t := [], s;
    } else {
      var a, s1 := BatchesAreCopied(s, n - 1);
      OneStep(s1, PumpCopies(true));
      t := Next(s1, PumpCopies(true));
      assert s.parser.out[..n] == s.parser.out[..n - 1] + [s.parser.out[n - 1]];
      hide Reaches, Next, CanStep;
      Then(s, a, s1, [PumpCopies(true)], t);
      steps := a + [PumpCopies(true)];
    }
  }

  lemma StreamIsCopied(s: Sys) returns (steps: seq<Step>, t: Sys)
    requires s.pump == Copying(0, true, false, [], false, false, false) && s.parser.ended
    ensures Reaches(s, steps, t)
    ensures t == s.(pump := Copying(|s.parser.out|, true, false, s.parser.out, true, true, false))
  {
    var a, s1 := BatchesAreCopied(s, |s.parser.out|);
    assert s.parser.out[..|s.parser.out|] == s.parser.out;
    OneStep(s1, PumpStops(true));
    t := Next(s1, PumpStops(true));
    hide Reaches, Next, CanStep;
    Then(s, a, s1, [PumpStops(true)], t);
    steps := a + [PumpStops(true)];
  }

  /** A destination that stops reading holds nobody up, and neither does a run
      that failed: the rest of the stream can still be read, to its end, and
      none of it is forwarded. */
  lemma {:induction false} RestIsDrained(s: Sys, n: nat, dropping: bool) returns (steps: seq<Step>, t: Sys)
    requires !s.pump.done && s.pump.read + n <= |s.parser.out| && (dropping ==> s.core.failed)
    ensures Reaches(s, steps, t)
    ensures t == s.(pump := s.pump.(read := s.pump.read + n,
                                    aborted := s.pump.aborted || (dropping && n > 0),
                                    writerOpen := s.pump.writerOpen && (dropping || n == 0)))
  {
    if n == 0 {
      steps, t := [], s;
    } else {
      var a, s1 := RestIsDrained(s, n - 1, dropping);
      var step := if dropping then PumpDrops else PumpCopies(false);
      OneStep(s1, step);
      t := Next(s1, step);
      hide Reaches, Next, CanStep;
      Then(s, a, s1, [step], t);
      steps := a + [step];
    }
  }

  /** The core hears of the stream's end and of the parser's success: the commit begins. */
  lemma CommitBegins(s: Sys) returns (steps: seq<Step>, t: Sys)
    requires s.parser.ended && s.pump.done && s.pump.clean && s.pump.writerOpen
    requires var c := s.core;
             && c.parser && !c.failed && !c.writing && !c.committed && c.pump.Pumping? && c.destination.Running?
             && c.raw.Succeeded? && !c.filesOpen && c.inputClosed && c.producer.Running?
    ensures Reaches(s, steps, t) && t == s.(core := t.core)
    ensures Like(t.core, s.core.(producer := Status.Succeeded, pump := Ended(true, Closed), writing := true))
  {
    var s1 := Next(s, CoreSees(PumpEnded(false, true, Open)));
    t := Next(s1, CoreSees(FromProducer(Finished(true))));
    OneStep(s, CoreSees(PumpEnded(false, true, Open)));
    OneStep(s1, CoreSees(FromProducer(Finished(true))));
    hide Reaches, Next, CanStep;
    Then(s, [CoreSees(PumpEnded(false, true, Open))], s1, [CoreSees(FromProducer(Finished(true)))], t);
    steps := [CoreSees(PumpEnded(false, true, Open))] + [CoreSees(FromProducer(Finished(true)))];
  }

  /** The marker is written, and reported. */
  lemma MarkerPasses(s: Sys) returns (steps: seq<Step>, t: Sys)
    requires s.pump.writerOpen
    requires var c := s.core;
             c.writing && !c.failed && !c.committed && c.destination.Running? && c.inputClosed && c.pump.Ended? && c.producer.Succeeded?
    ensures Reaches(s, steps, t) && t == s.(pump := s.pump.(marker := true), core := t.core)
    ensures Like(t.core, s.core.(writing := false, committed := true))
  {
    var s1 := Next(s, MarkerIsWritten);
    t := Next(s1, CoreSees(MarkerReported(true)));
    OneStep(s, MarkerIsWritten);
    OneStep(s1, CoreSees(MarkerReported(true)));
    hide Reaches, Next, CanStep;
    Then(s, [MarkerIsWritten], s1, [CoreSees(MarkerReported(true))], t);
    steps := [MarkerIsWritten] + [CoreSees(MarkerReported(true))];
  }

  lemma {:induction false} BatchesAreLoaded(s: Sys, n: nat) returns (steps: seq<Step>, t: Sys)
    requires s.load == Loading([], None, true) && n <= |s.pump.forwarded|
    ensures Reaches(s, steps, t) && t == s.(load := Loading(s.pump.forwarded[..n], None, true))
  {
    if n == 0 {
      steps, t := [], s;
    } else {
      var a, s1 := BatchesAreLoaded(s, n - 1);
      OneStep(s1, DestinationWrites);
      t := Next(s1, DestinationWrites);
      assert s.pump.forwarded[..n] == s.pump.forwarded[..n - 1] + [s.pump.forwarded[n - 1]];
      hide Reaches, Next, CanStep;
      Then(s, a, s1, [DestinationWrites], t);
      steps := a + [DestinationWrites];
    }
  }

  /** The destination writes everything, finalizes and succeeds. */
  lemma StreamIsLoaded(s: Sys) returns (steps: seq<Step>, t: Sys)
    requires s.pump.marker && s.load == Loading([], None, true)
    requires s.core.committed && !s.core.failed && s.core.destination.Running? && s.core.inputClosed && !s.core.writing
    ensures Reaches(s, steps, t)
    ensures Over(t.core) && !t.core.failed && t.load.finalized == Some(s.pump.forwarded)
    ensures t == s.(core := t.core, load := t.load)
  {
    var a, s1 := BatchesAreLoaded(s, |s.pump.forwarded|);
    assert s.pump.forwarded[..|s.pump.forwarded|] == s.pump.forwarded;
    var s2 := Next(s1, DestinationFinalizes);
    t := Next(s2, CoreSees(FromDestination(Finished(true))));
    OneStep(s1, DestinationFinalizes);
    OneStep(s2, CoreSees(FromDestination(Finished(true))));
    hide Reaches, Next, CanStep;
    Then(s, a, s1, [DestinationFinalizes], s2);
    Then(s, a + [DestinationFinalizes], s2, [CoreSees(FromDestination(Finished(true)))], t);
    steps := a + [DestinationFinalizes] + [CoreSees(FromDestination(Finished(true)))];
  }

  /** Every load is possible: from every start whose pipe is whole, and for every
      list of files that are there, repeats included, a run announces them,
      parses, copies and loads each distinct one, and succeeds. (A parser that
      declares no schema needs a first file.) */
  lemma EveryLoadIsReached(start: Sys, paths: seq<Path>) returns (steps: seq<Step>)
    requires Initial(start) && start.pump.writerOpen && start.load.alive
    requires (forall p :: p in paths ==> p in start.disk) && (start.declaresSchema || paths != [])
    ensures Run(start, steps).Some?
    ensures var s := Run(start, steps).value;
            && s.disk == start.disk && s.feed.announced == paths && Over(s.core) && !s.core.failed
            && s.load.finalized == Some(Batches(start.disk, Distinct(paths)))
  {
    hide Reaches, Batches, Distinct;
    DistinctIsDistinct(paths);
    NothingRead(start);
    assert paths != [] ==> paths[0] in Distinct(paths);
    var a, s1 := FilesAreFed(start, paths);
    var b, s2 := FeedEnds(s1);
    var c, s3 := ParserSucceeds(s2);
    var d, s4 := StreamIsCopied(s3);
    var e, s5 := CommitBegins(s4);
    var f, s6 := MarkerPasses(s5);
    var g, s7 := StreamIsLoaded(s6);
    Then(start, a, s1, b, s2);
    Then(start, a + b, s2, c, s3);
    Then(start, a + b + c, s3, d, s4);
    Then(start, a + b + c + d, s4, e, s5);
    Then(start, a + b + c + d + e, s5, f, s6);
    Then(start, a + b + c + d + e + f, s6, g, s7);
    steps := a + b + c + d + e + f + g;
    ReachesIs(start, steps, s7);
  }

  lemma NothingRead(s: Sys)
    requires Initial(s)
    ensures forall lines :: s.parser == Reading(lines, 0)
    ensures s.load.alive ==> s.load == Loading([], None, true)
    ensures s.pump.writerOpen ==> s.pump == Copying(0, true, false, [], false, false, false)
  {
    forall lines: seq<Path> ensures s.parser == Reading(lines, 0) {
      assert lines[..0] == [];
      assert SetOf(lines[..0]) == {};
    }
  }

  lemma ReachesIs(s: Sys, steps: seq<Step>, t: Sys)
    requires Reaches(s, steps, t)
    ensures Run(s, steps) == Some(t)
  {
  }
}

/**
 The data phase of a run (crates/loadsmith-core/src/runner.rs,
 `supervise_data_phase`): when the destination may see the end-of-stream
 marker. The supervisor reacts to whatever the plugins, the pump and the clock
 do; the log keeps what happened, in order.
 */
module CommitPoint {
  import opened Wrappers

  /** A plugin's `finished`: none yet, success, or anything else. */
  datatype Status = Running | Succeeded | Unsuccessful
  datatype Output = Open | Closed
  datatype Pump = Pumping | Ended(clean: bool, output: Output)
  datatype Inbound = Finished(success: bool) | Eof | Violation | Other

  datatype Event =
    | Halt
    | MarkerReported(ok: bool)
    | PumpEnded(readError: bool, markerRead: bool, output: Output)
    | PumpPanicked
    | FromProducer(inbound: Inbound)
    | FromRaw(inbound: Inbound)
    /** A file announced by the raw source; none: its channel reached its end. */
    | Announced(file: bool)
    | FromDestination(inbound: Inbound)
    /** One of the deadlines the watchdog looks at passed. */
    | Deadline

  datatype Moment =
    | RawSucceeded | NoMoreFiles | InputEnded
    | StreamEndedCleanly | ProducerSucceeded
    | MarkerStarted | MarkerWritten | DestinationSucceeded
    | Failed

  /** `producer` writes the Arrow stream: the source, or with `parser` the
      parser, whose files come from the source `raw`. */
  datatype Core = Core(parser: bool, raw: Status, filesOpen: bool, inputClosed: bool,
                       producer: Status, pump: Pump, writing: bool, committed: bool,
                       destination: Status, failed: bool, log: seq<Moment>)

  /** What the set-up leaves: the raw source and the producer may already have
      finished; the parser's input is ended only after the raw source. */
  predicate CanStart(s: Core) {
    && s.pump.Pumping? && !s.writing && !s.committed && s.destination.Running? && !s.failed
    && !s.raw.Unsuccessful? && !s.producer.Unsuccessful?
    && (s.inputClosed ==> s.parser && s.raw.Succeeded? && !s.filesOpen)
    && s.log == (if s.raw.Succeeded? then [RawSucceeded] else []) + (if s.filesOpen then [] else [NoMoreFiles])
                + (if s.inputClosed then [InputEnded] else [])
                + (if s.producer.Succeeded? then [ProducerSucceeded] else [])
  }

  function Note(s: Core, m: Moment): (t: Core)
    ensures t.(log := s.log) == s
  {
    s.(log := s.log + [m])
  }

  function Fail(s: Core): (t: Core)
    ensures t.failed && t.(log := s.log, failed := s.failed) == s
  {
    Note(s.(failed := true), Failed)
  }

  /** A parser whose success arrived before its input ended. */
  function JudgeEarlySuccess(s: Core): Core {
    if s.parser && !s.failed && !s.inputClosed && s.producer.Succeeded? then Fail(s) else s
  }

  function MaybeEndInput(s: Core): Core {
    if s.parser && !s.failed && !s.inputClosed && !s.filesOpen && s.raw.Succeeded?
    then Note(s.(inputClosed := true), InputEnded) else s
  }

  function MaybeCommit(s: Core): Core {
    if !s.failed && !s.committed && !s.writing
       && (s.parser ==> s.inputClosed && s.raw.Succeeded?) && s.producer.Succeeded?
       && s.pump.Ended? && s.pump.clean
    then
      if s.pump.output.Open? then Note(s.(writing := true, pump := s.pump.(output := Closed)), MarkerStarted)
      else Fail(s)
    else s
  }

  /** What the loop does before it waits. */
  function Top(s: Core): Core { MaybeCommit(MaybeEndInput(JudgeEarlySuccess(s))) }

  predicate Over(s: Core) { s.failed || (s.committed && !s.destination.Running?) }

  /** Which events the loop listens to. */
  predicate Enabled(s: Core, e: Event) {
    match e
    case MarkerReported(_) => s.writing
    case PumpEnded(_, _, _) => s.pump.Pumping?
    case PumpPanicked => s.pump.Pumping?
    case FromRaw(_) => s.parser
    case Announced(_) => s.parser && s.filesOpen
    case _ => true
  }

  function OnProducer(s: Core, i: Inbound): (t: Core)
    ensures t.(log := s.log, failed := s.failed, producer := s.producer) == s
    ensures t.producer.Succeeded? ==> s.producer.Succeeded? || i == Finished(true)
    ensures t.producer.Unsuccessful? ==> s.producer.Unsuccessful? || t.failed
    ensures s.failed ==> t.failed
  {
    if i == Finished(true) then
      var t := Note(s.(producer := Succeeded), ProducerSucceeded);
      if s.parser && !s.inputClosed then Fail(t) else t
    else if i == Finished(false) then Fail(s.(producer := Unsuccessful))
    else if i.Violation? || (i.Eof? && s.producer.Running?) then Fail(s)
    else s
  }

  function OnRaw(s: Core, i: Inbound): (t: Core)
    ensures t.(log := s.log, failed := s.failed, raw := s.raw) == s
    ensures t.raw.Succeeded? ==> s.raw.Succeeded? || i == Finished(true)
    ensures t.raw.Unsuccessful? ==> s.raw.Unsuccessful? || t.failed
    ensures s.failed ==> t.failed
  {
    if i == Finished(true) then Note(s.(raw := Succeeded), RawSucceeded)
    else if i == Finished(false) then Fail(s.(raw := Unsuccessful))
    else if i.Violation? || (i.Eof? && s.raw.Running?) then Fail(s)
    else s
  }

  function OnDestination(s: Core, i: Inbound): (t: Core)
    ensures t.(log := s.log, failed := s.failed, destination := s.destination) == s
    ensures t.destination.Succeeded? ==> s.destination.Succeeded? || i == Finished(true)
    ensures t.destination.Unsuccessful? ==> s.destination.Unsuccessful? || t.failed
    ensures s.failed ==> t.failed
  {
    if i == Finished(true) then
      var t := Note(s.(destination := Succeeded), DestinationSucceeded);
      if !s.committed && !s.writing then Fail(t) else t
    else if i == Finished(false) then Fail(s.(destination := Unsuccessful))
    else if i.Violation? || (i.Eof? && s.destination.Running?) then Fail(s)
    else s
  }

  function React(s: Core, e: Event): (t: Core)
    ensures t.parser == s.parser
  {
    match e
    case Halt => Fail(s)
    case MarkerReported(ok) =>
      if ok then Note(s.(writing := false, committed := true), MarkerWritten) else Fail(s.(writing := false))
    case PumpEnded(readError, markerRead, output) =>
      var clean := markerRead && !readError;
      var t := s.(pump := Ended(clean, output));
      if clean then Note(t, StreamEndedCleanly) else Fail(t)
    case PumpPanicked => Fail(s)
    case FromProducer(i) => OnProducer(s, i)
    case FromRaw(i) => OnRaw(s, i)
    case Announced(file) => if file then s else Note(s.(filesOpen := false), NoMoreFiles)
    case FromDestination(i) => OnDestination(s, i)
    case Deadline => Fail(s)
  }

  /** The phase after `events`: an event nobody listens to stays unread. */
  function Supervised(s: Core, events: seq<Event>): Core
    decreases |events|
  {
    var t := Top(s);
    if Over(t) || events == [] then t
    else if Enabled(t, events[0]) then Supervised(React(t, events[0]), events[1..])
    else Supervised(t, events[1..])
  }

  /** The loop, on the variables it updates. */
  method SuperviseDataPhase(start: Core, events: seq<Event>) returns (end: Core)
    ensures end == Supervised(start, events)
  {
    var failure, inputClosed, log := start.failed, start.inputClosed, start.log;
    var commit, committed, pump := start.writing, start.committed, start.pump;
    var rest := start;
    var i := 0;
    while true
      invariant 0 <= i <= |events|
      invariant rest.(failed := failure, inputClosed := inputClosed, log := log, writing := commit,
                      committed := committed, pump := pump) == rest
      invariant Supervised(rest, events[i..]) == Supervised(start, events)
      decreases |events| - i
    {
      ghost var before := rest;
      if rest.parser {
        if !failure && !inputClosed && rest.producer.Succeeded? {
          failure, log := true, log + [Failed];
        }
        if !failure && !inputClosed && !rest.filesOpen && rest.raw.Succeeded? {
          inputClosed, log := true, log + [InputEnded];
        }
      }
      if !failure && !committed && !commit {
        var upstreamOk := !rest.parser || (inputClosed && rest.raw.Succeeded?);
        var sourceOk := upstreamOk && rest.producer.Succeeded?;
        if sourceOk && pump.Ended? && pump.clean {
          if pump.output.Open? {
            pump, commit, log := pump.(output := Closed), true, log + [MarkerStarted];
          } else {
            failure, log := true, log + [Failed];
          }
        }
      }
      rest := rest.(failed := failure, inputClosed := inputClosed, log := log, writing := commit, pump := pump);
      assert rest == Top(before);
      if failure || (committed && !rest.destination.Running?) || i == |events| {
        return rest;
      }
      if Enabled(rest, events[i]) {
        rest := React(rest, events[i]);
        failure, inputClosed, log := rest.failed, rest.inputClosed, rest.log;
        commit, committed, pump := rest.writing, rest.committed, rest.pump;
        assert events[i..][1..] == events[i + 1..];
      } else {
        TopIsStable(before);
        assert events[i..][1..] == events[i + 1..];
      }
      i := i + 1;
    }
  }

  /** The checks before the wait do nothing more the second time. */
  lemma TopIsStable(s: Core)
    ensures Top(Top(s)) == Top(s)
  {
  }

  // ----- the invariant -------------------------------------------------------

  predicate Preceded(log: seq<Moment>, j: nat, m: Moment)
    requires j <= |log|
  {
    exists i :: 0 <= i < j && log[i] == m
  }

  /** What an entry of the log means for what stands before it. */
  ghost predicate InOrder(log: seq<Moment>, parser: bool) {
    && (forall j :: 0 <= j < |log| && log[j] == MarkerStarted ==>
          && Preceded(log, j, StreamEndedCleanly) && Preceded(log, j, ProducerSucceeded)
          && (parser ==> Preceded(log, j, InputEnded)) && !Preceded(log, j, Failed)
          && !Preceded(log, j, MarkerStarted))
    && (forall j :: 0 <= j < |log| && log[j] == InputEnded ==>
          && Preceded(log, j, RawSucceeded) && Preceded(log, j, NoMoreFiles)
          && !Preceded(log, j, Failed) && !Preceded(log, j, InputEnded))
    && (forall j :: 0 <= j < |log| && log[j] == MarkerWritten ==> Preceded(log, j, MarkerStarted))
  }

  /** Success is counted only in its turn. */
  ghost predicate InTurn(log: seq<Moment>, parser: bool) {
    && (parser ==> forall j :: 0 <= j < |log| && log[j] == ProducerSucceeded ==> Preceded(log, j, InputEnded))
    && (forall j :: 0 <= j < |log| && log[j] == DestinationSucceeded ==> Preceded(log, j, MarkerStarted))
  }

  /** The state and the log agree. */
  ghost predicate Facts(s: Core) {
    && (s.raw.Succeeded? ==> RawSucceeded in s.log)
    && (!s.filesOpen ==> NoMoreFiles in s.log)
    && (s.inputClosed <==> InputEnded in s.log)
    && (s.producer.Succeeded? ==> ProducerSucceeded in s.log)
    && (s.pump.Ended? && s.pump.clean ==> StreamEndedCleanly in s.log)
    && (MarkerStarted in s.log ==> s.pump.Ended? && s.pump.output.Closed?)
    && (s.writing || s.committed ==> MarkerStarted in s.log)
    && (s.committed ==> MarkerWritten in s.log)
    && (s.destination.Succeeded? ==> DestinationSucceeded in s.log)
  }

  ghost predicate Judged(s: Core) {
    && (s.destination.Unsuccessful? || s.producer.Unsuccessful? || s.raw.Unsuccessful? ==> s.failed)
    && (s.failed <==> Failed in s.log)
  }

  ghost predicate Inv(s: Core) {
    && InOrder(s.log, s.parser)
    && Facts(s)
    && Judged(s)
    && (!s.failed ==> InTurn(s.log, s.parser)
                      || (s.parser && !s.inputClosed && s.producer.Succeeded? && InTurn(s.log, false)))
  }

  lemma PrecededStays(log: seq<Moment>, m: Moment)
    ensures forall j: nat, x :: j <= |log| ==> Preceded(log + [m], j, x) == Preceded(log, j, x)
    ensures forall x :: Preceded(log, |log|, x) <==> x in log
  {
    forall j: nat, x | j <= |log|
      ensures Preceded(log + [m], j, x) == Preceded(log, j, x)
    {
      if Preceded(log, j, x) {
        var i :| 0 <= i < j && log[i] == x;
        assert (log + [m])[i] == x;
      }
      if Preceded(log + [m], j, x) {
        var i :| 0 <= i < j && (log + [m])[i] == x;
        assert log[i] == x;
      }
    }
    forall x | x in log ensures Preceded(log, |log|, x) {
      var i :| 0 <= i < |log| && log[i] == x;
    }
  }

  /** When an entry may be added. */
  ghost predicate MayAdd(log: seq<Moment>, parser: bool, m: Moment) {
    && (m == MarkerStarted ==> StreamEndedCleanly in log && ProducerSucceeded in log
                               && (parser ==> InputEnded in log) && Failed !in log && MarkerStarted !in log)
    && (m == InputEnded ==> RawSucceeded in log && NoMoreFiles in log && Failed !in log && InputEnded !in log)
    && (m == MarkerWritten ==> MarkerStarted in log)
  }

  lemma AddKeepsOrder(log: seq<Moment>, parser: bool, m: Moment)
    requires InOrder(log, parser) && MayAdd(log, parser, m)
    ensures InOrder(log + [m], parser)
  {
    PrecededStays(log, m);
    hide Preceded;
  }

  lemma AddKeepsTurn(log: seq<Moment>, parser: bool, m: Moment)
    requires InTurn(log, parser)
    requires m == ProducerSucceeded && parser ==> InputEnded in log
    requires m == DestinationSucceeded ==> MarkerStarted in log
    ensures InTurn(log + [m], parser)
  {
    PrecededStays(log, m);
    hide Preceded;
  }

  lemma NoteKeeps(s: Core, t: Core, m: Moment)
    requires InOrder(s.log, s.parser) && MayAdd(s.log, s.parser, m)
    requires t.log == s.log + [m] && t.parser == s.parser
    ensures InOrder(t.log, t.parser)
    ensures forall x :: x in t.log <==> x in s.log || x == m
  {
    AddKeepsOrder(s.log, s.parser, m);
  }

  lemma FailKeeps(s: Core)
    requires InOrder(s.log, s.parser) && Facts(s)
    ensures Inv(Fail(s))
  {
    NoteKeeps(s, Fail(s), Failed);
    hide InOrder;
  }

  lemma TopKeeps(s: Core)
    requires Inv(s)
    ensures Inv(Top(s)) && (!Top(s).failed ==> InTurn(Top(s).log, s.parser))
  {
    hide InOrder, InTurn;
    var a := JudgeEarlySuccess(s);
    if a != s { FailKeeps(s); }
    assert Inv(a) && (!a.failed ==> InTurn(a.log, s.parser));
    var b := MaybeEndInput(a);
    if b != a {
      NoteKeeps(a, b, InputEnded);
      AddKeepsTurn(a.log, a.parser, InputEnded);
    }
    assert Inv(b) && (!b.failed ==> InTurn(b.log, s.parser));
    var c := MaybeCommit(b);
    if c.failed && !b.failed {
      FailKeeps(b);
    } else if c != b {
      NoteKeeps(b, c, MarkerStarted);
      AddKeepsTurn(b.log, b.parser, MarkerStarted);
    }
  }

  lemma ReactKeeps(s: Core, e: Event)
    requires Inv(s) && !s.failed && InTurn(s.log, s.parser) && Enabled(s, e)
    ensures Inv(React(s, e))
  {
    hide Inv, InOrder, InTurn, Facts, Judged, OnProducer, OnRaw, OnDestination;
    match e {
      case Halt => AnyFailKeeps(s);
      case MarkerReported(ok) => MarkerKeeps(s, ok);
      case PumpEnded(readError, markerRead, output) => PumpKeeps(s, readError, markerRead, output);
      case PumpPanicked => AnyFailKeeps(s);
      case FromProducer(i) => ProducerKeeps(s, i);
      case FromRaw(i) => RawKeeps(s, i);
      case Announced(file) =>
        if !file { FilesEndKeeps(s); }
      case FromDestination(i) => DestinationKeeps(s, i);
      case Deadline => AnyFailKeeps(s);
    }
  }

  lemma AnyFailKeeps(s: Core)
    requires Inv(s)
    ensures Inv(Fail(s))
  {
    FailKeeps(s);
  }

  lemma FilesEndKeeps(s: Core)
    requires Inv(s) && !s.failed && InTurn(s.log, s.parser)
    ensures Inv(React(s, Announced(false)))
  {
    hide InOrder, InTurn;
    NoteKeeps(s, React(s, Announced(false)), NoMoreFiles);
    AddKeepsTurn(s.log, s.parser, NoMoreFiles);
  }

  lemma MarkerKeeps(s: Core, ok: bool)
    requires Inv(s) && !s.failed && InTurn(s.log, s.parser) && s.writing
    ensures Inv(React(s, MarkerReported(ok)))
  {
    hide InOrder, InTurn;
    if ok {
      NoteKeeps(s, React(s, MarkerReported(ok)), MarkerWritten);
      AddKeepsTurn(s.log, s.parser, MarkerWritten);
    } else {
      FailKeeps(s.(writing := false));
    }
  }

  lemma PumpKeeps(s: Core, readError: bool, markerRead: bool, output: Output)
    requires Inv(s) && !s.failed && InTurn(s.log, s.parser) && s.pump.Pumping?
    ensures Inv(React(s, PumpEnded(readError, markerRead, output)))
  {
    hide InOrder, InTurn;
    var clean := markerRead && !readError;
    if clean {
      NoteKeeps(s, React(s, PumpEnded(readError, markerRead, output)), StreamEndedCleanly);
      AddKeepsTurn(s.log, s.parser, StreamEndedCleanly);
    } else {
      FailKeeps(s.(pump := Ended(clean, output)));
    }
  }

  lemma ProducerKeeps(s: Core, i: Inbound)
    requires Inv(s) && !s.failed && InTurn(s.log, s.parser)
    ensures Inv(OnProducer(s, i))
  {
    hide InOrder, InTurn;
    match i {
      case Finished(true) =>
        var t := Note(s.(producer := Succeeded), ProducerSucceeded);
        NoteKeeps(s, t, ProducerSucceeded);
        if s.parser && !s.inputClosed { FailKeeps(t); }
        else { AddKeepsTurn(s.log, s.parser, ProducerSucceeded); }
      case Finished(false) => FailKeeps(s.(producer := Unsuccessful));
      case Eof => if s.producer.Running? { FailKeeps(s); }
      case Violation => FailKeeps(s);
      case Other =>
    }
  }

  lemma RawKeeps(s: Core, i: Inbound)
    requires Inv(s) && !s.failed && InTurn(s.log, s.parser)
    ensures Inv(OnRaw(s, i))
  {
    hide InOrder, InTurn;
    match i {
      case Finished(true) =>
        NoteKeeps(s, OnRaw(s, i), RawSucceeded);
        AddKeepsTurn(s.log, s.parser, RawSucceeded);
      case Finished(false) => FailKeeps(s.(raw := Unsuccessful));
      case Eof => if s.raw.Running? { FailKeeps(s); }
      case Violation => FailKeeps(s);
      case Other =>
    }
  }

  lemma DestinationKeeps(s: Core, i: Inbound)
    requires Inv(s) && !s.failed && InTurn(s.log, s.parser)
    ensures Inv(OnDestination(s, i))
  {
    hide InOrder, InTurn;
    match i {
      case Finished(true) =>
        var t := Note(s.(destination := Succeeded), DestinationSucceeded);
        NoteKeeps(s, t, DestinationSucceeded);
        if !s.committed && !s.writing { FailKeeps(t); }
        else { AddKeepsTurn(s.log, s.parser, DestinationSucceeded); }
      case Finished(false) => FailKeeps(s.(destination := Unsuccessful));
      case Eof => if s.destination.Running? { FailKeeps(s); }
      case Violation => FailKeeps(s);
      case Other =>
    }
  }

  function Opt(present: bool, m: Moment): seq<Moment> { if present then [m] else [] }

  lemma OptKeepsOrder(log: seq<Moment>, parser: bool, present: bool, m: Moment)
    requires InOrder(log, parser) && (present ==> MayAdd(log, parser, m))
    ensures InOrder(log + Opt(present, m), parser)
    ensures forall x :: x in log + Opt(present, m) <==> x in log || (present && x == m)
  {
    if present { AddKeepsOrder(log, parser, m); } else { assert log + Opt(present, m) == log; }
  }

  lemma StartIsFine(s: Core)
    requires CanStart(s)
    ensures Inv(s)
  {
    hide InOrder, InTurn, MayAdd;
    var a := Opt(s.raw.Succeeded?, RawSucceeded);
    var b := a + Opt(!s.filesOpen, NoMoreFiles);
    var c := b + Opt(s.inputClosed, InputEnded);
    assert s.log == c + Opt(s.producer.Succeeded?, ProducerSucceeded);
    StartIsInOrder(s.parser, s.raw.Succeeded?, !s.filesOpen, s.inputClosed, s.producer.Succeeded?);
    StartIsInTurn(s, c);
  }

  lemma StartIsInOrder(parser: bool, raw: bool, noMore: bool, ended: bool, produced: bool)
    requires ended ==> raw && noMore
    ensures var c := Opt(raw, RawSucceeded) + Opt(noMore, NoMoreFiles) + Opt(ended, InputEnded);
            InOrder(c + Opt(produced, ProducerSucceeded), parser)
            && forall x :: x in c + Opt(produced, ProducerSucceeded) <==>
                 (raw && x == RawSucceeded) || (noMore && x == NoMoreFiles) || (ended && x == InputEnded)
                 || (produced && x == ProducerSucceeded)
  {
    var a := Opt(raw, RawSucceeded);
    var b := a + Opt(noMore, NoMoreFiles);
    assert [] + a == a;
    OptKeepsOrder([], parser, raw, RawSucceeded);
    OptKeepsOrder(a, parser, noMore, NoMoreFiles);
    OptKeepsOrder(b, parser, ended, InputEnded);
    OptKeepsOrder(b + Opt(ended, InputEnded), parser, produced, ProducerSucceeded);
  }

  lemma StartIsInTurn(s: Core, c: seq<Moment>)
    requires s.log == c + Opt(s.producer.Succeeded?, ProducerSucceeded)
    requires ProducerSucceeded !in c && DestinationSucceeded !in c && (s.inputClosed <==> InputEnded in c)
    ensures InTurn(s.log, false)
    ensures s.parser && s.producer.Succeeded? ==> InTurn(s.log, s.parser) || !s.inputClosed
    ensures !s.producer.Succeeded? ==> InTurn(s.log, s.parser)
  {
    if s.inputClosed {
      var i :| 0 <= i < |c| && c[i] == InputEnded;
      assert s.log[i] == InputEnded;
    }
  }

  lemma TopKeepsParser(s: Core)
    ensures Top(s).parser == s.parser
  {
  }

  lemma {:induction false} SupervisedKeeps(s: Core, events: seq<Event>)
    requires Inv(s)
    ensures var t := Supervised(s, events); Inv(t) && t.parser == s.parser && (!t.failed ==> InTurn(t.log, t.parser))
    decreases |events|
  {
    hide Inv, InTurn, React, Top;
    var t := Top(s);
    TopKeeps(s);
    TopKeepsParser(s);
    if !Over(t) && events != [] {
      if Enabled(t, events[0]) {
        ReactKeeps(t, events[0]);
        SupervisedKeeps(React(t, events[0]), events[1..]);
      } else {
        SupervisedKeeps(t, events[1..]);
      }
    }
  }

  // ----- what the commit point promises -----------------------------------------

  /** Whatever the plugins, the pump and the clock do: the end marker is
      started at most once, never after a failure, and only after the stream
      ended cleanly and its producer succeeded; with a parser, whose input was
      ended only after the raw source succeeded and no file can arrive. */
  lemma MarkerOnlyInItsTurn(start: Core, events: seq<Event>, j: nat)
    requires CanStart(start)
    requires var log := Supervised(start, events).log; j < |log| && log[j] == MarkerStarted
    ensures var log := Supervised(start, events).log;
            && Preceded(log, j, StreamEndedCleanly) && Preceded(log, j, ProducerSucceeded)
            && !Preceded(log, j, Failed) && !Preceded(log, j, MarkerStarted)
    ensures var log := Supervised(start, events).log;
            start.parser ==>
              exists i, k :: 0 <= i < k < j && log[i] == RawSucceeded && log[k] == InputEnded && Preceded(log, k, NoMoreFiles)
  {
    StartIsFine(start);
    SupervisedKeeps(start, events);
    var log := Supervised(start, events).log;
    assert InOrder(log, start.parser);
    if start.parser {
      var k :| 0 <= k < j && log[k] == InputEnded;
      assert Preceded(log, k, RawSucceeded);
      var i :| 0 <= i < k && log[i] == RawSucceeded;
    }
  }

  /** The phase ends well exactly when the marker was written and the
      destination succeeded; that success came after the marker was started,
      and a parser's came after its input was ended. */
  lemma SuccessMeansCommitted(start: Core, events: seq<Event>)
    requires CanStart(start)
    ensures var t := Supervised(start, events);
            Over(t) && !t.failed <==> t.committed && t.destination.Succeeded? && !t.failed
    ensures var t := Supervised(start, events);
            Over(t) && !t.failed ==>
              && MarkerWritten in t.log && DestinationSucceeded in t.log && Failed !in t.log
              && (forall j :: 0 <= j < |t.log| && t.log[j] == DestinationSucceeded ==> Preceded(t.log, j, MarkerStarted))
              && (t.parser ==> forall j :: 0 <= j < |t.log| && t.log[j] == ProducerSucceeded ==> Preceded(t.log, j, InputEnded))
  {
    hide InOrder, Preceded;
    StartIsFine(start);
    SupervisedKeeps(start, events);
  }

  /** Once the events so far made it fail, whatever comes later changes
      nothing: no marker is started and no success is taken any more. */
  lemma {:induction false} FailureIsFinal(s: Core, events: seq<Event>, later: seq<Event>)
    requires Supervised(s, events).failed
    ensures Supervised(s, events + later) == Supervised(s, events)
    decreases |events|
  {
    hide React, Top, Enabled;
    var t := Top(s);
    if events != [] && !Over(t) {
      assert (events + later)[1..] == events[1..] + later;
      FailureIsFinal(if Enabled(t, events[0]) then React(t, events[0]) else t, events[1..], later);
    }
  }

  /** The phase does end well: a run of the plain kind, without a parser. */
  lemma AnOrdinaryRunSucceeds(start: Core)
    requires CanStart(start) && !start.parser && start.producer.Running?
    ensures var t := Supervised(start, [PumpEnded(false, true, Open), FromProducer(Finished(true)),
                                        MarkerReported(true), FromDestination(Finished(true))]);
            Over(t) && !t.failed
  {
    var s1 := React(Top(start), PumpEnded(false, true, Open));
    var s2 := React(Top(s1), FromProducer(Finished(true)));
    var s3 := React(Top(s2), MarkerReported(true));
    var s4 := React(Top(s3), FromDestination(Finished(true)));
    var e := [PumpEnded(false, true, Open), FromProducer(Finished(true)), MarkerReported(true), FromDestination(Finished(true))];
    assert e[1..] == [FromProducer(Finished(true)), MarkerReported(true), FromDestination(Finished(true))];
    assert e[1..][1..] == [MarkerReported(true), FromDestination(Finished(true))];
    assert e[1..][1..][1..] == [FromDestination(Finished(true))];
    assert e[1..][1..][1..][1..] == [];
    assert Supervised(s4, []) == s4;
    assert Supervised(s3, e[1..][1..][1..]) == s4;
    assert Supervised(s2, e[1..][1..]) == s4;
  }

  // ----- the phase as its history tells it ----------------------------------------

  predicate RawDone(start: Core, h: seq<Event>) { start.raw.Succeeded? || FromRaw(Finished(true)) in h }

  /** A parser's input ends once the raw source succeeded and its files are over. */
  predicate InputOver(start: Core, h: seq<Event>) {
    start.parser && RawDone(start, h) && FilesOver(start, h)
  }

  predicate FilesOver(start: Core, h: seq<Event>) { !start.filesOpen || Announced(false) in h }

  predicate ProducerDone(start: Core, h: seq<Event>) {
    start.producer.Succeeded? || FromProducer(Finished(true)) in h
  }

  /** The stream was read to its marker and all of it handed on, or all of it
      read while nobody took it any more. */
  predicate StreamWhole(h: seq<Event>, output: Output) { PumpEnded(false, true, output) in h }

  predicate PumpOver(h: seq<Event>) { exists e :: e in h && e.PumpEnded? }

  predicate MarkerAnswered(h: seq<Event>) { MarkerReported(true) in h || MarkerReported(false) in h }

  /** Everything the commit waits for was heard. */
  predicate CommitDue(start: Core, h: seq<Event>) {
    && ProducerDone(start, h) && (StreamWhole(h, Open) || StreamWhole(h, Closed))
    && (start.parser ==> InputOver(start, h))
  }

  predicate DestinationDone(h: seq<Event>) { FromDestination(Finished(true)) in h }

  /** An event that is a failure, heard after `h`. */
  predicate Bad(start: Core, h: seq<Event>, e: Event) {
    match e
    case Halt => true
    case Deadline => true
    case PumpPanicked => true
    case MarkerReported(ok) => !ok
    case PumpEnded(readError, markerRead, _) => readError || !markerRead
    case Announced(_) => false
    case FromProducer(i) => BadFrom(i, ProducerDone(start, h), !start.parser || InputOver(start, h))
    case FromRaw(i) => BadFrom(i, RawDone(start, h), true)
    case FromDestination(i) => BadFrom(i, DestinationDone(h), CommitDue(start, h))
  }

  /** A plugin that fails, breaks the protocol, is gone before it succeeded,
      or succeeds before it is its turn. */
  predicate BadFrom(i: Inbound, done: bool, turn: bool) {
    match i
    case Finished(success) => !success || !turn
    case Violation => true
    case Eof => !done
    case Other => false
  }

  /** Something bad was heard, or the parser had succeeded during the set-up. */
  ghost predicate BadHeard(start: Core, h: seq<Event>) {
    || (start.parser && !start.inputClosed && start.producer.Succeeded?)
    || exists i :: 0 <= i < |h| && Bad(start, h[..i], h[i])
  }

  /** The phase failed: something bad was heard, or the destination had stopped
      reading when the commit was due. */
  ghost predicate Fails(start: Core, h: seq<Event>) {
    BadHeard(start, h) || (CommitDue(start, h) && StreamWhole(h, Closed))
  }

  /** It ended well: the marker was written and the destination succeeded. */
  predicate Completed(h: seq<Event>) { MarkerReported(true) in h && DestinationDone(h) }

  ghost predicate Hears(start: Core, h: seq<Event>, e: Event) {
    && !Fails(start, h) && !Completed(h)
    && match e
       case MarkerReported(_) => CommitDue(start, h) && !MarkerAnswered(h)
       case PumpEnded(_, _, _) => !PumpOver(h)
       case PumpPanicked => !PumpOver(h)
       case FromRaw(_) => start.parser
       case Announced(_) => start.parser && !FilesOver(start, h)
       case _ => true
  }

  /** The events the phase takes notice of, by what it heard before each. */
  ghost function Heard(start: Core, events: seq<Event>): seq<Event> {
    if events == [] then []
    else
      var h := Heard(start, events[..|events| - 1]);
      var e := events[|events| - 1];
      if Hears(start, h, e) then h + [e] else h
  }

  /** The variables of the loop, told by what was heard. */
  ghost predicate Tells(start: Core, t: Core, h: seq<Event>) {
    && t.parser == start.parser
    && (t.failed <==> Fails(start, h))
    && (t.committed <==> MarkerReported(true) in h)
    && (!t.failed ==> TellsGoing(start, t, h))
  }

  ghost predicate TellsGoing(start: Core, t: Core, h: seq<Event>) {
    && !t.raw.Unsuccessful? && !t.producer.Unsuccessful? && !t.destination.Unsuccessful?
    && (t.destination.Succeeded? <==> DestinationDone(h))
    && (t.raw.Succeeded? <==> RawDone(start, h))
    && (t.producer.Succeeded? <==> ProducerDone(start, h))
    && (t.parser ==> (t.filesOpen <==> !FilesOver(start, h)))
    && (t.parser ==> (t.inputClosed <==> InputOver(start, h)))
    && (t.pump.Ended? <==> PumpOver(h))
    && (t.pump.Ended? ==> t.pump.clean && (StreamWhole(h, Open) || StreamWhole(h, Closed)))
    && (t.pump.Ended? && !CommitDue(start, h) ==> StreamWhole(h, t.pump.output) && forall o :: StreamWhole(h, o) ==> o == t.pump.output)
    && (CommitDue(start, h) ==> t.pump.Ended? && t.pump.output.Closed?)
    && (t.writing <==> CommitDue(start, h) && !MarkerAnswered(h))
    && (t.committed ==> CommitDue(start, h))
  }

  lemma BadOneMore(start: Core, h: seq<Event>, e: Event)
    requires !BadHeard(start, h)
    ensures BadHeard(start, h + [e]) <==> Bad(start, h, e)
  {
    hide Bad;
    var g := h + [e];
    assert g[..|h|] == h && g[|h|] == e;
    forall i | 0 <= i < |h| ensures g[..i] == h[..i] && g[i] == h[i] { }
  }

  lemma StartTells(start: Core)
    requires CanStart(start)
    ensures Tells(start, Top(start), [])
  {
  }

  lemma HearsIffListens(start: Core, t: Core, h: seq<Event>, e: Event)
    requires Tells(start, t, h) && Top(t) == t
    ensures Hears(start, h, e) <==> !Over(t) && Enabled(t, e)
  {
    hide Fails, RawDone, FilesOver, ProducerDone, StreamWhole, CommitDue, Top;
  }

  /** The same before the checks at the top of the loop: the parser's input
      and the commit may lag behind. */
  ghost predicate Lags(start: Core, t: Core, h: seq<Event>) {
    && t.parser == start.parser
    && (t.failed <==> BadHeard(start, h))
    && (t.committed <==> MarkerReported(true) in h)
    && (!t.failed ==> Finishes(start, t, h) && Streams(start, t, h))
  }

  predicate Finishes(start: Core, t: Core, h: seq<Event>) {
    && !t.raw.Unsuccessful? && !t.producer.Unsuccessful? && !t.destination.Unsuccessful?
    && (t.destination.Succeeded? <==> DestinationDone(h))
    && (t.raw.Succeeded? <==> RawDone(start, h))
    && (t.producer.Succeeded? <==> ProducerDone(start, h))
    && (t.parser ==> (t.filesOpen <==> !FilesOver(start, h)))
    && (t.parser && t.inputClosed ==> InputOver(start, h))
    && (t.parser && !t.inputClosed ==> !t.producer.Succeeded?)
  }

  ghost predicate Streams(start: Core, t: Core, h: seq<Event>) {
    && (t.pump.Ended? <==> PumpOver(h))
    && (t.pump.Ended? ==> t.pump.clean && (StreamWhole(h, Open) || StreamWhole(h, Closed)))
    && (t.writing || t.committed ==> CommitDue(start, h) && !StreamWhole(h, Closed) && t.pump.Ended? && t.pump.output.Closed?)
    && (t.writing <==> (t.writing || t.committed) && !MarkerAnswered(h))
    && (!t.writing && !t.committed ==>
          !MarkerAnswered(h) && (t.pump.Ended? ==> forall o :: StreamWhole(h, o) <==> o == t.pump.output))
  }

  lemma TopTells(start: Core, u: Core, g: seq<Event>)
    requires Lags(start, u, g)
    ensures Tells(start, Top(u), g)
  {
    hide BadHeard, RawDone, FilesOver, ProducerDone, MarkerAnswered, DestinationDone;
    assert StreamWhole(g, Open) || StreamWhole(g, Closed) ==> PumpOver(g);
  }

  lemma NoBadAnswer(start: Core, h: seq<Event>)
    requires !BadHeard(start, h)
    ensures MarkerReported(false) !in h
  {
    forall i | 0 <= i < |h| ensures h[i] != MarkerReported(false) {
      assert !Bad(start, h[..i], h[i]);
    }
  }

  lemma TellsLags(start: Core, t: Core, h: seq<Event>)
    requires Tells(start, t, h) && Top(t) == t && !t.failed
    ensures Lags(start, t, h)
  {
    if !BadHeard(start, h) { NoBadAnswer(start, h); }
    hide BadHeard, RawDone, FilesOver, ProducerDone;
  }

  lemma ReactLags(start: Core, t: Core, h: seq<Event>, e: Event)
    requires Tells(start, t, h) && Top(t) == t && Hears(start, h, e)
    ensures Lags(start, React(t, e), h + [e])
  {
    TellsLags(start, t, h);
    HearsIffListens(start, t, h, e);
    BadOneMore(start, h, e);
    BadFails(start, t, h, e);
    if !React(t, e).failed {
      ReactFinishes(start, t, h, e);
      ReactStreams(start, t, h, e);
    }
    ReactDone(t, h, e);
    hide Finishes, Streams, BadHeard, Bad, CommitDue, React, DestinationDone;
  }

  lemma BadFails(start: Core, t: Core, h: seq<Event>, e: Event)
    requires Tells(start, t, h) && Top(t) == t && !t.failed && Enabled(t, e)
    ensures React(t, e).failed <==> Bad(start, h, e)
  {
    hide Fails, RawDone, FilesOver, ProducerDone, StreamWhole, DestinationDone;
  }

  lemma ReactDone(t: Core, h: seq<Event>, e: Event)
    requires t.committed <==> MarkerReported(true) in h
    ensures React(t, e).parser == t.parser
    ensures React(t, e).committed <==> MarkerReported(true) in h + [e]
  {
    hide OnProducer, OnRaw, OnDestination, Note, Fail;
    assert MarkerReported(true) in h + [e] <==> MarkerReported(true) in h || MarkerReported(true) == e;
    match e { case _ => }
  }

  lemma ReactFinishes(start: Core, t: Core, h: seq<Event>, e: Event)
    requires t.parser == start.parser && Finishes(start, t, h)
    requires !React(t, e).failed
    ensures Finishes(start, React(t, e), h + [e])
  {
    DoneOneMore(start, h, e);
    hide RawDone, ProducerDone, FilesOver, DestinationDone;
    match e {
      case FromProducer(_) => hide OnRaw, OnDestination;
      case FromRaw(_) => hide OnProducer, OnDestination;
      case FromDestination(_) => hide OnRaw, OnProducer;
      case _ => hide OnRaw, OnProducer, OnDestination;
    }
  }

  lemma DoneOneMore(start: Core, h: seq<Event>, e: Event)
    ensures var g := h + [e];
            && (RawDone(start, g) <==> RawDone(start, h) || e == FromRaw(Finished(true)))
            && (ProducerDone(start, g) <==> ProducerDone(start, h) || e == FromProducer(Finished(true)))
            && (DestinationDone(g) <==> DestinationDone(h) || e == FromDestination(Finished(true)))
            && (FilesOver(start, g) <==> FilesOver(start, h) || e == Announced(false))
  {
    assert forall x :: x in h + [e] <==> x in h || x == e;
  }

  lemma ReactStreams(start: Core, t: Core, h: seq<Event>, e: Event)
    requires t.parser == start.parser && Streams(start, t, h) && Enabled(t, e)
    requires !React(t, e).failed && (t.committed <==> MarkerReported(true) in h)
    ensures Streams(start, React(t, e), h + [e])
  {
    var g := h + [e];
    assert e in g && forall x :: x in g <==> x in h || x == e;
    if e.PumpEnded? {
      assert forall o :: StreamWhole(h, o) ==> PumpOver(h);
      assert forall o :: StreamWhole(g, o) <==> o == e.output;
      assert PumpOver(g);
    } else {
      assert forall o :: StreamWhole(g, o) <==> StreamWhole(h, o);
      assert PumpOver(g) <==> PumpOver(h);
    }
  }

  /** One more event, told. */
  lemma ReactTells(start: Core, t: Core, h: seq<Event>, e: Event)
    requires Tells(start, t, h) && Top(t) == t && Hears(start, h, e)
    ensures Tells(start, Top(React(t, e)), h + [e])
  {
    ReactLags(start, t, h, e);
    TopTells(start, React(t, e), h + [e]);
  }

  lemma {:induction false} SupervisedOneMore(s: Core, events: seq<Event>, e: Event)
    ensures var t := Supervised(s, events);
            && Top(t) == t
            && Supervised(s, events + [e]) == if !Over(t) && Enabled(t, e) then Top(React(t, e)) else t
    decreases |events|
  {
    hide React, Top, Enabled;
    var t := Top(s);
    TopIsStable(s);
    var all := events + [e];
    if Over(t) {
    } else if events == [] {
      assert all[0] == e && all[1..] == [];
    } else {
      assert all[0] == events[0] && all[1..] == events[1..] + [e];
      SupervisedOneMore(if Enabled(t, events[0]) then React(t, events[0]) else t, events[1..], e);
    }
  }

  /** For every start and every sequence of events: the phase has failed, has
      written the marker, counts the destination's success and is over exactly
      as the events it heard say. */
  lemma {:induction false} PhaseIsItsHistory(start: Core, events: seq<Event>)
    requires CanStart(start)
    ensures var t := Supervised(start, events);
            var h := Heard(start, events);
            && Tells(start, t, h)
            && (t.failed <==> Fails(start, h))
            && (Over(t) && !t.failed <==> Completed(h) && !Fails(start, h))
  {
    hide Fails, Bad, CommitDue, TellsGoing, Top, React, Enabled, Hears;
    if events == [] {
      StartTells(start);
    } else {
      var before, e := events[..|events| - 1], events[|events| - 1];
      PhaseIsItsHistory(start, before);
      assert before + [e] == events;
      SupervisedOneMore(start, before, e);
      HearsIffListens(start, Supervised(start, before), Heard(start, before), e);
      if Hears(start, Heard(start, before), e) {
        ReactTells(start, Supervised(start, before), Heard(start, before), e);
      }
    }
    OverTold(start, Supervised(start, events), Heard(start, events));
  }

  predicate RawRefused(h: seq<Event>) { FromRaw(Finished(false)) in h }

  predicate ProducerRefused(h: seq<Event>) { FromProducer(Finished(false)) in h }

  predicate DestinationRefused(h: seq<Event>) { FromDestination(Finished(false)) in h }

  /** Which plugin reported that it failed, and whether the marker is still on its way. */
  predicate Refusals(t: Core, h: seq<Event>) {
    && (t.raw.Unsuccessful? <==> RawRefused(h))
    && (t.producer.Unsuccessful? <==> ProducerRefused(h))
    && (t.destination.Unsuccessful? <==> DestinationRefused(h))
    && (t.writing ==> !MarkerAnswered(h))
  }

  lemma RefusedOneMore(h: seq<Event>, e: Event)
    ensures RawRefused(h + [e]) <==> RawRefused(h) || e == FromRaw(Finished(false))
    ensures ProducerRefused(h + [e]) <==> ProducerRefused(h) || e == FromProducer(Finished(false))
    ensures DestinationRefused(h + [e]) <==> DestinationRefused(h) || e == FromDestination(Finished(false))
    ensures MarkerAnswered(h + [e]) <==> MarkerAnswered(h) || e.MarkerReported?
  {
    assert forall x :: x in h + [e] <==> x in h || x == e;
    assert e.MarkerReported? ==> e == MarkerReported(true) || e == MarkerReported(false);
  }

  lemma ProducerStatus(t: Core, i: Inbound)
    requires !t.producer.Unsuccessful?
    ensures var u := OnProducer(t, i);
            && u.raw == t.raw && u.destination == t.destination && u.writing == t.writing
            && (u.producer.Unsuccessful? <==> i == Finished(false))
  {
    if i == Finished(false) { hide Note; }
  }

  lemma RawStatus(t: Core, i: Inbound)
    requires !t.raw.Unsuccessful?
    ensures var u := OnRaw(t, i);
            && u.producer == t.producer && u.destination == t.destination && u.writing == t.writing
            && (u.raw.Unsuccessful? <==> i == Finished(false))
  {
    if i == Finished(false) { hide Note; }
  }

  lemma DestinationStatus(t: Core, i: Inbound)
    requires !t.destination.Unsuccessful?
    ensures var u := OnDestination(t, i);
            && u.producer == t.producer && u.raw == t.raw && u.writing == t.writing
            && (u.destination.Unsuccessful? <==> i == Finished(false))
  {
    if i == Finished(false) { hide Note; }
  }

  lemma OtherStatus(t: Core, e: Event)
    requires !e.FromProducer? && !e.FromRaw? && !e.FromDestination?
    ensures var u := React(t, e);
            && u.producer == t.producer && u.raw == t.raw && u.destination == t.destination
            && (u.writing <==> t.writing && !e.MarkerReported?)
  {
    hide OnProducer, OnRaw, OnDestination, Note, Fail;
    match e {
      case MarkerReported(_) =>
      case PumpEnded(_, _, _) =>
      case _ =>
    }
  }

  lemma ReactRefuses(t: Core, h: seq<Event>, e: Event)
    requires !t.raw.Unsuccessful? && !t.producer.Unsuccessful? && !t.destination.Unsuccessful? && Refusals(t, h)
    ensures Refusals(React(t, e), h + [e])
  {
    RefusedOneMore(h, e);
    match e {
      case FromProducer(i) => ProducerStatus(t, i);
      case FromRaw(i) => RawStatus(t, i);
      case FromDestination(i) => DestinationStatus(t, i);
      case _ => OtherStatus(t, e);
    }
    hide RawRefused, ProducerRefused, DestinationRefused, MarkerAnswered, OnProducer, OnRaw, OnDestination, Note, Fail;
  }

  lemma TopRefuses(start: Core, u: Core, g: seq<Event>)
    requires Refusals(u, g) && Tells(start, Top(u), g)
    ensures Refusals(Top(u), g)
  {
    hide Fails, RawDone, FilesOver, ProducerDone, StreamWhole, DestinationDone, CommitDue, InputOver;
  }

  /** And each variable that tells of a failure says which one was heard. */
  lemma {:induction false} RefusalsAreTold(start: Core, events: seq<Event>)
    requires CanStart(start)
    ensures Refusals(Supervised(start, events), Heard(start, events))
  {
    hide Fails, Bad, CommitDue, Top, React, Enabled, Hears, Refusals;
    PhaseIsItsHistory(start, events);
    if events == [] {
      StartRefuses(start);
    } else {
      var before, e := events[..|events| - 1], events[|events| - 1];
      PhaseIsItsHistory(start, before);
      RefusalsAreTold(start, before);
      assert before + [e] == events;
      SupervisedOneMore(start, before, e);
      var t, h := Supervised(start, before), Heard(start, before);
      HearsIffListens(start, t, h, e);
      if Hears(start, h, e) {
        ReactRefuses(t, h, e);
        TopRefuses(start, React(t, e), h + [e]);
      }
    }
  }

  lemma StartRefuses(start: Core)
    requires CanStart(start)
    ensures Refusals(Top(start), [])
  {
  }

  lemma OverTold(start: Core, t: Core, h: seq<Event>)
    requires Tells(start, t, h)
    ensures Over(t) && !t.failed <==> Completed(h) && !Fails(start, h)
  {
    hide Fails, CommitDue;
  }

  /** A halt, a deadline, a failing or vanishing plugin, a success out of turn,
      a broken stream or a marker that could not be written ends the phase at
      once: it has failed, and no marker was written that was not before. */
  lemma BadEventEndsThePhase(start: Core, events: seq<Event>, e: Event)
    requires CanStart(start)
    requires Hears(start, Heard(start, events), e) && Bad(start, Heard(start, events), e)
    ensures var t := Supervised(start, events + [e]);
            t.failed && Over(t) && (t.committed <==> Supervised(start, events).committed)
            && (MarkerStarted in t.log <==> MarkerStarted in Supervised(start, events).log)
  {
    var t, h := Supervised(start, events), Heard(start, events);
    PhaseIsItsHistory(start, events);
    PhaseIsItsHistory(start, events + [e]);
    SupervisedOneMore(start, events, e);
    HearsIffListens(start, t, h, e);
    assert (events + [e])[..|events|] == events;
    assert Heard(start, events + [e]) == h + [e];
    BadOneMore(start, h, e);
    FailureStartsNoMarker(t, e);
    hide Fails, CommitDue, StreamWhole, TellsGoing, Top, React, Enabled, Hears;
  }

  lemma FailureStartsNoMarker(t: Core, e: Event)
    requires Top(React(t, e)).failed
    ensures MarkerStarted in Top(React(t, e)).log <==> MarkerStarted in t.log
  {
    ReactStartsNoMarker(t, e);
    TopStartsNoMarker(React(t, e));
    hide React, Top;
  }

  lemma ReactStartsNoMarker(t: Core, e: Event)
    ensures MarkerStarted in React(t, e).log <==> MarkerStarted in t.log
  {
    match e {
      case FromProducer(i) => ProducerStartsNoMarker(t, i);
      case FromRaw(i) => RawStartsNoMarker(t, i);
      case FromDestination(i) => DestinationStartsNoMarker(t, i);
      case _ =>
    }
    hide OnProducer, OnRaw, OnDestination;
  }

  lemma ProducerStartsNoMarker(t: Core, i: Inbound)
    ensures MarkerStarted in OnProducer(t, i).log <==> MarkerStarted in t.log
  {
  }

  lemma RawStartsNoMarker(t: Core, i: Inbound)
    ensures MarkerStarted in OnRaw(t, i).log <==> MarkerStarted in t.log
  {
  }

  lemma DestinationStartsNoMarker(t: Core, i: Inbound)
    ensures MarkerStarted in OnDestination(t, i).log <==> MarkerStarted in t.log
  {
  }

  lemma TopStartsNoMarker(u: Core)
    requires Top(u).failed
    ensures MarkerStarted in Top(u).log <==> MarkerStarted in u.log
  {
  }
}

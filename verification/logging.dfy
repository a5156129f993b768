/** The three log entry points `logger`, `logNetwork` and `logError`.

    Each call appends events to two sinks: the remote crash-reporting
    service (a plain log line or an exception record) and the console (a
    delimited block). `LogSinks` records everything written to either sink,
    in order, as one trace; `Remote` and `Console` project out what each sink
    received. Which events a call produces depends only on its flags, so the
    events of one call are given by a pure function (`LoggerTrace`,
    `NetworkTrace`, `ErrorTrace`) that each method is proved to append. */
module Logging {
  import opened PathFormat
  import opened Render

  datatype Event =
    /** `Crashlytics.crashlytics().log(message)` */
    | RemoteLog(message: string)
    /** `Crashlytics.crashlytics().record(exceptionModel: .init(name:reason:))` */
    | RemoteException(name: string, reason: string)
    /** The console block `logger` prints, with its column number. */
    | ConsoleInfo(breadcrumb: string, functionName: string, line: int, column: int, items: string)
    /** The console block `logNetwork` prints when asked to. */
    | ConsoleNetwork(items: string)
    /** The console block `logError` prints. */
    | ConsoleError(breadcrumb: string, functionName: string, line: int, items: string)
  {
    predicate IsRemote()
    {
      RemoteLog? || RemoteException?
    }
  }

  /** What the remote reporting sink received, in order. */
  function Remote(trace: seq<Event>): (r: seq<Event>)
    ensures forall i :: 0 <= i < |r| ==> r[i].IsRemote()
    ensures forall i :: 0 <= i < |r| ==> r[i] in trace
  {
    if |trace| == 0 then []
    else (if trace[0].IsRemote() then [trace[0]] else []) + Remote(trace[1..])
  }

  /** What the console received, in order. */
  function Console(trace: seq<Event>): (r: seq<Event>)
    ensures forall i :: 0 <= i < |r| ==> !r[i].IsRemote()
    ensures forall i :: 0 <= i < |r| ==> r[i] in trace
  {
    if |trace| == 0 then []
    else (if trace[0].IsRemote() then [] else [trace[0]]) + Console(trace[1..])
  }

  /** Every event goes to exactly one of the two sinks: together they hold
      the events of the trace, none lost and none duplicated. */
  lemma {:induction false} SinksPartition(trace: seq<Event>)
    ensures |Remote(trace)| + |Console(trace)| == |trace|
    ensures multiset(Remote(trace)) + multiset(Console(trace)) == multiset(trace)
  {
    if |trace| > 0 {
      SinksPartition(trace[1..]);
      assert trace == [trace[0]] + trace[1..];
    }
  }

  /** Appending to the trace appends to each sink separately. */
  lemma {:induction false} SinksAppend(a: seq<Event>, b: seq<Event>)
    ensures Remote(a + b) == Remote(a) + Remote(b)
    ensures Console(a + b) == Console(a) + Console(b)
  {
    if |a| > 0 {
      SinksAppend(a[1..], b);
      var ab := a + b;
      assert ab[0] == a[0] && ab[1..] == a[1..] + b;
      var remoteHead := if a[0].IsRemote() then [a[0]] else [];
      var consoleHead := if a[0].IsRemote() then [] else [a[0]];
      assert Remote(ab) == remoteHead + (Remote(a[1..]) + Remote(b));
      assert Console(ab) == consoleHead + (Console(a[1..]) + Console(b));
    } else {
      assert a + b == b;
    }
  }

  /** A single event goes to the sink it belongs to. */
  lemma SinksSingle(e: Event)
    ensures Remote([e]) == if e.IsRemote() then [e] else []
    ensures Console([e]) == if e.IsRemote() then [] else [e]
  {
    assert [e][1..] == [];
  }

  /** A remote event followed by a console event. */
  lemma SinksPair(r: Event, c: Event)
    requires r.IsRemote() && !c.IsRemote()
    ensures Remote([r, c]) == [r] && Console([r, c]) == [c]
  {
    SinksAppend([r], [c]);
    SinksSingle(r);
    SinksSingle(c);
    assert [r, c] == [r] + [c];
  }

  // The single-line texts sent to the remote sink. The word "netowrk" is
  // spelled as the application spells it.

  /** Line 38's template: the fixed text "log from logger file=", then the
      breadcrumb, ..., and " logger=" followed by the items at the end. */
  function LoggerMessage(breadcrumb: string, functionName: string, line: int, items: string): (m: string)
    ensures |m| >= 21 + |breadcrumb| + 8 + |items|
    ensures m[..21] == "log from logger file=" && m[21..21 + |breadcrumb|] == breadcrumb
    ensures m[|m| - |items| - 8..] == " logger=" + items
  {
    var head := "log from logger file=" + breadcrumb;
    var tail := " logger=" + items;
    var m := head + (" Function=" + functionName + " Line=" + IntToString(line)) + tail;
    assert m[..|head|] == head && m[|m| - |tail|..] == tail;
    assert head[..21] == "log from logger file=" && head[21..] == breadcrumb;
    m
  }

  /** The line number can be read off the remote line of `logger`: two
      calls that differ only in the line send different text. */
  lemma LoggerMessageLineInjective(breadcrumb: string, functionName: string, l1: int, l2: int, items: string)
    requires LoggerMessage(breadcrumb, functionName, l1, items) == LoggerMessage(breadcrumb, functionName, l2, items)
    ensures l1 == l2
  {
    var head := "log from logger file=" + breadcrumb;
    var mid := " Function=" + functionName + " Line=";
    var tail := " logger=" + items;
    var r1, r2 := IntToString(l1), IntToString(l2);
    MiddleCancels(head, mid, r1, r2, tail);
    IntToStringInjective(l1, l2);
  }

  /** Equal strings with the same head, middle and tail agree in between. */
  lemma MiddleCancels(head: string, mid: string, a: string, b: string, tail: string)
    requires head + (mid + a) + tail == head + (mid + b) + tail
    ensures a == b
  {
    var pre := head + mid;
    assert head + (mid + a) + tail == pre + a + tail;
    assert head + (mid + b) + tail == pre + b + tail;
    assert (pre + a + tail)[|pre|..|pre| + |a|] == a;
    assert (pre + b + tail)[|pre|..|pre| + |b|] == b;
  }

  /** Line 53's template: "log from netowrk log=" followed by the items. */
  function NetworkMessage(items: string): (m: string)
    ensures |m| == 21 + |items| && m[..21] == "log from netowrk log=" && m[21..] == items
  {
    "log from netowrk log=" + items
  }

  /** Line 72's exception name: "log error at " followed by the environment tag. */
  function ErrorName(environment: string): (m: string)
    ensures |m| == 13 + |environment| && m[..13] == "log error at " && m[13..] == environment
  {
    "log error at " + environment
  }

  /** Line 72's exception reason: "file=", then the breadcrumb, ..., and
      " error=" followed by the items at the end. */
  function ErrorReason(breadcrumb: string, functionName: string, line: int, items: string): (m: string)
    ensures |m| >= 5 + |breadcrumb| + 7 + |items|
    ensures m[..5] == "file=" && m[5..5 + |breadcrumb|] == breadcrumb
    ensures m[|m| - |items| - 7..] == " error=" + items
  {
    var head := "file=" + breadcrumb;
    var tail := " error=" + items;
    var m := head + (" Function=" + functionName + " Line=" + IntToString(line)) + tail;
    assert m[..|head|] == head && m[|m| - |tail|..] == tail;
    assert head[..5] == "file=" && head[5..] == breadcrumb;
    m
  }

  /** The events of one `logger` call: one remote log line, which has no
      column, then one console block, which has it. */
  function LoggerTrace(items: string, file: string, functionName: string, line: int, column: int): (t: seq<Event>)
    ensures |t| == 2 && t[0].IsRemote() && !t[1].IsRemote()
    ensures Remote(t) == [RemoteLog(LoggerMessage(LogFilePath(file), functionName, line, items))]
    ensures Console(t) == [ConsoleInfo(LogFilePath(file), functionName, line, column, items)]
  {
    var breadcrumb := LogFilePath(file);
    SinksPair(RemoteLog(LoggerMessage(breadcrumb, functionName, line, items)),
              ConsoleInfo(breadcrumb, functionName, line, column, items));
    [RemoteLog(LoggerMessage(breadcrumb, functionName, line, items)),
     ConsoleInfo(breadcrumb, functionName, line, column, items)]
  }

  /** The events of one `logError` call: one exception record named after
      the environment, then one console block. */
  function ErrorTrace(environment: string, items: string, file: string, functionName: string, line: int): (t: seq<Event>)
    ensures |t| == 2 && t[0].IsRemote() && !t[1].IsRemote()
    ensures Remote(t) == [RemoteException("log error at " + environment,
                                          ErrorReason(LogFilePath(file), functionName, line, items))]
    ensures Console(t) == [ConsoleError(LogFilePath(file), functionName, line, items)]
  {
    var breadcrumb := LogFilePath(file);
    SinksPair(RemoteException(ErrorName(environment), ErrorReason(breadcrumb, functionName, line, items)),
              ConsoleError(breadcrumb, functionName, line, items));
    [RemoteException(ErrorName(environment), ErrorReason(breadcrumb, functionName, line, items)),
     ConsoleError(breadcrumb, functionName, line, items)]
  }

  /** The events of one `logNetwork` call: always one remote log line first; a
      console block exactly when `needPrint`; an exception record (and the
      error's console block) exactly when `sendNonFatalError`. */
  function NetworkTrace(environment: string, items: string, file: string, functionName: string, line: int,
                        needPrint: bool, sendNonFatalError: bool): (t: seq<Event>)
    ensures |t| >= 1 && t[0] == RemoteLog(NetworkMessage(items))
    ensures |Remote(t)| == if sendNonFatalError then 2 else 1
    ensures |Console(t)| == (if needPrint then 1 else 0) + (if sendNonFatalError then 1 else 0)
    ensures ConsoleNetwork(items) in Console(t) <==> needPrint
    ensures (exists i :: 0 <= i < |t| && t[i].RemoteException?) <==> sendNonFatalError
  {
    var own := [RemoteLog(NetworkMessage(items))] + (if needPrint then [ConsoleNetwork(items)] else []);
    var escalation := if sendNonFatalError then ErrorTrace(environment, items, file, functionName, line) else [];
    NetworkSinks(NetworkMessage(items), items, needPrint, escalation);
    own + escalation
  }

  /** The events `logNetwork` writes itself: one remote line and, when
      printing, one console block; neither is an exception record. */
  lemma NetworkOwnSinks(message: string, items: string, needPrint: bool)
    ensures var own := [RemoteLog(message)] + (if needPrint then [ConsoleNetwork(items)] else []);
      && Remote(own) == [RemoteLog(message)]
      && Console(own) == (if needPrint then [ConsoleNetwork(items)] else [])
      && forall i :: 0 <= i < |own| ==> !own[i].RemoteException?
  {
    var first := [RemoteLog(message)];
    var printed := if needPrint then [ConsoleNetwork(items)] else [];
    SinksAppend(first, printed);
    SinksSingle(RemoteLog(message));
    SinksSingle(ConsoleNetwork(items));
  }

  /** How the events of `logNetwork` split between the sinks, for any events
      `escalation` that follow its own, given that they are those of
      `logError` or nothing. */
  lemma NetworkSinks(message: string, items: string, needPrint: bool, escalation: seq<Event>)
    requires escalation == [] || (|escalation| == 2 && escalation[0].RemoteException? && !escalation[1].IsRemote()
                                  && Remote(escalation) == [escalation[0]] && Console(escalation) == [escalation[1]])
    ensures var t := [RemoteLog(message)] + (if needPrint then [ConsoleNetwork(items)] else []) + escalation;
      && Remote(t) == [RemoteLog(message)] + Remote(escalation)
      && Console(t) == (if needPrint then [ConsoleNetwork(items)] else []) + Console(escalation)
      && ((exists i :: 0 <= i < |t| && t[i].RemoteException?) <==> escalation != [])
  {
    var own := [RemoteLog(message)] + (if needPrint then [ConsoleNetwork(items)] else []);
    var t := own + escalation;
    NetworkOwnSinks(message, items, needPrint);
    SinksAppend(own, escalation);
    if escalation != [] {
      assert t[|own|].RemoteException?;
    } else {
      assert t == own;
    }
  }

  /** Appending the events of `logNetwork` one group after the other, as
      the call writes them, appends `NetworkTrace`. */
  lemma NetworkTraceAfter(prior: seq<Event>, environment: string, items: string, file: string, functionName: string,
                          line: int, needPrint: bool, sendNonFatalError: bool)
    ensures prior + NetworkTrace(environment, items, file, functionName, line, needPrint, sendNonFatalError)
         == prior + [RemoteLog(NetworkMessage(items))] + (if needPrint then [ConsoleNetwork(items)] else [])
            + (if sendNonFatalError then ErrorTrace(environment, items, file, functionName, line) else [])
  {
  }

  /** The remote log line of `logger` does not depend on the column; only the
      console block shows it. */
  lemma LoggerRemoteOmitsColumn(items: string, file: string, functionName: string, line: int, c1: int, c2: int)
    ensures Remote(LoggerTrace(items, file, functionName, line, c1)) == Remote(LoggerTrace(items, file, functionName, line, c2))
    ensures Console(LoggerTrace(items, file, functionName, line, c1)) == Console(LoggerTrace(items, file, functionName, line, c2))
        <==> c1 == c2
  {
  }

  /** With `sendNonFatalError`, `logNetwork` does what it does without it and
      then exactly what `logError` does with the same items, file, function
      and line. */
  lemma NetworkEscalatesToError(environment: string, items: string, file: string, functionName: string,
                                line: int, needPrint: bool)
    ensures NetworkTrace(environment, items, file, functionName, line, needPrint, true)
         == NetworkTrace(environment, items, file, functionName, line, needPrint, false)
            + ErrorTrace(environment, items, file, functionName, line)
  {
  }

  /** With its default flags `logNetwork` writes one remote log line and
      nothing to the console. */
  lemma NetworkDefaultsAreQuiet(environment: string, items: string, file: string, functionName: string, line: int)
    ensures NetworkTrace(environment, items, file, functionName, line, false, false) == [RemoteLog(NetworkMessage(items))]
    ensures Console(NetworkTrace(environment, items, file, functionName, line, false, false)) == []
  {
  }

  /** Both sinks, as written by the entry points. */
  class LogSinks {
    /** Every event written to either sink, in the order written. */
    var trace: seq<Event>

    constructor ()
      ensures trace == []
    {
      trace := [];
    }

    function RemoteRecords(): seq<Event>
      reads this
    {
      Remote(trace)
    }

    function ConsoleBlocks(): seq<Event>
      reads this
    {
      Console(trace)
    }

    /** `logger(items, file:function:line:column:)` */
    method Logger(items: string, file: string, functionName: string, line: int, column: int)
      modifies this
      ensures trace == old(trace) + LoggerTrace(items, file, functionName, line, column)
      ensures RemoteRecords() == old(RemoteRecords()) + [RemoteLog(LoggerMessage(LogFilePath(file), functionName, line, items))]
      ensures ConsoleBlocks() == old(ConsoleBlocks()) + [ConsoleInfo(LogFilePath(file), functionName, line, column, items)]
    {
      var breadcrumb := LogFilePath(file);
      ghost var added := LoggerTrace(items, file, functionName, line, column);
      trace := trace + [RemoteLog(LoggerMessage(breadcrumb, functionName, line, items))];
      trace := trace + [ConsoleInfo(breadcrumb, functionName, line, column, items)];
      assert trace == old(trace) + added;
      SinksAppend(old(trace), added);
    }

    /** `logError(items, file:function:line:)`, with the environment tag the
        application configuration holds at the time of the call. */
    method LogError(environment: string, items: string, file: string, functionName: string, line: int)
      modifies this
      ensures trace == old(trace) + ErrorTrace(environment, items, file, functionName, line)
      ensures RemoteRecords() == old(RemoteRecords())
                + [RemoteException(ErrorName(environment), ErrorReason(LogFilePath(file), functionName, line, items))]
      ensures ConsoleBlocks() == old(ConsoleBlocks()) + [ConsoleError(LogFilePath(file), functionName, line, items)]
    {
      var breadcrumb := LogFilePath(file);
      ghost var added := ErrorTrace(environment, items, file, functionName, line);
      trace := trace + [RemoteException(ErrorName(environment), ErrorReason(breadcrumb, functionName, line, items))];
      trace := trace + [ConsoleError(breadcrumb, functionName, line, items)];
      assert trace == old(trace) + added;
      SinksAppend(old(trace), added);
    }

    /** `logNetwork(items, file:function:line:needPrint:sendNonFatalError:)` */
    method LogNetwork(environment: string, items: string, file: string, functionName: string, line: int,
                      needPrint: bool, sendNonFatalError: bool)
      modifies this
      ensures trace == old(trace) + NetworkTrace(environment, items, file, functionName, line, needPrint, sendNonFatalError)
      ensures |RemoteRecords()| == |old(RemoteRecords())| + if sendNonFatalError then 2 else 1
      ensures |ConsoleBlocks()| == |old(ConsoleBlocks())| + (if needPrint then 1 else 0) + (if sendNonFatalError then 1 else 0)
    {
      var logged := RemoteLog(NetworkMessage(items));
      ghost var printed := if needPrint then [ConsoleNetwork(items)] else [];
      ghost var escalation := if sendNonFatalError then ErrorTrace(environment, items, file, functionName, line) else [];
      ghost var added := NetworkTrace(environment, items, file, functionName, line, needPrint, sendNonFatalError);
      NetworkTraceAfter(old(trace), environment, items, file, functionName, line, needPrint, sendNonFatalError);
      trace := trace + [logged];
      if needPrint {
        trace := trace + [ConsoleNetwork(items)];
      }
      assert trace == old(trace) + [logged] + printed;
      if sendNonFatalError {
        LogError(environment, items, file, functionName, line);
      }
      assert trace == old(trace) + [logged] + printed + escalation;
      SinksAppend(old(trace), added);
    }
  }
}

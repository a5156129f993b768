/** `ViewLogger.body`: when a view appears or disappears it is logged through
    `logger` with a label made of the last path component of its `#file`. */
module ViewLogging {
  import opened Components
  import opened PathFormat
  import opened Logging

  datatype Lifecycle = Appear | Disappear

  /** The text after the view's name: " OPENED>>>" or " CLOSED<<<". */
  function Tag(event: Lifecycle): (t: string)
    ensures PathSeparator !in t
    ensures |t| == 10 && t[0] == ' '
  {
    match event
    case Appear => " OPENED>>>"
    case Disappear => " CLOSED<<<"
  }

  /** `file.components(separatedBy: "/").last`. A path always has a last
      component, so the `?? file` fallback of the label is never taken. */
  function FileName(file: string): (name: Option<string>)
    ensures name.Some? && PathSeparator !in name.value
  {
    Last(Split(file, PathSeparator))
  }

  /** `"\(fileName ?? file) OPENED>>>"` or `"... CLOSED<<<"`. */
  function ViewLabel(file: string, event: Lifecycle): (text: string)
    ensures |Tag(event)| <= |text| && text[|text| - |Tag(event)|..] == Tag(event)
  {
    var name := match FileName(file) case Some(n) => n case None => file;
    name + Tag(event)
  }

  /** The label is the part of `file` after its last '/' (the whole of `file`
      when there is none), followed by the lifecycle tag. */
  lemma ViewLabelNamesLeaf(file: string, event: Lifecycle)
    ensures |Tag(event)| <= |ViewLabel(file, event)|
    ensures var text := ViewLabel(file, event);
      var name := text[..|text| - |Tag(event)|];
      && text[|text| - |Tag(event)|..] == Tag(event)
      && PathSeparator !in name
      && |name| <= |file| && file[|file| - |name|..] == name
      && (|name| == |file| || file[|file| - |name| - 1] == PathSeparator)
  {
    var parts := Split(file, PathSeparator);
    var name := parts[|parts| - 1];
    var text := ViewLabel(file, event);
    assert text == name + Tag(event);
    assert text[..|text| - |Tag(event)|] == name;
    SplitLastIsTail(file, PathSeparator);
  }

  /** The `onAppear` / `onDisappear` action: one `logger` call whose items are
      the label and whose call site is the one captured by `.logging()`. */
  method LogLifecycle(sinks: LogSinks, event: Lifecycle, file: string, functionName: string, line: int, column: int)
    modifies sinks
    ensures sinks.trace == old(sinks.trace) + LoggerTrace(ViewLabel(file, event), file, functionName, line, column)
    ensures sinks.ConsoleBlocks()
         == old(sinks.ConsoleBlocks()) + [ConsoleInfo(LogFilePath(file), functionName, line, column, ViewLabel(file, event))]
  {
    sinks.Logger(ViewLabel(file, event), file, functionName, line, column);
  }
}

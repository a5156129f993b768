/** `String.logFilePath`: the breadcrumb a log line shows instead of the raw
    `#file` path. The path is cut at the last `SetupProject` directory and
    the remaining components are joined with " > ". */
module PathFormat {
  import opened Components

  const PathSeparator: char := '/'
  const ProjectMarker: string := "SetupProject"
  const BreadcrumbSeparator: string := " > "

  /** `lastIndex(of: "SetupProject") ?? 0`. */
  function MarkerStart(parts: seq<string>): (start: nat)
    ensures |parts| > 0 ==> start < |parts|
  {
    match LastIndexOf(parts, ProjectMarker)
    case Some(i) => i
    case None => 0
  }

  /** `path.logFilePath`: total, defined for every string. A breadcrumb
      never contains a path separator. */
  function LogFilePath(path: string): (crumb: string)
    ensures PathSeparator !in crumb
  {
    var parts := Split(path, PathSeparator);
    var kept := Suffix(parts, |parts| - MarkerStart(parts));
    assert forall k :: 0 <= k < |kept| ==> PathSeparator !in kept[k];
    JoinExcludes(kept, BreadcrumbSeparator, PathSeparator);
    Join(kept, BreadcrumbSeparator)
  }

  /** When the marker is one of the components, the breadcrumb is made of the
      components from its LAST occurrence on, and so begins with the marker. */
  lemma LogFilePathFromLastMarker(path: string, i: nat)
    requires i < |Split(path, PathSeparator)|
    requires Split(path, PathSeparator)[i] == ProjectMarker
    requires forall j :: i < j < |Split(path, PathSeparator)| ==> Split(path, PathSeparator)[j] != ProjectMarker
    ensures LogFilePath(path) == Join(Split(path, PathSeparator)[i..], BreadcrumbSeparator)
    ensures |ProjectMarker| <= |LogFilePath(path)|
    ensures LogFilePath(path)[..|ProjectMarker|] == ProjectMarker
  {
    var parts := Split(path, PathSeparator);
    var start := MarkerStart(parts);
    assert start == i;
    assert Suffix(parts, |parts| - start) == parts[i..];
  }

  /** When the marker is absent, every component is kept, including the empty
      first component of an absolute path. */
  lemma LogFilePathWithoutMarker(path: string)
    requires ProjectMarker !in Split(path, PathSeparator)
    ensures LogFilePath(path) == Join(Split(path, PathSeparator), BreadcrumbSeparator)
  {
  }

  /** Applying `logFilePath` to a breadcrumb leaves it unchanged. */
  lemma LogFilePathIdempotent(path: string)
    ensures LogFilePath(LogFilePath(path)) == LogFilePath(path)
  {
    var crumb := LogFilePath(path);
    SplitWhole(crumb, PathSeparator);
    assert MarkerStart([crumb]) == 0;
  }

  /** A path `/<outer>/SetupProject/<inner>/SetupProject/<file>` with two
      `SetupProject` directories is cut at the inner one. */
  lemma LogFilePathNestedMarkers(outer: string, inner: string, file: string)
    requires PathSeparator !in outer && PathSeparator !in inner && PathSeparator !in file
    requires file != ProjectMarker
    ensures LogFilePath(Join(["", outer, ProjectMarker, inner, ProjectMarker, file], [PathSeparator]))
         == ProjectMarker + BreadcrumbSeparator + file
  {
    var parts := ["", outer, ProjectMarker, inner, ProjectMarker, file];
    assert PathSeparator !in ProjectMarker;
    SplitJoin(parts, PathSeparator);
    LogFilePathFromLastMarker(Join(parts, [PathSeparator]), 4);
    assert parts[4..] == [ProjectMarker, file];
  }

  /** Without the marker, an absolute path keeps the empty component before
      its leading '/', so its breadcrumb starts with " > " (for example,
      "/tmp/Other/File.ext" gives " > tmp > Other > File.ext"). */
  lemma LogFilePathAbsoluteWithoutMarker(path: string)
    requires |path| > 0 && path[0] == PathSeparator
    requires ProjectMarker !in Split(path, PathSeparator)
    ensures |BreadcrumbSeparator| <= |LogFilePath(path)|
    ensures LogFilePath(path)[..|BreadcrumbSeparator|] == BreadcrumbSeparator
  {
    var parts := Split(path, PathSeparator);
    assert parts == [""] + Split(path[1..], PathSeparator);
    LogFilePathWithoutMarker(path);
    assert Join(parts, BreadcrumbSeparator) == "" + BreadcrumbSeparator + Join(parts[1..], BreadcrumbSeparator);
  }
}

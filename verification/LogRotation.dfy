/** Retention of telemetry logs and the size-bounded splitting of a live stream. */
module LogRotation {
  import opened FlightTypes

  datatype LimitError = TooFewFiles | TooFewTotalBytes | TooFewFileBytes

  datatype Result<+T> = Ok(value: T) | Error(error: LimitError)

  /** A log is one chunk of the stream, by its suffix number, or another log. */
  datatype Name = Chunk(suffix: nat) | Other(id: nat)

  datatype File = File(name: Name, size: nat)

  datatype Limits = Limits(maxFiles: nat, maxTotal: nat)

  function Total(files: seq<File>): nat {
    if files == [] then 0 else Total(files[..|files| - 1]) + files[|files| - 1].size
  }

  // --- Retention: candidates come newest first ---

  predicate Fits(l: Limits, kept: seq<File>, f: File) {
    kept == [] || (|kept| < l.maxFiles && Total(kept) + f.size <= l.maxTotal)
  }

  function Kept(l: Limits, files: seq<File>): seq<File> {
    if files == [] then []
    else
      var (kept, f) := (Kept(l, files[..|files| - 1]), files[|files| - 1]);
      if Fits(l, kept, f) then kept + [f] else kept
  }

  function Removed(l: Limits, files: seq<File>): seq<File> {
    if files == [] then []
    else
      var (front, f) := (files[..|files| - 1], files[|files| - 1]);
      if Fits(l, Kept(l, front), f) then Removed(l, front) else Removed(l, front) + [f]
  }

  /** Each candidate is kept or removed, none twice. */
  lemma {:induction false} RetentionPartitions(l: Limits, files: seq<File>)
    ensures multiset(Kept(l, files)) + multiset(Removed(l, files)) == multiset(files)
  {
    if files != [] {
      RetentionPartitions(l, files[..|files| - 1]);
      assert files == files[..|files| - 1] + [files[|files| - 1]];
    }
  }

  /** The newest log always stays, and the limits hold but for it alone. */
  lemma {:induction false} RetentionBounds(l: Limits, files: seq<File>)
    requires l.maxFiles >= 1
    ensures files != [] ==> Kept(l, files) != [] && Kept(l, files)[0] == files[0]
    ensures |Kept(l, files)| <= l.maxFiles
    ensures files != [] ==> Total(Kept(l, files)) <= if files[0].size > l.maxTotal then files[0].size else l.maxTotal
  {
    if files != [] {
      var (front, f) := (files[..|files| - 1], files[|files| - 1]);
      var kept := Kept(l, front);
      assert (kept + [f])[..|kept|] == kept;
      if front == [] {
        assert kept == [] && files == [f];
      } else {
        RetentionBounds(l, front);
        assert front[0] == files[0];
      }
    }
  }

  lemma {:induction false} KeptOnlyGrows(l: Limits, files: seq<File>, n: nat)
    requires n <= |files|
    ensures Kept(l, files[..n]) <= Kept(l, files)
  {
    if n == |files| {
      assert files[..n] == files;
    } else {
      assert files[..|files| - 1][..n] == files[..n];
      KeptOnlyGrows(l, files[..|files| - 1], n);
    }
  }

  lemma {:induction false} TotalOfPrefix(a: seq<File>, b: seq<File>)
    requires a <= b
    ensures Total(a) <= Total(b)
    decreases |b|
  {
    if a != b {
      TotalOfPrefix(a, b[..|b| - 1]);
    }
  }

  /** Newest first, a log stays exactly if it is the first to or if, beside those that
      stay already, neither their number nor their bytes exceed the limits. */
  lemma {:induction false} RetentionIsGreedy(l: Limits, newer: seq<File>, f: File)
    ensures var kept := Kept(l, newer);
            if kept == [] || (|kept| + 1 <= l.maxFiles && Total(kept) + f.size <= l.maxTotal)
            then Kept(l, newer + [f]) == kept + [f] && Removed(l, newer + [f]) == Removed(l, newer)
            else Kept(l, newer + [f]) == kept && Removed(l, newer + [f]) == Removed(l, newer) + [f]
  {
    assert (newer + [f])[..|newer|] == newer;
  }

  /** No removed log could have stayed beside what was kept. */
  lemma {:induction false} RetentionIsMaximal(l: Limits, files: seq<File>, f: File)
    requires f in Removed(l, files)
    ensures Kept(l, files) != [] && (|Kept(l, files)| >= l.maxFiles || Total(Kept(l, files)) + f.size > l.maxTotal)
  {
    var (front, last) := (files[..|files| - 1], files[|files| - 1]);
    if f in Removed(l, front) {
      RetentionIsMaximal(l, front, f);
    }
    TotalOfPrefix(Kept(l, front), Kept(l, files));
  }

  /** A second rotation removes nothing. */
  lemma {:induction false} RetentionIsIdempotent(l: Limits, files: seq<File>)
    ensures Kept(l, Kept(l, files)) == Kept(l, files) && Removed(l, Kept(l, files)) == []
  {
    if files != [] {
      var (front, f) := (files[..|files| - 1], files[|files| - 1]);
      RetentionIsIdempotent(l, front);
      var kept := Kept(l, front);
      assert (kept + [f])[..|kept|] == kept;
    }
  }

  datatype Rotation = Rotation(kept: seq<File>, removed: seq<File>, retainedBytes: nat)

  method Rotate(candidates: seq<File>, maxFiles: int, maxTotalBytes: int) returns (r: Result<Rotation>)
    ensures r.Error? <==> maxFiles < 1 || maxTotalBytes < 1
    ensures r == Error(TooFewFiles) <==> maxFiles < 1
    ensures r.Ok? ==>
              var l := Limits(maxFiles, maxTotalBytes);
              r.value == Rotation(Kept(l, candidates), Removed(l, candidates), Total(Kept(l, candidates)))
  {
    if maxFiles < 1 {
      return Error(TooFewFiles);
    }
    if maxTotalBytes < 1 {
      return Error(TooFewTotalBytes);
    }
    ghost var l := Limits(maxFiles, maxTotalBytes);
    var kept: seq<File>, removed: seq<File>, retainedBytes: nat := [], [], 0;
    for i := 0 to |candidates|
      invariant kept == Kept(l, candidates[..i]) && removed == Removed(l, candidates[..i])
      invariant retainedBytes == Total(kept)
    {
      assert candidates[..i + 1][..i] == candidates[..i];
      var size := candidates[i].size;
      var keepNewest := kept == [];
      var withinCount := |kept| < maxFiles;
      var withinBytes := retainedBytes + size <= maxTotalBytes;
      if keepNewest || (withinCount && withinBytes) {
        assert (kept + [candidates[i]])[..|kept|] == kept;
        kept := kept + [candidates[i]];
        retainedBytes := retainedBytes + size;
        continue;
      }
      removed := removed + [candidates[i]];
    }
    assert candidates[..|candidates|] == candidates;
    return Ok(Rotation(kept, removed, retainedBytes));
  }

  // --- Streaming ---

  /** An encoded line: reading lines never yields an empty one. */
  type Line = s: seq<Byte> | s != [] witness [0]

  function Bytes(lines: seq<Line>): seq<Byte> {
    if lines == [] then [] else Bytes(lines[..|lines| - 1]) + lines[|lines| - 1]
  }

  /** One file the stream has written: its suffix number and its lines. */
  datatype Part = Part(suffix: nat, lines: seq<Line>)

  function Flatten(parts: seq<Part>): seq<Line> {
    if parts == [] then [] else Flatten(parts[..|parts| - 1]) + parts[|parts| - 1].lines
  }

  lemma {:induction false} BytesConcat(a: seq<Line>, b: seq<Line>)
    ensures Bytes(a + b) == Bytes(a) + Bytes(b)
  {
    if b == [] {
      assert a + b == a;
    } else {
      assert (a + b)[..|a + b| - 1] == a + b[..|b| - 1];
      BytesConcat(a, b[..|b| - 1]);
    }
  }

  function Contents(parts: seq<Part>): seq<Byte> {
    if parts == [] then [] else Contents(parts[..|parts| - 1]) + Bytes(parts[|parts| - 1].lines)
  }

  /** The files in creation order hold the bytes of the lines they were given. */
  lemma {:induction false} FilesHoldTheStream(parts: seq<Part>)
    ensures Contents(parts) == Bytes(Flatten(parts))
  {
    if parts != [] {
      FilesHoldTheStream(parts[..|parts| - 1]);
      BytesConcat(Flatten(parts[..|parts| - 1]), parts[|parts| - 1].lines);
    }
  }

  /** No file is empty, only a single line exceeds the bound, none was closed while
      its successor's first line still fitted, and the suffixes increase. */
  ghost predicate WellSplit(parts: seq<Part>, maxFile: nat) {
    && (forall i :: 0 <= i < |parts| ==>
          parts[i].lines != [] && (|Bytes(parts[i].lines)| <= maxFile || |parts[i].lines| == 1))
    && (forall i, j :: 0 <= i < j < |parts| && j == i + 1 ==>
          |Bytes(parts[i].lines)| + |parts[j].lines[0]| > maxFile)
    && (forall i, j :: 0 <= i < j < |parts| ==> parts[i].suffix < parts[j].suffix)
  }

  /** Whether a name under the stem is in use. */
  predicate InUse(files: seq<File>, blocked: set<nat>, suffix: nat) {
    suffix in blocked || exists i :: 0 <= i < |files| && files[i].name == Chunk(suffix)
  }

  /** One more than every suffix in use. */
  ghost function Bound(files: seq<File>, blocked: set<nat>): (n: nat)
    ensures forall suffix: nat :: InUse(files, blocked, suffix) ==> suffix < n
  {
    if files == [] then BoundOf(blocked)
    else
      var (rest, f) := (Bound(files[..|files| - 1], blocked), files[|files| - 1]);
      assert forall suffix: nat :: InUse(files, blocked, suffix) ==>
        InUse(files[..|files| - 1], blocked, suffix) || f.name == Chunk(suffix);
      if f.name.Chunk? && f.name.suffix >= rest then f.name.suffix + 1 else rest
  }

  ghost function BoundOf(blocked: set<nat>): (n: nat)
    ensures forall suffix :: suffix in blocked ==> suffix < n
  {
    if blocked == {} then 0
    else
      var x :| x in blocked;
      var rest := BoundOf(blocked - {x});
      assert forall suffix :: suffix in blocked ==> suffix == x || suffix in blocked - {x};
      if x >= rest then x + 1 else rest
  }

  function Without(files: seq<File>, name: Name): seq<File> {
    if files == [] then []
    else
      var (front, f) := (files[..|files| - 1], files[|files| - 1]);
      if f.name == name then Without(front, name) else Without(front, name) + [f]
  }

  /** The others stay as they are, in their order. */
  lemma {:induction false} WithoutOthers(files: seq<File>, name: Name)
    ensures forall f :: multiset(Without(files, name))[f] == if f.name == name then 0 else multiset(files)[f]
  {
    if files != [] {
      var (front, last) := (files[..|files| - 1], files[|files| - 1]);
      WithoutOthers(front, name);
      assert files == front + [last];
      assert multiset(files) == multiset(front) + multiset{last};
    }
  }

  lemma UseIsListed(files: seq<File>, blocked: set<nat>)
    ensures forall n: nat :: InUse(files, blocked, n) <==> n in blocked || exists f :: f in files && f.name == Chunk(n)
  {
    forall n: nat | exists f :: f in files && f.name == Chunk(n) ensures InUse(files, blocked, n) {
      var f :| f in files && f.name == Chunk(n);
      var i :| 0 <= i < |files| && files[i] == f;
    }
  }

  /** Try the names from a number on until one is free. */
  method Probe(files: seq<File>, blocked: set<nat>, sequence: nat) returns (suffix: nat)
    ensures suffix >= sequence && suffix !in blocked && forall f :: f in files ==> f.name != Chunk(suffix)
    ensures forall n :: sequence <= n < suffix ==> n in blocked || exists f :: f in files && f.name == Chunk(n)
  {
    UseIsListed(files, blocked);
    suffix := sequence;
    while InUse(files, blocked, suffix)
      invariant suffix >= sequence
      invariant forall n :: sequence <= n < suffix ==> InUse(files, blocked, n)
      decreases Bound(files, blocked) - suffix
    {
      suffix := suffix + 1;
    }
  }

  /** What the open file and the counters stand for. */
  ghost predicate Writing(parts: seq<Part>, sequence: nat, activeSize: nat, blocked: set<nat>, maxFile: nat) {
    && WellSplit(parts, maxFile)
    && (parts != [] ==> activeSize == |Bytes(parts[|parts| - 1].lines)|)
    && (forall k :: 0 <= k < |parts| ==> parts[k].suffix < sequence && parts[k].suffix !in blocked)
  }

  lemma OneLine(line: Line)
    ensures Bytes([line]) == line
  {
    assert [line][..0] == [];
  }

  lemma BeginKeeps(parts: seq<Part>, sequence: nat, activeSize: nat, line: Line, blocked: set<nat>,
                   maxFile: nat, suffix: nat)
    requires Writing(parts, sequence, activeSize, blocked, maxFile)
    requires suffix >= sequence && suffix !in blocked && (parts != [] ==> activeSize + |line| > maxFile)
    ensures Writing(parts + [Part(suffix, [line])], suffix + 1, |line|, blocked, maxFile)
  {
    OneLine(line);
    var (n, r) := (|parts|, parts + [Part(suffix, [line])]);
    assert r[n].lines == [line] && r[n].lines[0] == line;
    assert forall i :: 0 <= i < n ==> r[i] == parts[i];
  }

  lemma AppendKeeps(parts: seq<Part>, sequence: nat, activeSize: nat, line: Line, blocked: set<nat>, maxFile: nat)
    requires parts != [] && Writing(parts, sequence, activeSize, blocked, maxFile)
    requires activeSize + |line| <= maxFile
    ensures Writing(Append(parts, line), sequence, activeSize + |line|, blocked, maxFile)
  {
    var (n, r) := (|parts| - 1, Append(parts, line));
    assert parts[n].lines != [] && r[n].lines[0] == parts[n].lines[0];
    assert forall i :: 0 <= i < n ==> r[i] == parts[i];
  }

  lemma BeginIsActive(parts: seq<Part>, suffix: nat, line: Line)
    ensures Actives(Begin(parts, suffix, line)) == Actives(parts) + [File(Chunk(suffix), |line|)]
  {
    OneLine(line);
    assert Begin(parts, suffix, line)[..|parts|] == parts;
    assert [line][..0] == [] && Growth(suffix, [line]) == [] + [File(Chunk(suffix), |Bytes([line])|)];
  }

  lemma AppendIsActive(parts: seq<Part>, line: Line)
    requires parts != []
    ensures var r := Append(parts, line); Actives(r) == Actives(parts) + [FileOf(r[|r| - 1])]
  {
    var (r, last) := (Append(parts, line), parts[|parts| - 1]);
    assert r[..|r| - 1] == parts[..|parts| - 1];
    assert (last.lines + [line])[..|last.lines|] == last.lines;
    assert Growth(last.suffix, last.lines + [line]) ==
           Growth(last.suffix, last.lines) + [File(Chunk(last.suffix), |Bytes(last.lines + [line])|)];
  }

  lemma {:induction false} LinesHaveBytes(lines: seq<Line>)
    requires lines != []
    ensures Bytes(lines) != []
  {
    assert lines[|lines| - 1] != [];
  }

  method Write(parts: seq<Part>, sequence: nat, activeSize: nat, payload: Line,
               directory: seq<File>, blocked: set<nat>, maxFile: nat)
    returns (parts': seq<Part>, sequence': nat, activeSize': nat)
    requires Writing(parts, sequence, activeSize, blocked, maxFile)
    ensures Writing(parts', sequence', activeSize', blocked, maxFile)
    ensures parts' != [] && Flatten(parts') == Flatten(parts) + [payload]
    ensures Bytes(Flatten(parts')) == Bytes(Flatten(parts)) + payload
    ensures Actives(parts') == Actives(parts) + [FileOf(parts'[|parts'| - 1])]
  {
    assert (Flatten(parts) + [payload])[..|Flatten(parts)|] == Flatten(parts);
    if parts == [] || (activeSize > 0 && activeSize + |payload| > maxFile) {
      var suffix := Probe(directory, blocked, sequence);
      BeginKeeps(parts, sequence, activeSize, payload, blocked, maxFile, suffix);
      BeginIsActive(parts, suffix, payload);
      return Begin(parts, suffix, payload), suffix + 1, |payload|;
    }
    LinesHaveBytes(parts[|parts| - 1].lines);
    AppendKeeps(parts, sequence, activeSize, payload, blocked, maxFile);
    AppendIsActive(parts, payload);
    return Append(parts, payload), sequence, activeSize + |payload|;
  }

  ghost predicate Retained(l: Limits, r: Rotation) {
    && r.retainedBytes == Total(r.kept) && |r.kept| <= l.maxFiles
    && (r.kept != [] ==> Total(r.kept) <= if r.kept[0].size > l.maxTotal then r.kept[0].size else l.maxTotal)
  }

  /** What stays once a write has made this file the newest. */
  function AfterWrite(l: Limits, directory: seq<File>, active: File): seq<File> {
    Kept(l, [active] + Without(directory, active.name))
  }

  function AfterWrites(l: Limits, directory: seq<File>, actives: seq<File>): seq<File> {
    if actives == [] then directory
    else AfterWrite(l, AfterWrites(l, directory, actives[..|actives| - 1]), actives[|actives| - 1])
  }

  /** The active file after each line of a part. */
  function Growth(suffix: nat, lines: seq<Line>): seq<File> {
    if lines == [] then [] else Growth(suffix, lines[..|lines| - 1]) + [File(Chunk(suffix), |Bytes(lines)|)]
  }

  /** The active file after each line of the stream. */
  function Actives(parts: seq<Part>): seq<File> {
    if parts == [] then []
    else Actives(parts[..|parts| - 1]) + Growth(parts[|parts| - 1].suffix, parts[|parts| - 1].lines)
  }

  /** Rotate after a write has made the active file the newest. */
  method RotateActive(directory: seq<File>, active: File, l: Limits) returns (r: Rotation)
    requires l.maxFiles >= 1 && l.maxTotal >= 1
    ensures Retained(l, r) && r.kept != [] && r.kept[0] == active
    ensures r.kept == AfterWrite(l, directory, active)
  {
    var files := [active] + Without(directory, active.name);
    var rotated := Rotate(files, l.maxFiles, l.maxTotal);
    RetentionBounds(l, files);
    return rotated.value;
  }

  datatype Written = Written(parts: seq<Part>, mirror: seq<Byte>, retained: Rotation)

  /** What has been written once some lines have gone by, and what is kept of it. */
  ghost predicate Streamed(w: Written, lines: seq<Line>, start: seq<File>, blocked: set<nat>, l: Limits,
                           maxFile: nat) {
    && Flatten(w.parts) == lines && w.mirror == Bytes(lines) && WellSplit(w.parts, maxFile)
    && (forall i :: 0 <= i < |w.parts| ==> w.parts[i].suffix !in blocked)
    && Retained(l, w.retained) && w.retained.kept == AfterWrites(l, start, Actives(w.parts))
    && (lines != [] ==> w.parts != [] && w.retained.kept != [] && w.retained.kept[0] == FileOf(w.parts[|w.parts| - 1]))
  }

  /** One more line has been written, mirrored and rotated over. */
  lemma StreamedOn(w: Written, w': Written, lines: seq<Line>, line: Line, start: seq<File>, blocked: set<nat>,
                   l: Limits, maxFile: nat)
    requires Streamed(w, lines, start, blocked, l, maxFile)
    requires w'.parts != [] && Flatten(w'.parts) == lines + [line] && w'.mirror == w.mirror + line
    requires WellSplit(w'.parts, maxFile) && forall i :: 0 <= i < |w'.parts| ==> w'.parts[i].suffix !in blocked
    requires Retained(l, w'.retained) && w'.retained.kept != []
    requires var active := FileOf(w'.parts[|w'.parts| - 1]);
             && Actives(w'.parts) == Actives(w.parts) + [active] && w'.retained.kept[0] == active
             && w'.retained.kept == AfterWrite(l, w.retained.kept, active)
    ensures Streamed(w', lines + [line], start, blocked, l, maxFile)
  {
    assert (lines + [line])[..|lines|] == lines;
    assert Actives(w'.parts)[..|Actives(w.parts)|] == Actives(w.parts);
  }

  /** One turn of the loop: write, mirror, rotate. */
  method WriteLine(w: Written, sequence: nat, activeSize: nat, line: Line, ghost before: seq<Line>,
                   ghost start: seq<File>, blocked: set<nat>, l: Limits, maxFile: nat)
    returns (w': Written, sequence': nat, activeSize': nat)
    requires l.maxFiles >= 1 && l.maxTotal >= 1
    requires Writing(w.parts, sequence, activeSize, blocked, maxFile) && Streamed(w, before, start, blocked, l, maxFile)
    ensures Writing(w'.parts, sequence', activeSize', blocked, maxFile)
    ensures Streamed(w', before + [line], start, blocked, l, maxFile)
  {
    var parts;
    parts, sequence', activeSize' := Write(w.parts, sequence, activeSize, line, w.retained.kept, blocked, maxFile);
    var retained := RotateActive(w.retained.kept, FileOf(parts[|parts| - 1]), l);
    w' := Written(parts, w.mirror + line, retained);
    StreamedOn(w, w', before, line, start, blocked, l, maxFile);
  }

  method StreamLines(lines: seq<Line>, start: Rotation, blocked: set<nat>, l: Limits, maxFile: nat) returns (w: Written)
    requires l.maxFiles >= 1 && l.maxTotal >= 1 && Retained(l, start)
    ensures Streamed(w, lines, start.kept, blocked, l, maxFile)
  {
    w := Written([], [], start);
    var sequence: nat, activeSize: nat := 0, 0;
    for i := 0 to |lines|
      invariant Writing(w.parts, sequence, activeSize, blocked, maxFile)
      invariant Streamed(w, lines[..i], start.kept, blocked, l, maxFile)
    {
      w, sequence, activeSize :=
        WriteLine(w, sequence, activeSize, lines[i], lines[..i], start.kept, blocked, l, maxFile);
      assert lines[..i] + [lines[i]] == lines[..i + 1];
    }
    assert lines[..|lines|] == lines;
  }

  /** Stream the lines into numbered files of the directory, which is given newest
      first; `blocked` are the suffixes taken by things that are not logs. */
  method Stream(lines: seq<Line>, directory: seq<File>, blocked: set<nat>, maxFiles: int, maxTotalBytes: int,
                maxFileBytes: int)
    returns (r: Result<Written>)
    ensures r.Error? <==> maxFileBytes < 1 || maxFiles < 1 || maxTotalBytes < 1
    ensures r.Ok? ==>
              var l := Limits(maxFiles, maxTotalBytes);
              Streamed(r.value, lines, Kept(l, directory), blocked, l, maxFileBytes)
  {
    if maxFileBytes < 1 {
      return Error(TooFewFileBytes);
    }
    var rotated := Rotate(directory, maxFiles, maxTotalBytes);
    if rotated.Error? {
      return Error(rotated.error);
    }
    var l := Limits(maxFiles, maxTotalBytes);
    RetentionBounds(l, directory);
    assert directory == [] ==> rotated.value.kept == [];
    var w := StreamLines(lines, rotated.value, blocked, l, maxFileBytes);
    return Ok(w);
  }

  function FileOf(p: Part): File { File(Chunk(p.suffix), |Bytes(p.lines)|) }

  /** A new file that starts with a line. */
  function Begin(parts: seq<Part>, suffix: nat, line: Line): (r: seq<Part>)
    ensures r == parts + [Part(suffix, [line])] && Bytes([line]) == line
    ensures Flatten(r) == Flatten(parts) + [line]
  {
    assert (parts + [Part(suffix, [line])])[..|parts|] == parts;
    assert [line][..0] == [];
    parts + [Part(suffix, [line])]
  }

  /** One more line in the last file. */
  function Append(parts: seq<Part>, line: Line): (r: seq<Part>)
    requires parts != []
    ensures r == parts[..|parts| - 1] + [Part(parts[|parts| - 1].suffix, parts[|parts| - 1].lines + [line])]
    ensures Flatten(r) == Flatten(parts) + [line]
    ensures Bytes(r[|r| - 1].lines) == Bytes(parts[|parts| - 1].lines) + line
  {
    var last := parts[|parts| - 1];
    assert parts[..|parts| - 1] + [Part(last.suffix, last.lines + [line])] ==
           parts[|parts| - 1 := Part(last.suffix, last.lines + [line])];
    assert (last.lines + [line])[..|last.lines|] == last.lines;
    parts[..|parts| - 1] + [Part(last.suffix, last.lines + [line])]
  }
}

/**
 * The effectful half of nginx/generator.go: writeIfChanged, atomicWrite and
 * Generate, over a filesystem that maps paths to contents.
 *
 * The filesystem decides which calls fail through a fixed set of faults per
 * operation, so every run is determined by its inputs. The SHA-256 checksum
 * comparison of writeIfChanged is modelled as equality of contents (the
 * checksum is taken to be injective), and template execution as a function
 * of the template data that may fail.
 */
module ConfigWriter {
  import opened Wrappers
  import opened Docker
  import opened Generator

  type Bytes = seq<bv8>

  type Files = map<string, Bytes>

  /** Which paths each filesystem call fails on (permissions, full disk, ...). */
  datatype Faults = Faults(
    unreadable: set<string>,
    unwritable: set<string>,
    noRename: set<string>,
    noRemove: set<string>)

  /** The two kinds of failure the code tells apart: a missing file and anything else. */
  datatype FsError = NotExist | IOFailure

  /** os.ReadFile */
  function ReadOf(faults: Faults, files: Files, path: string): Result<Bytes, FsError> {
    if path in faults.unreadable then Err(IOFailure)
    else if path in files then Ok(files[path])
    else Err(NotExist)
  }

  /** os.WriteFile: creates or truncates `path`; a failed write leaves the filesystem as it was. */
  function WriteOf(faults: Faults, files: Files, path: string, data: Bytes): (Files, Option<FsError>) {
    if path in faults.unwritable then (files, Some(IOFailure))
    else (files[path := data], None)
  }

  /** os.Rename: moves `from` onto `to`, replacing what `to` held. */
  function RenameOf(faults: Faults, files: Files, from: string, to: string): (Files, Option<FsError>) {
    if from !in files then (files, Some(NotExist))
    else if to in faults.noRename then (files, Some(IOFailure))
    else ((files - {from})[to := files[from]], None)
  }

  /** os.Remove */
  function RemoveOf(faults: Faults, files: Files, path: string): (Files, Option<FsError>) {
    if path !in files then (files, Some(NotExist))
    else if path in faults.noRemove then (files, Some(IOFailure))
    else (files - {path}, None)
  }

  /** The filesystem the writer works on. */
  class FileSystem {
    var files: Files
    const faults: Faults

    constructor(files: Files, faults: Faults)
      ensures this.files == files && this.faults == faults
    {
      this.files := files;
      this.faults := faults;
    }

    method ReadFile(path: string) returns (r: Result<Bytes, FsError>)
      ensures r == ReadOf(faults, files, path)
      ensures r.Ok? ==> r.value == Content(files, path)
      ensures r == Err(NotExist) <==> path !in files && path !in faults.unreadable
      ensures r == Err(IOFailure) <==> path in faults.unreadable
    {
      if path in faults.unreadable {
        r := Err(IOFailure);
      } else if path in files {
        r := Ok(files[path]);
      } else {
        r := Err(NotExist);
      }
    }

    method WriteFile(path: string, data: Bytes) returns (err: Option<FsError>)
      modifies this
      ensures (files, err) == WriteOf(faults, old(files), path, data)
    {
      if path in faults.unwritable {
        err := Some(IOFailure);
      } else {
        files := files[path := data];
        err := None;
      }
    }

    method Rename(from: string, to: string) returns (err: Option<FsError>)
      modifies this
      ensures (files, err) == RenameOf(faults, old(files), from, to)
    {
      if from !in files {
        err := Some(NotExist);
      } else if to in faults.noRename {
        err := Some(IOFailure);
      } else {
        files := (files - {from})[to := files[from]];
        err := None;
      }
    }

    method Remove(path: string) returns (err: Option<FsError>)
      modifies this
      ensures (files, err) == RemoveOf(faults, old(files), path)
    {
      if path !in files {
        err := Some(NotExist);
      } else if path in faults.noRemove {
        err := Some(IOFailure);
      } else {
        files := files - {path};
        err := None;
      }
    }
  }

  // ---------------------------------------------------------------------
  // atomicWrite
  // ---------------------------------------------------------------------

  /** The errors of the writer; a failed rename says whether the temp file was cleaned up. */
  datatype WriteError = ReadFailed | TempWriteFailed | RenameFailed(cleaned: bool)

  function TempPath(path: string): string {
    path + ".tmp"
  }

  /** atomicWrite: write `path`.tmp, rename it onto `path`, remove it if the rename fails. */
  function AtomicWriteOf(faults: Faults, files: Files, path: string, data: Bytes): (Files, Option<WriteError>) {
    var tmp := TempPath(path);
    var (f1, e1) := WriteOf(faults, files, tmp, data);
    if e1.Some? then (f1, Some(TempWriteFailed))
    else
      var (f2, e2) := RenameOf(faults, f1, tmp, path);
      if e2.None? then (f2, None)
      else
        var (f3, e3) := RemoveOf(faults, f2, tmp);
        (f3, Some(RenameFailed(e3.None?)))
  }

  /** atomicWrite (generator.go:282-302). */
  method AtomicWrite(fs: FileSystem, path: string, data: Bytes) returns (err: Option<WriteError>)
    modifies fs
    ensures (fs.files, err) == AtomicWriteOf(fs.faults, old(fs.files), path, data)
  {
    var tmp := path + ".tmp";
    var e := fs.WriteFile(tmp, data);
    if e.Some? {
      return Some(TempWriteFailed);
    }
    e := fs.Rename(tmp, path);
    if e.Some? {
      var removed := fs.Remove(tmp);
      return Some(RenameFailed(removed.None?));
    }
    return None;
  }

  lemma TempPathDiffers(path: string)
    ensures TempPath(path) != path
  {
    assert |TempPath(path)| == |path| + 4;
  }

  /**
   * A successful atomic write: the target holds the data, the temp file is
   * gone and every other path is as it was; it succeeds whenever neither
   * the temp write nor the rename is refused.
   */
  lemma AtomicWriteSuccess(faults: Faults, files: Files, path: string, data: Bytes)
    ensures var (files', err) := AtomicWriteOf(faults, files, path, data);
      err.None? <==> (TempPath(path) !in faults.unwritable && path !in faults.noRename)
    ensures var (files', err) := AtomicWriteOf(faults, files, path, data);
      err.None? ==>
        && path in files' && files'[path] == data
        && TempPath(path) !in files'
        && (forall p :: p != path && p != TempPath(path) ==> (p in files' <==> p in files))
        && (forall p :: p != path && p != TempPath(path) && p in files ==> files'[p] == files[p])
  {
    TempPathDiffers(path);
  }

  /** A refused temp write leaves the filesystem untouched. */
  lemma AtomicWriteTempFails(faults: Faults, files: Files, path: string, data: Bytes)
    requires TempPath(path) in faults.unwritable
    ensures AtomicWriteOf(faults, files, path, data) == (files, Some(TempWriteFailed))
  {
  }

  /**
   * A refused rename leaves the target as it was; the temp file is removed
   * unless the removal is refused too, in which case it keeps the data.
   */
  lemma AtomicWriteRenameFails(faults: Faults, files: Files, path: string, data: Bytes)
    requires TempPath(path) !in faults.unwritable && path in faults.noRename
    ensures var (files', err) := AtomicWriteOf(faults, files, path, data);
      && err == Some(RenameFailed(TempPath(path) !in faults.noRemove))
      && (path in files' <==> path in files)
      && (path in files ==> files'[path] == files[path])
      && (TempPath(path) in files' <==> TempPath(path) in faults.noRemove)
      && (TempPath(path) in files' ==> files'[TempPath(path)] == data)
  {
    TempPathDiffers(path);
  }

  // ---------------------------------------------------------------------
  // writeIfChanged
  // ---------------------------------------------------------------------

  /** What the file at `path` holds, a missing file reading as empty. */
  function Content(files: Files, path: string): Bytes {
    if path in files then files[path] else []
  }

  /**
   * writeIfChanged: a read error other than a missing file fails; content
   * equal to the old (a missing file counting as empty) is left alone;
   * otherwise it is written atomically and the result says it changed.
   */
  function WriteIfChangedOf(faults: Faults, files: Files, path: string, content: Bytes): (Files, Result<bool, WriteError>) {
    match ReadOf(faults, files, path)
    case Err(IOFailure) => (files, Err(ReadFailed))
    case _ =>
      if Content(files, path) == content then (files, Ok(false))
      else
        var (files', err) := AtomicWriteOf(faults, files, path, content);
        if err.Some? then (files', Err(err.value)) else (files', Ok(true))
  }

  /** writeIfChanged (generator.go:249-273). */
  method WriteIfChanged(fs: FileSystem, path: string, content: Bytes) returns (r: Result<bool, WriteError>)
    modifies fs
    ensures (fs.files, r) == WriteIfChangedOf(fs.faults, old(fs.files), path, content)
  {
    var read := fs.ReadFile(path);
    if read.Err? && read.error != NotExist {
      return Err(ReadFailed);
    }
    var oldContent := if read.Ok? then read.value else [];
    if content == oldContent {
      return Ok(false);
    }
    var err := AtomicWrite(fs, path, content);
    if err.Some? {
      return Err(err.value);
    }
    return Ok(true);
  }

  /** Unchanged content (a missing file reading as empty) is not written, and the result is false. */
  lemma WriteIfChangedUnchanged(faults: Faults, files: Files, path: string, content: Bytes)
    requires path !in faults.unreadable
    ensures Content(files, path) == content <==> WriteIfChangedOf(faults, files, path, content) == (files, Ok(false))
  {
    var (files', r) := WriteIfChangedOf(faults, files, path, content);
    if Content(files, path) != content && r.Ok? {
      TempPathDiffers(path);
      assert files'[path] == content;
    }
  }

  /** Empty content is never written to a missing path. */
  lemma EmptyToMissing(faults: Faults, files: Files, path: string)
    requires path !in faults.unreadable && path !in files
    ensures WriteIfChangedOf(faults, files, path, []) == (files, Ok(false))
  {
  }

  /** A read error other than a missing file fails before anything is written. */
  lemma WriteIfChangedReadError(faults: Faults, files: Files, path: string, content: Bytes)
    requires path in faults.unreadable
    ensures WriteIfChangedOf(faults, files, path, content) == (files, Err(ReadFailed))
  {
  }

  /**
   * A true result means the path now holds exactly the new content, which
   * differed from the old, and no other path apart from the temp file changed.
   */
  lemma WriteIfChangedWritten(faults: Faults, files: Files, path: string, content: Bytes)
    ensures var (files', r) := WriteIfChangedOf(faults, files, path, content);
      r == Ok(true) ==>
        && Content(files, path) != content
        && path in files' && files'[path] == content
        && (forall p :: p != path && p != TempPath(path) ==> (p in files' <==> p in files))
        && (forall p :: p != path && p != TempPath(path) && p in files ==> files'[p] == files[p])
  {
    AtomicWriteSuccess(faults, files, path, content);
  }

  /** Writing the same content twice: the second call reports no change and writes nothing. */
  lemma WriteIfChangedIdempotent(faults: Faults, files: Files, path: string, content: Bytes)
    requires path !in faults.unreadable
    ensures var (files1, r1) := WriteIfChangedOf(faults, files, path, content);
      r1.Ok? ==> WriteIfChangedOf(faults, files1, path, content) == (files1, Ok(false))
  {
    var (files1, r1) := WriteIfChangedOf(faults, files, path, content);
    if r1 == Ok(true) {
      WriteIfChangedWritten(faults, files, path, content);
    }
    if r1.Ok? {
      WriteIfChangedUnchanged(faults, files1, path, content);
    }
  }

  /** With no faults on the way, writing new content twice returns true, then false. */
  lemma WriteTwice(faults: Faults, files: Files, path: string, content: Bytes)
    requires path !in faults.unreadable && TempPath(path) !in faults.unwritable && path !in faults.noRename
    requires Content(files, path) != content
    ensures var (files1, r1) := WriteIfChangedOf(faults, files, path, content);
      r1 == Ok(true) && WriteIfChangedOf(faults, files1, path, content) == (files1, Ok(false))
  {
    AtomicWriteSuccess(faults, files, path, content);
    WriteIfChangedIdempotent(faults, files, path, content);
  }

  // ---------------------------------------------------------------------
  // Generate
  // ---------------------------------------------------------------------

  /** Template execution, a deterministic function of the data that may fail (None). */
  datatype Templates = Templates(stream: StreamData -> Option<Bytes>, http: HTTPData -> Option<Bytes>)

  /** The fields of the Generator struct: the two target paths and the parsed templates. */
  datatype GeneratorConfig = GeneratorConfig(streamConfigPath: string, httpConfigPath: string, templates: Templates)

  datatype StageError = TemplateFailed | WriteFailed(cause: WriteError)

  datatype GenerateError =
    | Conflict(conflict: ConflictError)
    | StreamConfigFailed(stage: StageError)
    | HTTPConfigFailed(stage: StageError)

  /** generateStreamConfig / generateHTTPConfig: render, then write if changed. */
  function ConfigStep(faults: Faults, files: Files, path: string, rendered: Option<Bytes>): (Files, Result<bool, StageError>) {
    match rendered
    case None => (files, Err(TemplateFailed))
    case Some(content) =>
      var (files', r) := WriteIfChangedOf(faults, files, path, content);
      if r.Err? then (files', Err(WriteFailed(r.error))) else (files', Ok(r.value))
  }

  /**
   * Generate: template data, then the conflict check, then the stream
   * config, then the HTTP config; the result says whether either changed.
   */
  function GenerateOf(faults: Faults, files: Files, g: GeneratorConfig, cs: seq<ContainerInfo>): (Files, Result<bool, GenerateError>) {
    var (sd, hd) := TemplateData(cs);
    match Conflicts(sd, hd)
    case Some(e) => (files, Err(Conflict(e)))
    case None =>
      var (files1, r1) := ConfigStep(faults, files, g.streamConfigPath, g.templates.stream(sd));
      if r1.Err? then (files1, Err(StreamConfigFailed(r1.error)))
      else
        var (files2, r2) := ConfigStep(faults, files1, g.httpConfigPath, g.templates.http(hd));
        if r2.Err? then (files2, Err(HTTPConfigFailed(r2.error)))
        else (files2, Ok(r1.value || r2.value))
  }

  method ConfigStepRun(fs: FileSystem, path: string, rendered: Option<Bytes>) returns (r: Result<bool, StageError>)
    modifies fs
    ensures (fs.files, r) == ConfigStep(fs.faults, old(fs.files), path, rendered)
  {
    if rendered.None? {
      return Err(TemplateFailed);
    }
    var w := WriteIfChanged(fs, path, rendered.value);
    if w.Err? {
      return Err(WriteFailed(w.error));
    }
    return Ok(w.value);
  }

  /** Generator.Generate (generator.go:88-115). */
  method Generate(fs: FileSystem, g: GeneratorConfig, cs: seq<ContainerInfo>) returns (r: Result<bool, GenerateError>)
    modifies fs
    ensures (fs.files, r) == GenerateOf(fs.faults, old(fs.files), g, cs)
  {
    var sd, hd := BuildTemplateData(cs);
    var conflict := ValidateConflicts(sd, hd);
    if conflict.Some? {
      return Err(Conflict(conflict.value));
    }
    var streamChanged := ConfigStepRun(fs, g.streamConfigPath, g.templates.stream(sd));
    if streamChanged.Err? {
      return Err(StreamConfigFailed(streamChanged.error));
    }
    var httpChanged := ConfigStepRun(fs, g.httpConfigPath, g.templates.http(hd));
    if httpChanged.Err? {
      return Err(HTTPConfigFailed(httpChanged.error));
    }
    return Ok(streamChanged.value || httpChanged.value);
  }

  /** A conflict is reported before either file is touched. */
  lemma ConflictWritesNothing(faults: Faults, files: Files, g: GeneratorConfig, cs: seq<ContainerInfo>)
    ensures var (sd, hd) := TemplateData(cs);
      Conflicts(sd, hd).Some? ==>
        GenerateOf(faults, files, g, cs) == (files, Err(Conflict(Conflicts(sd, hd).value)))
  {
  }

  /** The paths a write of `path` may touch. */
  predicate Touches(path: string, p: string) {
    p == path || p == TempPath(path)
  }

  /** A config step changes nothing outside its path and its temp file. */
  lemma ConfigStepFrame(faults: Faults, files: Files, path: string, rendered: Option<Bytes>, p: string)
    requires !Touches(path, p)
    ensures var (files', r) := ConfigStep(faults, files, path, rendered);
      (p in files' <==> p in files) && (p in files ==> files'[p] == files[p])
  {
    TempPathDiffers(path);
  }

  /** A config step's true result means its path now holds the rendered bytes, which differ from before. */
  lemma ConfigStepChanged(faults: Faults, files: Files, path: string, rendered: Option<Bytes>)
    ensures var (files', r) := ConfigStep(faults, files, path, rendered);
      && (r.Ok? ==> rendered.Some? && Content(files', path) == rendered.value)
      && (r == Ok(true) ==> Content(files, path) != rendered.value)
      && (r == Ok(false) ==> files' == files)
  {
    if rendered.Some? {
      WriteIfChangedWritten(faults, files, path, rendered.value);
      var (files', r) := WriteIfChangedOf(faults, files, path, rendered.value);
      if r == Ok(false) {
        assert files' == files;
      }
    }
  }

  /**
   * The stream config is written before the HTTP config: if the stream step
   * fails, the HTTP file is as it was (when the two paths and their temp
   * files are distinct).
   */
  lemma StreamBeforeHTTP(faults: Faults, files: Files, g: GeneratorConfig, cs: seq<ContainerInfo>)
    requires !Touches(g.streamConfigPath, g.httpConfigPath)
    ensures var (files', r) := GenerateOf(faults, files, g, cs);
      r.Err? && r.error.StreamConfigFailed? ==>
        Content(files', g.httpConfigPath) == Content(files, g.httpConfigPath)
  {
    var (sd, hd) := TemplateData(cs);
    ConfigStepFrame(faults, files, g.streamConfigPath, g.templates.stream(sd), g.httpConfigPath);
  }

  /**
   * The result of a successful Generate is streamChanged || httpChanged:
   * it is true exactly when the stream or the HTTP file now holds different
   * content than before, and afterwards both hold the rendered templates.
   */
  lemma GenerateChanged(faults: Faults, files: Files, g: GeneratorConfig, cs: seq<ContainerInfo>)
    requires !Touches(g.streamConfigPath, g.httpConfigPath) && !Touches(g.httpConfigPath, g.streamConfigPath)
    ensures var (files', r) := GenerateOf(faults, files, g, cs);
      r.Ok? ==>
        (r.value <==> (Content(files', g.streamConfigPath) != Content(files, g.streamConfigPath)
                       || Content(files', g.httpConfigPath) != Content(files, g.httpConfigPath)))
    ensures var (files', r) := GenerateOf(faults, files, g, cs);
      var (sd, hd) := TemplateData(cs);
      r.Ok? ==>
        && g.templates.stream(sd).Some? && Content(files', g.streamConfigPath) == g.templates.stream(sd).value
        && g.templates.http(hd).Some? && Content(files', g.httpConfigPath) == g.templates.http(hd).value
  {
    var (sd, hd) := TemplateData(cs);
    if Conflicts(sd, hd).None? {
      var s, h := g.streamConfigPath, g.httpConfigPath;
      var (files1, r1) := ConfigStep(faults, files, s, g.templates.stream(sd));
      ConfigStepChanged(faults, files, s, g.templates.stream(sd));
      ConfigStepFrame(faults, files, s, g.templates.stream(sd), h);
      if r1.Ok? {
        ConfigStepChanged(faults, files1, h, g.templates.http(hd));
        ConfigStepFrame(faults, files1, h, g.templates.http(hd), s);
      }
    }
  }

  /**
   * Generate is idempotent: after a successful run, running it again on the
   * same containers changes nothing and reports no change (when the two
   * paths and their temp files are distinct).
   */
  lemma GenerateIdempotent(faults: Faults, files: Files, g: GeneratorConfig, cs: seq<ContainerInfo>)
    requires !Touches(g.streamConfigPath, g.httpConfigPath) && !Touches(g.httpConfigPath, g.streamConfigPath)
    ensures var (files', r) := GenerateOf(faults, files, g, cs);
      r.Ok? ==> GenerateOf(faults, files', g, cs) == (files', Ok(false))
  {
    var (files', r) := GenerateOf(faults, files, g, cs);
    if r.Ok? {
      var (sd, hd) := TemplateData(cs);
      var s, h := g.streamConfigPath, g.httpConfigPath;
      GenerateChanged(faults, files, g, cs);
      var (files1, r1) := ConfigStep(faults, files, s, g.templates.stream(sd));
      assert s !in faults.unreadable by {
        if s in faults.unreadable { WriteIfChangedReadError(faults, files, s, g.templates.stream(sd).value); }
      }
      assert h !in faults.unreadable by {
        if h in faults.unreadable { WriteIfChangedReadError(faults, files1, h, g.templates.http(hd).value); }
      }
      WriteIfChangedUnchanged(faults, files', s, g.templates.stream(sd).value);
      WriteIfChangedUnchanged(faults, files', h, g.templates.http(hd).value);
    }
  }
}

/** The three tool handlers the code agent can call: `terminals`,
    `CreateOrUpdateFiles` and `readFiles`. Every sandbox call is an oracle given as
    a parameter: it either answers or throws an error, rendered as a string. */
module Tools {
  import opened Wrappers
  import opened State

  /** Prefix of the diagnostics returned by `CreateOrUpdateFiles` and `readFiles`. */
  const ErrorPrefix: string := "Error : "

  /** Prefix of the diagnostic returned by `terminals`. */
  const CommandFailedPrefix: string := "Command failed: "

  /** What a tool hands back to the agent: a success payload, or a diagnostic
      string that stands in for an exception the handler caught. */
  datatype ToolOutput = Output(text: string) | Diagnostic(text: string)

  // ---------------------------------------------------------------- terminals

  /** The two streams a command writes to. */
  datatype Stream = StdoutStream | StderrStream

  /** One piece of output delivered to the `onStdout` / `onStderr` callback. */
  datatype Chunk = Chunk(stream: Stream, data: string)

  /** How `commands.run` ends: it returns a result carrying `stdout`, or it throws. */
  datatype CommandExit = Returned(stdout: string) | Threw(error: string)

  /** The sandbox's behaviour for one `terminals` call: whether `getSandbox`
      throws, the chunks streamed while the command runs, and how the run ends. */
  datatype CommandIo = CommandIo(attach: Option<string>, chunks: seq<Chunk>, exit: CommandExit)

  /** Everything written to `stream`, in delivery order. */
  function Collected(chunks: seq<Chunk>, stream: Stream): string
    decreases |chunks|
  {
    if |chunks| == 0 then ""
    else
      var last := chunks[|chunks| - 1];
      Collected(chunks[..|chunks| - 1], stream) + (if last.stream == stream then last.data else "")
  }

  /** The diagnostic text `terminals` returns when something throws. */
  function CommandFailure(error: string, stdout: string, stderr: string): string {
    CommandFailedPrefix + error + " \nstdout: " + stdout + "\nstderror: " + stderr
  }

  /** `terminals`: runs the command, collecting both streams in buffers through
      the callbacks; returns the command's stdout, or on any exception a
      diagnostic embedding the error and whatever the buffers held. */
  method Terminals(io: CommandIo) returns (out: ToolOutput)
    ensures out.Output? <==> io.attach.None? && io.exit.Returned?
    ensures out.Output? ==> out.text == io.exit.stdout
    ensures io.attach.Some? ==> out == Diagnostic(CommandFailure(io.attach.value, "", ""))
    ensures io.attach.None? && io.exit.Threw? ==>
              out == Diagnostic(CommandFailure(io.exit.error,
                                               Collected(io.chunks, StdoutStream),
                                               Collected(io.chunks, StderrStream)))
  {
    var stdout, stderr := "", "";
    if io.attach.Some? {
      return Diagnostic(CommandFailure(io.attach.value, stdout, stderr));
    }
    var i := 0;
    while i < |io.chunks|
      invariant 0 <= i <= |io.chunks|
      invariant stdout == Collected(io.chunks[..i], StdoutStream)
      invariant stderr == Collected(io.chunks[..i], StderrStream)
    {
      var c := io.chunks[i];
      assert io.chunks[..i + 1][..i] == io.chunks[..i];
      if c.stream == StdoutStream {
        stdout := stdout + c.data;
      } else {
        stderr := stderr + c.data;
      }
      i := i + 1;
    }
    assert io.chunks[..i] == io.chunks;
    match io.exit
    case Returned(s) => out := Output(s);
    case Threw(e) => out := Diagnostic(CommandFailure(e, stdout, stderr));
  }

  /** Every diagnostic of `terminals` starts with "Command failed: " and ends with
      the captured stderr. */
  lemma CommandFailureShape(error: string, stdout: string, stderr: string)
    ensures var t := CommandFailure(error, stdout, stderr);
            |t| >= |CommandFailedPrefix| + |error| + |stderr|
            && t[..|CommandFailedPrefix|] == CommandFailedPrefix
            && t[|CommandFailedPrefix|..|CommandFailedPrefix| + |error|] == error
            && t[|t| - |stderr|..] == stderr
  {
  }

  // ------------------------------------------------------ CreateOrUpdateFiles

  /** One element of the tool's `files` argument. */
  datatype FileWrite = FileWrite(path: Path, content: string)

  /** The sandbox's behaviour for one `CreateOrUpdateFiles` call: whether
      `getSandbox` throws, and for each index whether writing that file throws.
      Writes past the end of `writes` succeed. */
  datatype WriteIo = WriteIo(attach: Option<string>, writes: seq<Option<string>>)

  /** The error thrown by the `i`-th `files.write`, if any. */
  function WriteFault(io: WriteIo, i: nat): Option<string> {
    if i < |io.writes| then io.writes[i] else None
  }

  /** Every sandbox call of a batch of `n` writes succeeds. */
  predicate WritesSucceed(io: WriteIo, n: nat) {
    io.attach.None? && forall j :: 0 <= j < n ==> WriteFault(io, j).None?
  }

  /** Starting at index `i`, the index of the first write that throws, or `n`
      when the rest of the batch goes through. */
  function CompletedWrites(io: WriteIo, n: nat, i: nat): (k: nat)
    requires i <= n
    ensures i <= k <= n
    ensures forall j :: i <= j < k ==> WriteFault(io, j).None?
    ensures k < n ==> WriteFault(io, k).Some?
    decreases n - i
  {
    if i == n || WriteFault(io, i).Some? then i else CompletedWrites(io, n, i + 1)
  }

  /** One assignment `updatedFiles[file.path] = file.content` on a plain
      object: it sets the key, except for `__proto__`, which it leaves out. */
  function Assign(m: Files, w: FileWrite): Files {
    if w.path == ProtoKey then m else m[w.path := w.content]
  }

  /** The files map after assigning each write of `batch` in order. */
  function Apply(m: Files, batch: seq<FileWrite>): Files
    decreases |batch|
  {
    if |batch| == 0 then m else Apply(Assign(m, batch[0]), batch[1..])
  }

  /** Reference definition, read from the end of the batch: the content of the
      last write of `batch` to `p`, if any. */
  function LastWrite(batch: seq<FileWrite>, p: Path): Option<string>
    decreases |batch|
  {
    if |batch| == 0 then None
    else if batch[|batch| - 1].path == p then Some(batch[|batch| - 1].content)
    else LastWrite(batch[..|batch| - 1], p)
  }

  /** What the step callback returns: the (aliased) files object, or an error string. */
  datatype StepValue = FilesValue(files: Files) | ErrorValue(text: string)

  /** The outcome of the `CreateOrUpdateFiles` step: the shared state as the
      callback left it, and the value it returned. */
  datatype WriteStep = WriteStep(state: AgentState, value: StepValue)

  /** The step callback of `CreateOrUpdateFiles`. `updatedFiles` is the shared
      map itself when the state already has one, so each successful write lands
      in the shared state at once; otherwise it is a fresh local object. */
  function WriteFilesStep(st: AgentState, batch: seq<FileWrite>, io: WriteIo): (ws: WriteStep)
    ensures ws.state.summary == st.summary
    ensures ws.value.FilesValue? <==> WritesSucceed(io, |batch|)
    ensures ws.value.FilesValue? ==> ws.value.files == Apply(FilesOrEmpty(st), batch)
    ensures ws.value.ErrorValue? ==> |ws.value.text| >= |ErrorPrefix| && ws.value.text[..|ErrorPrefix|] == ErrorPrefix
    ensures st.files.None? ==> ws.state == st
    ensures st.files.Some? ==> ws.state.files.Some?
  {
    var updated := FilesOrEmpty(st);
    if io.attach.Some? then
      WriteStep(st, ErrorValue(ErrorPrefix + io.attach.value))
    else
      var k := CompletedWrites(io, |batch|, 0);
      var written := Apply(updated, batch[..k]);
      var aliased := if st.files.Some? then st.(files := Some(written)) else st;
      if k == |batch| then
        assert batch[..k] == batch;
        WriteStep(aliased, FilesValue(written))
      else
        WriteStep(aliased, ErrorValue(ErrorPrefix + WriteFault(io, k).value))
  }

  /** `if (typeof newFile === "object") network.state.data.files = newFile`. */
  function Commit(ws: WriteStep): AgentState {
    if ws.value.FilesValue? then ws.state.(files := Some(ws.value.files)) else ws.state
  }

  /** The whole `CreateOrUpdateFiles` handler: the step, then the commit. The
      handler itself returns nothing to the agent. */
  function CreateOrUpdateFiles(st: AgentState, batch: seq<FileWrite>, io: WriteIo): (r: AgentState)
    ensures r.summary == st.summary
    ensures st.files.Some? ==> r.files.Some?
    ensures FilesOrEmpty(st).Keys <= FilesOrEmpty(r).Keys
    ensures WritesSucceed(io, |batch|) ==> r.files == Some(Apply(FilesOrEmpty(st), batch))
    ensures !WritesSucceed(io, |batch|) && st.files.None? ==> r == st
  {
    var ws := WriteFilesStep(st, batch, io);
    ApplyKeepsKeys(FilesOrEmpty(st), batch);
    ApplyKeepsKeys(FilesOrEmpty(st), batch[..CompletedWrites(io, |batch|, 0)]);
    Commit(ws)
  }

  /** Applying writes never removes a path. */
  lemma {:induction false} ApplyKeepsKeys(m: Files, batch: seq<FileWrite>)
    ensures m.Keys <= Apply(m, batch).Keys
    decreases |batch|
  {
    if |batch| > 0 {
      ApplyKeepsKeys(Assign(m, batch[0]), batch[1..]);
    }
  }

  /** Applying a batch and then one more write is applying the extended batch. */
  lemma {:induction false} ApplySnoc(m: Files, batch: seq<FileWrite>, w: FileWrite)
    ensures Apply(m, batch + [w]) == Assign(Apply(m, batch), w)
    decreases |batch|
  {
    if |batch| > 0 {
      assert (batch + [w])[1..] == batch[1..] + [w];
      ApplySnoc(Assign(m, batch[0]), batch[1..], w);
    }
  }

  /** Last write wins: after a batch, a path written by the batch holds the
      content of its last write, and every other path keeps its old value;
      `__proto__` is never added. */
  lemma {:induction false} ApplyIsLastWriteWins(m: Files, batch: seq<FileWrite>, p: Path)
    ensures p in Apply(m, batch) <==> p in m || (p != ProtoKey && LastWrite(batch, p).Some?)
    ensures p != ProtoKey && LastWrite(batch, p).Some? ==> Apply(m, batch)[p] == LastWrite(batch, p).value
    ensures (p == ProtoKey || LastWrite(batch, p).None?) && p in m ==> Apply(m, batch)[p] == m[p]
    decreases |batch|
  {
    if |batch| > 0 {
      var init, last := batch[..|batch| - 1], batch[|batch| - 1];
      assert batch == init + [last];
      ApplySnoc(m, init, last);
      ApplyIsLastWriteWins(m, init, p);
    }
  }

  /** `LastWrite` picks the write at the last index that names the path. */
  lemma {:induction false} LastWriteIsLastIndex(batch: seq<FileWrite>, p: Path, i: nat)
    requires i < |batch| && batch[i].path == p
    requires forall j :: i < j < |batch| ==> batch[j].path != p
    ensures LastWrite(batch, p) == Some(batch[i].content)
    decreases |batch|
  {
    if i < |batch| - 1 {
      LastWriteIsLastIndex(batch[..|batch| - 1], p, i);
    }
  }

  /** A path no write of the batch names has no last write. */
  lemma {:induction false} LastWriteOfUnwrittenPath(batch: seq<FileWrite>, p: Path)
    requires forall j :: 0 <= j < |batch| ==> batch[j].path != p
    ensures LastWrite(batch, p).None?
    decreases |batch|
  {
    if |batch| > 0 {
      LastWriteOfUnwrittenPath(batch[..|batch| - 1], p);
    }
  }

  /** A batch whose sandbox calls all succeed: the state's files become the old
      map (or the empty one) with every write applied, last write winning. */
  lemma BatchSuccess(st: AgentState, batch: seq<FileWrite>, io: WriteIo, r: AgentState, p: Path)
    requires WritesSucceed(io, |batch|)
    requires r == CreateOrUpdateFiles(st, batch, io)
    ensures r.summary == st.summary && r.files.Some?
    ensures p in r.files.value <==> p in FilesOrEmpty(st) || (p != ProtoKey && LastWrite(batch, p).Some?)
    ensures p != ProtoKey && LastWrite(batch, p).Some? ==> r.files.value[p] == LastWrite(batch, p).value
    ensures (p == ProtoKey || LastWrite(batch, p).None?) && p in FilesOrEmpty(st) ==> r.files.value[p] == FilesOrEmpty(st)[p]
  {
    ApplyIsLastWriteWins(FilesOrEmpty(st), batch, p);
  }

  /** A batch in which `getSandbox` throws leaves the state as it was. */
  lemma BatchAttachFailure(st: AgentState, batch: seq<FileWrite>, io: WriteIo)
    requires io.attach.Some?
    ensures CreateOrUpdateFiles(st, batch, io) == st
    ensures WriteFilesStep(st, batch, io).value == ErrorValue(ErrorPrefix + io.attach.value)
  {
  }

  /** A batch whose `k`-th write throws: the step yields "Error : " and the
      error, the commit is skipped, and the first `k` writes stay applied to the
      shared map when the state had one (and vanish with the local map otherwise). */
  lemma BatchFailure(st: AgentState, batch: seq<FileWrite>, io: WriteIo, k: nat)
    requires io.attach.None?
    requires k < |batch| && WriteFault(io, k).Some?
    requires forall j :: 0 <= j < k ==> WriteFault(io, j).None?
    ensures WriteFilesStep(st, batch, io).value == ErrorValue(ErrorPrefix + WriteFault(io, k).value)
    ensures var r := CreateOrUpdateFiles(st, batch, io);
            && r.summary == st.summary
            && (st.files.Some? ==> r.files == Some(Apply(st.files.value, batch[..k])))
            && (st.files.None? ==> r.files.None?)
  {
    var n := CompletedWrites(io, |batch|, 0);
    assert n == k;
  }

  /** The batch is not atomic: a failure part-way through a batch changes the
      shared files map when one already existed. */
  lemma BatchIsNotAtomic()
    ensures var st := AgentState(None, Some(map[]));
            var batch := [FileWrite("a.txt", "x"), FileWrite("b.txt", "y")];
            var io := WriteIo(None, [None, Some("disk full")]);
            && !WritesSucceed(io, |batch|)
            && CreateOrUpdateFiles(st, batch, io) == AgentState(None, Some(map["a.txt" := "x"]))
            && CreateOrUpdateFiles(st, batch, io) != st
  {
    var st := AgentState(None, Some(map[]));
    var batch := [FileWrite("a.txt", "x"), FileWrite("b.txt", "y")];
    var io := WriteIo(None, [None, Some("disk full")]);
    assert WriteFault(io, 1).Some?;
    BatchFailure(st, batch, io, 1);
    assert batch[..1] == [FileWrite("a.txt", "x")];
    assert Apply(map[], batch[..1]) == map["a.txt" := "x"];
    assert "a.txt" !in st.files.value;
  }

  // ---------------------------------------------------------------- readFiles

  /** One element of the JSON array `readFiles` returns. */
  datatype FileEntry = FileEntry(path: Path, content: string)

  /** What `files.read` does for one path. */
  datatype ReadOutcome = Content(text: string) | ReadThrew(error: string)

  /** The sandbox's behaviour for one `readFiles` call: whether `getSandbox`
      throws, and the answer to reading each path. */
  datatype ReadIo = ReadIo(attach: Option<string>, read: Path -> ReadOutcome)

  /** What `readFiles` returns: the entries it JSON-encodes, or a diagnostic. */
  datatype ReadReply = Entries(entries: seq<FileEntry>) | ReadDiagnostic(text: string)

  /** `readFiles`: reads each path in order and returns the `{path, content}`
      pairs in request order; on the first exception returns "Error : " and the
      error. It takes no state, so it cannot change it. */
  method ReadFiles(paths: seq<Path>, io: ReadIo) returns (reply: ReadReply)
    ensures reply.Entries? <==> io.attach.None? && forall i :: 0 <= i < |paths| ==> io.read(paths[i]).Content?
    ensures reply.Entries? ==>
              && |reply.entries| == |paths|
              && forall i :: 0 <= i < |paths| ==> reply.entries[i] == FileEntry(paths[i], io.read(paths[i]).text)
    ensures io.attach.Some? ==> reply == ReadDiagnostic(ErrorPrefix + io.attach.value)
    ensures io.attach.None? && reply.ReadDiagnostic? ==>
              exists k :: 0 <= k < |paths| && io.read(paths[k]).ReadThrew?
                          && (forall j :: 0 <= j < k ==> io.read(paths[j]).Content?)
                          && reply.text == ErrorPrefix + io.read(paths[k]).error
  {
    if io.attach.Some? {
      return ReadDiagnostic(ErrorPrefix + io.attach.value);
    }
    var contents: seq<FileEntry> := [];
    var i := 0;
    while i < |paths|
      invariant 0 <= i <= |paths|
      invariant |contents| == i
      invariant forall j :: 0 <= j < i ==> io.read(paths[j]).Content?
      invariant forall j :: 0 <= j < i ==> contents[j] == FileEntry(paths[j], io.read(paths[j]).text)
    {
      match io.read(paths[i])
      case ReadThrew(e) =>
        return ReadDiagnostic(ErrorPrefix + e);
      case Content(c) =>
        contents := contents + [FileEntry(paths[i], c)];
      i := i + 1;
    }
    reply := Entries(contents);
  }
}

/**
 * `DirectDownloader`: a queue of download tasks and the worker loop that
 * drains it. For each task a worker opens the connection, works out the file
 * name, announces `onStart`, then copies the response stream to the task's
 * output stream one buffer at a time, announcing every chunk with `onUpdate`
 * and stopping at the pause gate after each chunk while the task is paused,
 * and finally closes both streams and announces `onComplete`.
 *
 * Threads are modelled sequentially: one worker runs at a time, and nothing
 * else runs while it transfers, so a pause gate that finds the task paused
 * holds the worker until some later call resumes the transfer (`Pump`).
 */
module Downloader {
  import opened Wrappers
  import opened Chunks
  import opened Strings
  import opened Net
  import opened Listeners
  import opened Tasks

  const CD_FNAME: string := "fname="
  const CONTENT_DISPOSITION: string := "Content-Disposition"
  const GET: string := "GET"
  const DEFAULT_POOL_SIZE: int := 3
  const DEFAULT_BUFFER_SIZE: int := 2048

  /**
   * The runtime exceptions `download` can raise; the worker does not catch
   * them, so they end its thread. `ClassCast` is the cast of a connection
   * that is not an `HttpURLConnection`; `IllegalArgument` is
   * `setReadTimeout` refusing a negative timeout.
   */
  datatype Fault = ClassCast | IllegalArgument | StringIndexOutOfBounds | NegativeArraySize

  /**
   * `openConnection` returns an `HttpURLConnection` exactly for http and
   * https URLs (`java.net.URL` keeps its protocol in lower case).
   */
  predicate IsHttp(u: Url)
  {
    Lower(u.protocol) == "http" || Lower(u.protocol) == "https"
  }

  /**
   * The file name announced by `onStart`. With a `Content-Disposition` header
   * it is `cd.substring(cd.indexOf("fname=") + 1, cd.length() - 1)`: it starts
   * one character past the START of the match (at the header's start when there
   * is no match) and drops the header's last character. Without the header it
   * is the URL text after its last '/'.
   */
  function FileName(cd: Option<string>, url: string): (r: Result<string, Fault>)
    ensures cd.Some? ==> (r.Failure? <==> cd.value == "")
    ensures cd.Some? && r.Success? ==> r.value == cd.value[IndexOf(cd.value, CD_FNAME) + 1 .. |cd.value| - 1]
    ensures cd.Some? && cd.value != "" && IndexOf(cd.value, CD_FNAME) == -1 ==> r == Success(cd.value[..|cd.value| - 1])
    ensures cd.None? ==> r.Success? && '/' !in r.value && |r.value| <= |url|
    ensures cd.None? ==> url[|url| - |r.value|..] == r.value
    ensures cd.None? && |r.value| < |url| ==> url[|url| - |r.value| - 1] == '/'
  {
    match cd
    case Some(h) =>
      var i := IndexOf(h, CD_FNAME);
      assert i >= 0 ==> i + |CD_FNAME| <= |h|;
      (match Substring(h, i + 1, |h| - 1)
       case Success(name) => Success(name)
       case Failure(_) => Failure(Fault.StringIndexOutOfBounds))
    case None =>
      Success(url[LastIndexOf(url, '/') + 1..])
  }

  /** A name that does not come from a header is the whole URL when it has no '/', else what follows its last '/'. */
  lemma {:induction false} FileNameFromUrl(url: string)
    ensures '/' !in url ==> FileName(None, url) == Success(url)
    ensures '/' in url ==> url == url[..|url| - |FileName(None, url).value| - 1] + "/" + FileName(None, url).value
  {
    var k := LastIndexOf(url, '/');
    if '/' !in url {
      assert k == -1;
      assert url[k + 1..] == url;
    } else {
      assert k >= 0;
      assert url == url[..k] + [url[k]] + url[k + 1..];
    }
  }

  /**
   * The name starts one character past the start of "fname=" and loses the
   * header's last character: `fname=report.pdf;` names the file `name=report.pdf`.
   */
  lemma {:induction false} FileNameKeepsTokenTail(url: string)
    ensures FileName(Some("fname=report.pdf;"), url) == Success("name=report.pdf")
  {
    var h := "fname=report.pdf;";
    assert h[0..|CD_FNAME|] == CD_FNAME;
    assert OccursAt(h, CD_FNAME, 0);
    assert IndexOf(h, CD_FNAME) == 0;
    assert h[1..|h| - 1] == "name=report.pdf";
  }

  /**
   * What the server does with a request: `Unreachable` when `connect` throws
   * (opening an http or https connection object does not touch the network,
   * so this is the first `IOException` a transfer can meet); otherwise the content length (-1 when unknown), the
   * `Content-Disposition` header if present, and the input stream, None when
   * `getInputStream` throws.
   */
  datatype Response =
    | Unreachable
    | Response(contentLength: int, contentDisposition: Option<string>, body: Option<Stream<Byte>>)

  /** What `download` sets on the connection before `connect()`. */
  datatype Request = Request(url: Url, proxy: Proxy, readTimeout: int, requestMethod: string, doOutput: bool)

  /** The request for a task: its URL, the downloader's proxy or a direct connection, its timeout as read timeout, GET. */
  function RequestFor(v: TaskView, proxy: Option<Proxy>): Request
  {
    Request(v.url, OrNoProxy(proxy), v.timeout, GET, true)
  }

  /**
   * An output stream: the bytes written to it so far, and for every `close()`
   * called on it, how many listener calls had been made before that call,
   * which places the close within the log.
   */
  datatype Sink = Sink(data: seq<Byte>, closes: seq<nat>)

  /** What listeners and output streams have seen: every callback in order, and every stream's state. */
  datatype World = World(log: seq<Call>, sinks: map<StreamId, Sink>)

  /** A stream nothing has been written to yet is empty and was never closed. */
  function SinkOf(sinks: map<StreamId, Sink>, id: StreamId): Sink
  {
    if id in sinks then sinks[id] else Sink([], [])
  }

  /** `os.write(bytes)`; writing nothing changes nothing. */
  function Written(sinks: map<StreamId, Sink>, id: StreamId, bytes: seq<Byte>): (r: map<StreamId, Sink>)
    ensures SinkOf(r, id) == SinkOf(sinks, id).(data := SinkOf(sinks, id).data + bytes)
    ensures forall j :: j != id ==> SinkOf(r, j) == SinkOf(sinks, j)
  {
    if bytes == [] then sinks else sinks[id := SinkOf(sinks, id).(data := SinkOf(sinks, id).data + bytes)]
  }

  /** `os.close()`, called when the log holds `at` calls. */
  function Closed(sinks: map<StreamId, Sink>, id: StreamId, at: nat): (r: map<StreamId, Sink>)
    ensures SinkOf(r, id).data == SinkOf(sinks, id).data
    ensures SinkOf(r, id).closes == SinkOf(sinks, id).closes + [at]
    ensures forall j :: j != id ==> SinkOf(r, j) == SinkOf(sinks, j)
  {
    sinks[id := SinkOf(sinks, id).(closes := SinkOf(sinks, id).closes + [at])]
  }

  /** Writing closes nothing. */
  lemma {:induction false} WritingLeavesClosesAlone(sinks: map<StreamId, Sink>, id: StreamId, bytes: seq<Byte>)
    ensures forall j :: SinkOf(Written(sinks, id, bytes), j).closes == SinkOf(sinks, j).closes
  {
    forall j
      ensures SinkOf(Written(sinks, id, bytes), j).closes == SinkOf(sinks, j).closes
    {
      if j != id {
        assert SinkOf(Written(sinks, id, bytes), j) == SinkOf(sinks, j);
      }
    }
  }

  lemma {:induction false} WrittenTwice(sinks: map<StreamId, Sink>, id: StreamId, a: seq<Byte>, b: seq<Byte>, ab: seq<Byte>)
    requires ab == a + b
    ensures Written(sinks, id, ab) == Written(Written(sinks, id, a), id, b)
  {
    if a == [] {
      assert ab == b;
    } else if b == [] {
      assert ab == a;
    } else {
      assert SinkOf(sinks, id).data + a + b == SinkOf(sinks, id).data + ab;
    }
  }

  /**
   * How a transfer ends. `Failed` is an `IOException`, which the worker
   * catches before it takes the next task. `Crashed` is a runtime exception,
   * which ends the worker. `Parked(pos, total)` is a worker held by the pause
   * gate after `pos` chunks and `total` bytes. `Spinning` is a worker whose
   * zero-length buffer makes every `read` return 0, so the loop never ends.
   */
  datatype Outcome =
    | Completed
    | Failed
    | Crashed(fault: Fault)
    | Parked(pos: nat, total: int)
    | Spinning

  /** Where the copy loop from chunk `pos` stops: right after that chunk when the gate holds, at the end of the stream otherwise. */
  function PumpStop(paused: bool, n: nat, pos: nat): (stop: nat)
    requires pos <= n
    ensures pos <= stop <= n
    ensures stop < n ==> paused && stop == pos + 1
  {
    if paused && pos < n then pos + 1 else n
  }

  /** Chunks `pos` up to `stop` written to the task's stream and announced, `pos` chunks having been read before. */
  function Copied(w: World, v: TaskView, cs: seq<seq<Byte>>, pos: nat, stop: nat): World
    requires pos <= stop <= |cs|
  {
    World(w.log + Updates(v.listeners, cs[pos..stop], TotalLength(cs[..pos])),
          Written(w.sinks, v.outputStream, Flatten(cs[pos..stop])))
  }

  /**
   * The end of the stream: `is.close()`, then `os.close()` unless the first
   * close threw (the exception is caught, so the transfer still completes),
   * then `onComplete`, so the close is recorded before any `onComplete`.
   */
  function Closing(w: World, v: TaskView, closeFails: bool): World
  {
    World(w.log + Broadcast(v.listeners, OnComplete),
          if closeFails then w.sinks else Closed(w.sinks, v.outputStream, |w.log|))
  }

  /** The closing adds one round of `onComplete`, and records the close, if any, where that round begins. */
  lemma ClosingFacts(w: World, v: TaskView, closeFails: bool)
    ensures Closing(w, v, closeFails).log == w.log + Broadcast(v.listeners, OnComplete)
    ensures |Closing(w, v, closeFails).log| - |v.listeners| == |w.log|
    ensures SinkOf(Closing(w, v, closeFails).sinks, v.outputStream).data == SinkOf(w.sinks, v.outputStream).data
    ensures SinkOf(Closing(w, v, closeFails).sinks, v.outputStream).closes
         == SinkOf(w.sinks, v.outputStream).closes + (if closeFails then [] else [|w.log|])
    ensures forall j :: j != v.outputStream ==> SinkOf(Closing(w, v, closeFails).sinks, j) == SinkOf(w.sinks, j)
  {
  }

  /**
   * How the copy loop from chunk `pos` on ends: held at the gate after one
   * chunk when the task is paused, otherwise at the end of the stream, with
   * an `IOException` when the last read failed.
   */
  function PumpOutcome(paused: bool, s: Stream<Byte>, pos: nat): Outcome
    requires pos <= |s.chunks|
  {
    if paused && pos < |s.chunks| then Parked(pos + 1, Wrap32(TotalLength(s.chunks[..pos + 1])))
    else if s.end.ReadFailure? then Failed
    else Completed
  }

  /** What listeners and streams have seen once the copy loop from chunk `pos` on has ended as `PumpOutcome` says. */
  function PumpWorld(w: World, v: TaskView, s: Stream<Byte>, pos: nat): World
    requires pos <= |s.chunks|
  {
    var copied := Copied(w, v, s.chunks, pos, PumpStop(v.paused, |s.chunks|, pos));
    if (v.paused && pos < |s.chunks|) || s.end.ReadFailure? then copied
    else Closing(copied, v, s.end.closeFails)
  }

  /** The copy loop of a paused task reads one chunk and stops at the gate. */
  lemma {:induction false} PumpHeldAtGate(w: World, v: TaskView, s: Stream<Byte>, pos: nat)
    requires v.paused && pos < |s.chunks|
    ensures PumpWorld(w, v, s, pos) == Copied(w, v, s.chunks, pos, pos + 1)
    ensures PumpOutcome(v.paused, s, pos) == Parked(pos + 1, Wrap32(TotalLength(s.chunks[..pos + 1])))
  {
  }

  /** The copy loop of a task that is not paused (or has nothing left to read) runs to the end of the stream. */
  lemma {:induction false} PumpRunsToEnd(w: World, v: TaskView, s: Stream<Byte>, pos: nat)
    requires pos <= |s.chunks| && !(v.paused && pos < |s.chunks|)
    ensures s.end.ReadFailure? ==> PumpWorld(w, v, s, pos) == Copied(w, v, s.chunks, pos, |s.chunks|)
    ensures s.end.ReadFailure? ==> PumpOutcome(v.paused, s, pos) == Failed
    ensures s.end.EndOfStream? ==> PumpWorld(w, v, s, pos) == Closing(Copied(w, v, s.chunks, pos, |s.chunks|), v, s.end.closeFails)
    ensures s.end.EndOfStream? ==> PumpOutcome(v.paused, s, pos) == Completed
  {
  }

  /** `onStart(fname, fsize)` on every listener of the task. */
  function Announced(w: World, v: TaskView, fname: string, fsize: int): World
  {
    w.(log := w.log + Broadcast(v.listeners, OnStart(fname, fsize)))
  }

  /**
   * `download` gets as far as `onStart`: the connection is an HTTP one, takes
   * the read timeout and connects, the name is worked out, the stream opens
   * and the buffer is allocated.
   */
  predicate Starts(v: TaskView, r: Response, bufferSize: int)
  {
    && IsHttp(v.url) && v.timeout >= 0
    && r.Response? && FileName(r.contentDisposition, v.url.text).Success? && r.body.Some? && bufferSize >= 0
  }

  /**
   * How one call of `download(dt)` ends, for a task in state `v` whose request
   * the server answers with `r`, with the downloader's buffer size. The cast
   * and `setReadTimeout` come before `connect`, so they fail whatever the
   * server would answer.
   */
  function FetchOutcome(v: TaskView, r: Response, bufferSize: int): Outcome
  {
    if !IsHttp(v.url) then Crashed(ClassCast)
    else if v.timeout < 0 then Crashed(IllegalArgument)
    else
      match r
      case Unreachable => Failed
      case Response(_, cd, body) =>
        match FileName(cd, v.url.text)
        case Failure(f) => Crashed(f)
        case Success(_) =>
          if body.None? then Failed
          else if bufferSize < 0 then Crashed(NegativeArraySize)
          else if bufferSize == 0 then Spinning
          else PumpOutcome(v.paused, body.value, 0)
  }

  /**
   * What `read` into a zero-length buffer leads to: it returns 0, so nothing
   * is written, the total stays 0, every listener hears `onUpdate(0, 0)`, and
   * the loop comes to the pause gate (and, once past it, round again).
   */
  function EmptyRead(w: World, v: TaskView): World
  {
    w.(log := w.log + Broadcast(v.listeners, OnUpdate(0, 0)))
  }

  /** What follows `onStart`: the copy loop, or with a zero-length buffer its first empty read. */
  function AfterStart(a: World, v: TaskView, s: Stream<Byte>, bufferSize: int): World
  {
    if bufferSize == 0 then EmptyRead(a, v) else PumpWorld(a, v, s, 0)
  }

  /** What listeners and streams have seen after that call; steps that throw before `onStart` leave all of it untouched. */
  function FetchWorld(w: World, v: TaskView, r: Response, bufferSize: int): World
  {
    if !Starts(v, r, bufferSize) then w
    else AfterStart(Announced(w, v, FileName(r.contentDisposition, v.url.text).value, r.contentLength), v, r.body.value, bufferSize)
  }

  /** Why a worker's loop stops: blocked in `take()` on an empty queue, interrupted, or ended by a task. */
  datatype WorkerExit = Waiting | Interrupted | Stopped(outcome: Outcome)

  datatype Drained = Drained(world: World, taken: nat, exit: WorkerExit)

  /** An `IOException` lets the worker carry on with the next task; anything else stops it. */
  predicate Survives(o: Outcome)
  {
    o.Completed? || o.Failed?
  }

  /**
   * The worker loop `while (true) download(tasks.take())` over the queued
   * tasks `vs`, in queue order, each taken once.
   */
  function DrainSpec(w: World, vs: seq<TaskView>, server: Request -> Response, bufferSize: int,
                     proxy: Option<Proxy>, interrupted: bool): Drained
    decreases |vs|
  {
    if interrupted then Drained(w, 0, Interrupted)
    else if vs == [] then Drained(w, 0, Waiting)
    else
      var r := server(RequestFor(vs[0], proxy));
      var w1 := FetchWorld(w, vs[0], r, bufferSize);
      var o := FetchOutcome(vs[0], r, bufferSize);
      if Survives(o) then
        var rest := DrainSpec(w1, vs[1..], server, bufferSize, proxy, interrupted);
        Drained(rest.world, rest.taken + 1, rest.exit)
      else
        Drained(w1, 1, Stopped(o))
  }

  /** The drain result of the rest of the queue, counted from the start. */
  function Shifted(d: Drained, k: nat): Drained
  {
    d.(taken := d.taken + k)
  }

  /** The state of every task in the queue. */
  function Views(ts: seq<DownloadTask>): (vs: seq<TaskView>)
    reads set t | t in ts
    ensures |vs| == |ts|
  {
    if ts == [] then [] else [ts[0].View()] + Views(ts[1..])
  }

  /** A chunk read by the loop extends its announcements and its writes by exactly that chunk. */
  lemma {:induction false} CopiedStep(w: World, v: TaskView, cs: seq<seq<Byte>>, pos: nat, i: nat)
    requires pos <= i < |cs|
    ensures Copied(w, v, cs, pos, i + 1)
         == World(Copied(w, v, cs, pos, i).log + Broadcast(v.listeners, OnUpdate(|cs[i]|, Wrap32(TotalLength(cs[..i + 1])))),
                  Written(Copied(w, v, cs, pos, i).sinks, v.outputStream, cs[i]))
  {
    var e := OnUpdate(|cs[i]|, Wrap32(TotalLength(cs[..i + 1])));
    UpdatesStep(v.listeners, cs, pos, i);
    Regroup(w.log, Updates(v.listeners, cs[pos..i], TotalLength(cs[..pos])), Broadcast(v.listeners, e),
            Updates(v.listeners, cs[pos..i + 1], TotalLength(cs[..pos])));
    FlattenStep(cs, pos, i);
    WrittenTwice(w.sinks, v.outputStream, Flatten(cs[pos..i]), cs[i], Flatten(cs[pos..i + 1]));
  }

  /** One turn of the copy loop, stated on the running total and the state the loop holds. */
  lemma CopiedNext(w: World, v: TaskView, cs: seq<seq<Byte>>, pos: nat, i: nat, t: int,
                   log: seq<Call>, sinks: map<StreamId, Sink>)
    requires pos <= i < |cs|
    requires t == Wrap32(TotalLength(cs[..i]))
    requires World(log, sinks) == Copied(w, v, cs, pos, i)
    ensures Wrap32(t + |cs[i]|) == Wrap32(TotalLength(cs[..i + 1]))
    ensures World(log + Broadcast(v.listeners, OnUpdate(|cs[i]|, Wrap32(t + |cs[i]|))),
                  Written(sinks, v.outputStream, cs[i]))
         == Copied(w, v, cs, pos, i + 1)
  {
    Wrap32Add(TotalLength(cs[..i]), |cs[i]|);
    FlattenSnoc(cs, i);
    CopiedStep(w, v, cs, pos, i);
  }

  lemma {:induction false} UpdatesStep(ls: seq<Listener>, cs: seq<seq<Byte>>, pos: nat, i: nat)
    requires pos <= i < |cs|
    ensures Updates(ls, cs[pos..i + 1], TotalLength(cs[..pos]))
         == Updates(ls, cs[pos..i], TotalLength(cs[..pos])) + Broadcast(ls, OnUpdate(|cs[i]|, Wrap32(TotalLength(cs[..i + 1]))))
  {
    var seg, base := cs[pos..i + 1], TotalLength(cs[..pos]);
    SliceSnoc(cs, pos, i);
    TotalLengthSplit(cs, pos, i + 1);
    UpdatesSnoc(ls, seg, base);
    assert seg[..|seg| - 1] == cs[pos..i] && seg[|seg| - 1] == cs[i];
    assert base + TotalLength(seg) == TotalLength(cs[..i + 1]);
  }

  lemma {:induction false} FlattenStep(cs: seq<seq<Byte>>, pos: nat, i: nat)
    requires pos <= i < |cs|
    ensures Flatten(cs[pos..i + 1]) == Flatten(cs[pos..i]) + cs[i]
  {
    var seg := cs[pos..i + 1];
    assert seg[..|seg| - 1] == cs[pos..i];
    assert seg[|seg| - 1] == cs[i];
  }

  /** Copying `pos..mid` and then `mid..stop` is copying `pos..stop`. */
  lemma {:induction false} CopiedTwice(w: World, v: TaskView, cs: seq<seq<Byte>>, pos: nat, mid: nat, stop: nat)
    requires pos <= mid <= stop <= |cs|
    ensures Copied(w, v, cs, pos, stop) == Copied(Copied(w, v, cs, pos, mid), v, cs, mid, stop)
  {
    UpdatesSplit(w.log, v.listeners, cs, pos, mid, stop);
    WrittenSplit(w.sinks, v.outputStream, cs, pos, mid, stop);
  }

  lemma {:induction false} UpdatesSplit(log: seq<Call>, ls: seq<Listener>, cs: seq<seq<Byte>>, pos: nat, mid: nat, stop: nat)
    requires pos <= mid <= stop <= |cs|
    ensures log + Updates(ls, cs[pos..stop], TotalLength(cs[..pos]))
         == log + Updates(ls, cs[pos..mid], TotalLength(cs[..pos])) + Updates(ls, cs[mid..stop], TotalLength(cs[..mid]))
  {
    var a, b := cs[pos..mid], cs[mid..stop];
    var base := TotalLength(cs[..pos]);
    assert TotalLength(cs[..mid]) == base + TotalLength(a) by {
      assert cs[..mid] == cs[..pos] + a;
      TotalLengthAppend(cs[..pos], a);
    }
    assert Updates(ls, cs[pos..stop], base) == Updates(ls, a, base) + Updates(ls, b, TotalLength(cs[..mid])) by {
      assert cs[pos..stop] == a + b;
      UpdatesAppend(ls, a, b, base);
    }
    Regroup(log, Updates(ls, a, base), Updates(ls, b, TotalLength(cs[..mid])), Updates(ls, cs[pos..stop], base));
  }

  lemma {:induction false} WrittenSplit(sinks: map<StreamId, Sink>, id: StreamId, cs: seq<seq<Byte>>, pos: nat, mid: nat, stop: nat)
    requires pos <= mid <= stop <= |cs|
    ensures Written(sinks, id, Flatten(cs[pos..stop]))
         == Written(Written(sinks, id, Flatten(cs[pos..mid])), id, Flatten(cs[mid..stop]))
  {
    assert Flatten(cs[pos..stop]) == Flatten(cs[pos..mid]) + Flatten(cs[mid..stop]) by {
      assert cs[pos..stop] == cs[pos..mid] + cs[mid..stop];
      FlattenAppend(cs[pos..mid], cs[mid..stop]);
    }
    WrittenTwice(sinks, id, Flatten(cs[pos..mid]), Flatten(cs[mid..stop]), Flatten(cs[pos..stop]));
  }

  /** The copy loop run from the start to the end of the stream. */
  lemma {:induction false} CopiedWhole(w: World, v: TaskView, cs: seq<seq<Byte>>)
    ensures Copied(w, v, cs, 0, |cs|) == World(w.log + Updates(v.listeners, cs, 0), Written(w.sinks, v.outputStream, Flatten(cs)))
  {
    assert cs[0..|cs|] == cs;
    assert cs[..0] == [];
  }

  /**
   * Pausing does not lose or repeat anything: a transfer held at the gate
   * after chunk `pos` and resumed once the flag is cleared ends up exactly
   * where the same transfer without the pause would.
   */
  lemma {:induction false} PauseResumeSeamless(w: World, v: TaskView, s: Stream<Byte>, pos: nat)
    requires pos < |s.chunks|
    requires !v.paused
    ensures PumpOutcome(true, s, pos) == Parked(pos + 1, Wrap32(TotalLength(s.chunks[..pos + 1])))
    ensures PumpOutcome(false, s, pos + 1) == PumpOutcome(false, s, pos)
    ensures PumpWorld(PumpWorld(w, v.(paused := true), s, pos), v, s, pos + 1) == PumpWorld(w, v, s, pos)
  {
    var n := |s.chunks|;
    var vp := v.(paused := true);
    var w1 := Copied(w, v, s.chunks, pos, pos + 1);
    assert Copied(w, vp, s.chunks, pos, pos + 1) == w1;
    assert PumpWorld(w, vp, s, pos) == w1;
    var whole := Copied(w, v, s.chunks, pos, n);
    CopiedTwice(w, v, s.chunks, pos, pos + 1, n);
    assert Copied(w1, v, s.chunks, pos + 1, n) == whole;
    if s.end.ReadFailure? {
      assert PumpWorld(w1, v, s, pos + 1) == whole;
      assert PumpWorld(w, v, s, pos) == whole;
    } else {
      assert PumpWorld(w1, v, s, pos + 1) == Closing(whole, v, s.end.closeFails);
      assert PumpWorld(w, v, s, pos) == Closing(whole, v, s.end.closeFails);
    }
  }

  /**
   * A completed transfer wrote every chunk, in order, to the task's stream
   * and to no other, and made exactly the calls of one whole transfer; it
   * can only complete when the task was not paused or the stream was empty.
   */
  lemma {:induction false} CompletedTransfer(w: World, v: TaskView, r: Response, bufferSize: int)
    requires FetchOutcome(v, r, bufferSize) == Completed
    ensures Starts(v, r, bufferSize) && bufferSize > 0 && r.body.value.end.EndOfStream?
    ensures !v.paused || r.body.value.chunks == []
    ensures FetchWorld(w, v, r, bufferSize).log
         == w.log + TransferCalls(v.listeners, FileName(r.contentDisposition, v.url.text).value,
                                  r.contentLength, r.body.value.chunks, true)
    ensures SinkOf(FetchWorld(w, v, r, bufferSize).sinks, v.outputStream).data
         == SinkOf(w.sinks, v.outputStream).data + Flatten(r.body.value.chunks)
    ensures SinkOf(FetchWorld(w, v, r, bufferSize).sinks, v.outputStream).closes
         == SinkOf(w.sinks, v.outputStream).closes
            + (if r.body.value.end.closeFails then [] else [|FetchWorld(w, v, r, bufferSize).log| - |v.listeners|])
    ensures forall j :: j != v.outputStream ==> SinkOf(FetchWorld(w, v, r, bufferSize).sinks, j) == SinkOf(w.sinks, j)
  {
    CompletedFetch(w, v, r, bufferSize);
    var cs := r.body.value.chunks;
    var ls := v.listeners;
    var fname := FileName(r.contentDisposition, v.url.text).value;
    var before := World(w.log + Broadcast(ls, OnStart(fname, r.contentLength)) + Updates(ls, cs, 0),
                        Written(w.sinks, v.outputStream, Flatten(cs)));
    assert FetchWorld(w, v, r, bufferSize) == Closing(before, v, r.body.value.end.closeFails);
    ClosingFacts(before, v, r.body.value.end.closeFails);
    Regroup3(w.log, Broadcast(ls, OnStart(fname, r.contentLength)), Updates(ls, cs, 0), Broadcast(ls, OnComplete),
             TransferCalls(ls, fname, r.contentLength, cs, true));
  }

  /**
   * The output stream is closed before any listener hears `onComplete`: when
   * `is.close()` does not throw, a completed transfer records the close of
   * the task's stream at the point of the log reached after its `onStart`
   * and `onUpdate` rounds, none of which is an `onComplete`, and after that
   * point the log holds just the round of `onComplete`.
   */
  lemma {:induction false} StreamClosedBeforeComplete(w: World, v: TaskView, fsize: int, cd: Option<string>,
                                                      cs: seq<seq<Byte>>, bufferSize: int)
    requires FetchOutcome(v, Response(fsize, cd, Some(Stream(cs, EndOfStream(false)))), bufferSize) == Completed
    ensures FileName(cd, v.url.text).Success?
    ensures var res := FetchWorld(w, v, Response(fsize, cd, Some(Stream(cs, EndOfStream(false)))), bufferSize);
            var calls := TransferCalls(v.listeners, FileName(cd, v.url.text).value, fsize, cs, false);
            && res.log == w.log + calls + Broadcast(v.listeners, OnComplete)
            && SinkOf(res.sinks, v.outputStream).closes == SinkOf(w.sinks, v.outputStream).closes + [|w.log| + |calls|]
            && OnComplete !in Events(calls)
  {
    var r := Response(fsize, cd, Some(Stream(cs, EndOfStream(false))));
    CompletedTransfer(w, v, r, bufferSize);
    var ls := v.listeners;
    var fname := FileName(cd, v.url.text).value;
    var calls := TransferCalls(ls, fname, fsize, cs, false);
    TransferCallsIncomplete(ls, fname, fsize, cs);
    Regroup(w.log, calls, Broadcast(ls, OnComplete), TransferCalls(ls, fname, fsize, cs, true));
    NoCompleteBeforeEnd(ls, fname, fsize, cs);
  }

  /** A transfer's calls without its completion are its start and its updates, and with it those and the round of `onComplete`. */
  lemma TransferCallsIncomplete(ls: seq<Listener>, fname: string, fsize: int, cs: seq<seq<Byte>>)
    ensures TransferCalls(ls, fname, fsize, cs, false) == Broadcast(ls, OnStart(fname, fsize)) + Updates(ls, cs, 0)
    ensures TransferCalls(ls, fname, fsize, cs, true) == TransferCalls(ls, fname, fsize, cs, false) + Broadcast(ls, OnComplete)
  {
  }

  /**
   * The `read(byte[])` contract for the buffer `download` allocates: every
   * chunk the response stream hands out holds 1 to `bufferSize` bytes.
   */
  predicate ReadsFit(r: Response, bufferSize: int)
  {
    r.Response? && r.body.Some? ==> ChunksFit(r.body.value.chunks, bufferSize)
  }

  /**
   * What a listener on the list once hears of a completed transfer from a
   * stream that keeps the `read` contract: `onStart` first, `onComplete`
   * last, and between them one `onUpdate` per chunk, each announcing 1 to
   * `bufferSize` bytes; while the bytes fit in an `int`, the totals strictly
   * increase and the last one is the number of bytes the stream received.
   */
  lemma {:induction false} CompletedTransferProgress(w: World, v: TaskView, r: Response, bufferSize: int, l: Listener)
    requires FetchOutcome(v, r, bufferSize) == Completed
    requires ReadsFit(r, bufferSize)
    requires Count(v.listeners, l) == 1
    ensures Starts(v, r, bufferSize) && |FetchWorld(w, v, r, bufferSize).log| >= |w.log|
    ensures var es := Received(FetchWorld(w, v, r, bufferSize).log[|w.log|..], l);
            var n := |r.body.value.chunks|;
            && |es| == n + 2
            && es[0] == OnStart(FileName(r.contentDisposition, v.url.text).value, r.contentLength)
            && es[n + 1] == OnComplete
            && (forall i :: 1 <= i <= n ==> es[i].OnUpdate? && 1 <= es[i].bytes <= bufferSize)
    ensures var es := Received(FetchWorld(w, v, r, bufferSize).log[|w.log|..], l);
            var n := |r.body.value.chunks|;
            TotalLength(r.body.value.chunks) <= INT_MAX ==>
              && (forall i, j :: 1 <= i < j <= n ==> es[i].totalDownloaded < es[j].totalDownloaded)
              && (n > 0 ==> es[n].totalDownloaded
                            == |SinkOf(FetchWorld(w, v, r, bufferSize).sinks, v.outputStream).data| - |SinkOf(w.sinks, v.outputStream).data|)
  {
    CompletedTransfer(w, v, r, bufferSize);
    CompletedTransferPerListener(w, v, r, bufferSize, l);
    var cs := r.body.value.chunks;
    var start := OnStart(FileName(r.contentDisposition, v.url.text).value, r.contentLength);
    TransferHeard(start, cs, bufferSize, Received(FetchWorld(w, v, r, bufferSize).log[|w.log|..], l));
    FlattenLength(cs);
  }

  /** A call that gets past `onStart` with a real buffer runs the copy loop on the announced world. */
  lemma StartedFetch(w: World, v: TaskView, r: Response, bufferSize: int)
    requires Starts(v, r, bufferSize) && bufferSize > 0
    ensures FetchWorld(w, v, r, bufferSize)
         == PumpWorld(Announced(w, v, FileName(r.contentDisposition, v.url.text).value, r.contentLength), v, r.body.value, 0)
    ensures FetchOutcome(v, r, bufferSize) == PumpOutcome(v.paused, r.body.value, 0)
  {
  }

  /** The world a completed call leaves: `onStart`, every chunk, then the closing of the streams. */
  lemma {:induction false} CompletedFetch(w: World, v: TaskView, r: Response, bufferSize: int)
    requires FetchOutcome(v, r, bufferSize) == Completed
    ensures Starts(v, r, bufferSize) && bufferSize > 0 && r.body.value.end.EndOfStream?
    ensures !v.paused || r.body.value.chunks == []
    ensures FetchWorld(w, v, r, bufferSize)
         == Closing(World(w.log + Broadcast(v.listeners, OnStart(FileName(r.contentDisposition, v.url.text).value, r.contentLength))
                                 + Updates(v.listeners, r.body.value.chunks, 0),
                          Written(w.sinks, v.outputStream, Flatten(r.body.value.chunks))),
                    v, r.body.value.end.closeFails)
  {
    var s := r.body.value;
    var w1 := Announced(w, v, FileName(r.contentDisposition, v.url.text).value, r.contentLength);
    StartedFetch(w, v, r, bufferSize);
    PumpRunsToEnd(w1, v, s, 0);
    CopiedWhole(w1, v, s.chunks);
  }

  /**
   * Every listener that is on the list once hears one `onStart` with the file
   * name and the raw content length (-1 when unknown), then one `onUpdate`
   * per chunk with the chunk's size and the running total, then one
   * `onComplete`.
   */
  lemma {:induction false} CompletedTransferPerListener(w: World, v: TaskView, r: Response, bufferSize: int, l: Listener)
    requires FetchOutcome(v, r, bufferSize) == Completed
    requires Count(v.listeners, l) == 1
    ensures Starts(v, r, bufferSize)
    ensures Received(FetchWorld(w, v, r, bufferSize).log[|w.log|..], l)
         == [OnStart(FileName(r.contentDisposition, v.url.text).value, r.contentLength)]
            + Progress(r.body.value.chunks, 0) + [OnComplete]
  {
    CompletedTransfer(w, v, r, bufferSize);
    var fname := FileName(r.contentDisposition, v.url.text).value;
    var calls := TransferCalls(v.listeners, fname, r.contentLength, r.body.value.chunks, true);
    assert FetchWorld(w, v, r, bufferSize).log[|w.log|..] == calls;
    ListenerSeesOrderedEvents(v.listeners, fname, r.contentLength, r.body.value.chunks, true, l);
  }

  /**
   * A call that fails before `onStart` touches no listener and no stream;
   * one that gets that far announces `onStart` to every listener before
   * anything else.
   */
  lemma {:induction false} StartComesFirst(w: World, v: TaskView, r: Response, bufferSize: int)
    ensures !Starts(v, r, bufferSize) ==> FetchWorld(w, v, r, bufferSize) == w
    ensures !Starts(v, r, bufferSize) ==> FetchOutcome(v, r, bufferSize).Failed? || FetchOutcome(v, r, bufferSize).Crashed?
    ensures Starts(v, r, bufferSize) ==>
              var start := Broadcast(v.listeners, OnStart(FileName(r.contentDisposition, v.url.text).value, r.contentLength));
              |FetchWorld(w, v, r, bufferSize).log| >= |w.log| + |start| &&
              FetchWorld(w, v, r, bufferSize).log[..|w.log| + |start|] == w.log + start
  {
    if Starts(v, r, bufferSize) {
      StartedLogPrefix(w, v, r, bufferSize);
    } else {
      NoStartNoChange(w, v, r, bufferSize);
    }
  }

  lemma NoStartNoChange(w: World, v: TaskView, r: Response, bufferSize: int)
    requires !Starts(v, r, bufferSize)
    ensures FetchWorld(w, v, r, bufferSize) == w
    ensures FetchOutcome(v, r, bufferSize).Failed? || FetchOutcome(v, r, bufferSize).Crashed?
  {
  }

  lemma {:induction false} StartedLogPrefix(w: World, v: TaskView, r: Response, bufferSize: int)
    requires Starts(v, r, bufferSize)
    ensures var start := Broadcast(v.listeners, OnStart(FileName(r.contentDisposition, v.url.text).value, r.contentLength));
            |FetchWorld(w, v, r, bufferSize).log| >= |w.log| + |start| &&
            FetchWorld(w, v, r, bufferSize).log[..|w.log| + |start|] == w.log + start
  {
    StartedWorld(w, v, r, bufferSize);
    AnnouncedKeepsStart(w, v, FileName(r.contentDisposition, v.url.text).value, r.contentLength, r.body.value, bufferSize);
  }

  /** A call that gets past `onStart`: what follows it on the announced world. */
  lemma StartedWorld(w: World, v: TaskView, r: Response, bufferSize: int)
    requires Starts(v, r, bufferSize)
    ensures FetchWorld(w, v, r, bufferSize)
         == AfterStart(Announced(w, v, FileName(r.contentDisposition, v.url.text).value, r.contentLength), v, r.body.value, bufferSize)
  {
  }

  /** Whatever follows `onStart` only appends to the log. */
  lemma {:induction false} AnnouncedKeepsStart(w: World, v: TaskView, fname: string, fsize: int, s: Stream<Byte>, bufferSize: int)
    ensures var start := Broadcast(v.listeners, OnStart(fname, fsize));
            var res := AfterStart(Announced(w, v, fname, fsize), v, s, bufferSize);
            |res.log| >= |w.log| + |start| && res.log[..|w.log| + |start|] == w.log + start
  {
    var a := Announced(w, v, fname, fsize);
    if bufferSize != 0 {
      PumpKeepsLog(a, v, s, 0);
    } else {
      KeepsPrefix(a.log, Broadcast(v.listeners, OnUpdate(0, 0)), [], EmptyRead(a, v).log);
    }
  }

  /**
   * A zero-length buffer: every listener hears `onStart` and then
   * `onUpdate(0, 0)`, nothing is written or closed, and the worker never
   * leaves the loop. A paused task is held at the gate from then on; one that
   * is not paused goes round again, announcing `onUpdate(0, 0)` each time.
   */
  lemma {:induction false} ZeroBufferNeverFinishes(w: World, v: TaskView, r: Response)
    requires Starts(v, r, 0)
    ensures FetchOutcome(v, r, 0) == Spinning
    ensures FetchWorld(w, v, r, 0).log
         == w.log + Broadcast(v.listeners, OnStart(FileName(r.contentDisposition, v.url.text).value, r.contentLength))
                  + Broadcast(v.listeners, OnUpdate(0, 0))
    ensures FetchWorld(w, v, r, 0).sinks == w.sinks
  {
    StartedWorld(w, v, r, 0);
  }

  /** The copy loop only appends to the log. */
  lemma {:induction false} PumpKeepsLog(w: World, v: TaskView, s: Stream<Byte>, pos: nat)
    requires pos <= |s.chunks|
    ensures |PumpWorld(w, v, s, pos).log| >= |w.log| && PumpWorld(w, v, s, pos).log[..|w.log|] == w.log
  {
    var stop := PumpStop(v.paused, |s.chunks|, pos);
    var ups := Updates(v.listeners, s.chunks[pos..stop], TotalLength(s.chunks[..pos]));
    if (v.paused && pos < |s.chunks|) || s.end.ReadFailure? {
      KeepsPrefix(w.log, ups, [], PumpWorld(w, v, s, pos).log);
    } else {
      KeepsPrefix(w.log, ups, Broadcast(v.listeners, OnComplete), PumpWorld(w, v, s, pos).log);
    }
  }

  /**
   * A transfer that does not complete announces no `onComplete`: only starts
   * and updates, and nothing at all when it fails before `onStart`.
   */
  lemma {:induction false} UnfinishedTransferNeverCompletes(w: World, v: TaskView, r: Response, bufferSize: int)
    requires FetchOutcome(v, r, bufferSize) != Completed
    ensures |FetchWorld(w, v, r, bufferSize).log| >= |w.log|
    ensures OnComplete !in Events(FetchWorld(w, v, r, bufferSize).log[|w.log|..])
  {
    if Starts(v, r, bufferSize) {
      if bufferSize > 0 {
        StartedFetch(w, v, r, bufferSize);
      }
      StartedWorld(w, v, r, bufferSize);
      UnfinishedPumpNeverCompletes(w, v, FileName(r.contentDisposition, v.url.text).value, r.contentLength, r.body.value, bufferSize);
    } else {
      NoStartNoChange(w, v, r, bufferSize);
      assert FetchWorld(w, v, r, bufferSize).log[|w.log|..] == [];
    }
  }

  /** After `onStart`, a copy loop that does not complete announces only updates. */
  lemma {:induction false} UnfinishedPumpNeverCompletes(w: World, v: TaskView, fname: string, fsize: int, s: Stream<Byte>, bufferSize: int)
    requires bufferSize == 0 || PumpOutcome(v.paused, s, 0) != Completed
    ensures var res := AfterStart(Announced(w, v, fname, fsize), v, s, bufferSize);
            |res.log| >= |w.log| && OnComplete !in Events(res.log[|w.log|..])
  {
    var a := Announced(w, v, fname, fsize);
    var res := AfterStart(a, v, s, bufferSize);
    var start := Broadcast(v.listeners, OnStart(fname, fsize));
    NoCompleteInBroadcast(v.listeners, OnStart(fname, fsize));
    var ups: seq<Call> := Broadcast(v.listeners, OnUpdate(0, 0));
    if bufferSize == 0 {
      NoCompleteInBroadcast(v.listeners, OnUpdate(0, 0));
    } else {
      var stop := PumpStop(v.paused, |s.chunks|, 0);
      ups := Updates(v.listeners, s.chunks[0..stop], TotalLength(s.chunks[..0]));
      if v.paused && 0 < |s.chunks| {
        PumpHeldAtGate(a, v, s, 0);
      } else {
        PumpRunsToEnd(a, v, s, 0);
      }
      NoCompleteInUpdates(v.listeners, s.chunks[0..stop], TotalLength(s.chunks[..0]));
    }
    DropPrefix(w.log, start, ups, res.log);
    EventsAppend(start, ups);
  }

  /** A transfer that does not complete closes no stream: a failed read skips both `close()` calls. */
  lemma {:induction false} UnfinishedTransferClosesNothing(w: World, v: TaskView, r: Response, bufferSize: int)
    requires FetchOutcome(v, r, bufferSize) != Completed
    ensures forall j :: SinkOf(FetchWorld(w, v, r, bufferSize).sinks, j).closes == SinkOf(w.sinks, j).closes
  {
    var res := FetchWorld(w, v, r, bufferSize);
    if Starts(v, r, bufferSize) && bufferSize > 0 {
      var fname := FileName(r.contentDisposition, v.url.text).value;
      var w1 := Announced(w, v, fname, r.contentLength);
      var s := r.body.value;
      var stop := PumpStop(v.paused, |s.chunks|, 0);
      assert res == PumpWorld(w1, v, s, 0);
      assert res.sinks == Written(w.sinks, v.outputStream, Flatten(s.chunks[0..stop]));
      WritingLeavesClosesAlone(w.sinks, v.outputStream, Flatten(s.chunks[0..stop]));
    } else {
      assert res.sinks == w.sinks;
    }
  }

  /** The events of a sequence of calls. */
  function Events(log: seq<Call>): (es: seq<Event>)
    ensures |es| == |log|
    ensures forall i :: 0 <= i < |log| ==> es[i] == log[i].event
  {
    if log == [] then [] else Events(log[..|log| - 1]) + [log[|log| - 1].event]
  }

  lemma {:induction false} EventsAppend(a: seq<Call>, b: seq<Call>)
    ensures Events(a + b) == Events(a) + Events(b)
  {
  }

  lemma {:induction false} NoCompleteInBroadcast(ls: seq<Listener>, e: Event)
    requires e != OnComplete
    ensures OnComplete !in Events(Broadcast(ls, e))
  {
  }

  /** The calls of a transfer up to its end hold no `onComplete`. */
  lemma {:induction false} NoCompleteBeforeEnd(ls: seq<Listener>, fname: string, fsize: int, cs: seq<seq<Byte>>)
    ensures OnComplete !in Events(TransferCalls(ls, fname, fsize, cs, false))
  {
    TransferCallsIncomplete(ls, fname, fsize, cs);
    NoCompleteInBroadcast(ls, OnStart(fname, fsize));
    NoCompleteInUpdates(ls, cs, 0);
    EventsAppend(Broadcast(ls, OnStart(fname, fsize)), Updates(ls, cs, 0));
  }

  lemma {:induction false} NoCompleteInUpdates(ls: seq<Listener>, cs: seq<seq<Byte>>, base: int)
    ensures OnComplete !in Events(Updates(ls, cs, base))
  {
    if cs != [] {
      var p := cs[..|cs| - 1];
      NoCompleteInUpdates(ls, p, base);
      var e := OnUpdate(|cs[|cs| - 1]|, Wrap32(base + TotalLength(cs)));
      NoCompleteInBroadcast(ls, e);
      EventsAppend(Updates(ls, p, base), Broadcast(ls, e));
    }
  }

  /**
   * The pause gate: a task that is paused when its transfer starts still gets
   * its `onStart` and its first chunk (the gate comes after a chunk), and then
   * nothing more is read, written or announced.
   */
  lemma {:induction false} PausedTaskStopsAfterFirstChunk(w: World, v: TaskView, r: Response, bufferSize: int)
    requires v.paused && bufferSize > 0
    requires Starts(v, r, bufferSize) && r.body.value.chunks != []
    ensures FetchOutcome(v, r, bufferSize) == Parked(1, Wrap32(|r.body.value.chunks[0]|))
    ensures FetchWorld(w, v, r, bufferSize).log
         == w.log + Broadcast(v.listeners, OnStart(FileName(r.contentDisposition, v.url.text).value, r.contentLength))
                  + Broadcast(v.listeners, OnUpdate(|r.body.value.chunks[0]|, Wrap32(|r.body.value.chunks[0]|)))
    ensures SinkOf(FetchWorld(w, v, r, bufferSize).sinks, v.outputStream).data
         == SinkOf(w.sinks, v.outputStream).data + r.body.value.chunks[0]
  {
    StartedFetch(w, v, r, bufferSize);
    PausedPumpFirstChunk(Announced(w, v, FileName(r.contentDisposition, v.url.text).value, r.contentLength), v, r.body.value);
  }

  /** The copy loop of a task paused from the start: its first chunk, then the gate. */
  lemma {:induction false} PausedPumpFirstChunk(w: World, v: TaskView, s: Stream<Byte>)
    requires v.paused && s.chunks != []
    ensures PumpOutcome(v.paused, s, 0) == Parked(1, Wrap32(|s.chunks[0]|))
    ensures PumpWorld(w, v, s, 0).log == w.log + Broadcast(v.listeners, OnUpdate(|s.chunks[0]|, Wrap32(|s.chunks[0]|)))
    ensures SinkOf(PumpWorld(w, v, s, 0).sinks, v.outputStream).data == SinkOf(w.sinks, v.outputStream).data + s.chunks[0]
  {
    var cs := s.chunks;
    assert PumpStop(v.paused, |cs|, 0) == 1;
    assert cs[..0] == [];
    assert TotalLength(cs[..1]) == |cs[0]| by {
      FlattenSnoc(cs, 0);
    }
    CopiedStep(w, v, cs, 0, 0);
    assert Copied(w, v, cs, 0, 0) == w;
  }

  /** The transfer never looks at `cancelled`, and the request never carries the task's credentials. */
  lemma {:induction false} CancelAndCredentialsIgnored(w: World, v: TaskView, r: Response, bufferSize: int, proxy: Option<Proxy>,
                                                       cancelled: bool, auth: Option<Authentication.IssuedAuthentication>)
    ensures FetchOutcome(v.(cancelled := cancelled), r, bufferSize) == FetchOutcome(v, r, bufferSize)
    ensures FetchWorld(w, v.(cancelled := cancelled), r, bufferSize) == FetchWorld(w, v, r, bufferSize)
    ensures RequestFor(v.(cancelled := cancelled, authentication := auth), proxy) == RequestFor(v, proxy)
  {
    var u := v.(cancelled := cancelled);
    if Starts(v, r, bufferSize) && bufferSize > 0 {
      var a := Announced(w, v, FileName(r.contentDisposition, v.url.text).value, r.contentLength);
      StartedFetch(w, u, r, bufferSize);
      StartedFetch(w, v, r, bufferSize);
      assert Announced(w, u, FileName(r.contentDisposition, u.url.text).value, r.contentLength) == a;
      PumpIgnoresCancel(a, v, r.body.value, cancelled);
    }
  }

  lemma PumpIgnoresCancel(w: World, v: TaskView, s: Stream<Byte>, cancelled: bool)
    ensures PumpWorld(w, v.(cancelled := cancelled), s, 0) == PumpWorld(w, v, s, 0)
  {
    var u := v.(cancelled := cancelled);
    var stop := PumpStop(v.paused, |s.chunks|, 0);
    assert Copied(w, u, s.chunks, 0, stop) == Copied(w, v, s.chunks, 0, stop);
  }

  /**
   * A worker that is not interrupted takes every queued task, in queue order,
   * as long as no task ends it: `IOException`s along the way do not.
   */
  lemma {:induction false} DrainTakesWholeQueue(w: World, vs: seq<TaskView>, server: Request -> Response, bufferSize: int,
                                                proxy: Option<Proxy>)
    requires forall i :: 0 <= i < |vs| ==> Survives(FetchOutcome(vs[i], server(RequestFor(vs[i], proxy)), bufferSize))
    ensures DrainSpec(w, vs, server, bufferSize, proxy, false).taken == |vs|
    ensures DrainSpec(w, vs, server, bufferSize, proxy, false).exit == Waiting
    decreases |vs|
  {
    if vs != [] {
      var w1 := FetchWorld(w, vs[0], server(RequestFor(vs[0], proxy)), bufferSize);
      assert forall i :: 0 <= i < |vs[1..]| ==> vs[1..][i] == vs[i + 1];
      DrainTakesWholeQueue(w1, vs[1..], server, bufferSize, proxy);
    }
  }

  /**
   * The worker stops right after the first task that ends it: it takes that
   * task and the ones before it, and leaves the rest of the queue alone.
   */
  lemma {:induction false} DrainStopsAtFirstFatalTask(w: World, vs: seq<TaskView>, server: Request -> Response, bufferSize: int,
                                                      proxy: Option<Proxy>, k: nat)
    requires k < |vs|
    requires forall i :: 0 <= i < k ==> Survives(FetchOutcome(vs[i], server(RequestFor(vs[i], proxy)), bufferSize))
    requires !Survives(FetchOutcome(vs[k], server(RequestFor(vs[k], proxy)), bufferSize))
    ensures DrainSpec(w, vs, server, bufferSize, proxy, false).taken == k + 1
    ensures DrainSpec(w, vs, server, bufferSize, proxy, false).exit
         == Stopped(FetchOutcome(vs[k], server(RequestFor(vs[k], proxy)), bufferSize))
    decreases k
  {
    if k > 0 {
      var w1 := FetchWorld(w, vs[0], server(RequestFor(vs[0], proxy)), bufferSize);
      assert forall i :: 0 <= i < |vs[1..]| ==> vs[1..][i] == vs[i + 1];
      DrainStopsAtFirstFatalTask(w1, vs[1..], server, bufferSize, proxy, k - 1);
    }
  }

  /** An interrupted worker takes nothing and leaves everything as it was. */
  lemma {:induction false} InterruptedWorkerTakesNothing(w: World, vs: seq<TaskView>, server: Request -> Response,
                                                         bufferSize: int, proxy: Option<Proxy>)
    ensures DrainSpec(w, vs, server, bufferSize, proxy, true) == Drained(w, 0, Interrupted)
  {
  }

  /** One turn of the worker loop, for a worker that is not interrupted and finds a task. */
  lemma {:induction false} DrainStep(w: World, vs: seq<TaskView>, server: Request -> Response, bufferSize: int, proxy: Option<Proxy>)
    requires vs != []
    ensures var r := server(RequestFor(vs[0], proxy));
            var w1 := FetchWorld(w, vs[0], r, bufferSize);
            var o := FetchOutcome(vs[0], r, bufferSize);
            DrainSpec(w, vs, server, bufferSize, proxy, false)
            == if Survives(o) then Shifted(DrainSpec(w1, vs[1..], server, bufferSize, proxy, false), 1)
               else Drained(w1, 1, Stopped(o))
  {
  }

  /** One turn of the worker loop, stated on the world and outcome the task's download leaves. */
  lemma DrainTurn(w: World, vs: seq<TaskView>, server: Request -> Response, bufferSize: int, proxy: Option<Proxy>,
                  v0: TaskView, rest: seq<TaskView>, w1: World, o: Outcome)
    requires vs == [v0] + rest
    requires w1 == FetchWorld(w, v0, server(RequestFor(v0, proxy)), bufferSize)
    requires o == FetchOutcome(v0, server(RequestFor(v0, proxy)), bufferSize)
    ensures if Survives(o) then Shifted(DrainSpec(w1, rest, server, bufferSize, proxy, false), 1) == DrainSpec(w, vs, server, bufferSize, proxy, false)
            else Drained(w1, 1, Stopped(o)) == DrainSpec(w, vs, server, bufferSize, proxy, false)
  {
    assert vs[0] == v0 && vs[1..] == rest;
    DrainStep(w, vs, server, bufferSize, proxy);
  }

  class DirectDownloader {
    var poolSize: int
    var bufferSize: int
    var proxy: Option<Proxy>
    /** The shared `LinkedBlockingQueue`: `download` appends, workers take from the front. */
    var tasks: seq<DownloadTask>
    /** The `dts` array: None before `run()`; its slots are never filled. */
    var dts: Option<seq<Option<nat>>>
    /** How many worker threads `run()` has started. */
    var started: nat
    /** Every listener callback made so far, in order. */
    var log: seq<Call>
    /** The state of every output stream the transfers wrote to. */
    var sinks: map<StreamId, Sink>

    function Observed(): World
      reads this
    {
      World(log, sinks)
    }

    /** `new DirectDownloader()`: 3 workers, 2048-byte buffers, no proxy. */
    constructor ()
      ensures poolSize == DEFAULT_POOL_SIZE && bufferSize == DEFAULT_BUFFER_SIZE && proxy.None?
      ensures tasks == [] && dts.None? && started == 0 && log == [] && sinks == map[]
    {
      poolSize, bufferSize, proxy := DEFAULT_POOL_SIZE, DEFAULT_BUFFER_SIZE, None;
      tasks, dts, started, log, sinks := [], None, 0, [], map[];
    }

    constructor WithPoolSize(poolSize: int)
      ensures this.poolSize == poolSize && bufferSize == DEFAULT_BUFFER_SIZE && proxy.None?
      ensures tasks == [] && dts.None? && started == 0 && log == [] && sinks == map[]
    {
      this.poolSize, bufferSize, proxy := poolSize, DEFAULT_BUFFER_SIZE, None;
      tasks, dts, started, log, sinks := [], None, 0, [], map[];
    }

    /** `new DirectDownloader(proxy)`; a null proxy stays null and means a direct connection. */
    constructor WithProxy(proxy: Option<Proxy>)
      ensures poolSize == DEFAULT_POOL_SIZE && bufferSize == DEFAULT_BUFFER_SIZE && this.proxy == proxy
      ensures tasks == [] && dts.None? && started == 0 && log == [] && sinks == map[]
    {
      poolSize, bufferSize, this.proxy := DEFAULT_POOL_SIZE, DEFAULT_BUFFER_SIZE, proxy;
      tasks, dts, started, log, sinks := [], None, 0, [], map[];
    }

    constructor WithProxyAndPoolSize(proxy: Option<Proxy>, poolSize: int)
      ensures this.poolSize == poolSize && bufferSize == DEFAULT_BUFFER_SIZE && this.proxy == proxy
      ensures tasks == [] && dts.None? && started == 0 && log == [] && sinks == map[]
    {
      this.poolSize, bufferSize, this.proxy := poolSize, DEFAULT_BUFFER_SIZE, proxy;
      tasks, dts, started, log, sinks := [], None, 0, [], map[];
    }

    /** `for (DownloadListener listener : listeners) listener.<e>`. */
    method Notify(ls: seq<Listener>, e: Event)
      modifies this`log
      ensures log == old(log) + Broadcast(ls, e)
    {
      var k := 0;
      while k < |ls|
        invariant 0 <= k <= |ls|
        invariant log == old(log) + Broadcast(ls[..k], e)
      {
        assert ls[..k + 1][..k] == ls[..k];
        log := log + [Call(ls[k], e)];
        k := k + 1;
      }
      assert ls[..k] == ls;
    }

    /**
     * The copy loop of `download` (`while ((res = is.read(buff)) != -1)`),
     * entered with `pos` chunks and `total` bytes already read: at the start
     * of a transfer, or when a transfer held by the pause gate goes on.
     */
    method Pump(dt: DownloadTask, input: Stream<Byte>, pos: nat, total: int) returns (outcome: Outcome)
      requires pos <= |input.chunks|
      requires total == Wrap32(TotalLength(input.chunks[..pos]))
      modifies this`log, this`sinks
      ensures Observed() == PumpWorld(old(Observed()), dt.View(), input, pos)
      ensures outcome == PumpOutcome(dt.paused, input, pos)
    {
      ghost var w0 := Observed();
      var stop, t := CopyChunks(dt, input.chunks, pos, total);
      if dt.paused && pos < |input.chunks| {
        PumpHeldAtGate(w0, dt.View(), input, pos);
        return Parked(stop, t);
      }
      PumpRunsToEnd(w0, dt.View(), input, pos);
      match input.end {
        case ReadFailure =>
          outcome := Failed;
        case EndOfStream(closeFails) =>
          Finish(dt, closeFails);
          outcome := Completed;
      }
    }

    /**
     * The `while ((res = is.read(buff)) != -1)` loop from chunk `pos` on: each
     * chunk is written and announced with the running 32-bit total, and a
     * paused task leaves the loop at the gate right after its chunk.
     */
    method CopyChunks(dt: DownloadTask, cs: seq<seq<Byte>>, pos: nat, total: int) returns (stop: nat, t: int)
      requires pos <= |cs|
      requires total == Wrap32(TotalLength(cs[..pos]))
      modifies this`log, this`sinks
      ensures stop == PumpStop(dt.paused, |cs|, pos)
      ensures t == Wrap32(TotalLength(cs[..stop]))
      ensures Observed() == Copied(old(Observed()), dt.View(), cs, pos, stop)
    {
      ghost var w0 := Observed();
      ghost var v := dt.View();
      var i := pos;
      t := total;
      assert cs[pos..pos] == [];
      while i < |cs|
        invariant pos <= i <= |cs|
        invariant t == Wrap32(TotalLength(cs[..i]))
        invariant i == pos || !dt.paused
        invariant World(log, sinks) == Copied(w0, v, cs, pos, i)
      {
        CopiedNext(w0, v, cs, pos, i, t, log, sinks);
        t := WriteChunk(dt, cs[i], t);
        i := i + 1;
        if dt.paused {
          break;
        }
      }
      stop := i;
    }

    /** One turn of the copy loop: `os.write(buff, 0, res)`, `total += res`, then `onUpdate(res, total)` on every listener. */
    method WriteChunk(dt: DownloadTask, res: seq<Byte>, total: int) returns (t: int)
      modifies this`log, this`sinks
      ensures t == Wrap32(total + |res|)
      ensures Observed() == World(old(log) + Broadcast(dt.listeners, OnUpdate(|res|, t)), Written(old(sinks), dt.outputStream, res))
    {
      sinks := Written(sinks, dt.outputStream, res);
      t := Wrap32(total + |res|);
      Notify(dt.listeners, OnUpdate(|res|, t));
    }

    /** The end of the stream: `is.close()`, `os.close()` unless the first close threw, then `onComplete`. */
    method Finish(dt: DownloadTask, closeFails: bool)
      modifies this`log, this`sinks
      ensures Observed() == Closing(old(Observed()), dt.View(), closeFails)
    {
      if !closeFails {
        sinks := Closed(sinks, dt.outputStream, |log|);
      }
      Notify(dt.listeners, OnComplete);
    }

    /** `DirectDownloadThread.download(dt)`, with the remote end given by `server`. */
    method Fetch(dt: DownloadTask, server: Request -> Response) returns (req: Request, outcome: Outcome)
      modifies this`log, this`sinks
      ensures req == RequestFor(dt.View(), proxy)
      ensures Observed() == FetchWorld(old(Observed()), dt.View(), server(req), bufferSize)
      ensures outcome == FetchOutcome(dt.View(), server(req), bufferSize)
    {
      req := Request(dt.url, OrNoProxy(proxy), dt.timeout, GET, true);
      if !IsHttp(dt.url) {
        return req, Crashed(ClassCast);
      }
      if dt.timeout < 0 {
        return req, Crashed(IllegalArgument);
      }
      var conn := server(req);
      if conn.Unreachable? {
        return req, Failed;
      }
      var fsize := conn.contentLength;
      var name := FileName(conn.contentDisposition, dt.url.text);
      if name.Failure? {
        return req, Crashed(name.error);
      }
      var fname := name.value;
      if conn.body.None? {
        return req, Failed;
      }
      var input := conn.body.value;
      if bufferSize < 0 {
        return req, Crashed(NegativeArraySize);
      }
      Notify(dt.listeners, OnStart(fname, fsize));
      if bufferSize == 0 {
        Notify(dt.listeners, OnUpdate(0, 0));
        return req, Spinning;
      }
      assert input.chunks[..0] == [];
      outcome := Pump(dt, input, 0, 0);
    }

    /**
     * `DirectDownloadThread.run()`: take tasks from the front of the queue and
     * download each, until the queue is empty (the worker then blocks in
     * `take()`), the thread is interrupted, or a task ends the worker.
     */
    method RunWorker(server: Request -> Response, interrupted: bool) returns (taken: nat, exit: WorkerExit)
      modifies this`log, this`sinks, this`tasks
      ensures taken <= |old(tasks)| && tasks == old(tasks)[taken..]
      ensures Drained(Observed(), taken, exit)
           == DrainSpec(old(Observed()), old(Views(tasks)), server, bufferSize, proxy, interrupted)
    {
      ghost var w0 := Observed();
      ghost var vs := Views(tasks);
      taken := 0;
      while true
        invariant taken <= |old(tasks)| && tasks == old(tasks)[taken..]
        invariant Shifted(DrainSpec(Observed(), Views(tasks), server, bufferSize, proxy, interrupted), taken)
               == DrainSpec(w0, vs, server, bufferSize, proxy, interrupted)
        decreases |tasks|
      {
        if interrupted {
          exit := Interrupted;
          return;
        }
        if tasks == [] {
          exit := Waiting;
          return;
        }
        assert old(tasks)[taken..][1..] == old(tasks)[taken + 1..];
        var outcome := TakeTask(server);
        taken := taken + 1;
        if !Survives(outcome) {
          exit := Stopped(outcome);
          return;
        }
      }
    }

    /** One turn of the worker loop: `download(tasks.take())`, for a worker that finds a task. */
    method TakeTask(server: Request -> Response) returns (outcome: Outcome)
      requires tasks != []
      modifies this`log, this`sinks, this`tasks
      ensures tasks == old(tasks)[1..]
      ensures if Survives(outcome)
              then Shifted(DrainSpec(Observed(), Views(tasks), server, bufferSize, proxy, false), 1)
                   == DrainSpec(old(Observed()), old(Views(tasks)), server, bufferSize, proxy, false)
              else Drained(Observed(), 1, Stopped(outcome))
                   == DrainSpec(old(Observed()), old(Views(tasks)), server, bufferSize, proxy, false)
    {
      ghost var w1 := Observed();
      ghost var vs := Views(tasks);
      var dt := tasks[0];
      ghost var v0, rest := dt.View(), Views(tasks[1..]);
      assert vs == [v0] + rest;
      tasks := tasks[1..];
      var req;
      req, outcome := Fetch(dt, server);
      assert dt.View() == v0 && Views(tasks) == rest;
      DrainTurn(w1, vs, server, bufferSize, proxy, v0, rest, Observed(), outcome);
    }

    /** `download(dt)`: append the task to the tail of the queue. */
    method Download(dt: DownloadTask)
      modifies this`tasks
      ensures tasks == old(tasks) + [dt]
    {
      tasks := tasks + [dt];
    }

    /**
     * `run()`: allocate the `dts` array (negative sizes throw) and start
     * `poolSize` workers; the for-each loop rebinds a local variable, so the
     * array's slots stay null.
     */
    method Run() returns (fault: Option<Fault>)
      modifies this`dts, this`started
      ensures poolSize < 0 ==> fault == Some(NegativeArraySize) && dts == old(dts) && started == old(started)
      ensures poolSize >= 0 ==> fault.None? && started == old(started) + poolSize
      ensures poolSize >= 0 ==> dts.Some? && |dts.value| == poolSize
      ensures poolSize >= 0 ==> forall i :: 0 <= i < poolSize ==> dts.value[i].None?
    {
      if poolSize < 0 {
        return Some(NegativeArraySize);
      }
      var slots: seq<Option<nat>> := seq(poolSize, _ => None);
      dts := Some(slots);
      for i := 0 to |slots|
        invariant started == old(started) + i
        invariant dts == Some(slots)
      {
        var t := Some(started);
        started := started + 1;
      }
      fault := None;
    }

    method GetPoolSize() returns (n: int)
      ensures n == poolSize
    {
      n := poolSize;
    }

    method SetPoolSize(poolSize: int)
      modifies this`poolSize
      ensures this.poolSize == poolSize
    {
      this.poolSize := poolSize;
    }

    method GetBufferSize() returns (n: int)
      ensures n == bufferSize
    {
      n := bufferSize;
    }

    method SetBufferSize(bufferSize: int)
      modifies this`bufferSize
      ensures this.bufferSize == bufferSize
    {
      this.bufferSize := bufferSize;
    }
  }

}

# jddl, the Java Direct Download Lib, in Dafny

jddl downloads files over HTTP on a small pool of worker threads.

- **Tasks.** A client builds a `DownloadTask` holding a URL, an `OutputStream` to write to, a list of `DownloadListener`s, a timeout, optional credentials, and the `paused`/`cancelled` flags. It hands the task to `DirectDownloader.download`, which appends it to a FIFO queue.
- **Workers.** Each worker takes tasks from the queue in order. For each task it:
  - opens the connection;
  - works out the file name from the `Content-Disposition` header or from the URL;
  - announces `onStart(fname, fsize)`;
  - copies the response to the output stream one buffer at a time, announcing each chunk with `onUpdate(bytes, total)` and stopping at a pause gate after each chunk while the task is paused;
  - closes both streams and announces `onComplete()`.
- **Failures.** An `IOException` costs the worker only the current task. A runtime exception or an interrupt ends the worker. Runtime exceptions come from a URL that is not http or https (the cast to `HttpURLConnection` fails), a negative task timeout (`setReadTimeout` refuses it), an empty `Content-Disposition` header, and a negative buffer size.
- **`HttpConnector`.** It classifies URL schemes without regard to case. An ftp URL takes the plain path, where the cast to `HttpURLConnection` throws. It keeps a header map and a request method and applies them to every connection. Secure connections get a TLS context that trusts everyone. `doInput` reads a whole response body.
- **`Authentication`.** It builds the `Authorization` header value: `Basic` followed by the base 64 encoding (section 4 of RFC 4648) of the credentials `user:password`, following section 2 of RFC 7617; or `Bearer` followed by the token, following section 2.1 of RFC 6750.

## How the model is organised

- **Modules.** One module per concern:
  - `Wrappers`: Option and Result.
  - `Chunks`: bytes, 32-bit `int` arithmetic, and streams as sequences of chunks.
  - `Strings`: the `java.lang.String` operations used.
  - `Base64`.
  - `Authentication`.
  - `Listeners`: the `DownloadListener` callbacks as events, and broadcasts over a listener list.
  - `Net`: `URL` and `Proxy` as values.
  - `Tasks`: the `DownloadTask` class.
  - `Http`: the `HttpConnector` class.
  - `Downloader`: the `DirectDownloader` class and the specification of a transfer.
- **Classes.** `DownloadTask`, `HttpConnector` and `DirectDownloader` are classes whose methods update their fields. The listener list and the task queue are `seq` fields. The header map is a `map` field.
- **The downloader's world.** The downloader also holds what the outside world has observed:
  - `log`: every listener callback, in order;
  - `sinks`: for every output stream (identified by a `StreamId`), the bytes written to it and, for each `close()` on it, how long the log was at that moment, which places the close among the callbacks.
- **Specifications.**
  - Each method's result and new state are tied to specification functions: `Copied`, `PumpWorld`/`PumpOutcome`, `FetchWorld`/`FetchOutcome` and `DrainSpec`.
  - The library's promises are proved as lemmas about those functions.
- **The network and the server.** A server is a function from the `Request` a task produces to a `Response`. A response gives the content length, the optional `Content-Disposition` header, and the response stream as the chunks successive `read(buff)` calls return, plus how the stream ends.
- **The running total.** It is a Java `int`, and it wraps around (`Wrap32`).
- **Threads.** They are modelled sequentially. A worker that reaches the pause gate with its task paused is *parked*. `Pump` continues the same transfer once the flag is cleared, and `PauseResumeSeamless` proves that nothing is lost or repeated.

Where the code and its description differ, the model follows the code:

- **The file name** starts one character past the *start* of the `fname=` match, not past the whole token. It always drops the header's last character. An empty header makes `substring(0, -1)` throw.
- **`cancelled`** is never read by a transfer.
- **Credentials** are never sent by the downloader: it does not read the task's authentication.
- **The connector's `connectionTimeout`** is never applied to any connection.
- **The first chunk** of a paused task is still read, written and announced before the gate holds.
- **The pause gate busy-waits.** Its unqualified `wait()` is called on the worker thread object, whose monitor the worker does not hold. So `wait()` throws `IllegalMonitorStateException` at once, the `catch (Exception e)` swallows it, and the loop polls the flag again, all while holding the task's monitor. The model treats the gate as one that holds the worker while the flag is set.
- **A zero buffer size** makes every `read` return 0. The loop never ends, and each turn announces `onUpdate(0, 0)` before the gate.

## Model

| member | source | states |
|---|---|---|
| Chunks.Wrap32Facts | src/main/java/org/kamranzafar/jddl/DirectDownloader.java:113-116 | the value a Java `int` holds: in range, congruent to the true value modulo 2^32, and equal to it when it fits |
| Chunks.Wrap32Add | src/main/java/org/kamranzafar/jddl/DirectDownloader.java:113-116 | adding each chunk to the wrapped total gives the wrapped true sum, so `total += res` loses nothing modulo 2^32 |
| Chunks.FlattenAppend | src/main/java/org/kamranzafar/jddl/DirectDownloader.java:114-115 | the bytes of two runs of reads are the bytes of the first run followed by those of the second |
| Chunks.ChunkCountBound | src/main/java/org/kamranzafar/jddl/DirectDownloader.java:106-114 | chunks of 1 to `bufferSize` bytes each are no more numerous than their bytes, and hold at most `bufferSize` bytes per chunk |
| Strings.IndexOf | src/main/java/org/kamranzafar/jddl/DirectDownloader.java:95 | the first index where the pattern occurs, with no earlier occurrence; -1 exactly when it occurs nowhere |
| Strings.LastIndexOf | src/main/java/org/kamranzafar/jddl/DirectDownloader.java:98 | the last index holding the character, with none after it; -1 exactly when it is absent |
| Strings.Substring | src/main/java/org/kamranzafar/jddl/DirectDownloader.java:95-98 | succeeds exactly when `0 <= b <= e <= length`, and then holds the characters `b` to `e - 1`; otherwise throws `StringIndexOutOfBoundsException` |
| Strings.EqualsIgnoreCaseIsLowerEqual | src/main/java/org/kamranzafar/jddl/HttpConnector.java:82-84 | two strings are equal ignoring case exactly when their lower-cased forms are equal |
| Base64.SymbolValue | src/main/java/org/kamranzafar/jddl/Authentication.java:37 | a character of the base 64 alphabet is mapped to the 6-bit value whose symbol it is |
| Base64.Encode | src/main/java/org/kamranzafar/jddl/Authentication.java:37 | every 3 bytes give 4 characters, and a final group is padded to 4, so the length is 4 times the number of groups |
| Base64.DecodeEncode | src/main/java/org/kamranzafar/jddl/Authentication.java:37 | decoding undoes encoding for every byte string |
| Base64.DecodeCanonical | src/main/java/org/kamranzafar/jddl/Authentication.java:37 | text that decodes to some bytes is exactly their encoding: decoding accepts only the canonical form (zero pad bits, section 3.5 of RFC 4648) |
| Base64.EncodeInjective | src/main/java/org/kamranzafar/jddl/Authentication.java:37 | different byte strings have different encodings, and equal ones equal encodings |
| Authentication.Authentication.GetRequestHeader | src/main/java/org/kamranzafar/jddl/Authentication.java:50-52 | the header value fixed at construction; for a value a factory made, it starts with the prefix of its type |
| Authentication.IssuedComesFromFactory | src/main/java/org/kamranzafar/jddl/Authentication.java:31-48 | the private constructor leaves the factories as the only source: every value of the factories' shape (`Made`) is what `withBasicAuthentication` or `withBearerAuthentication` returns, and both factories return only such values, as their result type `IssuedAuthentication` says |
| Authentication.WithBasicAuthentication | src/main/java/org/kamranzafar/jddl/Authentication.java:34-40 | type BASIC; the header is "Basic " followed by text that decodes to exactly the bytes of `username:password` |
| Authentication.BasicHeaderIsDetermined | src/main/java/org/kamranzafar/jddl/Authentication.java:34-40 | any text after "Basic " that decodes to the credential bytes is the header's own, so the ensures above fix the header completely |
| Authentication.WithBearerAuthentication | src/main/java/org/kamranzafar/jddl/Authentication.java:42-48 | type BEARER; the header is "Bearer " followed by the token verbatim |
| Authentication.BasicHeaderDeterminesCredentials | src/main/java/org/kamranzafar/jddl/Authentication.java:34-40 | two basic authentications are equal exactly when the credential bytes they encode are equal |
| Authentication.ColonInUserNameIsAmbiguous | src/main/java/org/kamranzafar/jddl/Authentication.java:34-40 | no input is rejected, so a user name containing ':' gives the same header as a different user and password |
| Authentication.BearerHeaderDeterminesToken | src/main/java/org/kamranzafar/jddl/Authentication.java:42-52 | two bearer authentications are equal exactly when their tokens are |
| Listeners.Broadcast | src/main/java/org/kamranzafar/jddl/DirectDownloader.java:109-111 | one call per listener, in list order, all with the same event |
| Listeners.ReceivedBroadcast | src/main/java/org/kamranzafar/jddl/DirectDownloader.java:117-119 | a listener on the list once hears a broadcast exactly once; one not on the list hears nothing |
| Listeners.ListenerSeesOrderedEvents | src/main/java/org/kamranzafar/jddl/DownloadListener.java:34-38 | a listener on the list once hears exactly one `onStart`, then one `onUpdate` per chunk, then one `onComplete` when the transfer ends normally |
| Listeners.UpdatesAppend | src/main/java/org/kamranzafar/jddl/DirectDownloader.java:113-119 | announcing two runs of chunks one after the other is announcing them in one go, the second run's totals counted on from the first |
| Listeners.ProgressAt | src/main/java/org/kamranzafar/jddl/DirectDownloader.java:113-119 | the i-th update carries the i-th chunk's size and the 32-bit total of the first i+1 chunks |
| Listeners.BytesAnnouncedIsTotal | src/main/java/org/kamranzafar/jddl/DirectDownloader.java:113-119 | the sizes announced add up to the number of bytes read |
| Listeners.TransferHeard | src/main/java/org/kamranzafar/jddl/DirectDownloader.java:106-139 | for chunks of 1 to `limit` bytes, a whole transfer is heard as `onStart`, one update per chunk announcing 1 to `limit` bytes, then `onComplete`; within `int` range the totals strictly increase and the last is the byte count |
| Listeners.ProgressTotalsExact | src/main/java/org/kamranzafar/jddl/DirectDownloader.java:113-119 | while the bytes fit in an `int`, the totals are the exact running sums, they strictly increase, and the last is the number of bytes read |
| Tasks.FirstIndex | src/main/java/org/kamranzafar/jddl/DownloadTask.java:87-90 | the index of the first occurrence: it holds the element and no earlier position does |
| Tasks.RemoveFirst | src/main/java/org/kamranzafar/jddl/DownloadTask.java:87-90 | the list without its first occurrence of the listener, the rest in order; unchanged when the listener is absent |
| Tasks.RemoveFirstMultiset | src/main/java/org/kamranzafar/jddl/DownloadTask.java:87-90 | removal takes away exactly one copy of a listener that is present, and nothing otherwise |
| Tasks.RemoveUndoesAdd | src/main/java/org/kamranzafar/jddl/DownloadTask.java:82-90 | removing a listener just added, and not there before, restores the list |
| Tasks.DownloadTask.constructor | src/main/java/org/kamranzafar/jddl/DownloadTask.java:43-52 | the given URL and stream, no listeners, not paused, not cancelled, timeout 15000, no authentication |
| Tasks.DownloadTask.WithListener | src/main/java/org/kamranzafar/jddl/DownloadTask.java:54-58 | as the plain constructor, with exactly the one listener |
| Tasks.DownloadTask.SetUrl | src/main/java/org/kamranzafar/jddl/DownloadTask.java:64-67 | only the URL changes, and the task itself is returned |
| Tasks.DownloadTask.SetOutputStream | src/main/java/org/kamranzafar/jddl/DownloadTask.java:73-76 | only the output stream changes, and the task itself is returned |
| Tasks.DownloadTask.AddListener | src/main/java/org/kamranzafar/jddl/DownloadTask.java:82-85 | the listener is appended; earlier listeners and every other field are unchanged |
| Tasks.DownloadTask.RemoveListener | src/main/java/org/kamranzafar/jddl/DownloadTask.java:87-90 | the list loses its first occurrence of the listener; every other field is unchanged |
| Tasks.DownloadTask.RemoveAllListener | src/main/java/org/kamranzafar/jddl/DownloadTask.java:92-95 | the list is empty; every other field is unchanged |
| Tasks.DownloadTask.SetPaused | src/main/java/org/kamranzafar/jddl/DownloadTask.java:101-104 | only `paused` changes, and the task itself is returned |
| Tasks.DownloadTask.SetCancelled | src/main/java/org/kamranzafar/jddl/DownloadTask.java:110-113 | only `cancelled` changes, and the task itself is returned |
| Tasks.DownloadTask.SetTimeout | src/main/java/org/kamranzafar/jddl/DownloadTask.java:119-122 | only the timeout changes, and the task itself is returned |
| Tasks.DownloadTask.SetAuthentication | src/main/java/org/kamranzafar/jddl/DownloadTask.java:128-131 | only the authentication, which must be one a factory made, changes, and the task itself is returned |
| Tasks.SetFlagsTwice | src/main/java/org/kamranzafar/jddl/DownloadTask.java:101-113 | setting `paused` and `cancelled` twice with the same values is setting them once |
| Http.SchemeOf | src/main/java/org/kamranzafar/jddl/HttpConnector.java:81-89 | plain exactly for http or ftp, secure exactly for https, unsupported exactly otherwise, all after lower-casing |
| Http.SchemeIgnoresCase | src/main/java/org/kamranzafar/jddl/HttpConnector.java:82-84 | protocols equal ignoring case are dispatched alike |
| Http.CheckClientTrusted | src/main/java/org/kamranzafar/jddl/HttpConnector.java:193-194 | returns without throwing `CertificateException`, for every chain and auth type |
| Http.CheckServerTrusted | src/main/java/org/kamranzafar/jddl/HttpConnector.java:196-197 | returns without throwing `CertificateException`, for every chain and auth type |
| Http.GetAcceptedIssuers | src/main/java/org/kamranzafar/jddl/HttpConnector.java:199-201 | null: no issuers are named |
| Http.Verify | src/main/java/org/kamranzafar/jddl/HttpConnector.java:144-148 | every host name is accepted, whatever the session |
| Net.OrNoProxy | src/main/java/org/kamranzafar/jddl/HttpConnector.java:102 | `Proxy.NO_PROXY` for a null proxy, otherwise the proxy given |
| Http.SecureConnectionTrustsEveryone | src/main/java/org/kamranzafar/jddl/HttpConnector.java:137-148 | every trust manager of a secure connection accepts every chain without throwing and names no accepted issuers (null), and its verifier accepts every host |
| Http.HttpConnector.constructor | src/main/java/org/kamranzafar/jddl/HttpConnector.java:63-72 | connect timeout 13000, no headers, method "GET" |
| Http.HttpConnector.GetConnection | src/main/java/org/kamranzafar/jddl/HttpConnector.java:81-89 | a `ClassCastException` exactly for ftp; null exactly for unsupported schemes; otherwise the two-argument behaviour with a direct connection |
| Http.HttpConnector.GetConnectionVia | src/main/java/org/kamranzafar/jddl/HttpConnector.java:99-111 | a `ClassCastException` exactly for ftp, whose connection is not an `HttpURLConnection`; null exactly for unsupported schemes; otherwise the URL, the proxy (direct when null), the stored method, and every header once; TLS and the 13000 connect timeout exactly on the secure path |
| Http.HttpConnector.GetSecureConnection | src/main/java/org/kamranzafar/jddl/HttpConnector.java:133-152 | a `ClassCastException` exactly for a URL that is not https, whose connection is not an `HttpsURLConnection`; otherwise the stored method and all headers, a "TLS" context with no key managers and only the default trust manager, the accept-all verifier, and always the default connect timeout |
| Http.HttpConnector.SetHeaders | src/main/java/org/kamranzafar/jddl/HttpConnector.java:204-210 | the existing properties, then exactly one property per header key with that key's current value; nothing else changes |
| Http.HttpConnector.GetConnectionTimeout | src/main/java/org/kamranzafar/jddl/HttpConnector.java:212-214 | the stored timeout |
| Http.HttpConnector.SetConnectionTimeout | src/main/java/org/kamranzafar/jddl/HttpConnector.java:216-218 | only the stored timeout changes |
| Http.HttpConnector.AddHeader | src/main/java/org/kamranzafar/jddl/HttpConnector.java:220-222 | the key now maps to the value; every other key and field is unchanged |
| Http.HttpConnector.GetHeaders | src/main/java/org/kamranzafar/jddl/HttpConnector.java:224-226 | the current header map, as a value |
| Http.HttpConnector.GetRequestMethod | src/main/java/org/kamranzafar/jddl/HttpConnector.java:228-230 | the stored method |
| Http.HttpConnector.SetRequestMethod | src/main/java/org/kamranzafar/jddl/HttpConnector.java:232-234 | only the stored method changes |
| Http.HttpConnector.DoInput | src/main/java/org/kamranzafar/jddl/HttpConnector.java:173-189 | the concatenation of every chunk read, when the stream ends and closes normally; an `IOException` when opening, reading or closing fails |
| Http.AddHeaderOverwrites | src/main/java/org/kamranzafar/jddl/HttpConnector.java:220-222 | adding a header twice keeps only the second value and touches no other key |
| Downloader.FileName | src/main/java/org/kamranzafar/jddl/DirectDownloader.java:92-99 | with the header: a failure exactly when it is empty, otherwise its characters from one past the start of "fname=" (from 0 without a match) up to, not including, its last one; without it: the URL's tail after its last '/', which holds no '/' |
| Downloader.FileNameFromUrl | src/main/java/org/kamranzafar/jddl/DirectDownloader.java:97-98 | the whole URL when it has no '/', else the URL is what precedes the name, a '/', and the name |
| Downloader.FileNameKeepsTokenTail | src/main/java/org/kamranzafar/jddl/DirectDownloader.java:95 | `fname=report.pdf;` names the file `name=report.pdf` |
| Downloader.Written | src/main/java/org/kamranzafar/jddl/DirectDownloader.java:115 | the task's stream gets the bytes appended; every other stream is unchanged |
| Downloader.Closed | src/main/java/org/kamranzafar/jddl/DirectDownloader.java:133 | the task's stream records one more close, at the given log length, with its data kept; every other stream is unchanged |
| Downloader.WrittenTwice | src/main/java/org/kamranzafar/jddl/DirectDownloader.java:114-115 | writing two pieces one after the other is writing them together |
| Downloader.PumpStop | src/main/java/org/kamranzafar/jddl/DirectDownloader.java:114-129 | the loop stops before the end of the stream only at the gate of a paused task, right after one chunk |
| Downloader.PumpHeldAtGate | src/main/java/org/kamranzafar/jddl/DirectDownloader.java:121-128 | a paused task's copy loop writes and announces just one chunk and is held with the running total |
| Downloader.PumpRunsToEnd | src/main/java/org/kamranzafar/jddl/DirectDownloader.java:114-139 | a task that is not paused copies every chunk; a failed read then ends in an `IOException` with nothing closed, otherwise the streams are closed and the transfer completes |
| Downloader.CopiedStep | src/main/java/org/kamranzafar/jddl/DirectDownloader.java:114-119 | one more chunk adds exactly one round of `onUpdate` with its size and the new total, and exactly that chunk to the stream |
| Downloader.CopiedTwice | src/main/java/org/kamranzafar/jddl/DirectDownloader.java:114-119 | copying chunks in two runs, the second starting where the first stopped, is copying them in one run |
| Downloader.PauseResumeSeamless | src/main/java/org/kamranzafar/jddl/DirectDownloader.java:113-129 | a transfer held at the gate and then resumed with the flag cleared ends in the same state and outcome as one never paused |
| Downloader.CompletedTransfer | src/main/java/org/kamranzafar/jddl/DirectDownloader.java:80-140 | a completed transfer: made exactly the `onStart`, per-chunk `onUpdate` and `onComplete` rounds; appended all chunks, in order, to the task's stream; closed it once, just before the `onComplete` round, unless `is.close()` threw; touched no other stream |
| Downloader.StreamClosedBeforeComplete | src/main/java/org/kamranzafar/jddl/DirectDownloader.java:131-139 | when `is.close()` does not throw, the output stream's close is recorded after the `onStart` and `onUpdate` rounds, which hold no `onComplete`, and only the `onComplete` round follows it |
| Downloader.CompletedTransferProgress | src/main/java/org/kamranzafar/jddl/DirectDownloader.java:106-119 | for a stream that keeps the `read(byte[])` contract, a listener on the list once hears `onStart`, then one `onUpdate` per chunk with 1 to `bufferSize` bytes, then `onComplete`; within `int` range the totals strictly increase and the last equals the bytes the output stream received |
| Downloader.CompletedTransferPerListener | src/main/java/org/kamranzafar/jddl/DirectDownloader.java:109-139 | every listener on the list once hears `onStart(fname, fsize)` with the raw content length, then its progress, then `onComplete` |
| Downloader.StartComesFirst | src/main/java/org/kamranzafar/jddl/DirectDownloader.java:80-111 | a call failing before `onStart` changes nothing and is an `IOException` or a crash; otherwise the round of `onStart` comes before anything else |
| Downloader.UnfinishedTransferNeverCompletes | src/main/java/org/kamranzafar/jddl/DirectDownloader.java:114-139 | a transfer that does not complete announces no `onComplete` |
| Downloader.UnfinishedTransferClosesNothing | src/main/java/org/kamranzafar/jddl/DirectDownloader.java:114-135 | a transfer that does not complete closes no stream |
| Downloader.ZeroBufferNeverFinishes | src/main/java/org/kamranzafar/jddl/DirectDownloader.java:106-128 | with a zero-length buffer the worker never leaves the loop: every listener hears `onStart` and then `onUpdate(0, 0)`, and no stream is written or closed |
| Downloader.PausedTaskStopsAfterFirstChunk | src/main/java/org/kamranzafar/jddl/DirectDownloader.java:109-128 | a task paused from the start gets `onStart`, its first chunk written and announced, and then is held |
| Downloader.CancelAndCredentialsIgnored | src/main/java/org/kamranzafar/jddl/DirectDownloader.java:80-140 | outcome, callbacks and writes do not depend on `cancelled`; the request does not depend on `cancelled` or the credentials |
| Downloader.DrainTakesWholeQueue | src/main/java/org/kamranzafar/jddl/DirectDownloader.java:143-154 | a worker that is not interrupted takes every queued task, in order, while `IOException`s are all that go wrong, and then waits |
| Downloader.DrainStopsAtFirstFatalTask | src/main/java/org/kamranzafar/jddl/DirectDownloader.java:143-154 | the worker takes exactly the tasks up to and including the first one that ends it, and stops with that task's outcome |
| Downloader.InterruptedWorkerTakesNothing | src/main/java/org/kamranzafar/jddl/DirectDownloader.java:149-151 | an interrupted worker takes no task and changes nothing |
| Downloader.DrainStep | src/main/java/org/kamranzafar/jddl/DirectDownloader.java:144-148 | one turn of the worker loop downloads the front task, then carries on with the rest only if it survived |
| Downloader.DirectDownloader.constructor | src/main/java/org/kamranzafar/jddl/DirectDownloader.java:44-54 | 3 workers, 2048-byte buffers, no proxy, an empty queue |
| Downloader.DirectDownloader.WithPoolSize | src/main/java/org/kamranzafar/jddl/DirectDownloader.java:56-58 | the given pool size, otherwise the defaults |
| Downloader.DirectDownloader.WithProxy | src/main/java/org/kamranzafar/jddl/DirectDownloader.java:60-62 | the given proxy, otherwise the defaults |
| Downloader.DirectDownloader.WithProxyAndPoolSize | src/main/java/org/kamranzafar/jddl/DirectDownloader.java:64-67 | the given proxy and pool size, a 2048-byte buffer |
| Downloader.DirectDownloader.Notify | src/main/java/org/kamranzafar/jddl/DirectDownloader.java:109-111 | the log gains one round of the event, one call per listener in list order |
| Downloader.DirectDownloader.Pump | src/main/java/org/kamranzafar/jddl/DirectDownloader.java:113-139 | the copy loop from a given chunk on leaves exactly the world and outcome its specification describes |
| Downloader.DirectDownloader.CopyChunks | src/main/java/org/kamranzafar/jddl/DirectDownloader.java:114-129 | the loop stops where `PumpStop` says, with the 32-bit total of the chunks read, having written and announced exactly those chunks |
| Downloader.DirectDownloader.WriteChunk | src/main/java/org/kamranzafar/jddl/DirectDownloader.java:115-119 | the chunk is written to the task's stream, the total grows by its size as an `int`, and every listener hears the update |
| Downloader.DirectDownloader.Finish | src/main/java/org/kamranzafar/jddl/DirectDownloader.java:131-139 | the task's stream is closed, at the current log length, unless `is.close()` threw; then every listener hears `onComplete` |
| Downloader.DirectDownloader.Fetch | src/main/java/org/kamranzafar/jddl/DirectDownloader.java:80-140 | the request carries the task's URL, the proxy (direct when null), the task's timeout as read timeout and GET; a URL that is not http or https and a negative timeout crash before the server is asked; otherwise world and outcome are the specification's for the server's answer |
| Downloader.DirectDownloader.RunWorker | src/main/java/org/kamranzafar/jddl/DirectDownloader.java:143-154 | the worker takes tasks from the front of the queue, leaves the rest queued, and ends in the state the drain specification gives for the queued tasks |
| Downloader.DirectDownloader.TakeTask | src/main/java/org/kamranzafar/jddl/DirectDownloader.java:146 | `download(tasks.take())` removes the front task and leaves the world and outcome one turn of the drain specification gives, carrying on with the rest exactly when the outcome lets the worker survive |
| Downloader.DirectDownloader.Download | src/main/java/org/kamranzafar/jddl/DirectDownloader.java:157-159 | the task is appended to the tail of the queue |
| Downloader.DirectDownloader.Run | src/main/java/org/kamranzafar/jddl/DirectDownloader.java:161-172 | a negative pool size throws `NegativeArraySizeException` and changes nothing; otherwise `poolSize` workers start and every slot of `dts` stays null |
| Downloader.DirectDownloader.GetPoolSize | src/main/java/org/kamranzafar/jddl/DirectDownloader.java:174-176 | the stored pool size |
| Downloader.DirectDownloader.SetPoolSize | src/main/java/org/kamranzafar/jddl/DirectDownloader.java:178-180 | the pool size is the given one |
| Downloader.DirectDownloader.GetBufferSize | src/main/java/org/kamranzafar/jddl/DirectDownloader.java:182-184 | the stored buffer size |
| Downloader.DirectDownloader.SetBufferSize | src/main/java/org/kamranzafar/jddl/DirectDownloader.java:186-188 | the buffer size is the given one |

## Left out

- **Networking and TLS.** This covers `openConnection`, `connect`, `getInputStream`, `getContentLength`, `getHeaderField`, `SSLContext`, `setSSLSocketFactory` and `setFollowRedirects`. These are foreign `java.net`/`javax.net` calls. A server is a function from request to response, and a connection is a value recording what was set on it.
- DrainSpec: the server is one pure function for the whole queue, so a task queued twice gets the same response both times. A real server may answer the second request differently. No proved property relies on the two answers being equal.
- **`doOutput`.** It writes to a foreign output stream and is not part of this model. So are `conn.setDoOutput(true)`'s effects; the request only records the flag.
- **Threads.** Concurrent `take` on the queue, `Thread.start`, and a flag changed from another thread while a transfer runs are not modelled. Workers run one at a time, and a task's flags are read at the pause gate.
- **Interrupts.** An interrupt arriving while `take()` waits is the `interrupted` parameter of `RunWorker`.
- **The busy-waiting pause gate:** modelled as a parked outcome, not as a loop that spins holding the task's monitor. The transfer can be continued with `Pump`.
- FetchWorld: with a zero buffer size, a task that is not paused announces `onUpdate(0, 0)` again on every turn, forever. The model shows the world after the first turn only, the point where a paused task is held.
- FetchOutcome: every URL that is not http or https ends in `Crashed(ClassCast)`. For a protocol handler that does not implement the proxy-taking `openConnection`, the JDK throws `UnsupportedOperationException` instead; it also ends the worker.
- **Failures of `OutputStream.write`, and writes to a closed stream.** The sink accepts every write.
- **`HttpURLConnection.setRequestMethod` validation** of the method name is a JDK check and is not modelled. `SetRequestMethod` stores any string.
- **Case mapping.** `equalsIgnoreCase` is modelled for ASCII letters only. Other Unicode case mappings leave `SchemeOf`'s verdict on non-ASCII protocol names unmodelled.
- **`String.getBytes()`** depends on the platform charset. It is a parameter of `WithBasicAuthentication`.
- **`null`.** Null URLs, streams, listeners and keys are not modelled, except the proxy and the `Content-Disposition` header, which are `Option`s.
- **`DownloadTask` getters** (`getUrl`, `isPaused`, …) are field reads, which appear as reads of the class's fields and of `View()`. `getListeners` returns the live list, through which a caller can change the listeners without `addListener`. A `seq` field cannot carry that alias, so the list changes only through the task's methods.
- GetHeaders: returns the header map as a value. Java returns the live `HashMap`, so `put`, `remove` or `clear` through it change the headers later connections get. That alias is not modelled.
- FileName: indexes strings by Unicode scalar value. Java's `length()`, `indexOf`, `lastIndexOf` and `substring` count UTF-16 code units, so around characters outside the Basic Multilingual Plane the cut positions differ.
- DoInput: the `InputStreamReader` decodes bytes with the platform's default charset. The model takes the stream as characters already decoded.
- **The pool's threads.** `Run` counts started workers but does not run them. `RunWorker` is one worker's loop.
- **Logging, the examples and the test harnesses.** `Logger`, `printStackTrace`, and the Android, Swing and console examples are not part of this model.
- **`HttpConnector` constants.** `DEFAULT_STREAM_BUFFER_SIZE` is the `BufferedReader`'s internal buffer size and has no visible effect. `BUFFER_SIZE` bounds the chunks `DoInput` receives.
- **The `util.Base64` class.** The library's own class is not part of this model. Base 64 is modelled after section 4 of RFC 4648, with its inverse.

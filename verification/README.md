# tiny-webserver: a model and its proofs

A Dafny 4.11 model of a small reactor web server. It covers four parts.

* The HTTP side: the request parser, the two printers (responses, and the requests of the bundled load generator
  webbench), and the choice of the reply.
* The reactor: channels, epoll, the loops that receive and send, the thread pool, the table of connections.
* The life of a connection from `accept4` to `close`, as a system of atomic steps of the accepting thread, the kernel,
  the sub-server loops and the pool workers, over all interleavings.
* The logger: placeholder substitution and the queue between the threads that log and the thread that writes.

`dafny verify dfyconfig.toml` checks everything. The kernel is nondeterministic throughout: results of `recv` and
`send`, the descriptor that `accept4` returns, which event comes when, which worker wakes up.

## How it is built

| file | content |
|---|---|
| `Bytes.dfy` | byte classes, decimal numbers, cutting a string in one way only |
| `HttpRequest.dfy` | the request object |
| `HttpMachine.dfy` | control states, one turn of the parsing loop, the whole loop as functions |
| `HttpGrammar.dfy` | the accepted language and its meaning, written without reference to the parser |
| `HttpParser.dfy` | the parser decides exactly that language and stores exactly that meaning |
| `HttpContext.dfy` | the loop itself, on the object whose fields it updates |
| `HttpPrinter.dfy`, `HttpResponse.dfy`, `HttpServer.dfy` | printing, reading back, the reply |
| `Webbench.dfy`, `EndToEnd.dfy` | what webbench sends, and what the server makes of it |
| `LogFormat.dfy`, `LogQueue.dfy` | the logger |
| `ThreadPool.dfy` | the pool as a monitor |
| `Reactor.dfy`, `ConnectionIo.dfy` | channels, epoll, connection table; the receive and send loops |
| `Lifecycle.dfy` | the steps of a connection's life and the invariant |
| `LifecycleProofs.dfy` | every step keeps the invariant |
| `LifecycleSafety.dfy` | what holds in every run |
| `LifecycleSteps.dfy` | what one step can change, and that a connection goes forward only |
| `LifecycleEvents.dfy` | events and descriptors are conserved; every delivered event can be handled |
| `LifecycleCleanup.dfy`, `LifecycleLeaks.dfy` | exactly when a connection is cleaned up; two runs that leak |

Objects that the source updates in place are classes whose methods are proved against a function of the old fields.
The state machines and the classes share these functions: the steps of `Lifecycle` use `Control`, `Delivered`,
`Dispatched`, `Inserted`, `Hash` and `Verdict`, against which the methods of `Epoll`, `Channel`, `ConnectionTable` and
`Connection` are proved; each method of `LogQueue` and `ThreadPool` is one step of its machine.

## What the proofs show about the code

The model does what the code does. In these places that is not what its names, comments or RFC 9112 suggest.

* A header line `key:` directly followed by CR makes the parser build a string from `colon + 2` to an earlier position.
  These inputs are characterised exactly (`BreaksIffBareColon`); `ParaseRequest` and `HandleMessage` say `malformed` for
  them and nothing else, because C++ gives such a slice no meaning.
* In state BODY with fewer bytes than Content-Length asks for, or with no Content-Length, every turn overwrites the body
  with a shorter prefix, so that one byte is left (`BodyLaw` has the exact cases). `GetCompleteRequest` still says true.
* Behind the blank line `cur < end` always holds, so a request without Content-Length ends in BODY, never in COMPLETE.
* Blanks before the target or the protocol, and line breaks before the method, become part of the stored text. That is
  why the page is served only for requests without them (`HandleMessage`).
* OPTIONS and TRACE are accepted and stored as an invalid method; a request of level HTTP/0.9 is not accepted.
* A connection is registered with epoll before its callbacks are set and before it is in the table, so its handler can
  overtake the accepting thread. No epoll call fails then, no pointer dangles and no callback runs twice (`OnceEach`,
  `LivePointers`), but the clean-up depends on the order: a handled connection is clean if and only if its table insert
  came before the erase of its handler (`CleanByOrder`), that is, if the event was readable, the message callback sent,
  and the handler missed nothing (`CleanIff`). Otherwise it has leaked for good (`LeakedForever`). The handler may find
  no read callback and do nothing (`LeakHappens`), or throw into the future of its task, which nobody reads; or it may
  reply, close and leave epoll as it should, but erase before the insert, which then stores a connection that nobody
  will close (`LeakAfterReply`). Once the insert is done in time nothing is missed any more (`CleanInTime`).
* Sub-server loops occupy pool threads for good. A pool with no more threads than sub-servers strands work, and only
  such a pool does (`StrandsIff`); the thread count is that of the hardware, so a machine with one core has this.

## Model

| member | source | states |
|---|---|---|
| HttpRequests.HttpRequest.constructor | src/http/HttpRequest.cpp:9-10 | a fresh request has no method, no version, empty texts and empty maps |
| HttpRequests.NamesAre | src/http/HttpRequest.cpp:12-52 | exactly five texts name a method, each its own, and exactly two a version; every other text is invalid |
| HttpRequests.HttpRequest.SetMethod | src/http/HttpRequest.cpp:37-52 | the method becomes the one the text names, or the invalid one; no other field changes |
| HttpRequests.HttpRequest.SetVersion | src/http/HttpRequest.cpp:12-21 | the version becomes the one the text names, or the invalid one; no other field changes |
| HttpRequests.HttpRequest.SetUrl | src/http/HttpRequest.cpp:76 | only the URL changes |
| HttpRequests.HttpRequest.SetRequestParams | src/http/HttpRequest.cpp:80-83 | the parameter is bound, an earlier value lost, the rest kept |
| HttpRequests.HttpRequest.SetProtocol | src/http/HttpRequest.cpp:101-103 | only the protocol changes |
| HttpRequests.HttpRequest.SetHeaders | src/http/HttpRequest.cpp:107-110 | the header is bound, an earlier value lost, the rest kept |
| HttpRequests.HttpRequest.GetHeaders | src/http/HttpRequest.cpp:112-120 | found or not, the value, and an empty value when missing |
| HttpRequests.HttpRequest.SetBody | src/http/HttpRequest.cpp:127-129 | only the body changes |
| Bytes.AtoiDecimal | src/http/HttpContext.cpp:216-218 | a length printed in decimal is read back by `atoi` as itself |
| Bytes.AtoiText | src/http/HttpContext.cpp:218 | `atoi` skips spaces, takes a sign, reads the digits and ignores what follows |
| Bytes.ByteClasses | src/http/HttpContext.cpp:29-31 | blanks, capitals, digits and spaces by their codes |
| HttpMachine.LeadBytes | src/http/HttpContext.cpp:29 | what may precede the method: tab, line feed, carriage return and space |
| HttpMachine.Step | src/http/HttpContext.cpp:22-255 | a turn of the loop reads one byte and keeps `start <= cur`, with the colon between them in the value states |
| HttpMachine.Run | src/http/HttpContext.cpp:22-258 | the loop ends: in a final state, at the end of the input, or before a malformed slice |
| HttpMachine.SliceOrder | src/http/HttpContext.cpp:22-255 | in every configuration reached the positions are in order, and all slices of the next turn are ordered ranges inside the input exactly when it is not the malformed one |
| HttpMachine.ReachedOrdered | src/http/HttpContext.cpp:22-255 | the order of the positions holds after any number of turns, and as many bytes have been read |
| HttpMachine.CutsInOrder | src/http/HttpContext.cpp:182-184 | the only slice that can be out of order is `colon + 2` to `cur` |
| HttpGrammar.ParamMapLastWins | src/http/HttpRequest.cpp:80-83 | the stored parameters have exactly the keys of the list, each with its last value |
| HttpGrammar.HeaderMapLastWins | src/http/HttpRequest.cpp:107-110 | the stored headers have exactly the keys of the list, each with its last value |
| HttpGrammar.BodyLaw | src/http/HttpContext.cpp:211-247 | the stored body is a prefix of what follows the blank line; with a positive Content-Length k the request is complete exactly when k bytes follow; exactly when the whole rest is stored |
| HttpGrammar.ExactBody | src/http/HttpContext.cpp:237-246 | with the exact Content-Length the request is complete and the body is the whole rest |
| HttpGrammar.TextUnique | src/http/HttpContext.cpp:17-258 | a text has at most one factorisation into the parts of a request |
| HttpParser.RunLine | src/http/HttpContext.cpp:28-200 | any well-formed request line is consumed, and its five parts are stored |
| HttpParser.RunParams | src/http/HttpContext.cpp:80-127 | any list of parameters is consumed and folded into the map |
| HttpParser.RunHeaders | src/http/HttpContext.cpp:171-210 | any list of header lines is consumed and folded into the map, the byte behind the colon dropped |
| HttpParser.RunBody | src/http/HttpContext.cpp:211-247 | from the blank line on the parser stores what BodyLaw speaks about, and accepts |
| HttpParser.RunShortBody | src/http/HttpContext.cpp:237-247 | a body that is too short ends in BODY with its first byte only |
| HttpParser.GrammarIsAccepted | src/http/HttpContext.cpp:17-258 | completeness: every text of the grammar is accepted, without a malformed slice, and stored as its parts mean |
| HttpParser.ReadLine | src/http/HttpContext.cpp:28-200 | whatever gets past the request line has the form of one |
| HttpParser.ReadHeaders | src/http/HttpContext.cpp:171-210 | what follows consists of header lines up to the blank line or up to a key whose colon meets CR |
| HttpParser.AcceptedIsGrammar | src/http/HttpContext.cpp:17-258 | soundness: whatever is accepted is a text of the grammar |
| HttpParser.AcceptsIffGrammar | src/http/HttpContext.cpp:17-258 | the parser decides the grammar |
| HttpParser.AcceptedMeaning | src/http/HttpContext.cpp:17-258 | an accepted input factors in exactly one way, and every stored field is what the factors mean |
| HttpParser.BareColonBreaks | src/http/HttpContext.cpp:178-188 | a key whose colon is directly followed by CR leads to the malformed slice |
| HttpParser.BreaksIffBareColon | src/http/HttpContext.cpp:178-188 | the parser meets a malformed slice exactly on the inputs with such a line behind a well-formed front |
| HttpContexts.HttpContext.constructor | src/http/HttpContext.cpp:13-15 | a fresh context is in START with a fresh request |
| HttpContexts.HttpContext.ParaseRequest | src/http/HttpContext.cpp:17-258 | the loop on the object is the machine; on a fresh context the answer is true exactly for the texts of the grammar, and then request and state are what the text means; the malformed slice is met exactly where BreaksIffBareColon says |
| HttpContexts.HttpContext.LineTurn | src/http/HttpContext.cpp:28-168 | a turn in a state of the request line is that of the machine |
| HttpContexts.HttpContext.HeaderTurn | src/http/HttpContext.cpp:171-247 | a turn in a state of the headers or the body is that of the machine |
| HttpContexts.HttpContext.EndHeaders | src/http/HttpContext.cpp:215-229 | the blank line leads to COMPLETE exactly for a Content-Length that is not positive |
| HttpContexts.HttpContext.StoreBody | src/http/HttpContext.cpp:237-246 | the body is replaced, and the state is COMPLETE exactly when enough bytes are there |
| HttpContexts.HttpContext.GetCompleteRequest | src/http/HttpContext.cpp:264-267 | COMPLETE or BODY |
| HttpContexts.HttpContext.ResetContextStatus | src/http/HttpContext.cpp:269-272 | the context is as good as new |
| HttpContexts.ParserDecides | src/http/HttpContext.cpp:256-257 | acceptance and stored fields, for all inputs, in terms of the grammar alone |
| HttpPrinter.FieldsReadBack | src/http/HttpContext.cpp:171-247 | printed `key: value` lines with blank line and body are read back from CR_LF as the last-wins map and the body |
| HttpPrinter.PrintIsText | src/http/HttpContext.cpp:39-235 | a printed request is a text of the grammar |
| HttpPrinter.RoundTrip | src/http/HttpContext.cpp:39-235 | print and parse: accepted, and method, version, target, parameters and headers come back, both maps last-wins |
| HttpPrinter.RoundTripBody | src/http/HttpContext.cpp:211-247 | with its length in the last Content-Length the body comes back whole, in COMPLETE |
| HttpPrinter.BareColonExample | src/http/HttpContext.cpp:178-188 | an input with the line `Host:` that leads to the malformed slice |
| HttpPrinter.ShortBodyExample | src/http/HttpContext.cpp:237-247 | a request with the body `abc` and Content-Length 5 of which `a` is stored |
| HttpResponses.HttpResponse.constructor | src/http/HttpResponse.cpp:8-10 | an empty response of unknown status |
| HttpResponses.HttpResponse.SetStatusCode | src/http/HttpResponse.cpp:12-44 | the code changes and the message with it, nothing else |
| HttpResponses.HttpResponse.SetBody | src/http/HttpResponse.cpp:46-48 | only the body changes |
| HttpResponses.HttpResponse.SetHeader | src/http/HttpResponse.cpp:54-57 | the header is bound, the rest kept |
| HttpResponses.BeforeIs | src/http/HttpResponse.cpp:77-79 | the order of the keys: the smaller byte at the first difference decides, a key comes before its extensions |
| HttpResponses.LeastExists | src/http/HttpResponse.cpp:77-79 | a non-empty set of keys has a first one in byte order, so that the iteration over the map is defined |
| HttpResponses.EntriesAscend | src/http/HttpResponse.cpp:77-79 | the iteration meets every header once, in strictly ascending byte order of the keys |
| HttpResponses.EntriesMap | src/http/HttpResponse.cpp:77-79 | the entries met, folded over any map, give that map updated by the headers |
| HttpResponses.HttpResponse.GetAsStringHeader | src/http/HttpResponse.cpp:63-84 | the loop prints status line, three fixed fields, the entries in order, and the blank line |
| HttpResponses.HttpResponse.GetAsString | src/http/HttpResponse.cpp:90-92 | header part, then the body |
| HttpResponses.StatusLines | src/http/HttpResponse.cpp:12-66 | the nine status lines, with number and phrase |
| HttpResponses.StatusPrefix | src/http/HttpResponse.cpp:65-66 | the text of a response of status Ok begins with 200 and its phrase, that of BadRequest with 400 and its phrase, and neither with the other |
| HttpResponses.ResponseReadBack | src/http/HttpResponse.cpp:63-92 | the parser, behind the status line, reads every printable response back: the fixed headers updated by the response's, and the body outcome of the Content-Length among them; exactly when the body comes back whole, and that it does, in COMPLETE and with its own length, when the response sets no Content-Length |
| HttpServer.RequestFile | src/server/HttpServer.cpp:15-27 | the page text with an unknown status |
| HttpServer.Repaly | src/server/HttpServer.cpp:29-49 | status 200 exactly for GET of `/` or `/index.html`, otherwise 400, same body |
| HttpServer.HandleMessage | src/server/HttpServer.cpp:55-70 | for every input without a malformed slice: the reply begins with `HTTP/1.0 200` exactly for the texts of the grammar that begin with `GET`, one blank and `/` or `/index.html`, with nothing before and nothing extra, and with `HTTP/1.0 400` exactly for the others; no reply for an input with a malformed slice |
| HttpServer.ReplyReadBack | src/server/HttpServer.cpp:55-70 | what a client reads behind the status line of a reply: three headers, among them the length 11, and the page |
| HttpServer.PageIffServed | src/server/HttpServer.cpp:29-48 | the stored method and URL are those of a page exactly when the text asks for one |
| HttpServer.NamesPageIffServed | src/server/HttpServer.cpp:29-48 | leading bytes or extra blanks always spoil the method or the URL |
| Webbench.FindFirst | webbench-1.5/webbench-1.5/webbench.c:222-239 | the position found is the first match |
| Webbench.Bench.BuildRequest | webbench-1.5/webbench-1.5/webbench.c:199-291 | for every URL: how the call ends; the level is 2 for OPTIONS and TRACE, raised from 0 to 1 for HEAD and for a reload through a proxy, and the one asked for otherwise; host, port and the whole request text, which with its terminator fits 2048 bytes |
| Webbench.OutcomeIs | webbench-1.5/webbench-1.5/webbench.c:222-263 | which URLs end the program, which overrun the buffers of 64 and 10 bytes, and which do neither |
| Webbench.IsHttpIs | webbench-1.5/webbench-1.5/webbench.c:233 | the scheme is compared without regard to case |
| Webbench.SentText | webbench-1.5/webbench-1.5/webbench.c:212-287 | the request text line by line, for every method, level, host, reload and proxy |
| Webbench.Bench.Begin | webbench-1.5/webbench-1.5/webbench.c:204-220 | the level, as options and method force it, and the method |
| Webbench.Bench.AddTarget | webbench-1.5/webbench-1.5/webbench.c:244-268 | host, port and path split at the first slash and the first colon, or the whole URL for a proxy |
| Webbench.Bench.AddRest | webbench-1.5/webbench-1.5/webbench.c:269-287 | protocol, end of line, fields and empty line |
| Webbench.Bench.AddFields | webbench-1.5/webbench-1.5/webbench.c:274-287 | the fields of the level, in order |
| Webbench.WhereColonIs | webbench-1.5/webbench-1.5/webbench.c:247-263 | searching the colon in everything behind the scheme and comparing positions finds the host and port of the part before the slash |
| Webbench.RequestFits | webbench-1.5/webbench-1.5/webbench.c:50-51 | with the URL limit of 1500 every request and its terminator fit into 2048 bytes |
| Webbench.SentIsAccepted | webbench-1.5/webbench-1.5/webbench.c:199-291 | without a proxy, from level 1 on, for a path with or without query: accepted, and every stored field is known, the host among the headers, and no method for OPTIONS and TRACE |
| Webbench.AskedIsStored | webbench-1.5/webbench-1.5/webbench.c:207-219 | the same from the level asked for: only a GET of level 0 is not covered; OPTIONS and TRACE are stored as an invalid method and always with version 1.1 |
| Webbench.SentAcceptedIff | webbench-1.5/webbench-1.5/webbench.c:199-291 | over the paths without blanks: accepted exactly from level 1 on and when the path is a target with an optional well-formed query |
| Webbench.Agreement | webbench-1.5/webbench-1.5/webbench.c:199-291 | for a usable URL whose path has no blank and no `?`: accepted with URL, version and Host header of that URL |
| EndToEnd.PathGetsPage | src/server/HttpServer.cpp:55-70 | a request of webbench gets the page exactly when it is a GET of one of the two targets, with any query |
| EndToEnd.BenchGetsPageIff | src/server/HttpServer.cpp:55-70 | over all paths without blanks: which requests of webbench get the page |
| LogFormat.FormatString | src/log/Log.h:168-190 | the two loops write the text that FormatMeaning and FormatLength speak about |
| LogFormat.FormatMeaning | src/log/Log.h:168-190 | between the placeholder-free pieces of the format come the arguments one by one, the placeholder stays where they have run out, surplus arguments come last |
| LogFormat.PiecesJoin | src/log/Log.h:176-185 | every format is placeholder-free pieces with placeholders between them |
| LogFormat.PiecesUnique | src/log/Log.h:176-185 | in one way only |
| LogFormat.FormatLength | src/log/Log.h:168-190 | length of the result: format plus arguments minus two for each placeholder that got an argument |
| LogFormat.FewArguments | src/log/Log.h:176-184 | `a{}b{}` with one argument |
| LogFormat.ManyArguments | src/log/Log.h:185-188 | `{}-` with three |
| LogQueues.LogQueue.constructor | src/log/Log.h:65-69 | empty and not shut down |
| LogQueues.LogQueue.PushMessage | src/log/Log.h:42-48 | appended; a sleeping consumer is woken when the size has become one, and only then |
| LogQueues.LogQueue.PopMessage | src/log/Log.h:49-58 | sleeps, ends with false, or takes the oldest message |
| LogQueues.LogQueue.ShutDown | src/log/Log.h:59-63 | the flag is set and a sleeping consumer woken |
| LogQueues.StepKeepsInv | src/log/Log.h:42-63 | every critical section and wake-up keeps: a sleeping consumer has nothing to do; written, in flight and queued make up what was pushed |
| LogQueues.RunKeepsInv | src/log/Log.h:42-63 | over every run |
| LogQueues.RunRecords | src/log/Log.h:42-63 | every message pushed gets into the queue, in order, and no other; the flag says whether there has been a shutdown |
| LogQueues.LogRun | src/log/Log.h:160-165 | in every run the file holds a prefix of the messages of its pushes, no wake-up is lost, and a `pop` that returns false finds everything written |
| LogQueues.Drains | src/log/Log.h:82-87 | after a shutdown the consumer alone writes everything left and ends, in a bounded number of steps |
| ThreadPools.ThreadPool.constructor | src/header/ThreadPool.cpp:7-10 | no task, all workers heading for the dequeue |
| ThreadPools.ThreadPool.CommitTask | src/header/ThreadPool.h:30-34 | the task is appended and one sleeping worker woken, if there is one |
| ThreadPools.ThreadPool.TakeTask | src/header/ThreadPool.cpp:27-37 | a worker sleeps when there is no task, and takes the oldest otherwise |
| ThreadPools.StepKeepsInv | src/header/ThreadPool.cpp:24-39 | every step keeps: with a worker asleep there are at least as many heading for the dequeue as tasks queued; tasks started and queued make up those committed |
| ThreadPools.RunKeepsInv | src/header/ThreadPool.cpp:24-39 | over every run |
| ThreadPools.NotStranded | src/header/ThreadPool.cpp:24-39 | with more threads than sub-servers a queued task always has a worker that will look at the queue |
| ThreadPools.RunCommits | src/header/ThreadPool.h:30-34 | every committed task gets into the pool, in order, and no other |
| ThreadPools.PoolRun | src/header/ThreadPool.cpp:24-39 | in every run the tasks started and those queued are, in this order, the tasks of its commits; sub-server loops take at most their own number of workers; nothing is stranded |
| ThreadPools.QueueDrains | src/header/ThreadPool.cpp:24-39 | with more threads than sub-servers the workers can start every queued task, in at most two steps for each |
| ThreadPools.StrandsIff | src/header/ReactorMainServer.cpp:42-47 | some run strands work if and only if there are no more threads than sub-servers |
| Reactor.Hash | src/header/ReactorMainServer.cpp:63-65 | a descriptor belongs to the sub-server that its remainder by their number names, and there is one |
| Reactor.Epoll.UpdateChannel | src/header/Epoll.cpp:30-45 | ADD the first time, MOD afterwards; the flag is set when it succeeds, and a failure changes nothing |
| Reactor.Epoll.RemoveChannel | src/header/Epoll.cpp:47-53 | fails exactly for a descriptor that is not registered; others stay |
| Reactor.Epoll.Start | src/header/Epoll.cpp:55-77 | the channels of the events in order, each with its own ready mask |
| Reactor.Channel.constructor | src/header/Channel.cpp:10-11 | no mask, no callback, not in epoll; in the channel's invariant exactly when its descriptor is not registered yet |
| Reactor.Channel.Reset | src/header/Channel.cpp:52-55 | never fails, arms the channel under the new mask, leaves other registrations alone |
| Reactor.Channel.EnableRead | src/header/Channel.cpp:57-60 | the same, with IN and PRI added |
| Reactor.Channel.DisableRead | src/header/Channel.cpp:62-65 | the same, with IN and PRI taken out |
| Reactor.Channel.SetOneShot | src/header/Channel.cpp:43-50 | the same, with ONESHOT added or taken out |
| Reactor.Channel.HandleEvent | src/header/Channel.cpp:87-115 | which callback runs for which ready mask; never more than one |
| Reactor.ConnectionTable.Insert | src/header/ReactorMainServer.cpp:27-32 | a missing key is bound, a present one keeps its entry |
| Reactor.ConnectionTable.Erase | src/header/ReactorMainServer.cpp:33-38 | only this key goes |
| ConnectionIo.Connection.RecvMessage | src/header/Connection.cpp:72-98 | the loop goes on exactly over data and interruptions; exactly the received chunks are appended, in order; true exactly on EAGAIN; on an error or the end of input one close and false |
| ConnectionIo.ChunksJoin | src/header/Connection.cpp:77-80 | the received chunks come in the order of the results |
| ConnectionIo.Connection.SendMessage | src/header/Connection.cpp:50-70 | the bytes sent are a prefix of the buffer; the loop ends exactly when all are sent or on EAGAIN or an error; exactly one close on every exit |
| ConnectionIo.TotalSentJoin | src/header/Connection.cpp:66-67 | what is sent adds up over the results |
| LifecycleProofs.AddFindsFree | src/header/Epoll.cpp:39-44 | the ADD of a new connection cannot meet an occupied descriptor |
| LifecycleProofs.InsertFindsFree | src/header/ReactorMainServer.cpp:29-31 | the insert never meets an occupied key |
| LifecycleProofs.DeleteFindsOwn | src/header/ReactorMainServer.cpp:35 | the DEL of a closing connection finds its own registration |
| LifecycleProofs.EraseFindsOwn | src/header/ReactorMainServer.cpp:36-37 | the erase removes the closing connection's entry or none |
| LifecycleProofs.AcceptKeeps | src/header/ReactorSubServer.cpp:31-32 | a new connection under any descriptor that is not open keeps the invariant |
| LifecycleProofs.RegisterKeeps | src/header/Connection.cpp:23 | so does its registration, from which on events may fire |
| LifecycleProofs.SetterKeeps | src/header/ReactorSubServer.cpp:31-34 | so do setting the flag, the three callbacks and the weak pointer, one by one |
| LifecycleProofs.InsertKeeps | src/header/ReactorMainServer.cpp:28-32 | so does the table insert |
| LifecycleProofs.ReleaseKeeps | src/header/ReactorSubServer.cpp:36 | so does dropping the accepting thread's pointer, which may be the last |
| LifecycleProofs.DeliverKeeps | src/header/Epoll.cpp:70-75 | so does the delivery of any event, at any time, which disarms the registration |
| LifecycleProofs.CommitKeeps | src/header/EventLoop.cpp:23-26 | so does handing a channel to the pool |
| LifecycleProofs.DequeueKeeps | src/header/ThreadPool.cpp:35-38 | so does a worker taking a handler |
| LifecycleProofs.EnterKeeps | src/header/Channel.cpp:87-108 | so does the dispatch, also when no callback is set yet |
| LifecycleProofs.RecvKeeps | src/header/Connection.cpp:72-98 | so does every result of `recv` |
| LifecycleProofs.CallMessageKeeps | src/header/Connection.cpp:27-28 | so does calling the message callback, also when it is not set or the pointer cannot be made |
| LifecycleProofs.CallSendKeeps | src/server/HttpServer.cpp:70 | so does a callback that sends |
| LifecycleProofs.SendKeeps | src/header/Connection.cpp:53-69 | so does every turn of the send loop |
| LifecycleProofs.ReturnKeeps | src/header/Connection.cpp:28-30 | so does the end of the message callback, whether it has sent or not |
| LifecycleProofs.CallCloseKeeps | src/header/Connection.cpp:90-95 | so does calling the close callback, also when it is not set |
| LifecycleProofs.DeleteKeeps | src/header/ReactorMainServer.cpp:35 | so does the DEL |
| LifecycleProofs.EraseKeeps | src/header/ReactorMainServer.cpp:36-37 | so does the erase, also before the insert |
| LifecycleProofs.LeaveCloseKeeps | src/header/ReactorMainServer.cpp:38 | so does the end of the close callback, when the last pointer may go |
| LifecycleSafety.InitialInv | src/header/ReactorMainServer.cpp:14-26 | the server starts in the invariant, with any descriptors open |
| LifecycleSafety.StepKeepsInv | src/header/ReactorSubServer.cpp:29-36 | every step of every thread and of the kernel keeps the invariant |
| LifecycleSafety.RunKeepsInv | src/header/ReactorSubServer.cpp:29-36 | over every interleaving |
| LifecycleSafety.OnceEach | src/header/Epoll.cpp:30-53 | in every run a connection is added once, never modified, removed at most once and only after the add, gets at most one event, calls message and close callback at most once; no epoll call fails |
| LifecycleSafety.OnePlace | src/header/EventLoop.cpp:21-28 | at most one handler of a connection is waiting or running, over all loops, the pool and its workers |
| LifecycleEvents.EventInOnePlace | src/header/EventLoop.cpp:21-28 | and exactly one from the delivery of the event to the end of the handler: no event is lost |
| LifecycleEvents.HandlerAdvances | src/header/Connection.cpp:25-98 | whatever `recv` and `send` answer, a step in a handler brings it nearer to its end or repeats the system call; the other workers stay where they are |
| LifecycleEvents.HandlerEnds | src/header/Connection.cpp:25-98 | no handler is ever stuck: from any state of the invariant its worker alone can end it, in a bounded number of steps |
| LifecycleEvents.EventServed | src/header/EventLoop.cpp:21-28 | from every reached state with a worker, the loops and the workers alone can bring a delivered event to the end of its handler, in a number of steps bounded by what is waiting |
| LifecycleSafety.LivePointers | src/header/ReactorMainServer.cpp:27-38 | every channel pointer of the kernel, the loops, the pool and the workers leads to a living connection; registrations and table entries carry the open descriptor of their own connection; no two living connections share one |
| LifecycleCleanup.CleanIff | src/header/Connection.cpp:25-33 | every handled connection, in every run, is clean or leaked; it is clean if and only if the event was readable, the callback, if called, sent, and the handler missed nothing it needed of the accepting thread |
| LifecycleCleanup.RunRecorded | src/header/Connection.cpp:25-33 | the history variables say what the steps of the run have done: insert, delivery, end of the receive loop, sending |
| LifecycleCleanup.RunErased | src/header/ReactorMainServer.cpp:27-38 | the variable that records a successful erase says that insert and erase happened in this order |
| LifecycleCleanup.HandlerCourse | src/header/Connection.cpp:25-98 | in every run, for every handled connection: the message callback is called only after EAGAIN, never after an error or the end of input; with nothing missed, exactly after EAGAIN, and the close callback exactly after an error, the end of input or a callback that has sent |
| LifecycleCleanup.CleanByOrder | src/header/ReactorSubServer.cpp:29-36 | in every run a handled connection is clean if and only if its table insert came before the erase of its handler, and leaked otherwise |
| LifecycleCleanup.CleanInTime | src/header/ReactorSubServer.cpp:31-35 | once the insert is done and nothing has been missed, the clean-up depends on the event and the callback alone, in every continuation |
| LifecycleCleanup.NothingMissedYet | src/header/EventLoop.cpp:21-28 | nothing is missed before the handler begins, so an insert before that, or before the delivery, is in time |
| LifecycleSteps.StepTouches | src/header/Connection.cpp:12-34 | a step changes one connection, forwards only; a descriptor is closed just when its connection is destroyed |
| LifecycleSteps.RunLater | src/header/Connection.cpp:12-34 | over every run no connection goes back, and a handled one is not handled again |
| LifecycleCleanup.LeakedForever | src/header/ReactorMainServer.cpp:27-38 | a leaked connection stays open, without another event, in every continuation, and is in the table once the accept callback has run |
| LifecycleCleanup.EarlyHandlerLeaks | src/header/ReactorSubServer.cpp:31-35 | every connection whose handler is over before the accept callback has run is leaked |
| LifecycleLeaks.LeakHappens | src/header/Connection.cpp:23-25 | a run that leaks: the event is handled between the registration and the read callback, and nothing is done |
| LifecycleLeaks.LeakAfterReply | src/header/ReactorMainServer.cpp:27-38 | a run that leaks although everything is set: reply, one close, DEL, and an erase that comes before the insert |
| LifecycleEvents.StepConserves | src/header/ReactorMainServer.cpp:27-38 | every step keeps events findable and descriptors accounted for |
| LifecycleEvents.RunConserves | src/header/ReactorMainServer.cpp:27-38 | over every run |
| LifecycleEvents.OpenDescriptors | src/header/ReactorMainServer.cpp:27-38 | in every run the open descriptors are those the process began with and those of living connections, each of exactly one |

## Left out

- HttpContexts.HttpContext.ParaseRequest: a second call in the middle of a key or value, where `start` and `colon`, which are local, begin anew before the part they belong to; the server parses once. What follows a malformed slice.
- HttpGrammar.BodyLaw: `atoi` is unbounded and the body length is not truncated to `int`.
- HttpServer.RequestFile: the commented-out file access; the file names have no effect.
- Webbench.Bench.BuildRequest: what follows an overrun, to which C gives no meaning; 64 is MAXHOSTNAMELEN, as in Linux.
- LogFormat.FormatString: the arguments are given as strings; the conversion of a value to text is not modelled.
- LogQueues.LogRun: file output and time stamps; a written message counts as in the file.
- ThreadPools.PoolRun: the pool is not stopped (`stop_` is set without the mutex, and the server never does it); futures are not read.
- ThreadPools.QueueDrains: says what the workers can do, not that the scheduler lets them.
- LifecycleSafety.LivePointers: setting and testing `read_callback_` and the other callbacks are unsynchronised accesses of two threads to a `std::function`, which C++ leaves undefined; here each is one atomic step, and what is said of the accept window holds under this assumption.
- LifecycleSafety.OnceEach: the message callback calls `SendMessage` at most once, as the server's does.
- LifecycleCleanup.CleanIff: the last use of a connection by its handler and the end of the handler are one step.
- Reactor.Epoll.Start: retries, the time limit and failures of `epoll_wait`; `Lifecycle` delivers the events of one call one by one.
- Reactor.Channel.Reset: `EnableWrite`, `DisableWrite`, `DisableAll` and `EnableET` are the same with other bits.
- The workers of `Lifecycle` are those that run handlers; the threads that run sub-server loops are in `ThreadPools`.
- Socket, InetAddress, Accepter, Buffer, EchoClient, and `main`, `bench` and `benchcore` of webbench: thin wrappers of system calls, or one-line containers.
- `GetMethodAsStr`, `GetVersionAsStr`, `GetRequestParams` and other plain getters; `SetClose`, which changes nothing in the text.
- `GetCurrentTime`, `LogMessage` and the disabled logging macros.

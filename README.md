# Teggle index node: boundary, gate and enclave API, in Dafny

This project models the sequential core of the Teggle index node, an Intel
SGX application split into an untrusted host (`sgx/app`) and an enclave
(`sgx/enclave`), and proves properties of the model.

- **Crossing the enclave boundary.** The host enters the enclave only
  through the doorbell, a counting gate over a `u8` with recursive entries
  exempt. The host copies its bytes into the enclave with
  `ecall_allocate`. The enclave keeps each resulting handle on
  `ECALL_ALLOCATE_STACK` until `recover_buffer` takes it back. Storage
  calls go out as ocalls to a host key-value store behind the `Db` trait.
  The enclave-side wrappers map the SGX transport status and the host's
  `OcallReturn` to results. The host is not trusted, so everything it
  reports is an input to those wrappers. The honest host is composed in
  separately.
- **HTTP front end inside the enclave.** This covers:
  - the HTTP/1 codec and its date cache;
  - the raw request that accumulates bytes until its head and body are
    complete;
  - the router, with its route keys, and the route table `build_routes`
    registers, with what each handler answers behind the recovery
    middleware;
  - the error kinds and their HTTP statuses;
  - the older pipeline of `handler/mod.rs` and `dispatch.rs`.
- **Reactor bookkeeping.** This covers:
  - the bounded deferral queues of a connection and its close flags;
  - the unbounded deferral reactor;
  - the websocket's buffer of messages sent before activation;
  - the two executors' task tables with their wrapping token counters;
  - the handler context's data map and its one-shot HTTP fetch builder;
  - the session registry.

The model follows the source's form. Objects updated in place are classes:
- the doorbell, the allocation stack with its heap, and the host store;
- the raw request, the date cache, the route table and routers;
- deferrals, connections, websockets, executors, contexts, fetch builders
  and the session manager.

Their methods state the whole new state. Pure code is functions and
lemmas. Loops of the source are loops:
- the stack search in `recover_buffer`;
- the header copy in `decode`;
- the token walks in `extract_route_handler_tokens` and `Router::find`;
- the buffer flush in `activate`;
- the broadcast to subscribers.

One module per source file, one `.dfy` file per module; `Wrappers`
(Option and Result) and `Bytes` (bytes, ASCII text, decimal numbers, '/'
splitting) are shared helpers.

What the source leaves to the world is a parameter:
- which lock acquisitions, waker calls, socket and TLS writes succeed;
- whether a condvar wait times out;
- what httparse finds in a buffer;
- what a future's poll answers;
- the clock.

Where the source panics (an `unwrap` on a missing value, `u8` arithmetic
that would overflow, a slice out of range), the panic's absence is a
`requires`. The exception is a panic inside a route handler: the recovery
middleware catches it, so it is an outcome of its own.

`OcallReturn` is declared with three variants, Success, Failure and Panic
(sgx/ffi-types/src/types.rs:96-104). The code nonetheless matches on `None`
and `TooBig` (sgx/enclave/src/external/db.rs:66, sgx/app/src/enclave/ocall/db.rs:47).
The model gives it all five variants, and `FfiTypes.UndeclaredVariants`
records which two are not declared.

Where the code's own documentation and its behaviour disagree, the
model follows the code:
- **The old pipeline.** `handler/mod.rs` and `dispatch.rs` call the codec
  and response builders with signatures those no longer have. They are
  modelled by what they evidently do.
- **The ocall status.** It is the five-variant type above.

## Model

| member | source | states |
|---|---|---|
| Bytes.AsByte | sgx/app/src/enclave/doorbell.rs:79 | `n as u8` keeps the low eight bits: a value below 256 is kept, any other is reduced modulo 256 |
| Bytes.NatToString | sgx/enclave/src/api/handler/routes.rs:91 | a number is rendered as a non-empty string of decimal digits without a leading zero whose value is the number |
| Bytes.ParseUnsigned | sgx/enclave/src/api/handler/request.rs:298 | `str::parse` of an unsigned type accepts exactly an optional '+' followed by a non-empty run of digits whose value is below the type's bound, and answers that value |
| Bytes.ParseRendered | sgx/enclave/src/api/handler/request.rs:341-351 | a rendered number below the bound parses back to itself |
| Bytes.SplitSlash | sgx/enclave/src/api/handler/router.rs:144 | `split("/")` always yields at least one part (also line 376) |
| Bytes.SplitPartsHaveNoSlash | sgx/enclave/src/api/handler/router.rs:144 | no part of a split contains '/' (also line 376) |
| Bytes.JoinSplit | sgx/enclave/src/api/handler/router.rs:144 | joining the parts of a split with '/' gives the string back (also line 392) |
| Bytes.SplitJoin | sgx/enclave/src/api/handler/router.rs:376-392 | splitting parts joined with '/' gives the parts back when none contains '/' |
| Bytes.SplitAround | sgx/enclave/src/api/handler/router.rs:144 | the split of `a/b` is the split of `a` followed by the split of `b` (also line 376) |
| Bytes.SplitNoSlash | sgx/enclave/src/api/handler/router.rs:376 | a string without '/' splits into itself |
| ApiServer.ThreadCount | sgx/app/src/api/server.rs:9-15 | the worker-thread count is at most 8, at most the free capacity minus one and at most the CPU count cast to a byte, and equals one of the three |
| ApiServer.ReservationFits | sgx/app/src/api/server.rs:13-18 | the `thread_count + 1` slots the start path reserves are at least one and fit in the capacity it read |
| ApiServer.StartApiService | sgx/app/src/api/server.rs:11-35 | the ecall gets the enclave id, the NUL-terminated address and the computed thread count; a failed ecall status is only reported; the doorbell ends `thread_count` slots lower once the token is dropped |
| Doorbell.InitialCount | sgx/app/src/enclave/doorbell.rs:73-80 | the starting count is `min(TCS_NUM, cpus as u8)`: at most 12, at most the truncated CPU count, and one of the two |
| Doorbell.SlotsSeen | sgx/app/src/enclave/doorbell.rs:117-125 | a non-zero count is used as found; at zero, a timed-out wait finds no slot |
| Doorbell.EnclaveDoorbell.constructor | sgx/app/src/enclave/doorbell.rs:99-106 | the doorbell starts with the loaded enclave and the initial count |
| Doorbell.EnclaveDoorbell.WaitFor | sgx/app/src/enclave/doorbell.rs:108-130 | a recursive request is always granted and leaves the count alone; a non-recursive one that finds no slot after waiting is refused; otherwise it is granted and the count drops by `reserve` |
| Doorbell.EnclaveDoorbell.GetAccess | sgx/app/src/enclave/doorbell.rs:132-134 | as `WaitFor` with one slot reserved |
| Doorbell.EnclaveDoorbell.GetAccessFor | sgx/app/src/enclave/doorbell.rs:136-138 | as `WaitFor` with `reserve` slots and the lock timeout |
| Doorbell.EnclaveDoorbell.Capacity | sgx/app/src/enclave/doorbell.rs:140-144 | answers the current count and changes nothing |
| Doorbell.EnclaveDoorbell.Drop | sgx/app/src/enclave/doorbell.rs:173-187 | dropping a non-recursive token adds exactly one slot back, whatever it reserved; a recursive token changes nothing |
| Doorbell.EnclaveDoorbell.DropReserved | sgx/app/src/enclave/doorbell.rs:136-138 | the release matching `get_access_for`: all reserved slots come back |
| Doorbell.ReserveThenDrop | sgx/app/src/enclave/doorbell.rs:127 | as written, reserving `reserve` slots and dropping the token leaves the count `reserve - 1` below where it started |
| Doorbell.ReserveThenDropReserved | sgx/app/src/enclave/doorbell.rs:127 | with the matching release, reserving then dropping restores the count |
| Ecalls.FindFromTop | sgx/enclave/src/external/ecalls.rs:86-94 | finds the entry for the pointer nearest the top of the stack, or reports that no entry holds it |
| Ecalls.SwapRemove | sgx/enclave/src/external/ecalls.rs:95 | `swap_remove` removes exactly one occurrence of the element, keeps every other position, and moves the last element into the gap |
| Ecalls.EnclaveHeap.constructor | sgx/enclave/src/external/ecalls.rs:17-19 | the allocation stack starts empty with no live boxes |
| Ecalls.EnclaveHeap.Allocate | sgx/enclave/src/external/ecalls.rs:36-71 | a failed OOM-handler registration, pointer check or copy returns the null handle and changes nothing; otherwise the copy of the host bytes is boxed under a fresh address pushed on the stack, and the caller gets that handle unless restoring the safety buffer fails |
| Ecalls.EnclaveHeap.Recover | sgx/enclave/src/external/ecalls.rs:79-101 | a null handle gives `Ok(None)`; a handle not on the stack is refused with nothing changed; otherwise the topmost entry is swap-removed, the handle leaves the stack, and the boxed bytes are handed back and freed |
| HostAllocate.AllocateEnclaveBuffer | sgx/app/src/enclave/allocate.rs:9-36 | recursive access leaves the doorbell count alone; a failing transport status comes back unchanged with the heap untouched; on success the result is the handle the enclave wrote, and the new box holds exactly the caller's bytes |
| FfiTypes.EnclaveBuffer.UnsafeClone | sgx/ffi-types/src/types.rs:18-24 | a second handle to the same allocation |
| FfiTypes.DefaultEnclaveBuffer | sgx/ffi-types/src/types.rs:29-35 | the default handle is the null pointer |
| FfiTypes.Ctx.UnsafeClone | sgx/ffi-types/src/types.rs:43-49 | a second handle to the same storage context |
| FfiTypes.DefaultHealthCheck | sgx/ffi-types/src/types.rs:85-89 | the default health-check result is `Success` |
| FfiTypes.OcallReturn.Name | sgx/ffi-types/src/types.rs:95-104 | every status has a non-empty `{:?}` name |
| FfiTypes.UndeclaredVariants | sgx/ffi-types/src/types.rs:96-104 | the declared variants are exactly Success, Failure and Panic, so `None` and `TooBig` are not among them |
| FfiTypes.NamesDistinct | sgx/ffi-types/src/types.rs:95-104 | distinct statuses have distinct names, so an error message identifies its status |
| EnclaveDb.DbError.Message | sgx/enclave/src/external/db.rs:30 | the error texts are "<ocall> returned <status>" and "Failed to recover enclave buffer" (also lines 60, 68, 101, 122) |
| EnclaveDb.CheckUnitCall | sgx/enclave/src/external/db.rs:23-32 | a unit ocall succeeds exactly when both the transport and the ocall report success; the transport status is checked first and its failure comes back as its own text |
| EnclaveDb.DbPut | sgx/enclave/src/external/db.rs:11-33 | `db_put` is Ok exactly when transport and ocall both succeed; an ocall failure reads "ocall_db_put returned <status>" |
| EnclaveDb.DbFlush | sgx/enclave/src/external/db.rs:107-125 | `db_flush` is Ok exactly when transport and ocall both succeed; an ocall failure reads "ocall_db_flush returned <status>" |
| EnclaveDb.DbGet | sgx/enclave/src/external/db.rs:36-71 | transport failure, `None`, other statuses and recovery failure each give their result and leave the heap unchanged; on `Success` with a live handle the stored bytes come back and that handle is swap-removed from the allocation stack and freed |
| EnclaveDb.ZeroFilled | sgx/enclave/src/external/db.rs:76-84 | the `max_bytes` buffer holds what the host wrote at its start and zeros after |
| EnclaveDb.Truncate | sgx/enclave/src/external/db.rs:95 | `truncate` keeps a prefix of length `min(len, current)` and never lengthens |
| EnclaveDb.FixedValueShape | sgx/enclave/src/external/db.rs:76-97 | the value `db_get_fixed` returns has `min(value_len, max_bytes)` bytes, the host's bytes where it wrote and zeros elsewhere |
| EnclaveDb.DbGetFixed | sgx/enclave/src/external/db.rs:74-104 | as written: transport failure, `None` and other statuses map as in `db_get`; on `Success` the zero-filled buffer is truncated to the reported length, which is not checked against `max_bytes` |
| EnclaveDb.DbGetFixedChecked | sgx/enclave/src/external/db.rs:93-98 | corrected: a reported length above `max_bytes` is refused, so every returned value has exactly the reported length |
| EnclaveDb.OversizeReportedLength | sgx/enclave/src/external/db.rs:95 | a host reporting 100 bytes for a 4-byte buffer gets four zero bytes accepted as the value as written, and a refusal from the corrected wrapper |
| EnclaveDb.HonestGetFixed | sgx/app/src/enclave/ocall/db.rs:33-60 | against the honest host: the stored value when it fits, an error naming `TooBig` when it does not, `None` for an absent key |
| EnclaveDb.HonestGet | sgx/app/src/enclave/ocall/db.rs:9-29 | against the honest host: the stored value or `None`, with the allocation stack, the heap and the doorbell count back where they started |
| EnclaveDb.UpdateThenRemove | sgx/enclave/src/external/ecalls.rs:99-100 | boxing a value at a fresh address and freeing it leaves the heap as it was |
| EnclaveDb.RemoveJustPushed | sgx/enclave/src/external/ecalls.rs:87-95 | swap-removing the topmost entry, when it is the one just pushed, undoes the push |
| EnclaveDb.HonestPut | sgx/app/src/enclave/ocall/db.rs:78-91 | against the honest host, `db_put` stores the value and answers Ok |
| EnclaveDb.HonestFlush | sgx/app/src/enclave/ocall/db.rs:95-101 | against the honest host, `db_flush` answers Ok |
| HostDb.KvStore.constructor | sgx/app/src/traits.rs:33-44 | the store starts empty |
| HostDb.KvStore.Get | sgx/app/src/traits.rs:37 | `get` answers the stored value exactly for present keys |
| HostDb.KvStore.Put | sgx/app/src/traits.rs:39 | `put` maps the key to the value |
| HostDb.KvStore.Delete | sgx/app/src/traits.rs:41 | `delete` removes the key |
| HostDb.OcallDbGet | sgx/app/src/enclave/ocall/db.rs:9-29 | an absent key answers `None` and writes nothing; a present value is copied into a new enclave buffer whose handle is written out with `Success`; the doorbell count is unchanged |
| HostDb.OcallDbGetFixed | sgx/app/src/enclave/ocall/db.rs:33-60 | an absent key answers `None`, a value longer than the buffer answers `TooBig`, and neither writes anything; otherwise the value is copied to the buffer's start and its length reported with `Success` |
| HostDb.OcallDbDelete | sgx/app/src/enclave/ocall/db.rs:64-74 | removes the key, present or not, and answers `Success` |
| HostDb.OcallDbPut | sgx/app/src/enclave/ocall/db.rs:78-91 | stores the value under the key and answers `Success` |
| HostDb.OcallDbFlush | sgx/app/src/enclave/ocall/db.rs:95-101 | answers `Success` and leaves the contents alone |
| Results.NewResponseBody | sgx/enclave/src/api/results.rs:19-21 | a new body keeps the connection open |
| Results.NewResponseBodyWithClose | sgx/enclave/src/api/results.rs:31-33 | the body and the close flag are as given |
| Results.DummyResponseBody | sgx/enclave/src/api/results.rs:24-29 | the canned PONG response closes the connection and carries the fixed head and payload |
| Results.DummyContentLengthMatches | sgx/enclave/src/api/results.rs:26 | the canned response's Content-Length of 18 is the length of its payload |
| Results.ErrorKind.Name | sgx/enclave/src/api/results.rs:68-83 | every kind displays as a non-empty name |
| Results.CanonicalReason | sgx/enclave/src/api/results.rs:110-123 | exactly the status codes the server uses have a reason phrase |
| Results.StatusText | sgx/enclave/src/api/results.rs:133 | a status displays as non-empty text |
| Results.HttpStatus | sgx/enclave/src/api/results.rs:110-123 | the status table is total; it is 5xx exactly for the server-side kinds, 4xx exactly for WSFault, TimedOut and PayloadTooLarge, and below 400 only for WSClosed; each code is pinned to its kinds in both directions |
| Results.Error.Kind | sgx/enclave/src/api/results.rs:125-127 | the kind the error was built with |
| Results.Error.ToString | sgx/enclave/src/api/results.rs:130-135 | the text starts with the kind's name and "[", and ends with the message |
| Results.NewError | sgx/enclave/src/api/results.rs:92-94 | a plain error is a server fault, answered 500 |
| Results.NewErrorWithKind | sgx/enclave/src/api/results.rs:96-101 | the kind and message are as given |
| Results.NewWsClosed | sgx/enclave/src/api/results.rs:103-108 | a closed websocket has an empty message and status 226 |
| Results.TooManyBytesErr | sgx/enclave/src/api/results.rs:139-144 | "too many bytes sent (bytes > max)", a PayloadTooLarge answered 413 |
| Results.CaughtErrToStr | sgx/enclave/src/api/results.rs:146-155 | a String or &str payload is its own text; anything else is "**UNKNOWN**" |
| Codec.Version.Text | sgx/enclave/src/api/handler/codec.rs:40-45 | the version in the status line is eight characters starting "HTTP/" |
| Codec.ByteBuf.constructor | sgx/enclave/src/api/handler/codec.rs:66 | a buffer holds the bytes it was made from |
| Codec.Digit | sgx/enclave/src/api/handler/codec.rs:223 | a rendered digit is a decimal digit |
| Codec.Pad2 | sgx/enclave/src/api/handler/codec.rs:223 | two-digit date fields are two characters |
| Codec.Pad4 | sgx/enclave/src/api/handler/codec.rs:223 | the year field is four characters |
| Codec.CalendarPart | sgx/enclave/src/api/handler/codec.rs:223 | the weekday, day, month and year part of a date is 17 characters |
| Codec.ClockPart | sgx/enclave/src/api/handler/codec.rs:223 | the clock part of a date is 8 characters |
| Codec.HttpDateOf | sgx/enclave/src/api/handler/codec.rs:220-224 | a rendered date is 29 characters and ends in " GMT" |
| Codec.Pad2Value | sgx/enclave/src/api/handler/codec.rs:223 | two digits below 100 read back as their value |
| Codec.ClockReadsBack | sgx/enclave/src/api/handler/codec.rs:223 | the hour, minute and second fields read back as those of the second of the day |
| Codec.TimeOfDayReadsBack | sgx/enclave/src/api/handler/codec.rs:198-213 | the clock fields of a rendered date read back as the second of the day of the Unix time |
| Codec.WeekdayLeads | sgx/enclave/src/api/handler/codec.rs:220-224 | a rendered date starts with the weekday name of its day count, 1970-01-01 being a Thursday |
| Codec.EpochIsJanFirst1970 | sgx/enclave/src/api/handler/codec.rs:220-224 | day 0 of the calendar conversion is 1 January 1970 |
| Codec.Day9075IsNov6th1994 | sgx/enclave/src/api/handler/codec.rs:220-224 | day 9075 of the calendar conversion is 6 November 1994 |
| Codec.RfcExampleCalendar | sgx/enclave/src/api/handler/codec.rs:223 | the calendar part of day 9075 is "Sun, 06 Nov 1994 " |
| Codec.RfcExampleClock | sgx/enclave/src/api/handler/codec.rs:223 | the clock part of second 31777 is "08:49:37" |
| Codec.RfcExampleDate | sgx/enclave/src/api/handler/codec.rs:220-224 | Unix time 784111777 renders as "Sun, 06 Nov 1994 08:49:37 GMT", the example of section 7.1.1.1 of RFC 7231 |
| Codec.DateBytes | sgx/enclave/src/api/handler/codec.rs:216-218 | the Date header value is 29 bytes |
| Codec.DateCache.constructor | sgx/enclave/src/api/handler/codec.rs:186-196 | the cache starts empty at second 0 |
| Codec.DateCache.WriteStr | sgx/enclave/src/api/handler/codec.rs:230-236 | the bytes are copied at `amt`, which advances by their length, and nothing else in the buffer changes |
| Codec.DateCache.Update | sgx/enclave/src/api/handler/codec.rs:220-224 | after an update the buffer holds the rendered date of the given second |
| Codec.DateCache.Now | sgx/enclave/src/api/handler/codec.rs:198-213 | the same second reuses the cached bytes untouched; a new second re-renders; the answer is the date of the current second whenever that is not 0 |
| Codec.AppendHeaderLines | sgx/enclave/src/api/handler/codec.rs:54-59 | one "name: value\r\n" line per header is appended, in order |
| Codec.Encode | sgx/enclave/src/api/handler/codec.rs:29-64 | encoding always succeeds and appends exactly the status line, Server, Content-Length and Date lines, the header lines and a blank line, with the cached date when the second is unchanged |
| Codec.HeadEndsWithBlankLine | sgx/enclave/src/api/handler/codec.rs:61 | every encoded head ends in "\r\n\r\n" |
| Codec.ContentLengthReadsBack | sgx/enclave/src/api/handler/codec.rs:37-49 | the Content-Length line follows the status and Server lines, and its digits read back as the caller's length |
| Codec.VersionOf | sgx/enclave/src/api/handler/codec.rs:110-119 | minor 0 is HTTP/1.0 and minor 1 is HTTP/1.1; any other version is a DecodeFault "only HTTP/1.0 or 1.1 accepted" |
| Codec.DecodeResult | sgx/enclave/src/api/handler/codec.rs:66-133 | an httparse error is a DecodeFault, an incomplete head is Ok(None), a bad version or header value is a DecodeFault, and otherwise the head is built with method, path, version and headers; a decoded version is always 1.0 or 1.1 |
| Codec.Decode | sgx/enclave/src/api/handler/codec.rs:66-133 | answers `DecodeResult` and cuts the complete head off the buffer, even when the version is then refused; without a complete head the buffer is untouched |
| Request.HeaderIndex | sgx/enclave/src/api/handler/request.rs:455 | the header found is the first whose name equals the key ignoring ASCII case, and None means no header has that name |
| Request.HeaderText | sgx/enclave/src/api/handler/request.rs:455-456 | a header is readable as text exactly when it is present and its value is tab or visible ASCII, and the text is that value |
| Request.HasHeaderWholeValue | sgx/enclave/src/api/handler/request.rs:454-464 | `has_header` compares the whole value: a match implies the header exists and its value is exactly as long as the expected text |
| Request.HasHeader | sgx/enclave/src/api/handler/request.rs:454-464 | true exactly when the first header named `key` has a visible-ASCII value equal to `val` ignoring ASCII case |
| Request.HasHeaderFirstOnly | sgx/enclave/src/api/handler/request.rs:454-464 | when the first header carries the name, it alone decides: whatever later headers hold, the answer is whether its own value matches |
| Request.Request.HeaderValue | sgx/enclave/src/api/handler/request.rs:354-363 | `header::<String>` finds a value exactly when the first header of the name is present with visible ASCII, and the value is that header's own text; the values `has_header` matches are those equal to it ignoring ASCII case |
| Request.HasHeaderIgnoresCase | sgx/enclave/src/api/handler/request.rs:457 | the comparison ignores ASCII case: a value that matches one spelling matches every spelling equal to it ignoring case |
| Request.KeepAliveExamples | sgx/enclave/src/api/handler/request.rs:371-374 | "Connection: Keep-Alive" matches "keep-alive"; a token list such as "keep-alive, Upgrade" does not (also lines 454-464) |
| Request.Request.WithVars | sgx/enclave/src/api/handler/request.rs:336-338 | `vars` stores the captures and leaves head, body and websocket flag as they were |
| Request.Request.Var | sgx/enclave/src/api/handler/request.rs:341-351 | `var::<String>` is Some exactly when variables were set and hold the key, and then yields that variable |
| Request.Request.VarU32 | sgx/enclave/src/api/handler/request.rs:341-351 | `var::<u32>` yields a number exactly when the variable exists and its text parses as a `u32`, and that number is the parsed value |
| Request.Request.ShouldKeepAlive | sgx/enclave/src/api/handler/request.rs:371-374 | any version other than HTTP/1.0 keeps the connection; HTTP/1.0 keeps it iff "Connection: keep-alive" is present |
| Request.VarReadsCapture | sgx/enclave/src/api/handler/request.rs:336-351 | a variable stored by the router is read back by `var` |
| Request.ContentLengthOf | sgx/enclave/src/api/handler/request.rs:291-305 | the cached length is the Content-Length header read as a `usize` when it is readable, is 0 otherwise, and never exceeds `usize::MAX` |
| Request.RawRequest.Init | sgx/enclave/src/api/handler/request.rs:166-174 | a new raw request holds the first bytes, counts them, has no head and stores the deadline |
| Request.RawRequest.TryDecode | sgx/enclave/src/api/handler/request.rs:261-271 | a head already decoded is kept and no bytes are taken; otherwise a decode error is returned, or the decoded head is stored and exactly the head's bytes are removed from the buffer; the byte count and deadline never change |
| Request.RawRequest.ExtractUpgradeOpts | sgx/enclave/src/api/handler/request.rs:278-288 | the websocket flag becomes set when the head asks for "Connection: upgrade" and "Upgrade: websocket" and is never cleared |
| Request.RawRequest.ExtractContentLength | sgx/enclave/src/api/handler/request.rs:290-305 | the length is reset and then taken from a Content-Length that parses as a `usize`, else 0 |
| Request.RawRequest.Next | sgx/enclave/src/api/handler/request.rs:180-188 | the new bytes are counted and appended (nothing is lost between head and buffer), then decoding is tried again with the same outcomes as `try_decode` |
| Request.RawRequest.Push | sgx/enclave/src/api/handler/request.rs:273-276 | the bytes are appended to the buffer and nothing else changes |
| Request.RawRequest.Len | sgx/enclave/src/api/handler/request.rs:190-193 | `len` is the number of all bytes fed through `new` and `next` |
| Request.RawRequest.IsUpgradeWebsocket | sgx/enclave/src/api/handler/request.rs:195-198 | the flag is set iff the decoded head asks for a websocket upgrade |
| Request.RawRequest.Ready | sgx/enclave/src/api/handler/request.rs:200-213 | ready iff a head is decoded and the buffered body is at least the announced length |
| Request.RawRequest.CheckTimeout | sgx/enclave/src/api/handler/request.rs:228-237 | true iff `now` is strictly after the deadline |
| Request.RawRequest.Validate | sgx/enclave/src/api/handler/request.rs:239-257 | no head is a ServerFault with the source's message, an announced length above the limit is `too_many_bytes_err`, and the result is Ok iff there is a head within the limit |
| Request.RawRequest.Extract | sgx/enclave/src/api/handler/request.rs:215-226 | a request comes out iff a head is decoded; its body is the buffered bytes, which are exactly what followed the head, with the cached websocket flag and no variables |
| Request.NewRawRequest | sgx/enclave/src/api/handler/request.rs:165-178 | a decode error is returned as is; otherwise the raw request holds all the bytes read, the deadline and the decoded head, and the buffer keeps what follows the head |
| Router.TrimLeadingSlash | sgx/enclave/src/api/handler/router.rs:395-407 | exactly one leading '/' is removed when present; any other path comes back unchanged |
| Router.NonEmpty | sgx/enclave/src/api/handler/router.rs:144-146 | the parts kept are all non-empty and no more than were given |
| Router.NonEmptyAppend | sgx/enclave/src/api/handler/router.rs:144-146 | filtering out empty parts distributes over concatenation, so segments are kept in order (also lines 376-377) |
| Router.SegmentsAreClean | sgx/enclave/src/api/handler/router.rs:144-146 | every segment of a path is non-empty and contains no '/' (also lines 376-377) |
| Router.SegmentsAround | sgx/enclave/src/api/handler/router.rs:144-146 | the segments of `a/b` are those of `a` followed by those of `b` (also line 376) |
| Router.SegmentsOfTrimmed | sgx/enclave/src/api/handler/router.rs:143-146 | trimming the leading '/' never changes which segments a path has (also line 371) |
| Router.TokenOf | sgx/enclave/src/api/handler/router.rs:379-389 | a segment is a capture iff it starts with ':', and then its name is the rest; any other segment is a literal of itself |
| Router.TokensOf | sgx/enclave/src/api/handler/router.rs:376-390 | one token per segment, in order |
| Router.KeyParts | sgx/enclave/src/api/handler/router.rs:380-385 | one key part per token, in order: the literal itself or the capture placeholder |
| Router.ExtractStep | sgx/enclave/src/api/handler/router.rs:376-390 | one more part of the split path adds no token when empty, and otherwise exactly its own token |
| Router.ExtractRouteHandlerTokens | sgx/enclave/src/api/handler/router.rs:367-393 | the loop builds exactly one token per non-empty segment of the trimmed path, and the key is the method and the key parts joined with '/' |
| Router.KeyPartsClean | sgx/enclave/src/api/handler/router.rs:374-392 | no part of a key contains '/', so joining the parts loses nothing |
| Router.SameKeyIffSameShape | sgx/enclave/src/api/handler/router.rs:374-392 | two routes share a key iff they have the same method and the same literals and capture positions: routes differing only in capture names collide |
| Router.PathPush | sgx/enclave/src/api/handler/router.rs:226-227 | `PathBuf::push` of an absolute path replaces the base |
| Router.PushPath | sgx/enclave/src/api/handler/router.rs:220-232 | at top level the path is used as given; inside a scope it must start with '/' (the `unwrap`) |
| Router.ScopedSegments | sgx/enclave/src/api/handler/router.rs:220-232 | a route registered in a scope has the scope's segments followed by its own |
| Router.PushSegments | sgx/enclave/src/api/handler/router.rs:226-227 | pushing a relative path appends its segments to the base's |
| Router.PushAfterSlash | sgx/enclave/src/api/handler/router.rs:226-227 | a base already ending in '/' is joined without a new separator and keeps its segments |
| Router.NewRouteHandler | sgx/enclave/src/api/handler/router.rs:298-314 | a route handler carries the route's key, method, tokens, handler and middleware |
| Router.CapturesOf | sgx/enclave/src/api/handler/router.rs:171-173 | the captures bind exactly the capture names of the route, each to the segment in its position |
| Router.CapturesOfLastWins | sgx/enclave/src/api/handler/router.rs:160-173 | when a capture name occurs more than once in a route, the last occurrence's segment is the one bound |
| Router.MatchTokens | sgx/enclave/src/api/handler/router.rs:159-182 | the token walk is skipped iff some literal differs from its segment; otherwise the captures collected are those of the route |
| Router.RouteTable.AddRouteFromTop | sgx/enclave/src/api/handler/router.rs:255-286 | a key already in the table is a panic (excluded); otherwise the table gains exactly the new route under its key |
| Router.RouteTable.Find | sgx/enclave/src/api/handler/router.rs:136-197 | the route found is the first in iteration order with the same method, as many tokens as request segments and matching literals, with its captures; None iff no route matches |
| Router.Router.constructor | sgx/enclave/src/api/handler/router.rs:51-66 | a new router has a fresh empty table, no scope and no middleware |
| Router.Router.Route | sgx/enclave/src/api/handler/router.rs:68-79 | a sub-router shares the table, has the pushed scope path and starts with a copy of the middleware |
| Router.Router.Require | sgx/enclave/src/api/handler/router.rs:81-92 | the middleware is appended after what was already required |
| Router.Router.Handle | sgx/enclave/src/api/handler/router.rs:234-253 | the route is added to the shared table under the pushed path with this router's middleware (also lines 130-134) |
| Router.Router.Get | sgx/enclave/src/api/handler/router.rs:94-98 | `handle` with method GET |
| Router.Router.Put | sgx/enclave/src/api/handler/router.rs:100-104 | `handle` with method PUT |
| Router.Router.Post | sgx/enclave/src/api/handler/router.rs:106-110 | `handle` with method POST |
| Router.Router.Delete | sgx/enclave/src/api/handler/router.rs:112-116 | `handle` with method DELETE |
| Router.Router.Patch | sgx/enclave/src/api/handler/router.rs:118-122 | `handle` with method PATCH |
| Router.Router.Head | sgx/enclave/src/api/handler/router.rs:124-128 | `handle` with method HEAD |
| Router.RouteRequest | sgx/enclave/src/api/handler/router.rs:24-41 | with no matching route the answer is 404 "Not Found"; otherwise the matched route runs with its captures |
| RouteKeys.NonEmptyOfClean | sgx/enclave/src/api/handler/router.rs:376-377 | a path with no empty part keeps all its parts |
| RouteKeys.RouteKey | sgx/enclave/src/api/handler/router.rs:367-393 | a route path of clean parts has one token per part, and its key is the method and the parts' key parts joined with '/' |
| RouteKeys.PlainPart | sgx/enclave/src/api/handler/router.rs:384-388 | a segment not starting with ':' is a literal token and its own key part |
| RouteKeys.CapturePart | sgx/enclave/src/api/handler/router.rs:379-383 | a segment ":name" is a capture of that name, keyed by the placeholder |
| RouteKeys.Key1 | sgx/enclave/src/api/handler/router.rs:367-393 | the tokens and key of a one-segment route path |
| RouteKeys.Key2 | sgx/enclave/src/api/handler/router.rs:367-393 | the tokens and key of a two-segment route path |
| RouteKeys.Key3 | sgx/enclave/src/api/handler/router.rs:367-393 | the tokens and key of a three-segment route path |
| RouteKeys.PlainKey1 | sgx/enclave/src/api/handler/router.rs:367-393 | "/a" has one literal token and key "m/a" |
| RouteKeys.PlainKey2 | sgx/enclave/src/api/handler/router.rs:367-393 | "/a/b" has two literal tokens and key "m/a/b" |
| RouteKeys.CaptureKey2 | sgx/enclave/src/api/handler/router.rs:367-393 | "/a/:n" has a literal and a capture, and key "m/a/*CAPTURE*" |
| RouteKeys.CaptureKey3 | sgx/enclave/src/api/handler/router.rs:367-393 | "/a/:n1/:n2" has a literal and two captures, and key "m/a/*CAPTURE*/*CAPTURE*" |
| RouteKeys.TestPingKey | sgx/enclave/src/api/handler/routes.rs:27-35 | GET "/ping" in the "/test" scope has key "GET/test/ping" and two literal tokens |
| RouteKeys.TestPanicKey | sgx/enclave/src/api/handler/routes.rs:27-39 | GET "/panic" in the "/test" scope has key "GET/test/panic" |
| RouteKeys.TestPostKey | sgx/enclave/src/api/handler/routes.rs:27-43 | POST "/post" in the "/test" scope has key "POST/test/post" |
| RouteKeys.TestFetchKey | sgx/enclave/src/api/handler/routes.rs:27-56 | GET "/fetch" in the "/test" scope has key "GET/test/fetch" |
| RouteKeys.PingKey | sgx/enclave/src/api/handler/routes.rs:75 | top-level GET "/ping" has key "GET/ping" |
| RouteKeys.HelloKey | sgx/enclave/src/api/handler/routes.rs:79 | GET "/hello/:name" has key "GET/hello/*CAPTURE*" and captures `name` |
| RouteKeys.CalcKey | sgx/enclave/src/api/handler/routes.rs:86 | GET "/calc/:a/:b" has key "GET/calc/*CAPTURE*/*CAPTURE*" and captures `a` then `b` |
| RouteKeys.WsKey | sgx/enclave/src/api/handler/routes.rs:94 | GET "/ws" has key "GET/ws" |
| Routes.RegisterTestPing | sgx/enclave/src/api/handler/routes.rs:35-37 | registering "/ping" in the "/test" scope adds exactly the entry "GET/test/ping" with the scope's middleware |
| Routes.RegisterTestPanic | sgx/enclave/src/api/handler/routes.rs:39-41 | registering "/panic" in the "/test" scope adds exactly the entry "GET/test/panic" |
| Routes.RegisterTestPost | sgx/enclave/src/api/handler/routes.rs:43-54 | registering "/post" in the "/test" scope adds exactly the entry "POST/test/post" |
| Routes.RegisterTestFetch | sgx/enclave/src/api/handler/routes.rs:56-72 | registering "/fetch" in the "/test" scope adds exactly the entry "GET/test/fetch" |
| Routes.RegisterPing | sgx/enclave/src/api/handler/routes.rs:75-77 | registering "/ping" at top level adds exactly the entry "GET/ping" |
| Routes.RegisterHello | sgx/enclave/src/api/handler/routes.rs:79-84 | registering "/hello/:name" adds exactly the entry "GET/hello/*CAPTURE*" |
| Routes.RegisterCalc | sgx/enclave/src/api/handler/routes.rs:86-92 | registering "/calc/:a/:b" adds exactly the entry "GET/calc/*CAPTURE*/*CAPTURE*" |
| Routes.RegisterWs | sgx/enclave/src/api/handler/routes.rs:94-104 | registering "/ws" adds exactly the entry "GET/ws" |
| Routes.RegisterTestScope | sgx/enclave/src/api/handler/routes.rs:27-73 | the "/test" scope adds the test middleware after recovery and registers its four routes, all prefixed with "/test" |
| Routes.BuildRoutes | sgx/enclave/src/api/handler/routes.rs:22-107 | the table holds exactly the eight expected keys with their tokens, handlers and middleware ([recovery, test-inserter] under "/test", [recovery] at top level); no key is registered twice, so the duplicate panic never fires |
| Routes.AddU32 | sgx/enclave/src/api/handler/routes.rs:91 | `a + b` on `u32`: the sum when it fits; past `u32::MAX` a panic with overflow checks, the wrapped sum without them |
| Routes.SumAnswer | sgx/enclave/src/api/handler/routes.rs:88-91 | the /calc answer either replies or panics |
| Routes.Answer | sgx/enclave/src/api/handler/routes.rs:35-104 | only the panic, hello and calc handlers can panic; only post, fetch and ws can fail; ws never replies with a message |
| Routes.Recovered | sgx/enclave/src/api/middleware/recovery.rs:12-29 | no panic passes recovery: a panic becomes a ServerFault (500), anything else is passed on unchanged |
| Routes.Serve | sgx/enclave/src/api/handler/router.rs:316-359 | a route whose middleware includes recovery never panics; with no recovery the outcome is the handler's own |
| Routes.DataAfter | sgx/enclave/src/api/handler/routes.rs:28-33 | the test middleware stores "test" as a static string in the context data; without it the data are unchanged |
| Routes.RouteFor | sgx/enclave/src/api/handler/routes.rs:22-107 | an independent statement, by method and segments, of the route serving a request; it always names a registered route |
| Routes.MatchIsRouteFor | sgx/enclave/src/api/handler/router.rs:151-190 | a route of the table matches a request iff it is the one `RouteFor` names, so at most one route matches and the map's iteration order never matters |
| Routes.PingsAnswerPong | sgx/enclave/src/api/handler/routes.rs:35-37 | GET /test/ping and GET /ping both answer "PONG" (also lines 75-77) |
| Routes.RecoveredPanic | sgx/enclave/src/api/middleware/recovery.rs:20-25 | a recovered panic is a ServerFault (500) whose message is "recovered from panic during request: " and the payload |
| Routes.PanicRouteIsRecovered | sgx/enclave/src/api/handler/routes.rs:39-41 | GET /test/panic panics with "YELP", which recovery answers with a 500 naming it |
| Routes.HelloGreetsCapture | sgx/enclave/src/api/handler/routes.rs:79-84 | the segment after "hello" is captured as `name` and the answer is "Hello " followed by it |
| Routes.HelloWithoutNamePanics | sgx/enclave/src/api/handler/routes.rs:81-83 | without a `name` variable the handler panics at `unwrap`, answered 500 by recovery |
| Routes.CalcSums | sgx/enclave/src/api/handler/routes.rs:86-92 | two rendered `u32` values answer "Sum " and their sum; an overflowing sum panics (500) with overflow checks and wraps without |
| Routes.CalcAnswer | sgx/enclave/src/api/handler/routes.rs:91 | the answer once both variables are read, for every pair of `u32` values |
| Routes.CalcReadsRendered | sgx/enclave/src/api/handler/routes.rs:88-89 | captures holding rendered `u32` values read back as those values |
| Routes.CalcRejectsNonNumbers | sgx/enclave/src/api/handler/routes.rs:88-91 | a missing or non-`u32` capture panics at `unwrap`, answered 500 by recovery |
| Routes.PostDecodes | sgx/enclave/src/api/handler/routes.rs:43-54 | a body the JSON decoder rejects is a DecodeFault carrying its text; otherwise the answer is "Ok" |
| Routes.FetchAnswers | sgx/enclave/src/api/handler/routes.rs:56-72 | a fetched body is returned as JSON, no body answers "No results", and a failed fetch passes its error on |
| Routes.WsNeedsWebsocket | sgx/enclave/src/api/handler/routes.rs:94-104 | GET /ws succeeds iff the context is a websocket; otherwise the subscription fails with a WSFault (400) |
| Routes.WsHandler | sgx/enclave/src/api/handler/routes.rs:94-104 | the /ws handler run on a context answers as `Answer` says for its websocket status, and on a websocket it appends the greeter to the subscribers; otherwise nothing changes |
| Routes.Greet | sgx/enclave/src/api/handler/routes.rs:95-100 | the greeter sends b"Hello, World" through the context: refused outside a websocket, buffered before activation, deferred after it, and refused with the deferral limit when that queue is full |
| Routes.RecoveredIdempotent | sgx/enclave/src/api/middleware/recovery.rs:12-29 | a second recovery layer changes nothing |
| Connection.LimitExceeded | sgx/enclave/src/api/server/connection.rs:647-670 | a full queue is a ServerFault (500) with the message "unable to queue <what>, limit exceeded: <max>" |
| Connection.Deferral.constructor | sgx/enclave/src/api/server/connection.rs:626-638 | both queues start empty with the given limits, and the waker is not set |
| Connection.Deferral.Defer | sgx/enclave/src/api/server/connection.rs:640-660 | at the deferral limit the call fails and nothing changes; otherwise the action is appended, the futures are untouched, the call succeeds even if the waker trigger fails, and the limits keep holding |
| Connection.Deferral.SpawnAsWritten | sgx/enclave/src/api/server/connection.rs:662-680 | as written: the futures limit is compared with the DEFERRAL queue's length, so a future is appended whenever few actions are queued |
| Connection.Deferral.Spawn | sgx/enclave/src/api/server/connection.rs:662-680 | corrected: the futures limit is compared with the futures queue's own length, so spawning keeps both queues within their limits |
| Connection.Deferral.TakePending | sgx/enclave/src/api/server/connection.rs:692-703 | the waker is cleared first (a failure only logged); both queues are handed out in the order filled and left empty |
| Connection.SpawnAsWrittenOverflows | sgx/enclave/src/api/server/connection.rs:664-674 | with a futures limit of 1 and no actions queued, two spawns as written both succeed, leaving two futures and the limit broken |
| Connection.CloseNotifies | sgx/enclave/src/api/server/connection.rs:424-429 | counts close_notify alerts: none iff no record is close_notify |
| Connection.CloseNotifiesAppend | sgx/enclave/src/api/server/connection.rs:424-429 | one more record adds one to the count iff it is close_notify |
| Connection.EventSet | sgx/enclave/src/api/server/connection.rs:477-489 | readable and writable iff TLS wants both, writable iff it wants only to write, readable iff it does not want to write |
| Connection.RequestTimedOut | sgx/enclave/src/api/server/connection.rs:311-316 | a timed-out request is answered with kind TimedOut (408) and the message "request timed out" |
| Connection.Connection.constructor | sgx/enclave/src/api/server/connection.rs:50-80 | a new connection is neither closing nor closed, has sent no close_notify and has handed nothing to TLS |
| Connection.Connection.SendCloseNotify | sgx/enclave/src/api/server/connection.rs:423-429 | close_notify is queued only the first time; afterwards the flag is set and nothing more is sent |
| Connection.Connection.Close | sgx/enclave/src/api/server/connection.rs:416-421 | close sends close_notify at most once and sets both `closed` and `close_notify_sent` |
| Connection.Connection.Write | sgx/enclave/src/api/server/connection.rs:562-576 | a successful write hands the plaintext to TLS; a failed one sends nothing and marks the connection closing |
| Connection.Connection.WriteTlsAndHandleError | sgx/enclave/src/api/server/connection.rs:584-591 | a failed flush to the socket marks the connection closing and changes nothing else |
| Connection.Connection.SendResponse | sgx/enclave/src/api/server/connection.rs:287-306 | a closed connection is left unchanged; otherwise the body is written, followed by close_notify (once) when the response asks to close |
| Connection.Connection.HandleError | sgx/enclave/src/api/server/connection.rs:386-414 | on a websocket only WSClosed sets closing and nothing is written; on a closed plain connection, or when encoding fails, nothing changes; otherwise the encoded error response is written |
| Connection.Connection.CheckTimeout | sgx/enclave/src/api/server/connection.rs:308-322 | before the deadline nothing changes; past it, an open plain connection first writes the encoded 408 answer of `handle_error` (when encoding and writing succeed), then close_notify goes out unless it already has, the connection is closed, and `closing` records a failed write or flush |
| DeferralReactor.DeferralReactor.constructor | sgx/enclave/src/api/reactor/deferral.rs:16-21 | nothing pending and the waker not set |
| DeferralReactor.DeferralReactor.Defer | sgx/enclave/src/api/reactor/deferral.rs:23-28 | the (token, callback) pair is appended with no limit and no failure; the waker is set when the trigger succeeds |
| DeferralReactor.DeferralReactor.TakePending | sgx/enclave/src/api/reactor/deferral.rs:34-43 | the readiness is cleared first; every entry is handed out in insertion order and the queue is left empty |
| WebSocket.WriteFailed | sgx/enclave/src/api/server/websocket.rs:163-170 | a failed frame write is a WSFault whose message starts "failed to write ws messages: " |
| WebSocket.ReadFailed | sgx/enclave/src/api/server/websocket.rs:117-122 | a failed frame read is a WSFault whose message starts "failed to read ws message: " |
| WebSocket.Broadcast | sgx/enclave/src/api/server/websocket.rs:134-141 | one subscriber call per subscription, in subscription order, each with the same context and message |
| WebSocket.Buffered | sgx/enclave/src/api/server/websocket.rs:24 | the buffered messages are those in `pending`, or none when there is no buffer (also lines 53-57) |
| WebSocket.WebSocket.constructor | sgx/enclave/src/api/server/websocket.rs:29-41 | no subscriber, no context, no buffer, not ready |
| WebSocket.WebSocket.Subscribe | sgx/enclave/src/api/server/websocket.rs:43-48 | the handler is appended and the call always succeeds |
| WebSocket.WebSocket.Send | sgx/enclave/src/api/server/websocket.rs:50-76 | before activation the message joins the buffer (created on first use) and the call succeeds; after activation nothing is buffered, the send is deferred to the connection, and the result is the deferral's |
| WebSocket.WebSocket.Activate | sgx/enclave/src/api/server/websocket.rs:87-103 | the context is stored, the socket becomes ready and the buffer is gone; the buffered messages are written in order, and a failed write returns its error with the later messages dropped |
| WebSocket.WebSocket.BroadcastToSubscribers | sgx/enclave/src/api/server/websocket.rs:126-154 | each subscriber's task goes through the deferral's `spawn` as written: with subscribers and a full deferral queue the first spawn refuses with the futures limit and nothing changes; otherwise every task is queued in subscriber order, the deferral queue is untouched and the connection is marked readable when the waker fires |
| WebSocket.WebSocket.Handle | sgx/enclave/src/api/server/websocket.rs:105-124 | a failed read is a read error and changes nothing; a read message is broadcast with the stored context, refused as a whole when there are subscribers and the deferral queue is full, and otherwise queued once per subscriber |
| Context.GetAs | sgx/enclave/src/api/handler/context.rs:121-130 | `get::<V>` finds a value iff the key is present and the value was stored as a `V`; a value of another type reads as missing |
| Context.NotAWebSocket | sgx/enclave/src/api/handler/context.rs:58-86 | a websocket call on a plain request is a WSFault (400) naming the call |
| Context.DefaultCall | sgx/enclave/src/api/handler/context.rs:16 | a new call has the 2500 ms timeout, no TLS and method GET (also lines 145-151) |
| Context.NoBuilder | sgx/enclave/src/api/handler/context.rs:227-232 | fetching a used builder is an HttpClientError (502) "fetch() called with no builder." |
| Context.HttpFetchBuilder.Http | sgx/enclave/src/api/handler/context.rs:160-163 | a plain call with the default timeout |
| Context.HttpFetchBuilder.Https | sgx/enclave/src/api/handler/context.rs:153-158 | the default call with TLS selected |
| Context.HttpFetchBuilder.Host | sgx/enclave/src/api/handler/context.rs:165-169 | sets only the host of an unused builder |
| Context.HttpFetchBuilder.Port | sgx/enclave/src/api/handler/context.rs:171-175 | sets only the port, a `u16` |
| Context.HttpFetchBuilder.Method | sgx/enclave/src/api/handler/context.rs:177-181 | sets only the method |
| Context.HttpFetchBuilder.Path | sgx/enclave/src/api/handler/context.rs:183-188 | sets only the path |
| Context.HttpFetchBuilder.PathSegment | sgx/enclave/src/api/handler/context.rs:190-197 | appends one path segment |
| Context.HttpFetchBuilder.Url | sgx/enclave/src/api/handler/context.rs:199-211 | an accepted URL is stored; a rejected one is an HttpClientError "failed to set url" and changes nothing |
| Context.HttpFetchBuilder.Header | sgx/enclave/src/api/handler/context.rs:213-217 | appends one header |
| Context.HttpFetchBuilder.Body | sgx/enclave/src/api/handler/context.rs:219-223 | sets only the body |
| Context.HttpFetchBuilder.Fetch | sgx/enclave/src/api/handler/context.rs:225-248 | a used builder gives the no-builder error and queues nothing; otherwise the call is taken out of the builder and queued on the reactor |
| Context.HttpFetchBuilder.FetchWith | sgx/enclave/src/api/handler/context.rs:250-293 | the bodiless verbs set the method only, then fetch |
| Context.HttpFetchBuilder.FetchWithBody | sgx/enclave/src/api/handler/context.rs:256-275 | the verbs with a body set the method and the body, then fetch |
| Context.HttpFetchBuilder.Get | sgx/enclave/src/api/handler/context.rs:250-254 | queues the call with method GET and empties the builder |
| Context.HttpFetchBuilder.Post | sgx/enclave/src/api/handler/context.rs:256-261 | queues the call with method POST and the body |
| Context.HttpFetchBuilder.Put | sgx/enclave/src/api/handler/context.rs:263-268 | queues the call with method PUT and the body |
| Context.HttpFetchBuilder.Patch | sgx/enclave/src/api/handler/context.rs:270-275 | queues the call with method PATCH and the body |
| Context.HttpFetchBuilder.Delete | sgx/enclave/src/api/handler/context.rs:277-281 | queues the call with method DELETE |
| Context.HttpFetchBuilder.Options | sgx/enclave/src/api/handler/context.rs:283-287 | queues the call with method OPTIONS |
| Context.HttpFetchBuilder.Head | sgx/enclave/src/api/handler/context.rs:289-293 | queues the call with method HEAD |
| Context.FetchIsOneShot | sgx/enclave/src/api/handler/context.rs:226-239 | a builder fetches once: the second `fetch` fails with the no-builder error and queues nothing more |
| Context.Context.constructor | sgx/enclave/src/api/handler/context.rs:29-41 | a new context keeps its request, reactor and websocket, with an empty data map |
| Context.Context.Subscribe | sgx/enclave/src/api/handler/context.rs:57-78 | without a websocket request, a WSFault and nothing changes; otherwise the handler joins the end of the websocket's subscribers and the websocket's context and buffer stay as they were |
| Context.Context.Send | sgx/enclave/src/api/handler/context.rs:80-99 | without a websocket request, a WSFault and nothing changes; otherwise the websocket's `send`: buffered before activation, queued as a deferred send when the deferral queue has room, and refused with the deferral limit (nothing changing) when it is full; the subscribers and context never change |
| Context.Context.Get | sgx/enclave/src/api/handler/context.rs:121-130 | a value is found exactly when the key is stored with the requested type, and it is the stored value |
| Context.ContainsIffGettable | sgx/enclave/src/api/handler/context.rs:132-135 | `contains_key` holds exactly when `get` finds the key at some type, namely the type it was stored with |
| Context.PlainRequestIsNotWebsocket | sgx/enclave/src/api/handler/context.rs:53-55 | a context whose request did not ask for a websocket upgrade is never a websocket context, whatever is attached |
| Context.HttpcReactor.Call | sgx/enclave/src/api/reactor/httpc.rs:42-53 | the call is appended to the pending calls and its future refers to that position |
| Context.Context.Http | sgx/enclave/src/api/handler/context.rs:103-106 | a fresh plain builder on this context's reactor |
| Context.Context.Https | sgx/enclave/src/api/handler/context.rs:108-111 | a fresh TLS builder on this context's reactor |
| Context.Context.Insert | sgx/enclave/src/api/handler/context.rs:115-135 | the value is stored under its key, replacing an earlier one; `contains_key` is then true and `get` at its type finds it |
| Context.StaticStrIsNotAString | sgx/enclave/src/api/handler/routes.rs:30-46 | the test middleware stores a `&'static str`, so the "/test/post" handler's `get::<String>("test")` finds nothing, while a `&str` lookup finds it |
| ReactorExec.NextId | sgx/enclave/src/api/reactor/exec.rs:39-45 | the next token stays in the window `[offset, offset + u32::MAX)`: one more, or back to `offset` |
| ReactorExec.IdAfter | sgx/enclave/src/api/reactor/exec.rs:39-45 | the token after `k` spawns stays in the window |
| ReactorExec.IdAfterCycles | sgx/enclave/src/api/reactor/exec.rs:39-45 | the counter walks the window cyclically: `k` spawns advance it by `k` modulo `u32::MAX` |
| ReactorExec.TokensDistinct | sgx/enclave/src/api/reactor/exec.rs:39-50 | tokens never repeat within `u32::MAX` consecutive spawns, so a live task is replaced only by one spawned `u32::MAX` spawns later |
| ReactorExec.TokensPeriod | sgx/enclave/src/api/reactor/exec.rs:39-45 | after exactly `u32::MAX` spawns the counter is back where it started |
| ReactorExec.Live | sgx/enclave/src/api/reactor/exec.rs:87-95 | the tasks kept at `now` are exactly those whose deadline has not passed, unchanged (also lines 134-136) |
| ReactorExec.LiveShrinks | sgx/enclave/src/api/reactor/exec.rs:87-95 | a later check keeps no task an earlier one dropped, and checking twice is checking at the later instant |
| ReactorExec.ExecReactor.constructor | sgx/enclave/src/api/reactor/exec.rs:25-32 | no tasks, and the first token is `offset` |
| ReactorExec.ExecReactor.SpawnBoxed | sgx/enclave/src/api/reactor/exec.rs:38-54 | the task takes the current token, the counter advances by the wrapping rule, and the task is stored under its token with deadline `now + exec_timeout`, replacing whatever was there |
| ReactorExec.ExecReactor.Spawn | sgx/enclave/src/api/reactor/exec.rs:34-36 | corrected: `spawn` hands the boxed future to `spawn_boxed` and has its effect |
| ReactorExec.RunSpawn | sgx/enclave/src/api/reactor/exec.rs:34-54 | following at most `fuel` nested calls, a result is produced only by a body that hands over to `spawn_boxed`, and only when some call is left to make |
| ReactorExec.SpawnAsWrittenDiverges | sgx/enclave/src/api/reactor/exec.rs:34-36 | as written: `spawn` calls itself, so however many nested calls are followed it is still nested and no task is stored (a consequence of `RunSpawn`'s contract) |
| ReactorExec.SpawnIntendedReturns | sgx/enclave/src/api/reactor/exec.rs:38-54 | corrected: one call suffices; the task takes the current token, is stored under it with its deadline, and the counter advances by the wrapping rule |
| ReactorExec.ExecReactor.Ready | sgx/enclave/src/api/reactor/exec.rs:56-85 | an unknown token changes nothing; a pending poll puts the task back under its token; a completed poll or an empty slot leaves it removed; the counter is untouched |
| ReactorExec.ExecReactor.CheckTimeouts | sgx/enclave/src/api/reactor/exec.rs:87-95 | exactly the tasks whose deadline is strictly before `now` are removed |
| ServerExec.ExecReactor.constructor | sgx/enclave/src/api/server/exec.rs:24-31 | no tasks, and the first token is `offset` |
| ServerExec.ExecReactor.Spawn | sgx/enclave/src/api/server/exec.rs:33-50 | the same wrapping token rule; the task is stored under its token, records that token and has deadline `now + exec_timeout` |
| ServerExec.ExecReactor.Ready | sgx/enclave/src/api/server/exec.rs:52-82 | the token must be known (`unwrap`); a pending poll puts the task back, a completed poll or empty slot leaves it removed |
| ServerExec.ExecReactor.CheckTimeouts | sgx/enclave/src/api/server/exec.rs:84-86 | a no-op: no task ever expires |
| ServerExec.SpawnThenPoll | sgx/enclave/src/api/server/exec.rs:33-82 | a spawned task is found under the returned token, records it, and stays after a pending poll |
| Session.IdAfter | sgx/enclave/src/api/session.rs:206 | the id handed out `k` creations later is the counter plus `k`, wrapping at 2^64 (also line 19) |
| Session.IdsDistinct | sgx/enclave/src/api/session.rs:206 | ids never repeat within 2^64 successful creations |
| Session.SessionManager.constructor | sgx/enclave/src/api/session.rs:19-24 | the registry starts empty with the counter at 0 |
| Session.SessionManager.NewSession | sgx/enclave/src/api/session.rs:202-215 | with the lock, the session gets the counter's value as its id and is stored under it, and the counter advances (wrapping); without the lock nothing changes and the answer is None |
| Session.SessionManager.GetSession | sgx/enclave/src/api/session.rs:217-235 | the session under `id` is found iff the lock is taken and the id is known |
| Session.SessionManager.RemoveSession | sgx/enclave/src/api/session.rs:237-246 | with the lock, a known session is removed and released; an unknown id or a failed lock changes nothing; the counter never moves |
| Session.CreateFindRemove | sgx/enclave/src/api/session.rs:202-246 | a created session is found under its id, and after removal the id is unknown |
| Handler.OkResponse | sgx/enclave/src/api/handler/dispatch.rs:8 | an ok answer is a 200 JSON response carrying the message |
| Handler.ErrorResponse | sgx/enclave/src/api/handler/dispatch.rs:11 | an error answer is a JSON response whose body repeats the status beside the message |
| Handler.UriPath | sgx/enclave/src/api/handler/dispatch.rs:6 | `uri().path()` is the longest prefix of the target without '?' or '#', ending where the query or the fragment starts |
| Handler.QueryIgnored | sgx/enclave/src/api/handler/dispatch.rs:6 | a query string or a fragment never changes the path |
| Handler.NoQuery | sgx/enclave/src/api/handler/dispatch.rs:6 | a target without '?' or '#' is all path |
| Handler.Dispatch | sgx/enclave/src/api/handler/dispatch.rs:5-14 | dispatch never fails, and answers 200 iff the path is "/ping" |
| Handler.DispatchOnPathOnly | sgx/enclave/src/api/handler/dispatch.rs:5-6 | requests with the same path get the same answer: method, query, version and headers are not consulted |
| Handler.PingAnswersPong | sgx/enclave/src/api/handler/dispatch.rs:6-8 | "/ping", with or without a query or a fragment, answers "PONG" whatever the method |
| Handler.OtherPathsNotFound | sgx/enclave/src/api/handler/dispatch.rs:10-11 | every other path answers 404 "Not Found" |
| Handler.ServerFaultResponse | sgx/enclave/src/api/handler/mod.rs:63-66 | the server-fault response is 500 "Server Fault" |
| Handler.ProcessRawRequest | sgx/enclave/src/api/handler/mod.rs:24-50 | a decode error or an incomplete head is answered with the server fault; a decoded head is dispatched and its answer encoded |
| Handler.FailuresAnswerServerFault | sgx/enclave/src/api/handler/mod.rs:33-48 | a parse failure, a partial head, an invalid header or version, and a dispatch error all end in the server fault |
| Handler.DecodedRequestsAreDispatched | sgx/enclave/src/api/handler/mod.rs:29-32 | a complete request for "/ping" is answered with the encoded "PONG", any other with the encoded 404, whatever its method |

## Left out

- Sockets, TLS and mio registration are not modelled. This covers `Connection`'s reading and its `read_tls`, `register`, `reregister` and `deregister`, the websocket's `send_with_tls_stream`, and the API session's stream and TLS configuration. What a write or flush does is a `writeOk`/`flushOk` input.
- The panics of `register`/`reregister` on `unwrap` are not modelled, because they come from the mio registry, which is not modelled.
- Lock failures are an input only of the session manager, whose registry calls answer nothing when the lock is not taken. The doorbell's input is whether its condvar wait times out; the deferral reactor takes no lock. The executors' `future.lock().unwrap()` and `ECALL_ALLOCATE_STACK.lock().unwrap()` panic on a poisoned lock, and that panic is not modelled. A poisoned lock in websocket `send`/`broadcast`, context `subscribe`/`send` and `HttpFetchBuilder::fetch` is not modelled either, because those paths only turn it into an error string.
- Futures are an abstract type `F`. What one poll answers is a `pending` input, and the waker's `trigger`/`clear` outcomes are `triggerOk`/`clearOk` inputs.
- Clocks are `nat` timestamps passed in.
- JSON (serde) and the `http` response builders are an `encode` function parameter.
- Handler.EncodeServerFault: assumes building the fixed server-fault body does not fail, as the source's `unwrap` does.
- httparse is an input, its `ParseStatus`. More than 16 headers is one of its parse errors (`TooManyHeaders`), which `decode` turns into a decode fault; `Codec.ParseFits` states what httparse guarantees of a parse it reports complete. Only the origin-form path of a request target is split into route segments; absolute-form targets are not modelled.
- `Request::json` and the generic `header::<R>` parse are not modelled, because both hand the text to foreign parsers. `header::<String>` is modelled.
- `process_raw_request` and `process_ws_raw_request` in request.rs are not modelled, because they only forward to the router and a socket.
- Request.RawRequest.Extract: the `http` request builder is a foreign library, and its validation is not modelled. The model accepts every head httparse returns, while the source answers None for those the builder rejects: a target `http::Uri` refuses (one with a byte of 0x80 or above, or an over-long one), a method that is not a valid token, and an invalid header name.
- The middleware continuation chain is modelled as a fold over the middleware list (`Routes.Serve`). `catch_unwind` becomes `Routes.Recovered`, which turns a handler's panic into a server-fault response.
- Whether the build checks integer overflow (debug or release) is an `overflowChecks` parameter of the route handlers.
- The httpc reactors, the server's token counter, `config.rs` and the benchmark are not modelled, because they are outside the bookkeeping modelled here. `HttpcReactor` is a stand-in type.
- The stale `lib.rs`/`main.rs` drafts and the files that only declare `extern` functions are not modelled.
- `response.rs` and `handler/types.rs` are not modelled, because they are only data shapes for the encoder.
- The host store's `expect` panics are not modelled, because the modelled store is total.
- The session manager leaks its box when taking the lock fails during `create_session`. That leak, and constructing an `ApiSession`, are not modelled, because neither touches the registry.
- ReactorExec.RunSpawn: `spawn` as written never returns; non-termination is modelled with fuel. `RunSpawn` follows at most `fuel` nested calls, and `Diverging` means the call is still nested when the fuel runs out.
- ServerExec.ExecReactor.CheckTimeouts: the source's `check_timeouts` is empty, so the model keeps every task.
- Router.PathPush: states only the absolute case. The relative case, a path pushed onto a scope, is stated by `Router.PushSegments`.
- Panics that the source does not catch are preconditions, not outcomes:
  - `unwrap` on a value that must be present;
  - `u8` doorbell arithmetic that would wrap;
  - an interior NUL in the listen address;
  - a zero capacity;
  - a date beyond the codec's cache range.

## Findings

| source | as written | input that shows it | evidently intended | confidence | as-written member | corrected member |
|---|---|---|---|---|---|---|
| sgx/enclave/src/external/db.rs:95 | `db_get_fixed` truncates the buffer to the length the host reports, which does nothing when that length exceeds the buffer, so an oversize value is returned as a full buffer of a different value | host reports 100 bytes for a 4-byte buffer | reject a reported length greater than `max_bytes` | not executed | EnclaveDb.OversizeReportedLength | EnclaveDb.DbGetFixedChecked |
| sgx/app/src/enclave/doorbell.rs:127 | entry takes `reserve` slots from the count, but dropping the token gives back one (doorbell.rs:183) | reserve 9 at count 12, then drop: the count ends at 4, not 12 | the drop gives back what the entry reserved | not executed | Doorbell.ReserveThenDrop | Doorbell.ReserveThenDropReserved |
| sgx/enclave/src/api/server/connection.rs:666 | `spawn` compares the deferral queue's length, not the future queue's, with `max_futures_queue` | limit 1, no deferrals, two spawns: two futures queued; the websocket broadcast goes through this `spawn` too | compare the future queue's length | not executed | Connection.SpawnAsWrittenOverflows | Connection.Deferral.Spawn |
| sgx/enclave/src/api/reactor/exec.rs:34-35 | the boxing `spawn` calls itself instead of the `spawn_boxed` helper, so it recurses without end | any call | forward the boxed future to `spawn_boxed` | not executed | ReactorExec.SpawnAsWrittenDiverges | ReactorExec.SpawnIntendedReturns |

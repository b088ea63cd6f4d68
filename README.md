# S7 device service driver — a verified Dafny model

This project models the protocol driver of the EdgeX S7 device service
(`internal/driver/driver.go`). The driver talks to Siemens S7 PLCs through
gos7. The model covers four parts of it:

- **The symbolic address parser** `getDBInfo` (module `Address`). A tag such as
  `DB2.DBX1.0`, `DB2.DBW4` or `DB2.DBD26` is upper-cased and stripped of
  spaces. It is then classified by its first characters and split on dots.
  The result is a `DBInfo` descriptor: area, block number, start, amount,
  word length and the dotted tokens. Every path on which the Go code returns
  a nil descriptor, or panics on a short slice or a missing token, yields
  `None`. The integer conversions follow `strconv.ParseInt(s, 10, 16)` with
  its error ignored. After an optional sign the magnitude is scanned left to
  right, as Go's `ParseUint` does. A digit that takes the running value past
  65535 is a range error, even when a non-digit follows it (`70000A`), and
  gives the bound on the side of the sign: 32767, or -32768 after a minus.
  Otherwise an empty magnitude or any non-digit is a syntax error and gives
  0, and a value that fits is clamped to -32768..32767. `AddressProperties`
  holds the lemmas about the parser.
- **The batched multi-item transactions** of `HandleReadCommands` and
  `HandleWriteCommands` (module `Batch` states them as functions; class
  `S7Driver.Driver` follows the code and is proved against those functions).
  - Requests go in chunks of at most 16: `n/16` full chunks, then one chunk
    of the `n%16` requests that remain.
  - Item `i` of chunk `j` is bound to scratch buffer `j*16+i`.
  - Each chunk gets up to three multi-item calls. After each failure the
    device's registry entry is cleared and the client re-acquired.
  - A read decodes every request from its own buffer.
  - The network is an oracle (`Batch.Network`). It says whether a TCP handler
    can be created and whether a connection succeeds. It says whether the
    k-th multi-item call succeeds, and what the PLC returns for an item.
- **The client registry** `s7Clients`, as fields of `S7Driver.Driver`: the
  map, a flag for the nil map Go has after `Stop` (and before `Initialize`),
  a flag for whether the logging client is set, and counters of clients
  built and transport calls made. The model covers `getS7Client`,
  `NewS7Client`, `AddDevice`, `UpdateDevice`, `RemoveDevice`, `Stop` and the
  population in `Initialize`. Before `Initialize` the logging client is nil,
  so every entry point except `Stop` panics at its opening log call and
  changes nothing; `Stop` guards its log call.
- **Device validation** `ValidateDevice`. The conversions of the cast library
  are an abstract `Caster`.

A Go panic is modelled as `None` in the parser and as status `Panicked` in
the driver; state changes made before the panic are kept. A returned error
is status `Failed`.

Where the tests and the code disagree, the model follows the code:

- `internal/driver/driver_test.go:36-42` expects `DB1.DBX86.2.1` to be
  rejected. The code accepts it and ignores the fourth token; its start is
  `86*8+2 = 690` (`AddressProperties.ExampleExtraToken`).
- The bit index is never bounded to 0..7, so `DBX0.8` and `DBX1.0` denote
  the same start (`AddressProperties.BitIndexAliases`).
- For the invalid tags the tests also expect a non-nil error. The code
  returns a nil descriptor with a nil error, or panics. The model only
  records that no descriptor is produced.

Other behaviour of the code that the model keeps:

- A failed read chunk is hidden when a later chunk succeeds, because only the
  last chunk's error is returned (`Batch.FailedIsLastChunk`,
  `Batch.ReadFailedIsLastChunk`, and the 17-request instance
  `Batch.SwallowedFailure`).
- A write reports success even when every transport call failed
  (`Batch.WriteFailureHidden`).
- A client whose connection failed is still built and cached.
- The per-item error strings are copied by value into the items, so they are
  never set and the code's check of them never fires; the model leaves that
  check out.

## Model

| member | source | states |
|---|---|---|
| Address.Normalize | internal/driver/driver.go:504-505 | the upper-cased, space-free form has no space and no lower-case letter and is no longer than the tag |
| Address.NormalizeAppend | internal/driver/driver.go:504-505 | normalisation works character by character: it distributes over concatenation |
| Address.NormalizeIdempotent | internal/driver/driver.go:504-505 | normalising twice is normalising once |
| Address.Split | internal/driver/driver.go:540 | splitting on dots gives at least one token, and no token contains a dot |
| Address.JoinSplit | internal/driver/driver.go:540 | joining the dotted tokens with dots gives back the tag (the split loses nothing) |
| Address.SplitJoin | internal/driver/driver.go:540 | splitting a dot-joined list of dot-free tokens gives back the tokens |
| Address.ParseInt16 | internal/driver/driver.go:545-546 | the ignored-error 16-bit conversion always lies in -32768..32767 |
| Address.ScanLeading | internal/driver/driver.go:545-546 | the magnitude's scan is a range error when its leading digit run is worth more than 65535, whatever follows the run; otherwise it is the run's value when the run is the whole magnitude, and a syntax error when anything else follows |
| Address.ParseInt16Errors | internal/driver/driver.go:545-546 | a string that is not an optional sign followed by digits converts to 0 unless its leading digit run exceeds 65535; a run over 65535 converts to 32767, or to -32768 after a minus, whatever follows it |
| Address.OverflowBeforeGarbage | internal/driver/driver.go:545-546 | digits worth more than 65535, followed by nothing or by a non-digit, convert to 32767 and not to 0 |
| Address.NegativeOverflowBeforeGarbage | internal/driver/driver.go:545-546 | the same after a minus sign converts to -32768 |
| Address.ExampleOverflowBeforeGarbage | internal/driver/driver.go:545-546 | `70000A` converts to 32767 |
| Address.ParseNatToString | internal/driver/driver.go:545-546 | every unsigned decimal reads back as its value, clamped to 32767 |
| Address.ParseSignedNatToString | internal/driver/driver.go:545-546 | a decimal with `+` reads back as its value clamped to 32767; with `-` as its negation clamped to -32768 |
| Address.WordLengthOf | internal/driver/driver.go:547-566 | the word-length code is one of 0, 0x01, 0x02, 0x04, 0x08; it is the bit code exactly for `DBX`, and 0 exactly for an unknown type |
| Address.DescribeTokens | internal/driver/driver.go:538-566 | a data-block descriptor has area 0x84 and amount 1, keeps all tokens, has a token 1 of at least three characters, and takes its block number from token 0 and its word length from token 1 |
| Address.ParseDataBlock | internal/driver/driver.go:538-566 | the data-block branch keeps the dotted tokens of the normalised tag as DBArray |
| Address.GetDBInfo | internal/driver/driver.go:501-595 | an empty normalised tag gives none; any descriptor is either the all-zero one or a data-block one with amount 1, a known word-length code, a 16-bit block number and the normalised tag's tokens |
| AddressProperties.BitTagParses | internal/driver/driver.go:538-554 | `DB<n>.DBX<b>.<bit>` gives area 0x84, block n, start b*8+bit, amount 1, the bit code and tokens `DB<n>`, `DBX<b>`, `<bit>` |
| AddressProperties.WordTagParses | internal/driver/driver.go:545-566 | `DB<n>.<kind><b>` for any three-letter kind other than `DBX` gives block n, start b (unshifted) and that kind's word-length code, 0 for an unknown kind |
| AddressProperties.WordKinds | internal/driver/driver.go:555-562 | `DBB`, `DBW` and `DBD` give codes 0x02, 0x04 and 0x08, with start equal to the byte index |
| AddressProperties.BitStartDecodes | internal/driver/driver.go:550-554 | for a bit below 8 the start encodes byte and bit: start/8 is the byte, start%8 the bit |
| AddressProperties.ExampleBitTagText | internal/driver/driver_test.go:50-62 | the test's tag `DB1.DBX100.0` is the bit tag for block 1, byte 100, bit 0 |
| AddressProperties.ExampleBitTag | internal/driver/driver_test.go:50-62 | that tag gives {0x84, 1, 800, 1, bit, [DB1, DBX100, 0]} |
| AddressProperties.NormalFormParsesAlike | internal/driver/driver.go:504-505 | a tag and its normal form give the same descriptor |
| AddressProperties.SpaceIgnored | internal/driver/driver.go:505 | inserting a space anywhere in a tag does not change its descriptor |
| AddressProperties.CaseIgnored | internal/driver/driver.go:504 | replacing any character by its upper-case form does not change the descriptor |
| AddressProperties.NoDotRejected | internal/driver/driver.go:540-544 | a `DB` tag without a dot gives no descriptor |
| AddressProperties.ExampleNoDot | internal/driver/driver_test.go:43-49 | `DBX100` gives no descriptor |
| AddressProperties.MissingBitRejected | internal/driver/driver.go:550-553 | `DB<n>.DBX<b>` without a bit token gives no descriptor (the code indexes a missing token) |
| AddressProperties.ExampleMissingBit | internal/driver/driver_test.go:29-35 | `DB1.DBX100` gives no descriptor |
| AddressProperties.OtherAreas | internal/driver/driver.go:520-529 | a one-character tag gives none; the two-letter areas EB..MD and the letters E, I, A, 0, M, Z give the all-zero descriptor; T and C give none (lines 567-582 for the single letters) |
| AddressProperties.ExtraTokenAccepted | internal/driver/driver.go:540-554 | a fourth dotted token after a bit tag is kept in DBArray and otherwise ignored |
| AddressProperties.ExampleExtraToken | internal/driver/driver_test.go:36-42 | `DB1.DBX86.2.1` gives a descriptor with start 690, although the test expects none |
| AddressProperties.BitIndexAliases | internal/driver/driver.go:553-554 | byte b with bit i+8 and byte b+1 with bit i are different tags with the same start |
| Batch.ChunkEnd | internal/driver/driver.go:126-144 | every chunk is non-empty and holds at most 16 requests; each chunk ends where the next begins, and the last ends at n |
| Batch.NumChunksIsCeiling | internal/driver/driver.go:126-141 | there are ceil(n/16) chunks |
| Batch.ChunkOfIndex | internal/driver/driver.go:136-144 | every request index lies in exactly one chunk, chunk k/16 |
| Batch.NewClient | internal/driver/driver.go:441-480 | a client exists exactly when a handler can be made; it is built for that device even when its connection fails |
| Batch.Acquire | internal/driver/driver.go:483-497 | a present client is reused and nothing else changes; otherwise a new one is built and stored under the device, even when there is none |
| Batch.AcquireIdempotent | internal/driver/driver.go:483-497 | acquiring a second time changes nothing more |
| Batch.Rebuild | internal/driver/driver.go:170-173 | a client in hand after a failed call was built afresh: it carries the build number current at the rebuild, and the build counter advances |
| Batch.Retry | internal/driver/driver.go:164-185 | the retry loop crashes only on a nil client, whose `Client` field the call dereferences |
| Batch.RetryBound | internal/driver/driver.go:164-185 | a chunk makes at most three consecutive calls; it stops at the first success; exhaustion means every call failed |
| Batch.RetryRebuilds | internal/driver/driver.go:168-177 | with a handler available the retry loop never meets a nil client; every failed call rebuilds the device's entry, so the entry holds the newest client |
| Batch.TwoFailuresThenSuccess | internal/driver/driver.go:164-185 | two failures then a success deliver the chunk after three calls and two rebuilds |
| Batch.ThreeFailures | internal/driver/driver.go:164-185 | three failures abandon the chunk after three calls and three rebuilds, leaving the newest client in hand |
| Batch.RunChunks | internal/driver/driver.go:126-187 | the chunk loop keeps one buffer per request (its outcomes are stated by `Batch.AllDelivered`, `Batch.AllFailing` and `Batch.FailedIsLastChunk`) |
| Batch.Resolve | internal/driver/driver.go:147-150 | descriptor k is the parse of request k's NodeName |
| Batch.Fill | internal/driver/driver.go:152-168 | a delivered read chunk writes each of its buffers with the PLC's value at that request's own address and leaves every other buffer alone |
| Batch.AllDelivered | internal/driver/driver.go:131-187 | when every call succeeds: one call per chunk, no rebuild, every request delivered once and in order, and each buffer filled from its own request |
| Batch.AllFailing | internal/driver/driver.go:131-187 | when every call fails: three calls and three rebuilds per chunk, nothing delivered, buffers unchanged, failure reported |
| Batch.SwallowedFailure | internal/driver/driver.go:166-187 | with 17 requests, a failed first chunk followed by a delivered second one reports no failure; request 0's buffer is never filled |
| Batch.FailedIsLastChunk | internal/driver/driver.go:126-187 | a chunk loop that does not crash ends with its error set exactly when the last request, carried only by the last chunk, was not delivered; earlier chunks' errors are overwritten |
| Batch.ReadFailedIsLastChunk | internal/driver/driver.go:103-216 | a read that does not panic returns an error exactly when its last chunk was not delivered |
| Batch.Decoded | internal/driver/driver.go:198-211 | an unsupported value type leaves the result slot empty; a supported one is decoded from the buffer |
| Batch.Results | internal/driver/driver.go:197-211 | there is one result per request, and result i depends only on request i and buffer i |
| Batch.Encoded | internal/driver/driver.go:244-255 | write buffer i holds parameter i encoded for request i's type, whether or not encoding reported an error |
| Batch.ReadCall | internal/driver/driver.go:103-216 | an empty request list panics without changing anything; a panic returns no results; otherwise there is one result per request |
| Batch.WriteCall | internal/driver/driver.go:222-326 | a write never returns an error; an empty list or a missing parameter panics before anything changes |
| Batch.ReadAllDelivered | internal/driver/driver.go:103-216 | when every call succeeds a read returns success after ceil(n/16) calls, and result i is request i decoded from the PLC's value at its own address |
| Batch.ReadAllFailing | internal/driver/driver.go:164-187 | when every call fails a read returns the error, and every result is decoded from a zero buffer |
| Batch.WriteFailureHidden | internal/driver/driver.go:318-325 | a write whose every call fails still returns success and delivers nothing |
| Batch.WriteUnresolvedPanics | internal/driver/driver.go:244-269 | an unresolved address anywhere in a write panics before the registry is touched |
| Batch.WriteAllDelivered | internal/driver/driver.go:273-316 | when every call succeeds a write delivers every request once, in order, with one call per chunk |
| Batch.Populate | internal/driver/driver.go:86-97 | population never drops a key already present and never lowers the build counter |
| Batch.PopulateKeys | internal/driver/driver.go:86-97 | after population the registry's keys are the earlier keys plus exactly the names of the devices for which a client could be built; every entry added or replaced holds a client |
| S7Driver.ChunkItems | internal/driver/driver.go:147-161 | item k of a chunk starting at lo carries request lo+k's address and buffer lo+k |
| S7Driver.DepositChunk | internal/driver/driver.go:152-168 | writing each item's value into the item's own buffer is exactly `Batch.Fill` over the chunk |
| S7Driver.FirstFailing | internal/driver/driver.go:402-425 | a key it reports belongs to a check that fails |
| S7Driver.FirstFailingIsFirst | internal/driver/driver.go:402-425 | the validation search finds nothing exactly when all checks pass; otherwise it names the first check that fails |
| S7Driver.Defaulted | internal/driver/driver.go:426-435 | a timeout that converts to an integer is kept, otherwise it becomes 30; no other property changes |
| S7Driver.Driver.NewS7Client | internal/driver/driver.go:441-480 | the method builds exactly `Batch.NewClient`'s client and advances the build counter only when a handler was made; the registry is untouched |
| S7Driver.Driver.GetS7Client | internal/driver/driver.go:483-497 | the client returned and the new registry state are those of `Batch.Acquire` |
| S7Driver.Driver.Attempt | internal/driver/driver.go:167-173 | one multi-item call uses the next transport outcome; on failure the registry and client are those of `Batch.Rebuild` after the call |
| S7Driver.Driver.Transact | internal/driver/driver.go:164-185 | one chunk's transaction ends in `Batch.Retry`'s outcome: crash, delivery or exhaustion, with the same registry and counters; a delivered read fills the items' buffers and nothing else does |
| S7Driver.Driver.RetryCalls | internal/driver/driver.go:164-185 | the retry loop of up to three calls ends in `Batch.Retry`'s outcome, with its registry and counters |
| S7Driver.Driver.Receive | internal/driver/driver.go:168 | a successful multi-item read writes each item's buffer with the PLC's value for that item |
| S7Driver.Driver.BuildItems | internal/driver/driver.go:147-162 | the chunk's items are built exactly when every address resolves, item k with buffer lo+k |
| S7Driver.Driver.DecodeResults | internal/driver/driver.go:197-211 | the decoding loop produces exactly `Batch.Results` |
| S7Driver.Driver.ReadChunk | internal/driver/driver.go:133-186 | one turn of the read chunk loop is one step of `Batch.RunChunks` |
| S7Driver.Driver.ReadChunks | internal/driver/driver.go:126-187 | the read chunk loop ends in `Batch.RunChunks`'s outcome, including the buffers |
| S7Driver.Driver.HandleReadCommands | internal/driver/driver.go:103-216 | before `Initialize` the call panics with no change; otherwise status, results and registry are those of `Batch.ReadCall`; on the nil map after `Stop` the call panics after building a client, and the map is unchanged |
| S7Driver.Driver.PrepareWrite | internal/driver/driver.go:244-269 | preparation succeeds exactly when every request has a parameter and an address that resolves; it fills the buffers with the encoded parameters |
| S7Driver.Driver.WriteChunk | internal/driver/driver.go:283-315 | one turn of the write chunk loop is one step of `Batch.RunChunks`, and the buffers are untouched |
| S7Driver.Driver.WriteChunks | internal/driver/driver.go:273-316 | the write chunk loop ends in `Batch.RunChunks`'s outcome |
| S7Driver.Driver.HandleWriteCommands | internal/driver/driver.go:222-326 | before `Initialize` the call panics with no change; otherwise status and registry are those of `Batch.WriteCall`; on the nil map after `Stop` the call panics, after building a client if preparation succeeded |
| S7Driver.Driver.Initialize | internal/driver/driver.go:83-100 | the logging client is set and the registry becomes a fresh map populated as `Batch.Populate` does from an empty map |
| S7Driver.Driver.AddDevice | internal/driver/driver.go:347-363 | a client is always rebuilt and stored, even none; an error is returned exactly when none could be built; before `Initialize` or on a nil map the call panics with no change |
| S7Driver.Driver.UpdateDevice | internal/driver/driver.go:367-381 | a new client replaces the entry; when none can be built the registry is unchanged and an error is returned; before `Initialize` the call panics with no change |
| S7Driver.Driver.RemoveDevice | internal/driver/driver.go:385-391 | only the device's entry is removed, and nil is returned; before `Initialize` the call panics with no change |
| S7Driver.Driver.Stop | internal/driver/driver.go:332-343 | the registry map becomes nil, without a panic even before `Initialize`; the counters are unchanged |
| S7Driver.Driver.ValidateDevice | internal/driver/driver.go:393-438 | before `Initialize` the call panics; otherwise a missing s7 entry is reported first, then the first of Host, Port, Rack, Slot that does not convert, and nothing changes; otherwise there is no error and only the two timeouts are defaulted to 30 |

## Left out

- The byte-level value codec (`getCommandValueType`, `newCommandValue`, `getCommandValue`, the range check and gos7's `Helper`) is the abstract `Batch.Codec`. Wire layout, endianness, floats and range limits are not modelled.
- The conversions of the cast library are the abstract `S7Driver.Caster`. That includes how it treats a missing key and the `NodeName` attribute's conversion to a string.
- TCP handler creation, `Connect`, timeouts and the multi-item calls are network I/O. They are the oracle `Batch.Network`. A failed call is modelled as leaving the read buffers untouched; a partial fill is not modelled.
- A write's effect on PLC memory is not modelled. The model records which requests were delivered, in order.
- The mutex and the `sync.Once` singleton are concurrency. The registry is modelled sequentially.
- Log output, `Start`, `Discover`, `NewProtocolDriver`, the SDK's async channel and the bootstrap in `cmd/main.go` are framework glue.
- Address.Upper: `strings.ToUpper` is modelled for ASCII letters only; other letters keep their case.
- Address.GetDBInfo: an empty normalised tag gives none, as the code does, but the model does not distinguish a nil descriptor from a panic.
- Address.GetDBInfo: the model indexes a tag by character where Go slices its bytes (`variable[0:2]`, `dbArray[0][2:]`, `dbArray[1][0:3]`, `dbArray[1][3:]`). Tags with a non-ASCII character among their first two characters or in the first three bytes of token 1 therefore parse differently; `DB1.DÉ`, say, gives a descriptor in Go and none in the model.
- The per-item error check after the chunk loops cannot fire and is left out.
- The constructor `S7Driver.Driver.constructor` and the methods with `modifies` state only their new state. The lemmas of `Batch` carry their properties.
- An entry of the protocol map that holds a nil map is treated like a missing entry.
- S7Driver.Driver.HandleReadCommands: on a nil map it panics inside `getS7Client`. The model keeps the build counter's advance and drops the client that was built.

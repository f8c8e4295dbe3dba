# An NFSv4.1 client for SQLite, modelled and verified in Dafny

The repository is an NFSv4.1 client used as a SQLite VFS. SQLite's file locks become byte-range locks on an NFS
server, and every file operation becomes a compound remote call on one session. This project models the parts of it
that have to be right for a database to survive, and proves what they promise.

| file | what it models |
|---|---|
| `LockProtocol.dfy`, `LockSafety.dfy` | the lock levels of `nfs4Lock` and `nfs4Unlock` as a step machine of any number of clients against one server, its inductive invariant, and what follows for every run |
| `LockHandle.dfy` | the two functions as straight-line code on an object, each proved to be a run of that machine |
| `Bytes.dfy`, `Buffer.dfy` | machine words, padding, and the growable buffer |
| `Wire.dfy`, `Call.dfy` | the encoding of operations, compounds and RPC calls, with an independent decoder written from RFC 4506, RFC 5531 and RFC 5661 |
| `Rpc.dfy`, `Files.dfy` | the request builders in place over a buffer, whole compounds, and the operations on files |
| `Image.dfy` | the same format a second time, every byte of every call written out with the numbers the RFCs assign |
| `Resok.dfy` | the results of the operations, byte by byte from RFC 5661, and what the client reads of them |
| `Replay.dfy` | patching a request for a new session |
| `Reply.dfy`, `Results.dfy` | scanning replies in place and reading the results |
| `Peer.dfy`, `Session.dfy` | a server with one slot per session behind a lossy network; sending, reconnecting, replaying, and setting a session up, each call related exactly to what network and server did |
| `SessionSafety.dfy`, `SessionRuns.dfy` | what follows for one call and for every run of calls on a file: slot agreement, at most once, and the runs that show where each guarantee ends |
| `Segment.dfy` | reading and writing a range in chunks |
| `QuantileSpec.dfy`, `Quantile.dfy` | the streaming quantile summary, on sequences and as a circular doubly linked list |
| `Vector.dfy` | splitting and joining paths |

`dafny verify dfyconfig.toml` checks the whole project.

## How the model stands to the code

Code that works in place is modelled in place: buffers are arrays in a class, requests, clients, files, the summary
and its list are classes whose methods change fields, loops are loops. Each such method is proved against a function
on values (an encoder, a decoder, a step of a machine, a sequence operation), and the laws are proved of those
functions. A request really is a sequence of bytes here: what `Request.Send` puts on the wire is read back by
`Call.DecodeCall`, the server of `Peer.dfy` acts on what was decoded, and its answers are encoded, delivered into the
reverse buffer, and scanned.

A number or a layout that both sides of a theorem share would prove nothing about itself. So the format is pinned down a
second time in bytes: `Image.CallOnTheWire` for calls, `Resok.dfy` for the results a server may send (which is all that
an honest server is required to do), `Reply.BadSessionOnTheWire` and `Peer.RefusalOnTheWire` for the bad session, and
`LockSafety.RequestsInNumbers` for the lock bytes; compression in the quantile summary is characterised without the
algorithm (`QuantileSpec.CompressGroups`, `GroupsOnce`).

What the environment decides is a parameter: every outcome of a remote call (`Peer.Link.plan`, `Segment.Remote.plan`,
the `Reply` events of `LockProtocol`), whether a connection can be made, the random owner of `exchange_id`, and the
`band` function of the summary. All theorems hold for every choice of them, up to the assumptions named below.

**The server of the session model** follows section 2.10.6.1 of RFC 5661: it carries out a compound whose SEQUENCE
names the session it serves and the next id of slot 0, answers BADSESSION to any other session and SEQ_MISORDERED to
any other id, and never answers BADSESSION to what it carried out.
Its successful results are those of `Resok.dfy`, as far as the client reads them. It may restart and forget the session at any call,
and the network may lose any request or any answer. A run in which CREATE_SESSION can go wrong for ever does not
terminate in the code either, so `Link.horizon` bounds it; nothing else depends on that bound.

**The server of the lock model** keeps one lock owner per client and grants a byte when no other owner holds it in
conflict, replaces the owner's own lock, and releases whatever of a range is held (sections 18.10 and 18.12 of
RFC 5661). A LOCKU's lock type plays no part in that, which matters because `nfs4Unlock` passes an uninitialised
`l_type` when it goes from SHARED to NO_LOCK (nfsv4/nfs4.c:271-274). A server that refuses a repeated new lock owner
is covered: its refusals are failed calls.

**The trust flag.** A handle is *trusted* while no `nfs4Unlock` has returned an error since one last ran to its end.
An error there leaves `eFileLock` at the old level with fewer bytes held, so the safety theorems speak of trusted
handles, and `MutualExclusionNeedsTrust` and `GateNeedsTrust` give the runs that show they have to.

## What the code does differently from what it says

Each of these is stated in the model as it is in the code.

- The offset in `replay_rpc` (nfsv4/rpc.c:396) is 60, which leaves out the 36-byte credential; the session id stands
  at byte 96. `Request.Replay` patches at byte 96. `LiteralOffsetRebuildsIff` proves that patching at 60 gives the
  request for the new session only when every session id and sequence id involved is zero.
- After two bad sessions in one call, `replay_rpc` has taken a sequence id that is never sent
  (nfsv4/rpc.c:420-428). `OutOfStepIff` proves that, as long as no reconnection fails, this is the only way a call
  made in step can end out of step; `AheadForEver` that from then on, as long as the server keeps the session, every
  later call is refused as misordered, so that the client never reconnects and falls further behind; and
  `RefusedForGood` plays such a run.
- `badsession` starts as true in `transact`, so a request that cannot be sent or an answer that cannot be read also
  leads to a reconnection and a second try. On a link that loses nothing a compound is carried out at most once
  (`AtMostOnce`, over whole runs `OncePerCall`). `TwiceIff` gives the exact condition for a second time: the first
  answer is lost, the reconnection comes up, and the replay reaches a server that has not restarted.
  `LostAnswerRunsTwice` states it as a property of the link alone, and `CarriedOutTwice` plays such a run.
- A CREATE_SESSION that meets a bad session is never repeated: the request has been overwritten by the answer to
  RECLAIM_COMPLETE, which has been read to its end, so nothing is left to send (`Drained` in `Session.dfy`).
- A refused EXCLUSIVE request from SHARED leaves the PENDING byte locked, and `nfs4Unlock` from SHARED to NO_LOCK
  does not release it (`RefusedExclusiveLeaksPending`, `ReleasesAllIff`).
- The root handle is always pushed as 128 bytes, whatever its length (nfsv4/rpc.c:241); it names the root exactly
  when it is that long (`PushResolutionRfh`).
- `buffer_extend` copies from byte 0 of the old array (nfsv4/buffer.h:38). Growing keeps the window for every content
  of the array if and only if the window starts at byte 0 or is empty (`GrowthKeepsWindowIff`); `GrowthLosesWindow`
  builds, for every other window, a buffer whose contents `Extend` changes. The contracts of all pushes say what is
  kept in either case.
- `allocate_summary` accepts an epsilon of one half, but from 0x80000000 on the first insertion compresses a list
  that is not there yet (`FirstInsertCompressesIff`). The summary is therefore modelled up to 0x7fffffff.
- `parse_exchange_id` and `parse_create_session` copy an id without looking whether the reply has that many bytes, and
  `parse_open` skips the bitmap unchecked. The model stops there with a mark (`overrun`, `beyond`).
- `parse_open` ends without returning a status when there is no delegation (nfsv4/xdr.c:191-220); the model takes
  that for success.
- `pad` wraps to zero above 2^32 - 4 (`Pad4IsLeastMultiple`).

## Model

| member | source | states |
|---|---|---|
| LockProtocol.StepKeepsInv | nfsv4/nfs4.c:141-281 | No step of any client breaks the invariant: the program counter fits the level, a trusted handle holds the bytes of its level, a handle without failures holds exactly those, `latest_sid` is what it should be, and no two owners conflict |
| LockProtocol.ReplyKeepsClean | nfsv4/nfs4.c:172-280 | A successful call leaves a handle none of whose calls has failed with exactly the bytes its next program counter calls for, byte by byte |
| LockProtocol.FailureKeepsHandle | nfsv4/nfs4.c:179-202 | A failed call keeps the invariant of its handle, whether or not it took effect at the server |
| LockProtocol.RunKeepsInv | nfsv4/nfs4.c:141-281 | The invariant holds after every run, for every interleaving of any number of clients and every way each call may end |
| LockSafety.MutualExclusion | nfsv4/nfs4.c:158-226 | In every run, for any two idle trusted handles: the level implies possession and is never PENDING, EXCLUSIVE excludes every other lock, and at most one is at RESERVED or above |
| LockSafety.NoTwoWriters | nfsv4/nfs4.c:141-281 | In every run, trusted or not, a byte held by two clients is held by both for reading |
| LockSafety.GateStep | nfsv4/nfs4.c:172-200 | While one client holds PENDING for writing, no step gives another client SHARED bytes it did not hold, except the downgrade of an untrusted handle |
| LockSafety.PendingGatesReaders | nfsv4/nfs4.c:172-224 | Along every run in which a writer keeps PENDING and all handles stay trusted, each competitor's SHARED bytes only shrink; once there are none its request for EXCLUSIVE is granted |
| LockSafety.ExactHoldings | nfsv4/nfs4.c:233-281 | A handle none of whose calls has failed holds at every return exactly the bytes of its level (RESERVED at EXCLUSIVE only if it came through RESERVED), and nothing at NO_LOCK |
| LockSafety.ReleasesAllIff | nfsv4/nfs4.c:267-278 | The unlock to NO_LOCK leaves nothing held if and only if it started above SHARED or neither PENDING nor RESERVED was left over |
| LockSafety.StateidAgreement | nfsv4/rpc.c:532-568 | In every run `latest_sid` is the server's current lock stateid if and only if the last effect was answered, and no LOCKU is sent with the open stateid |
| LockSafety.MarksTellHistory | nfsv4/nfs4.c:141-281 | In every run a handle is clean if and only if none of its calls has failed, its stateid is stale if and only if the last of its calls to take effect had its reply lost, and it is trusted if and only if an nfs4Unlock has run to its end since the last that failed |
| LockSafety.MutualExclusionNeedsTrust | nfsv4/nfs4.c:257-278 | A run after which two handles are idle at EXCLUSIVE, one of them untrusted |
| LockSafety.GateNeedsTrust | nfsv4/nfs4.c:248-266 | A run in which an untrusted downgrade adds a reader past a held PENDING lock |
| LockSafety.RefusedExclusiveLeaksPending | nfsv4/nfs4.c:213-223 | A run after which a trusted handle at NO_LOCK still holds PENDING for writing |
| LockSafety.HeldPendingBlocksNewReaders | nfsv4/nfs4.c:172-183 | While PENDING is held for writing, no other client's first lock is granted |
| LockSafety.RequestsInNumbers | nfsv4/nfs4.c:127-280 | Each remote call locks or unlocks exactly SQLite's bytes: PENDING 0x40000000, RESERVED 0x40000001, SHARED 0x40000002 and the 509 after it, for reading or writing |
| LockSafety.EffectAt | nfsv4/rpc.c:532-568 | A granted LOCK gives its owner every byte of the range with that type, an unlock takes every byte of the range away, and no other byte changes |
| LockHandle.SqlFile.Lock | nfsv4/nfs4.c:141-228 | The calls it makes, with every other client's steps between them, are a run of the machine; on success the bytes are those of the new level, on error `eFileLock` is unchanged |
| LockHandle.SqlFile.Unlock | nfsv4/nfs4.c:233-281 | The same for coming down; an error leaves `eFileLock` at the old level and the handle untrusted, running to the end makes it trusted |
| LockHandle.SqlFile.Settled | nfsv4/nfs4.c:141-281 | Between calls the object enjoys what the theorems say of every run: its level implies possession, and at EXCLUSIVE every other idle trusted handle is at NO_LOCK |
| QuantileSpec.FirstInsertCompressesIff | nfsv4/test/gk.c:91-92 | The first insertion compresses if and only if epsilon is one half or more |
| QuantileSpec.ErrIsRoundedDown | nfsv4/test/gk.c:29-32 | The error is 2 * epsilon * n in units of 2^-32, rounded down, and the period is how often epsilon goes into 2^32 - 1 |
| QuantileSpec.CompressGroups | nfsv4/test/gk.c:66-80 | Compressing cuts the list into consecutive stretches: each tuple left is the last of its stretch with the sum of all their `g`, the others fitted into it, and the one before them does not |
| QuantileSpec.GroupsOnce | nfsv4/test/gk.c:66-80 | There is only one such list, so the compressed list is determined by the old one, the error and the bands |
| QuantileSpec.NothingLeftToMerge | nfsv4/test/gk.c:72-75 | After compression no tuple fits into its successor |
| QuantileSpec.PlaceExact | nfsv4/test/gk.c:95-110 | A new tuple goes behind every value that does not exceed it, with `g` 1, delta `err - 1` strictly inside the list and 0 at either end, and changes no other |
| QuantileSpec.EveryInsertion | nfsv4/test/gk.c:83-111 | What every insertion into every stream does, without the algorithm: the list is so grouped exactly when the count is a multiple of the period, then the new tuple goes in at that place |
| QuantileSpec.SixInsertions | nfsv4/test/gk.c:66-111 | One run in full: epsilon one quarter, all bands alike, 1 to 6: values 2, 5, 6 with `g` 2, 3, 1 |
| QuantileSpec.CompressKeeps | nfsv4/test/gk.c:66-80 | Compressing keeps order, the sum of `g`, the bound on `g + delta`, the rank bound and the maximum at the tail, whatever `band` returns |
| QuantileSpec.InsertKeeps | nfsv4/test/gk.c:83-111 | One insertion turns a summary of a stream into a summary of the longer stream |
| QuantileSpec.InsertAllSummarizes | nfsv4/test/gk.c:66-111 | After any stream: sorted, the sum of `g` is `n`, every `g + delta` is at most max(1, err(n)), the ranks are lower bounds, and the tail is the maximum |
| QuantileSpec.RankLowerBound | nfsv4/test/gk.c:66-111 | Over every stream and for every position, the sum of `g` up to it is at most the number of inserted values not exceeding its value, and the tail carries the largest value inserted |
| Quantile.SkipsIsLinked | nfsv4/test/gk.c:61-62 | Bypassing one tuple leaves a well-formed circular doubly linked list of the others |
| Quantile.SplicedIsLinked | nfsv4/test/gk.c:108-109 | Splicing a tuple in before another leaves a well-formed circular list with it at that place |
| Quantile.Summary.Delete | nfsv4/test/gk.c:52-64 | Removes exactly that tuple from the list, moving the head if need be |
| Quantile.Summary.CompressList | nfsv4/test/gk.c:66-80 | The loop over the linked list computes the compression of the sequence, and terminates |
| Quantile.Summary.Add | nfsv4/test/gk.c:83-111 | The list after an insertion is the insertion into the sequence, and is well formed |
| Quantile.SummaryOf | nfsv4/test/gk.c:83-111 | Any stream, inserted value by value into a new list on the heap, leaves a well-formed circular list whose tuples summarize that stream |
| Bytes.Pad4IsLeastMultiple | nfsv4/buffer.h:4-7 | Up to 2^32 - 4, zero included by wrap-around, `pad` gives the least multiple of four that is not smaller; above it gives zero |
| Bytes.FromBe32RoundTrip | nfsv4/nfs4_internal.h:52-69 | Every four bytes are the encoding of the word they decode to |
| Image.BigEndian | nfsv4/nfs4_internal.h:52-63 | Words of four and of eight bytes go out most significant byte first |
| Buffer.ByteBuffer.Extend | nfsv4/buffer.h:31-44 | Makes room, doubling or more, without wrapping below 2^31; when it grows, the window becomes as many bytes from byte 0 of the old array |
| Buffer.GrowthKeepsWindowIff | nfsv4/buffer.h:31-44 | What growing copies is the window, for every content of the array, if and only if the window starts at byte 0 or is empty |
| Buffer.GrowthLosesWindow | nfsv4/buffer.h:31-44 | For every other window, capacity and length that make the buffer grow: a buffer whose contents `Extend` changes |
| Buffer.ByteBuffer.PushBytes | nfsv4/buffer.h:46-51 | From any window: appends behind what growing leaves of it, which from `start == 0` is all of it; the window stays inside the array, and all copying so far stays within twice the bytes held |
| Buffer.ByteBuffer.Concat | nfsv4/buffer.h:74-80 | Appends the window of another buffer, whatever the windows are |
| Buffer.ByteBuffer.PushString | nfsv4/xdr.c:3-13 | Appends the XDR encoding of a variable-length opaque |
| Buffer.ByteBuffer.PushFixedString | nfsv4/xdr.c:15-24 | Appends the XDR encoding of a fixed-length opaque |
| Buffer.ByteBuffer.Load | nfsv4/rpc.c:171-190 | A frame read from the socket becomes the contents |
| Wire.FieldRoundTrip | nfsv4/xdr.c:3-24 | Every encoded field decodes to itself, whatever follows |
| Wire.ArgsConform | nfsv4/xdr.c:54-65 | The arguments of every operation the client pushes obey the grammar of that operation in RFC 5661, unions and counted arrays included |
| Call.OpRoundTrip | nfsv4/xdr.c:222-280 | Every encoded operation decodes to exactly that operation, and nothing of what follows is taken |
| Call.OpsRoundTrip | nfsv4/nfs4_internal.h:101-105 | An operation list of any length decodes to itself |
| Call.CredIs36Bytes | nfsv4/rpc.c:104-109 | The credential body is exactly the 36 bytes announced, and decodes to the fixed credential |
| Call.HeaderShape | nfsv4/rpc.c:97-116 | The header is the xid and 80 bytes that no request changes |
| Call.CallRoundTrip | nfsv4/rpc.c:86-122 | For all operation lists, the decoder reads back exactly the call: the mark counts the payload, every constant is right, the count is the length of the list, and no bytes are left |
| Image.OpOnTheWire | nfsv4/xdr.c:3-281 | Every operation is encoded as exactly the bytes of RFC 5661: its number and every argument, constant and count in its place |
| Image.CallOnTheWire | nfsv4/rpc.c:86-205 | Every call is exactly these bytes: record mark, xid, 80 literal bytes of header and credential, count, and the bytes of the operations |
| Image.Names | nfsv4/xdr.c:265-279 | What the client calls itself, in letters |
| Image.SequenceInNumbers | nfsv4/xdr.c:98-107 | SEQUENCE is for slot 0, highest slot 0, nothing cached |
| Image.TransfersInNumbers | nfsv4/rpc.c:432-483 | GETATTR asks for attribute 4 alone, and WRITE for FILE_SYNC4 |
| Image.OpenInNumbers | nfsv4/xdr.c:222-243 | OPEN shares access 1 or 3 and denies nothing; a new file is created unchecked with only its mode set, to 0644 |
| Image.CreateSessionInNumbers | nfsv4/xdr.c:54-65 | CREATE_SESSION: persistence, the same limits both ways, program 0x7b, AUTH_NONE |
| Replay.ReplayIsRebuild | nfsv4/rpc.c:390-403 | Patching session id, sequence id and xid at the place they stand gives the bytes of the same compound built under the new session |
| Replay.LiteralOffsetRebuildsIff | nfsv4/rpc.c:396-402 | Patching at the offset written in the source does so if and only if all ids involved are zero |
| Rpc.Request.Allocate | nfsv4/rpc.c:86-122 | Empties the buffer and leaves a request with a fresh xid and no operations |
| Rpc.Request.PushSequence | nfsv4/xdr.c:98-107 | Adds SEQUENCE with the session and the current id, and takes the next id |
| Rpc.Request.PushLock | nfsv4/rpc.c:534-544 | Adds LOCK with a new lock owner on the open stateid |
| Rpc.Request.PushExchangeId | nfsv4/xdr.c:254-281 | Adds EXCHANGE_ID with the verifier, the owner and one implementation id |
| Rpc.Request.PushCreateSession | nfsv4/xdr.c:54-65 | Adds CREATE_SESSION with both channels and one null security flavor |
| Rpc.Request.PushOpen | nfsv4/xdr.c:222-243 | Adds OPEN, creating or not, by name |
| Rpc.Request.Send | nfsv4/rpc.c:192-205 | Puts the window on the wire with count and mark filled in; a finished request is decoded as exactly the operations pushed |
| Rpc.Request.Replay | nfsv4/rpc.c:390-403 | Takes the next sequence id and xid; a finished call starting with SEQUENCE becomes the same call under the new session; of any other bytes nothing is promised |
| Reply.ParseRpc | nfsv4/rpc.c:124-150 | Computes the status of the reply in place, and the bad-session flag if and only if that status is BADSESSION |
| Reply.ReadUntil | nfsv4/rpc.c:259-288 | Computes the scan for an operation in place, with every way it can stop |
| Reply.ScanReachesBody | nfsv4/rpc.c:259-320 | For every well-formed successful reply whose operations before the target are SEQUENCE, PUTFH, PUTROOTFH and LOOKUP, the cursor ends at the first byte of the target's body |
| Reply.ScanVerdict | nfsv4/rpc.c:124-150 | For every well-formed reply, failed ones too: the scan succeeds if and only if the xid matches and the compound succeeded, reports a bad session if and only if its status says so, and never leaves the reply |
| Reply.BadSessionOnTheWire | nfsv4/rpc.c:140-144 | On bytes: a reply with our xid and status 00 00 27 44 is a bad session whatever follows, and one with any other failing status is not |
| Peer.RefusalOnTheWire | nfsv4/rpc.c:140-144 | The modelled server's refusal of a session it does not serve carries those four bytes there |
| Results.ParseStateid | nfsv4/xdr.c:150-156 | Reads what the XDR decoder reads, or fails if there is too little |
| Resok.SidReads | nfsv4/xdr.c:150-156 | Every stateid a server sends is read as itself, whatever follows |
| Resok.ExchangeReads | nfsv4/xdr.c:283-293 | Every EXCHANGE_ID result is read as its client id, sequence id and flags |
| Resok.SessionReads | nfsv4/xdr.c:73-96 | Every CREATE_SESSION result is read as its session id and the limits of its fore channel |
| Resok.OpenReads | nfsv4/xdr.c:168-189 | Every OPEN result without a delegation, with a bitmap of any length, is read as its stateid, and nothing behind it is taken |
| Resok.ReadReads | nfsv4/rpc.c:452-468 | Every READ result is read as its end-of-file mark and its data |
| Resok.HandleReads | nfsv4/rpc.c:378-387 | Every file handle is read as its length and its bytes |
| Results.ParseExchangeId | nfsv4/xdr.c:283-293 | On every reply: client id and sequence id are those the XDR decoder reads, or an error where it finds too little; marks exactly the replies whose client id the code would copy from beyond their end |
| Results.ParseCreateSession | nfsv4/xdr.c:73-96 | The same for the session id; and each limit is lowered to the server's, never raised |
| Results.ParseOpen | nfsv4/xdr.c:168-189 | On every reply: without a delegation reads the stateid and leaves the cursor behind the result, bitmap of any length included; otherwise an error, marked where the code would leave the reply or meets a delegation |
| Results.ParseRootFh | nfsv4/rpc.c:378-387 | Replaces as many bytes of the stored handle as the answer has, and refuses more than 128 |
| Session.BaseTransact | nfsv4/rpc.c:305-320 | One exchange: what it does at the server, what the client makes of the answer, and that a lost request or answer leaves the flag as it was |
| Session.TryIsExact | nfsv4/rpc.c:305-320 | One compound with SEQUENCE in whatever state: carried out if and only if it arrives on the live session with the slot's next id, taken for a bad session if and only if unanswered or answered by a server without the session, and the exact state of both sides after it |
| Session.DueThenInStep | nfsv4/rpc.c:305-320 | After one compound sent with the next id, an answer of any kind leaves client and slot in step again |
| Session.GetRootFhCall | nfsv4/rpc.c:365-388 | Sends SEQUENCE, PUTROOTFH, GETFH, takes one sequence id, and stores the handle of the answer at the start of the old one |
| Session.ExchangeIdCall | nfsv4/rpc.c:322-341 | Sends EXCHANGE_ID with the random owner, and stores the client id and sequence id of the result |
| Session.CreateSessionCall | nfsv4/rpc.c:343-363 | On success sent CREATE_SESSION once, with the client id, the sequence id and the limits the client had; is at id 1 of the session of the result, which the server serves, with each limit lowered |
| Session.ReclaimCompleteCall | nfsv4/rpc.c:505-516 | Sends SEQUENCE and RECLAIM_COMPLETE, takes one sequence id, and reads the answer to its end |
| Session.RpcConnection | nfsv4/rpc.c:518-530 | Uses only the reverse buffer, carries nothing out for a caller, and comes up if the link lets it; then exactly the four compounds of setup were sent, CREATE_SESSION with what EXCHANGE_ID answered; client id, limits and root handle are those of the answers; ids 1 and 2 of the new session are spent and the counter is at 3 |
| Session.Reconnect | nfsv4/rpc.c:422-428 | After a new connection, set up as RpcConnection says, and the replay, the pending compound from the forward buffer is due in the new session, with id 3; of a CREATE_SESSION nothing is left to send |
| Session.Transact | nfsv4/rpc.c:414-430 | In whatever state it is called: at most two tries, the second the replay in a new session after a bad session whose reconnection came up; each try is what the link decided; status, how it ends (answered, disconnected, both tries used up), everything that was sent, what the server carried out, and the exact state of both sides, root handle and limits included, follow from the tries; a CREATE_SESSION ends as its first try does, unless that is a bad session, and then fails; it ends for every finite number of failing CREATE_SESSIONs |
| SessionSafety.SettledIsInStep | nfsv4/rpc.c:414-430 | A call made in step, or that reconnected, and that ends with an answer leaves client and slot in step, answered refusals included |
| SessionSafety.SteadyIsInStep | nfsv4/rpc.c:414-430 | On a link that loses nothing, while the server keeps the session, every call in step is answered at its first try, carried out once, and leaves both sides in step whatever its status |
| SessionSafety.OutOfStepIff | nfsv4/rpc.c:414-430 | Unless a reconnection fails, a call made in step ends out of step if and only if both tries ended with a bad session; the counter is then exactly one ahead |
| SessionSafety.AheadIsRefused | nfsv4/rpc.c:414-430 | A call of transact with the counter ahead and a live session that is answered: one try, refused, nothing carried out, no reconnection, and the gap grows by one |
| SessionSafety.CarriedOut | nfsv4/rpc.c:414-430 | The server carries the compound out once for each try that is carried out; a second try follows only a first that was not both answered and carried out; success means the last try was carried out |
| SessionSafety.AtMostOnce | nfsv4/rpc.c:414-430 | On a link that answers every call the server carries a compound out at most once, and exactly once if the call succeeds, even if it restarts |
| SessionSafety.TwiceIff | nfsv4/rpc.c:414-430 | Made in step, a compound is carried out twice if and only if the first answer is lost on the live session, the reconnection comes up and the replay arrives at a server that has not restarted |
| SessionSafety.LostAnswerRunsTwice | nfsv4/rpc.c:414-430 | On every link that loses the first answer and lets the reconnection and the replay through, the compound is carried out twice |
| SessionRuns.SlotAgreement | nfsv4/rpc.c:343-430 | In every run of calls started in step in which reconnections succeed and no call uses both tries up, after every call, refused ones included, the k-th SEQUENCE of the session carried k and the counter is one ahead of the slot |
| SessionRuns.ReconnectionRecovers | nfsv4/rpc.c:414-430 | A call that reconnects and is answered brings any run, in step or not, back in step |
| SessionRuns.AheadForEver | nfsv4/rpc.c:414-430 | After a call that used both tries up, and while the server keeps the session, every later call of the run is refused at its first try and nothing is carried out |
| SessionRuns.OncePerCall | nfsv4/rpc.c:414-430 | Over every run on a reliable link the server carries out at least as many compounds as calls succeeded, and no more than were made |
| SessionRuns.Play | nfsv4/client.c:33-56 | Any script of locks, unlocks, reads, writes, size queries and opens on one file, each made whatever became of those before it, is such a run |
| SessionRuns.CreateClient | nfsv4/client.c:152-178 | A client with the defaults of the source; when its first connection comes up, it is in step, and set up from those defaults as RpcConnection says |
| SessionRuns.CarriedOutTwice | nfsv4/rpc.c:414-430 | A run on the wire in which one size query is carried out twice: its first answer is lost, the client reconnects, and the replay succeeds |
| SessionRuns.RefusedForGood | nfsv4/rpc.c:414-430 | A run in which both tries of a call meet a restarted server, and the next call is refused although nothing is lost any more and the server has the session |
| Files.LookupsInOrder | nfsv4/rpc.c:251-256 | A path is looked up component by component, in order |
| Files.PushLookups | nfsv4/rpc.c:251-256 | One LOOKUP for each component, in order, for paths of any length |
| Files.PushResolutionRfh | nfsv4/rpc.c:238-247 | PUTFH of the stored root handle and the LOOKUPs; it names the root if and only if the handle has 128 bytes |
| Files.PushInitialPath | nfsv4/rpc.c:485-492 | Walks to the directory and returns the last component |
| Files.NewOpen | nfsv4/client.c:45-56 | The compound for every path: SEQUENCE, PUTFH, LOOKUPs, OPEN, GETFH |
| Files.NewExists | nfsv4/client.c:114-121 | The compound for every path, the empty one included |
| Files.NewRemove | nfsv4/client.c:128-136 | The compound for every non-empty path |
| Files.OpenFile | nfsv4/client.c:45-79 | In whatever state: one call of transact with exactly this compound; on success the open and latest stateids are that of the OPEN result, with any bitmap, and the handle that of the GETFH result; otherwise they are unchanged |
| Files.File.LockRange | nfsv4/rpc.c:532-552 | In whatever state: one call of transact with exactly this LOCK; on success the latest stateid is the one it returned, on failure the old one |
| Files.File.UnlockRange | nfsv4/rpc.c:554-568 | The same for LOCKU, sent with the latest stateid |
| Files.File.ReadChunk | nfsv4/rpc.c:452-468 | One call of transact with exactly this READ; on success the data are those of the result |
| Files.File.WriteChunk | nfsv4/rpc.c:473-483 | One call of transact with exactly this WRITE; the count in the answer is ignored, as in the code |
| Files.File.FileSize | nfsv4/rpc.c:432-447 | One call of transact with exactly this GETATTR; on success the result is the encoding of the size returned |
| Segment.ChunksTile | nfsv4/rpc.c:494-503 | The chunks are contiguous, none empty or over the limit, ceil(length / limit) of them, and cover the range |
| Segment.Segment | nfsv4/rpc.c:494-503 | Asks for the chunks in order up to the first that the remote does not complete, and says which; exactly the chunks before it took effect, and it did if and only if its answer was lost |
| Segment.WriteFile | nfsv4/client.c:39-43 | Succeeds if and only if the remote completes every chunk; asks for the chunks in order up to the first that it does not complete; the file then has exactly the prefix before that chunk, and the chunk too if and only if its answer was lost |
| Segment.ReadFile | nfsv4/client.c:33-37 | Succeeds if and only if the remote completes every chunk, asked in order up to the first it does not; what came before that is in the destination |
| Segment.WriteReadBack | nfsv4/client.c:33-43 | For any data, offset, length and two positive limits: succeeds if and only if the remote completes every chunk of both passes; then what was written comes back and the rest of the file is as it was |
| Vector.JoinOfSplit | nfsv4/vector.h:43-67 | Joining what was split gives the text, less one divider at its end |
| Vector.SplitOfJoinIff | nfsv4/vector.h:43-67 | Splitting what was joined gives the components if and only if none contains the divider and the last is not empty |
| Vector.Split | nfsv4/vector.h:43-57 | The pass over the bytes computes the components |
| Vector.Join | nfsv4/vector.h:59-67 | The loop over the components computes the joined text |

## Left out

- Session.Transact: of a call whose reconnection failed it says what was carried out, not what state the client is left in; there is no session then.
- Rpc.Request.Replay: patches where `push_sequence` wrote the session id, byte 96, and not at the literal 60, which hits the credential; what patching at 60 comes to is `Replay.LiteralOffsetRebuildsIff`.
- Files.File.WriteChunk: the byte count in the answer is ignored, as in the code; the segment model therefore assumes full counts up to the end of the file.
- Segment.Segment: offsets are unbounded, where the code adds in 64 bits, and a limit of zero is excluded because the loop does not end.
- Reply.ReadUntil: where the code skips bytes unchecked and leaves the reply, the scan stops with a mark; what the code reads from there on is not modelled. The theorems about replies are about well-formed ones.
- Buffer.ByteBuffer.PushFixedString: its copying is bounded for three bytes or more, and from `start == 0`; the code only pushes twelve.
- Results.ParseExchangeId: of a reply too short for the client id it says that the code reads beyond it, not what it finds there.
- Results.ParseCreateSession: the same for the session id.
- Results.ParseOpen: the same for the bitmap, and an error for every delegation.
- SessionRuns.CreateClient: the overrides from the environment, the hostname and the clock are left out.
- Vector.Vector.Pop: requires something to pop, where the code panics.
- Quantile.Summary.Add: the stream is shorter than 2^30, so that doubling the count stays within the type of the code, and values are real numbers without NaN.
- LockProtocol.StepKeepsInv: one handle and one lock owner per client, and one client id throughout; locks lost with a session are not modelled.
- Resok.ExchangeReads: results with state protection other than SP4_NONE, which the client never asks for, are not among the results of the model.
- Sockets, DNS, `read_fully` and partial reads: a reply is a delivered sequence of bytes.
- Several handles of one client on one file, which share a lock owner.
- Servers that refuse a LOCKU whose range is not that of a lock held.
- The stateid sequence number of the lock model is unbounded.
- The delegation arms of `parse_open`, which end in errors or fall through, and `parse_ace`: the server gives no delegations.
- `exists` and `delete` beyond their compounds: what they do with the answer is to look at its status.
- The branch of `file_rpc` that is never configured.
- `destroy_session` is built but nothing calls it; only the pushing of its operation is modelled.
- A bound on requests by `maxreq`: the code ignores the headers.
- The error guarantee of `quantile` and an upper rank bound: compressing may merge the head.
- The internals of `band`, printing, tracing, configuration, the VFS stubs, the benchmarks and the tools.

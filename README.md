# SwifterSockets, modelled in Dafny

SwifterSockets is a Swift library for TCP/IP and TLS sockets. It covers setting up servers and clients, sending and receiving data, and keeping a pool of connection objects. This project models the parts of it that are sequential logic rather than calls into POSIX or OpenSSL, and proves what they do:

- **JSON end-of-message detection** (`Receive`). A JSON end detector scans received bytes chunk by chunk. Its phase and brace counters persist between calls. It reports the first `}` outside a string that balances the braces. The model is a class whose `EndReached` loop is proved against a pure scan of the bytes. Lemmas cover string and escape handling and show that feeding the input in chunks gives the same answer as feeding it whole. The receive result is also mapped to a return value or an exception.
- **`fd_set` bit macros** (`FdMacros`, `FdMacrosLinux`, `FdMacrosLegacy`). These are `fdZero`, `fdSet`, `fdClr` and `fdIsSet` on an array of 32 words of 32 bits (macOS) or 16 words of 64 bits (Linux). They are modelled on bit-vector arrays updated in place. The lemmas prove membership: set adds exactly the descriptor, clear removes exactly it, and nothing else changes. In the current macros, which shift with Swift 4's smart shift, nil and descriptors outside 0..1023 are ignored. The older copies shift with the Swift 2 and 3 operator, which traps on a negative amount, so a negative descriptor that is not a multiple of 32 (the -1 of a closed socket) is a precondition there.
- **Counters and the socket close guard** (`Counters`). These are `increment`, `decrementAndExecuteOnNull` and the nil guard of `closeSocket`.
- **`TipInterface`** (`Tip`). It holds a socket that may be absent. It has validity, a log id, an idempotent close, and the guards of transfer and the receiver loop.
- **`Connection`** (`Connections`). This is the connection object with options, usage counting, deferred close and inactivity detection. It is a class whose methods are proved against pure transitions of its protected state (`Lifecycle`). The lemmas show that an invariant is preserved, that a deferred close happens at the last decrement, and that at most one inactivity check can still fire.
- **The typed connection of the oldest API** (`TypedConnections`). This is `Connection` over a `ConnectionType` (`http(socket)` or `https(ssl, socket)`), with its `socket`/`ssl` properties and its close-on-event callbacks. When the connection receives its own transmitter callbacks, a failed transfer closes it before the transfer returns.
- **`ConnectionPool`** (`Pool`). The pool has `available` and `inUse` lists, an optional sorter, allocate, allocate-or-timeout, free and create, in the current version and in the older `popLast` version. The lemmas show that no object is gained or lost and that the two lists stay disjoint.
- **OpenSSL result mappings** (`Ssl`). These are `Ssl.Result.init(for:)`, its `==` and `!=`, `X509_VerificationResult.init(for:)`, `FileEncoding.asInt32` and `KeyCertFile`. The OpenSSL 1.1.0 constants are written out as named integers.

Some source files hold copies of the same code, and each is modelled once:
- `Sources/SwifterSockets.swift:390-559` holds the Swift 3 copy of `fdZero` … `fdIsSet`. A nil descriptor behaves as in `FdMacros` (nothing happens, false). A present one behaves as in `FdMacrosLegacy`, including the trap on a negative shift amount.
- `Sources/SwifterSockets.swift:86-102` and `:668-673` hold copies of `increment`, `decrementAndExecuteOnNull` and `closeSocket`. `Counters` models them, and the rows cite either copy.
- `Sources/SwifterSockets.Connection.swift:132-236` holds a copy of `TipInterface`, which `Tip` models.
- `Sources/SwifterSockets.Connection.swift` also holds an older `Connection` class. Its usage counting, close and option handling are those of `Connections`, and some rows cite it.

Threads, dispatch queues and timers are modelled as follows:
- Each closure that the source dispatches is one atomic step.
- A closure queued for later is an entry in a sequence (`jobs`, `scheduledChecks`), run by a method of its own.
- Calls to the outside world (closing a socket, starting a transfer, calling a user handler) are appended to an `events` sequence.

## Model

| member | source | states |
|---|---|---|
| Receive.DataEndDetector.EndReached | SwifterSockets/SwifterSockets.Receive.swift:71-73 | The base detector never reports an end, for any buffer. |
| Receive.JsonEndDetector.constructor | SwifterSockets/SwifterSockets.Receive.swift:81-85 | A new detector starts in `NORMAL` with both brace counters 0. |
| Receive.JsonEndDetector.EndReached | SwifterSockets/SwifterSockets.Receive.swift:87-124 | The byte loop returns true exactly when the bytes hold an end, scanning from the stored phase and counters. It leaves the state the scan reaches when it stops right after that end, or at the end of the buffer. |
| Receive.FirstEnd | SwifterSockets/SwifterSockets.Receive.swift:93-97 | The index of the first byte that ends the message lies inside the buffer. |
| Receive.Step | SwifterSockets/SwifterSockets.Receive.swift:88-123 | One pass of the switch: `{` and `}` are counted only in `NORMAL`, and each by one. The phase changes are stated by `QuotedStringSkipped`, `EscapeStaysInString` and `UnicodeEscapeSkipsFour`. |
| Receive.FirstEndExtends | SwifterSockets/SwifterSockets.Receive.swift:95-97 | Once an end is found in a prefix, appending bytes does not move it. |
| Receive.CountsBracesOutsideStrings | SwifterSockets/SwifterSockets.Receive.swift:90-100 | In `NORMAL`, bytes without `"` add the number of `{` and `}` to the two counters and keep the phase. |
| Receive.StringContentIgnored | SwifterSockets/SwifterSockets.Receive.swift:101-106 | Inside a string, bytes other than `"` and `\` change nothing and never end the message. |
| Receive.QuotedStringSkipped | SwifterSockets/SwifterSockets.Receive.swift:98-106 | A quoted string, braces included, leaves the counters and phase as they were and ends nothing. |
| Receive.FeedSnoc | SwifterSockets/SwifterSockets.Receive.swift:88-122 | Scanning one more byte is one more step of the switch. |
| Receive.FirstEndSnoc | SwifterSockets/SwifterSockets.Receive.swift:88-122 | An end found earlier stays the first; otherwise the appended byte is the end exactly when it balances the braces. |
| Receive.EscapeStaysInString | SwifterSockets/SwifterSockets.Receive.swift:104-112 | `\` followed by any byte but `u` leaves the scan inside the string, so `\"` does not end it. |
| Receive.UnicodeEscapeSkipsFour | SwifterSockets/SwifterSockets.Receive.swift:108-120 | After `\u`, exactly four bytes are skipped whatever they are, and the scan is back inside the string. |
| Receive.FeedConcat | SwifterSockets/SwifterSockets.Receive.swift:82-85 | Scanning `a + b` equals scanning `a` and then scanning `b` from the state it left. |
| Receive.FirstEndConcat | SwifterSockets/SwifterSockets.Receive.swift:82-85 | When `a` holds no end, the end in `a + b` is the end in `b` scanned from `a`'s state, shifted by `|a|`. |
| Receive.ChunkedScan | SwifterSockets/SwifterSockets.Receive.swift:60-61 | After a chunk without an end, the next chunk reports an end exactly when the whole input does, and leaves the same state. |
| Receive.NoEndBefore | SwifterSockets/SwifterSockets.Receive.swift:93-97 | No end is found exactly when no byte of the input ends the message. |
| Receive.FirstEndIsFirst | SwifterSockets/SwifterSockets.Receive.swift:93-97 | The end is at `k` exactly when byte `k` ends the message and none before it does. |
| Receive.ReceiveBytesOrThrow | SwifterSockets/SwifterSockets.Receive.swift:744-755 | `TIMEOUT` throws the timeout exception and `ERROR(m)` throws `MESSAGE(m)`. `BUFFER_FULL` returns the buffer size. `READY(n)` and `CLIENT_CLOSED(n)` return `n` when `n` is an `Int`, and otherwise throw the programming-error messages. |
| FdMacros.Zeroed | Sources/SwifterSockets/FileDescriptorMacros.swift:53-64 | A cleared set has 32 words. |
| FdMacros.WithBitSet | Sources/SwifterSockets/FileDescriptorMacros.swift:108-146 | `fdSet` keeps the set at 32 words. |
| FdMacros.WithBitCleared | Sources/SwifterSockets/FileDescriptorMacros.swift:192-230 | `fdClr` keeps the set at 32 words. |
| FdMacros.FdZero | Sources/SwifterSockets/FileDescriptorMacros.swift:53-64 | Every word of the array becomes 0. |
| FdMacros.FdSet | Sources/SwifterSockets/FileDescriptorMacros.swift:76-150 | The array becomes the set with bit `fd % 32` of word `fd / 32` set (Swift's truncating division and remainder); nil changes nothing. |
| FdMacros.FdClr | Sources/SwifterSockets/FileDescriptorMacros.swift:160-234 | The array becomes the set with that bit cleared; nil changes nothing. |
| FdMacros.FdIsSet | Sources/SwifterSockets/FileDescriptorMacros.swift:244-321 | True exactly when `fd` is present and its bit is set; nil gives false. |
| FdMacros.SetSetsOwn | Sources/SwifterSockets/FileDescriptorMacros.swift:108-146 | OR-ing the mask sets the bit. |
| FdMacros.SetKeepsOther | Sources/SwifterSockets/FileDescriptorMacros.swift:108-146 | OR-ing the mask keeps every other bit of the word. |
| FdMacros.ClearClearsOwn | Sources/SwifterSockets/FileDescriptorMacros.swift:192-230 | AND-ing the inverted mask clears the bit. |
| FdMacros.ClearKeepsOther | Sources/SwifterSockets/FileDescriptorMacros.swift:192-230 | AND-ing the inverted mask keeps every other bit. |
| FdMacros.OutOfRangeSelectsNothing | Sources/SwifterSockets/FileDescriptorMacros.swift:108-146 | A descriptor outside 0..1023 gives a word index outside the array or a zero mask. |
| FdMacros.ZeroedIsEmpty | Sources/SwifterSockets/FileDescriptorMacros.swift:53-64 | After `fdZero` no descriptor is a member. |
| FdMacros.SetMembership | Sources/SwifterSockets/FileDescriptorMacros.swift:76-150 | After `fdSet(fd)`, `g` is a member exactly when it was one before, or it is `fd` and lies in 0..1023. |
| FdMacros.SetOwnBit | Sources/SwifterSockets/FileDescriptorMacros.swift:108-146 | `fdSet` of a descriptor in 0..1023 makes it a member. |
| FdMacros.SetOtherBit | Sources/SwifterSockets/FileDescriptorMacros.swift:108-146 | `fdSet` keeps the membership of the other descriptors of the same word. |
| FdMacros.ClearMembership | Sources/SwifterSockets/FileDescriptorMacros.swift:160-234 | After `fdClr(fd)`, `g` is a member exactly when it was one before and is not `fd`. |
| FdMacros.ClearOwnBit | Sources/SwifterSockets/FileDescriptorMacros.swift:192-230 | `fdClr` of a descriptor in 0..1023 removes it. |
| FdMacros.ClearOtherBit | Sources/SwifterSockets/FileDescriptorMacros.swift:192-230 | `fdClr` keeps the membership of the other descriptors of the same word. |
| FdMacros.SetThenIsSet | Sources/SwifterSockets/FileDescriptorMacros.swift:244-321 | `fdIsSet` after `fdSet` of the same in-range descriptor is true. |
| FdMacros.ClearThenIsSet | Sources/SwifterSockets/FileDescriptorMacros.swift:244-321 | `fdIsSet` after `fdClr` of the same descriptor is false. |
| FdMacros.SetIsLocalAndIdempotent | Sources/SwifterSockets/FileDescriptorMacros.swift:76-150 | `fdSet` changes only word `fd / 32`, and repeating it changes nothing. |
| FdMacros.ClearIsLocalAndIdempotent | Sources/SwifterSockets/FileDescriptorMacros.swift:160-234 | `fdClr` changes only word `fd / 32`, and repeating it changes nothing. |
| FdMacros.OutOfRangeIgnored | Sources/SwifterSockets/FileDescriptorMacros.swift:78 | A nil descriptor, or one outside 0..1023, leaves the set unchanged and is never a member. |
| FdMacros.SetThenClear | Sources/SwifterSockets/FileDescriptorMacros.swift:160-234 | `fdClr` undoes `fdSet` of a descriptor that was not a member. |
| FdMacrosLinux.Zeroed | Sources/SwifterSockets/FileDescriptorMacros.swift:53-64 | A cleared Linux set has 16 words. |
| FdMacrosLinux.WithBitSet | Sources/SwifterSockets/FileDescriptorMacros.swift:82-104 | `fdSet` keeps the Linux set at 16 words. |
| FdMacrosLinux.WithBitCleared | Sources/SwifterSockets/FileDescriptorMacros.swift:166-188 | `fdClr` keeps the Linux set at 16 words. |
| FdMacrosLinux.FdZero | Sources/SwifterSockets/FileDescriptorMacros.swift:53-64 | Every 64-bit word becomes 0. |
| FdMacrosLinux.FdSet | Sources/SwifterSockets/FileDescriptorMacros.swift:82-104 | The array becomes the set with bit `fd % 64` of word `fd / 64` set. |
| FdMacrosLinux.FdClr | Sources/SwifterSockets/FileDescriptorMacros.swift:166-188 | The array becomes the set with that bit cleared. |
| FdMacrosLinux.FdIsSet | Sources/SwifterSockets/FileDescriptorMacros.swift:250-272 | True exactly when `fd` is present and its bit is set. |
| FdMacrosLinux.SetSetsOwn | Sources/SwifterSockets/FileDescriptorMacros.swift:82-104 | OR-ing the 64-bit mask sets the bit. |
| FdMacrosLinux.SetKeepsOther | Sources/SwifterSockets/FileDescriptorMacros.swift:82-104 | OR-ing the 64-bit mask keeps every other bit. |
| FdMacrosLinux.ClearClearsOwn | Sources/SwifterSockets/FileDescriptorMacros.swift:166-188 | AND-ing the inverted mask clears the bit. |
| FdMacrosLinux.ClearKeepsOther | Sources/SwifterSockets/FileDescriptorMacros.swift:166-188 | AND-ing the inverted mask keeps every other bit. |
| FdMacrosLinux.OutOfRangeSelectsNothing | Sources/SwifterSockets/FileDescriptorMacros.swift:82-104 | A descriptor outside 0..1023 gives a word index outside the array or a zero mask. |
| FdMacrosLinux.ZeroedIsEmpty | Sources/SwifterSockets/FileDescriptorMacros.swift:53-64 | After `fdZero` no descriptor is a member. |
| FdMacrosLinux.SetMembership | Sources/SwifterSockets/FileDescriptorMacros.swift:82-104 | After `fdSet(fd)`, exactly the former members and an in-range `fd` are members. |
| FdMacrosLinux.SetOwnBit | Sources/SwifterSockets/FileDescriptorMacros.swift:82-104 | `fdSet` of an in-range descriptor makes it a member. |
| FdMacrosLinux.SetOtherBit | Sources/SwifterSockets/FileDescriptorMacros.swift:82-104 | `fdSet` keeps the other descriptors of the word. |
| FdMacrosLinux.ClearMembership | Sources/SwifterSockets/FileDescriptorMacros.swift:166-188 | After `fdClr(fd)`, exactly the former members other than `fd` are members. |
| FdMacrosLinux.ClearOwnBit | Sources/SwifterSockets/FileDescriptorMacros.swift:166-188 | `fdClr` of an in-range descriptor removes it. |
| FdMacrosLinux.ClearOtherBit | Sources/SwifterSockets/FileDescriptorMacros.swift:166-188 | `fdClr` keeps the other descriptors of the word. |
| FdMacrosLinux.SetThenIsSet | Sources/SwifterSockets/FileDescriptorMacros.swift:250-272 | `fdIsSet` after `fdSet` of the same in-range descriptor is true. |
| FdMacrosLinux.ClearThenIsSet | Sources/SwifterSockets/FileDescriptorMacros.swift:250-272 | `fdIsSet` after `fdClr` of the same descriptor is false. |
| FdMacrosLinux.SetIsLocalAndIdempotent | Sources/SwifterSockets/FileDescriptorMacros.swift:82-104 | `fdSet` changes only word `fd / 64`, and repeating it changes nothing. |
| FdMacrosLinux.ClearIsLocalAndIdempotent | Sources/SwifterSockets/FileDescriptorMacros.swift:166-188 | `fdClr` changes only word `fd / 64`, and repeating it changes nothing. |
| FdMacrosLinux.OutOfRangeIgnored | Sources/SwifterSockets/FileDescriptorMacros.swift:318-320 | A nil or out-of-range descriptor leaves the set unchanged and is never a member. |
| FdMacrosLinux.SetThenClear | Sources/SwifterSockets/FileDescriptorMacros.swift:166-188 | `fdClr` undoes `fdSet` of a descriptor that was not a member. |
| FdMacrosLegacy.FdZero | SwifterSockets/SwifterSockets.swift:135-137 | Every word becomes 0. |
| FdMacrosLegacy.ShiftDefinedExactly | SwifterSockets/SwifterSockets.swift:146-156 | `1 << (fd % 32)` is defined exactly for non-negative descriptors and negative multiples of 32. The -1 of a closed socket traps, as the note at the mask statement warns. |
| FdMacrosLegacy.FdSet | SwifterSockets/SwifterSockets.swift:151-190 | Requires a shift amount `fd % 32` that is not negative (the source traps otherwise). The array becomes the set with bit `fd % 32` of word `fd / 32` set. |
| FdMacrosLegacy.FdClr | SwifterSockets/SwifterSockets.swift:202-241 | Under the same precondition, the array becomes the set with that bit cleared. |
| FdMacrosLegacy.FdIsSet | SwifterSockets/SwifterSockets.swift:253-292 | Under the same precondition, true exactly when the bit of `fd` is set, and only for descriptors in 0..1023. |
| FdMacrosLegacy.SetAndClearMembership | SwifterSockets/SwifterSockets.swift:151-241 | For descriptors that do not trap: after `fdSet(f)`, exactly the former members and an in-range `f` are members; after `fdClr(f)`, exactly the former members other than `f`. |
| FdMacrosLegacy.OutOfRangeIgnored | SwifterSockets/SwifterSockets.swift:151-190 | The out-of-range descriptors that do not trap are 1024 and above and the negative multiples of 32. `fdSet` and `fdClr` ignore them, and they are never members. |
| Counters.AfterDecrement | Sources/SwifterSockets/SwifterSocketsUtils.swift:64-73 | A positive count goes down by one; zero or a negative count stays. |
| Counters.Increment | Sources/SwifterSockets/SwifterSocketsUtils.swift:57-59 | The count goes up by one, and a decrement undoes it for a non-negative count. |
| Counters.DecrementAndExecuteOnNull | Sources/SwifterSockets.swift:93-102 | The count is decremented unless it is already 0. The closure runs, and its value is returned, exactly when the count is then 0 (it was 0 or 1). |
| Counters.CountsDownToZero | Sources/SwifterSockets/SwifterSocketsUtils.swift:64-73 | `k` decrements of `n` give `n - k`, never below 0; the count reaches 0 exactly after `n` of them. |
| Counters.DecrementUndoesIncrement | Sources/SwifterSockets.swift:86-88 | For a non-negative count, decrement after increment restores it. |
| Counters.CloseSocket | Sources/SwifterSockets/SwifterSocketsUtils.swift:262-267 | Nil gives nil; otherwise the result is whether `close` returned 0. |
| Tip.TipInterface.LogId | Sources/SwifterSockets/TipInterface.swift:56 | The socket, or -1 when there is none. |
| Tip.TipInterface.IsValid | Sources/SwifterSockets/TipInterface.swift:68-72 | Valid exactly when the socket, or the -1 that `logId` reports without one, is not negative. `Init`, `AfterClose` and `Transfer` state what follows from it. |
| Tip.TipInterface.Close | Sources/SwifterSockets/TipInterface.swift:88-94 | A valid interface closes its socket and forgets it. An invalid one closes nothing and stays as it is. |
| Tip.TipInterface.AfterClose | Sources/SwifterSockets.Connection.swift:171-176 | After `close` the interface is invalid, and an invalid one is unchanged. |
| Tip.TipInterface.Transfer | Sources/SwifterSockets/TipInterface.swift:107-126 | No transfer when invalid. Otherwise a transfer on the socket, with the given timeout or 10 s. |
| Tip.TipInterface.ReceiverLoop | Sources/SwifterSockets/TipInterface.swift:138-152 | No loop when invalid. Otherwise the loop on the socket with the given buffer size and duration. |
| Tip.Init | Sources/SwifterSockets/TipInterface.swift:80-83 | The socket is stored; the interface is valid exactly when the socket is not negative. |
| Tip.CloseIdempotent | Sources/SwifterSockets.Connection.swift:171-236 | A second `close` changes nothing, and a closed interface starts no transfer and no receiver loop. |
| Tip.LogIdAfterClose | Sources/SwifterSockets/TipInterface.swift:56-94 | After `close` the log id is negative. |
| Connections.ApplyWritesOneField | Sources/SwifterSockets/Connection.swift:375-394 | An option sets its own property and leaves every property of another kind alone. |
| Connections.Apply | Sources/SwifterSockets/Connection.swift:379-392 | One case of the `setOptions` switch: the option's own property holds its value. `ApplyWritesOneField` adds that no other property changes. |
| Connections.ApplyAll | Sources/SwifterSockets/Connection.swift:375-394 | The options applied in order: none leaves the settings as they were, and the last one always holds. `LastOneWins` and `UnnamedFieldKept` state the rest. |
| Connections.LastOneWins | Sources/SwifterSockets/Connection.swift:375-394 | When an option is repeated, the last occurrence wins. |
| Connections.UnnamedFieldKept | Sources/SwifterSockets.Connection.swift:570-589 | A property that no option names keeps its value. |
| Connections.ClosedLife | Sources/SwifterSockets/Connection.swift:807-811 | `_closeConnection` drops the interface, and its last effect is `connectionWasClosed`. |
| Connections.Incremented | Sources/SwifterSockets/Connection.swift:399-409 | The count goes up by one while the interface is present; otherwise nothing changes. |
| Connections.Decremented | Sources/SwifterSockets/Connection.swift:414-465 | The closure of `decrementUsageCount`: nothing at 0, else one less. The interface goes only when the last use ends with a close pending, and a check is scheduled only when the last use ends, armed, without one. |
| Connections.CloseRequested | Sources/SwifterSockets/Connection.swift:789-805 | The closure of `closeConnection`: an idle connection with an interface is closed at once. A busy one keeps its interface with the close pending. The usage count and the scheduled checks are unchanged. |
| Connections.CheckFired | Sources/SwifterSockets/Connection.swift:451-460 | The inactivity closure removes the one check. The action runs only when the connection is idle and no newer request was made. `CheckFiresOnlyWhenIdleAndNewest` states the exact condition, which also needs an action to be set. |
| Connections.TargetOf | Sources/SwifterSockets/Connection.swift:562-566 | Callbacks go to `callback`, else `transmitterProtocol`, else the connection itself. |
| Connections.Transferred | Sources/SwifterSockets/Connection.swift:557-567 | Inside the usage bracket the count is unchanged. An invalid interface starts nothing and makes no callback. |
| Connections.ReceiverStartEvents | Sources/SwifterSockets/Connection.swift:833-841 | The queued closure starts the receiver loop exactly when the interface is present and valid, with the buffer size and loop duration. |
| Connections.TransferKeepsInv | Sources/SwifterSockets/Connection.swift:501-575 | A transfer keeps the invariant and ends with the usage count it started with, whatever callback the connection receives during it. |
| Connections.SelfCloseDeferredToTransferEnd | Sources/SwifterSockets/Connection.swift:864-875 | A timeout or error delivered to the connection during a transfer only sets `pendingClose`. When the transfer was the only user, its own decrement then closes the connection, and no inactivity check is scheduled. |
| Connections.TransmitterClosedState | Sources/SwifterSockets/Connection.swift:856-859 | The interface is dropped and the usage count is kept. |
| Connections.IncrementKeepsInv | Sources/SwifterSockets.Connection.swift:604-614 | `incrementUsageCount` keeps the invariant: the count is non-negative, and a pending close has a user or no interface. Scheduled checks are increasing and not newer than the request count. |
| Connections.DecrementKeepsInv | Sources/SwifterSockets/Connection.swift:414-465 | `decrementUsageCount` keeps the invariant; a new check carries the new, largest request number. |
| Connections.CloseKeepsInv | Sources/SwifterSockets/Connection.swift:789-811 | A close request, a peer close and reporting keep the invariant. |
| Connections.CheckFiredKeepsInv | Sources/SwifterSockets/Connection.swift:451-460 | A check that fires keeps the invariant. |
| Connections.AtMostOneLiveCheck | Sources/SwifterSockets.Connection.swift:650-664 | At most one scheduled check carries the current request number, so at most one can run the action. |
| Connections.CheckFiresOnlyWhenIdleAndNewest | Sources/SwifterSockets/Connection.swift:451-460 | A check runs the inactivity action exactly when the count is 0, it is the newest request and an action is set. It never touches the interface or the count. |
| Connections.BracketNeutral | Sources/SwifterSockets/Connection.swift:823-843 | An increment followed by a decrement restores the count, interface, pending close and effects. With other users present it restores everything. |
| Connections.DecrementNeverNegative | Sources/SwifterSockets/Connection.swift:420-428 | A decrement takes a positive count down by one and leaves 0 at 0. |
| Connections.CloseWhenIdle | Sources/SwifterSockets.Connection.swift:1020-1036 | A close request on an idle open connection closes it at once: the socket, then `connectionWasClosed`. |
| Connections.DeferredClose | Sources/SwifterSockets/Connection.swift:789-805 | With `n` users, a close request is deferred: after `n - 1` decrements the interface is still there, and the `n`-th decrement closes it. |
| Connections.PendingCountdown | Sources/SwifterSockets/Connection.swift:426-440 | While a close is pending, decrements only count down until the last user. |
| Connections.Connection.constructor | Sources/SwifterSockets/Connection.swift:156-267 | The property defaults, no interface and nothing counted; the invariant holds. |
| Connections.Connection.Reset | Sources/SwifterSockets/Connection.swift:339-359 | The defaults: 10 s transmitter timeout, 5 s receiver loop, 20 KiB buffer, address "-", everything else nil; no interface, count 0, no pending close. |
| Connections.Connection.SetOptions | Sources/SwifterSockets/Connection.swift:375-394 | The options are applied in order, and nothing else changes. |
| Connections.Connection.Prepare | Sources/SwifterSockets/Connection.swift:305-332 | Fails and changes nothing when an interface is present. Otherwise the object is reset, then stores the interface and address and applies the options. |
| Connections.Connection.IncrementUsageCount | Sources/SwifterSockets/Connection.swift:399-409 | The state becomes `Incremented` of the old state. |
| Connections.Connection.CloseNow | Sources/SwifterSockets/Connection.swift:807-811 | The state becomes `ClosedLife` of the old state. |
| Connections.Connection.DecrementUsageCount | Sources/SwifterSockets/Connection.swift:414-465 | The state becomes `Decremented`; a check is scheduled only when both an action and a threshold are set. |
| Connections.Connection.CloseConnection | Sources/SwifterSockets/Connection.swift:789-805 | The state becomes `CloseRequested` of the old state. |
| Connections.Connection.FireInactivityCheck | Sources/SwifterSockets/Connection.swift:444-460 | The scheduled check runs as `CheckFired` with the current inactivity action. |
| Connections.Connection.Tqueue | Sources/SwifterSockets/Connection.swift:472-486 | The transmitter queue if set. Otherwise a new queue for the QoS, which is then remembered. Otherwise nil. |
| Connections.Connection.Transfer | Sources/SwifterSockets/Connection.swift:501-575 | No interface gives `.closed` and changes nothing. With a transmitter queue the closure is queued and `.queued(id)` is returned. Otherwise the transfer runs inline, and a callback to the connection itself runs inside the usage bracket; the transfer's result is returned, or `.error("Interface no longer available")` for an invalid interface. A queue created for the QoS is stored in the settings, and the settings change in no other way. The usage count ends where it started. |
| Connections.Connection.TransferInline | Sources/SwifterSockets/Connection.swift:557-567 | The inline transfer: the result for a valid interface, the error for an invalid one, and the state `Transferred`. |
| Connections.Connection.DeliverToSelf | Sources/SwifterSockets/Connection.swift:851-875 | The callback for the transfer's result: nothing for ready, report and close request for timeout and error, and the interface dropped for closed. |
| Connections.Connection.RunTransmitterJob | Sources/SwifterSockets/Connection.swift:525-553 | The oldest queued transfer runs only if the interface is still there. The connection's own callback runs inside the balanced usage bracket. |
| Connections.Connection.StartReceiverLoop | Sources/SwifterSockets/Connection.swift:823-843 | The receiver queue or a new one; the loop is scheduled inside an increment/decrement pair. |
| Connections.Connection.RunReceiverStart | Sources/SwifterSockets/Connection.swift:833-841 | The queued closure starts the interface's receiver loop, or nothing when the interface is gone. |
| Connections.Connection.TransmitterClosed | Sources/SwifterSockets/Connection.swift:856-859 | The interface is dropped and `connectionWasClosed` is called. |
| Connections.Connection.TransmitterTimeout | Sources/SwifterSockets/Connection.swift:864-867 | The error handler gets "Timeout on transmission", then a close is requested. |
| Connections.Connection.ReportErrorAndClose | Sources/SwifterSockets/Connection.swift:872-875 | The error handler gets the message, then a close is requested. |
| Connections.Connection.ReceiverData | Sources/SwifterSockets/Connection.swift:912-936 | Without an interface it returns false and changes nothing. Otherwise the processing result is returned inside a balanced increment/decrement. |
| TypedConnections.SocketOf | SwifterSockets/SwifterSockets.Connection.swift:105-111 | The socket of `http` or `https`; -2 when there is no type. |
| TypedConnections.SslOf | SwifterSockets/SwifterSockets.Connection.swift:116-122 | The ssl object exactly for `https`. |
| TypedConnections.CallbackTarget | SwifterSockets/SwifterSockets.Connection.swift:310-358 | Callbacks go to `transmitterCallback` when set, else to the connection itself. The `callback` argument is not consulted. |
| TypedConnections.CloseEffects | SwifterSockets/SwifterSockets.Connection.swift:429-444 | The socket is closed for `https` and for `http` with a valid socket, the ssl object is freed exactly for `https`, and there are no other effects. |
| TypedConnections.QueuedTransferEffects | SwifterSockets/SwifterSockets.Connection.swift:293-332 | A queued transfer does nothing with no type or an invalid `http` socket, else exactly one transfer. Its callbacks go to `transmitterCallback ?? self`. |
| TypedConnections.Reported | SwifterSockets/SwifterSockets.Connection.swift:464-475 | The error handler is called with the message exactly when one is set. |
| TypedConnections.SelfCallbackEvents | SwifterSockets/SwifterSockets.Connection.swift:449-475 | The connection's own callback for a transfer result: nothing for ready. For closed, exactly the close effects. For timeout and error, a report and then the close effects. |
| TypedConnections.SelfCallbackEndsWithClose | SwifterSockets/SwifterSockets.Connection.swift:457-475 | A closing callback ends with exactly the effects of `_closeConnection()`, and only reports come before them. |
| TypedConnections.SentEffects | SwifterSockets/SwifterSockets.Connection.swift:310-358 | A transfer starts first. With callbacks to a handler, or a ready result, that is all and the type is kept. With callbacks to the connection itself and a failed result, its callback runs and the type becomes nil. |
| TypedConnections.FailedSelfTransferCloses | Sources/SwifterSockets.Transmit.swift:255-291 | A failed transfer whose callbacks go to the connection itself closes it: the type is gone, `socket` reads -2, and the ssl object and socket are released as by `_closeConnection()`. A close or transfer queued behind it does nothing. |
| TypedConnections.InlineResult | SwifterSockets/SwifterSockets.Connection.swift:338-360 | No type gives `.error("No type specified")`; otherwise the transfer's result. |
| TypedConnections.ReceiveLoopEffects | SwifterSockets/SwifterSockets.Connection.swift:482-512 | No type starts nothing. Otherwise one socket or ssl receive loop with the buffer size and duration. |
| TypedConnections.CloseIsFinal | SwifterSockets/SwifterSockets.Connection.swift:408-444 | After a close, `socket` is -2, `ssl` nil, and a second close, a transfer or a receiver loop does nothing. |
| TypedConnections.TypedOptionsKeepInactivity | SwifterSockets/SwifterSockets.Connection.swift:240-255 | The typed options never touch the inactivity properties. |
| TypedConnections.TypedConnection.constructor | SwifterSockets/SwifterSockets.Connection.swift:189 | The defaults with a 1 s transmitter timeout, no type, address "-". |
| TypedConnections.TypedConnection.Reset | SwifterSockets/SwifterSockets.Connection.swift:215-228 | The defaults again; the type is cleared. |
| TypedConnections.TypedConnection.SetOptions | SwifterSockets/SwifterSockets.Connection.swift:240-255 | The options are applied in order and nothing else changes. |
| TypedConnections.TypedConnection.Prepare | SwifterSockets/SwifterSockets.Connection.swift:203-210 | Fails and changes nothing when a type is set. Otherwise reset, store the type and address, and apply the options. |
| TypedConnections.TypedConnection.Tqueue | SwifterSockets/SwifterSockets.Connection.swift:262-276 | The transmitter queue if set. Otherwise a new queue for the QoS, which is remembered. Otherwise nil. |
| TypedConnections.TypedConnection.Transfer | SwifterSockets/SwifterSockets.Connection.swift:288-362 | With a queue, a send job is queued, nil is returned and the type is kept. Otherwise the inline result is returned, and the type and events are those of the transfer with its callback, or unchanged without a type. The `callback` argument changes nothing. A queue created for the QoS is stored in the settings, and the settings change in no other way. |
| TypedConnections.TypedConnection.SendOn | SwifterSockets/SwifterSockets.Connection.swift:310-358 | One transfer on the current type, with the connection's own callback when it is the receiver. The type and events become those of `SentEffects`. |
| TypedConnections.TypedConnection.DeliverToSelf | SwifterSockets/SwifterSockets.Connection.swift:449-475 | The callback for a result: the type becomes nil exactly for timeout, error and closed, and the events are those of `SelfCallbackEvents`. |
| TypedConnections.TypedConnection.CloseNow | SwifterSockets/SwifterSockets.Connection.swift:429-444 | The close effects of the old type; the type becomes nil. `transmitterClosed` and `receiverClosed` are this close and nothing more. |
| TypedConnections.TypedConnection.CloseConnection | SwifterSockets/SwifterSockets.Connection.swift:412-422 | With a transmitter queue the close is queued behind the transfers; otherwise it happens at once. A queue created for the QoS is stored in the settings, and the settings change in no other way. |
| TypedConnections.TypedConnection.RunTransmitterJob | SwifterSockets/SwifterSockets.Connection.swift:293-332 | The oldest job runs. A send that starts no transfer (no type, or a negative `http` socket) changes nothing. Otherwise it is a transfer with its callback, using the type and settings at the time it runs. A close has the close effects. |
| TypedConnections.TypedConnection.StartReceiverLoop | SwifterSockets/SwifterSockets.Connection.swift:482-511 | The receiver queue or a new one, and the start of the receive loop is scheduled on it. `RunReceiverStart` is that closure. |
| TypedConnections.TypedConnection.RunReceiverStart | SwifterSockets/SwifterSockets.Connection.swift:491-511 | The receive loop for the current type, or nothing. |
| TypedConnections.TypedConnection.ReportAndClose | SwifterSockets/SwifterSockets.Connection.swift:457-544 | The timeout, transmitter-error and receiver-error callbacks report to the error handler and close the connection at once. |
| Pool.InsertByRank | Sources/SwifterSockets/ConnectionPool.swift:107 | Insertion adds exactly the one object. |
| Pool.SortByRank | Sources/SwifterSockets/ConnectionPool.swift:107 | Sorting is a permutation. |
| Pool.InsertKeepsSorted | Sources/SwifterSockets/ConnectionPool.swift:107 | Inserting into a sorted list keeps it sorted. |
| Pool.SortIsSorted | Sources/SwifterSockets/ConnectionPool.swift:107 | The sorted list is ordered by rank. |
| Pool.SortedFirstIsMinimal | Sources/SwifterSockets/ConnectionPool.swift:97-116 | The first object after sorting is an available object of least rank. |
| Pool.Allocated | Sources/SwifterSockets/ConnectionPool.swift:97-116 | `allocate` on values: nil exactly for an empty `available`, which changes nothing. Otherwise one object leaves `available` and is pushed onto `inUse`. `AllocateKeepsPool` states which object it is. |
| Pool.AllocatedLast | Sources/SwifterSockets.ConnectionPool.swift:94-108 | The older `allocate`: nil exactly for an empty `available`. Otherwise the last object is popped and pushed onto `inUse`. |
| Pool.Freed | Sources/SwifterSockets/ConnectionPool.swift:156-190 | `free` on values: success exactly for an object in use, which leaves `inUse` and is pushed onto `available`. An error changes nothing. `FreeKeepsPool` and `FreeUndoesAllocate` state the rest. |
| Pool.FirstIndex | Sources/SwifterSockets/ConnectionPool.swift:162-168 | The index of the first occurrence. |
| Pool.NoDuplicatesCount | Sources/SwifterSockets/ConnectionPool.swift:69-74 | Without duplicates, each object occurs at most once in the multiset. |
| Pool.CountNoDuplicates | Sources/SwifterSockets/ConnectionPool.swift:69-74 | A list whose multiset counts are at most 1 has no duplicates. |
| Pool.ValidByObjects | Sources/SwifterSockets/ConnectionPool.swift:69-74 | A pool with the same objects as a valid pool is valid. |
| Pool.AllocateKeepsPool | Sources/SwifterSockets/ConnectionPool.swift:97-116 | Nil exactly for an empty `available`. Otherwise the first object, or one of least rank with a sorter, moves to the head of `inUse`. No object is gained or lost, and the lists stay disjoint. |
| Pool.AllocateLastKeepsPool | Sources/SwifterSockets.ConnectionPool.swift:94-108 | Nil exactly for an empty `available`; otherwise the last object moves to `inUse`; the pool is conserved. |
| Pool.FreeKeepsPool | Sources/SwifterSockets/ConnectionPool.swift:156-190 | Succeeds exactly for an object in use, which moves to the head of `available`. On failure nothing changes, and the message tells a second free from an unknown object. |
| Pool.FreeUndoesAllocate | Sources/SwifterSockets.ConnectionPool.swift:148-182 | Without a sorter, freeing the object just allocated restores the pool. |
| Pool.FindIndex | Sources/SwifterSockets/ConnectionPool.swift:162-168 | The search loop finds the first index exactly when the object is in the list. |
| Pool.FirstIndexUnique | Sources/SwifterSockets/ConnectionPool.swift:162-168 | An index holding the object with no earlier occurrence is the first index. |
| Pool.Contains | Sources/SwifterSockets/ConnectionPool.swift:174-180 | The loop answers whether the object is in the list. |
| Pool.Generated | Sources/SwifterSockets/ConnectionPool.swift:221-223 | `num` objects, the `k`-th from the `k`-th call of the generator. |
| Pool.ConnectionPool.constructor | Sources/SwifterSockets/ConnectionPool.swift:54-88 | Both lists empty, no sorter. |
| Pool.ConnectionPool.Allocate | Sources/SwifterSockets/ConnectionPool.swift:97-116 | The new state and result are those of `Allocated`. |
| Pool.ConnectionPool.AllocateOrTimeout | Sources/SwifterSockets/ConnectionPool.swift:126-144 | At most `max(timeout, 0)` waits; nil only after all of them, with the pool unchanged; otherwise as `allocate`. |
| Pool.ConnectionPool.Free | Sources/SwifterSockets/ConnectionPool.swift:156-190 | The new state and result are those of `Freed`. |
| Pool.ConnectionPool.CreateRound | Sources/SwifterSockets/ConnectionPool.swift:208-226 | Succeeds exactly when nothing is in use, and then `available` holds the `num` generated objects; otherwise `available` is emptied. |
| Pool.LegacyConnectionPool.constructor | Sources/SwifterSockets.ConnectionPool.swift:65-85 | Both lists empty. |
| Pool.LegacyConnectionPool.Allocate | Sources/SwifterSockets.ConnectionPool.swift:94-108 | The new state and result are those of `AllocatedLast`. |
| Pool.LegacyConnectionPool.AllocateOrTimeout | Sources/SwifterSockets.ConnectionPool.swift:118-136 | At most `max(timeout, 0)` waits; nil only after all of them; otherwise as `allocate`. |
| Pool.LegacyConnectionPool.Free | Sources/SwifterSockets.ConnectionPool.swift:148-182 | The new state and result are those of `Freed`. |
| Pool.LegacyConnectionPool.CreateRound | Sources/SwifterSockets.ConnectionPool.swift:194-222 | Succeeds exactly when nothing is in use, and then `available` holds the generated objects. |
| Ssl.ErrorCode | SwifterSockets/SwifterSockets.Ssl.swift:169-180 | The error code of a case is defined exactly for the cases without a value. |
| Ssl.ResultForAsWritten | SwifterSockets/SwifterSockets.Ssl.swift:165-183 | A positive value is `.completed(value)`; any other value of OpenSSL's is `.unknown(value)`. |
| Ssl.AsWrittenNeverNamesAnError | SwifterSockets/SwifterSockets.Ssl.swift:165-192 | As written, no value maps to a named error: `SSL_ERROR_WANT_READ` maps to `.completed(2)`. |
| Ssl.ResultFor | SwifterSockets/SwifterSockets.Ssl.swift:165-183 | Corrected: `.completed(v)` only for a positive `v` that is no error code, and `.unknown(v)` only for a value that is not positive. |
| Ssl.ResultForRoundTrip | SwifterSockets/SwifterSockets.Ssl.swift:169-180 | Each named case is what its own code maps to, and a value maps to a named case exactly when it is one of the codes 1..10. |
| Ssl.NoneIsUnknown | SwifterSockets/SwifterSockets.Ssl.swift:165-183 | 0 (`SSL_ERROR_NONE`) maps to `.unknown(0)` in both versions. |
| Ssl.AsWrittenDiverges | SwifterSockets/SwifterSockets.Ssl.swift:73-88 | As written, `==` on two cases without a value recurses for ever, even on `.zeroReturn == .zeroReturn`. |
| Ssl.Eq | SwifterSockets/SwifterSockets.Ssl.swift:73-88 | Corrected `==`: true exactly for the same case with the same value. |
| Ssl.NotEq | SwifterSockets/SwifterSockets.Ssl.swift:91-93 | `!=` is true exactly when the results differ. |
| Ssl.AsWrittenAgreesWhenItReturns | SwifterSockets/SwifterSockets.Ssl.swift:73-88 | The written `==` returns exactly when an operand has a value, and then gives the corrected answer. |
| Ssl.X509Code | SwifterSockets/SwifterSockets.Ssl.swift:223-428 | Every case except `.unknown` has a constant. |
| Ssl.X509ResultFor | SwifterSockets/SwifterSockets.Ssl.swift:503-573 | The `init(for:)` switch: negative values and values above 72 are `.unknown`. `X509RoundTrip` and `X509UnknownExactly` state the rest. |
| Ssl.X509RoundTrip | SwifterSockets/SwifterSockets.Ssl.swift:503-573 | Each named verification result is what its own `X509_V_*` constant maps to. |
| Ssl.X509UnknownExactly | SwifterSockets/SwifterSockets.Ssl.swift:503-573 | `.unknown` exactly for values that are no constant: negative, or above 65 and not 72. |
| Ssl.FileEncoding.AsInt32 | SwifterSockets/SwifterSockets.Ssl.swift:708-713 | `.ans1` gives `SSL_FILETYPE_ASN1` and `.pem` gives `SSL_FILETYPE_PEM`. |
| Ssl.EncodingOf | SwifterSockets/SwifterSockets.Ssl.swift:705-716 | A file type constant decodes exactly when it is PEM or ASN1. |
| Ssl.EncodingRoundTrip | SwifterSockets/SwifterSockets.Ssl.swift:708-713 | `asInt32` is inverted by `EncodingOf`, so distinct encodings give distinct constants. |
| Ssl.NewKeyCertFile | SwifterSockets/SwifterSockets.Ssl.swift:722-725 | The path is stored, and so is the constant of the encoding, which decodes back to it. |

## Findings

| source | as written | input that shows it | evidently intended | confidence | as-written member | corrected member |
|---|---|---|---|---|---|---|
| SwifterSockets/SwifterSockets.Ssl.swift:165-183 | `value > 0` is tested before the switch on the `SSL_ERROR_*` codes, which are all positive, so every named branch is dead. | `Result(for: SSL_ERROR_WANT_READ)` (2), the value `code(ssl:ret:)` passes on from `SSL_get_error`, gives `.completed(2)` instead of `.wantRead`. | The named codes map to their cases; only other positive values are completions. | high; not executed | Ssl.ResultForAsWritten, Ssl.AsWrittenNeverNamesAnError | Ssl.ResultFor, Ssl.ResultForRoundTrip |
| SwifterSockets/SwifterSockets.Ssl.swift:73-88 | For a case without a value, `==` returns `rhs == <the same case>`, which calls `==` again with the operands swapped. | `.zeroReturn == .zeroReturn`, or any two cases without a value: the recursion never ends. | The same case gives true, and `.completed`/`.unknown` compare their values. | high; not executed | Ssl.EqAsWritten, Ssl.AsWrittenDiverges | Ssl.Eq, Ssl.AsWrittenAgreesWhenItReturns |

## Left out

- I/O: sockets, `select`, `send`/`recv` and the OpenSSL calls are not modelled. Their results are parameters, for example `closeReturn`, `sent` and `processed`, and their effects are events. `Ssl.Result.code(ssl:ret:)` and the `connectSsl` … `writeSsl` wrappers call into OpenSSL and are not part of this model.
- Concurrency: each queued closure is one atomic step, and the usage queue's serialisation is taken as given. The inactivity timer is a list of pending checks that can fire in any order. `lastActivity` (a `Date`) is not modelled.
- Connections.Connection.Transfer: `bufferedTransfer` and the copying of the buffer are left out, and so is the `Data`/`String` overload that converts to UTF-8. A transfer is identified by a buffer id.
- Connections.Connection.CloseConnection: the closure dispatched on the usage queue runs within the call, which is what the older synchronous `closeConnection` does.
- TypedConnections.TypedConnection.CloseNow: the type becomes nil, as the code does, although its comment speaks of `http(-2)`. Either way `socket` then reads -2.
- Pool.ConnectionPool.AllocateOrTimeout: another thread freeing an object during the one-second sleeps is not modelled, so after a first failed look every later look fails too. The `whenWaiting` callback of the older pool is never called, as in the source.
- Pool.ConnectionPool.CreateRound: models one round of `create`. The outer retry loop, which sleeps until nothing is in use, and the negative-`num` trap of Swift's range are left out (`num` is a `nat`).
- Pool.LegacyConnectionPool.CreateRound: models one round of the older `create`. The `while !success` loop around it, with `sleep(1)` between rounds until nothing is in use, is left out, and so is the negative-`num` trap (`num` is a `nat`).
- Pool.SortByRank: the sorter is modelled as a ranking of objects, and the sort is a stable insertion sort. Swift's `sort(by:)` is not stable, so among objects of equal rank the model may allocate a different one. The contract promises only an object of least rank.
- Object identity (`===`) is modelled by object ids; two distinct connection objects never share an id.
- The telemetry classes, `SocketAddress`, the servers, the clients and the accept loops are not part of this model.
- Receive.ReceiveBytesOrThrow: `receiveBytes` itself is I/O and is not part of this model; its result is the parameter.
- Counters.Increment: `self = self + 1` traps when the count is `Int.max`. The model's count is an unbounded integer, so the trap is not modelled.
- Counters.DecrementAndExecuteOnNull: the source's closure may throw, and the error is rethrown after the count was decremented. The model's closure is a value that cannot throw, so that error path is not modelled.
- Connections.Connection.DecrementUsageCount: `assert(self.usageCount > 0)` traps at count 0 in debug builds. The model follows release builds, where the guard after it returns without a change.
- TypedConnections.TypedConnection.Transfer: the transfer functions it calls are modelled only by their result `sent`. Each failure calls the matching callback once before returning, as `transfer(socket:…)` does at Sources/SwifterSockets.Transmit.swift:255-291. The progress calls and the `Ssl.transfer` internals are not part of this model.
- Ssl.X509UnknownExactly: states which values fall to `.unknown`, and `Ssl.X509RoundTrip` states that each case's constant maps back to it. The converse, that a value mapping to a named case is that case's constant, is not stated as a separate lemma. It follows because the constants are distinct.

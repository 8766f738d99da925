# Socket recording backend of NEST, modelled in Dafny

This project models `nest::RecordingBackendSocket`, a recording backend of the
NEST simulator. A spike detector enrols with the backend. From then on the
backend sends every spike that detector records as one UDP datagram with the
text `spike_detector <detector id> got a spike by node <sender id>`. The target
is the address and port (`ip`, `port`) the backend was configured with at
enrolment time.

The network is replaced by an abstract channel held in the backend object:
- `channel`: either `Unbound` or `Bound(socket, dest)`. It holds the handle of
  the last allocated socket and the destination resolved at that enrolment.
- `socketCount`: how many sockets have been allocated.
- `outbox`: every datagram handed to the network, in order.

The files:
- `exceptions.dfy` (module `Exceptions`): the exceptions raised (`BadProperty`,
  `TypeMismatch`, and the bare rethrow in `write`), plus `Result` and
  `Outcome`.
- `decimal.dfy` (module `Decimal`): the decimal text of an id, as stream
  formatting produces it, and the number a digit string denotes.
- `dictionary.dfy` (module `Dictionary`): the status dictionary as
  `map<string, Value>`, with `updateValue<std::string>` and `updateValue<long>`.
- `spike_message.dfy` (module `SpikeMessage`): the datagram text, and a reader
  that recovers both ids from it.
- `socket_backend.dfy` (module `SocketBackend`): the parameter record, the
  destination, and the class `RecordingBackendSocket` with its engine-facing
  methods. It ends with two client methods that drive the backend the way the
  engine does.

Behaviour of the code that the model keeps as written:
- `set_status` checks value types only. No address syntax is checked, and no
  port range either.
- Enrolment cannot fail for network reasons: the results of `inet_aton` and
  `socket` are never examined.
- Every enrolment allocates a new socket and never closes the previous one.
- `cleanup` closes nothing.
- The port reaches the socket address through `htons`, that is, converted to a
  16-bit unsigned value. The destination port is therefore `port mod 2^16`.
- `write` for a device that is not a spike detector executes a bare `throw;`.
  Without an active exception this would terminate the program. It is
  modelled as the error outcome `BareRethrow`.
- `write` before any enrolment sends on a socket and address that nothing in
  `recording_backend_socket.cpp` initialises. It is modelled as a datagram on the `Unbound` channel.

## Model

| member | source | states |
|---|---|---|
| `Decimal.NatToDecimal` | examples/MyModule/recording_backend_socket.cpp:80-81 | the text of an id is a nonempty digit string without a leading zero that denotes exactly that id |
| `SpikeMessage.FormatMessage` | examples/MyModule/recording_backend_socket.cpp:80-81 | the text is `spike_detector `, the decimal detector id, ` got a spike by node ` and the decimal sender id, each at its own position |
| `SpikeMessage.ParseFormatMessage` | examples/MyModule/recording_backend_socket.cpp:78-81 | reading a formatted message gives back exactly the detector id and the sender id it was made from |
| `SpikeMessage.FormatMessageInjective` | examples/MyModule/recording_backend_socket.cpp:78-81 | two messages are equal only when both ids are equal, so a receiver can tell every (detector, sender) pair apart |
| `SpikeMessage.FormatMessageExample` | examples/MyModule/recording_backend_socket.cpp:80-81 | detector 7 and node 42 give the text `spike_detector 7 got a spike by node 42` |
| `Dictionary.UpdateString` | examples/MyModule/recording_backend_socket.cpp:115 | an absent key keeps the current string; a string entry replaces it; an entry of another type raises `TypeMismatch` for that key, and only then |
| `Dictionary.UpdateLong` | examples/MyModule/recording_backend_socket.cpp:116 | an absent key keeps the current integer; an integer entry replaces it; an entry of another type raises `TypeMismatch` for that key, and only then |
| `SocketBackend.ParametersGet` | examples/MyModule/recording_backend_socket.cpp:105-110 | the dictionary gains or overwrites exactly `ip` and `port` with the current values; every other entry is kept |
| `SocketBackend.ParametersSet` | examples/MyModule/recording_backend_socket.cpp:112-117 | an update succeeds if and only if each of `ip` and `port` is absent or of its own type; on success each field takes the given value or keeps the old one; on failure the error names `ip` if that entry is the bad one, else `port` |
| `SocketBackend.SetThenGet` | examples/MyModule/recording_backend_socket.cpp:105-117 | after a successful update, reading the status gives the values just set, and the old value for a key the update did not name |
| `SocketBackend.GetThenSet` | examples/MyModule/recording_backend_socket.cpp:105-117 | an update with a dictionary read from some parameters yields exactly those parameters |
| `SocketBackend.SetIdempotent` | examples/MyModule/recording_backend_socket.cpp:112-117 | applying the same successful update twice gives the same parameters as applying it once |
| `SocketBackend.Destination` | examples/MyModule/recording_backend_socket.cpp:53-55 | the destination keeps the address text; its port is below 2^16 and congruent to the configured port modulo 2^16, so it is equal to that port when it is in range |
| `SocketBackend.RecordingBackendSocket.constructor` | examples/MyModule/recording_backend_socket.cpp:99-103 | a new backend has `ip = "127.0.0.1"` and `port = 50000`, no socket and an empty outbox |
| `SocketBackend.RecordingBackendSocket.Enroll` | examples/MyModule/recording_backend_socket.cpp:46-65 | a spike detector always succeeds: it allocates one more socket and binds the destination resolved from the current parameters. Any other device raises `BadProperty` with the source's message and leaves channel and socket count as they were. Parameters and outbox are never touched |
| `SocketBackend.RecordingBackendSocket.Write` | examples/MyModule/recording_backend_socket.cpp:68-97 | a spike detector appends exactly one datagram and succeeds whatever happens to the send. The datagram goes on the enrolled channel and reads `spike_detector <gid> got a spike by node <sender>`. Any other device fails and appends nothing. Nothing else changes |
| `SocketBackend.RecordingBackendSocket.SetStatus` | examples/MyModule/recording_backend_socket.cpp:120-128 | succeeds if and only if the update is well typed; then the live parameters become the updated copy; otherwise they stay exactly as before and the update's error is reported. Channel, sockets and outbox never change |
| `SocketBackend.RecordingBackendSocket.GetStatus` | examples/MyModule/recording_backend_socket.cpp:131-135 | returns the dictionary with the current `ip` and `port` written in, and changes no backend state |
| `SocketBackend.RecordingBackendSocket.PreRunHook` | examples/MyModule/recording_backend_socket.cpp:137-141 | leaves the whole backend unchanged |
| `SocketBackend.RecordingBackendSocket.PostRunHook` | examples/MyModule/recording_backend_socket.cpp:143-147 | leaves the whole backend unchanged |
| `SocketBackend.RecordingBackendSocket.Cleanup` | examples/MyModule/recording_backend_socket.cpp:149-153 | leaves the whole backend unchanged, so repeated calls are harmless and the socket stays allocated |
| `SocketBackend.RecordingBackendSocket.Synchronize` | examples/MyModule/recording_backend_socket.cpp:155-159 | leaves the whole backend unchanged |
| `SocketBackend.RecordingBackendSocket.Prepare` | examples/MyModule/recording_backend_socket.cpp:161-165 | leaves the whole backend unchanged |
| `SocketBackend.RecordingBackendSocket.Clear` | examples/MyModule/recording_backend_socket.cpp:167-171 | leaves the whole backend unchanged |
| `SocketBackend.RecordingBackendSocket.SetDeviceStatus` | examples/MyModule/recording_backend_socket.cpp:173-179 | leaves the whole backend unchanged |
| `SocketBackend.RecordingBackendSocket.GetDeviceStatus` | examples/MyModule/recording_backend_socket.cpp:181-187 | leaves the caller's dictionary and the backend unchanged |
| `SocketBackend.SpikeToDefaultEndpoint` | examples/MyModule/recording_backend_socket.cpp:74-91 | on a new backend, detector 7 enrolled and writing a spike of node 42 produces exactly one datagram: first socket, destination `127.0.0.1:50000`, text `spike_detector 7 got a spike by node 42` |
| `SocketBackend.ReconfigureAfterEnroll` | examples/MyModule/recording_backend_socket.cpp:121-128 | a `set_status` after enrolment changes what `get_status` reports, or nothing if the update is ill typed, but not the enrolled destination. A device that is not a spike detector then neither enrols (channel and socket count stay as they were) nor sends, and two `cleanup` calls leave the outbox empty |

## Left out

- The operating-system calls `socket`, `inet_aton`, `htons`, `sendto` and the `sockaddr_in` structure. They are replaced by the abstract channel, socket counter and outbox.
- `SocketBackend.Destination`: address parsing is not modelled; the destination holds the `ip` text itself. When `inet_aton` fails (recording_backend_socket.cpp:54), the code keeps the earlier binary address in `B_.addr_.sin_addr`, from a previous enrolment or never set, while `sin_port` still takes the new port. The model's destination takes the new text instead, so it does not capture that stale address.
- A failing `socket` or `sendto` call is not modelled separately. The code checks neither result, so the outbox records send attempts, not deliveries.
- The `#pragma omp critical` section around the send. Concurrency is out of scope, so `Write` is one atomic append to the outbox.
- The destructor, which only calls `cleanup`. Dafny has no destructors, and `Cleanup` is proved to change nothing.
- The internals of `DictionaryDatum`, `updateValue` and `String::compose`. They are replaced by `map<string, Value>` with two value kinds, `UpdateString`/`UpdateLong` and `NatToDecimal`. The engine's bookkeeping of which dictionary entries were accessed is not modelled.
- `Dictionary.UpdateString`, `Dictionary.UpdateLong`, `SocketBackend.ParametersSet`: the `TypeMismatch` error is tagged with the dictionary key, whereas the engine's exception names the expected and the provided type. Each of the two keys expects one type, so the tag carries the same information.
- The header `recording_backend_socket.h` is not part of this model. The model assumes that `port_` is a `long` (64-bit). `updateValue<long>` fixes only the type the dictionary entry is read as, so this is an assumption: a narrower `port_` would truncate the value on assignment in `set`, and `get` would then report the truncated value. The model also assumes that the only value kinds that matter are strings and integers.
- `SocketBackend.RecordingBackendSocket.Write`: the ids are unbounded naturals here. The 64-bit width of the engine's `index` type is not modelled, because no id reaches it.
- `models/aeif_cond_2exp_multisynapse.h` is not part of this model. It is a floating-point neuron model whose definitions live in files not shown.

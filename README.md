# statsd UDP client: resolver, pipeline packer and send path

A Dafny model of the core of the pystatsd UDP client:

- the TTL-tracking DNS resolver (`DnsResolver`), which caches the collector's
  address and decides when to query the DNS service again;
- the pipeline flush (`Pipeline._send`), which drains a queue of formatted
  metric lines and packs them greedily into newline-joined UDP packets;
- the client's `_send`, which refreshes the cached address from the resolver
  when TTLs are respected and swallows resolution and socket errors.

Files:

- `common.dfy` (module `Common`): `Option` and `Result`.
- `resolver.dfy` (module `Resolver`): class `DnsResolver` with the fields
  `name`, `port`, `addressFamily`, `expires`, `expirationDt` and `address`.
  Methods change them; the read-only properties `_rdtype` and `expired` are
  functions; `Lookup` is the function that specifies what `get_addr` returns.
- `packing.dfy` (module `Packing`): `Join` (the `'\n'.join` of a packet's
  lines), `Flatten`, the packing function `Pack` that the flush loop is proved
  against, and the predicate `GreedyPacking`, a statement of what a greedy
  flush must produce that does not mention the loop. The lemmas prove that
  `Pack` satisfies `GreedyPacking` and that nothing else does.
- `udp.dfy` (module `Udp`): classes `StatsClient` and `Pipeline`, the
  construction branch `Connect`, and `FlushPacksGreedily`, which runs a real
  pipeline flush and states the packing properties of what it emits.

Inputs instead of foreign code: whether the name parses as an address of the
chosen family (`socket.inet_pton`) is the boolean `nameIsIp`. The DNS query
(`Resolver().query`) is an `Answer`, either `Records(records, expiration)` or
`Failed(reason)`. `datetime.now()` is the integer `now`, and the answer's
expiration is an integer timestamp. The socket is an abstract transport:
`transportFails` says whether `sendto` raises `socket.error`, and the
datagrams it accepts are recorded in `StatsClient.transmitted`. A pipeline's
calls to its client's `_after` are recorded in `Pipeline.packets`, one packet
per call, each packet kept as its list of lines. The socket family constants
use their Linux values (`AF_INET` = 2, `AF_INET6` = 10).

## The code as written

The model follows the code, also where the code's own comments suggest a different intent:

- `_set_expiration` (statsd/client/dnsresolver.py:34) writes `expires`, never
  `expiration_dt`, so `expiration_dt` keeps its class default `None`. A
  symbolic name therefore stays expired for ever. Every `get_addr` queries
  again, even right after an answer whose expiration lies in the future
  (`SymbolicNameIsQueriedEveryCall`). The comment at
  statsd/client/dnsresolver.py:57 suggests it should stop being expired
  until that time.
- For a literal-IP name, `__init__` sets `expires = False` but never assigns
  `address`. `get_addr` skips the query and then reads the unset attribute,
  so it raises `AttributeError` (`LiteralIpIsNeverQueried`). The literal
  would evidently serve as the address. As a consequence, a client built
  with `respect_ttl` and a literal IP cannot be constructed (`Connect`).
- `_set_expiration` runs before the answer is checked, so an empty answer
  still replaces `expires` and leaves `address` as it was. It is not reported
  as a resolution failure.
- `_send` catches only `socket.error` and `RuntimeError`. An `AttributeError`
  from the resolver and the `UnicodeEncodeError` of a non-ASCII payload
  escape, so the send path can raise. For a client built by
  `Connect`, only the non-ASCII case remains (`StatsClient.SendResult`).
- The flush pops the first line without a guard. The guard for an empty queue
  belongs to the pipeline base class, so the model requires a non-empty
  queue.

## Model

| member | source | states |
|---|---|---|
| `Resolver.DnsResolver.constructor` | statsd/client/dnsresolver.py:8-16 | name and port are stored; the family is IPv6 exactly when the argument is AF_INET6; `expires` is `False` exactly when the name parses as an IP, otherwise it keeps the default `True`; `expiration_dt` and `address` start unset |
| `Resolver.DnsResolver.RdType` | statsd/client/dnsresolver.py:25-30 | the record type is `AAAA` exactly when the family is IPv6 and `A` exactly when it is IPv4 |
| `Resolver.DnsResolver.SetExpiration` | statsd/client/dnsresolver.py:32-34 | the answer's expiration is stored in `expires`, and nothing else changes |
| `Resolver.DnsResolver.SetAddressFamily` | statsd/client/dnsresolver.py:36-41 | total and two-valued: AF_INET6 gives IPv6, every other input gives IPv4 |
| `Resolver.DnsResolver.Expired` | statsd/client/dnsresolver.py:52-59 | never expired while `expires` is false, whatever the time; always expired while `expires` is true and `expiration_dt` is unset; otherwise expired exactly when `now` is past `expiration_dt` |
| `Resolver.DnsResolver.Lookup` | statsd/client/dnsresolver.py:18-68 | the result of `get_addr`: the port is always the stored one; when not expired the stored address is returned without a query, or AttributeError if none is stored; a failed query gives exactly the RuntimeError case; a non-empty answer gives its first record; an empty answer gives the stored address, or AttributeError if none is stored; AttributeError exactly when no address is stored and the query (if any) gave no record |
| `Resolver.DnsResolver.GetAddr` | statsd/client/dnsresolver.py:61-68 | queries, with the stored name and record type, exactly when expired; returns `Lookup`'s result; stores the expiration after any answer, the first record after a non-empty one, and keeps the address on failure or an empty answer; while `expiration_dt` is unset, being expired no longer depends on time and is the same after the call as before |
| `Resolver.LiteralIpIsNeverQueried` | statsd/client/dnsresolver.py:11-68 | for a literal-IP name, two `get_addr` calls at any times send no query, and both raise AttributeError because the address is never stored |
| `Resolver.SymbolicNameIsQueriedEveryCall` | statsd/client/dnsresolver.py:32-68 | for a symbolic name, two successive `get_addr` calls both query (record type from the family), whatever the first answer's expiration; each non-empty answer gives its first record; an empty second answer reuses the first address; a failed answer raises RuntimeError on either call |
| `Resolver.FamilyIsFixedAtConstruction` | statsd/client/dnsresolver.py:36-71 | `get_family` (`GetFamily`) gives the same family before and after a `get_addr`, and it is IPv6 exactly when construction was given AF_INET6: the family is fixed at construction |
| `Packing.PackFrom` | statsd/client/udp.py:17-25 | a flush that holds a current packet emits between one packet and one more than the lines still queued; no packet is empty; the first packet begins with the current one |
| `Packing.JoinSnoc` | statsd/client/udp.py:24 | adding a line to a non-empty packet appends a newline and the line to its payload |
| `Packing.JoinLength` | statsd/client/udp.py:24 | a packet's payload length is the sum of its lines' lengths plus one separator between each two |
| `Packing.PackFromFlatten` | statsd/client/udp.py:16-25 | the emitted packets, concatenated, are exactly the queued lines in order: nothing lost, duplicated or reordered |
| `Packing.PackFromBound` | statsd/client/udp.py:20-24 | every emitted packet of two or more lines has a payload shorter than the limit |
| `Packing.PackFromMaximal` | statsd/client/udp.py:20-22 | for consecutive packets p and q, the length of p plus 1 plus the length of q's first line reaches the limit |
| `Packing.PackIsGreedy` | statsd/client/udp.py:15-25 | the flush's packets satisfy `GreedyPacking` for the queue, and there are between 1 and (number of lines) of them |
| `Packing.FirstPacketMaximal` | statsd/client/udp.py:20-22 | in any greedy packing, every prefix of the queue longer than the first packet has a payload that reaches the limit |
| `Packing.GreedyPackingUnique` | statsd/client/udp.py:15-25 | a queue has only one greedy packing |
| `Packing.PackCharacterized` | statsd/client/udp.py:15-25 | a list of packets is the flush's output exactly when it is a greedy packing of the queue |
| `Packing.PackSizeBound` | statsd/client/udp.py:20-25 | every packet is shorter than the limit, unless it is a single queued line that is sent whole, with no truncation |
| `Packing.ThreeLineExample` | statsd/client/udp.py:20-24 | with limit 20 and three 7-character lines, the first two share a packet (a payload of 15 characters) and the third starts a second packet |
| `Udp.Pipeline.constructor` | statsd/client/udp.py:11-13 | a new pipeline has an empty queue and takes its size limit from the client's `_maxudpsize` |
| `Udp.Pipeline.Send` | statsd/client/udp.py:15-25 | the queue ends empty, and the packets passed to `_after` are, in order, `Pack` of the old queue under the size limit |
| `Udp.FlushPacksGreedily` | statsd/client/udp.py:11-25 | flushing a pipeline of a client emits every queued line once, in order, in 1 to (number of lines) packets, with every multi-line packet under the client's limit, and the result is the greedy packing |
| `Udp.StatsClient.constructor` | statsd/client/udp.py:43-46 | the client stores its address, prefix and size limit; nothing has been sent yet |
| `Udp.StatsClient.SendResult` | statsd/client/udp.py:48-56 | what `_send` does: with TTLs respected, a RuntimeError from the resolver is swallowed as a resolution drop before the payload is encoded, and an AttributeError escapes; after a successful lookup (or without TTLs) a non-ASCII payload raises UnicodeEncodeError and a failing transport gives a transmission drop; for a client built by `Connect` an ASCII payload never raises; a send happens exactly when the payload is ASCII, the transport works and (with TTLs respected) the lookup succeeds, to the stored address or, with TTLs respected, to the address the resolver returned |
| `Udp.StatsClient.Send` | statsd/client/udp.py:48-56 | returns `SendResult`; with TTLs respected `_addr` becomes the resolver's result and keeps its old value when resolution fails; only a successful send is recorded by the transport, addressed to the new `_addr`; the resolver changes as `get_addr` does; the client invariant is kept |
| `Udp.Connect` | statsd/client/udp.py:31-46 | without TTLs the client is built with the looked-up address and no query is made; with TTLs a resolver for the host and family is built and `get_addr` is called once, querying with the family's record type unless the host is a literal IP; its errors propagate: construction fails with AttributeError for a literal IP or an empty answer and with RuntimeError for a failed query, and succeeds exactly when the answer has a record; the new client's address is then the first record, and its resolver holds the port, that address, the answer's expiration in `expires` and an unset `expiration_dt` |

## Left out

- `Resolver().query` and the wrapping of its exceptions into `RuntimeError`: a network call, replaced by the `Answer` input.
- `socket.inet_pton` (`name_is_ip`): libc address parsing, replaced by the boolean `nameIsIp`.
- `datetime.now()` and `datetime.fromtimestamp`: the clock and floating-point timestamps are integer inputs. Errors that `fromtimestamp` raises for out-of-range values are not modelled.
- `socket.getaddrinfo`, `socket.socket` and `sendto`: I/O. The first `getaddrinfo` result is the `lookup` input of `Connect`, and its failure is not modelled. The socket's family, so also the `get_family` call in `__init__`, is not modelled. `sendto` is the `transportFails` input.
- ASCII encoding: modelled only as the check that every character is below 128. The bytes themselves are not modelled.
- `PipelineBase` and `StatsClientBase` (statsd/client/base.py is not part of this model): appending to the queue, the context manager, the empty-queue guard and what `_after` does with a packet. `_after` is the `packets` record.
- Udp.Pipeline.Send: requires a non-empty queue, because the guard against an empty one lives in the base class.
- `StatsClient.pipeline()`: it only calls the `Pipeline` constructor, which is modelled.
- Concurrency: the cached address has no locking, and the model is single-threaded.

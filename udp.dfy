/**
 * The UDP client of statsd: `StatsClient` (construction branch, `_send`)
 * and its `Pipeline` (`__init__`, the greedy `_send` flush).
 *
 * The socket is an abstract transport: `transportFails` says whether
 * `sendto` raises `socket.error`, and the datagrams it accepts are recorded
 * in `transmitted`.  A pipeline hands each packet to its client's `_after`;
 * those calls are recorded in the pipeline's `packets`.
 */
module Udp {
  import opened Common
  import opened Resolver
  import opened Packing

  /** Why a datagram was silently dropped. */
  datatype DropReason = ResolutionFailed(reason: string) | TransmissionFailed

  /** Exceptions that `_send` does not catch. */
  datatype Uncaught = AddressUnset | UnicodeEncodeError

  /** What one `StatsClient._send` call amounts to. */
  datatype SendOutcome =
    | Sent(payload: string, to: Endpoint)
    | Dropped(why: DropReason)
    | Raised(error: Uncaught)

  /** `data.encode('ascii')` succeeds exactly when every character is below 128. */
  predicate IsAscii(s: string)
  {
    forall i :: 0 <= i < |s| ==> s[i] < 128 as char
  }

  class StatsClient {
    const respectTtl: bool
    const resolver: DnsResolver?
    const prefix: Option<string>
    const maxUdpSize: int
    var addr: Endpoint
    var transmitted: seq<(string, Endpoint)>

    /**
     * A client built by `Connect`: the resolver exists exactly when TTLs are
     * respected, and it holds an address.
     */
    ghost predicate Valid()
      reads this, resolver
    {
      && (respectTtl <==> resolver != null)
      && (resolver != null ==> resolver.address.Some?)
    }

    /** The fields `__init__` leaves behind, once the branch has produced `addr`. */
    constructor (respectTtl: bool, resolver: DnsResolver?, addr: Endpoint, prefix: Option<string>, maxUdpSize: int)
      ensures this.respectTtl == respectTtl && this.resolver == resolver && this.addr == addr
      ensures this.prefix == prefix && this.maxUdpSize == maxUdpSize && transmitted == []
    {
      this.respectTtl := respectTtl;
      this.resolver := resolver;
      this.addr := addr;
      this.prefix := prefix;
      this.maxUdpSize := maxUdpSize;
      transmitted := [];
    }

    /**
     * What `_send(data)` amounts to at time `now`, when the resolver's query
     * (if made) yields `answer` and `sendto` fails exactly if
     * `transportFails`.
     */
    function SendResult(data: string, now: int, answer: Answer, transportFails: bool): (r: SendOutcome)
      reads this, resolver
      requires respectTtl ==> resolver != null
      ensures Valid() && IsAscii(data) ==> !r.Raised?
      ensures r.Sent? ==> r.payload == data && IsAscii(data) && !transportFails
      ensures r == Dropped(TransmissionFailed) ==> transportFails
      ensures r.Dropped? && r.why.ResolutionFailed? ==> respectTtl && answer.Failed?
      ensures !respectTtl ==> (r.Sent? <==> IsAscii(data) && !transportFails)
      ensures r.Sent? && !respectTtl ==> r.to == addr
      ensures r.Sent? && respectTtl ==> Ok(r.to) == resolver.Lookup(now, answer)
      ensures respectTtl && resolver.Lookup(now, answer).Err? && resolver.Lookup(now, answer).error.RuntimeError? ==>
                r == Dropped(ResolutionFailed(resolver.Lookup(now, answer).error.reason))
      ensures respectTtl && resolver.Lookup(now, answer) == Err(AttributeError) ==> r == Raised(AddressUnset)
      ensures !IsAscii(data) && (!respectTtl || resolver.Lookup(now, answer).Ok?) ==> r == Raised(UnicodeEncodeError)
      ensures IsAscii(data) && transportFails && (!respectTtl || resolver.Lookup(now, answer).Ok?) ==>
                r == Dropped(TransmissionFailed)
      ensures respectTtl && resolver.Lookup(now, answer).Ok? && IsAscii(data) && !transportFails ==>
                r == Sent(data, resolver.Lookup(now, answer).value)
    {
      var lookup := if respectTtl then Some(resolver.Lookup(now, answer)) else None;
      if lookup.Some? && lookup.value == Err(AttributeError) then Raised(AddressUnset)
      else if lookup.Some? && lookup.value.Err? then Dropped(ResolutionFailed(lookup.value.error.reason))
      else if !IsAscii(data) then Raised(UnicodeEncodeError)
      else if transportFails then Dropped(TransmissionFailed)
      else Sent(data, if lookup.Some? then lookup.value.value else addr)
    }

    /**
     * `_send`: refresh `addr` from the resolver when TTLs are respected,
     * then hand the encoded payload to the transport.  Resolution and
     * transport errors are swallowed; an unset address or a non-ASCII
     * payload raises.
     */
    method Send(data: string, now: int, answer: Answer, transportFails: bool) returns (r: SendOutcome)
      requires respectTtl <==> resolver != null
      modifies this`addr, this`transmitted, resolver
      ensures r == old(SendResult(data, now, answer, transportFails))
      ensures addr == if respectTtl && old(resolver.Lookup(now, answer)).Ok?
                      then old(resolver.Lookup(now, answer)).value else old(addr)
      ensures transmitted == if r.Sent? then old(transmitted) + [(data, addr)] else old(transmitted)
      ensures r.Sent? ==> r.to == addr
      ensures respectTtl ==>
                && resolver.name == old(resolver.name) && resolver.port == old(resolver.port)
                && resolver.addressFamily == old(resolver.addressFamily)
                && resolver.expirationDt == old(resolver.expirationDt)
                && resolver.expires == (if old(resolver.Expired(now)) && answer.Records?
                                        then At(answer.expiration) else old(resolver.expires))
                && resolver.address == (if old(resolver.Lookup(now, answer)).Ok?
                                        then Some(old(resolver.Lookup(now, answer)).value.host)
                                        else old(resolver.address))
      ensures old(Valid()) ==> Valid()
    {
      if respectTtl {
        var got, asked := resolver.GetAddr(now, answer);
        match got
        case Ok(endpoint) =>
          addr := endpoint;
        case Err(e) =>
          if e.AttributeError? {
            return Raised(AddressUnset);
          }
          return Dropped(ResolutionFailed(e.reason));
      }
      if !IsAscii(data) {
        return Raised(UnicodeEncodeError);
      }
      if transportFails {
        return Dropped(TransmissionFailed);
      }
      transmitted := transmitted + [(data, addr)];
      r := Sent(data, addr);
    }
  }

  /**
   * `StatsClient.__init__` up to the socket: with `respectTtl` a resolver is
   * built and asked for the address (its errors propagate); otherwise
   * `lookup`, the first `getaddrinfo` result, is the address.
   */
  method Connect(host: string, port: int, prefix: Option<string>, maxUdpSize: int, ipv6: bool,
                 respectTtl: bool, nameIsIp: bool, now: int, answer: Answer, lookup: Endpoint)
    returns (r: Result<StatsClient, AddrError>, asked: Option<Query>)
    ensures asked == if respectTtl && !nameIsIp then Some(Query(host, if ipv6 then "AAAA" else "A")) else None
    ensures r.Ok? ==> fresh(r.value) && r.value.Valid()
    ensures r.Ok? ==> r.value.maxUdpSize == maxUdpSize && r.value.respectTtl == respectTtl
    ensures r.Ok? ==> r.value.prefix == prefix && r.value.transmitted == []
    ensures r.Ok? && respectTtl ==> fresh(r.value.resolver) && r.value.resolver.name == host
    ensures r.Ok? && respectTtl ==> (r.value.resolver.addressFamily == Inet6 <==> ipv6)
    ensures r.Ok? && respectTtl ==>
              && answer.Records? && |answer.records| > 0
              && r.value.resolver.port == port
              && r.value.resolver.expires == At(answer.expiration)
              && r.value.resolver.expirationDt == None
              && r.value.resolver.address == Some(answer.records[0])
    ensures !respectTtl ==> r.Ok? && r.value.addr == lookup
    ensures respectTtl && nameIsIp ==> r == Err(AttributeError)
    ensures respectTtl && !nameIsIp ==> (r.Ok? <==> answer.Records? && |answer.records| > 0)
    ensures respectTtl && !nameIsIp && answer.Failed? ==> r == Err(RuntimeError(answer.reason))
    ensures respectTtl && !nameIsIp && answer.Records? && answer.records == [] ==> r == Err(AttributeError)
    ensures respectTtl && r.Ok? ==> r.value.addr == Endpoint(answer.records[0], port)
  {
    var family := if ipv6 then AF_INET6 else AF_INET;
    if respectTtl {
      var resolver := new DnsResolver(host, port, family, nameIsIp);
      var got;
      got, asked := resolver.GetAddr(now, answer);
      match got
      case Err(e) =>
        r := Err(e);
      case Ok(endpoint) =>
        var client := new StatsClient(true, resolver, endpoint, prefix, maxUdpSize);
        r := Ok(client);
    } else {
      var client := new StatsClient(false, null, lookup, prefix, maxUdpSize);
      r, asked := Ok(client), None;
    }
  }

  class Pipeline {
    const maxUdpSize: int
    var stats: seq<string>
    var packets: seq<seq<string>>

    /** `Pipeline.__init__`: an empty queue and the client's size limit. */
    constructor (client: StatsClient)
      ensures maxUdpSize == client.maxUdpSize
      ensures stats == [] && packets == []
    {
      maxUdpSize := client.maxUdpSize;
      stats := [];
      packets := [];
    }

    /**
     * `_send`: drain the queue front to back, packing lines greedily and
     * passing each finished packet to `_after`.
     */
    method Send()
      requires |stats| > 0
      modifies this`stats, this`packets
      ensures stats == []
      ensures packets == old(packets) + Pack(old(stats), maxUdpSize)
    {
      var data := [stats[0]];
      stats := stats[1..];
      while |stats| > 0
        invariant |data| > 0
        invariant old(packets) + Pack(old(stats), maxUdpSize) == packets + PackFrom(data, stats, maxUdpSize)
        decreases |stats|
      {
        var stat := stats[0];
        stats := stats[1..];
        if |stat| + |Join(data)| + 1 >= maxUdpSize {
          packets := packets + [data];
          data := [stat];
        } else {
          data := data + [stat];
        }
      }
      packets := packets + [data];
    }
  }

  /**
   * Flushing a pipeline of `client` that holds `lines` emits their unique
   * greedy packing: every line once, in order, multi-line packets under the
   * limit, no packet able to take the next line, between one and |lines|
   * packets.
   */
  method FlushPacksGreedily(client: StatsClient, lines: seq<string>) returns (sent: seq<seq<string>>)
    requires |lines| > 0
    ensures Flatten(sent) == lines
    ensures 1 <= |sent| <= |lines|
    ensures forall i :: 0 <= i < |sent| && |sent[i]| >= 2 ==> |Join(sent[i])| < client.maxUdpSize
    ensures GreedyPacking(sent, lines, client.maxUdpSize)
  {
    var pipeline := new Pipeline(client);
    pipeline.stats := lines;
    pipeline.Send();
    sent := pipeline.packets;
    assert sent == Pack(lines, client.maxUdpSize);
    PackIsGreedy(lines, client.maxUdpSize);
  }
}

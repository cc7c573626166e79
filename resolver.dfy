/**
 * The TTL-tracking DNS resolver of the statsd client (class `DnsResolver`).
 *
 * The foreign pieces are inputs: whether the name parses as an address of the
 * chosen family is the boolean `nameIsIp`, the DNS query's outcome is an
 * `Answer`, and the wall clock is the integer `now`.  The model follows the
 * code as written: `_set_expiration` writes `expires`, never `expirationDt`,
 * and a literal-IP name never gets an `address`.
 */
module Resolver {
  import opened Common

  /** Values of the socket family constants (Linux). */
  const AF_INET: int := 2
  const AF_INET6: int := 10

  /** The two members of `socket.AddressFamily` the resolver stores. */
  datatype AddressFamily = Inet | Inet6

  /**
   * The value held by `expires`: the class default `True`, `False` once the
   * name is known to be a literal IP, or the timestamp `_set_expiration`
   * stores (a `datetime`, which Python always treats as true).
   */
  datatype Expiry = Flag(on: bool) | At(timestamp: int)

  /** Python truthiness of `expires`. */
  predicate Truthy(e: Expiry)
  {
    match e
    case Flag(b) => b
    case At(_) => true
  }

  /** What one DNS query produced: the answer's records and their expiration, or the error it raised. */
  datatype Answer = Records(records: seq<string>, expiration: int) | Failed(reason: string)

  /** The query the resolver sent: the name and the record type. */
  datatype Query = Query(name: string, rdtype: string)

  /** The `(address, port)` tuple handed to `sendto`. */
  datatype Endpoint = Endpoint(host: string, port: int)

  /**
   * Exceptions `get_addr` can raise: the `RuntimeError` that wraps a failed
   * query, and the `AttributeError` of reading an `address` never assigned.
   */
  datatype AddrError = RuntimeError(reason: string) | AttributeError

  class DnsResolver {
    var name: string
    var port: int
    var addressFamily: AddressFamily
    var expires: Expiry
    var expirationDt: Option<int>
    var address: Option<string>

    /**
     * `__init__`: `nameIsIp` is the outcome of parsing `name` as an address
     * of the family just chosen.
     */
    constructor (name: string, port: int, family: int, nameIsIp: bool)
      ensures this.name == name && this.port == port
      ensures addressFamily == Inet6 <==> family == AF_INET6
      ensures expires == Flag(!nameIsIp)
      ensures expirationDt == None && address == None
    {
      this.name := name;
      this.port := port;
      addressFamily := Inet;
      expires := Flag(true);
      expirationDt := None;
      address := None;
      new;
      SetAddressFamily(family);
      if nameIsIp {
        expires := Flag(false);
      }
    }

    /** `_rdtype`: the record type to query for the stored family. */
    function RdType(): (t: string)
      reads this
      ensures t == "AAAA" <==> addressFamily == Inet6
      ensures t == "A" <==> addressFamily == Inet
    {
      match addressFamily
      case Inet6 => "AAAA"
      case Inet => "A"
    }

    /** `_set_expiration`: stores the answer's expiration in `expires`. */
    method SetExpiration(ts: int)
      modifies this`expires
      ensures expires == At(ts)
    {
      expires := At(ts);
    }

    /** `_set_address_family`: AF_INET6 selects IPv6, every other value IPv4. */
    method SetAddressFamily(family: int)
      modifies this`addressFamily
      ensures addressFamily == Inet6 <==> family == AF_INET6
      ensures addressFamily == Inet <==> family != AF_INET6
    {
      if family == AF_INET6 {
        addressFamily := Inet6;
      } else {
        addressFamily := Inet;
      }
    }

    /** `expired`: whether `get_addr` at time `now` will query again. */
    function Expired(now: int): (r: bool)
      reads this
      ensures r ==> Truthy(expires)
      ensures Truthy(expires) && expirationDt == None ==> r
      ensures Truthy(expires) && expirationDt.Some? ==> (r <==> now > expirationDt.value)
    {
      if !Truthy(expires) then false
      else if expirationDt.None? then true
      else now > expirationDt.value
    }

    /**
     * What `get_addr` at time `now` returns when the query, if it is made,
     * yields `answer`.
     */
    function Lookup(now: int, answer: Answer): (r: Result<Endpoint, AddrError>)
      reads this
      ensures r.Ok? ==> r.value.port == port
      ensures !Expired(now) ==> (r.Ok? <==> address.Some?)
      ensures !Expired(now) && address.Some? ==> r.value.host == address.value
      ensures r.Err? && r.error.RuntimeError? <==> Expired(now) && answer.Failed?
      ensures Expired(now) && answer.Failed? ==> r == Err(RuntimeError(answer.reason))
      ensures Expired(now) && answer.Records? && |answer.records| > 0 ==> r == Ok(Endpoint(answer.records[0], port))
      ensures Expired(now) && answer.Records? && answer.records == [] ==>
                r == if address.Some? then Ok(Endpoint(address.value, port)) else Err(AttributeError)
      ensures r == Err(AttributeError) <==>
                address.None? && !(Expired(now) && (answer.Failed? || |answer.records| > 0))
    {
      var stored :=
        if Expired(now) && answer.Records? && |answer.records| > 0 then Some(answer.records[0]) else address;
      if Expired(now) && answer.Failed? then Err(RuntimeError(answer.reason))
      else if stored.Some? then Ok(Endpoint(stored.value, port))
      else Err(AttributeError)
    }

    /**
     * `get_addr`.  `asked` is the query sent to the DNS service, if any.
     * The expiration is stored before the answer is looked at, so an empty
     * answer still replaces `expires`.
     */
    method GetAddr(now: int, answer: Answer) returns (r: Result<Endpoint, AddrError>, asked: Option<Query>)
      modifies this`expires, this`address
      ensures asked == if old(Expired(now)) then Some(Query(name, RdType())) else None
      ensures r == old(Lookup(now, answer))
      ensures expires == if asked.Some? && answer.Records? then At(answer.expiration) else old(expires)
      ensures address == if r.Ok? then Some(r.value.host) else old(address)
      ensures old(expirationDt) == None ==> forall t :: Expired(t) == old(Expired(now))
    {
      asked := None;
      if Expired(now) {
        asked := Some(Query(name, RdType()));
        match answer
        case Failed(reason) =>
          r := Err(RuntimeError(reason));
          return;
        case Records(records, expiration) =>
          SetExpiration(expiration);
          if |records| > 0 {
            address := Some(records[0]);
          }
      }
      if address.Some? {
        r := Ok(Endpoint(address.value, port));
      } else {
        r := Err(AttributeError);
      }
    }

    /** `get_family`: the family chosen at construction. */
    function GetFamily(): (f: AddressFamily)
      reads this
    {
      addressFamily
    }
  }

  /**
   * A literal-IP name is never queried, whatever the clock says, and since
   * its address is never stored every `get_addr` raises AttributeError.
   */
  method LiteralIpIsNeverQueried(name: string, port: int, family: int,
                                 now1: int, answer1: Answer, now2: int, answer2: Answer)
    returns (r1: Result<Endpoint, AddrError>, asked1: Option<Query>,
             r2: Result<Endpoint, AddrError>, asked2: Option<Query>)
    ensures asked1 == None && asked2 == None
    ensures r1 == Err(AttributeError) && r2 == Err(AttributeError)
  {
    var resolver := new DnsResolver(name, port, family, true);
    r1, asked1 := resolver.GetAddr(now1, answer1);
    r2, asked2 := resolver.GetAddr(now2, answer2);
  }

  /**
   * A symbolic name is queried on every `get_addr`, even when the previous
   * answer's expiration lies in the future; an empty second answer keeps the
   * first address, and a failed one raises RuntimeError.
   */
  method SymbolicNameIsQueriedEveryCall(name: string, port: int, family: int,
                                        now1: int, answer1: Answer, now2: int, answer2: Answer)
    returns (r1: Result<Endpoint, AddrError>, asked1: Option<Query>,
             r2: Result<Endpoint, AddrError>, asked2: Option<Query>)
    ensures var q := Query(name, if family == AF_INET6 then "AAAA" else "A");
            asked1 == Some(q) && asked2 == Some(q)
    ensures answer1.Records? && |answer1.records| > 0 ==> r1 == Ok(Endpoint(answer1.records[0], port))
    ensures answer1.Records? && answer1.records == [] ==> r1 == Err(AttributeError)
    ensures answer1.Failed? ==> r1 == Err(RuntimeError(answer1.reason))
    ensures answer2.Records? && |answer2.records| > 0 ==> r2 == Ok(Endpoint(answer2.records[0], port))
    ensures answer2.Records? && answer2.records == [] && r1.Ok? ==> r2 == r1
    ensures answer2.Failed? ==> r2 == Err(RuntimeError(answer2.reason))
  {
    var resolver := new DnsResolver(name, port, family, false);
    r1, asked1 := resolver.GetAddr(now1, answer1);
    r2, asked2 := resolver.GetAddr(now2, answer2);
  }

  /** No operation changes the family: `get_family` after any `get_addr` still reports the construction-time choice. */
  method FamilyIsFixedAtConstruction(name: string, port: int, family: int, nameIsIp: bool,
                                     now: int, answer: Answer)
    returns (before: AddressFamily, after: AddressFamily)
    ensures before == after
    ensures after == Inet6 <==> family == AF_INET6
  {
    var resolver := new DnsResolver(name, port, family, nameIsIp);
    before := resolver.GetFamily();
    var r, asked := resolver.GetAddr(now, answer);
    after := resolver.GetFamily();
  }
}

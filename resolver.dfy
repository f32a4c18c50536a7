/**
 * The Postfix TCP map server: the per-connection `AliasResolver` session,
 * which answers `get` and `put` requests with one reply line each, and the
 * `AliasResolverFactory`, which holds the configuration and the one CouchDB
 * connection that every session it builds shares.
 *
 * The CouchDB client and the continuations that the base classes attach to
 * a request (`_cbGot`, `_cbNot`, `_cbPut`, `_cbPout`, `do_query`) are not
 * part of this model: each operation returns the outcome it hands to them.
 */
module Resolver {
  import opened Wrappers
  import Decimal
  import Text
  import StatusCodes
  import Identifier

  /** The exceptions the core raises. */
  datatype Fault = DatabaseNotConnected | AttributeError | TypeError

  /** A call that returns a value or raises; `maybeDeferred` turns the latter into a failed Deferred. */
  datatype Outcome<T> = Returned(value: T) | Raised(fault: Fault)

  /** The arguments of one connection attempt to CouchDB. */
  datatype ConnectParams = ConnectParams(
    host: string, port: Option<int>, dbName: Option<string>,
    username: Option<string>, password: Option<string>)

  /** What a connection attempt returns: the object later queried, named by the attempt that made it. */
  datatype Handle = Handle(attempt: nat, params: ConnectParams)

  /** `couch.queryByEmailOrAlias(key)`: a lookup issued on a connection, whose answer the model leaves open. */
  datatype Query = Query(handle: Handle, key: string)

  /** Where `do_put` stands after parsing: refused, or waiting on the existence check of `key`. */
  datatype PutStep = Rejected | Querying(key: string, value: string)

  /** How `do_put` ends once the existence check has answered. */
  datatype PutResolution = Aborted(fault: Fault) | Denied | Forwarded(result: Outcome<()>)

  /** The reply line `sendCode(code)` writes: `'%3.3d %s' % (code, '')`. */
  function ReplyLine(code: int): (line: string)
    ensures |line| == |Decimal.FormatCode(code)| + 1 && line[|line| - 1] == ' '
    ensures code >= 0 ==> |line| >= 4 && Decimal.AllDigits(line[..|line| - 1])
    ensures code < 0 ==> line[0] == '-'
  {
    Decimal.FormatCode(code) + " "
  }

  /**
   * A reply line for a non-negative code is the code's digits and a space;
   * the digits read back as the code, and the line has the protocol's
   * three-digit shape exactly when the code is below 1000.
   */
  lemma ReplyLineReadsBack(code: nat)
    ensures var line := ReplyLine(code);
      |line| >= 4 && line[|line| - 1] == ' '
      && Decimal.AllDigits(line[..|line| - 1])
      && Decimal.DigitsValue(line[..|line| - 1]) == code
      && (|line| == 4 <==> code < 1000)
  {
    var line := ReplyLine(code);
    assert line[..|line| - 1] == Decimal.FormatCode(code);
    Decimal.FormatCodeReadsBack(code);
  }

  /** One connection from the mail transfer agent. */
  class AliasResolver {
    var timeout: int
    var virtualTransport: Option<string>
    var useVirtualTransport: bool
    var factory: AliasResolverFactory?
    /** The reply lines written to the connection, oldest first. */
    var lines: seq<string>

    /** A session with the class defaults, before `buildProtocol` configures it. */
    constructor ()
      ensures virtualTransport == Some("@example.com") && !useVirtualTransport
      ensures factory == null && lines == []
    {
      virtualTransport := Some("@example.com");
      useVirtualTransport := false;
      factory := null;
      lines := [];
    }

    /**
     * `sendCode(code, message)`: writes the code and an empty text. The
     * status lookup it makes is discarded, and appending a `str` message to
     * it raises `TypeError` before anything is written.
     */
    method SendCode(code: int, message: Option<string>) returns (outcome: Outcome<()>)
      modifies this`lines
      ensures message.Some? ==> outcome == Raised(TypeError) && lines == old(lines)
      ensures message.None? ==> outcome == Returned(()) && lines == old(lines) + [ReplyLine(code)]
    {
      if message.Some? {
        outcome := Raised(TypeError);
      } else {
        lines := lines + [ReplyLine(code)];
        outcome := Returned(());
      }
    }

    /**
     * `do_get(key)`: a missing key is answered 500 at once and the factory
     * is not asked; otherwise nothing is written here and the factory's
     * answer is what the continuations receive.
     */
    method DoGet(key: Option<string>) returns (dispatched: Option<Outcome<Query>>)
      requires key.Some? ==> factory != null
      modifies this`lines
      ensures key.None? ==> dispatched.None? && lines == old(lines) + [ReplyLine(500)]
      ensures key.Some? ==> dispatched == Some(factory.Get(key.value)) && lines == old(lines)
    {
      if key.None? {
        var sent := SendCode(500, None);
        dispatched := None;
      } else {
        dispatched := Some(factory.Get(key.value));
      }
    }

    /** `check_recipient_access(key)`: the same as `do_get(key)`. */
    method CheckRecipientAccess(key: Option<string>) returns (dispatched: Option<Outcome<Query>>)
      requires key.Some? ==> factory != null
      modifies this`lines
      ensures key.None? ==> dispatched.None? && lines == old(lines) + [ReplyLine(500)]
      ensures key.Some? ==> dispatched == Some(factory.Get(key.value)) && lines == old(lines)
    {
      dispatched := DoGet(key);
    }

    /**
     * `do_put(keyAndValue)` up to its existence check: a missing argument,
     * or one that does not split into a key and a value, is answered 500;
     * otherwise nothing is written and the check is made for the key.
     */
    method DoPut(keyAndValue: Option<string>) returns (step: PutStep)
      modifies this`lines
      ensures step.Rejected? <==> keyAndValue.None? || |Text.SplitOnce(keyAndValue.value)| != 2
      ensures step.Rejected? ==> lines == old(lines) + [ReplyLine(500)]
      ensures step.Querying? ==>
        lines == old(lines) && [step.key, step.value] == Text.SplitOnce(keyAndValue.value)
    {
      if keyAndValue.None? {
        var sent := SendCode(500, None);
        step := Rejected;
      } else {
        var parts := Text.SplitOnce(keyAndValue.value);
        if |parts| != 2 {
          var sent := SendCode(500, None);
          step := Rejected;
        } else {
          step := Querying(parts[0], parts[1]);
        }
      }
    }

    /**
     * The rest of `do_put`, given what the existence check of `key`
     * produced: a failed check ends the request with nothing written, a key
     * that is already there is answered 553 and never stored, and only an
     * absent key goes to `factory.put(key, value)`.
     */
    method ResumePut(key: string, value: string, alreadyThere: Outcome<Option<string>>)
      returns (resolution: PutResolution)
      requires alreadyThere == Returned(None) ==> factory != null
      modifies this`lines
      ensures alreadyThere.Raised? ==>
        resolution == Aborted(alreadyThere.fault) && lines == old(lines)
      ensures alreadyThere == Returned(None) ==>
        resolution == Forwarded(factory.Put(key, value)) && lines == old(lines)
      ensures alreadyThere.Returned? && alreadyThere.value.Some? ==>
        resolution == Denied && lines == old(lines) + [ReplyLine(553)]
    {
      match alreadyThere
      case Raised(fault) =>
        resolution := Aborted(fault);
      case Returned(None) =>
        resolution := Forwarded(factory.Put(key, value));
      case Returned(Some(_)) =>
        var sent := SendCode(553, None);
        resolution := Denied;
    }

    /** `do_delete(key)`: `raise NotImplemented`, which Python 2 reports as a `TypeError`. */
    method DoDelete(key: Option<string>) returns (outcome: Outcome<()>)
      ensures outcome == Raised(TypeError)
    {
      outcome := Raised(TypeError);
    }

    /**
     * `virtual_alias_map(key)`: the URN of the key's identifier, followed by
     * the virtual transport when that is enabled and set to a string.
     */
    function VirtualAliasMap(key: Identifier.ByteString, sha1: seq<Identifier.Byte> -> Identifier.Digest): (r: string)
      reads this
      ensures |r| >= 45 && r[..45] == Identifier.Urn(Identifier.CreateUuid(key, sha1))
      ensures Identifier.UuidOfUrn(r[..45]) == Identifier.CreateUuid(key, sha1)
      ensures r[45..] == if useVirtualTransport && virtualTransport.Some? then virtualTransport.value else []
    {
      var userid := Identifier.CreateUuid(key, sha1);
      Identifier.UrnRoundTrip(userid);
      var urn := Identifier.Urn(userid);
      if useVirtualTransport && virtualTransport.Some? then
        assert (urn + virtualTransport.value)[..45] == urn;
        urn + virtualTransport.value
      else urn
    }
  }

  /** Builds sessions and owns their shared CouchDB connection. */
  class AliasResolverFactory {
    var timeout: int
    var virtualTransport: Option<string>
    var useVirtualTransport: bool
    var databaseConnected: bool
    /** The connection object, once the constructor has asked for one. */
    var couch: Option<Handle>
    /** The connection attempts started with `self.database(...)`, oldest first. */
    var attempts: seq<ConnectParams>

    /**
     * The flag is only ever set by the success of an attempt, and the
     * stored connection is one of the attempts.
     */
    ghost predicate Valid()
      reads this
    {
      (databaseConnected ==> attempts != [])
      && (couch.Some? ==>
            couch.value.attempt < |attempts| && attempts[couch.value.attempt] == couch.value.params)
    }

    /**
     * `AliasResolverFactory(...)`: stores the session configuration, starts
     * disconnected, and when a CouchDB host is given starts one connection
     * attempt, with port 5984 and database "users" when those are not given.
     */
    constructor (timeout: int, virtualTransport: Option<string>, useVirtualTransport: bool,
                 couchHost: Option<string>, couchPort: Option<int>, couchDbName: Option<string>,
                 couchUsername: Option<string>, couchPassword: Option<string>)
      ensures Valid() && !databaseConnected
      ensures this.timeout == timeout && this.virtualTransport == virtualTransport
      ensures this.useVirtualTransport == useVirtualTransport
      ensures couchHost.None? ==> couch.None? && attempts == []
      ensures couchHost.Some? ==>
        var params := ConnectParams(
          couchHost.value,
          Some(if couchPort.None? then 5984 else couchPort.value),
          Some(if couchDbName.None? then "users" else couchDbName.value),
          couchUsername, couchPassword);
        attempts == [params] && couch == Some(Handle(0, params))
    {
      this.timeout := timeout;
      this.virtualTransport := virtualTransport;
      this.useVirtualTransport := useVirtualTransport;
      databaseConnected := false;
      couch := None;
      attempts := [];
      new;
      if couchHost.Some? {
        var port := if couchPort.None? then 5984 else couchPort.value;
        var dbName := if couchDbName.None? then "users" else couchDbName.value;
        var d := ConnectDatabase(
          ConnectParams(couchHost.value, Some(port), Some(dbName), couchUsername, couchPassword));
        couch := Some(d.value);
      }
    }

    /** `buildProtocol()`: a new session carrying this factory's settings and bound to it. */
    method BuildProtocol() returns (proto: AliasResolver)
      ensures fresh(proto)
      ensures proto.timeout == timeout && proto.virtualTransport == virtualTransport
      ensures proto.useVirtualTransport == useVirtualTransport
      ensures proto.factory == this && proto.lines == []
    {
      proto := new AliasResolver();
      proto.timeout := timeout;
      proto.virtualTransport := virtualTransport;
      proto.useVirtualTransport := useVirtualTransport;
      proto.factory := this;
    }

    /**
     * `_cb_connectDatabase` as registered: Twisted calls a callback with the
     * attempt's result, and the method takes no argument besides `self`, so
     * the call raises `TypeError` (which the errback only logs) before the
     * flag is touched.
     */
    method ConnectCallbackAsWritten(result: Handle) returns (outcome: Outcome<()>)
      ensures outcome == Raised(TypeError)
    {
      outcome := Raised(TypeError);
    }

    /**
     * `_cb_connectDatabase(result)` as evidently intended: an attempt
     * succeeded and delivered its client, which becomes the stored
     * connection, and the flag goes up.
     */
    method OnConnected(client: Handle)
      requires Valid()
      requires client.attempt < |attempts| && attempts[client.attempt] == client.params
      modifies this`databaseConnected, this`couch
      ensures Valid() && databaseConnected && couch == Some(client)
    {
      databaseConnected := true;
      couch := Some(client);
    }

    /**
     * `connectDatabase(...)`: while disconnected, every call starts a new
     * attempt and returns it (so two calls before the first succeeds start
     * two); once connected, returns the stored connection and starts none.
     * Neither the flag nor the stored connection changes.
     */
    method ConnectDatabase(params: ConnectParams) returns (r: Outcome<Handle>)
      requires Valid()
      modifies this`attempts
      ensures Valid()
      ensures !databaseConnected ==>
        attempts == old(attempts) + [params] && r == Returned(Handle(|old(attempts)|, params))
      ensures databaseConnected ==> attempts == old(attempts)
      ensures databaseConnected && couch.Some? ==> r == Returned(couch.value)
      ensures databaseConnected && couch.None? ==> r == Raised(AttributeError)
    {
      if !databaseConnected {
        r := Returned(Handle(|attempts|, params));
        attempts := attempts + [params];
      } else if couch.Some? {
        r := Returned(couch.value);
      } else {
        r := Raised(AttributeError);
      }
    }

    /**
     * `get(key)`: raises `DatabaseNotConnected` exactly when the flag is
     * down; when it is up, queries the stored connection for the key.
     */
    function Get(key: string): (r: Outcome<Query>)
      reads this
      ensures r == Raised(DatabaseNotConnected) <==> !databaseConnected
      ensures r.Returned? <==> databaseConnected && couch.Some?
      ensures databaseConnected && couch.None? ==> r == Raised(AttributeError)
      ensures r.Returned? ==> r.value == Query(couch.value, key)
      ensures Valid() && r.Returned? ==>
        r.value.handle.attempt < |attempts| && attempts[r.value.handle.attempt] == r.value.handle.params
    {
      if !databaseConnected then Raised(DatabaseNotConnected)
      else if couch.None? then Raised(AttributeError)
      else Returned(Query(couch.value, key))
    }

    /**
     * `put(key, value)`: always fails. The call passes a value that
     * `put(self, key, **kwargs)` does not accept, and its body raises
     * `NotImplemented`; both are a `TypeError`.
     */
    function Put(key: string, value: string): (r: Outcome<()>)
      ensures r == Raised(TypeError)
    {
      Raised(TypeError)
    }
  }

  /**
   * As written, a factory given a CouchDB host never gets connected: even
   * after its attempt succeeds and the registered callback fires, `get`
   * raises `DatabaseNotConnected`.
   */
  method ConnectAsWrittenNeverConnects(host: string, key: string) returns (r: Outcome<Query>)
    ensures r == Raised(DatabaseNotConnected)
  {
    var f := new AliasResolverFactory(120, None, false, Some(host), None, None, None, None);
    var fired := f.ConnectCallbackAsWritten(f.couch.value);
    r := f.Get(key);
  }

  /**
   * With the callback taking the client its attempt delivers, as intended,
   * the same factory's `get` queries the client of the connection its
   * constructor asked for.
   */
  method ConnectAsIntendedQueries(host: string, key: string) returns (r: Outcome<Query>)
    ensures r == Returned(Query(Handle(0, ConnectParams(host, Some(5984), Some("users"), None, None)), key))
  {
    var f := new AliasResolverFactory(120, None, false, Some(host), None, None, None, None);
    f.OnConnected(Handle(0, ConnectParams(host, Some(5984), Some("users"), None, None)));
    r := f.Get(key);
  }

  /**
   * A factory with no CouchDB host: a session built from it refuses a
   * one-token `put` with 500, and its `get` raises `DatabaseNotConnected`.
   */
  method ExampleExchange()
  {
    var f := new AliasResolverFactory(120, None, false, None, None, None, None, None);
    var s := f.BuildProtocol();
    var got := s.DoGet(Some("isis"));
    assert got == Some(Raised(DatabaseNotConnected));
    Text.SplitOnceOfToken("onlyonetoken");
    var step := s.DoPut(Some("onlyonetoken"));
    assert step == Rejected;
    assert s.lines == [ReplyLine(500)];
  }
}

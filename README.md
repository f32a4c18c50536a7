# leap_mx alias resolver, modelled in Dafny

A model of the Postfix TCP map server (the `tcp_table(5)` protocol) in
`src/leap/mx/alias_resolver.py` of leap_mx. Postfix sends lines such as
`get isis` or `put isis isis@leap.se`, and the server answers each one with
an SMTP-like status line. The model covers:

- the status-code registry (`StatusCodes`): its two fixed tables and `get`;
- the per-connection session (`AliasResolver`): `sendCode`, `do_get`,
  `check_recipient_access`, `do_put`, `do_delete`, `virtual_alias_map`;
- the session factory (`AliasResolverFactory`): its constructor,
  `buildProtocol`, `connectDatabase` and its success callback, `get`, `put`;
- `createUUID`, the version-5 name-based UUID of section 4.3 of RFC 4122,
  and its URN text.

Files:

- `status_codes.dfy`: module `StatusCodes`.
- `resolver.dfy`: module `Resolver`, with the classes `AliasResolver` (one
  session) and `AliasResolverFactory`. A session's `lines` field is the
  sequence of reply lines it has written. The factory's `attempts` field is
  the sequence of CouchDB connection attempts it has started. Its `Valid()`
  says that the connected flag is only up after some attempt exists.
- `identifier.dfy`: module `Identifier`, for `createUUID` and `get_urn`.
- `text.dfy`: module `Text`, for Python 2 `str.upper()` and
  `str.split(None, 1)`.
- `decimal.dfy`: module `Decimal`, for `str(int)` and `'%3.3d'`.
- `wrappers.dfy`: module `Wrappers`, an `Option` type for Python's `None`.

Backend calls are synchronous outcomes. A `get` or `put` that reaches the
factory returns what `maybeDeferred` would hand to the inherited
continuations: either the pending CouchDB `Query` or the exception raised.
`do_put` suspends at its `yield`, so the model splits it into two methods.
`DoPut` parses the argument and names the key to check. `ResumePut` takes
the existence check's outcome and finishes the request.

Behaviours of the code that a reader of the tcp_table protocol might not
expect:

- `do_delete` raises instead of answering 500.
- A `get` while disconnected raises `DatabaseNotConnected` into the
  continuation instead of answering 400.
- `connectDatabase` starts a second attempt when called again before the
  first succeeds.
- The connection callback never raises the connected flag (see Findings), so
  every `get` raises `DatabaseNotConnected`.
- `put` always fails.
- An unknown name yields code 500 with the FAIL text.
- An unknown integer yields `(None, '')`.

## Model

| member | source | states |
|---|---|---|
| `StatusCodes.SearchCodes` | src/leap/mx/alias_resolver.py:155-158 | The loop finds a message exactly when the key is not "500" and some item has that key, and the message is that item's |
| `StatusCodes.SearchCodesFindsMapEntry` | src/leap/mx/alias_resolver.py:106-112 | In any iteration order of a dict's items, the loop yields the dict's entry for the key, and nothing for "500" or an absent key |
| `StatusCodes.CodeKeys` | src/leap/mx/alias_resolver.py:106-120 | `str(n)` is a key of `SMTPCodes` iff `n` is one of the seven codes of `SMTPStrings` |
| `StatusCodes.NameRoundTrip` | src/leap/mx/alias_resolver.py:98-120 | For every name, the name is upper case, and `SMTPCodes[str(SMTPStrings[name])]` is the name's class attribute |
| `StatusCodes.Attribute` | src/leap/mx/alias_resolver.py:150-151 | `getattr(self, name, '')` for a completion name is one of the messages of `SMTPCodes`. `StatusCodes.NameRoundTrip` pins it to the message of that name's own code |
| `StatusCodes.Get` | src/leap/mx/alias_resolver.py:131-160 | `None` results exactly for a false argument or one of another type. `KeyError` results exactly for a string whose upper case is a name but which is not itself one. Every code returned is one of the seven, a key of `SMTPCodes`, and comes with that key's message, except that 500 may come with the FAIL text. A `None` code comes with the empty text |
| `StatusCodes.GetName` | src/leap/mx/alias_resolver.py:148-151 | An upper-case name yields `(SMTPStrings[name], attribute)`, and that attribute is `SMTPCodes[str(code)]` |
| `StatusCodes.GetUnknownName` | src/leap/mx/alias_resolver.py:152-153 | A non-empty string that is no name, even after upper-casing, yields exactly `(500, FAIL)` |
| `StatusCodes.GetCode` | src/leap/mx/alias_resolver.py:154-160 | A non-zero integer whose `str` is a key of `SMTPCodes`, other than 500, yields `(n, SMTPCodes[str(n)])`. 500 and every other integer yield `(None, '')` |
| `StatusCodes.NameAndCodeAgree` | src/leap/mx/alias_resolver.py:154-158 | Looking up a name and looking up its code give the same answer for every name except BAD, whose code 500 the integer branch refuses |
| `StatusCodes.LowercaseNameRaises` | src/leap/mx/alias_resolver.py:149-150 | As written, `get('ok')` raises `KeyError` |
| `StatusCodes.GetCorrected` | src/leap/mx/alias_resolver.py:147-153 | With the upper-cased name used for the lookup: it never raises, it answers any case of a name with that name's code and text, and it agrees with `get` wherever `get` does not raise |
| `Decimal.IntToString` | src/leap/mx/alias_resolver.py:157 | `str(n)` is non-empty. It is all digits iff n is non-negative, and otherwise a minus sign followed by digits. `Decimal.IntToStringInjective` and `Decimal.DigitsValueOfNatToDigits` add that the digits read back as the magnitude, so distinct integers render differently |
| `Decimal.IntToStringOfDigits` | src/leap/mx/alias_resolver.py:157 | If `str(n)` equals a string of digits, then `n` is the value of those digits, so `str` is injective on the codes compared |
| `Decimal.FormatCode` | src/leap/mx/alias_resolver.py:207 | `'%3.3d'` of a non-negative code is at least three digits. A negative code gives a minus sign and then at least three digits. `Decimal.FormatCodeReadsBack` adds that the digits read back as the code |
| `Decimal.FormatCodeReadsBack` | src/leap/mx/alias_resolver.py:207 | `'%3.3d'` of a non-negative code is at least three digits that read back as the code, and exactly three iff the code is below 1000 |
| `Text.Upper` | src/leap/mx/alias_resolver.py:149-151 | `upper()` keeps the length and leaves no letter a-z; each character is upper-cased in place, and a character changes iff it is a letter a-z |
| `Text.UpperIdempotent` | src/leap/mx/alias_resolver.py:149-151 | Upper-casing an upper-cased name changes nothing |
| `Text.UpperFixedPoints` | src/leap/mx/alias_resolver.py:149-151 | `upper()` leaves a string unchanged iff it has no letter a-z, which is why the upper-case names pass the test at line 149 unchanged |
| `Text.SplitOnce` | src/leap/mx/alias_resolver.py:231 | `split(None, 1)` gives at most two parts, none empty. The first part has no whitespace, the second does not start with whitespace, and no part results iff the string is all whitespace |
| `Text.SplitOnceParts` | src/leap/mx/alias_resolver.py:231 | A two-part split is leading whitespace, then the key, then a non-empty run of whitespace, then the value running to the end of the string |
| `Text.SplitOnceOfJoin` | src/leap/mx/alias_resolver.py:231 | Conversely, a key and a value joined by whitespace split back into exactly that key and value |
| `Text.SplitOnceOfToken` | src/leap/mx/alias_resolver.py:231-234 | A single token splits into one part, which `do_put` refuses |
| `Identifier.CreateUuid` | src/leap/mx/alias_resolver.py:34-46 | The identifier is 16 bytes of the SHA-1 digest of `NAMESPACE_URL` followed by the alias. Version 5 and the RFC 4122 variant are written into their fields, and every other bit is the digest's |
| `Identifier.Urn` | src/leap/mx/alias_resolver.py:285-287 | `get_urn()` is 45 characters: `urn:uuid:` followed by the hex groups, with hyphens at 17, 22, 27 and 32. `Identifier.UrnRoundTrip` shows that the text gives back its 16 bytes |
| `Identifier.UrnRoundTrip` | src/leap/mx/alias_resolver.py:285-287 | The URN text from `get_urn` determines the UUID it was rendered from |
| `Identifier.CreateUuidUrnFields` | src/leap/mx/alias_resolver.py:37-38 | An alias's URN shows version digit 5 and a variant digit in 8, 9, a or b |
| `Resolver.ReplyLine` | src/leap/mx/alias_resolver.py:207 | The reply line is one character longer than the formatted code and ends in a space. A non-negative code gives at least three digits before that space, and a negative one starts with a minus sign |
| `Resolver.ReplyLineReadsBack` | src/leap/mx/alias_resolver.py:207 | A reply line is the code's digits and a space. The digits read back as the code, and the line is four characters long iff the code is below 1000 |
| `Resolver.AliasResolver.constructor` | src/leap/mx/alias_resolver.py:178-189 | A new session has the class defaults (`'@example.com'`, transport off), no factory and nothing written |
| `Resolver.AliasResolver.SendCode` | src/leap/mx/alias_resolver.py:191-207 | Without a message, exactly the line `'%3.3d '` of the code is appended. With a `str` message, `TypeError` is raised and nothing is written |
| `Resolver.AliasResolver.DoGet` | src/leap/mx/alias_resolver.py:209-217 | A missing key appends the 500 line and never calls `factory.get`, even on a session with no factory. Any key writes nothing and dispatches exactly `factory.get(key)` |
| `Resolver.AliasResolver.CheckRecipientAccess` | src/leap/mx/alias_resolver.py:254-262 | Behaves exactly as `do_get` |
| `Resolver.AliasResolver.DoPut` | src/leap/mx/alias_resolver.py:220-235 | A missing argument, or one that does not split into two parts, appends the 500 line and makes no existence check. Otherwise nothing is written, and the check is for the first token, with the unsplit remainder as the value |
| `Resolver.AliasResolver.ResumePut` | src/leap/mx/alias_resolver.py:236-242 | A key found by the check appends the 553 line and never reaches `factory.put`. Only an absent key reaches `factory.put(key, value)`. A failed check ends the request with nothing written |
| `Resolver.AliasResolver.DoDelete` | src/leap/mx/alias_resolver.py:244-252 | Always raises (`TypeError`, from `raise NotImplemented`) |
| `Resolver.AliasResolver.VirtualAliasMap` | src/leap/mx/alias_resolver.py:264-287 | The result is the URN of the key's UUID, from which that UUID can be recovered. It is followed by `virtual_transport` iff `use_virtual_transport` is set and `virtual_transport` is a string, and by nothing otherwise |
| `Resolver.AliasResolverFactory.constructor` | src/leap/mx/alias_resolver.py:306-349 | The factory starts disconnected and stores timeout and transport settings. With a host, it starts exactly one attempt (port 5984 and database "users" by default) and stores it as `couch`. Without a host, it starts none |
| `Resolver.AliasResolverFactory.BuildProtocol` | src/leap/mx/alias_resolver.py:368-375 | A fresh session copies `timeout`, `virtual_transport` and `use_virtual_transport` unchanged and has `factory` set to this factory |
| `Resolver.AliasResolverFactory.ConnectCallbackAsWritten` | src/leap/mx/alias_resolver.py:377-387 | Firing the registered callback with the attempt's result raises `TypeError`, because `_cb_connectDatabase` takes no argument, and changes no field |
| `Resolver.AliasResolverFactory.OnConnected` | src/leap/mx/alias_resolver.py:377-378 | The success callback as intended: it stores the client that a started attempt delivered as the connection and raises the flag, and changes nothing else |
| `Resolver.ConnectAsWrittenNeverConnects` | src/leap/mx/alias_resolver.py:377-402 | A factory given a host, whose attempt succeeds and whose registered callback fires, still answers every `get` with `DatabaseNotConnected` |
| `Resolver.ConnectAsIntendedQueries` | src/leap/mx/alias_resolver.py:377-402 | With the intended callback given the client of the constructor's attempt, the same factory's `get(key)` is the query for `key` on that client |
| `Resolver.AliasResolverFactory.ConnectDatabase` | src/leap/mx/alias_resolver.py:380-390 | While disconnected, each call starts and returns a new attempt. Once connected, it returns the stored connection and starts none. It never changes the flag or the stored connection |
| `Resolver.AliasResolverFactory.Get` | src/leap/mx/alias_resolver.py:392-402 | Raises `DatabaseNotConnected` iff the flag is down. It returns iff connected with a stored connection, and then it is that connection's query for the key, on one of the attempts the factory started. With the flag up and no stored connection it raises `AttributeError` |
| `Resolver.AliasResolverFactory.Put` | src/leap/mx/alias_resolver.py:404-406 | Always raises `TypeError` |

## Findings

| source | as written | input that shows it | evidently intended | confidence | as-written member | corrected member |
|---|---|---|---|---|---|---|
| src/leap/mx/alias_resolver.py:149-150 | `get` tests `status_code.upper()` against `SMTPStrings` but then indexes `SMTPStrings[status_code]` | `get('ok')` passes the test and raises `KeyError` | index with `status_code.upper()`, as the test does | high; not executed | `StatusCodes.LowercaseNameRaises` | `StatusCodes.GetCorrected` |
| src/leap/mx/alias_resolver.py:377-386 | `_cb_connectDatabase(self)` takes no argument, but line 386 registers it with `addCallback`, which passes it the attempt's result | a successful connection: the callback raises `TypeError` into the `log.err` errback and `database_connected` stays false, so every `get` raises `DatabaseNotConnected` | `_cb_connectDatabase(self, result)`, storing `result` (the connected client) as `self.couch` and setting the flag; raising the flag alone would leave `get` calling `queryByEmailOrAlias` on the pending attempt that line 347 stored | high; not executed | `Resolver.ConnectAsWrittenNeverConnects` | `Resolver.AliasResolverFactory.OnConnected` |

## Left out

- The Twisted plumbing is not modelled: the reactor, Deferred chaining, `LineReceiver` framing, the base class's `lineReceived` dispatch and the transport. Reply lines are appended to `lines`.
- The continuations `_cbGot`, `_cbNot`, `_cbPut` and `_cbPout` are inherited and not part of this model, and so is `do_query`, which the file calls but does not define. The model returns what they would receive and assigns no reply codes for them.
- CouchDB (`ConnectedCouchDB`, `queryByEmailOrAlias`) is an external service. A connection is a `Handle` naming its attempt, and a lookup is a `Query` whose answer is left open.
- `ConnectedCouchDB` is not part of this model, so one `Resolver.Handle` stands both for what `self.database(...)` returns at line 384, to which line 386 attaches callbacks, and for the client that line 400 queries. As written, line 347 stores that returned value as `couch`, and the model does not capture that it may be a pending attempt rather than a client. The intended `OnConnected` instead stores the client its attempt delivers.
- The SHA-1 digest is a function parameter. Nothing about distinct aliases giving distinct identifiers can be proved, as that rests on SHA-1.
- Configuration, addresses and logging are left out: `config`, `log`, `net.checkIPaddress`, `address._IPAddress`, `noisy`, and the port and timeout `assert`s that raise `SystemExit` (lines 351-366). So is the `data` dict handed to the base factory, which the overriding `get` never reads.
- `StatusCodes.__init__` only calls `get` and discards the answer, so it is not modelled separately.
- `Resolver.AliasResolver.SendCode`: `code` is an `int`, as at every call site, so the non-`int` branch at lines 199-202 is not modelled.
- `Resolver.AliasResolver.constructor`: the `timeout` default comes from the base class, which is not part of this model, so it is left unspecified.
- `Resolver.AliasResolver.DoGet`: a present key requires a bound factory, which `buildProtocol` always sets. On an unbound session (`factory` is `None`) a present key would raise `AttributeError`. A missing key is answered 500 without touching the factory. The same holds for `CheckRecipientAccess`, and for `ResumePut` when it reaches `factory.put`.
- `StatusCodes.Get`: Python `bool` and `long` arguments are not distinguished. A `long` or `unicode` argument is `OtherType` and falls through to `None`; `True` behaves as an unknown integer.
- `Resolver.AliasResolver.VirtualAliasMap`: `virtual_transport` is `None` or a `str`. A `unicode` value, which `isinstance(..., str)` rejects in Python 2, is not represented.
- A failed connection attempt is only logged by the errback, so it appears in the model as the absence of any callback event.

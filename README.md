# matra WSGI core, modelled in Dafny

This project models two parts of matra:

- The request-handling core of `matra/common/wsgi.py`:
  - the `Resource` pipeline: action arguments, handler lookup by action name with a `default` fallback, deserializer output merged over route values, the exception ladder around the controller, and serializer choice with the "return the unserializable result" fallback;
  - content negotiation for request bodies;
  - the XML response encoder, both as a pure function and as the in-place tree builder;
  - the parent-side bookkeeping of the pre-forking `Server`;
  - `Router._dispatch`, `Request.get_content_type`, `translate_exception`, `get_bind_addr`, the SSL option check of `get_socket`, and `BasePasteFactory._import_factory`.
- The connection-URL parser `Connection._parse_connection_url` of the Cassandra storage driver.

## Files

| File | Module |
|---|---|
| `base.dfy` | `Base`: `Option` and `Result` |
| `strings.dfy` | `Strings`: `str.split`, `str.strip`, `str.replace` and `int()`, as Python 2 defines them |
| `values.dfy` | `Values`: JSON-like values, exceptions, `translate_exception` |
| `cassandra.dfy` | `CassandraUrl`: `_parse_connection_url` |
| `listener.dfy` | `Listener`: `get_bind_addr` and the cert/key check |
| `negotiation.dfy` | `Negotiation`: `is_json_content_type`, `has_body`, `default`, `get_content_type`, the serializer choice |
| `xml.dfy` | `Xml`: `object_to_element`/`to_xml`, both as a pure function and as a `Document` class that grows a node arena in place |
| `resource.dfy` | `Resource`: `dispatch`, `get_action_args`, `__call__`, `Router._dispatch` |
| `supervisor.dfy` | `Supervisor`: `Server` children and `running` bookkeeping |
| `paste.dfy` | `Paste`: `_import_factory`'s name normalisation |

## How foreign code is modelled

Library calls the model cannot see are passed in as the fields of a `Values.Foreign` value, so every property holds whatever they do:

- `json.dumps(v)`: the text, or the exception it raises (a TypeError for an object it cannot encode, a UnicodeDecodeError, which is a ValueError, for a byte string that is not UTF-8);
- `json.dumps(v, default=sanitizer)`, the JSON serializer's call with the datetime `isoformat` sanitizer: the text, or the exception it raises;
- Python 2 `str`: `None` when it raises UnicodeEncodeError;
- `json.loads`: failure carries the parser's message;
- gettext localisation;
- lxml's name check on tags and its compatibility check on element text;
- `etree.tostring`.

Handlers are explicit tables from action name to function value. Python's `getattr` on a controller, deserializer or serializer object becomes such a table.

The operating system is modelled as follows:

- `os.fork` hands out a pid above every pid handed out so far.
- `os.wait` and signal delivery form the input event sequence of `Supervisor.Server.WaitOnChildren`.
- What `eventlet.listen` did within `get_socket`'s retry window is a parameter of `Supervisor.Server.Start`.

## Model

| member | source | states |
|---|---|---|
| `CassandraUrl.ConvertPort` | matra/storage/impl_cass.py:77 | `port and int(port) or 9160`: an empty port and a port of 0 both fall back to 9160, so a successful port is never 0; text `int()` rejects is an error |
| `CassandraUrl.ParseConnectionUrl` | matra/storage/impl_cass.py:65-78 | a successful parse has a colon-free host and a non-zero port; the result has exactly the fields host and port |
| `CassandraUrl.ParseWithoutPort` | matra/storage/impl_cass.py:74-77 | a netloc without ':' is all host, on port 9160 |
| `CassandraUrl.ParseWithPort` | matra/storage/impl_cass.py:72-77 | with one ':' the host is the text before it; success iff the port text is empty or an integer; an empty port or 0 gives 9160; any other integer n gives n; other text is an error |
| `CassandraUrl.ParseManyColons` | matra/storage/impl_cass.py:73 | two or more ':' always fail at the tuple unpack |
| `CassandraUrl.SignedPort` | matra/storage/impl_cass.py:72-77 | `int()` allows whitespace between the sign and the digits, so `host:- 12` parses to port -12 and `host:+ 12` to 12; no range check rejects a negative port |
| `CassandraUrl.ParseRoundTrip` | matra/storage/impl_cass.py:70-78 | `host:port`, rendered from a colon-free host and a positive port, parses back to the same host and port |
| `Listener.GetBindAddr` | matra/common/wsgi.py:94-99 | the host is `bind_host`; the port is `bind_port` when it is set and non-zero, else the default port |
| `Listener.UseSsl` | matra/common/wsgi.py:122-131 | an error exactly when one of cert_file and key_file is set and the other is not; TLS exactly when both are set; plain otherwise |
| `Values.TranslateException` | matra/common/wsgi.py:676-693 | the message is localised, and the kind or status code is kept; for an HTTP 4xx or 5xx error whose explanation is webob's generic one, the explanation becomes the message and the detail becomes ''; when the explanation is translatable, explanation and detail are both localised; either way the result has nothing left to translate |
| `Negotiation.IsJsonContentType` | matra/common/wsgi.py:435-452 | for GET, a non-empty ContentType parameter decides; an unreadable parameter counts as absent; otherwise the header decides; A missing type, or one starting with `text/plain`, counts as application/json; the result is true iff the type is JSON or application/json and the body starts with '{' |
| `Negotiation.HasBody` | matra/common/wsgi.py:456-465 | true iff Content-Length is present and positive and the request is JSON |
| `Negotiation.DeserializeDefault` | matra/common/wsgi.py:467-477 | `{}` without a body, `{'body': parsed}` with one, and a parse failure becomes a 400 whose detail is the parser's message |
| `Negotiation.GetContentType` | matra/common/wsgi.py:416-426 | succeeds iff a Content-Type header is present and allowed, returning it; otherwise InvalidContentType carries the header or None |
| `Negotiation.ChooseSerializer` | matra/common/wsgi.py:616-622 | a supplied serializer always wins; otherwise JSON iff the ContentType query value is exactly "JSON"; XML in every other case, absence included |
| `Negotiation.GetParameterOverridesHeader` | matra/common/wsgi.py:436-445 | for GET with a non-empty ContentType parameter, the header does not matter |
| `Negotiation.OtherMethodsIgnoreParameter` | matra/common/wsgi.py:436-445 | for other methods, the parameter does not matter |
| `Negotiation.GetWithJsonParameter` | matra/common/wsgi.py:435-465 | GET with ContentType=JSON and no header: no body when the body is empty; a body when it starts with '{' and Content-Length is positive |
| `Xml.WithText` | matra/common/wsgi.py:514-523 | setting element text succeeds iff lxml accepts the text, and then changes only the text; otherwise it is lxml's ValueError |
| `Xml.AppendAllSpec` | matra/common/wsgi.py:505-521 | appending children one after another succeeds iff every child encodes; the children then follow the existing ones in order, with tag and text kept; otherwise the exception is that of the first child that failed, all earlier ones having succeeded |
| `Xml.AppendAllStops` | matra/common/wsgi.py:505-521 | once every earlier child was appended, the first failing child's exception is the loop's exception |
| `Xml.PopulateList` | matra/common/wsgi.py:505-508 | a list succeeds iff every item's `member` child encodes; it then appends one `member` child per item, in order, each the encoding of its item, with tag, text and existing children untouched; otherwise the first failing item's exception |
| `Xml.MemberChildren` | matra/common/wsgi.py:505-508 | each appended `member` child is tagged `member` and is its item's encoding |
| `Xml.PopulateDict` | matra/common/wsgi.py:509-521 | a dictionary succeeds iff every entry's child encodes, and then appends one child per key, tagged with the key. A JSON-only key's child has no children; its text is the dumped value (`str` when dumping raises TypeError; any other exception of `json.dumps` is the result) when the value is truthy, and it has no text when the value is falsy. Any other key's child encodes its value. Otherwise the first failing entry's exception |
| `Xml.PopulateScalar` | matra/common/wsgi.py:522-523 | a scalar succeeds iff `str(obj)` succeeds and lxml accepts the text, and then only sets the text; a `str` failure is a UnicodeEncodeError and refused text lxml's ValueError |
| `Xml.PopulateExtends` | matra/common/wsgi.py:504-523 | a successful encoding keeps the tag and only appends children |
| `Xml.PopulateSucceeds` | matra/common/wsgi.py:504-523 | the encoder succeeds exactly on the values `Encodable` describes: every tag it creates is an XML name, every text XML compatible, every `str` defined |
| `Xml.ToXmlTree` | matra/common/wsgi.py:525-532 | succeeds iff the data is a non-empty dictionary whose first key is an XML name and whose value is encodable; the root tag is that key; an empty dictionary is an IndexError, a non-dictionary an AttributeError, a bad root tag lxml's ValueError |
| `Xml.Document.constructor` | matra/common/wsgi.py:528 | `etree.Element(root)`: a one-node tree with the root tag |
| `Xml.Document.SubElement` | matra/common/wsgi.py:505-511 | `etree.SubElement`: fails iff the tag is not an XML name, changing nothing; otherwise appends a fresh childless node to the parent's children and leaves every other node unchanged |
| `Xml.Document.SetText` | matra/common/wsgi.py:514-523 | fails iff lxml refuses the text, changing nothing; otherwise sets one node's text and nothing else |
| `Xml.Document.ObjectToElement` | matra/common/wsgi.py:504-523 | the in-place encoder raises exactly what the pure encoding fails with; when it does not, the tree under `element` equals the pure encoding; nodes outside it are unchanged |
| `Xml.Document.ListToElement` | matra/common/wsgi.py:505-508 | the list loop: its invariant is the pure encoding of the items seen so far; it stops at the first failing item with its exception |
| `Xml.Document.DictToElement` | matra/common/wsgi.py:509-521 | the dictionary loop: its invariant is the pure encoding of the entries seen so far; it stops at the first failing entry with its exception |
| `Xml.Document.AppendEncoded` | matra/common/wsgi.py:510-521 | one ordinary key: raises what its child's encoding raises, otherwise appends a child tagged with the key, holding the encoding of the value |
| `Xml.JsonOnlyDumpsFailure` | matra/common/wsgi.py:514-519 | when `json.dumps` raises on a truthy JSON-only value, a TypeError falls back to `str(value)` as the text, and any other exception (a UnicodeDecodeError) is not caught and becomes the element's failure |
| `Xml.Document.AppendJsonOnly` | matra/common/wsgi.py:511-519 | one JSON-only key: raises what its child's encoding raises, otherwise appends a childless child holding the embedded JSON text |
| `Xml.ToXml` | matra/common/wsgi.py:525-532 | building the tree in place gives exactly `ToXmlTree`, exceptions included |
| `Resource.ActionName` | matra/common/wsgi.py:648-652 | only a string action can name a handler |
| `Resource.Dispatch` | matra/common/wsgi.py:648-654 | it finds a handler iff the action is a string naming one, or there is a `default`; it takes the named handler, else `default`; A non-string name is a TypeError; A missing `default` is an AttributeError |
| `Resource.GetActionArgs` | matra/common/wsgi.py:656-673 | `{}` without routing values; otherwise exactly the route keys except `controller` and `format`, with their values |
| `Resource.ControllerFailure` | matra/common/wsgi.py:587-612 | a TypeError becomes a translated 400 with the fixed message, disguised; A 2xx or 3xx passes through unchanged and undisguised; any other HTTP exception is translated and disguised; anything else is translated and raised undisguised; disguised exactly in the first and third cases, and then always a fully localised 4xx or 5xx (status codes are 200 to 599) |
| `Resource.JsonDefaultStep` | matra/common/wsgi.py:480-494 | the JSON content type is set even when encoding then raises; the body is written iff the result is data that `json.dumps` with the sanitizer encodes, and is then that text; otherwise the body is untouched and the exception is the one `json.dumps` raised, which for a response object is the circular-reference ValueError |
| `Resource.XmlDefaultStep` | matra/common/wsgi.py:525-537 | the XML content type is set even when `to_xml` then raises; the body is written iff the result is data the encoder accepts, and is then `etree.tostring` of the tree rooted at the first key; otherwise the body is untouched and the exception is the encoder's, or AttributeError for a response object |
| `Resource.PopAction` | matra/common/wsgi.py:571-572 | the action popped from `get_action_args`' copy is the route's `action` when it is a string (`None` otherwise), and the arguments left are the route values without controller, format and action |
| `Resource.MergedArgs` | matra/common/wsgi.py:585 | after `update`, every key the deserializer returned has its value; every other key is a route variable other than controller, format and action, with its route value; and every such route variable is present |
| `Resource.CallController` | matra/common/wsgi.py:587-612 | keyword arguments named `self`, `obj` or `action` make the `dispatch` call raise TypeError, which goes through `ControllerFailure` without the controller being looked up; otherwise a controller without the action or `default` goes through `ControllerFailure`, and one with it is called; its exceptions go through `ControllerFailure`; a result goes to `Serialize`; every disguised exception is a localised 4xx or 5xx |
| `Resource.Serialize` | matra/common/wsgi.py:614-646 | never raises; a response is written iff the serializer has a handler for the action (or `default`) and it does not raise, the response being what it wrote; otherwise `UnserializedResult` is handed back |
| `Resource.UnserializedResult` | matra/common/wsgi.py:627-646 | a result that could not be serialized is handed back unchanged, except that a JSON request's API exception first has its unserialized body written into its response by the `default` serializer |
| `Resource.Call` | matra/common/wsgi.py:569-646 | unreadable query parameters, a missing or non-string action, a deserializer without the action or `default`, and the deserializer's own exceptions all fail untranslated before the controller runs; a controller without the action or `default` goes through `ControllerFailure`; when the merged arguments hold a key `self`, `obj` or `action` (a route variable, or a key of the deserializer's dict), calling `dispatch` with them raises TypeError, which goes through `ControllerFailure` before the controller is looked up; otherwise the controller receives the route values without controller, format and action, overridden by the deserializer's keys; its exceptions go through `ControllerFailure`; a result becomes a response iff the chosen serializer has a handler and it does not raise, the response being what it wrote; otherwise `UnserializedResult` is returned; without a supplied serializer the response is JSON iff ContentType is "JSON", and XML otherwise |
| `Resource.RouterDispatch` | matra/common/wsgi.py:392-404 | 404 iff the match is None or empty; otherwise the matched `controller` app when that key exists; a missing `wsgiorg.routing_args` or `controller` key is a KeyError naming that key |
| `Paste.ImportFactoryName` | matra/common/wsgi.py:712-730 | the name is found iff the factory has a key and the section sets it; otherwise it is a KeyError; the name has no ':' and no surrounding whitespace |
| `Paste.ModuleColonClass` | matra/common/wsgi.py:729 | a padded `<module>:<class>` value gives `<module>.<class>` |
| `Paste.ImportFactoryNameIdempotent` | matra/common/wsgi.py:729 | feeding the normalised name back in gives the same name |
| `Supervisor.RemoveProperties` | matra/common/wsgi.py:214 | `list.remove` of a present pid shortens the list by one and keeps every other pid; without duplicates, no copy of the pid is left |
| `Supervisor.Server.constructor` | matra/common/wsgi.py:164-167 | no children, and running |
| `Supervisor.Server.RunChild` | matra/common/wsgi.py:237-247 | the parent appends one fresh pid that is not already in the list |
| `Supervisor.Server.Start` | matra/common/wsgi.py:102-207 | `get_socket` raises, leaving the server unchanged, iff the cert/key options are half set or the bind failed (a RuntimeError after 30 seconds of EADDRINUSE, or any other socket error as is); otherwise the socket is kept, TLS-wrapped iff both files are set; then with 0 workers it chooses the single in-process server and leaves the children unchanged, and otherwise installs the handlers and forks until there are `workers` children; the existing children are kept in place |
| `Supervisor.Server.Hup` | matra/common/wsgi.py:184-190 | clears `running` and changes nothing else, so repeating it has no further effect |
| `Supervisor.Server.KillChildren` | matra/common/wsgi.py:177-182 | clears `running` and changes nothing else |
| `Supervisor.Server.ReapChild` | matra/common/wsgi.py:212-215 | for a pid in the list: the pid is removed and exactly one fresh pid is appended, so the count is unchanged; for an unknown pid: `list.remove` fails and nothing changes |
| `Supervisor.Server.HandleEvent` | matra/common/wsgi.py:211-222 | one `os.wait()` result: a listed child's exit removes it and adds one pid above every earlier one; an exit of an unlisted pid is always `list.remove`'s error, changing nothing; EINTR and ECHILD are ignored and other errors raised; SIGHUP and SIGTERM clear `running`; a keyboard interrupt breaks |
| `Supervisor.Server.WaitOnChildren` | matra/common/wsgi.py:209-225 | `running` is read only at the loop head; the number of children never changes; every listed child whose exit was read is gone and every pid that left had an exit event; new children are fresh pids; a running server reads at least one event and only its last event can end the loop: SIGHUP or SIGTERM (stopped), a keyboard interrupt, an OS error other than EINTR and ECHILD, or an unknown pid; an exit event for a pid at or below the largest pid handed out before the loop, and not listed when it began, always ends the loop with that error |
| `Supervisor.RespawnScenario` | matra/common/wsgi.py:169-225 | two workers, one exit, then SIGHUP: the dead child is gone and there are two children again |
| `Supervisor.HangupDuringReap` | matra/common/wsgi.py:184-215 | SIGHUP between `os.wait` and the reap still leads to a respawn; the count stays two and `running` is false |

## Left out

- Socket work in `get_socket`: `getaddrinfo` (and the IndexError when it finds no IPv4 or IPv6 address), the timing of the 30-second retry loop around `eventlet.listen` and `ssl.wrap_socket`, and `setsockopt` are I/O and wall-clock bound. The bind address, the cert/key decision and the outcome of the retry loop are modelled.
- Supervisor.Server.WaitOnChildren: closing the socket after the loop is not modelled.
- Supervisor.Server.ReapChild: `os.fork` is taken never to reuse a pid, so a reaped pid is never handed out again. A real kernel may reuse it. `ReapChild`'s "the pid is gone", `WaitOnChildren`'s "a listed child whose exit was read is gone" and `RespawnScenario`'s `deadReaped` rely on this.
- Real processes and signals: `fork`, `wait`, `signal.signal`, `killpg`, the child side of `run_child` and its `SIG_DFL` reset, `run_server`, `_single_run` and the GreenPools. Signals are input events that reach the parent only between `os.wait` calls.
- `Server.wait`: dispatching to `pool.waitall` in single-process mode and swallowing a late KeyboardInterrupt changes no modelled state.
- `json.dumps` (plain and with the datetime `isoformat` sanitizer), `json.loads`, `str`, lxml's tag and text checks, `etree.tostring` and gettext localisation are abstract parameters, as listed above. So are webob's `best_match_content_type`, `best_match_language` and query-parameter parsing.
- Values.TranslateException: modelled on values. That `translate_exception` mutates and returns the same exception object is not captured.
- Xml.Document.ObjectToElement: Python dictionary order is the order of the modelled entry sequence. Duplicate keys cannot arise in Python and are not excluded in the model.
- Resource.Dispatch: the built-in serializers are tables holding only `default`. Calling one of their other methods by action name (such as `to_json`) is not modelled.
- Resource.Call: a handler returns a value or an exception. Handlers that mutate the request or the environ, and attributes found by `getattr` that are not handlers, are not modelled.
- `Middleware`, `Debug`, the routes mapper wiring of `Router`, paste-deploy loading and global factory setup and teardown are framework plumbing.
- `URL_LENGTH_LIMIT` is only passed on to eventlet.
- Floating-point values: JSON-like values hold integers, strings, booleans, null, lists, dictionaries and opaque objects; an opaque object carries its own truth value, so a falsy object (an empty tuple, a midnight `datetime.time`) under a JSON-only key leaves that element empty.
- The rest of the Cassandra driver (connection pooling, `ingest_metrics`) and the storage plugin lookup are not part of this model. `urlsplit` is external; the parser takes the netloc.

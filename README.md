# Counter store

A model of the counter web service's in-memory store. The store is a table from counter name to integer value. It is the process-wide dictionary `COUNTERS`, which starts out empty. Four request handlers each run one step on it, and each returns a response body and an HTTP status code:

- create: inserts the name with value 0 (201 Created), or answers 409 Conflict with the message `Counter <name> already exists` and leaves the table alone;
- update: increments a present counter (200 OK), or inserts an absent one with value 1 (201 Created);
- read: answers the current value (200 OK) or 404 Not Found, and never changes the table;
- delete: removes the counter and answers the value it held (204 No Content), or answers 404 Not Found.

The status codes are those of RFC 9110: section 15.3.1 (200), 15.3.2 (201), 15.3.5 (204), 15.5.5 (404) and 15.5.10 (409). A successful body is `{name: value}`, modelled as `Value(name, value)`. An error body is `{"Message": text}`, modelled as `Message(text)`. The 404 message is written without string interpolation in the source. The model therefore keeps the literal text `{name} not found`, the same for every name.

Files:

- `counter.dfy`, module `Counter`. It holds the status constants and the body and response types. `Machine` is the life cycle of a single counter name on its own: absent, or present with a value. `Apply` is a handler as a step on the whole table. The class `CounterStore` holds the table as a `map<string, int>` field, and its four methods change it in place. Its invariant `Valid()` says that every stored value is non-negative.
- `counter_traces.dfy`, module `CounterTraces`. It covers sequences of requests on one table. The table behaves like one independent copy of `Machine` per name.
- `counter_tests.dfy`, module `CounterTests`. The service's test cases, written as client code of `CounterStore`.

## Model

| member | source | states |
|---|---|---|
| `Counter.CounterStore.constructor` | src/counter.py:7 | the table starts empty, and the invariant holds |
| `Counter.CounterStore.CreateCounter` | src/counter.py:15-23 | absent name: the table gains exactly `name -> 0`, and the result is `Value(name, 0)` with 201. Present name: the table is unchanged, and the result is `Message("Counter <name> already exists")` with 409. Non-negativity is kept. |
| `Counter.CounterStore.UpdateCounter` | src/counter.py:27-35 | present name with value v: only that entry changes, to v+1, and the result is `Value(name, v+1)` with 200. Absent name: the table gains exactly `name -> 1`, and the result is `Value(name, 1)` with 201. Non-negativity is kept. |
| `Counter.CounterStore.ReadCounter` | src/counter.py:39-44 | modifies nothing. Present name: the result is `Value(name, current value)` with 200. Absent name: the result is the literal `Message("{name} not found")` with 404. |
| `Counter.CounterStore.DeleteCounter` | src/counter.py:48-53 | present name: exactly that key is removed, and the result is `Value(name, value it held)` with 204. Absent name: the table is unchanged, and the result is the literal not-found message with 404. Non-negativity is kept. |
| `Counter.Apply` | src/counter.py:15-53 | for each handler, the named entry moves as the per-name state machine `Machine` prescribes, and the response is the machine's response. Every other name keeps its entry (or stays absent). A table with non-negative values stays non-negative. |
| `CounterTraces.Run` | src/counter.py:19-35 | any sequence of handler calls yields one response per request. It keeps every stored value non-negative, because values are only ever set to 0 or 1 or incremented. |
| `CounterTraces.RunFollowsMachine` | src/counter.py:19-53 | after any sequence of requests, a name's entry is what `Machine` reaches from its first state on exactly the requests that name it, in order |
| `CounterTraces.ResponseFollowsMachine` | src/counter.py:19-53 | the response to the i-th request is `Machine`'s response in the state that the earlier requests on the same name left behind. Requests on other names have no influence. |
| `CounterTraces.UntouchedNameUnchanged` | src/counter.py:19-53 | a name that no request in the sequence mentions keeps its entry |
| `CounterTests.CreateACounter` | tests/test_counter.py:28-32 | creating `foo` in an empty store answers 201 |
| `CounterTests.DuplicateACounter` | tests/test_counter.py:34-39 | creating `bar` twice answers 201, then 409 |
| `CounterTests.UpdateACounter` | tests/test_counter.py:41-54 | create answers 201. Update answers 200 with the created value plus one. Updating the absent `newCounter` answers 201. |
| `CounterTests.ReadACounter` | tests/test_counter.py:56-62 | reading a created counter answers 200 with value 0. Reading `unrealCounter` answers 404. |
| `CounterTests.DeleteACounter` | tests/test_counter.py:64-70 | deleting a created counter answers 204 with value 0. Deleting it again answers 404. |

## Left out

- Flask routing, the `app` object and the route decorators: each handler is a plain method taking the counter name. Names are arbitrary strings; the empty name and any other name the router would refuse are not excluded.
- The `app.logger.info` calls: logging has no effect on the table or the responses.
- The `status` module is not part of this model. Its members are the integer constants 200, 201, 204, 404 and 409.
- JSON serialisation of the returned dictionaries: bodies are the `Body` datatype. A counter named `Message` would serialise like an error body; the datatype keeps the two apart. Whether the HTTP layer drops the body of a 204 answer is also out of scope: the model returns what the handler returns.
- Concurrency: the global dictionary is changed without locking. The model is sequential, and each handler runs as one atomic step.
- The test cases share one global dictionary in the source. Each method in `CounterTests` uses a fresh store instead. The tests use distinct names, so their outcomes are the same.

/** The in-memory counter store of the counter web service: a table from
    counter name to integer value and the four request handlers (create,
    update, read, delete) that each run one step on it.  Every handler
    answers with a response body and an HTTP status code. */
module Counter {

  // HTTP status codes (RFC 9110, sections 15.3.1, 15.3.2, 15.3.5, 15.5.5, 15.5.10)
  const HTTP_200_OK: int := 200
  const HTTP_201_CREATED: int := 201
  const HTTP_204_NO_CONTENT: int := 204
  const HTTP_404_NOT_FOUND: int := 404
  const HTTP_409_CONFLICT: int := 409

  /** A response body: either `{name: value}` or `{"Message": text}`. */
  datatype Body = Value(name: string, value: int) | Message(text: string)

  /** What a handler returns: the body and the status code, in that order. */
  datatype Response = Response(body: Body, status: int)

  /** The message of a create on a name that already exists. */
  function ConflictMessage(name: string): string {
    "Counter " + name + " already exists"
  }

  /** The message of a read or delete on an absent name.  The source writes
      it without string interpolation, so the placeholder is kept literally. */
  const NOT_FOUND_MESSAGE: string := "{name} not found"

  /** Every stored counter value is non-negative. */
  ghost predicate NonNegative(m: map<string, int>) {
    forall k :: k in m ==> m[k] >= 0
  }

  // ---------------------------------------------------------------------
  // Reference definition: the life cycle of one counter name, on its own.
  // ---------------------------------------------------------------------

  datatype Op = Create | Update | Read | Delete

  /** A request: one handler applied to one counter name. */
  datatype Request = Request(op: Op, name: string)

  /** Where a single name stands: absent, or present with a value. */
  datatype Slot = Absent | Present(value: int)

  datatype Step = Step(next: Slot, response: Response)

  function SlotOf(m: map<string, int>, name: string): Slot {
    if name in m then Present(m[name]) else Absent
  }

  /** The per-name state machine: absent -> present(0) by create,
      absent -> present(1) and present(v) -> present(v+1) by update,
      present -> absent by delete, and read without a transition. */
  function Machine(op: Op, name: string, s: Slot): Step {
    match (op, s)
    case (Create, Absent) => Step(Present(0), Response(Value(name, 0), HTTP_201_CREATED))
    case (Create, Present(v)) => Step(s, Response(Message(ConflictMessage(name)), HTTP_409_CONFLICT))
    case (Update, Absent) => Step(Present(1), Response(Value(name, 1), HTTP_201_CREATED))
    case (Update, Present(v)) => Step(Present(v + 1), Response(Value(name, v + 1), HTTP_200_OK))
    case (Read, Absent) => Step(s, Response(Message(NOT_FOUND_MESSAGE), HTTP_404_NOT_FOUND))
    case (Read, Present(v)) => Step(s, Response(Value(name, v), HTTP_200_OK))
    case (Delete, Absent) => Step(s, Response(Message(NOT_FOUND_MESSAGE), HTTP_404_NOT_FOUND))
    case (Delete, Present(v)) => Step(Absent, Response(Value(name, v), HTTP_204_NO_CONTENT))
  }

  // ---------------------------------------------------------------------
  // The handlers as one step on the whole table.
  // ---------------------------------------------------------------------

  datatype Outcome = Outcome(store: map<string, int>, response: Response)

  /** One handler run on table `m`, written as the table update the handler
      performs.  Its contract says that the named entry follows the per-name
      machine, that no other entry changes, and that non-negativity is kept. */
  function Apply(m: map<string, int>, req: Request): (r: Outcome)
    ensures r.response == Machine(req.op, req.name, SlotOf(m, req.name)).response
    ensures SlotOf(r.store, req.name) == Machine(req.op, req.name, SlotOf(m, req.name)).next
    ensures forall k :: k != req.name ==> SlotOf(r.store, k) == SlotOf(m, k)
    ensures NonNegative(m) ==> NonNegative(r.store)
  {
    var name := req.name;
    match req.op
    case Create =>
      if name in m then Outcome(m, Response(Message(ConflictMessage(name)), HTTP_409_CONFLICT))
      else Outcome(m[name := 0], Response(Value(name, 0), HTTP_201_CREATED))
    case Update =>
      if name in m then Outcome(m[name := m[name] + 1], Response(Value(name, m[name] + 1), HTTP_200_OK))
      else Outcome(m[name := 1], Response(Value(name, 1), HTTP_201_CREATED))
    case Read =>
      if name in m then Outcome(m, Response(Value(name, m[name]), HTTP_200_OK))
      else Outcome(m, Response(Message(NOT_FOUND_MESSAGE), HTTP_404_NOT_FOUND))
    case Delete =>
      if name in m then Outcome(m - {name}, Response(Value(name, m[name]), HTTP_204_NO_CONTENT))
      else Outcome(m, Response(Message(NOT_FOUND_MESSAGE), HTTP_404_NOT_FOUND))
  }

  // ---------------------------------------------------------------------
  // The store itself: the table, changed in place by the handlers.
  // ---------------------------------------------------------------------

  class CounterStore {
    var counters: map<string, int>

    ghost predicate Valid()
      reads this
    {
      NonNegative(counters)
    }

    /** The table starts out empty. */
    constructor ()
      ensures Valid() && counters == map[]
    {
      counters := map[];
    }

    /** Creates `name` with value 0, or reports a conflict if it exists. */
    method CreateCounter(name: string) returns (body: Body, status: int)
      requires Valid()
      modifies this
      ensures Valid()
      ensures name in old(counters) ==>
        && counters == old(counters)
        && body == Message("Counter " + name + " already exists")
        && status == HTTP_409_CONFLICT
      ensures name !in old(counters) ==>
        && counters == old(counters)[name := 0]
        && body == Value(name, 0)
        && status == HTTP_201_CREATED
      ensures Outcome(counters, Response(body, status)) == Apply(old(counters), Request(Create, name))
    {
      if name in counters {
        return Message(ConflictMessage(name)), HTTP_409_CONFLICT;
      }
      counters := counters[name := 0];
      return Value(name, counters[name]), HTTP_201_CREATED;
    }

    /** Increments `name`, or creates it with value 1 if it is absent. */
    method UpdateCounter(name: string) returns (body: Body, status: int)
      requires Valid()
      modifies this
      ensures Valid()
      ensures name in old(counters) ==>
        && counters == old(counters)[name := old(counters)[name] + 1]
        && body == Value(name, old(counters)[name] + 1)
        && status == HTTP_200_OK
      ensures name !in old(counters) ==>
        && counters == old(counters)[name := 1]
        && body == Value(name, 1)
        && status == HTTP_201_CREATED
      ensures Outcome(counters, Response(body, status)) == Apply(old(counters), Request(Update, name))
    {
      if name in counters {
        counters := counters[name := counters[name] + 1];
        return Value(name, counters[name]), HTTP_200_OK;
      }
      counters := counters[name := 1];
      return Value(name, counters[name]), HTTP_201_CREATED;
    }

    /** Looks `name` up; the table is not changed. */
    method ReadCounter(name: string) returns (body: Body, status: int)
      ensures name in counters ==> body == Value(name, counters[name]) && status == HTTP_200_OK
      ensures name !in counters ==> body == Message("{name} not found") && status == HTTP_404_NOT_FOUND
      ensures Apply(counters, Request(Read, name)) == Outcome(counters, Response(body, status))
    {
      if name in counters {
        return Value(name, counters[name]), HTTP_200_OK;
      }
      return Message(NOT_FOUND_MESSAGE), HTTP_404_NOT_FOUND;
    }

    /** Removes `name` and answers with the value it held, or reports that
        it is absent. */
    method DeleteCounter(name: string) returns (body: Body, status: int)
      requires Valid()
      modifies this
      ensures Valid()
      ensures name in old(counters) ==>
        && counters == old(counters) - {name}
        && body == Value(name, old(counters)[name])
        && status == HTTP_204_NO_CONTENT
      ensures name !in old(counters) ==>
        && counters == old(counters)
        && body == Message("{name} not found")
        && status == HTTP_404_NOT_FOUND
      ensures Outcome(counters, Response(body, status)) == Apply(old(counters), Request(Delete, name))
    {
      if name in counters {
        var removed := counters[name];
        counters := counters - {name};
        return Value(name, removed), HTTP_204_NO_CONTENT;
      }
      return Message(NOT_FOUND_MESSAGE), HTTP_404_NOT_FOUND;
    }
  }
}

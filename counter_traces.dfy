/** Sequences of handler calls on one table.  The handlers only ever touch
    the entry they are called on, so the table as a whole behaves like one
    independent per-name state machine for every counter name. */
module CounterTraces {
  import opened Counter

  datatype Trace = Trace(store: map<string, int>, responses: seq<Response>)

  /** Runs the requests in order, starting from table `m`; one response per request. */
  function Run(m: map<string, int>, reqs: seq<Request>): (r: Trace)
    ensures |r.responses| == |reqs|
    ensures NonNegative(m) ==> NonNegative(r.store)
    decreases |reqs|
  {
    if reqs == [] then Trace(m, [])
    else
      var first := Apply(m, reqs[0]);
      var rest := Run(first.store, reqs[1..]);
      Trace(rest.store, [first.response] + rest.responses)
  }

  /** The handlers, in order, of the requests that name `name`. */
  function Project(reqs: seq<Request>, name: string): seq<Op>
    decreases |reqs|
  {
    if reqs == [] then []
    else (if reqs[0].name == name then [reqs[0].op] else []) + Project(reqs[1..], name)
  }

  /** The per-name machine run over a sequence of handlers. */
  function MachineRun(s: Slot, name: string, ops: seq<Op>): Slot
    decreases |ops|
  {
    if ops == [] then s else MachineRun(Machine(ops[0], name, s).next, name, ops[1..])
  }

  /** After any sequence of requests, the entry of `name` is what the
      per-name machine reaches from its first state on the requests that
      name it, and on no others. */
  lemma {:induction false} RunFollowsMachine(m: map<string, int>, reqs: seq<Request>, name: string)
    ensures SlotOf(Run(m, reqs).store, name) == MachineRun(SlotOf(m, name), name, Project(reqs, name))
    decreases |reqs|
  {
    if reqs != [] {
      var first := Apply(m, reqs[0]);
      RunFollowsMachine(first.store, reqs[1..], name);
      MachineRunCons(SlotOf(m, name), reqs, name);
    }
  }

  /** The response to the i-th request is the per-name machine's response,
      given the state that earlier requests on the same name left behind. */
  lemma {:induction false} ResponseFollowsMachine(m: map<string, int>, reqs: seq<Request>, i: nat)
    requires i < |reqs|
    ensures Run(m, reqs).responses[i]
         == Machine(reqs[i].op, reqs[i].name,
                    MachineRun(SlotOf(m, reqs[i].name), reqs[i].name, Project(reqs[..i], reqs[i].name))).response
    decreases |reqs|
  {
    var name := reqs[i].name;
    if i > 0 {
      var first := Apply(m, reqs[0]);
      ResponseFollowsMachine(first.store, reqs[1..], i - 1);
      assert reqs[1..][i - 1] == reqs[i];
      assert reqs[..i][0] == reqs[0];
      assert reqs[..i][1..] == reqs[1..][..i - 1];
      MachineRunCons(SlotOf(m, name), reqs[..i], name);
    } else {
      assert reqs[..i] == [];
    }
  }

  /** Running the machine over the projection of a non-empty request
      sequence takes one step exactly when the first request names `name`. */
  lemma MachineRunCons(s: Slot, reqs: seq<Request>, name: string)
    requires reqs != []
    ensures MachineRun(s, name, Project(reqs, name))
         == MachineRun(if reqs[0].name == name then Machine(reqs[0].op, name, s).next else s,
                       name, Project(reqs[1..], name))
  {
    if reqs[0].name == name {
      var rest := Project(reqs[1..], name);
      assert Project(reqs, name) == [reqs[0].op] + rest;
      assert ([reqs[0].op] + rest)[1..] == rest;
    } else {
      var rest := Project(reqs[1..], name);
      assert Project(reqs, name) == [] + rest;
      assert [] + rest == rest;
    }
  }

  /** A name that no request mentions keeps its entry. */
  lemma UntouchedNameUnchanged(m: map<string, int>, reqs: seq<Request>, name: string)
    requires forall i :: 0 <= i < |reqs| ==> reqs[i].name != name
    ensures SlotOf(Run(m, reqs).store, name) == SlotOf(m, name)
  {
    ProjectOfUntouched(reqs, name);
    RunFollowsMachine(m, reqs, name);
  }

  lemma {:induction false} ProjectOfUntouched(reqs: seq<Request>, name: string)
    requires forall i :: 0 <= i < |reqs| ==> reqs[i].name != name
    ensures Project(reqs, name) == []
    decreases |reqs|
  {
    if reqs != [] {
      assert forall i :: 0 <= i < |reqs[1..]| ==> reqs[1..][i] == reqs[i + 1];
      ProjectOfUntouched(reqs[1..], name);
    }
  }
}

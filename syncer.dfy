/** LogSyncer.SyncLogs of internal/good/syncer/syncer.go: an outer loop that
    checks for cancellation and reads a batch, and an inner loop that writes
    that batch. Each turn of either loop consumes one answer from the
    environment. */
module Syncer {

  import opened Wrappers
  import opened Domain

  /** What ReadLogs returns. */
  datatype ReadResult = Read(logs: seq<Log>) | ReadFailed(e: Error)

  /** The environment at one turn of a loop: whether the context is done,
      what ReadLogs would return, and what WriteLogs would return. */
  datatype Input = Input(cancelled: bool, read: ReadResult, write: Option<Error>)

  /** Where the loop is: at the top of the outer loop, inside the inner loop
      with a batch, or returned. */
  datatype State = Reading | Writing(batch: seq<Log>) | Stopped

  /** A call the loop makes on its collaborators. */
  datatype Call = ReadLogs | WriteLogs(batch: seq<Log>)

  /** A state and the calls made to reach it. */
  datatype Trace = Trace(state: State, calls: seq<Call>)

  /** One turn. Cancellation is looked at only before a read; a failed read
      goes straight back to the top; inside the inner loop every answer,
      success or error, leads to writing the same batch again. */
  function Step(s: State, i: Input): (t: Trace)
    ensures |t.calls| <= 1
    ensures t.state.Stopped? <==> s.Stopped? || (s.Reading? && i.cancelled)
    ensures t.calls == [] <==> t.state.Stopped?
    ensures s.Writing? ==> t == Trace(s, [WriteLogs(s.batch)])
    ensures s.Reading? && !i.cancelled ==> t.calls == [ReadLogs]
  {
    match s
    case Reading =>
      if i.cancelled then Trace(Stopped, [])
      else if i.read.ReadFailed? then Trace(Reading, [ReadLogs])
      else Trace(Writing(i.read.logs), [ReadLogs])
    case Writing(b) => Trace(Writing(b), [WriteLogs(b)])
    case Stopped => Trace(Stopped, [])
  }

  /** The run over a sequence of turns. */
  function Run(s: State, inputs: seq<Input>): Trace
    decreases |inputs|
  {
    if inputs == [] || s.Stopped? then Trace(s, [])
    else
      var first := Step(s, inputs[0]);
      var rest := Run(first.state, inputs[1..]);
      Trace(rest.state, first.calls + rest.calls)
  }

  function Reads(n: nat): seq<Call> {
    seq(n, _ => ReadLogs)
  }

  function Writes(b: seq<Log>, n: nat): seq<Call> {
    seq(n, _ => WriteLogs(b))
  }

  /** The first turn at which the context is done or a read succeeds. */
  function FirstEvent(inputs: seq<Input>): (j: nat)
    ensures j <= |inputs|
    ensures forall k :: 0 <= k < j ==> !inputs[k].cancelled && inputs[k].read.ReadFailed?
    ensures j < |inputs| ==> inputs[j].cancelled || inputs[j].read.Read?
  {
    if inputs == [] then 0
    else if inputs[0].cancelled || inputs[0].read.Read? then 0
    else 1 + FirstEvent(inputs[1..])
  }

  /** Once a batch has been read the loop writes it forever: no answer makes
      it read again, look at the context, or stop. */
  lemma {:induction false} WritingForever(b: seq<Log>, inputs: seq<Input>)
    ensures Run(Writing(b), inputs) == Trace(Writing(b), Writes(b, |inputs|))
    decreases |inputs|
  {
    if inputs != [] {
      WritingForever(b, inputs[1..]);
      assert [WriteLogs(b)] + Writes(b, |inputs| - 1) == Writes(b, |inputs|);
    }
  }

  /** The whole behaviour from the top of the loop: reads until the context
      is done (then it stops, having written nothing) or a read succeeds
      (then it writes exactly that batch on every later turn). */
  lemma {:induction false} RunFromReading(inputs: seq<Input>)
    ensures var j := FirstEvent(inputs);
            var t := Run(Reading, inputs);
            && (j == |inputs| ==> t == Trace(Reading, Reads(|inputs|)))
            && (j < |inputs| && inputs[j].cancelled ==> t == Trace(Stopped, Reads(j)))
            && (j < |inputs| && !inputs[j].cancelled ==>
                  t == Trace(Writing(inputs[j].read.logs),
                             Reads(j + 1) + Writes(inputs[j].read.logs, |inputs| - j - 1)))
    decreases |inputs|
  {
    if inputs == [] {
    } else if inputs[0].cancelled {
    } else if inputs[0].read.Read? {
      WritingForever(inputs[0].read.logs, inputs[1..]);
    } else {
      RunFromReading(inputs[1..]);
      ReadsCons(FirstEvent(inputs[1..]));
      ReadsCons(|inputs| - 1);
      ReadsCons(FirstEvent(inputs[1..]) + 1);
    }
  }

  lemma ReadsCons(n: nat)
    ensures [ReadLogs] + Reads(n) == Reads(n + 1)
  {
    assert ([ReadLogs] + Reads(n))[0] == ReadLogs;
  }

  /** `whole` is what the run gives once `calls` have been made and the
      loop stands in state `s` with `rest` of the inputs to come. */
  predicate Resumes(whole: Trace, calls: seq<Call>, s: State, rest: seq<Input>) {
    whole.state == Run(s, rest).state && whole.calls == calls + Run(s, rest).calls
  }

  /** A turn at the top of the loop that is not cancelled: one read. */
  lemma ReadTurn(whole: Trace, calls: seq<Call>, rest: seq<Input>)
    requires rest != [] && !rest[0].cancelled && Resumes(whole, calls, Reading, rest)
    ensures Resumes(whole, calls + [ReadLogs], Step(Reading, rest[0]).state, rest[1..])
  {
    var next := Run(Step(Reading, rest[0]).state, rest[1..]);
    assert calls + ([ReadLogs] + next.calls) == (calls + [ReadLogs]) + next.calls;
  }

  /** A turn at the top of the loop with the context done: the run ends. */
  lemma CancelledTurn(whole: Trace, calls: seq<Call>, rest: seq<Input>)
    requires rest != [] && rest[0].cancelled && Resumes(whole, calls, Reading, rest)
    ensures whole == Trace(Stopped, calls)
  {
    assert Run(Stopped, rest[1..]) == Trace(Stopped, []);
    assert Run(Reading, rest) == Trace(Stopped, []);
    assert calls + [] == calls;
  }

  /** A turn inside the inner loop: one write of the same batch. */
  lemma WriteTurn(whole: Trace, calls: seq<Call>, logs: seq<Log>, rest: seq<Input>)
    requires rest != [] && Resumes(whole, calls, Writing(logs), rest)
    ensures Resumes(whole, calls + [WriteLogs(logs)], Writing(logs), rest[1..])
  {
    var next := Run(Writing(logs), rest[1..]);
    assert calls + ([WriteLogs(logs)] + next.calls) == (calls + [WriteLogs(logs)]) + next.calls;
  }

  /** SyncLogs over a finite stretch of turns: the nested loops of the
      source, each turn consuming one input. The returned state is where the
      loop is when the inputs run out (Stopped when it returned). */
  method SyncLogs(inputs: seq<Input>) returns (t: Trace)
    ensures t == Run(Reading, inputs)
  {
    ghost var whole := Run(Reading, inputs);
    var calls: seq<Call> := [];
    var rest := inputs;
    while rest != []
      invariant Resumes(whole, calls, Reading, rest)
    {
      if rest[0].cancelled {
        CancelledTurn(whole, calls, rest);
        return Trace(Stopped, calls);
      }
      ReadTurn(whole, calls, rest);
      calls := calls + [ReadLogs];
      var read := rest[0].read;
      if read.ReadFailed? {
        rest := rest[1..];
        continue;
      }
      var logs := read.logs;
      rest := rest[1..];
      while rest != []
        invariant Resumes(whole, calls, Writing(logs), rest)
      {
        WriteTurn(whole, calls, logs, rest);
        var err := rest[0].write;
        calls := calls + [WriteLogs(logs)];
        if err.Some? {
          rest := rest[1..];
          continue;
        }
        rest := rest[1..];
      }
      return Trace(Writing(logs), calls);
    }
    t := Trace(Reading, calls);
  }
}

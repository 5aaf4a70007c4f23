// One turn with its single retry (consumer_client.py): a refused clearance
// before any visible text re-mints the credentials once and starts afresh.
module ChatRetry {
  import opened Prelude

  datatype Credentials = Credentials(cookies: map<string, string>, token: string, identityType: string)

  // What the browser gate returns: a field it leaves out is kept.
  datatype GateReply =
    | GateRaises
    | NotASnapshot
    | Snapshot(cookies: Option<map<string, string>>, token: Option<string>, identityType: Option<string>)

  datatype AttemptEnd = Complete | Clearance | Failed

  // What one attempt yields, and how it ends.
  datatype Attempt = Attempt(chunks: seq<string>, end: AttemptEnd)

  datatype Ending = Returned | RaisedClearance | RaisedError | RaisedByGate | RaisedNoSnapshot

  datatype Call = Call(credentials: Credentials, conversation: string)

  function Or<T>(value: Option<T>, fallback: T): T {
    if value.Some? then value.value else fallback
  }

  function Merged(c: Credentials, reply: GateReply): Credentials
    requires reply.Snapshot?
  {
    Credentials(Or(reply.cookies, c.cookies), Or(reply.token, c.token), Or(reply.identityType, c.identityType))
  }

  function EndingOf(end: AttemptEnd): Ending {
    match end
    case Complete => Returned
    case Clearance => RaisedClearance
    case Failed => RaisedError
  }

  predicate Visible(chunks: seq<string>) {
    exists i :: 0 <= i < |chunks| && chunks[i] != ""
  }

  // The first attempt is refused before anything was shown, and there is a gate.
  predicate Remints(first: Attempt, gate: Option<GateReply>) {
    first.end == Clearance && !Visible(first.chunks) && gate.Some?
  }

  class ConsumerClient {
    var credentials: Credentials
    const gate: Option<GateReply>        // None when the client has no gate
    var calls: seq<Call>                 // attempts made
    var mints: nat                       // times the gate was asked
    var output: seq<string>

    constructor (credentials: Credentials, gate: Option<GateReply>)
      ensures this.credentials == credentials && this.gate == gate && calls == [] && mints == 0 && output == []
    {
      this.credentials, this.gate, calls, mints, output := credentials, gate, [], 0, [];
    }

    // Yielding one attempt's chunks.
    method Relay(attempt: Attempt) returns (emitted: bool)
      modifies this`output
      ensures output == old(output) + attempt.chunks
      ensures emitted == Visible(attempt.chunks)
    {
      emitted := false;
      for i := 0 to |attempt.chunks|
        invariant output == old(output) + attempt.chunks[..i]
        invariant emitted == Visible(attempt.chunks[..i])
      {
        assert attempt.chunks[..i + 1] == attempt.chunks[..i] + [attempt.chunks[i]];
        if attempt.chunks[i] != "" {
          assert attempt.chunks[..i + 1][i] != "";
        } else if emitted {
          var k :| 0 <= k < i && attempt.chunks[..i][k] != "";
          assert attempt.chunks[..i + 1][k] != "";
        }
        emitted := emitted || attempt.chunks[i] != "";
        output := output + [attempt.chunks[i]];
      }
      assert attempt.chunks[..|attempt.chunks|] == attempt.chunks;
    }

    // `run` is what the backend does with each attempt.
    method ChatStream(conversation: string, run: (nat, Call) -> Attempt) returns (ending: Ending)
      requires calls == [] && mints == 0 && output == []
      modifies this
      ensures var first := run(0, Call(old(credentials), conversation));
        if !Remints(first, gate) then
          && calls == [Call(old(credentials), conversation)] && mints == 0 && credentials == old(credentials)
          && output == first.chunks && ending == EndingOf(first.end)
        else if !gate.value.Snapshot? then
          && calls == [Call(old(credentials), conversation)] && mints == 1 && credentials == old(credentials)
          && output == first.chunks && ending == if gate.value.GateRaises? then RaisedByGate else RaisedNoSnapshot
        else
          && credentials == Merged(old(credentials), gate.value) && mints == 1
          && calls == [Call(old(credentials), conversation), Call(credentials, "")]
          && output == first.chunks + run(1, calls[1]).chunks && ending == EndingOf(run(1, calls[1]).end)
      ensures calls != [] && Concat(output) == Concat(run(|calls| - 1, calls[|calls| - 1]).chunks)
    {
      var emitted, retried, id := false, false, conversation;
      ghost var first := run(0, Call(credentials, conversation));
      while true
        invariant if retried then
                    && Remints(first, gate) && gate.value.Snapshot? && mints == 1 && id == "" && !emitted
                    && credentials == Merged(old(credentials), gate.value)
                    && calls == [Call(old(credentials), conversation)] && output == first.chunks
                  else !emitted && id == conversation && calls == [] && output == [] && mints == 0 && credentials == old(credentials)
        decreases !retried
      {
        var call := Call(credentials, id);
        var attempt := run(|calls|, call);
        calls := calls + [call];
        var shown := Relay(attempt);
        emitted := emitted || shown;
        if retried {
          SilentFirst(first, attempt);
        }
        if attempt.end == Complete { return Returned; }
        if attempt.end == Failed { return RaisedError; }
        if emitted || retried || gate.None? { return RaisedClearance; }
        mints := mints + 1;
        if gate.value.GateRaises? { return RaisedByGate; }
        if gate.value.NotASnapshot? { return RaisedNoSnapshot; }
        credentials := Merged(credentials, gate.value);
        id := "";
        retried := true;
      }
    }
  }

  lemma {:induction false} NothingVisible(chunks: seq<string>)
    ensures Visible(chunks) <==> Concat(chunks) != ""
  {
    if chunks != [] {
      NothingVisible(chunks[1..]);
      if chunks[0] != "" {
        assert Visible(chunks);
      } else if Visible(chunks) {
        var k :| 0 <= k < |chunks| && chunks[k] != "";
        assert chunks[1..][k - 1] != "";
      }
    }
  }

  // What a refused first attempt yields leaves no trace in the text.
  lemma SilentFirst(first: Attempt, second: Attempt)
    requires !Visible(first.chunks)
    ensures Concat(first.chunks + second.chunks) == Concat(second.chunks)
  {
    NothingVisible(first.chunks);
    ConcatAppend(first.chunks, second.chunks);
  }

  // A field the gate returns replaces its own, and one it leaves out is kept:
  // each of the three by itself.
  lemma MintedFieldsReplaceTheirOwn(c: Credentials, cookies: map<string, string>, token: string, identityType: string)
    ensures Merged(c, Snapshot(None, None, None)) == c
    ensures Merged(c, Snapshot(Some(cookies), None, None)) == c.(cookies := cookies)
    ensures Merged(c, Snapshot(None, Some(token), None)) == c.(token := token)
    ensures Merged(c, Snapshot(None, None, Some(identityType))) == c.(identityType := identityType)
    ensures Merged(c, Snapshot(Some(cookies), Some(token), Some(identityType))) == Credentials(cookies, token, identityType)
  {
  }

  // Nothing is retried once something was shown, nor without a gate, nor after
  // any other failure.
  lemma NoSecondTry(first: Attempt, gate: Option<GateReply>, k: nat)
    requires gate.None? || first.end != Clearance || (k < |first.chunks| && first.chunks[k] != "")
    ensures !Remints(first, gate)
  {
  }

  // A silent refusal with a gate at hand is.
  lemma SecondTry(first: Attempt, gate: GateReply)
    requires first.end == Clearance && Concat(first.chunks) == ""
    ensures Remints(first, Some(gate))
  {
    NothingVisible(first.chunks);
  }
}

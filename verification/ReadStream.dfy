// One chat turn over an open socket (consumer_client.py): frames in, text and
// images out, answers to the backend on the way.
module ReadStream {
  import opened Prelude

  // What solving a challenge comes to.
  datatype Verdict = Solved(token: string) | Unsafe | Unanswerable

  // One parsed message, or the socket's end: a close frame, an error, silence.
  datatype Event =
    | Connected
    | AppendText(text: string)
    | GeneratingImage(prompt: string)
    | PartialImage(content: string)
    | ImageGenerated(url: string)
    | Challenge(id: string, verdict: Verdict)
    | Done
    | MessageError(throttled: bool)
    | ErrorEvent(regional: bool)
    | Unknown
    | Death

  type Message = e: Event | e != Death witness Done

  // What one `recv` yields.
  datatype Received = Frames(messages: seq<Message>) | Ended

  datatype Chunk = Text(text: string) | UrlImage(alt: string, url: string) | DataImage(alt: string, base64: string)

  datatype Sent = SetOptions | Consents | Send | ChallengeResponse(id: string, token: string)

  datatype Error = ClearanceRequired | TurnRefused | Throttled | Refused | RegionBlocked | SocketDied | SendFailed

  datatype Ending = Finished | Raised(error: Error)

  const BURST := [SetOptions, Consents, Send]

  function Answer(e: Event): seq<Sent>
    requires e.Challenge? && e.verdict.Solved?
  {
    [ChallengeResponse(e.id, e.verdict.token), Send]
  }

  // ------------------------------------------------------------ what it means

  predicate Solvable(e: Event) {
    e.Challenge? && e.verdict.Solved?
  }

  function Front(events: seq<Event>): seq<Event>
    requires events != []
  {
    events[..|events| - 1]
  }

  function Final(events: seq<Event>): Event
    requires events != []
  {
    events[|events| - 1]
  }

  predicate AnySolvable(events: seq<Event>) {
    exists i :: 0 <= i < |events| && Solvable(events[i])
  }

  // The frames called for: a burst at the first `connected`, an answer at the
  // first challenge that has one.
  function Sends(events: seq<Event>): seq<Sent> {
    if events == [] then []
    else
      var before, e := Front(events), Final(events);
      if e == Connected && Connected !in before then Sends(before) + BURST
      else if Solvable(e) && !AnySolvable(before) then Sends(before) + Answer(e)
      else Sends(before)
  }

  // The latest caption, preview and url.
  function Prompt(events: seq<Event>): string {
    if events == [] then ""
    else if Final(events).GeneratingImage? then Final(events).prompt
    else Prompt(Front(events))
  }

  predicate IsUrl(e: Event) {
    e.ImageGenerated? && e.url != ""
  }

  predicate Delivered(events: seq<Event>) {
    exists i :: 0 <= i < |events| && IsUrl(events[i])
  }

  // The last preview since the last url.
  function Preview(events: seq<Event>): string {
    if events == [] || IsUrl(Final(events)) then ""
    else if Final(events).PartialImage? then Final(events).content
    else Preview(Front(events))
  }

  // Text and url images, each when it arrives.
  function Streamed(events: seq<Event>): seq<Chunk> {
    if events == [] then []
    else
      var before, e := Front(events), Final(events);
      if e.AppendText? then Streamed(before) + [Text(e.text)]
      else if IsUrl(e) then Streamed(before) + [UrlImage(Prompt(before), e.url)]
      else Streamed(before)
  }

  predicate Terminal(e: Event) {
    e.Done? || e.Death? || e.MessageError? || e.ErrorEvent? || (e.Challenge? && !e.verdict.Solved?)
  }

  // More frames are called for than the socket takes.
  predicate Blocked(events: seq<Event>, capacity: Option<nat>) {
    capacity.Some? && |Sends(events)| > capacity.value
  }

  predicate Over(events: seq<Event>, capacity: Option<nat>) {
    events != [] && (Terminal(Final(events)) || Blocked(events, capacity))
  }

  // The events of one turn: up to the first that ends it.
  function TurnFrom(done: seq<Event>, rest: seq<Event>, capacity: Option<nat>): seq<Event>
    decreases |rest|
  {
    if rest == [] || Over(done, capacity) then done else TurnFrom(done + [rest[0]], rest[1..], capacity)
  }

  function Flatten(received: seq<Received>): seq<Event> {
    if received == [] then [Death]
    else if received[0].Ended? then [Death]
    else received[0].messages + Flatten(received[1..])
  }

  function Turn(received: seq<Received>, capacity: Option<nat>): seq<Event> {
    TurnFrom([], Flatten(received), capacity)
  }

  function Flush(events: seq<Event>): seq<Chunk> {
    if Preview(events) != "" then [DataImage(Prompt(events), Preview(events))] else []
  }

  // What a whole turn outputs, and how it ends.
  function OutputOf(turn: seq<Event>, capacity: Option<nat>): seq<Chunk> {
    if turn == [] then []
    else
      var body := Front(turn);
      if Blocked(turn, capacity) then Streamed(turn)
      else if Final(turn).Done? || (Final(turn).Death? && !Delivered(body)) then Streamed(body) + Flush(body)
      else Streamed(body)
  }

  function EndingOf(turn: seq<Event>, capacity: Option<nat>): Ending {
    if turn == [] then Finished
    else if Blocked(turn, capacity) then Raised(SendFailed)
    else match Final(turn)
      case Death => if Delivered(turn) || Preview(turn) != "" then Finished else Raised(SocketDied)
      case Challenge(_, Unsafe) => Raised(ClearanceRequired)
      case Challenge(_, _) => Raised(TurnRefused)
      case MessageError(throttled) => Raised(if throttled then Throttled else Refused)
      case ErrorEvent(regional) => Raised(if regional then RegionBlocked else Refused)
      case _ => Finished
  }

  function SentOf(turn: seq<Event>, capacity: Option<nat>): seq<Sent> {
    var sends := Sends(turn);
    if Blocked(turn, capacity) then sends[..capacity.value] else sends
  }

  // ------------------------------------------------------------ the machine

  class Socket {
    var received: seq<Received>     // what is still to come
    var sent: seq<Sent>
    var output: seq<Chunk>          // what the turn has yielded
    const capacity: Option<nat>     // sends that succeed before one fails, if any does

    constructor (received: seq<Received>, capacity: Option<nat>)
      ensures this.received == received && sent == [] && output == [] && this.capacity == capacity
    {
      this.received, this.capacity, sent, output := received, capacity, [], [];
    }

    // The turn goes on after `done`.
    ghost predicate Going(f: Flags, done: seq<Event>)
      reads this
    {
      && Tracks(f, done) && !Over(done, capacity) && !Blocked(done, capacity)
      && sent == Sends(done) && output == Streamed(done)
    }

    // The turn is over, in this way.
    ghost predicate Gone(turn: seq<Event>, ending: Ending)
      reads this
    {
      output == OutputOf(turn, capacity) && ending == EndingOf(turn, capacity) && sent == SentOf(turn, capacity)
    }

    method Recv() returns (r: Received)
      modifies this`received
      ensures r == if old(received) == [] then Ended else old(received)[0]
      ensures received == if old(received) == [] then [] else old(received)[1..]
    {
      if received == [] { return Ended; }
      r := received[0];
      received := received[1..];
    }

    method Emit(frames: seq<Sent>) returns (ok: bool)
      requires capacity.Some? ==> |sent| <= capacity.value
      modifies this`sent
      ensures ok == (capacity.None? || |old(sent)| + |frames| <= capacity.value)
      ensures sent == if ok then old(sent) + frames else (old(sent) + frames)[..capacity.value]
    {
      var i := 0;
      while i < |frames|
        invariant 0 <= i <= |frames| && sent == old(sent) + frames[..i]
        invariant capacity.Some? ==> |sent| <= capacity.value
      {
        if capacity == Some(|sent|) {
          assert (old(sent) + frames)[..capacity.value] == sent;
          return false;
        }
        sent := sent + [frames[i]];
        i := i + 1;
      }
      return true;
    }

    method Yield(chunk: Chunk)
      modifies this`output
      ensures output == old(output) + [chunk]
    {
      output := output + [chunk];
    }
  }

  // The loop's local flags.
  datatype Flags = Flags(isOpen: bool, answered: bool, imagePrompt: string, partialImage: string, imageDelivered: bool)

  // What the flags mean after `done`.
  ghost predicate Tracks(f: Flags, done: seq<Event>) {
    && f.isOpen == (Connected in done) && f.answered == AnySolvable(done)
    && f.imagePrompt == Prompt(done) && f.partialImage == Preview(done) && f.imageDelivered == Delivered(done)
  }

  lemma StepMeaning(done: seq<Event>, e: Event)
    ensures var now := done + [e];
      && Front(now) == done && Final(now) == e
      && (Connected in now <==> Connected in done || e == Connected)
      && (AnySolvable(now) <==> AnySolvable(done) || Solvable(e))
      && (Delivered(now) <==> Delivered(done) || IsUrl(e))
  {
    var now := done + [e];
    assert now[|done|] == e;
    if AnySolvable(done) {
      var i :| 0 <= i < |done| && Solvable(done[i]);
      assert now[i] == done[i];
    }
    if Delivered(done) {
      var i :| 0 <= i < |done| && IsUrl(done[i]);
      assert now[i] == done[i];
    }
  }

  method HandleConnected(ws: Socket, f: Flags, ghost done: seq<Event>) returns (g: Flags, ending: Option<Ending>)
    requires ws.Going(f, done)
    modifies ws`sent
    ensures ending.None? ==> ws.Going(g, done + [Connected])
    ensures ending.Some? ==> Over(done + [Connected], ws.capacity) && ws.Gone(done + [Connected], ending.value)
  {
    StepMeaning(done, Connected);
    if f.isOpen { return f, None; }
    var ok := ws.Emit(BURST);
    return f.(isOpen := true), if ok then None else Some(Raised(SendFailed));
  }

  method HandleChallenge(ws: Socket, f: Flags, e: Message, ghost done: seq<Event>) returns (g: Flags, ending: Option<Ending>)
    requires ws.Going(f, done) && e.Challenge?
    modifies ws`sent
    ensures ending.None? ==> ws.Going(g, done + [e])
    ensures ending.Some? ==> Over(done + [e], ws.capacity) && ws.Gone(done + [e], ending.value)
  {
    StepMeaning(done, e);
    if e.verdict.Unsafe? { return f, Some(Raised(ClearanceRequired)); }
    if e.verdict.Unanswerable? { return f, Some(Raised(TurnRefused)); }
    if f.answered { return f, None; }
    var ok := ws.Emit(Answer(e));
    return f.(answered := true), if ok then None else Some(Raised(SendFailed));
  }

  method HandleImage(ws: Socket, f: Flags, e: Message, ghost done: seq<Event>) returns (g: Flags)
    requires ws.Going(f, done) && (e.ImageGenerated? || e.PartialImage? || e.GeneratingImage?)
    modifies ws`output
    ensures ws.Going(g, done + [e])
  {
    StepMeaning(done, e);
    g := f;
    if e.ImageGenerated? {
      if e.url != "" {
        g := f.(partialImage := "", imageDelivered := true);
        ws.Yield(UrlImage(f.imagePrompt, e.url));
      }
    } else if e.PartialImage? {
      g := f.(partialImage := e.content);
    } else {
      g := f.(imagePrompt := e.prompt);
    }
  }

  // One message of the turn.
  method Handle(ws: Socket, f: Flags, e: Message, ghost done: seq<Event>) returns (g: Flags, ending: Option<Ending>)
    requires ws.Going(f, done)
    modifies ws`sent, ws`output
    ensures ending.None? ==> ws.Going(g, done + [e])
    ensures ending.Some? ==> Over(done + [e], ws.capacity) && ws.Gone(done + [e], ending.value)
  {
    StepMeaning(done, e);
    g, ending := f, None;
    match e {
      case Connected => g, ending := HandleConnected(ws, f, done);
      case AppendText(text) => ws.Yield(Text(text));
      case ImageGenerated(_) => g := HandleImage(ws, f, e, done);
      case PartialImage(_) => g := HandleImage(ws, f, e, done);
      case GeneratingImage(_) => g := HandleImage(ws, f, e, done);
      case Done =>
        if f.partialImage != "" {
          ws.Yield(DataImage(f.imagePrompt, f.partialImage));
        }
        ending := Some(Finished);
      case Challenge(_, _) => g, ending := HandleChallenge(ws, f, e, done);
      case MessageError(throttled) => ending := Some(Raised(if throttled then Throttled else Refused));
      case ErrorEvent(regional) => ending := Some(Raised(if regional then RegionBlocked else Refused));
      case Unknown =>
    }
  }

  // The messages of one frame, as far as the turn goes.
  method Batch(ws: Socket, f0: Flags, messages: seq<Message>, ghost past: seq<Event>, ghost later: seq<Event>)
    returns (f: Flags, ending: Option<Ending>)
    requires ws.Going(f0, past)
    modifies ws`sent, ws`output
    ensures ending.None? ==> ws.Going(f, past + messages)
                             && TurnFrom(past, messages + later, ws.capacity) == TurnFrom(past + messages, later, ws.capacity)
    ensures ending.Some? ==> ws.Gone(TurnFrom(past, messages + later, ws.capacity), ending.value)
  {
    f, ending := f0, None;
    ghost var done := past;
    assert messages[0..] + later == messages + later;
    for i := 0 to |messages|
      invariant done == past + messages[..i] && ending.None? && ws.Going(f, done)
      invariant TurnFrom(past, messages + later, ws.capacity) == TurnFrom(done, messages[i..] + later, ws.capacity)
    {
      TurnStep(done, messages[i], messages[i + 1..] + later, ws.capacity);
      assert messages[i..] + later == [messages[i]] + (messages[i + 1..] + later);
      f, ending := Handle(ws, f, messages[i], done);
      if ending.Some? { return; }
      done := done + [messages[i]];
    }
    assert messages[|messages|..] + later == later;
    assert messages[..|messages|] == messages;
  }

  lemma TurnStep(done: seq<Event>, e: Event, rest: seq<Event>, capacity: Option<nat>)
    requires !Over(done, capacity)
    ensures TurnFrom(done, [e] + rest, capacity) == TurnFrom(done + [e], rest, capacity)
    ensures Over(done + [e], capacity) ==> TurnFrom(done, [e] + rest, capacity) == done + [e]
  {
    assert ([e] + rest)[1..] == rest;
  }

  method Read(ws: Socket) returns (ending: Ending)
    requires ws.sent == [] && ws.output == []
    modifies ws
    ensures ws.Gone(Turn(old(ws.received), ws.capacity), ending)
  {
    var f := Flags(false, false, "", "", false);
    ghost var done: seq<Event> := [];
    while true
      invariant ws.Going(f, done)
      invariant Turn(old(ws.received), ws.capacity) == TurnFrom(done, Flatten(ws.received), ws.capacity)
      decreases |ws.received|
    {
      ghost var rest := ws.received;
      var r := ws.Recv();
      if r.Ended? {
        TurnStep(done, Death, [], ws.capacity);
        StepMeaning(done, Death);
        assert Flatten(rest) == [Death] + [];
        if f.imageDelivered { return Finished; }
        if f.partialImage != "" {
          ws.Yield(DataImage(f.imagePrompt, f.partialImage));
          return Finished;
        }
        return Raised(SocketDied);
      }
      var g, stop := Batch(ws, f, r.messages, done, Flatten(ws.received));
      if stop.Some? { return stop.value; }
      f, done := g, done + r.messages;
    }
  }

  // ------------------------------------------------------------ what is sent

  function BurstOf(events: seq<Event>): seq<Sent> {
    if Connected in events then BURST else []
  }

  // The answer to the first challenge that has one.
  function AnswerOf(events: seq<Event>): seq<Sent> {
    if events == [] then []
    else if AnswerOf(Front(events)) != [] then AnswerOf(Front(events))
    else if Solvable(Final(events)) then Answer(Final(events))
    else []
  }

  lemma {:induction false} AnswerMeaning(events: seq<Event>, i: nat)
    requires i < |events| && Solvable(events[i]) && !AnySolvable(events[..i])
    ensures AnswerOf(events) == [ChallengeResponse(events[i].id, events[i].verdict.token), Send]
  {
    if i == |events| - 1 {
      NoAnswer(Front(events));
    } else {
      assert events[..i] == Front(events)[..i];
      AnswerMeaning(Front(events), i);
    }
  }

  lemma {:induction false} NoAnswer(events: seq<Event>)
    ensures AnySolvable(events) <==> AnswerOf(events) != []
  {
    if events != [] {
      NoAnswer(Front(events));
      assert events == Front(events) + [Final(events)];
      StepMeaning(Front(events), Final(events));
    }
  }

  // On a socket that takes every frame: the burst goes out once if `connected`
  // ever arrives and not at all otherwise, and only the first solvable challenge
  // is answered.
  lemma {:induction false} SendsExactly(events: seq<Event>)
    ensures Sends(events) == BurstOf(events) + AnswerOf(events) || Sends(events) == AnswerOf(events) + BurstOf(events)
    ensures BurstOf(events) == if Connected in events then [SetOptions, Consents, Send] else []
  {
    if events != [] {
      var before, e := Front(events), Final(events);
      SendsExactly(before);
      assert events == before + [e];
      StepMeaning(before, e);
      NoAnswer(before);
      if e == Connected && Connected !in before {
        assert BurstOf(before) == [] && BurstOf(events) == BURST && AnswerOf(events) == AnswerOf(before);
        assert Sends(before) == AnswerOf(before);
      } else if Solvable(e) && !AnySolvable(before) {
        assert AnswerOf(before) == [] && AnswerOf(events) == Answer(e) && BurstOf(events) == BurstOf(before);
        assert Sends(before) == BurstOf(before);
      }
    }
  }

  // So the message itself is sent at most twice.
  lemma MessageSentAtMostTwice(events: seq<Event>)
    ensures multiset(Sends(events))[Send] <= 2
  {
    SendsExactly(events);
    AnswerIsOne(events);
    assert multiset(BURST)[Send] == 1;
  }

  lemma {:induction false} AnswerIsOne(events: seq<Event>)
    ensures multiset(AnswerOf(events))[Send] <= 1
  {
    if events != [] {
      AnswerIsOne(Front(events));
    }
  }

  // A send that fails cuts exactly there: what went out is the start of what
  // was called for, and the turn raises.
  lemma FailedSendCutsThere(turn: seq<Event>, capacity: nat)
    requires |Sends(turn)| > capacity
    ensures IsPrefix(SentOf(turn, Some(capacity)), SentOf(turn, None)) && |SentOf(turn, Some(capacity))| == capacity
    ensures EndingOf(turn, Some(capacity)) == Raised(SendFailed)
  {
    assert turn != [];
  }

  // ------------------------------------------------------------ how it ends

  lemma {:induction false} TurnWithin(done: seq<Event>, rest: seq<Event>, capacity: Option<nat>)
    ensures var turn := TurnFrom(done, rest, capacity); IsPrefix(done, turn) && IsPrefix(turn, done + rest)
    decreases |rest|
  {
    if rest != [] && !Over(done, capacity) {
      var next := done + [rest[0]];
      TurnWithin(next, rest[1..], capacity);
      assert next + rest[1..] == done + rest;
      Shorter(done, next, TurnFrom(next, rest[1..], capacity));
    } else {
      assert (done + rest)[..|done|] == done;
    }
  }

  lemma Shorter(done: seq<Event>, next: seq<Event>, turn: seq<Event>)
    requires IsPrefix(done, next) && IsPrefix(next, turn)
    ensures IsPrefix(done, turn)
  {
    assert turn[..|done|] == turn[..|next|][..|done|];
  }

  // A turn is the shortest part of the events that ends it.
  lemma {:induction false} TurnEnds(done: seq<Event>, rest: seq<Event>, capacity: Option<nat>)
    requires rest != [] && Final(rest) == Death && !Over(done, capacity)
    ensures var turn := TurnFrom(done, rest, capacity);
      Over(turn, capacity) && forall k :: |done| <= k < |turn| ==> !Over(turn[..k], capacity)
    ensures IsPrefix(done, TurnFrom(done, rest, capacity)) && IsPrefix(TurnFrom(done, rest, capacity), done + rest)
    decreases |rest|
  {
    var next, later := done + [rest[0]], rest[1..];
    var turn := TurnFrom(next, later, capacity);
    assert turn == TurnFrom(done, rest, capacity);
    TurnWithin(done, rest, capacity);
    if Over(next, capacity) {
      assert turn == next;
    } else {
      assert later != [] && Final(later) == Death;
      TurnEnds(next, later, capacity);
    }
    forall k | |done| <= k < |turn| ensures !Over(turn[..k], capacity) {
      if k == |done| {
        assert turn[..k] == done;
      }
    }
  }

  lemma {:induction false} FlattenEndsInDeath(received: seq<Received>)
    ensures Flatten(received) != [] && Final(Flatten(received)) == Death
  {
    if received != [] && received[0].Frames? {
      FlattenEndsInDeath(received[1..]);
      var rest := Flatten(received[1..]);
      assert Final(received[0].messages + rest) == Final(rest);
    }
  }

  // Whatever a socket delivers, and wherever a send fails, the turn over it
  // ends, at the first event that ends it.
  lemma EveryTurnEnds(received: seq<Received>, capacity: Option<nat>)
    ensures var turn := Turn(received, capacity);
      && Over(turn, capacity) && IsPrefix(turn, Flatten(received))
      && forall k :: 0 <= k < |turn| ==> !Over(turn[..k], capacity)
  {
    FlattenEndsInDeath(received);
    TurnEnds([], Flatten(received), capacity);
    assert [] + Flatten(received) == Flatten(received);
  }

  // The preview handed over is the last preview frame, with no url after it.
  lemma {:induction false} PreviewMeaning(events: seq<Event>, content: string)
    requires content != ""
    ensures Preview(events) == content <==> exists i :: LastImageFrame(events, i) && events[i] == PartialImage(content)
  {
    if events != [] {
      PreviewMeaning(Front(events), content);
      if IsUrl(Final(events)) || Final(events).PartialImage? {
        assert LastImageFrame(events, |events| - 1);
      } else {
        SameLastImageFrame(events);
      }
    }
  }

  ghost predicate LastImageFrame(events: seq<Event>, i: int) {
    && 0 <= i < |events| && (IsUrl(events[i]) || events[i].PartialImage?)
    && forall j :: i < j < |events| ==> !IsUrl(events[j]) && !events[j].PartialImage?
  }

  // The caption under an image is the last one announced before it.
  lemma {:induction false} PromptMeaning(events: seq<Event>, i: nat)
    requires i < |events| && events[i].GeneratingImage?
    requires forall j :: i < j < |events| ==> !events[j].GeneratingImage?
    ensures Prompt(events) == events[i].prompt
  {
    if i < |events| - 1 {
      PromptMeaning(Front(events), i);
    }
  }

  // A socket that dies ends the turn in an error exactly when there was neither
  // a url nor a preview to hand over; otherwise the picture is handed over once.
  lemma DeadSocket(body: seq<Event>)
    ensures var turn := body + [Death];
      && (EndingOf(turn, None) == Raised(SocketDied) <==> !Delivered(body) && Preview(body) == "")
      && (EndingOf(turn, None) != Raised(SocketDied) ==> EndingOf(turn, None) == Finished)
      && (!Delivered(body) && Preview(body) != "" ==>
            OutputOf(turn, None) == OutputOf(body + [Done], None) && OutputOf(turn, None) != Streamed(body))
      && (Delivered(body) ==> OutputOf(turn, None) == Streamed(body))
  {
    StepMeaning(body, Death);
    StepMeaning(body, Done);
  }

  // Every text frame is output once and in order.
  lemma {:induction false} TextIsConserved(events: seq<Event>)
    ensures TextOf(Streamed(events)) == Appended(events)
  {
    if events != [] {
      TextIsConserved(Front(events));
      var s := Streamed(Front(events));
      if Final(events).AppendText? {
        assert (s + [Text(Final(events).text)])[..|s|] == s;
      } else if IsUrl(Final(events)) {
        assert (s + [UrlImage(Prompt(Front(events)), Final(events).url)])[..|s|] == s;
      }
    }
  }

  function TextOf(output: seq<Chunk>): string {
    if output == [] then ""
    else
      var c := output[|output| - 1];
      TextOf(output[..|output| - 1]) + if c.Text? then c.text else ""
  }

  function Appended(events: seq<Event>): string {
    if events == [] then "" else Appended(Front(events)) + if Final(events).AppendText? then Final(events).text else ""
  }

  // The latest preview with any content since the last url.
  function LatestPreview(events: seq<Event>): string {
    if events == [] || IsUrl(Final(events)) then ""
    else if Final(events).PartialImage? && Final(events).content != "" then Final(events).content
    else LatestPreview(Front(events))
  }

  ghost predicate EndsWithEmptyPreview(events: seq<Event>) {
    exists i :: LastImageFrame(events, i) && events[i] == PartialImage("")
  }

  // An empty preview frame discards a preview already held, and nothing else
  // does: the two notions differ exactly when the last image frame is one.
  lemma {:induction false} PreviewLostExactly(events: seq<Event>)
    ensures Preview(events) != LatestPreview(events) <==> EndsWithEmptyPreview(events) && LatestPreview(events) != ""
  {
    if events != [] {
      var front, e := Front(events), Final(events);
      PreviewLostExactly(front);
      if IsUrl(e) || e.PartialImage? {
        assert LastImageFrame(events, |events| - 1);
        assert EndsWithEmptyPreview(events) <==> e == PartialImage("");
        if e == PartialImage("") {
          assert Preview(events) == "";
        }
      } else {
        SameLastImageFrame(events);
      }
    }
  }

  lemma SameLastImageFrame(events: seq<Event>)
    requires events != [] && !IsUrl(Final(events)) && !Final(events).PartialImage?
    ensures forall i :: LastImageFrame(events, i) ==> LastImageFrame(Front(events), i) && events[i] == Front(events)[i]
    ensures forall i :: LastImageFrame(Front(events), i) ==> LastImageFrame(events, i) && events[i] == Front(events)[i]
  {
    assert forall j :: 0 <= j < |events| - 1 ==> Front(events)[j] == events[j];
  }

  ghost predicate Quiet(events: seq<Event>) {
    forall i :: 0 <= i < |events| ==> !Terminal(events[i]) && !IsUrl(events[i])
  }

  lemma {:induction false} QuietTurn(done: seq<Event>, rest: seq<Event>)
    requires Quiet(done + rest)
    ensures TurnFrom(done, rest + [Death], None) == done + rest + [Death]
    ensures !Delivered(done + rest)
    decreases |rest|
  {
    if rest == [] {
      assert done + rest == done;
      TurnStep(done, Death, [], None);
      assert rest + [Death] == [Death] + [];
    } else {
      assert (done + rest)[|done|] == rest[0];
      assert rest + [Death] == [rest[0]] + (rest[1..] + [Death]);
      assert done != [] ==> Final(done) == (done + rest)[|done| - 1];
      TurnStep(done, rest[0], rest[1..] + [Death], None);
      assert done + [rest[0]] + rest[1..] == done + rest;
      QuietTurn(done + [rest[0]], rest[1..]);
    }
  }

  lemma TurnOfFrame(messages: seq<Message>)
    requires Quiet(messages)
    ensures Turn([Frames(messages)], None) == messages + [Death] && !Delivered(messages)
  {
    var received := [Frames(messages)];
    assert received[1..] == [];
    assert Flatten(received) == messages + [Death];
    assert [] + messages == messages;
    QuietTurn([], messages);
  }

  // So a turn that showed a picture can still end in an error without it.
  lemma EmptyPreviewLosesThePicture(before: seq<Message>, jpeg: string)
    requires Quiet(before)
    ensures var last: Message, empty: Message := PartialImage(jpeg), PartialImage("");
      EndingOf(Turn([Frames(before + [last] + [empty])], None), None) == Raised(SocketDied)
  {
    var last: Message, empty: Message := PartialImage(jpeg), PartialImage("");
    var messages := before + [last] + [empty];
    TurnOfFrame(messages);
    var events: seq<Event> := messages;
    assert Final(events) == PartialImage("") && Preview(events) == "";
    DeadSocket(events);
  }

  // ------------------------------------------------------------ pictures and text

  ghost predicate LastAnnouncement(events: seq<Event>, i: int) {
    0 <= i < |events| && events[i].GeneratingImage? && forall j :: i < j < |events| ==> !events[j].GeneratingImage?
  }

  // The caption in force: that of the last announcement, or none.
  ghost predicate IsCaption(events: seq<Event>, caption: string) {
    if exists i :: LastAnnouncement(events, i) then exists i :: LastAnnouncement(events, i) && events[i].prompt == caption
    else caption == ""
  }

  lemma SameAnnouncement(events: seq<Event>)
    requires events != [] && !Final(events).GeneratingImage?
    ensures forall i :: LastAnnouncement(events, i) <==> LastAnnouncement(Front(events), i)
    ensures forall i :: LastAnnouncement(events, i) ==> events[i] == Front(events)[i]
  {
    assert forall j :: 0 <= j < |events| - 1 ==> Front(events)[j] == events[j];
  }

  lemma {:induction false} PromptIsCaption(events: seq<Event>)
    ensures IsCaption(events, Prompt(events))
  {
    if events != [] {
      PromptIsCaption(Front(events));
      if Final(events).GeneratingImage? {
        assert LastAnnouncement(events, |events| - 1);
      } else {
        SameAnnouncement(events);
      }
    }
  }

  lemma OneCaption(events: seq<Event>, a: string, b: string)
    requires IsCaption(events, a) && IsCaption(events, b)
    ensures a == b
  {
  }

  // The last preview frame, with nothing delivered since, is the picture handed
  // over under the caption in force, whether the turn ends politely or the socket
  // dies with no url out.
  lemma PictureHandedOver(body: seq<Event>, i: nat, content: string, caption: string)
    requires LastImageFrame(body, i) && body[i] == PartialImage(content) && content != "" && IsCaption(body, caption)
    ensures OutputOf(body + [Done], None) == Streamed(body) + [DataImage(caption, content)]
    ensures !Delivered(body) ==> OutputOf(body + [Death], None) == Streamed(body) + [DataImage(caption, content)]
    ensures Delivered(body) ==> OutputOf(body + [Death], None) == Streamed(body)
  {
    PreviewMeaning(body, content);
    PromptIsCaption(body);
    OneCaption(body, caption, Prompt(body));
    StepMeaning(body, Done);
    StepMeaning(body, Death);
  }

  // With no such frame nothing is added.
  lemma NoPictureHandedOver(body: seq<Event>)
    requires forall i :: LastImageFrame(body, i) ==> !body[i].PartialImage? || body[i].content == ""
    ensures OutputOf(body + [Done], None) == Streamed(body) && OutputOf(body + [Death], None) == Streamed(body)
  {
    if Preview(body) != "" {
      PreviewMeaning(body, Preview(body));
    }
    StepMeaning(body, Done);
    StepMeaning(body, Death);
  }

  predicate Visible(e: Event) {
    e.AppendText? || IsUrl(e)
  }

  // The positions of the frames that show something at once.
  function Shown(events: seq<Event>): (at: seq<nat>)
    ensures forall k :: 0 <= k < |at| ==> at[k] < |events| && Visible(events[at[k]])
    ensures forall k :: 0 < k < |at| ==> at[k - 1] < at[k]
    ensures forall i :: 0 <= i < |events| && Visible(events[i]) ==> i in at
  {
    if events == [] then []
    else
      var before := Shown(Front(events));
      if Visible(Final(events)) then before + [|events| - 1] else before
  }

  // Each of them is output once, in order: a text as it is, a url under the
  // caption in force when it came.
  ghost predicate Shows(events: seq<Event>, i: nat, chunk: Chunk)
    requires i < |events|
  {
    match events[i]
    case AppendText(text) => chunk == Text(text)
    case ImageGenerated(url) => chunk.UrlImage? && chunk.url == url && IsCaption(events[..i], chunk.alt)
    case _ => false
  }

  lemma {:induction false} StreamedShowsExactly(events: seq<Event>)
    ensures |Streamed(events)| == |Shown(events)|
    ensures forall k :: 0 <= k < |Shown(events)| ==> Shows(events, Shown(events)[k], Streamed(events)[k])
  {
    if events != [] {
      var front, e := Front(events), Final(events);
      StreamedShowsExactly(front);
      PromptIsCaption(front);
      forall k | 0 <= k < |Shown(events)| ensures Shows(events, Shown(events)[k], Streamed(events)[k]) {
        if k < |Shown(front)| {
          StillShows(events, Shown(front)[k], Streamed(front)[k]);
        } else {
          assert events[..|events| - 1] == front;
        }
      }
    }
  }

  lemma StillShows(events: seq<Event>, i: nat, chunk: Chunk)
    requires events != [] && i < |events| - 1 && Shows(Front(events), i, chunk)
    ensures Shows(events, i, chunk)
  {
    assert Front(events)[..i] == events[..i];
  }

  // How a turn ends on a socket that takes every frame, event by event.
  lemma EndingExactly(turn: seq<Event>)
    requires turn != [] && Terminal(Final(turn))
    ensures var ending, last := EndingOf(turn, None), Final(turn);
      && (ending == Raised(ClearanceRequired) <==> last.Challenge? && last.verdict == Unsafe)
      && (ending == Raised(TurnRefused) <==> last.Challenge? && last.verdict == Unanswerable)
      && (ending == Raised(Throttled) <==> last == MessageError(true))
      && (ending == Raised(RegionBlocked) <==> last == ErrorEvent(true))
      && (ending == Raised(Refused) <==> last == MessageError(false) || last == ErrorEvent(false))
      && (ending == Finished ==> last == Done || last == Death)
      && (last == Done ==> ending == Finished)
      && ending != Raised(SendFailed)
      && (last != Done && last != Death ==> OutputOf(turn, None) == Streamed(Front(turn)))
  {
  }

  // The messages after which nothing more of a turn is read, and the socket's end.
  predicate LastWord(e: Event) {
    match e
    case Done => true
    case MessageError(_) => true
    case ErrorEvent(_) => true
    case Challenge(_, verdict) => verdict == Unsafe || verdict == Unanswerable
    case Death => true
    case _ => false
  }

  // While the socket takes every frame, a turn is what is received up to the first
  // of these, and no further.
  lemma TurnEndsAtTheFirst(received: seq<Received>)
    ensures var turn := Turn(received, None);
      && turn != [] && IsPrefix(turn, Flatten(received)) && LastWord(Final(turn))
      && forall k :: 0 <= k < |turn| - 1 ==> !LastWord(turn[k])
  {
    var turn := Turn(received, None);
    EveryTurnEnds(received, None);
    forall k | 0 <= k < |turn| - 1 ensures !LastWord(turn[k]) {
      assert !Over(turn[..k + 1], None) && Final(turn[..k + 1]) == turn[k];
    }
  }
}

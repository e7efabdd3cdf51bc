/**
 Command session events: the bounded log (core/packages/core/src/commandSessions.ts), its printing and
 replay (core/packages/core/src/adminController.ts) and the client that reads the stream in chunks
 (core/packages/cli/src/controller-session.ts).
 */
module SessionStream {
  import opened Wrappers
  import opened Texts

  // ---- events and their text ----

  datatype Kind = Command | Progress | Stdout | Stderr | ResultEvent | Exit | ErrorEvent

  function KindText(k: Kind): (s: string)
    ensures Unbroken(s)
  {
    match k
    case Command => "command"
    case Progress => "progress"
    case Stdout => "stdout"
    case Stderr => "stderr"
    case ResultEvent => "result"
    case Exit => "exit"
    case ErrorEvent => "error"
  }

  /** `fields` is the JSON text of an event's own members; JSON text has no line breaks. */
  type OneLine = s: string | Unbroken(s)

  predicate Unbroken(s: string) { forall i :: 0 <= i < |s| ==> s[i] != '\n' }

  datatype Body = Body(kind: Kind, fields: OneLine)

  datatype Event = Event(sequence: nat, body: Body)

  predicate Ends(e: Event) { e.body.kind == ResultEvent || e.body.kind == ErrorEvent }

  function Json(e: Event): (s: string)
    ensures Unbroken(s) && s != ""
  {
    "{" + e.body.fields + ",\"sequence\":" + Decimal(e.sequence) + "}"
  }

  function Print(e: Event): string {
    ("id: " + Decimal(e.sequence)) + "\n" + (("event: " + KindText(e.body.kind)) + "\n" + (("data: " + Json(e)) + "\n\n"))
  }

  function PrintAll(es: seq<Event>): string {
    if es == [] then "" else Print(es[0]) + PrintAll(es[1..])
  }

  // ---- the client ----

  /** Where the first blank line starts; the length when there is none. */
  function Boundary(s: string): (n: nat)
    ensures n <= |s| && (n < |s| ==> n + 2 <= |s| && s[n] == '\n' && s[n + 1] == '\n')
    ensures forall i :: 0 <= i < n && i + 1 < |s| ==> !(s[i] == '\n' && s[i + 1] == '\n')
  {
    if |s| < 2 then |s| else if s[0] == '\n' && s[1] == '\n' then 0 else Boundary(s[1..]) + 1
  }

  /** What follows "data: " on the first line that starts so. */
  function DataLine(lines: seq<string>): Option<string> {
    if lines == [] then None
    else if "data: " <= lines[0] then Some(lines[0][6..])
    else DataLine(lines[1..])
  }

  /** The payload of a block; an empty one counts as none. */
  function Payload(block: string): Option<string> {
    var data := DataLine(Split(block, '\n'));
    if data == Some("") then None else data
  }

  /** How the client takes a payload: it goes on, settles the session, or throws and drops the connection. */
  datatype Effect = Goes | Settles | Throws

  /** What the client has seen; `settled` is the payload that decided the session. */
  datatype Client = Client(pending: string, seen: seq<string>, settled: Option<string>, closed: bool)

  const FRESH := Client("", [], None, false)

  function Deliver(effect: string -> Effect, c: Client, payload: string): Client {
    c.(seen := c.seen + [payload],
       settled := if c.settled.None? && effect(payload) != Goes then Some(payload) else c.settled,
       closed := effect(payload) == Throws)
  }

  function TakeBlock(effect: string -> Effect, c: Client, block: string): Client {
    var data := Payload(block);
    if data.None? then c else Deliver(effect, c, data.value)
  }

  /** The while loop over complete blocks. */
  function Drain(effect: string -> Effect, c: Client): Client
    decreases |c.pending|
  {
    var n := Boundary(c.pending);
    if c.closed || n == |c.pending| then c
    else Drain(effect, TakeBlock(effect, c, c.pending[..n]).(pending := c.pending[n + 2..]))
  }

  /** A destroyed response delivers no more chunks. */
  function Feed(effect: string -> Effect, c: Client, chunk: string): Client {
    if c.closed then c else Drain(effect, c.(pending := c.pending + chunk))
  }

  function FeedAll(effect: string -> Effect, c: Client, chunks: seq<string>): Client
    decreases |chunks|
  {
    if chunks == [] then c else FeedAll(effect, Feed(effect, c, chunks[0]), chunks[1..])
  }

  class SessionReader {
    const effect: string -> Effect
    var client: Client

    constructor (effect: string -> Effect)
      ensures this.effect == effect && client == FRESH
    {
      this.effect := effect;
      client := FRESH;
    }

    method OnData(chunk: string)
      modifies this
      ensures client == Feed(effect, old(client), chunk)
    {
      if client.closed { return; }
      client := client.(pending := client.pending + chunk);
      ghost var whole := client;
      while !client.closed && Boundary(client.pending) < |client.pending|
        invariant Drain(effect, client) == Drain(effect, whole)
        decreases |client.pending|
      {
        hide Payload;
        var boundary := Boundary(client.pending);
        var block := client.pending[..boundary];
        client := client.(pending := client.pending[boundary + 2..]);
        var data := Payload(block);
        if data.None? { continue; }
        client := Deliver(effect, client, data.value);
      }
    }
  }

  // ---- any chunking is as good as any other ----

  lemma BoundaryIs(s: string, n: nat)
    requires n + 2 <= |s| && s[n] == '\n' && s[n + 1] == '\n'
    requires forall i :: 0 <= i < n ==> !(s[i] == '\n' && s[i + 1] == '\n')
    ensures Boundary(s) == n
  {
  }

  lemma BoundaryAppend(a: string, b: string)
    requires Boundary(a) < |a|
    ensures Boundary(a + b) == Boundary(a)
  {
    var n := Boundary(a);
    forall i | 0 <= i < n ensures !((a + b)[i] == '\n' && (a + b)[i + 1] == '\n') {
      assert (a + b)[i] == a[i] && (a + b)[i + 1] == a[i + 1]; }
    BoundaryIs(a + b, n);
  }

  /** What matters of a client: a closed one no longer looks at its pending text. */
  predicate Same(a: Client, b: Client) {
    a.seen == b.seen && a.settled == b.settled && a.closed == b.closed && (!a.closed ==> a.pending == b.pending)
  }

  /** One turn of the loop. */
  lemma DrainStep(effect: string -> Effect, c: Client, block: string, rest: string)
    requires !c.closed && c.pending == block + "\n\n" + rest && Boundary(c.pending) == |block|
    ensures Drain(effect, c) == Drain(effect, TakeBlock(effect, c, block).(pending := rest))
  {
    hide Boundary, TakeBlock;
    assert c.pending[..|block|] == block && c.pending[|block| + 2..] == rest;
  }

  lemma DrainStops(effect: string -> Effect, c: Client)
    requires c.closed || Boundary(c.pending) == |c.pending|
    ensures Drain(effect, c) == c
  {
  }

  lemma {:induction false} DrainAppend(effect: string -> Effect, c: Client, more: string)
    requires !c.closed
    ensures Same(Feed(effect, Drain(effect, c), more), Drain(effect, c.(pending := c.pending + more)))
    decreases |c.pending|
  {
    hide Boundary, Payload, Drain;
    var n := Boundary(c.pending);
    if n < |c.pending| {
      var block, rest := c.pending[..n], c.pending[n + 2..];
      assert c.pending == block + "\n\n" + rest;
      BoundaryAppend(c.pending, more);
      assert c.pending + more == block + "\n\n" + (rest + more);
      DrainStep(effect, c, block, rest);
      DrainStep(effect, c.(pending := c.pending + more), block, rest + more);
      var next := TakeBlock(effect, c, block).(pending := rest);
      var later := TakeBlock(effect, c.(pending := c.pending + more), block).(pending := rest + more);
      assert later == next.(pending := rest + more);
      if next.closed {
        DrainStops(effect, next);
        DrainStops(effect, later);
      } else {
        DrainAppend(effect, next, more);
      }
    } else {
      DrainStops(effect, c);
    }
  }

  lemma FeedSame(effect: string -> Effect, a: Client, b: Client, chunk: string)
    requires Same(a, b)
    ensures Same(Feed(effect, a, chunk), Feed(effect, b, chunk))
  {
    hide Drain;
    if !a.closed { assert a == b; }
  }

  lemma {:induction false} FeedAllSame(effect: string -> Effect, a: Client, b: Client, chunks: seq<string>)
    requires Same(a, b)
    ensures Same(FeedAll(effect, a, chunks), FeedAll(effect, b, chunks))
    decreases |chunks|
  {
    hide Feed, Same;
    if chunks != [] {
      FeedSame(effect, a, b, chunks[0]);
      FeedAllSame(effect, Feed(effect, a, chunks[0]), Feed(effect, b, chunks[0]), chunks[1..]);
    }
  }

  lemma FeedTwice(effect: string -> Effect, c: Client, a: string, b: string)
    ensures Same(Feed(effect, Feed(effect, c, a), b), Feed(effect, c, a + b))
  {
    hide Drain;
    if !c.closed {
      DrainAppend(effect, c.(pending := c.pending + a), b);
      assert c.pending + a + b == c.pending + (a + b);
    }
  }

  function Concat(chunks: seq<string>): string { if chunks == [] then "" else chunks[0] + Concat(chunks[1..]) }

  lemma SameTrans(a: Client, b: Client, c: Client)
    requires Same(a, b) && Same(b, c)
    ensures Same(a, c)
  {
  }

  /** Feeding a text in any chunks is feeding it whole. */
  lemma {:induction false} ChunkingDoesNotMatter(effect: string -> Effect, c: Client, chunks: seq<string>)
    requires chunks != []
    ensures Same(FeedAll(effect, c, chunks), Feed(effect, c, Concat(chunks)))
    decreases |chunks|
  {
    hide Feed, Same;
    var first, rest := chunks[0], chunks[1..];
    if rest == [] {
      assert first + "" == first;
      SameItself(Feed(effect, c, first));
    } else {
      ChunkingDoesNotMatter(effect, Feed(effect, c, first), rest);
      FeedTwice(effect, c, first, Concat(rest));
      SameTrans(FeedAll(effect, c, chunks), Feed(effect, Feed(effect, c, first), Concat(rest)),
        Feed(effect, c, Concat(chunks)));
    }
  }

  lemma SameItself(a: Client)
    ensures Same(a, a)
  {
  }

  // ---- printed events are read back ----

  /** The block of an event: its text without the blank line. */
  function Block(e: Event): string {
    ("id: " + Decimal(e.sequence)) + "\n" + (("event: " + KindText(e.body.kind)) + "\n" + ("data: " + Json(e)))
  }

  lemma PayloadOfBlock(e: Event)
    ensures Payload(Block(e)) == Some(Json(e))
  {
    hide Split, Json, Decimal, KindText;
    var id, event, data := "id: " + Decimal(e.sequence), "event: " + KindText(e.body.kind), "data: " + Json(e);
    SplitFirst(id, event + "\n" + data, '\n');
    SplitFirst(event, data, '\n');
    SplitNone(data, '\n');
    assert Split(Block(e), '\n') == [id] + ([event] + [data]) == [id, event, data];
    assert id[0] == 'i' && event[0] == 'e' && data[..6] == "data: " && data[6..] == Json(e);
    assert [id, event, data][1..] == [event, data] && [event, data][1..] == [data];
    DataLineThird(id, event, data);
  }

  lemma DataLineThird(id: string, event: string, data: string)
    requires !("data: " <= id) && !("data: " <= event) && "data: " <= data
    ensures DataLine([id, event, data]) == Some(data[6..])
  {
    assert [id, event, data][1..] == [event, data] && [event, data][1..] == [data];
    assert DataLine([data]) == Some(data[6..]);
    assert DataLine([event, data]) == Some(data[6..]);
  }

  /** No blank line inside a block: none of its three lines is empty. */
  lemma BoundaryOfPrint(e: Event, rest: string)
    ensures Print(e) + rest == Block(e) + "\n\n" + rest
    ensures Boundary(Block(e) + "\n\n" + rest) == |Block(e)|
  {
    hide Json, Decimal, KindText;
    var id, event, data := "id: " + Decimal(e.sequence), "event: " + KindText(e.body.kind), "data: " + Json(e);
    assert Print(e) + rest == Block(e) + "\n\n" + rest;
    ThreeLines(id, event, data, rest);
    BoundaryIs(Block(e) + "\n\n" + rest, |Block(e)|);
  }

  lemma ThreeLines(a: string, b: string, c: string, rest: string)
    requires a != "" && b != "" && c != "" && Unbroken(a) && Unbroken(b) && Unbroken(c)
    ensures var block := a + "\n" + (b + "\n" + c); var s := block + "\n\n" + rest;
      && s[|block|] == '\n' && s[|block| + 1] == '\n'
      && forall i :: 0 <= i < |block| ==> !(s[i] == '\n' && s[i + 1] == '\n')
  {
    var block := a + "\n" + (b + "\n" + c);
    var s := block + "\n\n" + rest;
    assert s[|a|] == '\n' && s[|a| + 1 + |b|] == '\n';
    assert forall i | 0 <= i < |a| :: s[i] == a[i];
    assert forall i | 0 <= i < |b| :: s[|a| + 1 + i] == b[i];
    assert forall i | 0 <= i < |c| :: s[|a| + |b| + 2 + i] == c[i];
    forall i | 0 <= i < |block| ensures !(s[i] == '\n' && s[i + 1] == '\n') {
      if i < |a| { assert s[i] == a[i]; }
      else if i == |a| { assert s[i + 1] == b[0]; }
      else if i < |a| + 1 + |b| { assert s[i] == b[i - |a| - 1]; }
      else if i == |a| + 1 + |b| { assert s[i + 1] == c[0]; }
      else { assert s[i] == c[i - |a| - |b| - 2]; }
    }
  }

  function Jsons(es: seq<Event>): seq<string> { seq(|es|, i requires 0 <= i < |es| => Json(es[i])) }

  /** Delivering payloads one after the other until one throws. */
  function DeliverAll(effect: string -> Effect, c: Client, payloads: seq<string>): Client
    decreases |payloads|
  {
    if payloads == [] || c.closed then c else DeliverAll(effect, Deliver(effect, c, payloads[0]), payloads[1..])
  }

  lemma {:induction false} DrainPrinted(effect: string -> Effect, c: Client, es: seq<Event>)
    requires c.pending == PrintAll(es)
    ensures Same(Drain(effect, c), DeliverAll(effect, c, Jsons(es)).(pending := ""))
    decreases |es|
  {
    hide Json, Boundary, Payload, Drain, Print, DeliverAll;
    if c.closed || es == [] {
      NoBoundary();
      DrainStops(effect, c);
      DeliverNone(effect, c, Jsons(es));
    } else {
      var e, rest := es[0], PrintAll(es[1..]);
      BoundaryOfPrint(e, rest);
      DrainStep(effect, c, Block(e), rest);
      PayloadOfBlock(e);
      var next := Deliver(effect, c, Json(e)).(pending := rest);
      DrainPrinted(effect, next, es[1..]);
      DeliverFirst(effect, c, Json(e), Jsons(es[1..]));
      assert Jsons(es) == [Json(e)] + Jsons(es[1..]);
      PendingIsApart(effect, Deliver(effect, c, Json(e)), rest, Jsons(es[1..]));
    }
  }

  lemma DeliverNone(effect: string -> Effect, c: Client, payloads: seq<string>)
    requires c.closed || payloads == []
    ensures DeliverAll(effect, c, payloads) == c
  {
  }

  lemma DeliverFirst(effect: string -> Effect, c: Client, payload: string, rest: seq<string>)
    requires !c.closed
    ensures DeliverAll(effect, c, [payload] + rest) == DeliverAll(effect, Deliver(effect, c, payload), rest)
  {
    assert ([payload] + rest)[1..] == rest;
  }

  lemma NoBoundary()
    ensures Boundary("") == 0
  {
  }

  lemma {:induction false} PendingIsApart(effect: string -> Effect, c: Client, pending: string, payloads: seq<string>)
    ensures DeliverAll(effect, c.(pending := pending), payloads) == DeliverAll(effect, c, payloads).(pending := pending)
    decreases |payloads|
  {
    if payloads != [] && !c.closed { PendingIsApart(effect, Deliver(effect, c, payloads[0]), pending, payloads[1..]); }
  }

  /** Any events, printed and cut into any chunks, reach the client in order and one by one. */
  lemma StreamRoundTrip(effect: string -> Effect, es: seq<Event>, chunks: seq<string>)
    requires chunks != [] && Concat(chunks) == PrintAll(es)
    ensures Same(FeedAll(effect, FRESH, chunks), DeliverAll(effect, FRESH, Jsons(es)))
  {
    hide Drain, FeedAll, Concat, PrintAll, DeliverAll;
    ChunkingDoesNotMatter(effect, FRESH, chunks);
    var whole := FRESH.(pending := PrintAll(es));
    assert "" + PrintAll(es) == PrintAll(es);
    DrainPrinted(effect, whole, es);
    PendingIsApart(effect, FRESH, PrintAll(es), Jsons(es));
    FreshPending(effect, Jsons(es));
  }

  lemma {:induction false} DeliverKeepsPending(effect: string -> Effect, c: Client, payloads: seq<string>)
    ensures DeliverAll(effect, c, payloads).pending == c.pending
    decreases |payloads|
  {
    if payloads != [] && !c.closed { DeliverKeepsPending(effect, Deliver(effect, c, payloads[0]), payloads[1..]); }
  }

  lemma FreshPending(effect: string -> Effect, payloads: seq<string>)
    ensures DeliverAll(effect, FRESH, payloads).pending == ""
  {
    DeliverKeepsPending(effect, FRESH, payloads);
  }

  /** When no payload throws, the client has seen exactly the printed payloads. */
  lemma {:induction false} AllDelivered(effect: string -> Effect, c: Client, payloads: seq<string>)
    requires !c.closed && forall p :: p in payloads ==> effect(p) != Throws
    ensures DeliverAll(effect, c, payloads).seen == c.seen + payloads && !DeliverAll(effect, c, payloads).closed
    decreases |payloads|
  {
    if payloads != [] {
      AllDelivered(effect, Deliver(effect, c, payloads[0]), payloads[1..]);
      assert c.seen + [payloads[0]] + payloads[1..] == c.seen + payloads;
    } else {
      assert c.seen + [] == c.seen;
    }
  }

  /** The first payload that does not simply go on. */
  ghost predicate FirstToSettle(effect: string -> Effect, payloads: seq<string>, i: nat) {
    i < |payloads| && effect(payloads[i]) != Goes && forall j :: 0 <= j < i ==> effect(payloads[j]) == Goes
  }

  /**
   The client sees the payloads up to and including the first that throws, which closes the connection,
   and the session is settled by the first that does not simply go on.
   */
  lemma {:induction false} DeliveredExact(effect: string -> Effect, c: Client, payloads: seq<string>) returns (n: nat)
    requires !c.closed
    ensures n <= |payloads|
    ensures var r := DeliverAll(effect, c, payloads);
      && r.seen == c.seen + payloads[..n]
      && (forall i :: 0 <= i < n - 1 ==> effect(payloads[i]) != Throws)
      && (r.closed <==> 0 < n && effect(payloads[n - 1]) == Throws) && (n < |payloads| ==> r.closed)
      && (c.settled.Some? ==> r.settled == c.settled)
      && (c.settled.None? ==>
            if r.settled.None? then forall i :: 0 <= i < n ==> effect(payloads[i]) == Goes
            else exists i: nat :: FirstToSettle(effect, payloads, i) && i < n && r.settled == Some(payloads[i]))
    decreases |payloads|
  {
    if payloads == [] {
      n := 0;
    } else {
      var p, rest, next := payloads[0], payloads[1..], Deliver(effect, c, payloads[0]);
      if next.closed {
        n := 1;
        DeliverNone(effect, next, rest);
        assert FirstToSettle(effect, payloads, 0);
      } else {
        var m := DeliveredExact(effect, next, rest);
        n := m + 1;
        assert payloads[..n] == [p] + rest[..m];
        assert forall i :: 1 <= i < |payloads| ==> payloads[i] == rest[i - 1];
        if effect(p) != Goes {
          assert FirstToSettle(effect, payloads, 0);
        } else if i: nat :| FirstToSettle(effect, rest, i) && i < m && DeliverAll(effect, c, payloads).settled == Some(rest[i]) {
          assert FirstToSettle(effect, payloads, i + 1) && payloads[i + 1] == rest[i];
        }
      }
    }
  }
}

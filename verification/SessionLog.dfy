/** The bounded, numbered log of a session and the responses that replay and follow it. */
module SessionLog {
  import opened Wrappers
  import opened SessionStream

  const LIMIT: nat := 4096

  /** A history of emitted bodies with their sequence numbers. */
  function Numbered(history: seq<Body>): (es: seq<Event>)
    ensures |es| == |history|
  {
    seq(|history|, i requires 0 <= i < |history| => Event(i, history[i]))
  }

  function Start(n: nat): (from: nat)
    ensures from <= n
  {
    if n > LIMIT then n - LIMIT else 0
  }

  /** The last events of a history, at most the limit of them. */
  function Retained(history: seq<Body>): seq<Event> { Numbered(history)[Start(|history|)..] }

  /** Up to and including the first event that ends a response. */
  function UpToEnd(es: seq<Event>): (r: seq<Event>)
    ensures r <= es
  {
    if es == [] then [] else if Ends(es[0]) then [es[0]] else [es[0]] + UpToEnd(es[1..])
  }

  predicate HasEnd(es: seq<Event>) { exists i :: 0 <= i < |es| && Ends(es[i]) }

  lemma {:induction false} UpToEndAppend(es: seq<Event>, e: Event)
    ensures UpToEnd(es + [e]) == if HasEnd(es) then UpToEnd(es) else UpToEnd(es) + [e]
    ensures HasEnd(es + [e]) <==> HasEnd(es) || Ends(e)
    decreases |es|
  {
    assert (es + [e])[|es|] == e && forall i | 0 <= i < |es| :: (es + [e])[i] == es[i];
    if es == [] {
      assert es + [e] == [e] && [e][1..] == [];
    } else {
      assert (es + [e])[1..] == es[1..] + [e];
      UpToEndAppend(es[1..], e);
      assert HasEnd(es) <==> Ends(es[0]) || HasEnd(es[1..]) by { HasEndTail(es); }
    }
  }

  lemma HasEndTail(es: seq<Event>)
    requires es != []
    ensures HasEnd(es) <==> Ends(es[0]) || HasEnd(es[1..])
  {
    if HasEnd(es[1..]) {
      var i :| 0 <= i < |es[1..]| && Ends(es[1..][i]);
      assert Ends(es[i + 1]);
    }
    if HasEnd(es) {
      var i :| 0 <= i < |es| && Ends(es[i]);
      if i > 0 { assert Ends(es[1..][i - 1]); }
    }
  }

  lemma {:induction false} PrintAllAppend(es: seq<Event>, e: Event)
    ensures PrintAll(es + [e]) == PrintAll(es) + Print(e)
    decreases |es|
  {
    if es == [] {
      assert es + [e] == [e] && [e][1..] == [];
    } else {
      assert (es + [e])[1..] == es[1..] + [e];
      PrintAllAppend(es[1..], e);
    }
  }

  /** Emitting appends to the log and drops its oldest event past the limit. */
  lemma RetainedAppend(history: seq<Body>, body: Body)
    ensures var pushed := Retained(history) + [Event(|history|, body)];
      Retained(history + [body]) == if |pushed| > LIMIT then pushed[1..] else pushed
  {
    var n := |history|;
    assert Numbered(history + [body]) == Numbered(history) + [Event(n, body)];
    assert Numbered(history + [body])[Start(n)..] == Retained(history) + [Event(n, body)];
  }

  class Response {
    var text: string
    var ended: bool
    /** Something was written after the end, which is an error on the stream. */
    var broken: bool
    ghost var sent: seq<Event>

    constructor ()
      ensures text == "" && !ended && !broken && sent == [] && Valid()
    {
      text, ended, broken, sent := "", false, false, [];
    }

    ghost predicate Valid()
      reads this
    {
      text == PrintAll(sent)
    }

    /** Prints the event; a result or an error ends the response, and writing later sends nothing and breaks it. */
    method Write(event: Event)
      requires Valid()
      modifies this
      ensures Valid()
      ensures if old(ended) then sent == old(sent) && ended else sent == old(sent) + [event] && ended == Ends(event)
      ensures broken == (old(broken) || old(ended))
    {
      if ended {
        broken := true;
        return;
      }
      PrintAllAppend(sent, event);
      text := text + Print(event);
      sent := sent + [event];
      if Ends(event) { ended := true; }
    }
  }

  /** The loop that replays a snapshot. */
  method Replay(response: Response, snapshot: seq<Event>)
    requires response.Valid() && response.sent == [] && !response.ended && !response.broken
    modifies response
    ensures response.Valid() && response.sent == UpToEnd(snapshot) && response.ended == HasEnd(snapshot)
    ensures response.broken == (|response.sent| < |snapshot|)
  {
    hide UpToEnd, HasEnd;
    assert snapshot[..0] == [];
    NothingSent();
    for i := 0 to |snapshot|
      invariant response.Valid() && response.sent == UpToEnd(snapshot[..i]) && response.ended == HasEnd(snapshot[..i])
      invariant response.broken == (|response.sent| < i) && |response.sent| <= i
      invariant (!response.ended ==> |response.sent| == i)
    {
      UpToEndAppend(snapshot[..i], snapshot[i]);
      assert snapshot[..i] + [snapshot[i]] == snapshot[..i + 1];
      response.Write(snapshot[i]);
    }
    assert snapshot[..|snapshot|] == snapshot;
  }

  /**
   What was sent are the events from `from` on, each once and in order, up to the cut or the first that
   ends the response; the stream is in error exactly when there were more.
   */
  ghost predicate Tracks(history: seq<Body>, from: nat, cut: Option<nat>, sent: seq<Event>, ended: bool, broken: bool) {
    var upto := if cut.Some? then cut.value else |history|;
    && from <= upto <= |history|
    && sent == UpToEnd(Numbered(history)[from..upto])
    && (ended <==> cut.Some? || HasEnd(Numbered(history)[from..upto]))
    && (broken <==> |sent| < |history| - from) && (!ended ==> |sent| == |history| - from)
  }

  lemma TracksOn(history: seq<Body>, body: Body, from: nat, cut: Option<nat>, sent: seq<Event>, ended: bool,
      broken: bool)
    requires Tracks(history, from, cut, sent, ended, broken)
    ensures if ended then Tracks(history + [body], from, cut, sent, true, true)
      else Tracks(history + [body], from, cut, sent + [Event(|history|, body)], Ends(Event(|history|, body)), broken)
  {
    hide UpToEnd, HasEnd, Numbered;
    OneMore(history, body, from, if cut.Some? then cut.value else |history|, cut.Some?);
  }

  lemma {:induction false} NoEndSendsAll(es: seq<Event>)
    ensures !HasEnd(es) ==> UpToEnd(es) == es
    decreases |es|
  {
    if es != [] {
      NoEndSendsAll(es[1..]);
      HasEndTail(es);
      assert es == [es[0]] + es[1..];
    }
  }

  lemma TracksReplay(history: seq<Body>, events: seq<Event>)
    requires events == Retained(history)
    ensures var from := Start(|history|); Tracks(history, from, None, UpToEnd(events), HasEnd(events), |UpToEnd(events)| < |events|)
    ensures var from := Start(|history|); !HasEnd(events) ==> Tracks(history, from, Some(|history|), UpToEnd(events), true, false)
    ensures !HasEnd(events) ==> UpToEnd(events) == events
  {
    hide UpToEnd, HasEnd;
    NoEndSendsAll(events);
    assert Numbered(history)[Start(|history|)..|history|] == events;
  }

  class CommandSession {
    var events: seq<Event>
    var nextSequence: nat
    var complete: bool
    var listeners: set<Response>
    /** Every body ever emitted; where each listener joined; where a finished session closed it. */
    ghost var history: seq<Body>
    ghost var joined: map<Response, nat>
    ghost var cut: map<Response, nat>

    constructor ()
      ensures Valid() && history == [] && listeners == {} && !complete
    {
      events, nextSequence, complete, listeners, history, joined, cut := [], 0, false, {}, [], map[], map[];
    }

    ghost predicate LogOk()
      reads this
    {
      nextSequence == |history| && events == Retained(history)
    }

    ghost predicate Follows(l: Response)
      reads this, l
    {
      l.Valid() && l in joined && Tracks(history, joined[l], if l in cut then Some(cut[l]) else None, l.sent, l.ended, l.broken)
    }

    ghost predicate Valid()
      reads this, listeners
    {
      LogOk() && forall l :: l in listeners ==> Follows(l)
    }

    method Emit(body: Body)
      requires Valid()
      modifies this`events, this`nextSequence, this`history, listeners
      ensures Valid() && history == old(history) + [body]
    {
      hide Retained, Tracks, PrintAll, Ends;
      ghost var before := history;
      var sequenced := Event(nextSequence, body);
      RetainedAppend(history, body);
      nextSequence := nextSequence + 1;
      events := events + [sequenced];
      if |events| > LIMIT { events := events[1..]; }
      history := history + [body];
      NotifyAll(before, sequenced);
    }

    /** The loop over the listeners. */
    method NotifyAll(ghost before: seq<Body>, event: Event)
      requires history == before + [event.body] && event.sequence == |before|
      requires forall l :: l in listeners ==>
        l.Valid() && l in joined && Tracks(before, joined[l], if l in cut then Some(cut[l]) else None, l.sent, l.ended, l.broken)
      modifies listeners
      ensures forall l :: l in listeners ==> Follows(l)
    {
      hide Tracks, PrintAll, Ends;
      var todo := listeners;
      while todo != {}
        invariant todo <= listeners
        invariant forall l :: l in todo ==>
          l.Valid() && l in joined && Tracks(before, joined[l], if l in cut then Some(cut[l]) else None, l.sent, l.ended, l.broken)
        invariant forall l :: l in listeners - todo ==> Follows(l)
        decreases |todo|
      {
        var l :| l in todo;
        todo := todo - {l};
        TracksOn(before, event.body, joined[l], if l in cut then Some(cut[l]) else None, l.sent, l.ended, l.broken);
        l.Write(event);
      }
    }

    method Complete()
      requires Valid()
      modifies this`complete
      ensures Valid() && complete
    {
      complete := true;
    }

    method Unsubscribe(response: Response)
      requires Valid()
      modifies this`listeners
      ensures Valid() && listeners == old(listeners) - {response}
    {
      listeners := listeners - {response};
    }

    /** Subscribes, then replays the retained log in the same turn; a finished session ends the response. */
    method SendSessionEvents(response: Response)
      requires Valid() && response !in listeners && response.Valid() && response.sent == [] && !response.ended
      requires !response.broken
      modifies this`listeners, this`joined, this`cut, response
      ensures Valid() && listeners == old(listeners) + {response} && joined[response] == Start(|history|)
      ensures response.sent == UpToEnd(events) && response.broken == (|response.sent| < |events|)
    {
      hide Retained, Tracks, UpToEnd, HasEnd, PrintAll;
      TracksReplay(history, events);
      joined := joined[response := Start(|history|)];
      cut := cut - {response};
      Replay(response, events);
      if complete && !response.ended {
        response.ended := true;
        cut := cut[response := |history|];
      }
      listeners := listeners + {response};
    }
  }

  lemma NothingSent()
    ensures UpToEnd([]) == [] && !HasEnd([])
  {
  }

  /** What one more emitted body adds to the events from `from` on. */
  lemma OneMore(history: seq<Body>, body: Body, from: nat, upto: nat, closed: bool)
    requires from <= upto <= |history| && (closed || upto == |history|)
    ensures var later := Numbered(history + [body]); var e := Event(|history|, body);
      && later[from..upto] == Numbered(history)[from..upto]
      && (!closed ==> later[from..upto + 1] == later[from..upto] + [e])
      && (!closed ==>
            UpToEnd(later[from..upto + 1]) ==
              (if HasEnd(later[from..upto]) then UpToEnd(later[from..upto]) else UpToEnd(later[from..upto]) + [e]))
      && (!closed ==> (HasEnd(later[from..upto + 1]) <==> HasEnd(later[from..upto]) || Ends(e)))
  {
    hide UpToEnd, HasEnd;
    var later := Numbered(history + [body]);
    assert later == Numbered(history) + [Event(|history|, body)];
    assert later[from..upto] == Numbered(history)[from..upto];
    if !closed {
      assert later[from..upto + 1] == later[from..upto] + [Event(|history|, body)];
      UpToEndAppend(later[from..upto], Event(|history|, body));
    }
  }

  /** The retained log is the last min(n, 4096) events, numbered without a gap up to the last. */
  lemma RetainedIsTheTail(history: seq<Body>)
    ensures var es := Retained(history); var n := |history|;
      && |es| == (if n < 4096 then n else 4096)
      && forall i :: 0 <= i < |es| ==> es[i] == Event(n - |es| + i, history[n - |es| + i])
  {
  }

  /** The consecutive events of a history from `from` on, up to the first result or error. */
  ghost predicate Prefix(history: seq<Body>, from: nat, upto: nat, es: seq<Event>)
    requires from <= upto <= |history|
  {
    && |es| <= upto - from
    && (forall i :: 0 <= i < |es| ==> es[i] == Event(from + i, history[from + i]))
    && (forall i :: 0 <= i < |es| - 1 ==> es[i].body.kind != ResultEvent && es[i].body.kind != ErrorEvent)
    && (|es| < upto - from ==> 0 < |es| && (es[|es| - 1].body.kind == ResultEvent || es[|es| - 1].body.kind == ErrorEvent))
  }

  lemma SentIsPrefix(history: seq<Body>, from: nat, upto: nat)
    requires from <= upto <= |history|
    ensures Prefix(history, from, upto, UpToEnd(Numbered(history)[from..upto]))
  {
    var window := Numbered(history)[from..upto];
    UpToEndStops(window);
    assert forall i | 0 <= i < |window| :: window[i] == Event(from + i, history[from + i]);
  }

  /**
   From the log to the client: whatever chunks a response's text arrives in, the client sees the
   payloads of the consecutive events from where the response joined up to the first that ends it.
   */
  lemma EndToEnd(effect: string -> Effect, history: seq<Body>, joinedAt: nat, upto: nat, chunks: seq<string>)
    requires joinedAt <= upto <= |history| && chunks != []
    requires Concat(chunks) == PrintAll(UpToEnd(Numbered(history)[Start(joinedAt)..upto]))
    requires forall p :: p in Jsons(UpToEnd(Numbered(history)[Start(joinedAt)..upto])) ==> effect(p) != Throws
    ensures exists es :: Prefix(history, Start(joinedAt), upto, es) && FeedAll(effect, FRESH, chunks).seen == Jsons(es)
  {
    hide Json, FeedAll, UpToEnd, Prefix, Numbered;
    var sent := UpToEnd(Numbered(history)[Start(joinedAt)..upto]);
    SentIsPrefix(history, Start(joinedAt), upto);
    StreamRoundTrip(effect, sent, chunks);
    AllDelivered(effect, FRESH, Jsons(sent));
    assert [] + Jsons(sent) == Jsons(sent);
  }

  lemma {:induction false} UpToEndStops(es: seq<Event>)
    ensures var r := UpToEnd(es);
      && (forall i :: 0 <= i < |r| - 1 ==> !Ends(es[i]))
      && (|r| < |es| ==> 0 < |r| && Ends(es[|r| - 1]))
    decreases |es|
  {
    if es != [] && !Ends(es[0]) {
      UpToEndStops(es[1..]);
      var r := UpToEnd(es[1..]);
      assert forall i | 0 < i < |r| :: es[i] == es[1..][i - 1];
      if |r| > 0 { assert es[|r|] == es[1..][|r| - 1]; }
    }
  }
}

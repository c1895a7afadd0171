/**
 * The push-style events Foundation's XMLParser delivers to its delegate, in
 * document order, and the `num_results` check every XML decoder applies to
 * the document's `data` element.
 */
module XmlEvents {
  import opened Primitives

  /** One delegate callback, or the parser's own report that the document is not well-formed. */
  datatype Event =
    | Start(name: string, attrs: map<string, string>)   // didStartElement
    | End(name: string)                                  // didEndElement
    | Text(chars: string)                                // foundCharacters
    | Malformed                                          // parseErrorOccurred: parse() returns false

  /**
   * What a delegate does with the text of a leaf element that has just ended:
   * store the converted value in the record, or abort the parse with a message.
   */
  datatype LeafOutcome<T> = Assign(value: T) | Abort(message: string)

  /** What the `num_results` attribute of a `data` element says. */
  datatype ResultCount = Unreadable | NoResults | Count(n: int)

  /**
   * The guard at the head of every `data` start: the attribute must be present
   * and read as an Int; zero results is the service's signal for an unknown station.
   */
  function CheckNumResults(attrs: map<string, string>): (r: ResultCount)
    ensures r.Unreadable? <==> "num_results" !in attrs || ParseInt(attrs["num_results"]).None?
    ensures r.NoResults? <==> "num_results" in attrs && ParseInt(attrs["num_results"]) == Some(0)
    ensures r.Count? ==> r.n != 0 && "num_results" in attrs && ParseInt(attrs["num_results"]) == Some(r.n)
  {
    if "num_results" !in attrs then Unreadable
    else match ParseInt(attrs["num_results"])
      case None => Unreadable
      case Some(n) => if n == 0 then NoResults else Count(n)
  }

  /**
   * What a delegate has become once the parser is done with `events`: its
   * state, and whether the parser stopped at a well-formedness failure.
   */
  datatype Delivery<S> = Delivery(state: S, malformed: bool)

  /**
   * `XMLParser.parse()` driving a delegate: starting from `s0`, each event in
   * document order moves the delegate by `step` (which may read the
   * delegate's fixed configuration `env`), until the delegate is `halted`
   * (it aborted the parse) or the document turns out malformed; nothing
   * after that point is delivered.
   */
  function Deliver<C, S>(env: C, step: (C, S, Event) -> S, halted: S -> bool, s0: S, events: seq<Event>): (r: Delivery<S>)
    ensures r.malformed ==> Malformed in events
    ensures !r.malformed && !halted(r.state) ==> Malformed !in events
    decreases |events|
  {
    if events == [] then Delivery(s0, false)
    else
      var prev := Deliver(env, step, halted, s0, events[..|events| - 1]);
      var e := events[|events| - 1];
      assert events == events[..|events| - 1] + [e];
      if prev.malformed || halted(prev.state) then prev
      else if e.Malformed? then Delivery(prev.state, true)
      else Delivery(step(env, prev.state, e), false)
  }

  /** While the delegate is running, the next event moves it by one step, or marks the document malformed. */
  lemma {:induction false} DeliverNext<C, S>(env: C, step: (C, S, Event) -> S, halted: S -> bool, s0: S, events: seq<Event>, i: nat)
    requires i < |events|
    requires !Deliver(env, step, halted, s0, events[..i]).malformed && !halted(Deliver(env, step, halted, s0, events[..i]).state)
    ensures Deliver(env, step, halted, s0, events[..i + 1]) ==
      if events[i].Malformed? then Delivery(Deliver(env, step, halted, s0, events[..i]).state, true)
      else Delivery(step(env, Deliver(env, step, halted, s0, events[..i]).state, events[i]), false)
  {
    assert events[..i + 1][..i] == events[..i];
  }

  /** Once the delegate is halted or the document malformed, later events change nothing. */
  lemma {:induction false} DeliverHalts<C, S>(env: C, step: (C, S, Event) -> S, halted: S -> bool, s0: S, events: seq<Event>, i: nat)
    requires i <= |events|
    requires Deliver(env, step, halted, s0, events[..i]).malformed || halted(Deliver(env, step, halted, s0, events[..i]).state)
    ensures Deliver(env, step, halted, s0, events) == Deliver(env, step, halted, s0, events[..i])
    decreases |events|
  {
    if i < |events| {
      var front := events[..|events| - 1];
      assert front[..i] == events[..i];
      DeliverHalts(env, step, halted, s0, front, i);
    } else {
      assert events[..i] == events;
    }
  }
}

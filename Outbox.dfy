/**
  The stream bridge the composite service publishes through, as an outbox:
  one queue of messages per binding name, appended to in place. The ghost
  `history` records every send in order across all bindings, so that the
  order of events of one request can be stated even when they go to
  different bindings; `Valid` ties each queue to the history.
 */
module Outbox {
  import opened Api

  /** One send: the binding and the message. */
  datatype Sent = Sent(binding: string, message: Message)

  /** The messages of `history` sent to `binding`, in order. */
  function SentTo(history: seq<Sent>, binding: string): (q: seq<Message>)
    ensures |q| <= |history|
  {
    if history == [] then []
    else
      var last := history[|history| - 1];
      SentTo(history[..|history| - 1], binding) + (if last.binding == binding then [last.message] else [])
  }

  lemma {:induction false} SentToAppend(h1: seq<Sent>, h2: seq<Sent>, binding: string)
    ensures SentTo(h1 + h2, binding) == SentTo(h1, binding) + SentTo(h2, binding)
  {
    if h2 == [] {
      assert h1 + h2 == h1;
    } else {
      var h2' := h2[..|h2| - 1];
      assert (h1 + h2)[..|h1 + h2| - 1] == h1 + h2';
      SentToAppend(h1, h2', binding);
    }
  }

  /** One send appends its message to its own binding's queue and leaves
      every other queue as it was. */
  lemma OneSendTouchesOneQueue(history: seq<Sent>, s: Sent, binding: string)
    ensures SentTo(history + [s], binding) ==
              if binding == s.binding then SentTo(history, binding) + [s.message] else SentTo(history, binding)
  {
    assert (history + [s])[..|history + [s]| - 1] == history;
  }

  /** Every message of a queue was sent by a send recorded in the history. */
  lemma {:induction false} SentToIn(history: seq<Sent>, binding: string, m: Message)
    ensures m in SentTo(history, binding) <==> Sent(binding, m) in history
  {
    if history != [] {
      var init := history[..|history| - 1];
      assert history == init + [history[|history| - 1]];
      SentToIn(init, binding, m);
    }
  }

  class StreamBridge {
    var bindings: map<string, seq<Message>>
    ghost var history: seq<Sent>

    /** The queue of `binding`; a binding nothing was sent to is empty. */
    function Queue(binding: string): seq<Message>
      reads this
    {
      if binding in bindings then bindings[binding] else []
    }

    ghost predicate Valid()
      reads this
    {
      forall b :: Queue(b) == SentTo(history, b)
    }

    constructor ()
      ensures Valid()
      ensures bindings == map[] && history == []
    {
      bindings := map[];
      history := [];
    }

    /** Hands `message` to the transport on `bindingName`; the transport always accepts. */
    method Send(bindingName: string, message: Message)
      requires Valid()
      modifies this
      ensures Valid()
      ensures history == old(history) + [Sent(bindingName, message)]
      ensures bindings == old(bindings)[bindingName := old(Queue(bindingName)) + [message]]
      ensures Queue(bindingName) == old(Queue(bindingName)) + [message]
      ensures forall b :: b != bindingName ==> Queue(b) == old(Queue(b))
    {
      bindings := bindings[bindingName := Queue(bindingName) + [message]];
      history := history + [Sent(bindingName, message)];
      forall b
        ensures Queue(b) == SentTo(history, b)
      {
        assert history[..|history| - 1] == old(history);
      }
    }
  }
}

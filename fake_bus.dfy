/** `FakeMessageBus` of the integrated tests: the same FIFO drain as the real bus, but
    with a hard-wired dispatch that sends one email per `TemplateValueSet` event of the
    `template_module` classes, ignores every other message and never raises. The task dispatcher is reduced to its
    `sent_emails_count`. */
module FakeBus {
  import opened Common
  import opened Messages

  /** The number of emails the fake bus sends for one message. */
  function EmailsFor(m: Item): (n: nat)
    ensures n == 1 <==> m.Ev? && TextualValueSet(m.event)
    ensures n <= 1
  {
    if m.Ev? && TextualValueSet(m.event) then 1 else 0
  }

  /** The number of emails sent for a queue of messages: its `TemplateValueSet` events. */
  function EmailsForAll(q: seq<Item>): (n: nat)
    ensures n <= |q|
    decreases |q|
  {
    if q == [] then 0 else EmailsFor(q[0]) + EmailsForAll(q[1..])
  }

  /** Counting distributes over concatenation, so two `handle` calls in a row send as many
      emails as one call with both batches. */
  lemma {:induction false} EmailsForAllAppend(a: seq<Item>, b: seq<Item>)
    ensures EmailsForAll(a + b) == EmailsForAll(a) + EmailsForAll(b)
    decreases |a|
  {
    if a == [] {
      assert a + b == b;
    } else {
      assert (a + b)[0] == a[0] && (a + b)[1..] == a[1..] + b;
      EmailsForAllAppend(a[1..], b);
    }
  }

  /** A batch in which every message is a `TemplateValueSet` sends one email per message,
      and a batch without one sends none. */
  lemma {:induction false} EmailsForAllBounds(q: seq<Item>)
    ensures (forall i :: 0 <= i < |q| ==> q[i].Ev? && TextualValueSet(q[i].event)) ==> EmailsForAll(q) == |q|
    ensures (forall i :: 0 <= i < |q| ==> !(q[i].Ev? && TextualValueSet(q[i].event))) ==> EmailsForAll(q) == 0
    decreases |q|
  {
    if q != [] {
      EmailsForAllBounds(q[1..]);
      assert forall i :: 0 <= i < |q| - 1 ==> q[1..][i] == q[i + 1];
    }
  }

  class FakeMessageBus {
    /** `self.queue`. */
    var queue: seq<Item>
    /** `fake_task_dispatcher.sent_emails_count`. */
    var sentEmails: nat

    constructor (sentEmails: nat)
      ensures queue == [] && this.sentEmails == sentEmails
    {
      queue := [];
      this.sentEmails := sentEmails;
    }

    /** `handle(messages)`: the queue always ends empty, and one email has been sent for
        each `TemplateValueSet` among what was queued. */
    method Handle(messages: seq<Item>)
      modifies this
      ensures queue == []
      ensures sentEmails == old(sentEmails) + EmailsForAll(old(queue) + messages)
    {
      queue := queue + messages;
      ghost var all := queue;
      while queue != []
        invariant sentEmails + EmailsForAll(queue) == old(sentEmails) + EmailsForAll(all)
        decreases |queue|
      {
        var m := queue[0];
        queue := queue[1..];
        match m
        case Ev(e) => HandleEvent(e);
        case Cmd(_) =>
        case NotAMessage =>
      }
    }

    /** `handle_event`: only the module's `TemplateValueSet` has an effect. */
    method HandleEvent(e: Event)
      modifies this`sentEmails
      ensures sentEmails == old(sentEmails) + EmailsFor(Ev(e))
    {
      if e.TemplateValueSet? && e.value.Textual? {
        sentEmails := sentEmails + 1;
      }
    }
  }
}

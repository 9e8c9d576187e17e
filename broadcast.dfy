/**
 * The `broadcast` command's two-wait flow: collect the message, ask for
 * confirmation, then send it to every broadcast target in list order.
 *
 * Each wait sees one event at a time; a timeout of the current wait is an
 * event of its own. The `Sending` phase runs to completion inside the step
 * that received the confirmation, so between steps the flow is Idle or in
 * one of the two waits. Per-target delivery results are an oracle.
 */
module Broadcast {
  import opened Wrappers

  const CancelKeyword := "取消广播"
  const ConfirmKeyword := "确认广播"

  /** A captured message chain, kept verbatim and re-sent as is. */
  datatype Payload = Payload(segments: seq<string>)

  /** Where the flow stands; the two waits belong to the (group, sender) pair that started it. */
  datatype Flow =
    | Idle
    | AwaitingMessage(group: string, sender: string)
    | AwaitingConfirmation(group: string, sender: string)

  /** What a wait can receive. */
  datatype Event =
    | Message(group: string, sender: string, text: string, payload: Payload)
    | Timeout

  /** What the flow answers in the originating chat. */
  datatype Reply =
    | NoReply                          // the event was not for this flow
    | Prompt                           // "send the message within 30 seconds"
    | Cancelled                        // cancel keyword, or anything but the confirm keyword
    | NothingToBroadcast               // no broadcast targets
    | AskConfirm(targets: nat)         // "about to broadcast to n groups, confirm"
    | Report(success: nat, failure: nat) // the final report; the "broadcasting..." notice sent before the loop is not modelled
    | MessageTimedOut                  // the first wait expired
    | ConfirmTimedOut                  // the second wait expired

  /** One `send_group_msg` call: target group and the message sent. */
  datatype Send = Send(target: string, message: Option<Payload>)

  /** The flow's state, pending message, reply and sends after one event. */
  datatype After = After(flow: Flow, pending: Option<Payload>, reply: Reply, sends: seq<Send>)

  /** The number of successful sends. */
  function CountTrue(s: seq<bool>): (n: nat)
    ensures n <= |s|
  {
    if s == [] then 0 else CountTrue(s[..|s| - 1]) + (if s[|s| - 1] then 1 else 0)
  }

  /** The success count is how often `true` occurs in the outcomes, the failure count how often `false` does. */
  lemma {:induction false} CountTrueOccurrences(s: seq<bool>)
    ensures CountTrue(s) == multiset(s)[true]
    ensures |s| - CountTrue(s) == multiset(s)[false]
  {
    if s != [] {
      CountTrueOccurrences(s[..|s| - 1]);
      assert s == s[..|s| - 1] + [s[|s| - 1]];
    }
  }

  /** The `send_group_msg` calls of the send loop: every target, in order. */
  function SendsTo(targets: seq<string>, message: Option<Payload>): (r: seq<Send>)
    ensures |r| == |targets|
    ensures forall k :: 0 <= k < |targets| ==> r[k] == Send(targets[k], message)
  {
    seq(|targets|, k requires 0 <= k < |targets| => Send(targets[k], message))
  }

  /** The event is a message of the pair that owns the current wait. */
  predicate FromOwner(flow: Flow, ev: Event) {
    !flow.Idle? && ev.Message? && ev.group == flow.group && ev.sender == flow.sender
  }

  /** The event confirms the broadcast. */
  predicate Confirms(flow: Flow, ev: Event) {
    flow.AwaitingConfirmation? && FromOwner(flow, ev) && ev.text == ConfirmKeyword
  }

  /**
   * One event delivered to the flow, where `targets` is the broadcast
   * target list at that moment and `delivery[k]` says whether sending to
   * `targets[k]` succeeds.
   */
  function Next(flow: Flow, pending: Option<Payload>, targets: seq<string>, ev: Event, delivery: seq<bool>): (a: After)
    requires Confirms(flow, ev) ==> |delivery| == |targets|
    // Events of other pairs, and anything while Idle, change nothing.
    ensures !FromOwner(flow, ev) && !ev.Timeout? ==> a == After(flow, pending, NoReply, [])
    ensures flow.Idle? ==> a == After(Idle, pending, NoReply, [])
    // A wait that times out ends the flow, leaving the pending message as it was.
    ensures !flow.Idle? && ev.Timeout? ==> a.flow == Idle && a.pending == pending && a.sends == []
    ensures flow.AwaitingMessage? && ev.Timeout? ==> a.reply == MessageTimedOut
    ensures flow.AwaitingConfirmation? && ev.Timeout? ==> a.reply == ConfirmTimedOut
    // Collecting: cancel, nothing to send, or move on to the confirmation wait.
    ensures flow.AwaitingMessage? && FromOwner(flow, ev) && ev.text == CancelKeyword ==>
              a == After(Idle, pending, Cancelled, [])
    ensures flow.AwaitingMessage? && FromOwner(flow, ev) && ev.text != CancelKeyword ==>
              a.pending == Some(ev.payload) && a.sends == [] &&
              (if targets == [] then a.flow == Idle && a.reply == NothingToBroadcast
               else a.flow == AwaitingConfirmation(flow.group, flow.sender) && a.reply == AskConfirm(|targets|))
    // Confirming: every target attempted once, in order; counts add up; the message is dropped.
    ensures Confirms(flow, ev) ==>
              && a.flow == Idle && a.pending == None
              && a.sends == SendsTo(targets, pending)
              && a.reply == Report(CountTrue(delivery), |targets| - CountTrue(delivery))
              && a.reply.success + a.reply.failure == |targets|
    ensures flow.AwaitingConfirmation? && FromOwner(flow, ev) && !Confirms(flow, ev) ==>
              a == After(Idle, pending, Cancelled, [])
    // Nothing is sent, and the pending message is not cleared, except on confirmation.
    ensures a.sends != [] ==> Confirms(flow, ev)
    ensures pending.Some? && a.pending.None? ==> Confirms(flow, ev)
  {
    match flow
    case Idle => After(Idle, pending, NoReply, [])
    case AwaitingMessage(g, s) =>
      (match ev
       case Timeout => After(Idle, pending, MessageTimedOut, [])
       case Message(eg, es, text, p) =>
         if eg != g || es != s then After(flow, pending, NoReply, [])
         else if text == CancelKeyword then After(Idle, pending, Cancelled, [])
         else if |targets| == 0 then After(Idle, Some(p), NothingToBroadcast, [])
         else After(AwaitingConfirmation(g, s), Some(p), AskConfirm(|targets|), []))
    case AwaitingConfirmation(g, s) =>
      (match ev
       case Timeout => After(Idle, pending, ConfirmTimedOut, [])
       case Message(eg, es, text, _) =>
         if eg != g || es != s then After(flow, pending, NoReply, [])
         else if text == ConfirmKeyword then
           var ok := CountTrue(delivery);
           After(Idle, None, Report(ok, |targets| - ok), SendsTo(targets, pending))
         else After(Idle, pending, Cancelled, []))
  }

  /** While waiting for confirmation, a message is held. */
  ghost predicate Holds(flow: Flow, pending: Option<Payload>) {
    flow.AwaitingConfirmation? ==> pending.Some?
  }

  lemma NextHolds(flow: Flow, pending: Option<Payload>, targets: seq<string>, ev: Event, delivery: seq<bool>)
    requires Confirms(flow, ev) ==> |delivery| == |targets|
    requires Holds(flow, pending)
    ensures Holds(Next(flow, pending, targets, ev, delivery).flow, Next(flow, pending, targets, ev, delivery).pending)
    ensures Confirms(flow, ev) ==> forall s :: s in Next(flow, pending, targets, ev, delivery).sends ==> s.message.Some?
  {
  }

  /**
   * A whole session: the owner sends a message, then confirms; with three
   * targets of which the second fails, the report reads 2 successes and
   * 1 failure, all three were attempted and the pending message is cleared.
   */
  lemma ThreeTargetsOneFailure(g: string, s: string, text: string, p: Payload, t1: string, t2: string, t3: string)
    requires text != CancelKeyword
    ensures var a1 := Next(AwaitingMessage(g, s), None, [t1, t2, t3], Message(g, s, text, p), []);
            var a2 := Next(a1.flow, a1.pending, [t1, t2, t3], Message(g, s, ConfirmKeyword, p), [true, false, true]);
            && a1.flow == AwaitingConfirmation(g, s) && a1.reply == AskConfirm(3)
            && a2.reply == Report(2, 1) && a2.flow == Idle && a2.pending == None
            && a2.sends == [Send(t1, Some(p)), Send(t2, Some(p)), Send(t3, Some(p))]
  {
    assert [true, false, true][..2] == [true, false];
    assert [true, false][..1] == [true];
  }

  lemma {:induction false} CountTrueSnoc(s: seq<bool>, b: bool)
    ensures CountTrue(s + [b]) == CountTrue(s) + (if b then 1 else 0)
  {
    assert (s + [b])[..|s|] == s;
  }

  /**
   * The send loop: tries every target in order, whatever earlier attempts
   * gave, and counts successes and failures.
   */
  method SendAll(targets: seq<string>, message: Option<Payload>, delivery: seq<bool>)
    returns (success: nat, failure: nat, sends: seq<Send>)
    requires |delivery| == |targets|
    ensures success == CountTrue(delivery)
    ensures success + failure == |targets|
    ensures sends == SendsTo(targets, message)
  {
    success, failure, sends := 0, 0, [];
    var k := 0;
    while k < |targets|
      invariant 0 <= k <= |targets|
      invariant success == CountTrue(delivery[..k])
      invariant success + failure == k
      invariant sends == SendsTo(targets[..k], message)
    {
      assert SendsTo(targets[..k + 1], message) == sends + [Send(targets[k], message)];
      sends := sends + [Send(targets[k], message)];
      CountTrueSnoc(delivery[..k], delivery[k]);
      assert delivery[..k + 1] == delivery[..k] + [delivery[k]];
      if delivery[k] {
        success := success + 1;
      } else {
        failure := failure + 1;
      }
      k := k + 1;
    }
    assert delivery[..k] == delivery;
    assert targets[..k] == targets;
  }
}

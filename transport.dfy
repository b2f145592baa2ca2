/** The Telegram bot as the core sees it: `send_message` / `send_photo` to a chat.
    Message text is kept as the fields it is built from (the Markdown rendering
    is not modelled). Which chats cannot be reached is fixed per bot; a send to
    one of them raises in the source, and `SendMessage` reports it as not delivered. */
module Transport {
  import opened Wrappers
  import opened Json

  datatype Body =
    | CriticalError(moduleName: string, excerpt: string)
    | AttentionNeeded(moduleName: string, errorId: int, excerpt: string)
    | WhaleAlert(symbol: Json, amountUsd: real, fromPrefix: string, toPrefix: string, chain: Json)
    | ReportPhoto(chartPath: string, caption: string)
    | ReportText(text: string)

  datatype Message = Message(to: Json, body: Body)

  /** The text of the exception a send to an unreachable chat raises. */
  const SendFailure := "message not delivered"

  /** The messages that arrive when every recipient gets its own attempt and a
      failed send does not stop the others. */
  function Broadcast(recipients: seq<Json>, unreachable: set<Json>, body: Body): (r: seq<Message>)
    ensures |r| <= |recipients|
    ensures (forall x :: x in recipients ==> x !in unreachable) ==> |r| == |recipients|
  {
    if recipients == [] then []
    else
      (if recipients[0] in unreachable then [] else [Message(recipients[0], body)])
        + Broadcast(recipients[1..], unreachable, body)
  }

  /** A broadcast reaches exactly the reachable recipients, each with the same body. */
  lemma {:induction false} BroadcastReachesReachable(recipients: seq<Json>, unreachable: set<Json>, body: Body)
    ensures forall m :: m in Broadcast(recipients, unreachable, body) <==>
                          m.body == body && m.to in recipients && m.to !in unreachable
  {
    if recipients != [] {
      BroadcastReachesReachable(recipients[1..], unreachable, body);
      assert recipients == [recipients[0]] + recipients[1..];
    }
  }

  /** Position of the first recipient that cannot be reached, or the length. */
  function FirstUnreachable(recipients: seq<Json>, unreachable: set<Json>): (n: nat)
    ensures n <= |recipients|
    ensures forall i :: 0 <= i < n ==> recipients[i] !in unreachable
    ensures n < |recipients| ==> recipients[n] in unreachable
  {
    if recipients == [] || recipients[0] in unreachable then 0
    else 1 + FirstUnreachable(recipients[1..], unreachable)
  }

  /** The messages that arrive when one `try` wraps the whole send loop: every
      recipient before the first failure, and nobody after it. */
  function SendUntilFailure(recipients: seq<Json>, unreachable: set<Json>, body: Body): (r: seq<Message>)
    ensures r == Broadcast(recipients[..FirstUnreachable(recipients, unreachable)], unreachable, body)
    ensures |r| == FirstUnreachable(recipients, unreachable)
  {
    if recipients == [] || recipients[0] in unreachable then []
    else
      assert recipients[..FirstUnreachable(recipients, unreachable)]
        == [recipients[0]] + recipients[1..][..FirstUnreachable(recipients[1..], unreachable)];
      [Message(recipients[0], body)] + SendUntilFailure(recipients[1..], unreachable, body)
  }

  /** Sending to one more recipient adds at most its own message, at the end. */
  lemma {:induction false} BroadcastAppend(recipients: seq<Json>, x: Json, unreachable: set<Json>, body: Body)
    ensures Broadcast(recipients + [x], unreachable, body)
      == Broadcast(recipients, unreachable, body) + (if x in unreachable then [] else [Message(x, body)])
  {
    if recipients != [] {
      assert (recipients + [x])[1..] == recipients[1..] + [x];
      BroadcastAppend(recipients[1..], x, unreachable, body);
    }
  }

  /** The send loop over one more recipient continues from where the shorter one left off. */
  lemma BroadcastStep(recipients: seq<Json>, i: nat, unreachable: set<Json>, body: Body)
    requires i < |recipients|
    ensures Broadcast(recipients[..i + 1], unreachable, body)
      == Broadcast(recipients[..i], unreachable, body)
         + (if recipients[i] in unreachable then [] else [Message(recipients[i], body)])
  {
    assert recipients[..i + 1] == recipients[..i] + [recipients[i]];
    BroadcastAppend(recipients[..i], recipients[i], unreachable, body);
  }

  /** The first failure is where a send loop that stops on failure stops. */
  lemma FirstUnreachableAt(recipients: seq<Json>, unreachable: set<Json>, i: int)
    requires 0 <= i <= |recipients|
    requires forall k :: 0 <= k < i ==> recipients[k] !in unreachable
    requires i < |recipients| ==> recipients[i] in unreachable
    ensures FirstUnreachable(recipients, unreachable) == i
  {
  }

  /** With nobody unreachable, stopping at the first failure and isolating each send agree. */
  lemma SendUntilFailureAllReachable(recipients: seq<Json>, unreachable: set<Json>, body: Body)
    requires forall x :: x in recipients ==> x !in unreachable
    ensures SendUntilFailure(recipients, unreachable, body) == Broadcast(recipients, unreachable, body)
  {
    assert recipients[..FirstUnreachable(recipients, unreachable)] == recipients;
  }

  class Bot {
    var outbox: seq<Message>
    const unreachable: set<Json>

    constructor (unreachable: set<Json>)
      ensures outbox == [] && this.unreachable == unreachable
    {
      outbox := [];
      this.unreachable := unreachable;
    }

    /** One send; `delivered` is false where the source's call raises. */
    method SendMessage(to: Json, body: Body) returns (delivered: bool)
      modifies this`outbox
      ensures delivered == (to !in unreachable)
      ensures outbox == old(outbox) + (if delivered then [Message(to, body)] else [])
    {
      delivered := to !in unreachable;
      if delivered {
        outbox := outbox + [Message(to, body)];
      }
    }

    /** A send loop wrapped in a single `try`: the first failed send ends it;
        `failed` tells whether there was one. */
    method SendUntilFirstFailure(recipients: seq<Json>, body: Body) returns (failed: bool)
      modifies this`outbox
      ensures outbox == old(outbox) + SendUntilFailure(recipients, unreachable, body)
      ensures failed <==> FirstUnreachable(recipients, unreachable) < |recipients|
    {
      var i := 0;
      while i < |recipients|
        invariant 0 <= i <= |recipients|
        invariant forall k :: 0 <= k < i ==> recipients[k] !in unreachable
        invariant outbox == old(outbox) + Broadcast(recipients[..i], unreachable, body)
      {
        BroadcastStep(recipients, i, unreachable, body);
        ghost var sent := Broadcast(recipients[..i], unreachable, body);
        var delivered := SendMessage(recipients[i], body);
        AppendAssoc(old(outbox), sent, if delivered then [Message(recipients[i], body)] else []);
        if !delivered {
          break;
        }
        i := i + 1;
      }
      FirstUnreachableAt(recipients, unreachable, i);
      failed := i < |recipients|;
    }

    /** A send loop with a `try` around each send: a failed send is skipped and
        the others still get theirs. */
    method SendToAll(recipients: seq<Json>, body: Body)
      modifies this`outbox
      ensures outbox == old(outbox) + Broadcast(recipients, unreachable, body)
    {
      var i := 0;
      while i < |recipients|
        invariant 0 <= i <= |recipients|
        invariant outbox == old(outbox) + Broadcast(recipients[..i], unreachable, body)
      {
        BroadcastStep(recipients, i, unreachable, body);
        ghost var sent := Broadcast(recipients[..i], unreachable, body);
        var delivered := SendMessage(recipients[i], body);
        AppendAssoc(old(outbox), sent, if delivered then [Message(recipients[i], body)] else []);
        i := i + 1;
      }
      assert recipients[..i] == recipients;
    }
  }
}

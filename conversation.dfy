/**
 * The conversation history: the role mapping applied to caller-supplied messages and
 * the loop that appends them, in order, one content per message.
 */
module Conversation {
  import opened Types
  import opened GenAI
  import opened ChatModels

  /** "assistant" becomes the service's "model" role; every other role becomes "user". */
  function RoleFor(role: string): (r: string)
    ensures r == "model" <==> role == "assistant"
    ensures r == "user" <==> role != "assistant"
  {
    if role == "assistant" then "model" else "user"
  }

  /** The history entry for one message. */
  function MessageTurn(m: ChatMessage): Content {
    TextTurn(RoleFor(m.role), m.message)
  }

  /** The history entries for a list of messages, in order. */
  function ToTurns(msgs: seq<ChatMessage>): (r: seq<Content>)
    ensures |r| == |msgs|
  {
    if msgs == [] then [] else [MessageTurn(msgs[0])] + ToTurns(msgs[1..])
  }

  /** The k-th entry is the k-th message, role-mapped. */
  lemma {:induction false} ToTurnsAt(msgs: seq<ChatMessage>, k: nat)
    requires k < |msgs|
    ensures ToTurns(msgs)[k] == TextTurn(RoleFor(msgs[k].role), msgs[k].message)
  {
    if k > 0 {
      ToTurnsAt(msgs[1..], k - 1);
    }
  }

  /** Converting two lists one after the other is converting their concatenation. */
  lemma {:induction false} ToTurnsAppend(a: seq<ChatMessage>, b: seq<ChatMessage>)
    ensures ToTurns(a + b) == ToTurns(a) + ToTurns(b)
  {
    if a == [] {
      assert a + b == b;
    } else {
      assert (a + b)[1..] == a[1..] + b;
      ToTurnsAppend(a[1..], b);
    }
  }

  /**
   * Role mapping is not idempotent: a message whose role is already "model" is stored
   * under "user", so an "assistant" message mapped twice loses its role.
   */
  lemma RoleForNotIdempotent()
    ensures RoleFor(RoleFor("assistant")) != RoleFor("assistant")
    ensures RoleFor("model") == "user"
  {
  }

  /** The `foreach` loop that adds one entry per message, in order, to a history. */
  method AppendMessages(history: seq<Content>, msgs: seq<ChatMessage>) returns (h: seq<Content>)
    ensures h == history + ToTurns(msgs)
  {
    h := history;
    var i := 0;
    while i < |msgs|
      invariant 0 <= i <= |msgs|
      invariant h == history + ToTurns(msgs[..i])
    {
      ToTurnsAppend(msgs[..i], [msgs[i]]);
      assert msgs[..i + 1] == msgs[..i] + [msgs[i]];
      assert ToTurns([msgs[i]]) == [MessageTurn(msgs[i])];
      h := h + [MessageTurn(msgs[i])];
      i := i + 1;
    }
    assert msgs[..i] == msgs;
  }
}

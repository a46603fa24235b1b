/**
 * The chat-history window of
 * app/api/get-next-completion-stream-promise/route.ts: a history of more
 * than ten messages is cut down to its first three and last seven before it
 * is sent to the model.
 */
module CompletionRoute {

  datatype Role = System | User | Assistant

  datatype Message = Message(role: Role, content: string)

  /** `[messages[0], messages[1], messages[2], ...messages.slice(-7)]` when there are more than ten. */
  function TrimHistory(messages: seq<Message>): (r: seq<Message>)
    ensures |messages| <= 10 ==> r == messages
    ensures |messages| > 10 ==> |r| == 10
  {
    if |messages| > 10 then [messages[0], messages[1], messages[2]] + messages[|messages| - 7..] else messages
  }

  /** The positions of the input that the window keeps, in order. */
  function Kept(n: nat): (ks: seq<nat>)
    ensures n <= 10 ==> |ks| == n
    ensures n > 10 ==> |ks| == 10
  {
    if n > 10 then [0, 1, 2] + seq(7, k requires 0 <= k < 7 => n - 7 + k)
    else seq(n, k requires 0 <= k < n => k)
  }

  /**
   * The window is an order-preserving selection of the input: its `k`-th
   * message is the input's message at the `k`-th kept position, and the kept
   * positions strictly increase; nothing is made up.
   */
  lemma WindowIsSubsequence(messages: seq<Message>)
    ensures var r, ks := TrimHistory(messages), Kept(|messages|);
      && |r| == |ks|
      && (forall k :: 0 <= k < |ks| ==> ks[k] < |messages| && r[k] == messages[ks[k]])
      && (forall k, l :: 0 <= k < l < |ks| ==> ks[k] < ks[l])
  {
    var n := |messages|;
    var r, ks := TrimHistory(messages), Kept(n);
    if n > 10 {
      forall k | 3 <= k < 10
        ensures ks[k] == n - 10 + k && r[k] == messages[n - 10 + k]
      {
      }
    }
  }

  /**
   * With more than ten messages, a position is kept exactly when it is among
   * the first three or the last seven: every position from 3 to n - 8 is
   * dropped.
   */
  lemma KeptPositions(n: nat, i: nat)
    requires n > 10 && i < n
    ensures i in Kept(n) <==> i < 3 || i >= n - 7
  {
    var ks := Kept(n);
    if i >= n - 7 {
      assert ks[3 + (i - (n - 7))] == i;
    }
    if i < 3 {
      assert ks[i] == i;
    }
  }

  /** The first and the last message are always kept. */
  lemma EndsKept(messages: seq<Message>)
    requires messages != []
    ensures var r := TrimHistory(messages);
      r != [] && r[0] == messages[0] && r[|r| - 1] == messages[|messages| - 1]
  {
  }

  /** Every message of the window is one of the input's. */
  lemma NothingFabricated(messages: seq<Message>, m: Message)
    requires m in TrimHistory(messages)
    ensures m in messages
  {
    WindowIsSubsequence(messages);
    var r := TrimHistory(messages);
    var k :| 0 <= k < |r| && r[k] == m;
    assert messages[Kept(|messages|)[k]] == m;
  }
}

/** Prompt messages and the token accounting of the pre-flight check
    (src/engine/openAi.ts lines 91-97). The tokenizer is a parameter
    `tokenCount`: any total function from text to a token count. */
module Tokens {

  datatype Role = System | User | Assistant

  /** One chat message; the sequence order is the conversation order. */
  datatype Message = Message(role: Role, content: string)

  /** Fixed per-message overhead added to the tokenizer's count. */
  const MessageOverhead: nat := 4

  function MessageTokens(tokenCount: string -> nat, m: Message): nat {
    tokenCount(m.content) + MessageOverhead
  }

  /** The request cost as the source computes it: each message mapped to its
      cost, then reduced left to right from 0. */
  function RequestTokens(tokenCount: string -> nat, msgs: seq<Message>): (n: nat)
    ensures n >= MessageOverhead * |msgs|
    ensures msgs == [] ==> n == 0
    decreases |msgs|
  {
    if msgs == [] then 0
    else RequestTokens(tokenCount, msgs[..|msgs| - 1]) + MessageTokens(tokenCount, msgs[|msgs| - 1])
  }

  /** Reference definition: the sum over the messages, first message first. */
  function TokenSum(tokenCount: string -> nat, msgs: seq<Message>): nat
    decreases |msgs|
  {
    if msgs == [] then 0 else MessageTokens(tokenCount, msgs[0]) + TokenSum(tokenCount, msgs[1..])
  }

  /** The pre-flight rejection test: strictly more tokens than the input limit
      leaves room for once the output limit is reserved. */
  predicate OverBudget(requestTokens: int, maxTokensInput: int, maxTokensOutput: int) {
    requestTokens > maxTokensInput - maxTokensOutput
  }

  lemma {:induction false} TokenSumAppend(tokenCount: string -> nat, a: seq<Message>, b: seq<Message>)
    ensures TokenSum(tokenCount, a + b) == TokenSum(tokenCount, a) + TokenSum(tokenCount, b)
    decreases |a|
  {
    if a == [] {
      assert a + b == b;
    } else {
      assert (a + b)[0] == a[0];
      assert (a + b)[1..] == a[1..] + b;
      TokenSumAppend(tokenCount, a[1..], b);
    }
  }

  /** The left fold computes the sum over the messages. */
  lemma {:induction false} RequestTokensIsSum(tokenCount: string -> nat, msgs: seq<Message>)
    ensures RequestTokens(tokenCount, msgs) == TokenSum(tokenCount, msgs)
    decreases |msgs|
  {
    if msgs != [] {
      var init, last := msgs[..|msgs| - 1], msgs[|msgs| - 1];
      RequestTokensIsSum(tokenCount, init);
      assert msgs == init + [last];
      TokenSumAppend(tokenCount, init, [last]);
      assert [last][1..] == [];
    }
  }

  /** Costs add up over concatenated prompts. */
  lemma RequestTokensAppend(tokenCount: string -> nat, a: seq<Message>, b: seq<Message>)
    ensures RequestTokens(tokenCount, a + b) == RequestTokens(tokenCount, a) + RequestTokens(tokenCount, b)
  {
    RequestTokensIsSum(tokenCount, a + b);
    RequestTokensIsSum(tokenCount, a);
    RequestTokensIsSum(tokenCount, b);
    TokenSumAppend(tokenCount, a, b);
  }

  /** The cost is exactly the overhead alone iff the tokenizer counts nothing
      in any message. */
  lemma {:induction false} OverheadOnlyIffEmptyContents(tokenCount: string -> nat, msgs: seq<Message>)
    ensures RequestTokens(tokenCount, msgs) == MessageOverhead * |msgs| <==>
            forall i :: 0 <= i < |msgs| ==> tokenCount(msgs[i].content) == 0
    decreases |msgs|
  {
    if msgs != [] {
      var init := msgs[..|msgs| - 1];
      OverheadOnlyIffEmptyContents(tokenCount, init);
      assert forall i :: 0 <= i < |init| ==> init[i] == msgs[i];
    }
  }

  /** A rejected prompt stays rejected whatever is added before or after it. */
  lemma RejectionSurvivesExtension(tokenCount: string -> nat, before: seq<Message>, msgs: seq<Message>, after: seq<Message>,
                                   maxTokensInput: int, maxTokensOutput: int)
    requires OverBudget(RequestTokens(tokenCount, msgs), maxTokensInput, maxTokensOutput)
    ensures OverBudget(RequestTokens(tokenCount, before + msgs + after), maxTokensInput, maxTokensOutput)
  {
    RequestTokensAppend(tokenCount, before, msgs);
    RequestTokensAppend(tokenCount, before + msgs, after);
  }
}

/** The message list sent to the language model: the fixed system prompt
    followed by the most recent turns of the history. */
module Context {
  import opened Conversation

  /** How many history turns accompany the system prompt. */
  const ContextTurns: nat := 6

  /** The coaching instructions, character for character as the handler's
      triple-quoted literal, line breaks and indentation included. Their wording
      does not affect any behaviour modelled here. */
  const SystemPrompt: string :=
    "You are an AI coach having a 1:1 conversation with a learner. \n"
    + "        Your role is to be supportive, insightful, and help the learner achieve their goals. \n"
    + "        Ask thoughtful questions, provide constructive feedback, and guide them towards their objectives.\n"
    + "        Keep your responses concise, friendly, and focused on the learner's needs.\n"
    + "        \n"
    + "        If the user seems to be repeating AI-like responses, gently guide them to share something about themselves instead of trying to act as an AI coach."

  /** `[{"role": "system", ...}, *history[-6:]]`. */
  function BuildContext(history: seq<Turn>): (ctx: seq<Turn>)
    ensures 1 <= |ctx| <= 1 + ContextTurns
    ensures |ctx| == 1 + (if |history| < ContextTurns then |history| else ContextTurns)
    ensures ctx[0] == Turn(System, SystemPrompt)
    ensures forall i :: 1 <= i < |ctx| ==> ctx[i] == history[|history| - |ctx| + i]
  {
    [Turn(System, SystemPrompt)] + Recent(history, ContextTurns)
  }

  /** The context built right after a user turn is appended: two to seven
      messages, ending with that user turn and preceded by at most the last
      five turns of the earlier history. */
  lemma ContextEndsWithNewTurn(history: seq<Turn>, msg: string)
    ensures var ctx := BuildContext(history + [Turn(User, msg)]);
      && 2 <= |ctx| <= 1 + ContextTurns
      && ctx[|ctx| - 1] == Turn(User, msg)
      && ctx[1..|ctx| - 1] == Recent(history, ContextTurns - 1)
  {
    var extended := history + [Turn(User, msg)];
    var tail := Recent(extended, ContextTurns);
    var older := Recent(history, ContextTurns - 1);
    var ctx := BuildContext(extended);
    assert ctx == [Turn(System, SystemPrompt)] + tail;
    assert |older| + 1 == |tail|;
    assert tail[|tail| - 1] == extended[|extended| - 1];
    assert ctx[1..|ctx| - 1] == tail[..|tail| - 1];
    forall i | 0 <= i < |older|
      ensures tail[i] == older[i]
    {
      assert tail[i] == extended[|extended| - |tail| + i];
      assert older[i] == history[|history| - |older| + i];
    }
    assert tail[..|tail| - 1] == older;
  }
}

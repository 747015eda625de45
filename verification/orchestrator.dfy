/** `handle_message`: per incoming message, read the user's memory, break a
    detected loop with a fixed reply, or else record the user turn, ask the
    language model and record its answer. */
module Orchestrator {
  import opened Basics
  import opened Conversation
  import opened Memory
  import opened LoopDetector
  import opened Context
  import opened Text

  /** The canned reply sent instead of calling the model when a loop is detected. */
  const LoopInterrupt: string :=
    "I've noticed we seem to be in a conversation loop. Let's talk about something specific. "
    + "Tell me about your day or a specific topic you'd like to learn about. "
    + "For example, you could say 'I want to learn Python' or 'Help me understand machine learning'."

  /** What the language-model call produced; the call itself is outside the model. */
  datatype ModelResult = Generated(text: string) | Failed

  /** The response body `{"ai_response": ...}`, or the error the handler raises. */
  datatype Reply = AiResponse(text: string) | Failure(error: Error)

  /** The outcome of one message: the store afterwards, the reply, and the
      context handed to the model (`None` when the model was not called). */
  datatype Handled = Handled(store: Store, reply: Reply, modelInput: Option<seq<Turn>>)

  /** The record the handler works on: the stored one, or the transient stand-in. */
  function StateOf(store: Store, id: string): (s: UserState)
    ensures id in store ==> s == store[id]
    ensures id !in store ==> s.goals == [] && s.preferences == map[] && s.history == [] && s.role == None
  {
    if id in store then store[id] else Transient
  }

  function Handle(store: Store, userId: string, msg: string, model: ModelResult): (out: Handled)
    // A detected loop: fixed reply, no model call, nothing stored.
    ensures IsLoop(StateOf(store, userId).history) ==>
      out.store == store && out.reply == AiResponse(LoopInterrupt) && out.modelInput == None
    // Otherwise the model sees the context built from the history with the new user turn.
    ensures !IsLoop(StateOf(store, userId).history) ==>
      out.modelInput == Some(BuildContext(StateOf(store, userId).history + [Turn(User, msg)]))
    // A successful call stores the old history followed by the user and assistant turns,
    // and nothing else of the record changes.
    ensures !IsLoop(StateOf(store, userId).history) && model.Generated? ==>
      var before := StateOf(store, userId);
      && out.reply == AiResponse(model.text)
      && userId in out.store
      && out.store[userId].history == before.history + [Turn(User, msg), Turn(Assistant, model.text)]
      && out.store[userId].goals == before.goals
      && out.store[userId].preferences == before.preferences
      && out.store[userId].role == before.role
    // A failed call reports a model error; a registered user keeps the dangling
    // user turn, an unregistered one leaves no trace.
    ensures !IsLoop(StateOf(store, userId).history) && model.Failed? ==>
      && out.reply == Failure(ModelError)
      && (userId !in store ==> out.store == store)
      && (userId in store ==>
            out.store == store[userId := store[userId].(history := store[userId].history + [Turn(User, msg)])])
    // Other users are never touched.
    ensures out.store.Keys <= store.Keys + {userId}
    ensures forall other :: other in store && other != userId ==> other in out.store && out.store[other] == store[other]
  {
    var state := StateOf(store, userId);
    if IsLoop(state.history) then
      Handled(store, AiResponse(LoopInterrupt), None)
    else
      var withUser := state.(history := state.history + [Turn(User, msg)]);
      // For a registered user the handler appends to the stored record itself,
      // so the user turn is already in the store when the model is called.
      var appended := if userId in store then store[userId := withUser] else store;
      var ctx := BuildContext(withUser.history);
      match model
      case Failed =>
        Handled(appended, Failure(ModelError), Some(ctx))
      case Generated(text) =>
        var done := withUser.(history := withUser.history + [Turn(Assistant, text)]);
        Handled(store[userId := done], AiResponse(text), Some(ctx))
  }

  /** Feed a series of messages, with the model's result for each, to the
      handler one after another; return the final store and the replies. */
  function Converse(store: Store, userId: string, msgs: seq<(string, ModelResult)>): (r: (Store, seq<Reply>))
    ensures |r.1| == |msgs|
    decreases |msgs|
  {
    if msgs == [] then (store, [])
    else
      var first := Handle(store, userId, msgs[0].0, msgs[0].1);
      var rest := Converse(first.store, userId, msgs[1..]);
      (rest.0, [first.reply] + rest.1)
  }

  /** Once a loop is detected the user is locked in it: whatever messages
      follow, every reply is the fixed interrupt and the store never changes,
      because the triggering messages are never appended. */
  lemma {:induction false} LoopIsSticky(store: Store, userId: string, msgs: seq<(string, ModelResult)>)
    requires IsLoop(StateOf(store, userId).history)
    ensures Converse(store, userId, msgs).0 == store
    ensures forall i :: 0 <= i < |msgs| ==> Converse(store, userId, msgs).1[i] == AiResponse(LoopInterrupt)
    decreases |msgs|
  {
    if msgs != [] {
      LoopIsSticky(store, userId, msgs[1..]);
    }
  }

  /** The handler only ever appends: every stored history is a prefix of the
      history afterwards, and goals, preferences and roles are untouched. */
  lemma HandleIsAppendOnly(store: Store, userId: string, msg: string, model: ModelResult)
    ensures var out := Handle(store, userId, msg, model);
      forall id :: id in store ==>
        && id in out.store
        && out.store[id].history[..|store[id].history|] == store[id].history
        && out.store[id].goals == store[id].goals
        && out.store[id].preferences == store[id].preferences
        && out.store[id].role == store[id].role
  {
  }

  /** A history as the handler builds it: user and assistant turns alternate,
      starting with a user turn and ending with an assistant turn. */
  ghost predicate Alternating(h: seq<Turn>) {
    && |h| % 2 == 0
    && forall i :: 0 <= i < |h| ==> h[i].author == (if i % 2 == 0 then User else Assistant)
  }

  /** Appending a user turn and its answer keeps a history alternating. */
  lemma ExchangeKeepsAlternation(h: seq<Turn>, msg: string, answer: string)
    requires Alternating(h)
    ensures Alternating(h + [Turn(User, msg), Turn(Assistant, answer)])
  {
    var h' := h + [Turn(User, msg), Turn(Assistant, answer)];
    forall i | 0 <= i < |h'|
      ensures h'[i].author == (if i % 2 == 0 then User else Assistant)
    {
      if i < |h| {
        assert h'[i] == h[i];
      }
    }
  }

  /** Unless the model call fails, every stored history that alternated still does. */
  lemma HandleKeepsAlternation(store: Store, userId: string, msg: string, model: ModelResult)
    requires forall id :: id in store ==> Alternating(store[id].history)
    requires model.Generated? || IsLoop(StateOf(store, userId).history)
    ensures var out := Handle(store, userId, msg, model);
      forall id :: id in out.store ==> Alternating(out.store[id].history)
  {
    var out := Handle(store, userId, msg, model);
    if !IsLoop(StateOf(store, userId).history) {
      ExchangeKeepsAlternation(StateOf(store, userId).history, msg, model.text);
    }
  }

  /** A failed model call leaves a registered user's history ending in an
      unanswered user turn, so it no longer alternates. */
  lemma ModelFailureLeavesDanglingTurn(store: Store, userId: string, msg: string)
    requires userId in store
    requires !IsLoop(store[userId].history)
    ensures var h' := Handle(store, userId, msg, Failed).store[userId].history;
      && |h'| == |store[userId].history| + 1
      && h'[|h'| - 1] == Turn(User, msg)
      && (Alternating(store[userId].history) ==> !Alternating(h'))
  {
  }

  /** Register "u1" as a learner, say "Hello", and get "Hi there!" back: the
      stored history is exactly that exchange. */
  lemma FirstExchange()
    ensures var registered := Create(map[], "u1", "learner", true).value;
      var out := Handle(registered, "u1", "Hello", Generated("Hi there!"));
      && out.reply == AiResponse("Hi there!")
      && Get(out.store, "u1") == Ok(UserState([], map[], [Turn(User, "Hello"), Turn(Assistant, "Hi there!")], Some("learner")))
  {
    var registered := Create(map[], "u1", "learner", true).value;
    assert registered == map["u1" := Registered("learner")];
    assert !IsLoop(registered["u1"].history);
    var out := Handle(registered, "u1", "Hello", Generated("Hi there!"));
    assert out.store["u1"] == UserState([], map[], [Turn(User, "Hello"), Turn(Assistant, "Hi there!")], Some("learner"));
  }

  /** Four user turns that each repeat "Let's focus" trip the detector, so a
      further message, whatever it says, gets the fixed reply and the stored
      history keeps its four turns. */
  lemma RepeatedMarkerInterrupts(msg: string, model: ModelResult)
    ensures var h := seq(4, _ => Turn(User, "Let's focus"));
      var store := map["u1" := Registered("learner").(history := h)];
      var out := Handle(store, "u1", msg, model);
      && out.reply == AiResponse(LoopInterrupt)
      && |Get(out.store, "u1").value.history| == 4
  {
    var h := seq(4, _ => Turn(User, "Let's focus"));
    var store := map["u1" := Registered("learner").(history := h)];
    assert Markers[3] == "let's focus";
    assert Lower("Let's focus") == Lower(Markers[3]);
    assert UserTurnMentions(h[0], Markers[3]) && UserTurnMentions(h[1], Markers[3]);
    assert Recent(h, Window) == h;
    assert SharedByTwoUserTurns(Recent(h, Window), Markers[3]);
    IsLoopMatchesReference(h);
  }
}

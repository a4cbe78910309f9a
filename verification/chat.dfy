/**
 * The session's chat log and the two actions that change it: "Send", which
 * records the user's message and the bot's reply, and "Clear", which empties
 * the log. Neither touches the shipment store.
 */
module Chat {
  import Bot
  import Shipments

  datatype Turn =
    | UserTurn(text: string)
    | BotTurn(reply: Bot.Response)

  /** One interactive session: the chat log and the shipment store it answers from. */
  datatype Session = Session(history: seq<Turn>, store: Shipments.Store)

  /** A fresh session: an empty log and the initial store. */
  function Start(estimatedDelivery: string): (s: Session)
    ensures s.history == []
    ensures s.store == Shipments.InitialStore(estimatedDelivery)
    ensures Paired(s.store, s.history)
  {
    Session([], Shipments.InitialStore(estimatedDelivery))
  }

  /**
   * "Send": an empty message changes nothing; otherwise the user's turn and
   * then the bot's reply to it are appended, and earlier turns are kept.
   */
  function Send(s: Session, input: string, draws: Shipments.Draws): (s': Session)
    ensures s'.store == s.store
    ensures input == "" ==> s' == s
    ensures input != "" ==> |s'.history| == |s.history| + 2
    ensures input != "" ==> s'.history[..|s.history|] == s.history
    ensures input != "" ==> s'.history[|s.history|] == UserTurn(input)
    ensures input != "" ==> s'.history[|s.history| + 1] == BotTurn(Bot.Reply(s.store, input, draws))
  {
    if input == "" then s
    else s.(history := s.history + [UserTurn(input), BotTurn(Bot.Reply(s.store, input, draws))])
  }

  /** "Clear": the log becomes empty and the store is left alone. */
  function Clear(s: Session): (s': Session)
    ensures s'.history == []
    ensures s'.store == s.store
  {
    s.(history := [])
  }

  /** Pair `p` of the log is a non-empty user message followed by a reply the bot can give to it. */
  ghost predicate PairAt(store: Shipments.Store, h: seq<Turn>, p: nat)
    requires 2 * p + 1 < |h|
  {
    && h[2 * p].UserTurn?
    && h[2 * p].text != ""
    && h[2 * p + 1].BotTurn?
    && exists d :: h[2 * p + 1].reply == Bot.Reply(store, h[2 * p].text, d)
  }

  /** The log is a sequence of (user message, bot reply) pairs. */
  ghost predicate Paired(store: Shipments.Store, h: seq<Turn>)
  {
    && |h| % 2 == 0
    && forall p: nat :: 2 * p + 1 < |h| ==> PairAt(store, h, p)
  }

  /** A user action on the session. */
  datatype Action =
    | Sent(input: string, draws: Shipments.Draws)
    | Cleared

  function Step(s: Session, a: Action): Session
  {
    match a
    case Sent(input, draws) => Send(s, input, draws)
    case Cleared => Clear(s)
  }

  /** The session after a sequence of actions, applied in order. */
  function Run(s: Session, actions: seq<Action>): Session
    decreases |actions|
  {
    if actions == [] then s else Run(Step(s, actions[0]), actions[1..])
  }

  /** "Send" keeps the log a sequence of message/reply pairs. */
  lemma SendKeepsPairs(s: Session, input: string, draws: Shipments.Draws)
    requires Paired(s.store, s.history)
    ensures Paired(s.store, Send(s, input, draws).history)
  {
    if input != "" {
      var h := s.history;
      var h' := Send(s, input, draws).history;
      forall p: nat | 2 * p + 1 < |h'|
        ensures PairAt(s.store, h', p)
      {
        if 2 * p + 1 < |h| {
          assert PairAt(s.store, h, p);
          assert h'[2 * p] == h[2 * p] && h'[2 * p + 1] == h[2 * p + 1];
        } else {
          assert 2 * p == |h|;
          assert h'[2 * p + 1].reply == Bot.Reply(s.store, h'[2 * p].text, draws);
        }
      }
    }
  }

  /** No sequence of actions changes the store, and the log stays a sequence of pairs. */
  lemma {:induction false} RunKeepsStoreAndPairs(s: Session, actions: seq<Action>)
    requires Paired(s.store, s.history)
    ensures Run(s, actions).store == s.store
    ensures Paired(s.store, Run(s, actions).history)
    decreases |actions|
  {
    if actions != [] {
      var next := Step(s, actions[0]);
      if actions[0].Sent? {
        SendKeepsPairs(s, actions[0].input, actions[0].draws);
      }
      RunKeepsStoreAndPairs(next, actions[1..]);
    }
  }

  /** From a fresh session, every bot turn answers the user message just before it, from the initial store. */
  lemma SessionLogIsPaired(estimatedDelivery: string, actions: seq<Action>)
    ensures Run(Start(estimatedDelivery), actions).store == Shipments.InitialStore(estimatedDelivery)
    ensures Paired(Shipments.InitialStore(estimatedDelivery), Run(Start(estimatedDelivery), actions).history)
  {
    RunKeepsStoreAndPairs(Start(estimatedDelivery), actions);
  }
}

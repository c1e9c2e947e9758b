/**
 * The process-wide `bot_data` object (app.py:27-31) with the handlers as its
 * methods. `start`, `echo` and `handle_message` update it in place; `stats`
 * only reads it; `help_command` does not look at it and is the constant
 * `Replies.HelpText`. `Dispatch` applies the routing table and is proved to
 * agree with the value-level `BotSpec.Step`.
 */
module Bot {
  import opened Wrappers
  import opened Text
  import opened Replies
  import opened Routing
  import BotSpec

  class BotState {
    /** `bot_data['users']`: sender id to the record of their latest /start. */
    var users: map<UserId, BotSpec.UserRecord>
    /** `bot_data['stats']['messages_processed']`. */
    var messagesProcessed: nat

    /** The state at process start: no users, nothing processed. */
    constructor ()
      ensures users == map[] && messagesProcessed == 0
      ensures Snapshot() == BotSpec.Initial
    {
      users := map[];
      messagesProcessed := 0;
    }

    /** The value this object currently holds. */
    function Snapshot(): BotSpec.State
      reads this
    {
      BotSpec.State(users, messagesProcessed)
    }

    /**
     * `start` (app.py:34-46): greet the sender and record their first name and
     * the message date, replacing any earlier record. Without a sender the
     * source raises before either, so nothing is sent or stored.
     */
    method Start(sender: Option<Sender>, date: Timestamp) returns (reply: Option<Reply>)
      modifies this
      ensures messagesProcessed == old(messagesProcessed)
      ensures sender.None? ==> users == old(users) && reply == None
      ensures sender.Some? ==>
        && users == old(users)[sender.value.id := BotSpec.UserRecord(sender.value.firstName, date)]
        && reply == Some(Greeting(sender.value.id, sender.value.firstName))
    {
      match sender
      case None =>
        reply := None;
      case Some(u) =>
        reply := Some(Greeting(u.id, u.firstName));
        users := users[u.id := BotSpec.UserRecord(u.firstName, date)];
    }

    /** `stats` (app.py:59-65): a reply from which both counts can be read back. */
    function Stats(): (r: string)
      reads this
      ensures ParseStats(r) == Some((|users|, messagesProcessed))
    {
      StatsRoundTrip(|users|, messagesProcessed);
      StatsText(|users|, messagesProcessed)
    }

    /**
     * `echo` (app.py:67-75): with nothing to echo, ask for text and change
     * nothing; otherwise echo the joined arguments and count one message.
     */
    method Echo(args: seq<string>) returns (reply: string)
      modifies this
      ensures users == old(users)
      ensures args == [] || args == [""] ==>
        reply == EchoUsage && messagesProcessed == old(messagesProcessed)
      ensures args != [] && args != [""] ==>
        reply == EchoPrefix + Join(args, " ") && messagesProcessed == old(messagesProcessed) + 1
    {
      var text := Join(args, " ");
      JoinEmptyIff(args, " ");
      if text == "" {
        reply := EchoUsage;
        return;
      }
      reply := EchoPrefix + text;
      messagesProcessed := messagesProcessed + 1;
    }

    /** `handle_message` (app.py:77-81): repeat the text and count one message. */
    method HandleMessage(text: string) returns (reply: string)
      modifies this
      ensures users == old(users)
      ensures reply == YouSaidPrefix + text
      ensures messagesProcessed == old(messagesProcessed) + 1
    {
      reply := YouSaidPrefix + text;
      messagesProcessed := messagesProcessed + 1;
    }

    /**
     * `dispatcher.process_update` with the handlers of app.py:102-108: at most
     * one handler runs, chosen by `Route`; an update it routes nowhere is
     * dropped without a reply.
     */
    method Dispatch(u: Update) returns (reply: Option<Reply>)
      modifies this
      ensures Snapshot() == BotSpec.Step(old(Snapshot()), u).state
      ensures reply == BotSpec.Step(old(Snapshot()), u).reply
      ensures old(users).Keys <= users.Keys && old(messagesProcessed) <= messagesProcessed
    {
      match Route(u.content)
      case None =>
        reply := None;
      case Some(StartHandler) =>
        reply := Start(u.sender, u.date);
      case Some(HelpHandler) =>
        reply := Some(Plain(HelpText));
      case Some(StatsHandler) =>
        reply := Some(Plain(Stats()));
      case Some(EchoHandler) =>
        var text := Echo(u.content.args);
        reply := Some(Plain(text));
      case Some(MessageHandler) =>
        var text := HandleMessage(u.content.text);
        reply := Some(Plain(text));
    }
  }
}

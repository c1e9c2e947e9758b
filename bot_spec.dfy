/**
 * The bot as a state machine on values: the shared `bot_data` blob
 * (app.py:27-31), what each handler does to it and replies (app.py:34-81),
 * and one step of the dispatcher (app.py:102-108). The class in bot_state.dfy
 * updates the same state in place and is proved to agree with `Step`.
 */
module BotSpec {
  import opened Wrappers
  import opened Text
  import opened Replies
  import opened Routing

  /** `bot_data['users'][id]`: the name and message date recorded by the sender's latest /start. */
  datatype UserRecord = UserRecord(firstName: string, lastContact: Timestamp)

  /** `bot_data`: the user registry and `stats.messages_processed`. */
  datatype State = State(users: map<UserId, UserRecord>, messagesProcessed: nat)

  /** The state at process start (app.py:28-31). */
  const Initial: State := State(map[], 0)

  /** The state after a handler ran and the reply it sent, if any. */
  datatype Outcome = Outcome(state: State, reply: Option<Reply>)

  // ----- The handlers -----

  /**
   * `start` (app.py:34-46). Without an effective user, `user.mention_markdown_v2()`
   * raises before anything is sent or stored, and the dispatcher swallows
   * the error: nothing happens.
   */
  function Start(s: State, sender: Option<Sender>, date: Timestamp): Outcome
  {
    match sender
    case None => Outcome(s, None)
    case Some(u) =>
      Outcome(s.(users := s.users[u.id := UserRecord(u.firstName, date)]), Some(Greeting(u.id, u.firstName)))
  }

  /** `help_command` (app.py:48-57). */
  function Help(s: State): Outcome
  {
    Outcome(s, Some(Plain(HelpText)))
  }

  /** `stats` (app.py:59-65). */
  function Stats(s: State): Outcome
  {
    Outcome(s, Some(Plain(StatsText(|s.users|, s.messagesProcessed))))
  }

  /** `echo` (app.py:67-75): the guard is on the joined text, not on the argument list. */
  function Echo(s: State, args: seq<string>): Outcome
  {
    var text := Join(args, " ");
    if text == "" then Outcome(s, Some(Plain(EchoUsage)))
    else Outcome(s.(messagesProcessed := s.messagesProcessed + 1), Some(Plain(EchoPrefix + text)))
  }

  /** `handle_message` (app.py:77-81). */
  function HandleMessage(s: State, text: string): Outcome
  {
    Outcome(s.(messagesProcessed := s.messagesProcessed + 1), Some(Plain(YouSaidPrefix + text)))
  }

  /** `dispatcher.process_update`: route the update, then run the handler it reaches. */
  function Step(s: State, u: Update): Outcome
  {
    match Route(u.content)
    case None => Outcome(s, None)
    case Some(StartHandler) => Start(s, u.sender, u.date)
    case Some(HelpHandler) => Help(s)
    case Some(StatsHandler) => Stats(s)
    case Some(EchoHandler) => Echo(s, u.content.args)
    case Some(MessageHandler) => HandleMessage(s, u.content.text)
  }

  /** The state after processing the updates one after the other. */
  function Run(s: State, updates: seq<Update>): State
    decreases |updates|
  {
    if updates == [] then s else Run(Step(s, updates[0]).state, updates[1..])
  }

  // ----- /start -----

  /** /start records the sender, overwriting any earlier record, and leaves everything else alone. */
  lemma StartUpserts(s: State, u: Sender, date: Timestamp)
    ensures var o := Start(s, Some(u), date);
      && o.reply == Some(Greeting(u.id, u.firstName))
      && u.id in o.state.users && o.state.users[u.id] == UserRecord(u.firstName, date)
      && (forall id :: id != u.id ==> (id in o.state.users <==> id in s.users))
      && (forall id :: id != u.id && id in s.users ==> o.state.users[id] == s.users[id])
      && |o.state.users| == (if u.id in s.users then |s.users| else |s.users| + 1)
      && o.state.messagesProcessed == s.messagesProcessed
  {
  }

  /** A second /start from the same id keeps one record, holding only the latest values. */
  lemma StartRepeated(s: State, first: Sender, again: Sender, d1: Timestamp, d2: Timestamp)
    requires first.id == again.id
    ensures var once := Start(s, Some(first), d1).state;
      && Start(once, Some(again), d2).state == Start(s, Some(again), d2).state
      && |Start(once, Some(again), d2).state.users| == |once.users|
  {
  }

  /** /start from an update without a user does nothing. */
  lemma StartWithoutUser(s: State, u: Update)
    requires Route(u.content) == Some(StartHandler) && u.sender.None?
    ensures Step(s, u) == Outcome(s, None)
  {
  }

  // ----- /echo and plain text -----

  /**
   * /echo changes nothing and asks for text exactly when the arguments join to
   * the empty string, that is, when there are none or one empty one; otherwise
   * it echoes the joined text and counts one message.
   */
  lemma EchoGuard(s: State, args: seq<string>)
    ensures var o := Echo(s, args);
      && (o.state == s <==> args == [] || args == [""])
      && (args == [] || args == [""] ==> o.reply == Some(Plain(EchoUsage)))
      && (args != [] && args != [""] ==>
            && o.reply == Some(Plain(EchoPrefix + Join(args, " ")))
            && o.state.users == s.users
            && o.state.messagesProcessed == s.messagesProcessed + 1)
  {
  }

  /**
   * For arguments as the client library produces them (non-empty words without
   * spaces), the echoed text splits back into exactly those arguments.
   */
  lemma EchoRepeatsArgs(s: State, args: seq<string>)
    requires args != []
    requires forall k :: 0 <= k < |args| ==> args[k] != "" && ' ' !in args[k]
    ensures Echo(s, args).reply == Some(Plain(EchoPrefix + Join(args, " ")))
    ensures Split(Join(args, " "), ' ') == args
  {
    EchoGuard(s, args);
    SplitJoin(args, ' ');
  }

  /** Plain text is answered verbatim and counted once; the registry is untouched. */
  lemma TextCounted(s: State, u: Update)
    requires u.content.PlainText?
    ensures Step(s, u).reply == Some(Plain(YouSaidPrefix + u.content.text))
    ensures Step(s, u).state.users == s.users
    ensures Step(s, u).state.messagesProcessed == s.messagesProcessed + 1
  {
  }

  // ----- Read-only updates -----

  /** /help, /stats and updates that reach no handler never change the state. */
  lemma ReadOnlyUpdates(s: State, u: Update)
    requires Route(u.content) in {None, Some(HelpHandler), Some(StatsHandler)}
    ensures Step(s, u).state == s
    ensures Route(u.content) == None ==> Step(s, u).reply == None
    ensures Route(u.content) == Some(HelpHandler) ==> Step(s, u).reply == Some(Plain(HelpText))
    ensures Route(u.content) == Some(StatsHandler) ==>
      && Step(s, u).reply.Some? && Step(s, u).reply.value.Plain?
      && ParseStats(Step(s, u).reply.value.text) == Some((|s.users|, s.messagesProcessed))
  {
    if Route(u.content) == Some(StatsHandler) {
      StatsRoundTrip(|s.users|, s.messagesProcessed);
    }
  }

  /** An unknown command reaches no handler, so it is not answered and changes nothing. */
  lemma UnknownCommandIgnored(s: State, u: Update)
    requires u.content.Command?
    requires forall h: Handler :: CommandName(h) != Some(u.content.name)
    ensures Step(s, u) == Outcome(s, None)
  {
    RouteUnknownCommand(u.content.name, u.content.args);
  }

  /** The /help text names, with its slash, every command the dispatcher routes. */
  lemma HelpNamesEveryCommand(h: Handler, name: string)
    requires CommandName(h) == Some(name)
    ensures Contains(HelpText, "/" + name)
  {
    HelpListsCommands();
    var k := match h
      case StartHandler => 0
      case HelpHandler => 1
      case StatsHandler => 2
      case EchoHandler => 3
      case MessageHandler => 0;
    assert HelpEntries[k].command == name;
  }

  // ----- Sequences of updates -----

  /** Whether an update adds one to `messages_processed`: echoed text, or plain text. */
  predicate IsCounted(u: Update)
  {
    match Route(u.content)
    case Some(MessageHandler) => true
    case Some(EchoHandler) => Join(u.content.args, " ") != ""
    case _ => false
  }

  /** How many of the updates are counted. */
  function CountedUpdates(updates: seq<Update>): nat
  {
    if updates == [] then 0
    else (if IsCounted(updates[0]) then 1 else 0) + CountedUpdates(updates[1..])
  }

  /** The id an update registers: that of the sender of a /start that has one. */
  function StartedId(u: Update): set<UserId>
  {
    if Route(u.content) == Some(StartHandler) && u.sender.Some? then {u.sender.value.id} else {}
  }

  /** The ids the updates register. */
  function StartedIds(updates: seq<Update>): set<UserId>
  {
    if updates == [] then {} else StartedId(updates[0]) + StartedIds(updates[1..])
  }

  /** One step adds to the counter exactly for counted updates, and to the registry exactly the /start sender. */
  lemma StepEffect(s: State, u: Update)
    ensures Step(s, u).state.messagesProcessed == s.messagesProcessed + (if IsCounted(u) then 1 else 0)
    ensures Step(s, u).state.users.Keys == s.users.Keys + StartedId(u)
  {
  }

  /** After any sequence of updates the counter has grown by the number of counted updates. */
  lemma {:induction false} RunCounter(s: State, updates: seq<Update>)
    ensures Run(s, updates).messagesProcessed == s.messagesProcessed + CountedUpdates(updates)
    decreases |updates|
  {
    if updates != [] {
      StepEffect(s, updates[0]);
      RunCounter(Step(s, updates[0]).state, updates[1..]);
    }
  }

  /** After any sequence of updates the registered ids are the earlier ones plus every /start sender. */
  lemma {:induction false} RunUsers(s: State, updates: seq<Update>)
    ensures Run(s, updates).users.Keys == s.users.Keys + StartedIds(updates)
    decreases |updates|
  {
    if updates != [] {
      var u := updates[0];
      StepEffect(s, u);
      RunUsers(Step(s, u).state, updates[1..]);
    }
  }

  /** The counter never decreases and no registered user is ever forgotten. */
  lemma RunMonotone(s: State, updates: seq<Update>)
    ensures s.messagesProcessed <= Run(s, updates).messagesProcessed
    ensures s.users.Keys <= Run(s, updates).users.Keys
  {
    RunCounter(s, updates);
    RunUsers(s, updates);
  }

  /**
   * From a fresh process: /start from A, `/echo hi` from A, plain text from B
   * (who never sent /start); /stats then reports one user and two messages.
   */
  lemma Scenario(a: Sender, b: Sender, t: Timestamp)
    requires a.id != b.id
    ensures var updates := [
        Update(Some(a), t, Command("start", [])),
        Update(Some(a), t, Command("echo", ["hi"])),
        Update(Some(b), t, PlainText("hello"))
      ];
      var s := Run(Initial, updates);
      && s == State(map[a.id := UserRecord(a.firstName, t)], 2)
      && Step(s, Update(Some(a), t, Command("stats", []))).reply == Some(Plain(StatsText(1, 2)))
  {
    var updates := [
      Update(Some(a), t, Command("start", [])),
      Update(Some(a), t, Command("echo", ["hi"])),
      Update(Some(b), t, PlainText("hello"))
    ];
    var s1 := Step(Initial, updates[0]).state;
    var s2 := Step(s1, updates[1]).state;
    var s3 := Step(s2, updates[2]).state;
    assert s3 == State(map[a.id := UserRecord(a.firstName, t)], 2);
    assert Run(Initial, updates) == Run(s1, updates[1..]) == Run(s2, updates[2..]) == Run(s3, []);
    assert |s3.users| == 1;
  }
}

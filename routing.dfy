/**
 * Inbound updates and the dispatcher's routing table (app.py:97-110).
 *
 * The client library decides whether a message is a command, which command,
 * and what its arguments are; the model starts from an update it has already
 * classified that way.
 */
module Routing {
  import opened Wrappers

  type UserId = int

  /** The date of a message, kept opaque: the model only stores and compares it. */
  type Timestamp = int

  /** `update.effective_user`: who sent the update. */
  datatype Sender = Sender(id: UserId, firstName: string)

  /** What a message carries: a command (name without the slash) and its arguments, plain text, or neither. */
  datatype Content =
    | Command(name: string, args: seq<string>)
    | PlainText(text: string)
    | NonText

  /**
   * One inbound update. `sender` is None when the update has no effective
   * user (a channel post, for one).
   */
  datatype Update = Update(sender: Option<Sender>, date: Timestamp, content: Content)

  /** The five handlers registered in `setup_dispatcher`. */
  datatype Handler = StartHandler | HelpHandler | StatsHandler | EchoHandler | MessageHandler

  /**
   * Which handler an update reaches, in registration order (app.py:102-108):
   * the four command handlers by name, then the handler for text that is not
   * a command. An unknown command is neither, so it reaches nothing.
   */
  function Route(c: Content): (r: Option<Handler>)
    ensures c.PlainText? <==> r == Some(MessageHandler)
    ensures c.NonText? ==> r == None
    ensures r.Some? && r.value != MessageHandler ==> c.Command?
  {
    match c
    case Command(name, _) =>
      if name == "start" then Some(StartHandler)
      else if name == "help" then Some(HelpHandler)
      else if name == "stats" then Some(StatsHandler)
      else if name == "echo" then Some(EchoHandler)
      else None
    case PlainText(_) => Some(MessageHandler)
    case NonText => None
  }

  /** The command a handler is registered for; the text handler has none. */
  function CommandName(h: Handler): Option<string>
  {
    match h
    case StartHandler => Some("start")
    case HelpHandler => Some("help")
    case StatsHandler => Some("stats")
    case EchoHandler => Some("echo")
    case MessageHandler => None
  }

  /** A command reaches a handler exactly when that handler is registered under the command's name. */
  lemma RouteCommandIff(name: string, args: seq<string>, h: Handler)
    ensures Route(Command(name, args)) == Some(h) <==> CommandName(h) == Some(name)
  {
  }

  /** A command no handler is registered for reaches no handler. */
  lemma RouteUnknownCommand(name: string, args: seq<string>)
    ensures Route(Command(name, args)) == None <==> forall h: Handler :: CommandName(h) != Some(name)
  {
    if Route(Command(name, args)).Some? {
      RouteCommandIff(name, args, Route(Command(name, args)).value);
    }
  }

  /** Different handlers are registered under different names, so routing is one-to-one. */
  lemma CommandNamesDistinct(h1: Handler, h2: Handler)
    requires CommandName(h1).Some? && CommandName(h1) == CommandName(h2)
    ensures h1 == h2
  {
  }
}

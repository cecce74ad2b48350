/**
 * The older command set, with speech and shutdown only, and how it relates
 * to the current one.
 */
module GameCommands {
  import opened Wrappers
  import opened Text
  import opened Persons
  import Messages
  import opened World
  import Commands

  datatype Command = Say(text: string) | Shutdown

  datatype ParserError = ParserError(msg: string)

  /** A line, trimmed, is `shutdown` or else spoken text; every line parses. */
  function Parse(s: string): (r: Result<Command, ParserError>)
    ensures r.Ok?
  {
    var t := Trim(s);
    if t == "shutdown" then Ok(Shutdown)
    else Ok(Say(t))
  }

  function Tag(c: Command): string {
    match c
    case Say(_) => "say"
    case Shutdown => "shutdown"
  }

  /** `shutdown` is recognised exactly when the trimmed line is that word. */
  lemma ParseShutdown(s: string)
    ensures Parse(s) == Ok(Shutdown) <==> Trim(s) == "shutdown"
  {
  }

  /** Everything else, `logout` included, is spoken text, trimmed. */
  lemma ParseSay(s: string)
    ensures Trim(s) != "shutdown" <==> Parse(s) == Ok(Say(Trim(s)))
    ensures Trim(s) == "logout" ==> Parse(s) == Ok(Say("logout"))
  {
  }

  /** Shutdown's tag parses back to Shutdown; speech of any kind is tagged "say". */
  lemma ParseTag(c: Command)
    ensures c.Shutdown? ==> Parse(Tag(c)) == Ok(Shutdown)
    ensures c.Say? <==> Tag(c) == "say"
  {
    TrimOfTrimmed("shutdown");
  }

  /** The command the current parser has for each of the old parser's commands. */
  function Upgrade(c: Command): (r: Commands.Command)
    ensures Commands.Tag(r) == Tag(c)
  {
    match c
    case Say(text) => Commands.Say(text)
    case Shutdown => Commands.Shutdown
  }

  /** The two parsers agree on every line except those that trim to `logout`. */
  lemma AgreesWithCurrentParser(s: string)
    ensures Trim(s) != "logout" ==> Commands.Parse(s).value == Upgrade(Parse(s).value)
    ensures Trim(s) == "logout" ==> Commands.Parse(s).value == Commands.Logout && Parse(s).value == Say("logout")
  {
  }

  /** Runs a command for person `id`, named `name`, in room `loc`: speech is one roomcast there. */
  method Run(cmd: Command, state: State, loc: RoomId, id: PersonId, name: string)
    requires state.Valid() && !state.halted
    modifies state
    ensures state.Valid()
    ensures cmd.Say? ==> (state.queues == Fanout(old(state.queues), Messages.Say(id, name, loc, cmd.text))
                          && state.halted == old(state.halted))
    ensures cmd.Shutdown? ==> state.halted && state.queues == old(state.queues)
    ensures state.nextId == old(state.nextId) && state.people == old(state.people) && state.peers == old(state.peers)
  {
    match cmd {
      case Say(text) => state.Roomcast(loc, Messages.Say(id, name, loc, text));
      case Shutdown => state.Shutdown();
    }
  }
}

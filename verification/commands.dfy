/** The commands a logged-in person can type: parsing a line, naming a command, running it. */
module Commands {
  import opened Wrappers
  import opened Text
  import opened Persons
  import Messages
  import opened World

  datatype Command = Logout | Say(text: string) | Shutdown

  /** The parser's error; the parser never produces one. */
  datatype ParserError = ParserError(msg: string)

  /**
   * A line, trimmed, is `shutdown`, `logout`, or else spoken text. The
   * parser is total: every line is some command.
   */
  function Parse(s: string): (r: Result<Command, ParserError>)
    ensures r.Ok?
  {
    var t := Trim(s);
    if t == "shutdown" then Ok(Shutdown)
    else if t == "logout" then Ok(Logout)
    else Ok(Say(t))
  }

  function Tag(c: Command): string {
    match c
    case Logout => "logout"
    case Say(_) => "say"
    case Shutdown => "shutdown"
  }

  /** `shutdown` is recognised exactly when the trimmed line is that word. */
  lemma ParseShutdown(s: string)
    ensures Parse(s) == Ok(Shutdown) <==> Trim(s) == "shutdown"
  {
  }

  /** `logout` is recognised exactly when the trimmed line is that word. */
  lemma ParseLogout(s: string)
    ensures Parse(s) == Ok(Logout) <==> Trim(s) == "logout"
  {
  }

  /** Any other line is spoken, trimmed; and the spoken text parses back to the same command. */
  lemma ParseSay(s: string)
    ensures Parse(s).value.Say? <==> Trim(s) != "shutdown" && Trim(s) != "logout"
    ensures Parse(s).value.Say? ==> Parse(s).value.text == Trim(s) && Parse(Parse(s).value.text) == Parse(s)
  {
    TrimIdempotent(s);
  }

  /** Whitespace around a line never changes the command it parses to. */
  lemma ParseIgnoresPadding(w1: string, s: string, w2: string)
    requires AllWhitespace(w1) && AllWhitespace(w2)
    ensures Parse(w1 + s + w2) == Parse(s)
  {
    TrimIgnoresPadding(w1, s, w2);
  }

  /** A padded line of speech is spoken without its padding. */
  lemma ParsePaddedExample()
    ensures Parse("  hello there  ") == Ok(Say("hello there"))
  {
    var w, t := "  ", "hello there";
    assert w + t + w == "  hello there  ";
    assert AllWhitespace(w);
    assert Trimmed(t);
    TrimOfTrimmed(t);
    ParseIgnoresPadding(w, t, w);
  }

  /** An empty line says nothing. */
  lemma ParseEmptyExample()
    ensures Parse("") == Ok(Say(""))
  {
  }

  /** The tag of a parsed line is "say" exactly for the lines that are not keywords. */
  lemma TagOfParse(s: string)
    ensures Tag(Parse(s).value) == "say" <==> Trim(s) != "shutdown" && Trim(s) != "logout"
  {
  }

  /** The tags of the two keyword commands are the keywords: they parse back to their command. */
  lemma ParseTag(c: Command)
    requires !c.Say?
    ensures Parse(Tag(c)) == Ok(c)
  {
    if c.Logout? {
      TrimOfTrimmed("logout");
    } else {
      TrimOfTrimmed("shutdown");
    }
  }

  /** What `p` saying `text` in room `loc` looks like as a message. */
  function Utterance(p: Person, loc: RoomId, text: string): (m: Messages.Message)
    ensures m.Say? && m.speaker == p.id && m.speakerName == p.name && m.loc == loc && m.text == text
  {
    Messages.Say(p.id, p.name, loc, text)
  }

  /**
   * Runs a command for `p`, who is in room `loc` (the room the server reads
   * from the person's session). Speech is one roomcast to that room;
   * logout and shutdown are handed to the store.
   */
  method Run(cmd: Command, state: State, p: Person, loc: RoomId)
    requires state.Valid() && !state.halted
    modifies state
    ensures state.Valid()
    ensures cmd.Say? ==> (state.queues == Fanout(old(state.queues), Utterance(p, loc, cmd.text))
                          && state.halted == old(state.halted))
    ensures cmd.Shutdown? ==> state.halted && state.queues == old(state.queues)
    ensures !cmd.Logout? ==> state.nextId == old(state.nextId) && state.people == old(state.people) && state.peers == old(state.peers)
  {
    match cmd {
      case Logout => state.Logout(p);
      case Say(text) => state.Roomcast(loc, Utterance(p, loc, text));
      case Shutdown => state.Shutdown();
    }
  }
}

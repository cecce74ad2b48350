# much: a Dafny model of the conference server's core

`much` is a small multi-user conference server. People connect over TCP, log
in or register, and then type lines that are parsed into commands. The
commands speak into a room, log out, or shut the server down. What they say
is fanned out to every message queue in the store, and each person gets it
as a line of text rendered for them.

This project models that core and proves properties of it:

- `text.dfy` (module `Text`): Rust's `str::trim`, which strips Unicode
  white space from both ends. Also the UTF-8 byte length that `str::len`
  counts.
- `persons.dfy` (module `Persons`): person and room identifiers, and the
  `Person` record.
- `messages.dfy` (module `Messages`): the `Message` enumeration and
  `render`, which gives the text one receiver sees.
- `world.dfy` (module `World`): the global `State` as a class with fields
  `nextId`, `people`, `peers` and `queues`, and its methods. A queue is the
  sending half of an unbounded channel: the messages sent and not yet taken,
  plus whether the receiver is gone, in which case every send fails.
- `commands.dfy` (module `Commands`): the current command parser, the
  command tags, and `run`.
- `game_commands.dfy` (module `GameCommands`): the older command set,
  speech and shutdown only, and how it relates to the current one.
- `login.dfy` (module `Login`): the `prompt` loop and the `login`
  dialogue. That covers the identifier prompt, three password attempts for
  a known user, and the registration loop for a newcomer.
  - A connection's input is a sequence of lines in which `None` stands for
    the end of the stream or a read error.
  - The dialogue is specified by functions over the trimmed lines.
  - The methods `Prompt`, `Login` and `Register` read and trim line by line,
    as the server does, and are proved equal to those functions.
  - The lines the server sends back are the `Reply` values. `Wording` gives
    their exact text.
- `config.dfy` (module `Config`): the configuration, its defaults, the
  verbosity chosen by the number of `-v` flags, the timeout parsed as a
  64-bit unsigned number, and the listener addresses.
- `wrappers.dfy` (module `Wrappers`): `Option` and `Result`.
- `sequences.dfy` (module `Sequences`): associativity of concatenation, used by several proofs.

## Model

| member | source | states |
|---|---|---|
| Text.IsWhitespace | src/world/command.rs:39 | the characters `trim` strips are those with Unicode's White_Space property, as `char::is_whitespace` tests |
| Text.Trim | src/world/command.rs:39 | `trim` is stripping the start and then the end; its properties are the rows below |
| Text.TrimStart | src/world/command.rs:39 | the result is no longer than the input and does not start with white space |
| Text.TrimEnd | src/world/command.rs:39 | the result is no longer than the input and does not end with white space |
| Text.TrimTrims | src/world/command.rs:39 | a trimmed string is no longer than the original and has white space at neither end |
| Text.TrimStartIsSuffix | src/world/command.rs:39 | trimming the start leaves a suffix of the input |
| Text.TrimEndIsPrefix | src/world/command.rs:39 | trimming the end leaves a prefix of the input |
| Text.TrimStartDropsWhitespace | src/world/command.rs:39 | what trimming the start removes is all white space |
| Text.TrimEndDropsWhitespace | src/world/command.rs:39 | what trimming the end removes is all white space |
| Text.TrimOfTrimmed | src/world/command.rs:39 | a string with white space at neither end is its own trim |
| Text.TrimIdempotent | src/lib.rs:324 | trimming twice is trimming once |
| Text.TrimStartAllWhitespace | src/world/command.rs:39 | an all-white-space string trims to empty |
| Text.TrimStartSkipsPrefix | src/world/command.rs:39 | a white-space prefix is removed by trimming the start |
| Text.TrimEndSkipsSuffix | src/world/command.rs:39 | a white-space suffix is removed by trimming the end |
| Text.TrimStartKeepsSuffix | src/world/command.rs:39 | once a string keeps something after trimming its start, anything appended to it is kept whole |
| Text.AllWhitespaceAppend | src/world/command.rs:39 | two white-space strings joined are white space |
| Text.TrimIgnoresSuffix | src/world/command.rs:39 | appending white space does not change the trim |
| Text.TrimIgnoresPrefixAndSuffix | src/world/command.rs:39 | white space added at both ends does not change the trim |
| Text.TrimIgnoresPadding | src/world/command.rs:39 | white space on either side never changes the trimmed line |
| Text.Utf8Len | src/lib.rs:403 | the byte length counted by `len` is between one and four bytes per character |
| Text.Utf8LenAscii | src/lib.rs:403 | for ASCII text the byte length counted by `len` equals the number of characters |
| Messages.Render | src/world/message.rs:30-45 | a message renders empty exactly when it is an arrival or departure shown to its own subject |
| Messages.Subject | src/world/message.rs:6-27 | only the logout message is about nobody |
| Messages.SelfSuppressed | src/world/message.rs:33-36 | an arrival or departure renders empty exactly for the person it is about |
| Messages.AnnouncesName | src/world/message.rs:34-36 | others see the name followed by " arrived." or " left." |
| Messages.ArriveDistinctFromDepart | src/world/message.rs:34-36 | to anyone but its subject, an arrival never renders like the matching departure |
| Messages.LogoutUniform | src/world/message.rs:37 | a logout renders as "You have logged out." to every receiver |
| Messages.SayPrefix | src/world/message.rs:38-43 | the speaker sees "You say, '"; everyone else sees the speaker's name and " says, '" |
| Messages.SayEndsWithText | src/world/message.rs:38-43 | every rendering of speech ends with the text and a closing quote |
| Messages.SayTextDetermined | src/world/message.rs:38-43 | two different texts never render alike for the same receiver |
| Messages.LocIrrelevant | src/world/message.rs:32-44 | the room never shows in the rendered text |
| Messages.SameForOthers | src/world/message.rs:32-44 | every receiver other than the subject sees the same text |
| World.Send | src/world/state.rs:79 | a send appends the message to an open queue and leaves a closed queue unchanged |
| World.Fanout | src/world/state.rs:78-80 | a fan-out keeps the same set of queues |
| World.FanoutDelivers | src/world/state.rs:78-80 | a fan-out appends the message once to every open queue and leaves closed ones alone, so one failed send never stops the others |
| World.FanoutInOrder | src/world/state.rs:75-81 | successive fan-outs reach each open queue in the order they were made |
| World.State.constructor | src/world/state.rs:25-32 | a new state has counter 0 and no people, peers or queues |
| World.State.Shutdown | src/world/state.rs:34-37 | shutdown halts and changes nothing else; every method that changes the store requires one that has not halted, so nothing runs after it |
| World.State.FreshId | src/world/state.rs:39-43 | the id returned is the old counter, the counter goes up by one, and no registered person has that id |
| World.State.NewPerson | src/world/state.rs:45-55 | the person is filed under a fresh id that was not in use, and no other entry changes |
| World.State.GetPerson | src/world/state.rs:57-60 | the person returned is the registered one and carries the id asked for |
| World.State.RegisterTcpConnection | src/world/state.rs:62-65 | the TCP peer maps to the id and the id's queue is the one given, replacing any earlier one |
| World.State.UnregisterTcpConnection | src/world/state.rs:67-72 | only that TCP peer is removed, the person's queue stays, and the peer must be registered |
| World.State.Broadcast | src/world/state.rs:75-81 | every queue gets one send of the message and nothing else changes |
| World.State.Roomcast | src/world/state.rs:84-103 | the effect is the same fan-out to every queue as a broadcast, whatever the room |
| World.State.Logout | src/world/command.rs:66 | the store stays consistent |
| Commands.Parse | src/world/command.rs:38-50 | parsing never fails |
| Commands.ParseShutdown | src/world/command.rs:41-42 | a line is `Shutdown` exactly when it trims to "shutdown" |
| Commands.ParseLogout | src/world/command.rs:43-44 | a line is `Logout` exactly when it trims to "logout" |
| Commands.ParseSay | src/world/command.rs:45-49 | every other line is speech of its trimmed text, and that text parses back to the same command |
| Commands.ParseIgnoresPadding | src/world/command.rs:39 | white space around a line never changes its command |
| Commands.ParsePaddedExample | src/world/command.rs:39-49 | "  hello there  " is speech of "hello there" |
| Commands.ParseEmptyExample | src/world/command.rs:45-49 | an empty line is speech of the empty text |
| Commands.Tag | src/world/command.rs:52-58 | each command's tag: "logout", "say" or "shutdown" |
| Commands.TagOfParse | src/world/command.rs:52-58 | a parsed line is tagged "say" exactly when it is not a keyword |
| Commands.ParseTag | src/world/command.rs:52-58 | the tags of `Logout` and `Shutdown` parse back to those commands |
| Commands.Run | src/world/command.rs:65-83 | speech is one fan-out of a `Say` carrying the person's id and name, the room and the text; shutdown halts with queues untouched; only logout may change people or peers |
| GameCommands.Parse | src/game/command.rs:38-48 | parsing never fails |
| GameCommands.ParseShutdown | src/game/command.rs:41-42 | a line is `Shutdown` exactly when it trims to "shutdown" |
| GameCommands.ParseSay | src/game/command.rs:43-47 | every other line, "logout" included, is speech of its trimmed text |
| GameCommands.Tag | src/game/command.rs:50-55 | each old command's tag: "say" or "shutdown" |
| GameCommands.ParseTag | src/game/command.rs:50-55 | the shutdown tag parses back to `Shutdown`; exactly speech is tagged "say" |
| GameCommands.Upgrade | src/game/command.rs:50-55 | each old command maps to a current command with the same tag |
| GameCommands.AgreesWithCurrentParser | src/game/command.rs:38-48 | the two parsers agree on every line except one that trims to "logout" |
| GameCommands.Run | src/game/command.rs:62-79 | speech is one fan-out to the queues, shutdown halts, and the counter, people and peers never change |
| Login.TrimLinesTrimmed | src/lib.rs:324 | every line the dialogue sees has white space at neither end |
| Login.TrimLinesIdempotent | src/lib.rs:324 | trimming on read is idempotent: already-trimmed lines are seen unchanged |
| Login.Wording | src/lib.rs:349-419 | the nine texts the dialogue sends, word for word |
| Login.WordingDistinct | src/lib.rs:349-419 | no two different replies have the same text |
| Login.PromptLoop | src/lib.rs:305-340 | a prompt only reads forward, and a line it accepts was read |
| Login.PromptAcceptsFirstValid | src/lib.rs:319-328 | after rejected lines, the first valid line is returned trimmed and nothing after it is read; the prompt went out once more than the reprompt |
| Login.PromptGivesUp | src/lib.rs:330-333 | when `check_tries` refuses the new count, its error is the result and no reprompt follows |
| Login.PromptStreamEnds | src/lib.rs:337 | the end of the stream or a read error gives the abort error |
| Login.PromptOkSound | src/lib.rs:319-334 | a returned line is valid, is the last line read, and every earlier line was rejected |
| Login.PromptErrSound | src/lib.rs:331-337 | a prompt fails only with the abort error or an error `check_tries` gave for a higher count |
| Login.PromptRound | src/lib.rs:320-337 | one round of the loop either ends the prompt with its outcome or sends the reprompt and moves on one line with one more try |
| Login.Prompt | src/lib.rs:305-340 | the loop with its mutable try counter gives the result, next position and replies of the prompt specification |
| Login.FirstPassword | src/lib.rs:399-412 | the registration password prompt only reads forward |
| Login.Registration | src/lib.rs:394-434 | registration only reads forward |
| Login.Identifier | src/lib.rs:349-357 | the identifier prompt reads within the input |
| Login.Password | src/lib.rs:366-390 | the password prompt only reads forward |
| Login.LoginDialogue | src/lib.rs:342-436 | the dialogue reads within the input |
| Login.ValidIdentifier | src/lib.rs:353 | an identifier is accepted when it is non-empty and contains '@' |
| Login.ValidPassword | src/lib.rs:403 | a new password is accepted when its UTF-8 encoding is at least 8 bytes |
| Login.Unlimited | src/lib.rs:354 | the identifier and new-password prompts never stop on a count of tries |
| Login.AttemptLimit | src/lib.rs:373-382 | the password prompt stops with TooManyAttempts, naming the identifier, once the count reaches 3 |
| Login.Verifies | src/lib.rs:370-372 | a password attempt is accepted when it verifies against the stored hash |
| Login.IdentifierRepromptsWithoutLimit | src/lib.rs:349-357 | any number of invalid identifiers is reprompted; the first valid one is taken |
| Login.PasswordWithinThree | src/lib.rs:366-390 | a password that verifies at the first, second or third attempt is accepted, and nothing more is read |
| Login.PasswordThreeStrikes | src/lib.rs:373-381 | three wrong passwords end with TooManyAttempts after five replies, with no reprompt after the third |
| Login.PasswordOkWithinThree | src/lib.rs:366-390 | an accepted password verifies and was one of the first three attempts |
| Login.RegistrationSound | src/lib.rs:394-434 | a completed registration registers the identifier with a password of at least 8 bytes, which the last line read confirmed |
| Login.RegistrationReadsOnlyLines | src/lib.rs:394-434 | a completed registration never read past the end of the stream |
| Login.RegistrationCompletes | src/lib.rs:414-425 | a matching confirmation completes registration with the accepted password |
| Login.RegistrationRestarts | src/lib.rs:416-421 | a mismatched confirmation sends "Passwords don't match." and starts over at the next line |
| Login.RegistrationErrSound | src/lib.rs:405-432 | registration fails only with the reset error naming the identifier |
| Login.LoginSound | src/lib.rs:342-436 | a successful login has a valid identifier; it logs in exactly the known users, as their account and with a verified password; anyone else is registered with a valid, confirmed password |
| Login.LoginReadsOnlyLines | src/lib.rs:342-436 | a successful login never read past the end of the stream |
| Login.LoginErrSound | src/lib.rs:349-436 | a login fails with the reset error, naming the identifier once one was accepted, or with TooManyAttempts for a known identifier only |
| Login.FirstTryLogin | src/lib.rs:349-392 | a known user whose first password verifies is logged in after two lines and two prompts |
| Login.FirstTryLoginExample | tests/tcp.rs:42-47 | "@a" with password "aaaaaaaa" is logged in, and the "shutdown" line after it is not read by the login |
| Login.ValidPasswordAscii | src/lib.rs:402-403 | for ASCII passwords "at least 8 bytes" is "at least 8 characters" |
| Login.ShortNonAsciiPassword | src/lib.rs:402-403 | a 4-character non-ASCII password passes the length check |
| Login.Login | src/lib.rs:342-436 | the method gives the verdict, next position and replies of the dialogue specification |
| Login.RegisterRound | src/lib.rs:394-434 | one round of registration either ends it with its outcome or starts it over further on |
| Login.Register | src/lib.rs:394-434 | the registration loop gives the outcome of the registration specification |
| Config.Default | src/lib.rs:54-63 | no timeout, address "0.0.0.0", TCP port "4000", HTTP port "4080", level Info |
| Config.VerbosityLevel | src/lib.rs:119-123 | no flag gives Info, one gives Debug, two or more give Trace |
| Config.VerbosityMonotone | src/lib.rs:119-123 | more `-v` flags never make logging quieter |
| Config.ParseU64 | src/lib.rs:117 | a parsed timeout fits in 64 bits and comes from a string starting with a digit or '+' |
| Config.ParseShow | src/lib.rs:117 | every 64-bit number written in decimal parses back to itself |
| Config.ForeverIsNoTimeout | src/lib.rs:74-81 | the default "forever" means no timeout |
| Config.FromArgs | src/lib.rs:114-131 | the address and ports are taken as given; the timeout is the 64-bit parse of its text (none when it does not parse); the level is the one chosen by the number of `-v` flags |
| Config.DefaultArgs | src/lib.rs:54-63 | the option defaults give the default configuration |
| Config.TcpAddr | src/lib.rs:134-136 | the TCP listener's address is the interface address, a colon and the TCP port |
| Config.HttpAddr | src/lib.rs:138-140 | the HTTP listener's address is the interface address, a colon and the HTTP port |
| Config.TcpAddrParts | src/lib.rs:134-136 | the TCP address splits at its last colon into the configured address and TCP port |
| Config.HttpAddrParts | src/lib.rs:138-140 | the HTTP address splits at its last colon into the configured address and HTTP port |
| Config.ListenersDistinct | src/lib.rs:134-140 | the two listener addresses coincide exactly when the ports do |
| Config.DefaultAddrs | src/lib.rs:134-140 | by default the listeners are "0.0.0.0:4000" and "0.0.0.0:4080", which differ |

## Left out

- World.State.FreshId: ids are unbounded naturals. The 64-bit counter's overflow is not modelled, because it would take 2^64 registrations.
- World.State.Logout: the store's `logout` is called by `run`, but it is not defined in the state that is modelled. Its method has an empty body and promises only that the store stays consistent.
- World.State.Shutdown: exiting the process is modelled as setting the `halted` flag. Every method that changes the store, and both `Run`s, require a store that has not halted; so nothing can run after it, as nothing does after `exit`.
- World.State.Logout: it promises that the store has not halted, because forcing one person out does not end the process.
- World.State.Broadcast: the queues live in a map, so two people sharing one channel (aliasing) is not modelled. Nor is the receiving half taking messages.
- GameCommands.Run: the older `run` works on the older game store, which is not part of this model. It is modelled on `World.State`, so its roomcast is World's: one send to every queue, whatever the room. The "one fan-out" it promises rests on that stand-in.
- World.State.GetPerson: the code panics (`assert!`) when no person has the id. The model excludes that case by its precondition, so the panic path is not modelled.
- World.State.UnregisterTcpConnection: the code panics (`assert!`) when the peer is not registered. The model excludes that case by its precondition, so the panic path is not modelled.
- World.State.Roomcast: its `None` branch only writes a log line, and it cannot happen because every key has a queue. The model keeps the branch.
- The rooms module is not part of this model. Room ids are naturals, and the room a person is in is passed to `Commands.Run` as a parameter.
- Locking: every method of `World.State` is one critical section. The lock, the async runtime, and the `process` loop that calls `login` and then runs commands are not modelled.
- The HTTP side (the HTTP server and sessions) is not modelled. Its connections exist only as the `HTTP` variant of `World.Connection`.
- Login.Login: sending a reply can fail, and the `?` would then end the login with that I/O error. That is not modelled; the replies are a returned sequence of `Reply` values.
- Login.Login: reading a line is reading the next element of the input. `None` stands for both the end of the stream and a read error, because the code treats them alike.
- Login.Login: the argon2 check of a password against the stored hash is the `verify` parameter. The code maps an argon2 error to "does not verify".
- Login.Login: the store's lookup by name is the `lookup` parameter.
- Login.Login: on registration the code creates the person, with the password, in the game's store; the login returns `Registered(name, password)` for the caller to store. That store's `new_person` takes a password and is not part of this model.
- Login.Login: `Person::new(&person, conn)` is not modelled. A login returns the account found or the registration verdict.
- Login.Login: the server's welcome text after login is sent by the `process` loop, which is not modelled.
- `PasswordsDontMatchError` is never constructed: a mismatch starts registration over. So it has no counterpart in `Login.LoginError`.
- Login.ValidPassword: the code counts UTF-8 bytes (`len`) while the reprompt says "characters". The model follows the code; `Login.ShortNonAsciiPassword` shows a case where they differ.
- The `Display` texts of the error types are not modelled; the error values carry the same fields.
- Config.FromArgs: reading the arguments with clap is not modelled. The function takes the option values clap hands over, and the number of `-v` flags.
- Tracing spans and log lines are not modelled.

/**
 * The login and registration dialogue a TCP connection goes through before
 * it may issue commands. The connection is modelled by what it reads, a
 * sequence of lines in which `None` stands for the end of the stream or a
 * read error, read from a position that only moves forward, and by the
 * replies it sends back. The dialogue is specified by functions over the
 * trimmed lines and carried out by methods that read and trim line by line,
 * as the server does.
 */
module Login {
  import opened Wrappers
  import opened Text
  import opened Sequences
  import opened Persons
  import opened World

  /** What a connection reads: a line, or `None` when the stream ended or failed. Past the end, the stream has ended. */
  type Input = seq<Option<string>>

  /**
   * Every line as the dialogue uses it: passed through `trim` as soon as it
   * is read. The dialogue functions below take these trimmed lines.
   */
  function TrimLines(input: Input): (lines: Input)
    ensures |lines| == |input|
    ensures forall i :: 0 <= i < |input| ==> lines[i] == if input[i].Some? then Some(Trim(input[i].value)) else None
  {
    seq(|input|, i requires 0 <= i < |input| => if input[i].Some? then Some(Trim(input[i].value)) else None)
  }

  /** Every line the dialogue sees has white space at neither end. */
  lemma TrimLinesTrimmed(input: Input)
    ensures forall i :: 0 <= i < |input| && TrimLines(input)[i].Some? ==> Trimmed(TrimLines(input)[i].value)
  {
    forall i | 0 <= i < |input| && input[i].Some?
      ensures Trimmed(Trim(input[i].value))
    {
      TrimTrims(input[i].value);
    }
  }

  /** Trimming on read is idempotent: lines that were already trimmed are seen unchanged. */
  lemma TrimLinesIdempotent(input: Input)
    ensures TrimLines(TrimLines(input)) == TrimLines(input)
  {
    var lines := TrimLines(input);
    forall i | 0 <= i < |input| && input[i].Some?
      ensures Trim(Trim(input[i].value)) == Trim(input[i].value)
    {
      TrimIdempotent(input[i].value);
    }
    assert forall i :: 0 <= i < |lines| ==> TrimLines(lines)[i] == lines[i];
  }

  datatype LoginError =
    /** The connection was reset while logging in; `name` once an identifier is known. */
    | Aborted(addr: SocketAddr, name: Option<string>)
    /** A known user got the password wrong three times. */
    | TooManyAttempts(addr: SocketAddr, who: string)

  /** A registered user as the store's lookup by name returns it; `password` is the stored encoded hash. */
  datatype Account = Account(id: PersonId, name: string, password: string)

  /** How a login ends well: as a known user, or as a newcomer to be registered with this password. */
  datatype Verdict =
    | LoggedIn(name: string, account: Account)
    | Registered(name: string, password: string)

  /** A line the server sends while logging a connection in. */
  datatype Reply =
    | IdentifierPrompt | IdentifierReprompt
    | PasswordPrompt | PasswordReprompt
    | NewHere | NewPasswordPrompt | NewPasswordReprompt | ConfirmPrompt | Mismatch

  /** The text of each reply, word for word. */
  function Wording(r: Reply): string {
    match r
    case IdentifierPrompt => "What is your email address or Twitter handle? "
    case IdentifierReprompt => "Please enter a valid email address or Twitter handle."
    case PasswordPrompt => "Password: "
    case PasswordReprompt => "Password incorrect."
    case NewHere => "You must be new here!"
    case NewPasswordPrompt => "Please enter a password: "
    case NewPasswordReprompt => "That is not a valid password. It should be at least 8 characters."
    case ConfirmPrompt => "Please re-enter your password: "
    case Mismatch => "Passwords don't match."
  }

  /** The length of each reply's text, in characters. */
  function WordingLength(r: Reply): nat {
    match r
    case IdentifierPrompt => 46
    case IdentifierReprompt => 53
    case PasswordPrompt => 10
    case PasswordReprompt => 19
    case NewHere => 21
    case NewPasswordPrompt => 25
    case NewPasswordReprompt => 65
    case ConfirmPrompt => 31
    case Mismatch => 22
  }

  lemma WordingHasLength(r: Reply)
    ensures |Wording(r)| == WordingLength(r)
  {
    match r {
      case IdentifierPrompt =>
      case IdentifierReprompt =>
      case PasswordPrompt =>
      case PasswordReprompt =>
      case NewHere =>
      case NewPasswordPrompt =>
      case NewPasswordReprompt =>
      case ConfirmPrompt =>
      case Mismatch =>
    }
  }

  /** The replies are told apart by their text alone. */
  lemma WordingDistinct(a: Reply, b: Reply)
    ensures Wording(a) == Wording(b) <==> a == b
  {
    WordingHasLength(a);
    WordingHasLength(b);
  }

  /** The number of password attempts a known user gets. */
  const MaxPasswordAttempts := 3

  // ---------------------------------------------------------------------------
  // One prompt

  /** What one prompt ends with: the accepted line or an error, the next read position, the lines sent. */
  datatype Prompted = Prompted(result: Result<string, LoginError>, next: nat, sent: seq<Reply>)

  /** A prompt's outcome with `sent` sent before it. */
  function Then(sent: seq<Reply>, p: Prompted): (r: Prompted)
    ensures r.result == p.result && r.next == p.next && |r.sent| == |sent| + |p.sent|
  {
    Prompted(p.result, p.next, sent + p.sent)
  }

  /** Sending `a` and then `b` before a prompt is sending `a + b` before it. */
  lemma ThenThen(a: seq<Reply>, b: seq<Reply>, p: Prompted)
    ensures Then(a, Then(b, p)) == Then(a + b, p)
  {
    Reassociate(a, b, p.sent);
  }

  /** `k` rounds of a prompt followed by its reprompt. */
  function Rounds(prompt: Reply, reprompt: Reply, k: nat): (r: seq<Reply>)
    ensures |r| == 2 * k
  {
    if k == 0 then [] else [prompt, reprompt] + Rounds(prompt, reprompt, k - 1)
  }

  /**
   * The prompt loop over trimmed lines, at read position `pos`, after
   * `tries` invalid lines: send the prompt, take a line, return it if valid;
   * otherwise count it, stop with the error `checkTries` gives for the new
   * count if it gives one, and else send the reprompt and go round again.
   * The end of the stream, or a read error, gives the `abort` error.
   */
  function PromptLoop(lines: Input, pos: nat, prompt: Reply, reprompt: Reply, valid: string -> bool,
                      checkTries: nat -> Option<LoginError>, abort: LoginError, tries: nat): (p: Prompted)
    requires pos <= |lines|
    ensures pos <= p.next <= |lines|
    ensures p.result.Ok? ==> pos < p.next
    decreases |lines| - pos
  {
    if pos == |lines| then Prompted(Err(abort), pos, [prompt])
    else if lines[pos].None? then Prompted(Err(abort), pos + 1, [prompt])
    else
      var line := lines[pos].value;
      if valid(line) then Prompted(Ok(line), pos + 1, [prompt])
      else match checkTries(tries + 1)
        case Some(e) => Prompted(Err(e), pos + 1, [prompt])
        case None => Then([prompt, reprompt], PromptLoop(lines, pos + 1, prompt, reprompt, valid, checkTries, abort, tries + 1))
  }

  /** A line the prompt loop accepts. */
  predicate Accepts(line: Option<string>, valid: string -> bool) {
    line.Some? && valid(line.value)
  }

  /**
   * The lines from `from` up to `to` are all rejected and the loop goes on
   * after each: each is a real line, invalid, and `checkTries` lets the
   * count it brings pass.
   */
  predicate Rejects(lines: Input, from: nat, to: nat, valid: string -> bool, checkTries: nat -> Option<LoginError>, tries: nat)
    requires from <= to <= |lines|
  {
    forall j :: from <= j < to ==>
      lines[j].Some? && !valid(lines[j].value) && checkTries(tries + (j - from) + 1).None?
  }

  /** One rejected line: the loop sends the prompt and the reprompt and goes on at the next position with one more try. */
  lemma PromptLoopStep(lines: Input, pos: nat, prompt: Reply, reprompt: Reply, valid: string -> bool,
                       checkTries: nat -> Option<LoginError>, abort: LoginError, tries: nat)
    requires pos < |lines|
    requires lines[pos].Some? && !valid(lines[pos].value) && checkTries(tries + 1).None?
    ensures PromptLoop(lines, pos, prompt, reprompt, valid, checkTries, abort, tries)
         == Then([prompt, reprompt], PromptLoop(lines, pos + 1, prompt, reprompt, valid, checkTries, abort, tries + 1))
  {
  }

  /** The first of the lines from `from` to `to` is rejected, and the rest are rejected from one more try. */
  lemma RejectsFirst(lines: Input, from: nat, to: nat, valid: string -> bool, checkTries: nat -> Option<LoginError>, tries: nat)
    requires from < to <= |lines|
    requires Rejects(lines, from, to, valid, checkTries, tries)
    ensures lines[from].Some? && !valid(lines[from].value) && checkTries(tries + 1).None?
    ensures Rejects(lines, from + 1, to, valid, checkTries, tries + 1)
  {
    assert tries + (from - from) + 1 == tries + 1;
  }

  /** A line rejected at `from`, followed by rejected lines from one more try, makes a rejected run. */
  lemma RejectsCons(lines: Input, from: nat, to: nat, valid: string -> bool, checkTries: nat -> Option<LoginError>, tries: nat)
    requires from < to <= |lines|
    requires lines[from].Some? && !valid(lines[from].value) && checkTries(tries + 1).None?
    requires Rejects(lines, from + 1, to, valid, checkTries, tries + 1)
    ensures Rejects(lines, from, to, valid, checkTries, tries)
  {
    forall j | from <= j < to
      ensures lines[j].Some? && !valid(lines[j].value) && checkTries(tries + (j - from) + 1).None?
    {
      if j > from {
        assert tries + 1 + (j - (from + 1)) + 1 == tries + (j - from) + 1;
      }
    }
  }

  /** One more round before the last prompt. */
  lemma RoundsThen(prompt: Reply, reprompt: Reply, k: nat)
    requires k > 0
    ensures Rounds(prompt, reprompt, k) + [prompt] == [prompt, reprompt] + (Rounds(prompt, reprompt, k - 1) + [prompt])
  {
    Reassociate([prompt, reprompt], Rounds(prompt, reprompt, k - 1), [prompt]);
  }

  /**
   * After the rejected lines from `pos` to `k`, the first valid line, at
   * `k`, is returned trimmed and nothing after it is read; the prompt went
   * out once more than the reprompt.
   */
  lemma {:induction false} PromptAcceptsFirstValid(lines: Input, pos: nat, prompt: Reply, reprompt: Reply, valid: string -> bool,
                                                   checkTries: nat -> Option<LoginError>, abort: LoginError, tries: nat, k: nat)
    requires pos <= k < |lines|
    requires Rejects(lines, pos, k, valid, checkTries, tries)
    requires Accepts(lines[k], valid)
    ensures PromptLoop(lines, pos, prompt, reprompt, valid, checkTries, abort, tries)
         == Prompted(Ok(lines[k].value), k + 1, Rounds(prompt, reprompt, k - pos) + [prompt])
    decreases k - pos
  {
    if pos < k {
      RejectsFirst(lines, pos, k, valid, checkTries, tries);
      PromptLoopStep(lines, pos, prompt, reprompt, valid, checkTries, abort, tries);
      PromptAcceptsFirstValid(lines, pos + 1, prompt, reprompt, valid, checkTries, abort, tries + 1, k);
      RoundsThen(prompt, reprompt, k - pos);
    } else {
      assert Rounds(prompt, reprompt, 0) + [prompt] == [prompt];
    }
  }

  /**
   * When `checkTries` refuses the count brought by the invalid line at `k`,
   * its error is the result, and no reprompt follows that line.
   */
  lemma {:induction false} PromptGivesUp(lines: Input, pos: nat, prompt: Reply, reprompt: Reply, valid: string -> bool,
                                         checkTries: nat -> Option<LoginError>, abort: LoginError, tries: nat, k: nat)
    requires pos <= k < |lines|
    requires Rejects(lines, pos, k, valid, checkTries, tries)
    requires lines[k].Some? && !valid(lines[k].value) && checkTries(tries + (k - pos) + 1).Some?
    ensures PromptLoop(lines, pos, prompt, reprompt, valid, checkTries, abort, tries)
         == Prompted(Err(checkTries(tries + (k - pos) + 1).value), k + 1, Rounds(prompt, reprompt, k - pos) + [prompt])
    decreases k - pos
  {
    if pos < k {
      RejectsFirst(lines, pos, k, valid, checkTries, tries);
      PromptLoopStep(lines, pos, prompt, reprompt, valid, checkTries, abort, tries);
      assert tries + 1 + (k - (pos + 1)) + 1 == tries + (k - pos) + 1;
      PromptGivesUp(lines, pos + 1, prompt, reprompt, valid, checkTries, abort, tries + 1, k);
      RoundsThen(prompt, reprompt, k - pos);
    } else {
      assert Rounds(prompt, reprompt, 0) + [prompt] == [prompt];
    }
  }

  /** When the stream ends or fails at `k`, after rejected lines only, the result is the caller's abort error. */
  lemma {:induction false} PromptStreamEnds(lines: Input, pos: nat, prompt: Reply, reprompt: Reply, valid: string -> bool,
                                            checkTries: nat -> Option<LoginError>, abort: LoginError, tries: nat, k: nat)
    requires pos <= k <= |lines|
    requires Rejects(lines, pos, k, valid, checkTries, tries)
    requires k == |lines| || lines[k].None?
    ensures var p := PromptLoop(lines, pos, prompt, reprompt, valid, checkTries, abort, tries);
      p.result == Err(abort) && p.sent == Rounds(prompt, reprompt, k - pos) + [prompt]
    decreases k - pos
  {
    if pos < k {
      RejectsFirst(lines, pos, k, valid, checkTries, tries);
      PromptLoopStep(lines, pos, prompt, reprompt, valid, checkTries, abort, tries);
      PromptStreamEnds(lines, pos + 1, prompt, reprompt, valid, checkTries, abort, tries + 1, k);
      RoundsThen(prompt, reprompt, k - pos);
    } else {
      assert Rounds(prompt, reprompt, 0) + [prompt] == [prompt];
    }
  }

  /**
   * Conversely, a line the prompt loop returns is the trimmed form of the
   * last line it read, it is valid, and every line read before it was a
   * real line that was rejected.
   */
  lemma {:induction false} PromptOkSound(lines: Input, pos: nat, prompt: Reply, reprompt: Reply, valid: string -> bool,
                                         checkTries: nat -> Option<LoginError>, abort: LoginError, tries: nat)
    requires pos <= |lines|
    requires PromptLoop(lines, pos, prompt, reprompt, valid, checkTries, abort, tries).result.Ok?
    ensures var p := PromptLoop(lines, pos, prompt, reprompt, valid, checkTries, abort, tries);
      && pos < p.next
      && Accepts(lines[p.next - 1], valid)
      && p.result.value == lines[p.next - 1].value
      && Rejects(lines, pos, p.next - 1, valid, checkTries, tries)
    decreases |lines| - pos
  {
    var p := PromptLoop(lines, pos, prompt, reprompt, valid, checkTries, abort, tries);
    if valid(lines[pos].value) {
      assert p.next == pos + 1;
    } else {
      PromptLoopStep(lines, pos, prompt, reprompt, valid, checkTries, abort, tries);
      PromptOkSound(lines, pos + 1, prompt, reprompt, valid, checkTries, abort, tries + 1);
      RejectsCons(lines, pos, p.next - 1, valid, checkTries, tries);
    }
  }

  /**
   * One round of the prompt loop: send the prompt, read a line and trim it.
   * `done` when the round ends the loop, with its outcome; otherwise the
   * line was rejected, the reprompt went out, and the loop goes on at
   * `next` with one more try.
   */
  method PromptRound(input: Input, pos: nat, prompt: Reply, reprompt: Reply, valid: string -> bool,
                     checkTries: nat -> Option<LoginError>, abort: LoginError, tries: nat)
    returns (done: bool, result: Result<string, LoginError>, next: nat, round: seq<Reply>)
    requires pos <= |input|
    ensures pos <= next <= |input|
    ensures done ==> PromptLoop(TrimLines(input), pos, prompt, reprompt, valid, checkTries, abort, tries) == Prompted(result, next, round)
    ensures !done ==> next == pos + 1 && round == [prompt, reprompt]
    ensures !done ==> (PromptLoop(TrimLines(input), pos, prompt, reprompt, valid, checkTries, abort, tries)
                       == Then(round, PromptLoop(TrimLines(input), next, prompt, reprompt, valid, checkTries, abort, tries + 1)))
  {
    ghost var lines := TrimLines(input);
    done, round := true, [prompt];
    if pos == |input| || input[pos].None? {
      result := Err(abort);
      next := if pos == |input| then pos else pos + 1;
      return;
    }
    var line := Trim(input[pos].value);
    assert lines[pos] == Some(line);
    next := pos + 1;
    if valid(line) {
      result := Ok(line);
      return;
    }
    var error := checkTries(tries + 1);
    if error.Some? {
      result := Err(error.value);
      return;
    }
    round := round + [reprompt];
    done, result := false, Err(abort);
    PromptLoopStep(lines, pos, prompt, reprompt, valid, checkTries, abort, tries);
  }

  /**
   * `prompt` with a mutable try counter, as the server runs it: the result,
   * the next read position and the lines sent are those of PromptLoop over
   * the trimmed lines, from zero tries.
   */
  method Prompt(input: Input, start: nat, prompt: Reply, reprompt: Reply, valid: string -> bool,
                checkTries: nat -> Option<LoginError>, abort: LoginError)
    returns (result: Result<string, LoginError>, pos: nat, sent: seq<Reply>)
    requires start <= |input|
    ensures Prompted(result, pos, sent) == PromptLoop(TrimLines(input), start, prompt, reprompt, valid, checkTries, abort, 0)
  {
    ghost var lines := TrimLines(input);
    var numTries := 0;
    pos, sent := start, [];
    while true
      invariant start <= pos <= |input|
      invariant PromptLoop(lines, start, prompt, reprompt, valid, checkTries, abort, 0)
             == Then(sent, PromptLoop(lines, pos, prompt, reprompt, valid, checkTries, abort, numTries))
      decreases |input| - pos
    {
      var done, outcome, next, round := PromptRound(input, pos, prompt, reprompt, valid, checkTries, abort, numTries);
      if done {
        result, pos, sent := outcome, next, sent + round;
        return;
      }
      ThenThen(sent, round, PromptLoop(lines, next, prompt, reprompt, valid, checkTries, abort, numTries + 1));
      pos, sent, numTries := next, sent + round, numTries + 1;
    }
  }

  // ---------------------------------------------------------------------------
  // The login dialogue

  /** An identifier is accepted when it is non-empty and contains an '@'. */
  predicate ValidIdentifier(name: string) {
    name != [] && '@' in name
  }

  /** A new password must be at least 8 bytes long in UTF-8. */
  predicate ValidPassword(password: string) {
    Utf8Len(password) >= 8
  }

  /** Identifiers and new passwords may be retried without limit. */
  function Unlimited(tries: nat): Option<LoginError> {
    None
  }

  /** A known user's password prompt stops with TooManyAttempts at the third failure. */
  function AttemptLimit(addr: SocketAddr, name: string): nat -> Option<LoginError> {
    tries => if tries >= MaxPasswordAttempts then Some(TooManyAttempts(addr, name)) else None
  }

  /**
   * A candidate password is valid when it verifies against the stored hash;
   * `verify` stands for the hash check, with a malformed hash counting as a
   * mismatch.
   */
  function Verifies(verify: (string, string) -> bool, stored: string): string -> bool {
    candidate => verify(stored, candidate)
  }

  /** What a login ends with: a verdict or an error, the next read position, the lines sent. */
  datatype LoginRun = LoginRun(result: Result<Verdict, LoginError>, next: nat, sent: seq<Reply>)

  /** A login's outcome with `sent` sent before it. */
  function ThenRun(sent: seq<Reply>, r: LoginRun): (r': LoginRun)
    ensures r'.result == r.result && r'.next == r.next && |r'.sent| == |sent| + |r.sent|
  {
    LoginRun(r.result, r.next, sent + r.sent)
  }

  /** The first-password prompt of registration. */
  function FirstPassword(addr: SocketAddr, name: string, lines: Input, pos: nat): (p: Prompted)
    requires pos <= |lines|
    ensures pos <= p.next <= |lines|
  {
    PromptLoop(lines, pos, NewPasswordPrompt, NewPasswordReprompt, ValidPassword, Unlimited, Aborted(addr, Some(name)), 0)
  }

  /**
   * The registration loop for the unknown identifier `name`: a password of
   * at least 8 bytes, then the same password again; a mismatch starts over
   * from "You must be new here!".
   */
  function Registration(addr: SocketAddr, name: string, lines: Input, pos: nat): (r: LoginRun)
    requires pos <= |lines|
    ensures pos <= r.next <= |lines|
    decreases |lines| - pos
  {
    var first := FirstPassword(addr, name, lines, pos);
    var sent := [NewHere] + first.sent;
    match first.result
    case Err(e) => LoginRun(Err(e), first.next, sent)
    case Ok(password1) =>
      var sent := sent + [ConfirmPrompt];
      var at := first.next;
      if at == |lines| then LoginRun(Err(Aborted(addr, Some(name))), at, sent)
      else if lines[at].None? then LoginRun(Err(Aborted(addr, Some(name))), at + 1, sent)
      else if password1 != lines[at].value then
        ThenRun(sent + [Mismatch], Registration(addr, name, lines, at + 1))
      else
        LoginRun(Ok(Registered(name, password1)), at + 1, sent)
  }

  /** The identifier prompt. */
  function Identifier(addr: SocketAddr, lines: Input): (p: Prompted)
    ensures p.next <= |lines|
  {
    PromptLoop(lines, 0, IdentifierPrompt, IdentifierReprompt, ValidIdentifier, Unlimited, Aborted(addr, None), 0)
  }

  /** A known user's password prompt. */
  function Password(addr: SocketAddr, name: string, account: Account, verify: (string, string) -> bool, lines: Input, pos: nat): (p: Prompted)
    requires pos <= |lines|
    ensures pos <= p.next <= |lines|
  {
    PromptLoop(lines, pos, PasswordPrompt, PasswordReprompt, Verifies(verify, account.password),
               AttemptLimit(addr, name), Aborted(addr, Some(name)), 0)
  }

  /**
   * The whole dialogue: ask for an identifier; a known one (`lookup` is the
   * store's lookup by name) gets three password attempts checked by
   * `verify`, an unknown one goes through Registration.
   */
  function LoginDialogue(addr: SocketAddr, lines: Input, lookup: string -> Option<Account>,
                         verify: (string, string) -> bool): (r: LoginRun)
    ensures r.next <= |lines|
  {
    var id := Identifier(addr, lines);
    match id.result
    case Err(e) => LoginRun(Err(e), id.next, id.sent)
    case Ok(name) =>
      match lookup(name)
      case Some(account) =>
        var pw := Password(addr, name, account, verify, lines, id.next);
        LoginRun(if pw.result.Ok? then Ok(LoggedIn(name, account)) else Err(pw.result.error), pw.next, id.sent + pw.sent)
      case None =>
        ThenRun(id.sent, Registration(addr, name, lines, id.next))
  }

  // ---------------------------------------------------------------------------
  // What the dialogue guarantees

  /** The try count a rejected run allows at its position `j`. */
  lemma RejectsAt(lines: Input, from: nat, to: nat, valid: string -> bool, checkTries: nat -> Option<LoginError>, tries: nat, j: nat)
    requires from <= to <= |lines|
    requires Rejects(lines, from, to, valid, checkTries, tries)
    requires from <= j < to
    ensures lines[j].Some? && checkTries(tries + (j - from) + 1).None?
  {
  }

  /** A count that `checkTries` refuses bounds the length of a rejected run. */
  lemma RejectsAtMost(lines: Input, from: nat, to: nat, valid: string -> bool, checkTries: nat -> Option<LoginError>, tries: nat, j: nat)
    requires from <= to <= |lines|
    requires Rejects(lines, from, to, valid, checkTries, tries)
    requires from <= j && checkTries(tries + (j - from) + 1).Some?
    ensures to <= j
  {
    if j < to {
      RejectsAt(lines, from, to, valid, checkTries, tries, j);
      assert false;
    }
  }

  /** Under Unlimited, every run of real, invalid lines is a rejected run. */
  lemma UnlimitedRejects(lines: Input, from: nat, to: nat, valid: string -> bool, tries: nat)
    requires from <= to <= |lines|
    requires forall j :: from <= j < to ==> lines[j].Some? && !valid(lines[j].value)
    ensures Rejects(lines, from, to, valid, Unlimited, tries)
  {
    forall j | from <= j < to
      ensures lines[j].Some? && !valid(lines[j].value) && Unlimited(tries + (j - from) + 1).None?
    {
    }
    assert Rejects(lines, from, to, valid, Unlimited, tries);
  }

  /** Any number of invalid identifiers is answered with the reprompt; the first valid one is taken. */
  lemma IdentifierRepromptsWithoutLimit(addr: SocketAddr, lines: Input, k: nat)
    requires k < |lines|
    requires forall j :: 0 <= j < k ==> lines[j].Some? && !ValidIdentifier(lines[j].value)
    requires Accepts(lines[k], ValidIdentifier)
    ensures Identifier(addr, lines)
         == Prompted(Ok(lines[k].value), k + 1, Rounds(IdentifierPrompt, IdentifierReprompt, k) + [IdentifierPrompt])
  {
    UnlimitedRejects(lines, 0, k, ValidIdentifier, 0);
    PromptAcceptsFirstValid(lines, 0, IdentifierPrompt, IdentifierReprompt, ValidIdentifier, Unlimited, Aborted(addr, None), 0, k);
  }

  /** A password that verifies at the first, second or third attempt logs the user in, and nothing more is read. */
  lemma PasswordWithinThree(addr: SocketAddr, name: string, account: Account, verify: (string, string) -> bool, lines: Input, pos: nat, k: nat)
    requires pos <= k < |lines| && k < pos + MaxPasswordAttempts
    requires forall j :: pos <= j < k ==> lines[j].Some? && !verify(account.password, lines[j].value)
    requires lines[k].Some? && verify(account.password, lines[k].value)
    ensures Password(addr, name, account, verify, lines, pos)
         == Prompted(Ok(lines[k].value), k + 1, Rounds(PasswordPrompt, PasswordReprompt, k - pos) + [PasswordPrompt])
  {
    var valid, check := Verifies(verify, account.password), AttemptLimit(addr, name);
    assert Rejects(lines, pos, k, valid, check, 0);
    PromptAcceptsFirstValid(lines, pos, PasswordPrompt, PasswordReprompt, valid, check, Aborted(addr, Some(name)), 0, k);
  }

  /** Three wrong passwords end the login with TooManyAttempts; the third gets no reprompt. */
  lemma PasswordThreeStrikes(addr: SocketAddr, name: string, account: Account, verify: (string, string) -> bool, lines: Input, pos: nat)
    requires pos + MaxPasswordAttempts <= |lines|
    requires forall j :: pos <= j < pos + MaxPasswordAttempts ==> lines[j].Some? && !verify(account.password, lines[j].value)
    ensures Password(addr, name, account, verify, lines, pos)
         == Prompted(Err(TooManyAttempts(addr, name)), pos + 3,
                     [PasswordPrompt, PasswordReprompt, PasswordPrompt, PasswordReprompt, PasswordPrompt])
  {
    var valid, check := Verifies(verify, account.password), AttemptLimit(addr, name);
    assert Rejects(lines, pos, pos + 2, valid, check, 0);
    PromptGivesUp(lines, pos, PasswordPrompt, PasswordReprompt, valid, check, Aborted(addr, Some(name)), 0, pos + 2);
    assert Rounds(PasswordPrompt, PasswordReprompt, 2) == [PasswordPrompt, PasswordReprompt, PasswordPrompt, PasswordReprompt];
  }

  /** Conversely, an accepted password is one that verifies, read at one of the first three attempts. */
  lemma PasswordOkWithinThree(addr: SocketAddr, name: string, account: Account, verify: (string, string) -> bool, lines: Input, pos: nat)
    requires pos <= |lines|
    requires Password(addr, name, account, verify, lines, pos).result.Ok?
    ensures var p := Password(addr, name, account, verify, lines, pos);
      && pos < p.next <= pos + MaxPasswordAttempts
      && lines[p.next - 1].Some?
      && verify(account.password, lines[p.next - 1].value)
  {
    var valid, check := Verifies(verify, account.password), AttemptLimit(addr, name);
    PromptOkSound(lines, pos, PasswordPrompt, PasswordReprompt, valid, check, Aborted(addr, Some(name)), 0);
    var p := Password(addr, name, account, verify, lines, pos);
    RejectsAtMost(lines, pos, p.next - 1, valid, check, 0, pos + 2);
  }

  /**
   * A prompt fails only with its abort error or with an error `checkTries`
   * gave for a count above the starting one.
   */
  lemma {:induction false} PromptErrSound(lines: Input, pos: nat, prompt: Reply, reprompt: Reply, valid: string -> bool,
                                          checkTries: nat -> Option<LoginError>, abort: LoginError, tries: nat)
    requires pos <= |lines|
    requires PromptLoop(lines, pos, prompt, reprompt, valid, checkTries, abort, tries).result.Err?
    ensures var e := PromptLoop(lines, pos, prompt, reprompt, valid, checkTries, abort, tries).result.error;
      e == abort || exists n :: n > tries && checkTries(n) == Some(e)
    decreases |lines| - pos
  {
    if pos < |lines| && lines[pos].Some? && !valid(lines[pos].value) && checkTries(tries + 1).None? {
      PromptLoopStep(lines, pos, prompt, reprompt, valid, checkTries, abort, tries);
      PromptErrSound(lines, pos + 1, prompt, reprompt, valid, checkTries, abort, tries + 1);
    }
  }

  /**
   * A completed registration registers `name` with a valid password, which
   * the last line read confirmed.
   */
  lemma {:induction false} RegistrationSound(addr: SocketAddr, name: string, lines: Input, pos: nat)
    requires pos <= |lines|
    requires Registration(addr, name, lines, pos).result.Ok?
    ensures var r := Registration(addr, name, lines, pos);
      && pos < r.next
      && r.result.value.Registered? && r.result.value.name == name
      && ValidPassword(r.result.value.password)
      && lines[r.next - 1].Some? && r.result.value.password == lines[r.next - 1].value
    decreases |lines| - pos
  {
    var first := FirstPassword(addr, name, lines, pos);
    PromptOkSound(lines, pos, NewPasswordPrompt, NewPasswordReprompt, ValidPassword, Unlimited, Aborted(addr, Some(name)), 0);
    var at := first.next;
    if first.result.value != lines[at].value {
      RegistrationRestarts(addr, name, lines, pos, first.result.value, at, first.sent);
      RegistrationSound(addr, name, lines, at + 1);
    } else {
      RegistrationCompletes(addr, name, lines, pos, first.result.value, at, first.sent);
    }
  }

  /** A completed registration read only real lines. */
  lemma {:induction false} RegistrationReadsOnlyLines(addr: SocketAddr, name: string, lines: Input, pos: nat)
    requires pos <= |lines|
    requires Registration(addr, name, lines, pos).result.Ok?
    ensures forall j :: pos <= j < Registration(addr, name, lines, pos).next ==> lines[j].Some?
    decreases |lines| - pos
  {
    var first := FirstPassword(addr, name, lines, pos);
    PromptOkSound(lines, pos, NewPasswordPrompt, NewPasswordReprompt, ValidPassword, Unlimited, Aborted(addr, Some(name)), 0);
    var at := first.next;
    RejectsReal(lines, pos, at - 1, ValidPassword, Unlimited, 0);
    assert lines[at].Some?;
    if first.result.value != lines[at].value {
      RegistrationRestarts(addr, name, lines, pos, first.result.value, at, first.sent);
      RegistrationReadsOnlyLines(addr, name, lines, at + 1);
    } else {
      RegistrationCompletes(addr, name, lines, pos, first.result.value, at, first.sent);
    }
  }

  /** A confirmation that matches the accepted password completes registration with it. */
  lemma RegistrationCompletes(addr: SocketAddr, name: string, lines: Input, pos: nat, password: string, at: nat, sent: seq<Reply>)
    requires pos <= |lines|
    requires FirstPassword(addr, name, lines, pos) == Prompted(Ok(password), at, sent)
    requires at < |lines| && lines[at].Some? && password == lines[at].value
    ensures Registration(addr, name, lines, pos) == LoginRun(Ok(Registered(name, password)), at + 1, [NewHere] + sent + [ConfirmPrompt])
  {
  }

  /** Registration fails only when the connection is reset, naming the identifier. */
  lemma {:induction false} RegistrationErrSound(addr: SocketAddr, name: string, lines: Input, pos: nat)
    requires pos <= |lines|
    requires Registration(addr, name, lines, pos).result.Err?
    ensures Registration(addr, name, lines, pos).result.error == Aborted(addr, Some(name))
    decreases |lines| - pos
  {
    var first := FirstPassword(addr, name, lines, pos);
    if first.result.Err? {
      PromptErrSound(lines, pos, NewPasswordPrompt, NewPasswordReprompt, ValidPassword, Unlimited, Aborted(addr, Some(name)), 0);
    } else if first.next < |lines| && lines[first.next].Some? && first.result.value != lines[first.next].value {
      RegistrationRestarts(addr, name, lines, pos, first.result.value, first.next, first.sent);
      RegistrationErrSound(addr, name, lines, first.next + 1);
    }
  }

  /**
   * A login that succeeds was given a valid identifier. A known user (and
   * only a known user) is logged in, as the account the lookup gave and with
   * a password that verifies against it; anyone else is registered with a
   * valid password, which the last line read confirmed.
   */
  lemma LoginSound(addr: SocketAddr, lines: Input, lookup: string -> Option<Account>, verify: (string, string) -> bool)
    requires LoginDialogue(addr, lines, lookup, verify).result.Ok?
    ensures var r := LoginDialogue(addr, lines, lookup, verify); var v := r.result.value;
      && 0 < r.next
      && ValidIdentifier(v.name)
      && (v.LoggedIn? <==> lookup(v.name).Some?)
      && (v.LoggedIn? ==> lookup(v.name) == Some(v.account)
                          && lines[r.next - 1].Some? && verify(v.account.password, lines[r.next - 1].value))
      && (v.Registered? ==> ValidPassword(v.password) && lines[r.next - 1].Some? && v.password == lines[r.next - 1].value)
  {
    var id := Identifier(addr, lines);
    PromptOkSound(lines, 0, IdentifierPrompt, IdentifierReprompt, ValidIdentifier, Unlimited, Aborted(addr, None), 0);
    var name := id.result.value;
    match lookup(name)
    case Some(account) =>
      var valid, check := Verifies(verify, account.password), AttemptLimit(addr, name);
      PromptOkSound(lines, id.next, PasswordPrompt, PasswordReprompt, valid, check, Aborted(addr, Some(name)), 0);
    case None =>
      RegistrationSound(addr, name, lines, id.next);
  }

  /** A login that succeeds read only real lines: neither the end of the stream nor a read error. */
  lemma LoginReadsOnlyLines(addr: SocketAddr, lines: Input, lookup: string -> Option<Account>, verify: (string, string) -> bool)
    requires LoginDialogue(addr, lines, lookup, verify).result.Ok?
    ensures var r := LoginDialogue(addr, lines, lookup, verify);
      forall j :: 0 <= j < r.next ==> lines[j].Some?
  {
    var id := Identifier(addr, lines);
    PromptOkSound(lines, 0, IdentifierPrompt, IdentifierReprompt, ValidIdentifier, Unlimited, Aborted(addr, None), 0);
    RejectsReal(lines, 0, id.next - 1, ValidIdentifier, Unlimited, 0);
    var name := id.result.value;
    var r := LoginDialogue(addr, lines, lookup, verify);
    match lookup(name)
    case Some(account) =>
      var valid, check := Verifies(verify, account.password), AttemptLimit(addr, name);
      var pw := Password(addr, name, account, verify, lines, id.next);
      PromptOkSound(lines, id.next, PasswordPrompt, PasswordReprompt, valid, check, Aborted(addr, Some(name)), 0);
      RejectsReal(lines, id.next, pw.next - 1, valid, check, 0);
      assert r.next == pw.next;
    case None =>
      RegistrationReadsOnlyLines(addr, name, lines, id.next);
  }

  /** The lines of a rejected run are real lines. */
  lemma RejectsReal(lines: Input, from: nat, to: nat, valid: string -> bool, checkTries: nat -> Option<LoginError>, tries: nat)
    requires from <= to <= |lines|
    requires Rejects(lines, from, to, valid, checkTries, tries)
    ensures forall j :: from <= j < to ==> lines[j].Some?
  {
  }

  /**
   * A login fails with the reset error when no identifier was accepted;
   * after that, with the reset error naming the identifier, or, for a
   * known identifier only, with TooManyAttempts naming it.
   */
  lemma LoginErrSound(addr: SocketAddr, lines: Input, lookup: string -> Option<Account>, verify: (string, string) -> bool)
    requires LoginDialogue(addr, lines, lookup, verify).result.Err?
    ensures var e := LoginDialogue(addr, lines, lookup, verify).result.error; var id := Identifier(addr, lines);
      || (id.result.Err? && e == Aborted(addr, None))
      || (id.result.Ok? && e == Aborted(addr, Some(id.result.value)))
      || (id.result.Ok? && e == TooManyAttempts(addr, id.result.value) && lookup(id.result.value).Some?)
  {
    var id := Identifier(addr, lines);
    if id.result.Err? {
      PromptErrSound(lines, 0, IdentifierPrompt, IdentifierReprompt, ValidIdentifier, Unlimited, Aborted(addr, None), 0);
    } else {
      var name := id.result.value;
      match lookup(name)
      case Some(account) =>
        var valid, check := Verifies(verify, account.password), AttemptLimit(addr, name);
        PromptErrSound(lines, id.next, PasswordPrompt, PasswordReprompt, valid, check, Aborted(addr, Some(name)), 0);
      case None =>
        RegistrationErrSound(addr, name, lines, id.next);
    }
  }

  /** A known user whose first password verifies is logged in after two lines, with one prompt of each kind. */
  lemma FirstTryLogin(addr: SocketAddr, lines: Input, lookup: string -> Option<Account>, verify: (string, string) -> bool, account: Account)
    requires |lines| >= 2 && lines[0].Some? && lines[1].Some?
    requires ValidIdentifier(lines[0].value) && lookup(lines[0].value) == Some(account)
    requires verify(account.password, lines[1].value)
    ensures LoginDialogue(addr, lines, lookup, verify) == LoginRun(Ok(LoggedIn(lines[0].value, account)), 2, [IdentifierPrompt, PasswordPrompt])
  {
    IdentifierRepromptsWithoutLimit(addr, lines, 0);
    PasswordWithinThree(addr, lines[0].value, account, verify, lines, 1, 1);
  }

  /** The scenario of the server's TCP test: "@a" logs in with "aaaaaaaa". */
  lemma FirstTryLoginExample(addr: SocketAddr, lookup: string -> Option<Account>, verify: (string, string) -> bool, account: Account)
    requires lookup("@a") == Some(account) && verify(account.password, "aaaaaaaa")
    ensures LoginDialogue(addr, [Some("@a"), Some("aaaaaaaa"), Some("shutdown")], lookup, verify)
         == LoginRun(Ok(LoggedIn("@a", account)), 2, [IdentifierPrompt, PasswordPrompt])
  {
    FirstTryLogin(addr, [Some("@a"), Some("aaaaaaaa"), Some("shutdown")], lookup, verify, account);
  }

  /** For ASCII passwords the byte length is the character count, so "at least 8 characters" holds exactly. */
  lemma ValidPasswordAscii(password: string)
    requires forall k :: 0 <= k < |password| ==> password[k] as int < 0x80
    ensures ValidPassword(password) <==> |password| >= 8
  {
    Utf8LenAscii(password);
  }

  /** Beyond ASCII, fewer than 8 characters can make a valid password: three CJK characters and '!' take 10 bytes. */
  lemma ShortNonAsciiPassword()
    ensures |"\U{65E5}\U{672C}\U{8A9E}!"| == 4 && ValidPassword("\U{65E5}\U{672C}\U{8A9E}!")
  {
  }

  /** `login` as the server runs it: the same verdict, next read position and lines sent as LoginDialogue. */
  method Login(addr: SocketAddr, input: Input, lookup: string -> Option<Account>, verify: (string, string) -> bool)
    returns (result: Result<Verdict, LoginError>, pos: nat, sent: seq<Reply>)
    ensures LoginRun(result, pos, sent) == LoginDialogue(addr, TrimLines(input), lookup, verify)
  {
    var identifier;
    identifier, pos, sent := Prompt(input, 0, IdentifierPrompt, IdentifierReprompt, ValidIdentifier, Unlimited, Aborted(addr, None));
    if identifier.Err? {
      result := Err(identifier.error);
      return;
    }
    var name := identifier.value;
    var person := lookup(name);
    match person {
      case Some(account) =>
        var password, passwordSent;
        password, pos, passwordSent := Prompt(input, pos, PasswordPrompt, PasswordReprompt, Verifies(verify, account.password),
                                              AttemptLimit(addr, name), Aborted(addr, Some(name)));
        sent := sent + passwordSent;
        if password.Err? {
          result := Err(password.error);
          return;
        }
        result := Ok(LoggedIn(name, account));
      case None =>
        var registrationSent;
        result, pos, registrationSent := Register(addr, name, input, pos);
        sent := sent + registrationSent;
    }
  }

  /** Sending `a` and then `b` before a login's outcome is sending `a + b` before it. */
  lemma ThenRunThen(a: seq<Reply>, b: seq<Reply>, r: LoginRun)
    ensures ThenRun(a, ThenRun(b, r)) == ThenRun(a + b, r)
  {
    Reassociate(a, b, r.sent);
  }

  /**
   * A confirmation that does not match the accepted password starts
   * registration over at the next line, after "Passwords don't match.".
   */
  lemma RegistrationRestarts(addr: SocketAddr, name: string, lines: Input, pos: nat, password: string, at: nat, sent: seq<Reply>)
    requires pos <= |lines|
    requires FirstPassword(addr, name, lines, pos) == Prompted(Ok(password), at, sent)
    requires at < |lines| && lines[at].Some? && password != lines[at].value
    ensures Registration(addr, name, lines, pos) == ThenRun([NewHere] + sent + [ConfirmPrompt] + [Mismatch], Registration(addr, name, lines, at + 1))
  {
  }

  /**
   * One round of registration: ask for a password and its confirmation.
   * `done` when the round ends registration, with the outcome; otherwise
   * the confirmation did not match and registration starts over at `pos`.
   */
  method RegisterRound(addr: SocketAddr, name: string, input: Input, start: nat)
    returns (done: bool, result: Result<Verdict, LoginError>, pos: nat, round: seq<Reply>)
    requires start <= |input|
    ensures start <= pos <= |input|
    ensures done ==> Registration(addr, name, TrimLines(input), start) == LoginRun(result, pos, round)
    ensures !done ==> start < pos && Registration(addr, name, TrimLines(input), start) == ThenRun(round, Registration(addr, name, TrimLines(input), pos))
  {
    ghost var lines := TrimLines(input);
    var password1, firstSent;
    password1, pos, firstSent := Prompt(input, start, NewPasswordPrompt, NewPasswordReprompt, ValidPassword, Unlimited, Aborted(addr, Some(name)));
    round := [NewHere] + firstSent;
    done := true;
    if password1.Err? {
      result := Err(password1.error);
      return;
    }
    round := round + [ConfirmPrompt];
    if pos == |input| || input[pos].None? {
      result := Err(Aborted(addr, Some(name)));
      pos := if pos == |input| then pos else pos + 1;
      return;
    }
    var password2 := input[pos].value;
    assert lines[pos] == Some(Trim(password2));
    pos := pos + 1;
    if password1.value != Trim(password2) {
      RegistrationRestarts(addr, name, lines, start, password1.value, pos - 1, firstSent);
      round := round + [Mismatch];
      done, result := false, Err(Aborted(addr, Some(name)));
      return;
    }
    RegistrationCompletes(addr, name, lines, start, password1.value, pos - 1, firstSent);
    result := Ok(Registered(name, password1.value));
  }

  /** The registration branch of `login`, a loop that starts over on every mismatch. */
  method Register(addr: SocketAddr, name: string, input: Input, start: nat)
    returns (result: Result<Verdict, LoginError>, pos: nat, sent: seq<Reply>)
    requires start <= |input|
    ensures LoginRun(result, pos, sent) == Registration(addr, name, TrimLines(input), start)
  {
    ghost var lines := TrimLines(input);
    pos, sent := start, [];
    while true
      invariant start <= pos <= |input|
      invariant Registration(addr, name, lines, start) == ThenRun(sent, Registration(addr, name, lines, pos))
      decreases |input| - pos
    {
      var done, outcome, next, round := RegisterRound(addr, name, input, pos);
      if done {
        result, pos, sent := outcome, next, sent + round;
        return;
      }
      ThenRunThen(sent, round, Registration(addr, name, lines, next));
      pos, sent := next, sent + round;
    }
  }
}

/** The terminal session as a value: which CLI prompt was last seen, whether a
    connection exists, every line written so far, and the prompts the far end
    will show next. Each `expect` of the session consumes one of those replies,
    so a caller states the device's behaviour by choosing `pending`. */
module Terminal {
  import opened Common

  /** Prompt of the vendor CLI (`DEFAULT_PROMPT`). */
  const DefaultPrompt: string := "rkscli: "
  /** Prompt of the Linux shell (`SHELL_PROMPT`). */
  const ShellPrompt: string := "# "
  /** Awaited before the username is sent (`LOGIN_PROMPT`). */
  const LoginPrompt: string := "login: "
  /** Awaited before the password is sent (`PASSWORD_PROMPT`). */
  const PasswordPrompt: string := "password : "
  /** The host-authenticity question `scp` may ask; a regular expression in the source. */
  const AuthenticityPattern: string := "Do you want to continue connecting.*"
  /** The password question of `scp`. */
  const ScpPasswordPrompt: string := "password:"

  /** The two command-line interfaces of the device. */
  datatype Mode = Vendor | Shell {

    /** The prompt that shows this CLI is ready. */
    function Prompt(): string {
      match this
      case Vendor => DefaultPrompt
      case Shell => ShellPrompt
    }

    /** The line that, typed in the other CLI, enters this one. */
    function Entry(): string {
      match this
      case Vendor => "rkscli"
      case Shell => "!v54!"
    }

    /** The CLI this one switches away from. */
    function Other(): Mode {
      match this
      case Vendor => Shell
      case Shell => Vendor
    }
  }

  /** `self.conn`: never opened (`None`), open, or closed by `__exit__` but
      still set. */
  datatype Link = Unopened | Open | Closed

  /** What the far end shows next: the pattern its output matches and the text
      that precedes the match (`child.before`). */
  datatype Reply = Reply(pattern: string, before: string)

  /** `current_prompt` is `mode`, `None` until the first connect. */
  datatype Session = Session(mode: Option<Mode>, link: Link, sent: seq<string>, pending: seq<Reply>)

  /** Which of the awaited patterns matched, and the text before it. */
  datatype Match = Match(index: nat, before: string)

  /** The session after an operation together with what the operation returned
      or raised. An operation that raises keeps every effect it had before the
      exception, as a Python method does. */
  datatype Run<+T> = Run(after: Session, result: Result<T>) {

    predicate IsFailure() {
      result.Err?
    }

    /** Only called on a failure; total so that a failure branch the contracts
        already rule out leaves nothing to check. */
    function PropagateFailure<U>(): Run<U> {
      Run(after, Err(if result.Err? then result.error else Timeout))
    }

    function Extract(): (Session, T)
      requires result.Ok?
    {
      (after, result.value)
    }
  }

  /** A session as `SSH.__init__` leaves it: no prompt seen, no connection. */
  function NewSession(replies: seq<Reply>): (s: Session)
    ensures s.mode.None? && s.link.Unopened? && s.sent == []
    ensures WellFormed(s)
  {
    Session(None, Unopened, [], replies)
  }

  /** The reachable states: `_connect` sets the prompt and the connection
      together, and nothing clears either. */
  predicate WellFormed(s: Session) {
    s.link.Unopened? <==> s.mode.None?
  }

  /** Reply number `i` exists and matches `pattern`. */
  predicate Shows(replies: seq<Reply>, i: nat, pattern: string) {
    i < |replies| && replies[i].pattern == pattern
  }

  /** `sendline` on a given child process: the line joins the trace. */
  function Transmit(s: Session, line: string): Session {
    s.(sent := s.sent + [line])
  }

  /** `expect(patterns)` on a given child process: the next reply is consumed;
      if it matches none of the patterns, pexpect waits until its timeout. */
  function Await(s: Session, patterns: seq<string>): (r: Run<Match>)
    ensures r.after.mode == s.mode && r.after.link == s.link && r.after.sent == s.sent
    ensures r.after.pending == if |s.pending| == 0 then [] else s.pending[1..]
    ensures r.result.Ok? <==> |s.pending| > 0 && s.pending[0].pattern in patterns
    ensures r.result.Err? ==> r.result.error == Timeout
    ensures r.result.Ok? ==>
              var i := r.result.value.index;
              i < |patterns| && patterns[i] == s.pending[0].pattern
              && s.pending[0].pattern !in patterns[..i]
              && r.result.value.before == s.pending[0].before
  {
    if |s.pending| == 0 then Run(s, Err(Timeout))
    else
      var reply := s.pending[0];
      var t := s.(pending := s.pending[1..]);
      match FirstIndex(patterns, reply.pattern)
      case None => Run(t, Err(Timeout))
      case Some(i) => Run(t, Ok(Match(i, reply.before)))
  }

  /** The error raised by touching `self.conn` when it is not open. */
  function LinkError(link: Link): Error
    requires !link.Open?
  {
    if link.Unopened? then NotConnected else ConnectionClosed
  }

  /** `self.conn.sendline(line)`: on an open connection the line is the one
      new entry of the trace; `None` raises AttributeError and a closed child
      raises; nothing but the trace ever changes. */
  function SendLine(s: Session, line: string): (r: Run<()>)
    ensures r.after.mode == s.mode && r.after.link == s.link && r.after.pending == s.pending
    ensures WellFormed(s) ==> WellFormed(r.after)
    ensures r.result.Ok? <==> s.link.Open?
    ensures r.result.Ok? ==>
              |r.after.sent| == |s.sent| + 1 && r.after.sent[..|s.sent|] == s.sent
              && r.after.sent[|s.sent|] == line
    ensures r.result.Err? ==> r.after.sent == s.sent
    ensures s.link.Unopened? ==> r.result == Err(NotConnected)
    ensures s.link.Closed? ==> r.result == Err(ConnectionClosed)
  {
    if s.link.Open? then Run(Transmit(s, line), Ok(())) else Run(s, Err(LinkError(s.link)))
  }

  /** `self.conn.expect(patterns)`: on an open connection exactly one reply
      is consumed, and the call returns the index of the first awaited pattern
      it matches with the text before it, or times out; `None` raises
      AttributeError and a closed child raises without consuming anything. */
  function Expect(s: Session, patterns: seq<string>): (r: Run<Match>)
    ensures r.after.mode == s.mode && r.after.link == s.link && r.after.sent == s.sent
    ensures WellFormed(s) ==> WellFormed(r.after)
    ensures r.result.Ok? <==> s.link.Open? && |s.pending| > 0 && s.pending[0].pattern in patterns
    ensures r.result.Ok? ==>
              var i := r.result.value.index;
              && i < |patterns| && patterns[i] == s.pending[0].pattern
              && s.pending[0].pattern !in patterns[..i]
              && r.result.value.before == s.pending[0].before
              && r.after.pending == s.pending[1..]
    ensures s.link.Open? && r.result.Err? ==>
              r.result.error == Timeout && r.after.pending == if |s.pending| == 0 then [] else s.pending[1..]
    ensures s.link.Unopened? ==> r == Run(s, Err(NotConnected))
    ensures s.link.Closed? ==> r == Run(s, Err(ConnectionClosed))
  {
    if s.link.Open? then Await(s, patterns) else Run(s, Err(LinkError(s.link)))
  }
}

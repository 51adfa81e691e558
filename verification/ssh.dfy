/** The `SSH` class: connecting, the two CLIs with their mode switch, and the
    fixed command sequences built on them. Every operation takes the session
    and returns the session after it together with its result or error. */
module Ssh {
  import opened Common
  import opened Terminal
  import Tokens

  /** A command for `target` must first leave the other CLI. */
  predicate NeedsSwitch(mode: Option<Mode>, target: Mode) {
    mode == Some(target.Other())
  }

  /** The switch line a command for `target` sends first, if any. */
  function SwitchLines(mode: Option<Mode>, target: Mode): seq<string> {
    if NeedsSwitch(mode, target) then [target.Entry()] else []
  }

  /** The recorded prompt once a command for `target` has gone through. */
  function ModeAfter(mode: Option<Mode>, target: Mode): (m: Option<Mode>)
    ensures m.Some? <==> mode.Some?
    ensures m != mode ==> NeedsSwitch(mode, target)
    ensures mode.Some? ==> m == Some(target)
  {
    if NeedsSwitch(mode, target) then Some(target)
    else
      assert mode.Some? ==> mode.value.Vendor? || mode.value.Shell?;
      mode
  }

  /** The switch, if any, gets its answer: no switch is needed, or the
      connection is open and the next reply is `target`'s prompt. */
  predicate SwitchGoesThrough(s: Session, target: Mode) {
    !NeedsSwitch(s.mode, target) || (s.link.Open? && Shows(s.pending, 0, target.Prompt()))
  }

  /** The replies a command needs to go through: the connection is open, the
      switch (if any) is answered with `target`'s prompt, and, unless nothing
      is awaited, so is the command itself. */
  predicate CommandGoesThrough(s: Session, target: Mode, noExpect: bool) {
    var k := |SwitchLines(s.mode, target)|;
    && s.link.Open?
    && (k == 1 ==> Shows(s.pending, 0, target.Prompt()))
    && (!noExpect ==> Shows(s.pending, k, target.Prompt()))
  }

  /** How many replies a successful command consumes. */
  function Awaited(s: Session, target: Mode, noExpect: bool): nat {
    |SwitchLines(s.mode, target)| + if noExpect then 0 else 1
  }

  /** The error a command for `target` raises when it does not go through. */
  function CommandError(s: Session, target: Mode): Error {
    if s.link.Open? then Timeout else LinkError(s.link)
  }

  /** The switch at the head of `rkscli` and `linuxcli`: in the other CLI,
      send its entry line, wait for `target`'s prompt, record the new mode. */
  function SwitchTo(s: Session, target: Mode): (r: Run<()>)
    ensures r.after.link == s.link && r.after.sent <= s.sent + SwitchLines(s.mode, target)
    ensures r.result.Ok? <==> SwitchGoesThrough(s, target)
    ensures r.result.Ok? ==>
              && r.after.sent == s.sent + SwitchLines(s.mode, target)
              && r.after.mode == ModeAfter(s.mode, target)
              && r.after.pending == s.pending[|SwitchLines(s.mode, target)|..]
    ensures r.result.Err? ==> r.after.mode == s.mode && r.result.error == CommandError(s, target)
  {
    if NeedsSwitch(s.mode, target) then
      var (s1, _) :- SendLine(s, target.Entry());
      var (s2, _) :- Expect(s1, [target.Prompt()]);
      Run(s2.(mode := Some(target)), Ok(()))
    else
      Run(s, Ok(()))
  }

  /** `rkscli` and `linuxcli` alike: switch to `target` when in the other CLI,
      send `cmd`, and either return `''` at once or wait for `target`'s prompt
      and return the text before it. */
  function RunCommand(s: Session, target: Mode, cmd: string, noExpect: bool): (r: Run<string>)
    ensures r.after.link == s.link
    ensures s.sent <= r.after.sent <= s.sent + SwitchLines(s.mode, target) + [cmd]
    ensures WellFormed(s) ==> WellFormed(r.after)
    ensures r.result.Ok? <==> CommandGoesThrough(s, target, noExpect)
    ensures r.result.Ok? ==>
              && r.after.sent == s.sent + SwitchLines(s.mode, target) + [cmd]
              && r.after.mode == ModeAfter(s.mode, target)
              && r.after.pending == s.pending[Awaited(s, target, noExpect)..]
              && r.result.value == if noExpect then "" else s.pending[|SwitchLines(s.mode, target)|].before
    ensures r.result.Err? ==> r.result.error == CommandError(s, target)
    ensures r.result.Err? ==>
              r.after.mode == if SwitchGoesThrough(s, target) then ModeAfter(s.mode, target) else s.mode
    ensures r.result.Err? && !s.link.Open? ==> r.after == s
    ensures r.result.Err? && s.link.Open? ==>
              r.after.sent == s.sent + SwitchLines(s.mode, target)
                              + (if SwitchGoesThrough(s, target) then [cmd] else [])
  {
    var (s1, _) :- SwitchTo(s, target);
    var (s2, _) :- SendLine(s1, cmd);
    if noExpect then
      Run(s2, Ok(""))
    else
      var (s3, m) :- Expect(s2, [target.Prompt()]);
      Run(s3, Ok(m.before))
  }

  /** `SSH.rkscli`: a command in the vendor CLI. The line `rkscli` is sent
      first exactly when the recorded prompt is the shell's; a session that
      has never connected keeps its `None` mode. */
  function Rkscli(s: Session, cmd: string, noExpect: bool): (r: Run<string>)
    ensures r.result.Ok? ==>
              r.after.sent == s.sent + (if s.mode == Some(Shell) then ["rkscli"] else []) + [cmd]
    ensures r.result.Ok? ==>
              r.after.mode == if s.mode == Some(Shell) then Some(Vendor) else s.mode
    ensures r.result.Ok? && noExpect ==> r.result.value == ""
    ensures r.result.Ok? && !noExpect ==>
              var k := if s.mode == Some(Shell) then 1 else 0;
              Shows(s.pending, k, DefaultPrompt) && r.result.value == s.pending[k].before
    ensures r.result.Ok? ==> s.link.Open?
    ensures r.result.Ok? && WellFormed(s) ==> r.after.mode == Some(Vendor)
  {
    RunCommand(s, Vendor, cmd, noExpect)
  }

  /** `SSH.linuxcli`: a command in the Linux shell. The line `!v54!` is sent
      first exactly when the recorded prompt is the vendor CLI's. */
  function Linuxcli(s: Session, cmd: string, noExpect: bool): (r: Run<string>)
    ensures r.result.Ok? ==>
              r.after.sent == s.sent + (if s.mode == Some(Vendor) then ["!v54!"] else []) + [cmd]
    ensures r.result.Ok? ==>
              r.after.mode == if s.mode == Some(Vendor) then Some(Shell) else s.mode
    ensures r.result.Ok? && noExpect ==> r.result.value == ""
    ensures r.result.Ok? && !noExpect ==>
              var k := if s.mode == Some(Vendor) then 1 else 0;
              Shows(s.pending, k, ShellPrompt) && r.result.value == s.pending[k].before
    ensures r.result.Ok? ==> s.link.Open?
    ensures r.result.Ok? && WellFormed(s) ==> r.after.mode == Some(Shell)
  {
    RunCommand(s, Shell, cmd, noExpect)
  }

  /** The command line `scp` types into the shell. */
  function ScpCommand(src: string, dst: string): string {
    "scp " + src + " " + dst
  }

  /** Whether reply `i` is the host-authenticity question. */
  predicate AsksAuthenticity(replies: seq<Reply>, i: nat) {
    Shows(replies, i, AuthenticityPattern)
  }

  /** The replies the copy dialogue needs once the copy command is typed: the
      authenticity question, then the password prompt after the `y`, or the
      password prompt at once; then the shell prompt after the password. */
  predicate CopyGoesThrough(replies: seq<Reply>) {
    if AsksAuthenticity(replies, 0) then
      Shows(replies, 1, ScpPasswordPrompt) && Shows(replies, 2, ShellPrompt)
    else
      Shows(replies, 0, ScpPasswordPrompt) && Shows(replies, 1, ShellPrompt)
  }

  /** What `scp` types after the copy command: `y` and the password when the
      host's authenticity is questioned, the password alone otherwise. */
  function Answers(replies: seq<Reply>, password: string): seq<string> {
    if AsksAuthenticity(replies, 0) then ["y", password] else [password]
  }

  /** The answer to the authenticity question: `y`, then wait for the
      password prompt. */
  function ConfirmHost(s: Session): (r: Run<()>)
    ensures r.after.link == s.link && r.after.mode == s.mode
    ensures r.result.Ok? <==> s.link.Open? && Shows(s.pending, 0, ScpPasswordPrompt)
    ensures r.result.Ok? ==> r.after.sent == s.sent + ["y"] && r.after.pending == s.pending[1..]
  {
    var (s1, _) :- SendLine(s, "y");
    var (s2, _) :- Expect(s1, [ScpPasswordPrompt]);
    Run(s2, Ok(()))
  }

  /** The part of `scp` that runs in the shell: type the copy command, answer
      `y` if the host's authenticity is questioned, give the password, and wait
      for the shell prompt. */
  function Copy(s: Session, src: string, dst: string, password: string): (r: Run<bool>)
    ensures r.after.link == s.link && r.after.mode == s.mode
    ensures r.result.Ok? <==> s.link.Open? && CopyGoesThrough(s.pending)
    ensures r.result.Ok? ==> r.result.value
    ensures r.result.Ok? ==>
              && r.after.sent == s.sent + ([ScpCommand(src, dst)] + Answers(s.pending, password))
              && r.after.pending == s.pending[if AsksAuthenticity(s.pending, 0) then 3 else 2..]
  {
    var (s1, _) :- SendLine(s, ScpCommand(src, dst));
    var (s2, m) :- Expect(s1, [AuthenticityPattern, ScpPasswordPrompt]);
    var (s3, _) :- if m.index == 0 then ConfirmHost(s2) else Run(s2, Ok(()));
    var (s4, _) :- SendLine(s3, password);
    var (s5, _) :- Expect(s4, [ShellPrompt]);
    Run(s5, Ok(true))
  }

  /** `SSH.scp`: reach the shell with an empty command, then run the copy
      dialogue there. */
  function Scp(s: Session, src: string, dst: string, password: string): (r: Run<bool>)
    ensures r.after.link == s.link
    ensures WellFormed(s) ==> WellFormed(r.after)
    ensures r.result.Ok? <==>
              CommandGoesThrough(s, Shell, false)
              && CopyGoesThrough(s.pending[|SwitchLines(s.mode, Shell)| + 1..])
    ensures r.result.Ok? ==> r.result.value
    ensures r.result.Ok? ==>
              var dialogue := s.pending[|SwitchLines(s.mode, Shell)| + 1..];
              && r.after.sent == s.sent + SwitchLines(s.mode, Shell) + ["", ScpCommand(src, dst)]
                                 + Answers(dialogue, password)
              && r.after.mode == ModeAfter(s.mode, Shell)
  {
    var (s1, _) :- Linuxcli(s, "", false);
    var r := Copy(s1, src, dst, password);
    Associative(s1.sent, [ScpCommand(src, dst)], Answers(s1.pending, password));
    assert s1.sent + [ScpCommand(src, dst)] == s.sent + SwitchLines(s.mode, Shell) + ["", ScpCommand(src, dst)];
    r
  }

  /** `SSH.reboot`: `reboot`, awaited, then `exit`, not awaited. */
  function Reboot(s: Session): (r: Run<()>)
    ensures r.after.link == s.link
    ensures WellFormed(s) ==> WellFormed(r.after)
    ensures r.result.Ok? <==> CommandGoesThrough(s, Vendor, false)
    ensures r.result.Ok? ==>
              && r.after.sent == s.sent + SwitchLines(s.mode, Vendor) + ["reboot", "exit"]
              && r.after.pending == s.pending[|SwitchLines(s.mode, Vendor)| + 1..]
  {
    var (s1, _) :- Rkscli(s, "reboot", false);
    var (s2, _) :- Rkscli(s1, "exit", true);
    Run(s2, Ok(()))
  }

  /** `SSH.factory_reset`: `set factory`, awaited, then the reboot sequence. */
  function FactoryReset(s: Session): (r: Run<()>)
    ensures r.after.link == s.link
    ensures WellFormed(s) ==> WellFormed(r.after)
    ensures r.result.Ok? <==>
              CommandGoesThrough(s, Vendor, false)
              && Shows(s.pending, |SwitchLines(s.mode, Vendor)| + 1, DefaultPrompt)
    ensures r.result.Ok? ==>
              && r.after.sent == s.sent + SwitchLines(s.mode, Vendor) + ["set factory", "reboot", "exit"]
              && r.after.pending == s.pending[|SwitchLines(s.mode, Vendor)| + 2..]
  {
    var (s1, _) :- Rkscli(s, "set factory", false);
    Reboot(s1)
  }

  /** `SSH.get_version`: `get version`, then the token after `Version:`. */
  function GetVersion(s: Session): (r: Run<string>)
    ensures r.result.Ok? ==> r.after.sent == s.sent + SwitchLines(s.mode, Vendor) + ["get version"]
    ensures r.result.Ok? <==>
              CommandGoesThrough(s, Vendor, false)
              && Tokens.LabelValue(s.pending[|SwitchLines(s.mode, Vendor)|].before, "Version:").Ok?
    ensures CommandGoesThrough(s, Vendor, false) ==>
              r.result == Tokens.LabelValue(s.pending[|SwitchLines(s.mode, Vendor)|].before, "Version:")
    ensures !CommandGoesThrough(s, Vendor, false) ==> r.result == Err(CommandError(s, Vendor))
  {
    var (s1, raw) :- Rkscli(s, "get version", false);
    Run(s1, Tokens.LabelValue(raw, "Version:"))
  }

  /** `SSH.get_serial`: `get boarddata`, then the token after `Serial#:`. */
  function GetSerial(s: Session): (r: Run<string>)
    ensures r.result.Ok? ==> r.after.sent == s.sent + SwitchLines(s.mode, Vendor) + ["get boarddata"]
    ensures r.result.Ok? <==>
              CommandGoesThrough(s, Vendor, false)
              && Tokens.LabelValue(s.pending[|SwitchLines(s.mode, Vendor)|].before, "Serial#:").Ok?
    ensures CommandGoesThrough(s, Vendor, false) ==>
              r.result == Tokens.LabelValue(s.pending[|SwitchLines(s.mode, Vendor)|].before, "Serial#:")
    ensures !CommandGoesThrough(s, Vendor, false) ==> r.result == Err(CommandError(s, Vendor))
  {
    var (s1, raw) :- Rkscli(s, "get boarddata", false);
    Run(s1, Tokens.LabelValue(raw, "Serial#:"))
  }

  /** `SSH._connect`: on a freshly spawned process, wait for the login prompt,
      send the username, wait for the password prompt, send the password and
      wait for the vendor prompt; only then are the mode and the connection
      recorded. */
  function Connect(s: Session, username: string, password: string): (r: Run<()>)
    ensures s.sent <= r.after.sent <= s.sent + [username, password]
    ensures WellFormed(s) ==> WellFormed(r.after)
    ensures r.result.Ok? <==>
              Shows(s.pending, 0, LoginPrompt) && Shows(s.pending, 1, PasswordPrompt)
              && Shows(s.pending, 2, DefaultPrompt)
    ensures r.result.Ok? ==>
              && r.after.sent == s.sent + [username, password]
              && r.after.mode == Some(Vendor) && r.after.link.Open?
              && r.after.pending == s.pending[3..]
    ensures r.result.Err? ==>
              r.after.mode == s.mode && r.after.link == s.link && r.result.error == Timeout
  {
    var (s1, _) :- Await(s, [LoginPrompt]);
    var (s2, _) :- Await(Transmit(s1, username), [PasswordPrompt]);
    var (s3, _) :- Await(Transmit(s2, password), [DefaultPrompt]);
    Run(s3.(mode := Some(Vendor), link := Open), Ok(()))
  }

  /** `SSH.__enter__`: connect unless `self.conn` is already set. */
  function Enter(s: Session, username: string, password: string): (r: Run<()>)
    ensures !s.link.Unopened? ==> r == Run(s, Ok(()))
    ensures WellFormed(s) ==> WellFormed(r.after)
    ensures r.result.Ok? ==> !r.after.link.Unopened?
    ensures r.result.Ok? && s.link.Unopened? ==> r.after.mode == Some(Vendor)
  {
    if s.link.Unopened? then Connect(s, username, password) else Run(s, Ok(()))
  }

  /** `SSH.__exit__`: close the connection if one is set; `self.conn` itself
      stays set. */
  function Exit(s: Session): (t: Session)
    ensures t.sent == s.sent && t.mode == s.mode && t.pending == s.pending
    ensures t.link.Unopened? <==> s.link.Unopened?
    ensures !t.link.Open?
    ensures WellFormed(s) ==> WellFormed(t)
  {
    if s.link.Unopened? then s else s.(link := Closed)
  }
}

/** Properties that relate several calls on one session: the mode switch is
    sent only when the CLI changes, the fixed sequences, connecting once, and
    what a closed or never-opened session does. */
module SshProperties {
  import opened Common
  import opened Terminal
  import opened Ssh
  import Tokens

  /** A call of `rkscli` (`cli == Vendor`) or `linuxcli` (`cli == Shell`),
      waiting for the prompt unless `noExpect`. */
  datatype Command = Command(cli: Mode, line: string, noExpect: bool)

  /** The prompt recorded before command `i` of a series that started with
      `first`: the CLI of the previous command. */
  function PromptBefore(first: Option<Mode>, cmds: seq<Command>, i: nat): Option<Mode>
    requires i < |cmds|
  {
    if i == 0 then first else Some(cmds[i - 1].cli)
  }

  /** The lines a series of commands should put on the wire: each command,
      preceded by the entry line of its CLI exactly when the command before
      it was for the other CLI. */
  function Expected(first: Option<Mode>, cmds: seq<Command>): seq<string>
    decreases |cmds|
  {
    if |cmds| == 0 then []
    else
      var n := |cmds| - 1;
      Expected(first, cmds[..n]) + (SwitchLines(PromptBefore(first, cmds, n), cmds[n].cli) + [cmds[n].line])
  }

  /** The commands issued one after another on one session, stopping at the
      first that raises. */
  function RunAll(s: Session, cmds: seq<Command>): (r: Run<seq<string>>)
    ensures r.after.link == s.link
    ensures WellFormed(s) ==> WellFormed(r.after)
    ensures r.result.Ok? ==> |r.result.value| == |cmds|
    decreases |cmds|
  {
    if |cmds| == 0 then Run(s, Ok([]))
    else
      var n := |cmds| - 1;
      var r1 := RunAll(s, cmds[..n]);
      if r1.result.Err? then r1
      else
        var r2 := RunCommand(r1.after, cmds[n].cli, cmds[n].line, cmds[n].noExpect);
        if r2.result.Err? then Run(r2.after, Err(r2.result.error))
        else Run(r2.after, Ok(r1.result.value + [r2.result.value]))
  }

  /** On a reachable session, a series of commands that goes through ends in
      the CLI of its last command. */
  lemma RunAllEndsInLastCli(s: Session, cmds: seq<Command>)
    requires WellFormed(s) && |cmds| > 0
    ensures RunAll(s, cmds).result.Ok? ==> RunAll(s, cmds).after.mode == Some(cmds[|cmds| - 1].cli)
  {
    if RunAll(s, cmds[..|cmds| - 1]).result.Ok? {
      RunAllLastStep(s, cmds);
    }
  }

  /** On a reachable session, a series of commands that goes through sends
      exactly the expected lines. */
  lemma {:induction false} RunAllSendsExpected(s: Session, cmds: seq<Command>)
    requires WellFormed(s)
    ensures RunAll(s, cmds).result.Ok? ==> RunAll(s, cmds).after.sent == s.sent + Expected(s.mode, cmds)
    decreases |cmds|
  {
    if |cmds| > 0 {
      var n := |cmds| - 1;
      var prefix := cmds[..n];
      var r1 := RunAll(s, prefix);
      if r1.result.Ok? {
        RunAllSendsExpected(s, prefix);
        assert r1.after.mode == PromptBefore(s.mode, cmds, n) by {
          if n > 0 {
            RunAllEndsInLastCli(s, prefix);
            assert prefix[n - 1] == cmds[n - 1];
          }
        }
        var c := cmds[n];
        if RunCommand(r1.after, c.cli, c.line, c.noExpect).result.Ok? {
          CommandExtendsTrace(r1.after, s.sent, Expected(s.mode, prefix), c);
          RunAllLastStep(s, cmds);
        }
      }
    }
  }

  /** A command that goes through appends its switch line, if any, and its
      own line to the trace. */
  lemma CommandExtendsTrace(t: Session, sent0: seq<string>, earlier: seq<string>, c: Command)
    requires t.sent == sent0 + earlier
    requires RunCommand(t, c.cli, c.line, c.noExpect).result.Ok?
    ensures RunCommand(t, c.cli, c.line, c.noExpect).after.sent
            == sent0 + (earlier + (SwitchLines(t.mode, c.cli) + [c.line]))
  {
    Associative(sent0, earlier, SwitchLines(t.mode, c.cli) + [c.line]);
  }

  /** A series that gets past all but its last command ends where the last
      command leaves the session. */
  lemma RunAllLastStep(s: Session, cmds: seq<Command>)
    requires |cmds| > 0
    requires RunAll(s, cmds[..|cmds| - 1]).result.Ok?
    ensures var c := cmds[|cmds| - 1];
            RunAll(s, cmds).after == RunCommand(RunAll(s, cmds[..|cmds| - 1]).after, c.cli, c.line, c.noExpect).after
  {
  }

  /** Two commands for the same CLI: the switch line, if any, goes out once,
      before the first, and the second leaves the mode as the first did. */
  lemma SameCliSwitchesOnce(s: Session, target: Mode, first: string, noExpect1: bool, second: string, noExpect2: bool)
    requires RunCommand(s, target, first, noExpect1).result.Ok?
    requires RunCommand(RunCommand(s, target, first, noExpect1).after, target, second, noExpect2).result.Ok?
    ensures var r1 := RunCommand(s, target, first, noExpect1);
            var r2 := RunCommand(r1.after, target, second, noExpect2);
            && r2.after.sent == s.sent + SwitchLines(s.mode, target) + [first, second]
            && r2.after.mode == r1.after.mode
  {
  }

  /** On a reachable session, a command that goes through leaves the prompt of
      the CLI it asked for. */
  lemma ModeFollowsCommand(s: Session, target: Mode, cmd: string, noExpect: bool)
    requires WellFormed(s)
    ensures RunCommand(s, target, cmd, noExpect).result.Ok? ==>
              RunCommand(s, target, cmd, noExpect).after.mode == Some(target)
  {
  }

  /** A session that never connected raises on the first command, writes
      nothing and keeps its `None` mode. */
  lemma FreshSessionRaises(replies: seq<Reply>, target: Mode, cmd: string, noExpect: bool)
    ensures var r := RunCommand(NewSession(replies), target, cmd, noExpect);
            r.result == Err(NotConnected) && r.after == NewSession(replies)
  {
  }

  /** `__enter__` after a successful `__enter__` does nothing. */
  lemma EnterIsIdempotent(s: Session, username: string, password: string)
    requires Enter(s, username, password).result.Ok?
    ensures var t := Enter(s, username, password).after;
            Enter(t, username, password) == Run(t, Ok(()))
  {
  }

  /** After `__exit__`, `self.conn` is still set: `__enter__` does not connect
      again, and every command raises without writing anything. */
  lemma ExitedSessionStaysClosed(s: Session, username: string, password: string, target: Mode, cmd: string, noExpect: bool)
    requires !s.link.Unopened?
    ensures Enter(Exit(s), username, password) == Run(Exit(s), Ok(()))
    ensures RunCommand(Exit(s), target, cmd, noExpect) == Run(Exit(s), Err(ConnectionClosed))
  {
  }

  /** On a reachable session, `scp` that goes through leaves the session in
      the shell. */
  lemma ScpEndsInShell(s: Session, src: string, dst: string, password: string)
    requires WellFormed(s)
    ensures Scp(s, src, dst, password).result.Ok? ==> Scp(s, src, dst, password).after.mode == Some(Shell)
  {
  }

  /** `scp` when the far end first asks to confirm the host: the empty line,
      the copy command, `y`, then the password. */
  lemma ScpConfirmsHost(s: Session, src: string, dst: string, password: string, o1: string, o2: string, o3: string, o4: string)
    requires s.link.Open? && s.mode == Some(Shell)
    requires s.pending == [Reply(ShellPrompt, o1), Reply(AuthenticityPattern, o2), Reply(ScpPasswordPrompt, o3), Reply(ShellPrompt, o4)]
    ensures var r := Scp(s, src, dst, password);
            && r.result == Ok(true)
            && r.after.sent == s.sent + ["", ScpCommand(src, dst), "y", password]
            && r.after.mode == Some(Shell) && r.after.pending == []
  {
    assert s.pending[1..] == [Reply(AuthenticityPattern, o2), Reply(ScpPasswordPrompt, o3), Reply(ShellPrompt, o4)];
  }

  /** `scp` when the far end asks for the password at once: the empty line,
      the copy command, then the password only. */
  lemma ScpSendsPasswordDirectly(s: Session, src: string, dst: string, password: string, o1: string, o2: string, o3: string)
    requires s.link.Open? && s.mode == Some(Vendor)
    requires s.pending == [Reply(ShellPrompt, ""), Reply(ShellPrompt, o1), Reply(ScpPasswordPrompt, o2), Reply(ShellPrompt, o3)]
    ensures var r := Scp(s, src, dst, password);
            && r.result == Ok(true)
            && r.after.sent == s.sent + ["!v54!", "", ScpCommand(src, dst), password]
            && r.after.mode == Some(Shell) && r.after.pending == []
  {
    assert s.pending[2..] == [Reply(ScpPasswordPrompt, o2), Reply(ShellPrompt, o3)];
  }

  /** The copy command is `scp`, the source and the destination, separated by
      single spaces: a shell that splits it at whitespace gets the two paths
      back, provided neither holds whitespace. */
  lemma ScpCommandArguments(src: string, dst: string)
    requires Tokens.IsWord(src) && Tokens.IsWord(dst)
    ensures Tokens.Split(ScpCommand(src, dst)) == ["scp", src, dst]
  {
    var words := ["scp", src, dst];
    assert Tokens.Join(words[2..]) == dst;
    assert Tokens.Join(words[1..]) == src + " " + dst;
    assert ScpCommand(src, dst) == Tokens.Join(words);
    assert Tokens.IsWord("scp");
    Tokens.SplitJoin(words);
  }

  /** `get_version` on a reply whose text holds `Version:` as a token followed
      by the version returns that version. */
  lemma GetVersionReadsVersion(s: Session, a: string, c: char, v: string, b: string)
    requires s.link.Open? && s.mode == Some(Vendor)
    requires |s.pending| > 0 && s.pending[0].pattern == DefaultPrompt
    requires s.pending[0].before == a + "Version:" + [c] + v + b
    requires Tokens.IsWord(v) && Tokens.IsSpace(c)
    requires |a| == 0 || Tokens.IsSpace(a[|a| - 1])
    requires |b| == 0 || Tokens.IsSpace(b[0])
    requires "Version:" !in Tokens.Split(a)
    ensures GetVersion(s).result == Ok(v)
  {
    VersionLabelIsWord();
    Tokens.LabelValueInText(a, "Version:", c, v, b);
    assert GetVersion(s).result == Tokens.LabelValue(s.pending[0].before, "Version:");
  }

  /** `get_serial` on a reply whose text holds `Serial#:` as a token followed
      by the serial number returns that number. */
  lemma GetSerialReadsSerial(s: Session, a: string, c: char, v: string, b: string)
    requires s.link.Open? && s.mode == Some(Vendor)
    requires |s.pending| > 0 && s.pending[0].pattern == DefaultPrompt
    requires s.pending[0].before == a + "Serial#:" + [c] + v + b
    requires Tokens.IsWord(v) && Tokens.IsSpace(c)
    requires |a| == 0 || Tokens.IsSpace(a[|a| - 1])
    requires |b| == 0 || Tokens.IsSpace(b[0])
    requires "Serial#:" !in Tokens.Split(a)
    ensures GetSerial(s).result == Ok(v)
  {
    SerialLabelIsWord();
    Tokens.LabelValueInText(a, "Serial#:", c, v, b);
    assert GetSerial(s).result == Tokens.LabelValue(s.pending[0].before, "Serial#:");
  }

  /** `get_version` raises ValueError when the reply has no `Version:` token. */
  lemma GetVersionWithoutLabelRaises(s: Session)
    requires s.link.Open? && s.mode == Some(Vendor)
    requires |s.pending| > 0 && s.pending[0].pattern == DefaultPrompt
    requires "Version:" !in Tokens.Split(s.pending[0].before)
    ensures GetVersion(s).result == Err(LabelNotFound)
  {
  }

  lemma VersionLabelIsWord()
    ensures Tokens.IsWord("Version:")
  {
  }

  lemma SerialLabelIsWord()
    ensures Tokens.IsWord("Serial#:")
  {
  }
}

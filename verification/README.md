# ssh-client-ruckus in Dafny

This project models the `SSH` class of `ssh.py`. The class drives a Ruckus access point's
terminal through pexpect. The device has two command-line interfaces:

- the vendor CLI, whose prompt is `rkscli: `;
- the Linux shell, whose prompt is `# `.

The class records which prompt it last saw (`current_prompt`). It switches CLI only when a
command needs the other one: it sends `rkscli` to get back to the vendor CLI and `!v54!` to
get to the shell. It then sends the command, and either waits for the prompt again or returns
`''` at once. `reboot`, `factory_reset`, `scp` and the connection set-up are fixed sequences
of such steps. `get_version` and `get_serial` split a reply into whitespace-separated tokens
and return the token after a label.

The model replaces the terminal with a value:

- `Terminal.Session` holds the recorded mode (`None` until the first connect, as in the
  code), the state of `self.conn` (never opened, open, or closed but still set), every line
  sent so far, and the replies the far end will give.
- Each `expect` consumes the next reply. A reply names the pattern that the device's output
  matches and gives the text before it (`child.before`). A reply that matches none of the
  awaited patterns, or no reply at all, is a timeout.
- Every operation returns the session after it together with its result or the error it
  raised (`Terminal.Run`). As in Python, an operation that raises keeps the lines it had
  already sent and any mode change it had already recorded.

The modules follow the source:

- `Common` holds the error signals and `list.index`.
- `Terminal` holds the session value and the `sendline`/`expect` primitives.
- `Tokens` holds `str.split()` and the label lookup.
- `Ssh` holds the class's methods.
- `SshProperties` holds the properties that relate several calls.

One behaviour of the code is stated as it is written. `__exit__` closes the process but
leaves `self.conn` set. A later `__enter__` therefore does not reconnect, and every command
after it raises (`SshProperties.ExitedSessionStaysClosed`).

## Model

| member | source | states |
|---|---|---|
| Terminal.NewSession | ssh.py:14-22 | a new session has no recorded prompt (`None`), no connection and an empty trace, and is well formed |
| Terminal.SendLine | ssh.py:52 | on an open connection the line becomes the one new entry of the trace; with `self.conn` still `None` it raises NotConnected (AttributeError), and on a closed child ConnectionClosed, sending nothing; the mode, the connection and the pending replies never change |
| Terminal.Expect | ssh.py:55 | on an open connection exactly one reply is consumed; the call succeeds exactly when that reply matches an awaited pattern, and then returns the index of the first such pattern and the text before the match; otherwise it times out; with `None` or a closed child it raises NotConnected or ConnectionClosed and consumes nothing; mode, connection and trace never change |
| Terminal.Await | ssh.py:74 | `expect` with a list of patterns on a given process: the next reply is consumed; success exactly when it matches one of the patterns, with the index of the first pattern it matches and its `before` text; Timeout when no reply is left or none matches |
| Common.FirstIndex | ssh.py:97 | `v.index(x)` is the position of the first occurrence of `x`; it is absent exactly when `x` is not in the list |
| Ssh.SwitchTo | ssh.py:47-50 | the entry line of the target CLI is sent exactly when the recorded prompt is the other CLI's; on success the trace grows by that line only, the mode becomes the target, and one reply is consumed; on failure the mode is unchanged |
| Ssh.RunCommand | ssh.py:46-68 | only the switch line (if any) and the command are ever sent, in that order; the call succeeds exactly when the connection is open and the needed prompts arrive; the result is `''` with `no_expect` and otherwise the text before the awaited prompt; the error is NotConnected, ConnectionClosed or Timeout; a failure keeps the mode switch when the switch's prompt had arrived, and the lines already sent (the entry line, and the command once the switch is done); a failure on an unopened or closed connection changes nothing; a well-formed session stays well formed |
| Ssh.Rkscli | ssh.py:46-56 | `rkscli` is sent before the command if and only if the recorded prompt was the shell's, and then the mode becomes the vendor CLI's; otherwise the mode is unchanged, `None` included; `no_expect` returns `''`; otherwise the result is the text before the awaited `rkscli: ` prompt |
| Ssh.Linuxcli | ssh.py:58-68 | `!v54!` is sent before the command if and only if the recorded prompt was the vendor CLI's, and then the mode becomes the shell's; otherwise the mode is unchanged; `no_expect` returns `''`; otherwise the result is the text before the awaited `# ` prompt |
| SshProperties.ScpCommandArguments | ssh.py:71 | the copy command is `scp`, the source and the destination separated by single spaces: split at whitespace it gives back exactly `scp`, `src` and `dst` when neither path holds whitespace |
| Ssh.ConfirmHost | ssh.py:76-79 | the answer to the authenticity question is `y`; it succeeds exactly when the next reply is the `password:` prompt |
| Ssh.Copy | ssh.py:73-84 | the copy command is sent; after the authenticity question `y` and the password follow, otherwise only the password; success requires the password prompt and then the shell prompt, and returns True |
| Ssh.Scp | ssh.py:70-84 | the empty shell command comes first (after `!v54!` when in the vendor CLI), then `scp src dst`, then `y` and the password, or the password alone; it succeeds exactly when the shell prompt, the question or password prompt, and the closing shell prompt arrive; on success it returns True and the mode is the one a shell command leaves |
| Ssh.Reboot | ssh.py:86-88 | exactly `reboot` then `exit` are sent after any switch; only the prompt after `reboot` is awaited; success depends only on the connection and the prompts, never on the output of `reboot` |
| Ssh.FactoryReset | ssh.py:90-92 | `set factory` is sent and awaited, then the reboot sequence follows; exactly two prompts are awaited after any switch |
| Ssh.GetVersion | ssh.py:94-97 | sends `get version` in the vendor CLI; when the prompt arrives the result is the token after the first `Version:` token of the reply, or the lookup's error; otherwise the command's error |
| Ssh.GetSerial | ssh.py:99-102 | sends `get boarddata` in the vendor CLI; when the prompt arrives the result is the token after the first `Serial#:` token of the reply, or the lookup's error; otherwise the command's error |
| Ssh.Connect | ssh.py:24-35 | the username and then the password are sent on the new process; the call succeeds exactly when the login, password and vendor prompts arrive in that order; only then is the mode the vendor CLI's and the connection set; a failure leaves both unchanged and raises Timeout |
| Ssh.Enter | ssh.py:37-40 | connects only when `self.conn` is unset; otherwise the session is returned unchanged |
| Ssh.Exit | ssh.py:42-44 | closes an existing connection without sending anything; `self.conn` stays set |
| Tokens.Latin1Spaces | ssh.py:96 | below U+0100, the characters `split()` treats as whitespace are exactly tab, line feed, vertical tab, form feed, carriage return, U+001C to U+001F, space, U+0085 and U+00A0 |
| Tokens.WordEnd | ssh.py:96 | the length of the longest whitespace-free prefix: every character before it is not whitespace and the character at it is |
| Tokens.Split | ssh.py:96 | `split()` yields only non-empty, whitespace-free tokens |
| Tokens.TokenAfter | ssh.py:97 | `v[v.index(label)+1]`: the token after the first occurrence of the label; ValueError exactly when the label is absent, IndexError exactly when its first occurrence is the last token |
| Tokens.LabelValue | ssh.py:96-97 | a value found is a token of the reply; ValueError exactly when the label is not a token; no other error |
| Tokens.SplitAtSpace | ssh.py:96 | splitting at a whitespace character tokenizes the two sides independently |
| Tokens.SplitWord | ssh.py:96 | a whitespace-free non-empty string splits into itself |
| Tokens.SplitJoin | ssh.py:96 | round trip: tokens joined by single spaces split back into the same tokens |
| Tokens.SplitKeepsNonSpace | ssh.py:96 | the tokens written back to back are the reply with its whitespace removed: nothing but whitespace is lost |
| Tokens.TokenAfterFirstLabel | ssh.py:97 | with the label absent from what precedes it, the token right after the label is returned |
| Tokens.LabelValueInText | ssh.py:96-97 | a reply holding the label as a token, then whitespace and a word, yields that word when no earlier token is the label |
| Tokens.LabelLastRaises | ssh.py:96-97 | a reply whose first label is its last token raises IndexError |
| Tokens.VersionExample | ssh.py:94-97 | the reply `Version: 4.2.1` yields `4.2.1` |
| SshProperties.RunAll | ssh.py:46-68 | a series of `rkscli`/`linuxcli` calls on one session, each waiting for its prompt or not, keeps the connection state and reachability, and yields one output per command when it goes through |
| SshProperties.RunAllSendsExpected | ssh.py:46-68 | on a reachable session, a series that goes through sends exactly each command, preceded by the entry line of its CLI only when the previous command was for the other CLI (or, for the first, when the recorded prompt was the other CLI's) |
| SshProperties.RunAllEndsInLastCli | ssh.py:46-68 | on a reachable session, after a series that goes through the recorded prompt is that of the CLI of the last command |
| SshProperties.SameCliSwitchesOnce | ssh.py:47-50 | two consecutive commands for the same CLI send the switch line at most once, before the first; the second leaves the mode unchanged |
| SshProperties.ModeFollowsCommand | ssh.py:46-68 | on a reachable session, a command that goes through leaves the recorded prompt equal to the CLI it asked for |
| SshProperties.FreshSessionRaises | ssh.py:21-22 | before any connect, a command raises (AttributeError on `None`), sends nothing and keeps the mode `None` |
| SshProperties.EnterIsIdempotent | ssh.py:37-40 | a second `__enter__` after a successful one changes nothing |
| SshProperties.ExitedSessionStaysClosed | ssh.py:37-44 | after `__exit__`, `__enter__` does not reconnect and every command raises without sending anything |
| SshProperties.ScpEndsInShell | ssh.py:70-84 | on a reachable session, `scp` that returns leaves the recorded prompt at the shell's |
| SshProperties.ScpConfirmsHost | ssh.py:70-84 | when the far end asks to confirm the host, `scp` sends the empty line, the copy command, `y`, then the password, and returns True |
| SshProperties.ScpSendsPasswordDirectly | ssh.py:70-84 | from the vendor CLI, when the password is asked at once, `scp` sends `!v54!`, the empty line, the copy command and then only the password |
| SshProperties.GetVersionReadsVersion | ssh.py:94-97 | a reply containing `... Version: v ...` makes `get_version` return `v` |
| SshProperties.GetSerialReadsSerial | ssh.py:99-102 | a reply containing `... Serial#: v ...` makes `get_serial` return `v` |
| SshProperties.GetVersionWithoutLabelRaises | ssh.py:94-97 | a reply without a `Version:` token makes `get_version` raise ValueError |

## Left out

- Process spawning: `pexpect.spawn`, the `ssh` command template and its formatting (ssh.py:12, 25) are foreign I/O. A spawn failure is not modelled.
- Debug mirroring of the terminal to standard output (ssh.py:26-27) is output plumbing only.
- Timeouts: the `timeout` parameters and their values are not modelled. A timeout is a reply that matches none of the awaited patterns, or the absence of any further reply.
- Pattern matching on the live stream is not modelled. Each reply names the pattern it matches. The authenticity question is a regular expression in the source and is represented by its pattern text.
- `raw.decode()`: replies are modelled as strings, not bytes. A decoding error is not modelled.
- Credentials of `None` (the constructor's defaults) are not modelled; the username and password are strings passed to `Connect` and `Enter`.
- A reply that matches no awaited pattern is consumed and the call times out. pexpect instead keeps unmatched output in its buffer, so a caller that catches the timeout and calls `expect` again could still match that output. The model's sessions never resume after a timeout, since no method of the class catches one.
- pexpect's EOF error is not modelled separately. A closed connection raises `ConnectionClosed` on the next send or expect.

## Notes on the source

- `scp` answers the host-authenticity question with the single letter `y` (ssh.py:77), and `Ssh.ConfirmHost` sends exactly that line.
- In `scp` the match index can only be 0 or 1, so the test `if i == 1` after `i = 1` (ssh.py:79-80) always holds. `Ssh.Copy` sends the password on both paths without a separate test.
- `rkscli` and `linuxcli` are one function, `Ssh.RunCommand`, parameterised by the target CLI. The two methods differ only in their prompt and entry line.

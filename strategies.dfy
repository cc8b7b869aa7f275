/** The three exploit strategies of the `os_commanding` attack plugin: how each
    turns a shell command into the value injected into the vulnerable parameter,
    how it submits that value, how it checks that it can run commands at all and
    how it reads a command's output back out of a response body. */
module Strategies {
  import opened Wrappers
  import opened PyFormat
  import opened Transport

  /** The vulnerability being exploited, as the strategies read it: where and how
      to send a request (`url`, `httpMethod`, the parameter container `dc`), which
      parameter is injectable (`injectVar`), the shell separator that worked when
      the vulnerability was found, and the remote operating system tag. */
  datatype Vuln = Vuln(url: string, httpMethod: string, dc: map<string, string>,
                       injectVar: string, separator: string, os: string)

  /** The three strategy classes. */
  datatype Kind = FullPath | CmdsInPath | Basic

  /** What `CommonAttackMethods._define_exact_cut` records for later calls of `_cut`:
      where the command output starts and ends inside a response body. */
  datatype CutPoints = CutPoints(header: nat, footer: nat)

  /** The extraction helpers that live outside the plugin file, as uninterpreted functions:
      `framed` is `shell_handler.extract_result` (find the text between the two shell
      identifiers and base64-decode it), `defineExactCut` is `_define_exact_cut` (locate an
      expected text in a body; the cut points on success) and `cut` is `_cut`. */
  datatype Extractors = Extractors(
    framed: string -> string,
    defineExactCut: (string, string) -> Option<CutPoints>,
    cut: (CutPoints, string) -> string)

  /** A strategy object bound to a vulnerability. `cut` is the state a Basic strategy
      keeps once its check has located the test output; the other two keep none. */
  datatype Strategy = Strategy(kind: Kind, vuln: Vuln, cut: Option<CutPoints>)

  /** A strategy whose `extract_result` can be called: a Basic strategy must have
      learned its cut points first. */
  predicate Ready(s: Strategy)
  {
    s.kind == Basic ==> s.cut.Some?
  }

  /** `shell_handler.SHELL_IDENTIFIER_1` and `_2`: module constants, the same for
      every call. shell_handler.py is not part of this model; these stand-ins are
      two fixed, distinct strings free of quotes and newlines. */
  const ShellIdentifier1: string := "15825b40c6dace2a"
  const ShellIdentifier2: string := "7cf5d4ab8ed434d5"

  /** `FullPathExploitStrategy.REMOTE_CMD`. As in the source, `'\n'` is a newline
      character inside the template, given to `tr -d` between quotes. */
  const FullPathRemoteCmd: string :=
    "%s /bin/echo -n '%s'; %s | /usr/bin/base64 | " + "/usr/bin/tr -d '\n'; /bin/echo -n '%s'"

  /** `CmdsInPathExploitStrategy.REMOTE_CMD`: the same, relying on `$PATH`. */
  const CmdsInPathRemoteCmd: string :=
    "%s echo -n '%s'; %s | base64 | " + "tr -d '\n'; echo -n '%s'"

  /** The fixed text of a framed template between its four slots (separator,
      identifier 1, command, identifier 2). */
  datatype Frame = Frame(open: string, mid: string, pipe: string, close: string)

  const FullPathFrame: Frame :=
    Frame(" /bin/echo -n '", "'; ", " | /usr/bin/base64 | " + "/usr/bin/tr -d '\n'; /bin/echo -n '", "'")

  const CmdsInPathFrame: Frame :=
    Frame(" echo -n '", "'; ", " | base64 | " + "tr -d '\n'; echo -n '", "'")

  function FrameOf(k: Kind): Frame
    requires k != Basic
  {
    if k == FullPath then FullPathFrame else CmdsInPathFrame
  }

  function RemoteCmd(k: Kind): string
    requires k != Basic
  {
    if k == FullPath then FullPathRemoteCmd else CmdsInPathRemoteCmd
  }

  /** A frame with a `%s` slot in each gap: the template it comes from. */
  predicate Frames(f: Frame, template: string)
  {
    template == "" + "%s" + f.open + "%s" + f.mid + "%s" + f.pipe + "%s" + f.close
    && '%' !in f.open && '%' !in f.mid && '%' !in f.pipe && '%' !in f.close
  }

  lemma FullPathIsFrame()
    ensures Frames(FullPathFrame, FullPathRemoteCmd)
  {
    FullPathHead();
    FullPathTail();
    FullPathPipe();
    assert '%' !in " /bin/echo -n '" && '%' !in "'; " && '%' !in "'";
    Glue("%s", " /bin/echo -n '", "'; ", " | /usr/bin/base64 | ", "/usr/bin/tr -d '\n'; /bin/echo -n '", "'");
  }

  lemma CmdsInPathIsFrame()
    ensures Frames(CmdsInPathFrame, CmdsInPathRemoteCmd)
  {
    CmdsInPathPieces();
    Glue("%s", " echo -n '", "'; ", " | base64 | ", "tr -d '\n'; echo -n '", "'");
  }

  /** Each framed template is its frame with a `%s` slot in each gap, and the
      frame has no `%` of its own. */
  lemma RemoteCmdIsFrame(k: Kind)
    requires k != Basic
    ensures Frames(FrameOf(k), RemoteCmd(k))
  {
    if k == FullPath { FullPathIsFrame(); } else { CmdsInPathIsFrame(); }
  }

  /** The text a payload carries before the command. */
  function Prefix(k: Kind, v: Vuln): string
  {
    if k == Basic then v.separator + " "
    else v.separator + FrameOf(k).open + ShellIdentifier1 + FrameOf(k).mid
  }

  /** The text a payload carries after the command. */
  function Suffix(k: Kind): string
  {
    if k == Basic then "" else FrameOf(k).pipe + ShellIdentifier2 + FrameOf(k).close
  }

  /** `generate_command`: the injected value for `command`. Basic puts the separator and
      a space in front of the command, in both branches of its `windows` test; FullPath
      and CmdsInPath wrap it in their frame between the two shell identifiers. */
  function GenerateCommand(k: Kind, v: Vuln, command: string): string
  {
    match k
    case Basic =>
      if v.os == "windows" then v.separator + " " + command else v.separator + " " + command
    case _ =>
      var f := FrameOf(k);
      v.separator + f.open + ShellIdentifier1 + f.mid + command + f.pipe + ShellIdentifier2 + f.close
  }

  /** The payload is what Python's `%` makes of the source's templates: `'%s %s'` with
      the separator and the command for Basic, and `REMOTE_CMD` with the separator,
      identifier 1, the command and identifier 2, in that order, for the other two. */
  lemma {:induction false} GenerateCommandFormatsTemplate(k: Kind, v: Vuln, command: string)
    ensures k == Basic ==> Format("%s %s", [v.separator, command]) == Ok(GenerateCommand(k, v, command))
    ensures k != Basic ==>
      Format(RemoteCmd(k), [v.separator, ShellIdentifier1, command, ShellIdentifier2])
      == Ok(GenerateCommand(k, v, command))
  {
    if k == Basic {
      FormatTwoSlots("", " ", "", v.separator, command);
      assert "" + "%s" + " " + "%s" + "" == "%s %s";
      assert "" + v.separator + " " + command + "" == v.separator + " " + command;
    } else {
      var f := FrameOf(k);
      RemoteCmdIsFrame(k);
      FormatFourSlots("", f.open, f.mid, f.pipe, f.close,
                      v.separator, ShellIdentifier1, command, ShellIdentifier2);
      assert "" + v.separator == v.separator;
    }
  }

  /** The remote OS tag makes no difference to a Basic payload. */
  lemma BasicIgnoresOs(v: Vuln, os: string, command: string)
    ensures GenerateCommand(Basic, v.(os := os), command) == GenerateCommand(Basic, v, command)
    ensures GenerateCommand(Basic, v, command) == v.separator + " " + command
  {
  }

  /** Every payload is the strategy's fixed prefix, the command verbatim, and the
      strategy's fixed suffix. */
  lemma PayloadShape(k: Kind, v: Vuln, command: string)
    ensures GenerateCommand(k, v, command) == Prefix(k, v) + command + Suffix(k)
  {
    if k == Basic {
      assert v.separator + " " + command + "" == v.separator + " " + command;
    } else {
      var f := FrameOf(k);
      assert v.separator + f.open + ShellIdentifier1 + f.mid + command + f.pipe + ShellIdentifier2 + f.close
          == (v.separator + f.open + ShellIdentifier1 + f.mid) + command + (f.pipe + ShellIdentifier2 + f.close);
    }
  }

  /** The text between a given prefix and suffix, when the payload has both. */
  function Strip(pre: string, suf: string, payload: string): Option<string>
  {
    if |pre| + |suf| <= |payload| && payload[..|pre|] == pre && payload[|payload| - |suf|..] == suf
    then Some(payload[|pre|..|payload| - |suf|])
    else None
  }

  /** Stripping a prefix and suffix inverts wrapping in them. */
  lemma StripInvertsWrap(pre: string, suf: string, command: string, payload: string)
    ensures Strip(pre, suf, pre + command + suf) == Some(command)
    ensures Strip(pre, suf, payload) == Some(command) <==> payload == pre + command + suf
  {
    var p := pre + command + suf;
    assert p[..|pre|] == pre;
    assert p[|p| - |suf|..] == suf;
    assert p[|pre|..|p| - |suf|] == command;
    if Strip(pre, suf, payload) == Some(command) {
      assert payload == payload[..|pre|] + payload[|pre|..|payload| - |suf|] + payload[|payload| - |suf|..];
    }
  }

  /** Reads the command back out of a payload: the inverse of `GenerateCommand`. */
  function RecoverCommand(k: Kind, v: Vuln, payload: string): Option<string>
  {
    Strip(Prefix(k, v), Suffix(k), payload)
  }

  /** A payload determines the command it carries, and a payload is recognised as
      carrying a command exactly when it is that command's payload. */
  lemma {:induction false} RecoverGeneratedCommand(k: Kind, v: Vuln, command: string, payload: string)
    ensures RecoverCommand(k, v, GenerateCommand(k, v, command)) == Some(command)
    ensures RecoverCommand(k, v, payload) == Some(command) <==> payload == GenerateCommand(k, v, command)
  {
    PayloadShape(k, v, command);
    StripInvertsWrap(Prefix(k, v), Suffix(k), command, payload);
  }

  /** `rand[::-1]`. */
  function Reverse(s: string): (r: string)
    ensures |r| == |s|
    ensures forall i :: 0 <= i < |s| ==> r[i] == s[|s| - 1 - i]
  {
    if s == [] then [] else Reverse(s[1..]) + [s[0]]
  }

  /** Reversing twice gives the token back, so the expected output of the
      FullPath/CmdsInPath check pins the token down. */
  lemma ReverseInvolution(s: string)
    ensures Reverse(Reverse(s)) == s
  {
    var r := Reverse(Reverse(s));
    assert forall i :: 0 <= i < |s| ==> r[i] == s[i];
  }

  /** The command each `can_exploit` hands to `generate_command`: `echo R|rev` for the
      framed strategies; `echo R` on a `windows` host and `/bin/echo R` elsewhere for Basic. */
  function TestCommand(k: Kind, v: Vuln, token: string): string
  {
    if k != Basic then "echo " + token + "|rev"
    else if v.os == "windows" then "echo " + token
    else "/bin/echo " + token
  }

  /** The test commands are the source's `'echo %s|rev' % rand`, `'echo %s' % rand`
      and `'/bin/echo %s' % rand`. */
  lemma TestCommandFormats(k: Kind, v: Vuln, token: string)
    ensures k != Basic ==> Format("echo %s|rev", [token]) == Ok(TestCommand(k, v, token))
    ensures k == Basic && v.os == "windows" ==> Format("echo %s", [token]) == Ok(TestCommand(k, v, token))
    ensures k == Basic && v.os != "windows" ==> Format("/bin/echo %s", [token]) == Ok(TestCommand(k, v, token))
  {
    if k != Basic {
      FormatOneSlot("echo ", "|rev", token);
      assert "echo " + "%s" + "|rev" == "echo %s|rev";
    } else if v.os == "windows" {
      FormatOneSlot("echo ", "", token);
      assert "echo " + "%s" + "" == "echo %s";
      assert "echo " + token + "" == "echo " + token;
    } else {
      FormatOneSlot("/bin/echo ", "", token);
      assert "/bin/echo " + "%s" + "" == "/bin/echo %s";
      assert "/bin/echo " + token + "" == "/bin/echo " + token;
    }
  }

  /** The output each check expects back: the reversed token and a newline for the
      framed strategies (`rev` ends its line), the token and a newline for Basic. */
  function ExpectedOutput(k: Kind, token: string): string
  {
    if k != Basic then Reverse(token) + "\n" else token + "\n"
  }

  /** The framed strategies' expected output is the source's `'%s\n' % rand[::-1]`:
      the token read backwards, then one newline character. */
  lemma ExpectedOutputFormats(token: string)
    ensures Format("%s\n", [Reverse(token)]) == Ok(ExpectedOutput(FullPath, token))
    ensures ExpectedOutput(CmdsInPath, token) == ExpectedOutput(FullPath, token)
    ensures var e := ExpectedOutput(FullPath, token);
      |e| == |token| + 1 && e[|token|] == '\n'
      && forall i :: 0 <= i < |token| ==> e[i] == token[|token| - 1 - i]
  {
    FormatOneSlot("", "\n", Reverse(token));
    assert "" + "%s" + "\n" == "%s\n";
    assert "" + Reverse(token) + "\n" == Reverse(token) + "\n";
  }

  /** The request `send` submits: the vulnerability's parameter container with the
      injectable parameter set to `cmd`, sent with the vulnerability's method to its URL. */
  function ExploitRequest(v: Vuln, cmd: string): (r: Request)
    ensures r.httpMethod == v.httpMethod && r.url == v.url
    ensures r.params.Keys == v.dc.Keys + {v.injectVar}
    ensures r.params[v.injectVar] == cmd
    ensures forall key :: key in v.dc && key != v.injectVar ==> r.params[key] == v.dc[key]
  {
    Request(v.httpMethod, v.url, v.dc[v.injectVar := cmd])
  }

  /** `ExploitStrategy.send`: copy the parameter container, set the injectable
      parameter in the copy and submit it. The vulnerability itself is a value and
      is left as it was. */
  method Send(v: Vuln, cmd: string, opener: UriOpener) returns (response: Response)
    modifies opener
    ensures opener.log == old(opener.log) + [ExploitRequest(v, cmd)]
    ensures response == opener.respond(|old(opener.log)|, ExploitRequest(v, cmd))
  {
    var exploitDc := v.dc;
    exploitDc := exploitDc[v.injectVar := cmd];
    response := opener.Open(v.httpMethod, v.url, exploitDc);
  }

  /** The request a strategy's `can_exploit` sends for a given random token. */
  function ProbeRequest(k: Kind, v: Vuln, token: string): Request
  {
    ExploitRequest(v, GenerateCommand(k, v, TestCommand(k, v, token)))
  }

  /** What `can_exploit` concludes from the body of its probe's response: `None` for
      False, or the strategy as the check leaves it for True (a Basic strategy with
      the cut points it located). */
  function Verify(s: Strategy, token: string, body: string, h: Extractors): Option<Strategy>
  {
    var expected := ExpectedOutput(s.kind, token);
    if s.kind == Basic then
      match h.defineExactCut(body, expected)
      case Some(c) => Some(s.(cut := Some(c)))
      case None => None
    else if expected == h.framed(body) then Some(s)
    else None
  }

  /** A probe's outcome given the host's response: a transport failure is the
      exception that escapes `can_exploit`, otherwise the verdict of `Verify`. */
  function Judge(s: Strategy, token: string, response: Response, h: Extractors): Result<Option<Strategy>, string>
  {
    match response
    case TransportError(e) => Err(e)
    case Body(b) => Ok(Verify(s, token, b, h))
  }

  /** When a check succeeds: the framed strategies accept exactly the body from
      which `extract_result` yields the reversed token and a newline; Basic accepts
      exactly when `_define_exact_cut` locates the token and a newline. A strategy
      that succeeds is the one probed, bound to the same vulnerability, and can
      extract results. */
  lemma VerifyCriterion(s: Strategy, token: string, body: string, h: Extractors)
    ensures var r := Verify(s, token, body, h);
      (s.kind != Basic ==> (r.Some? <==> h.framed(body) == Reverse(token) + "\n"))
      && (s.kind == Basic ==> (r.Some? <==> h.defineExactCut(body, token + "\n").Some?))
      && (r.Some? ==> r.value.kind == s.kind && r.value.vuln == s.vuln && Ready(r.value))
  {
  }

  /** A probe's outcome: a transport failure is exactly an error carrying its
      message; a success leaves a strategy of the probed kind, for the same
      vulnerability, ready to extract results. */
  lemma JudgeCases(s: Strategy, token: string, response: Response, h: Extractors)
    ensures Judge(s, token, response, h).Err? <==> response.TransportError?
    ensures response.TransportError? ==> Judge(s, token, response, h).error == response.message
    ensures var r := Judge(s, token, response, h);
      r.Ok? && r.value.Some? ==>
        r.value.value.kind == s.kind && r.value.value.vuln == s.vuln && Ready(r.value.value)
  {
    if response.Body? {
      VerifyCriterion(s, token, response.body, h);
    }
  }

  /** The exact payloads the checks inject. */
  lemma ProbePayload(k: Kind, v: Vuln, token: string)
    ensures var p := GenerateCommand(k, v, TestCommand(k, v, token));
      (k == FullPath ==>
        p == v.separator + " /bin/echo -n '" + ShellIdentifier1 + "'; " + "echo " + token + "|rev"
             + " | /usr/bin/base64 | " + "/usr/bin/tr -d '\n'; /bin/echo -n '" + ShellIdentifier2 + "'")
      && (k == CmdsInPath ==>
        p == v.separator + " echo -n '" + ShellIdentifier1 + "'; " + "echo " + token + "|rev"
             + " | base64 | " + "tr -d '\n'; echo -n '" + ShellIdentifier2 + "'")
      && (k == Basic && v.os == "windows" ==> p == v.separator + " " + "echo " + token)
      && (k == Basic && v.os != "windows" ==> p == v.separator + " " + "/bin/echo " + token)
  {
    if k != Basic {
      var f := FrameOf(k);
      FramedAssoc(v.separator, f.open, ShellIdentifier1, f.mid, "echo ", token, "|rev",
                  f.pipe, ShellIdentifier2, f.close);
      if k == FullPath {
        PipeAssoc(v.separator + f.open + ShellIdentifier1 + f.mid + "echo " + token + "|rev",
                  " | /usr/bin/base64 | ", "/usr/bin/tr -d '\n'; /bin/echo -n '", ShellIdentifier2 + f.close);
      } else {
        PipeAssoc(v.separator + f.open + ShellIdentifier1 + f.mid + "echo " + token + "|rev",
                  " | base64 | ", "tr -d '\n'; echo -n '", ShellIdentifier2 + f.close);
      }
    }
  }

  /** `can_exploit`: send the test command and compare what comes back with the
      expected output. */
  method CanExploit(s: Strategy, token: string, opener: UriOpener, h: Extractors)
    returns (r: Result<Option<Strategy>, string>)
    modifies opener
    ensures opener.log == old(opener.log) + [ProbeRequest(s.kind, s.vuln, token)]
    ensures r == Judge(s, token, opener.respond(|old(opener.log)|, ProbeRequest(s.kind, s.vuln, token)), h)
  {
    var expected := ExpectedOutput(s.kind, token);
    var command := GenerateCommand(s.kind, s.vuln, TestCommand(s.kind, s.vuln, token));
    var response := Send(s.vuln, command, opener);
    match response {
      case TransportError(e) =>
        r := Err(e);
      case Body(b) =>
        if s.kind == Basic {
          var c := h.defineExactCut(b, expected);
          r := Ok(if c.Some? then Some(s.(cut := c)) else None);
        } else {
          r := Ok(if expected == h.framed(b) then Some(s) else None);
        }
    }
  }

  /** `extract_result`: the framed strategies hand the body to `shell_handler.extract_result`;
      Basic cuts it at the points its check located. */
  function ExtractResult(s: Strategy, h: Extractors, body: string): (output: string)
    requires Ready(s)
    ensures s.kind != Basic ==> output == h.framed(body)
    ensures s.kind == Basic ==> output == h.cut(s.cut.value, body)
  {
    if s.kind == Basic then h.cut(s.cut.value, body) else h.framed(body)
  }

  /** A strategy whose check succeeded can extract results, and a Basic one cuts every
      later body at exactly the points `_define_exact_cut` located in the probe's body. */
  lemma ExtractAfterCheck(s: Strategy, token: string, probeBody: string, h: Extractors, body: string)
    requires Verify(s, token, probeBody, h).Some?
    ensures Ready(Verify(s, token, probeBody, h).value)
    ensures s.kind == Basic ==>
      h.defineExactCut(probeBody, token + "\n").Some?
      && ExtractResult(Verify(s, token, probeBody, h).value, h, body)
         == h.cut(h.defineExactCut(probeBody, token + "\n").value, body)
    ensures s.kind != Basic ==>
      ExtractResult(Verify(s, token, probeBody, h).value, h, body) == h.framed(body)
  {
    VerifyCriterion(s, token, probeBody, h);
  }

  // Proof helpers below this line only split string literals or regroup
  // concatenations, in steps small enough for the solver; a reader can skip them.

  lemma FullPathHead()
    ensures "%s /bin/echo -n '%s'; %s | /usr/bin/base64 | "
         == "%s" + " /bin/echo -n '" + "%s" + "'; " + "%s" + " | /usr/bin/base64 | "
  {
  }

  lemma FullPathTail()
    ensures "/usr/bin/tr -d '\n'; /bin/echo -n '%s'" == "/usr/bin/tr -d '\n'; /bin/echo -n '" + "%s" + "'"
  {
  }

  lemma FullPathPipe()
    ensures '%' !in " | /usr/bin/base64 | " + "/usr/bin/tr -d '\n'; /bin/echo -n '"
  {
    assert '%' !in " | /usr/bin/base64 | ";
    assert '%' !in "/usr/bin/tr -d '\n'; /bin/echo -n '";
  }

  lemma CmdsInPathPieces()
    ensures "%s echo -n '%s'; %s | base64 | " == "%s" + " echo -n '" + "%s" + "'; " + "%s" + " | base64 | "
    ensures "tr -d '\n'; echo -n '%s'" == "tr -d '\n'; echo -n '" + "%s" + "'"
    ensures '%' !in " echo -n '" && '%' !in "'; " && '%' !in "'"
    ensures '%' !in " | base64 | " + "tr -d '\n'; echo -n '"
  {
    assert '%' !in " | base64 | " && '%' !in "tr -d '\n'; echo -n '";
  }

  lemma Glue(slot: string, l1: string, l2: string, l3a: string, l3b: string, l4: string)
    ensures (slot + l1 + slot + l2 + slot + l3a) + (l3b + slot + l4)
         == "" + slot + l1 + slot + l2 + slot + (l3a + l3b) + slot + l4
  {
  }

  lemma FramedAssoc(s0: string, s1: string, s2: string, s3: string, s4: string, s5: string,
                    s6: string, s7: string, s8: string, s9: string)
    ensures s0 + s1 + s2 + s3 + (s4 + s5 + s6) + s7 + s8 + s9
         == (s0 + s1 + s2 + s3 + s4 + s5 + s6) + s7 + (s8 + s9)
  {
  }

  lemma PipeAssoc(head: string, p1: string, p2: string, tail: string)
    ensures head + (p1 + p2) + tail == head + p1 + p2 + tail
  {
  }
}

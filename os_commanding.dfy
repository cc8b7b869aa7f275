/** The `os_commanding` attack plugin: pick the first strategy that can run commands
    on the vulnerable host, and wrap it in a shell that runs commands one at a time. */
module OsCommanding {
  import opened Wrappers
  import opened PyFormat
  import opened Transport
  import opened Strategies

  /** `os_commanding.EXPLOIT_STRATEGIES`: the order in which strategies are tried. */
  const ExploitStrategies: seq<Kind> := [FullPath, CmdsInPath, Basic]

  /** The strategy object `_verify_vuln` builds at position `i` of the list. */
  function Candidate(v: Vuln, i: nat): (s: Strategy)
    requires i < |ExploitStrategies|
  {
    Strategy(ExploitStrategies[i], v, None)
  }

  /** The request sent when probing the strategy at position `i` with its random token. */
  function ProbeAt(v: Vuln, tokens: nat -> string, i: nat): Request
    requires i < |ExploitStrategies|
  {
    ProbeRequest(ExploitStrategies[i], v, tokens(i))
  }

  /** The requests sent when probing the first `n` positions, in order. */
  function Probes(v: Vuln, tokens: nat -> string, n: nat): (r: seq<Request>)
    requires n <= |ExploitStrategies|
  {
    seq(n, p requires 0 <= p < n => ProbeAt(v, tokens, p))
  }

  /** The outcome of probing position `i` when the opener had already sent `n0`
      requests before the search began (so this probe is request `n0 + i`). */
  function Outcome(v: Vuln, h: Extractors, tokens: nat -> string,
                   respond: (nat, Request) -> Response, n0: nat, i: nat): Result<Option<Strategy>, string>
    requires i < |ExploitStrategies|
  {
    Judge(Candidate(v, i), tokens(i), respond(n0 + i, ProbeAt(v, tokens, i)), h)
  }

  /** A probe's outcome: `Ok(None)` for a failed check, `Ok(Some(s))` for a success
      leaving strategy `s`, `Err(e)` for a transport exception with message `e`. */
  type Verdict = Result<Option<Strategy>, string>

  /** The outcomes of probing every position of the list, each in its turn. */
  function Outcomes(v: Vuln, h: Extractors, tokens: nat -> string,
                    respond: (nat, Request) -> Response, n0: nat): (outs: seq<Verdict>)
    ensures |outs| == |ExploitStrategies|
    ensures forall p :: 0 <= p < |outs| ==> outs[p] == Outcome(v, h, tokens, respond, n0, p)
  {
    seq(|ExploitStrategies|, p requires 0 <= p < |ExploitStrategies| => Outcome(v, h, tokens, respond, n0, p))
  }

  /** What a search through the list ends with, and how many positions it probed. */
  datatype Selection = Selection(result: Verdict, probed: nat)

  /** The search of `_verify_vuln` from position `i`, given each position's outcome:
      a failed check moves on, a success or a transport exception ends the search,
      an exhausted list is `None`. */
  function Search(outs: seq<Verdict>, i: nat): (sel: Selection)
    requires i <= |outs|
    ensures i < |outs| ==> i < sel.probed <= |outs|
    ensures i == |outs| ==> sel == Selection(Ok(None), i)
    decreases |outs| - i
  {
    if i == |outs| then Selection(Ok(None), i)
    else if outs[i] == Ok(None) then Search(outs, i + 1)
    else Selection(outs[i], i + 1)
  }

  /** The whole search for one vulnerability, started when the opener had sent `n0` requests. */
  function Select(v: Vuln, h: Extractors, tokens: nat -> string,
                  respond: (nat, Request) -> Response, n0: nat): (sel: Selection)
    ensures 0 < sel.probed <= |ExploitStrategies|
  {
    Search(Outcomes(v, h, tokens, respond, n0), 0)
  }

  /** The search ends at the first position whose outcome is not a failed check:
      every earlier position failed, the result is that position's outcome, and
      unless the list ran out that outcome is a success or an exception. */
  lemma {:induction false} SearchIsFirstDecisive(outs: seq<Verdict>, i: nat)
    requires i < |outs|
    ensures var sel := Search(outs, i);
      i < sel.probed <= |outs|
      && (forall p :: i <= p < sel.probed - 1 ==> outs[p] == Ok(None))
      && sel.result == outs[sel.probed - 1]
      && (sel.probed < |outs| ==> outs[sel.probed - 1] != Ok(None))
    decreases |outs| - i
  {
    if outs[i] == Ok(None) && i + 1 < |outs| {
      SearchIsFirstDecisive(outs, i + 1);
    }
  }

  /** The search from the top of the list, in terms of the strategies' own outcomes. */
  lemma SelectIsFirstDecisive(v: Vuln, h: Extractors, tokens: nat -> string,
                              respond: (nat, Request) -> Response, n0: nat)
    ensures var sel := Select(v, h, tokens, respond, n0);
      0 < sel.probed <= |ExploitStrategies|
      && (forall p :: 0 <= p < sel.probed - 1 ==> Outcome(v, h, tokens, respond, n0, p) == Ok(None))
      && sel.result == Outcome(v, h, tokens, respond, n0, sel.probed - 1)
      && (sel.probed < |ExploitStrategies| ==> Outcome(v, h, tokens, respond, n0, sel.probed - 1) != Ok(None))
  {
    SearchIsFirstDecisive(Outcomes(v, h, tokens, respond, n0), 0);
  }

  /** Stopping at the first success: if the check at position `j` succeeds and every
      earlier one failed, the search returns exactly that strategy, after probing
      positions 0 to `j` and nothing later. */
  lemma FirstSuccessWins(v: Vuln, h: Extractors, tokens: nat -> string,
                         respond: (nat, Request) -> Response, n0: nat, j: nat)
    requires j < |ExploitStrategies|
    requires forall p :: 0 <= p < j ==> Outcome(v, h, tokens, respond, n0, p) == Ok(None)
    requires Outcome(v, h, tokens, respond, n0, j).Ok? && Outcome(v, h, tokens, respond, n0, j).value.Some?
    ensures Select(v, h, tokens, respond, n0) == Selection(Outcome(v, h, tokens, respond, n0, j), j + 1)
  {
    SelectIsFirstDecisive(v, h, tokens, respond, n0);
    var sel := Select(v, h, tokens, respond, n0);
    if sel.probed - 1 != j {
      assert false;
    }
  }

  /** What a successful search returns: a strategy of the kind at the last position
      probed, bound to the vulnerability, ready to extract results, after every
      earlier strategy in the list failed its check. */
  lemma SelectedStrategy(v: Vuln, h: Extractors, tokens: nat -> string,
                         respond: (nat, Request) -> Response, n0: nat)
    ensures var sel := Select(v, h, tokens, respond, n0);
      sel.result.Ok? && sel.result.value.Some? ==>
        var s := sel.result.value.value;
        s.kind == ExploitStrategies[sel.probed - 1] && s.vuln == v && Ready(s)
        && (forall p :: 0 <= p < sel.probed - 1 ==> Outcome(v, h, tokens, respond, n0, p) == Ok(None))
  {
    SelectIsFirstDecisive(v, h, tokens, respond, n0);
    var sel := Select(v, h, tokens, respond, n0);
    if sel.result.Ok? && sel.result.value.Some? {
      var k := sel.probed - 1;
      JudgeCases(Candidate(v, k), tokens(k), respond(n0 + k, ProbeAt(v, tokens, k)), h);
    }
  }

  /** `_verify_vuln` returns False exactly when every strategy in the list failed its
      check, all three having been probed. */
  lemma NoneIffAllFail(v: Vuln, h: Extractors, tokens: nat -> string,
                       respond: (nat, Request) -> Response, n0: nat)
    ensures Select(v, h, tokens, respond, n0).result == Ok(None)
        <==> forall p :: 0 <= p < |ExploitStrategies| ==> Outcome(v, h, tokens, respond, n0, p) == Ok(None)
    ensures Select(v, h, tokens, respond, n0).result == Ok(None)
        ==> Select(v, h, tokens, respond, n0).probed == |ExploitStrategies|
  {
    SelectIsFirstDecisive(v, h, tokens, respond, n0);
  }

  /** One iteration of `_verify_vuln`: build the strategy at position `i` and call
      its `can_exploit`, as request `n0 + i` of the opener. */
  method TryStrategy(v: Vuln, opener: UriOpener, h: Extractors, tokens: nat -> string,
                     i: nat, ghost n0: nat)
    returns (verdict: Verdict)
    requires i < |ExploitStrategies| && |opener.log| == n0 + i
    modifies opener
    ensures opener.log == old(opener.log) + [ProbeAt(v, tokens, i)]
    ensures verdict == Outcome(v, h, tokens, opener.respond, n0, i)
  {
    var strategy := Strategy(ExploitStrategies[i], v, None);
    verdict := CanExploit(strategy, tokens(i), opener, h);
  }

  /** `_verify_vuln`: try each strategy of the list in order; return the first whose
      `can_exploit` succeeds, or None (the source's False) when all fail. A transport
      exception raised while probing is not caught and ends the search. */
  method VerifyVuln(v: Vuln, opener: UriOpener, h: Extractors, tokens: nat -> string)
    returns (r: Verdict)
    modifies opener
    ensures var sel := Select(v, h, tokens, opener.respond, |old(opener.log)|);
      r == sel.result && opener.log == old(opener.log) + Probes(v, tokens, sel.probed)
  {
    ghost var n0 := |opener.log|;
    ghost var outs := Outcomes(v, h, tokens, opener.respond, n0);
    var i := 0;
    while i < |ExploitStrategies|
      invariant 0 <= i <= |ExploitStrategies|
      invariant opener.log == old(opener.log) + Probes(v, tokens, i)
      invariant Search(outs, 0) == Search(outs, i)
    {
      ghost var before := opener.log;
      var verdict := TryStrategy(v, opener, h, tokens, i, n0);
      ProbesStep(v, tokens, i);
      SnocAssoc(old(opener.log), Probes(v, tokens, i), ProbeAt(v, tokens, i));
      if verdict != Ok(None) {
        assert Search(outs, i) == Selection(verdict, i + 1);
        return verdict;
      }
      i := i + 1;
    }
    return Ok(None);
  }

  /** `_generate_shell`: a shell bound to the strategy `_verify_vuln` found, or None. */
  method GenerateShell(v: Vuln, opener: UriOpener, h: Extractors, tokens: nat -> string)
    returns (r: Result<Option<OSCommandingShell>, string>)
    modifies opener
    ensures var sel := Select(v, h, tokens, opener.respond, |old(opener.log)|);
      opener.log == old(opener.log) + Probes(v, tokens, sel.probed)
      && (sel.result.Err? ==> r == Err(sel.result.error))
      && (sel.result == Ok(None) ==> r == Ok(None))
      && (sel.result.Ok? && sel.result.value.Some? ==>
            r.Ok? && r.value.Some? && fresh(r.value.value)
            && r.value.value.strategy == sel.result.value.value
            && r.value.value.opener == opener && r.value.value.extractors == h
            && r.value.value.Valid())
  {
    ghost var n0 := |opener.log|;
    var strategy := VerifyVuln(v, opener, h, tokens);
    SelectedStrategy(v, h, tokens, opener.respond, n0);
    match strategy {
      case Err(e) =>
        r := Err(e);
      case Ok(None) =>
        r := Ok(None);
      case Ok(Some(s)) =>
        var shell := new OSCommandingShell(s, opener, h);
        r := Ok(Some(shell));
    }
  }

  /** The fixed text of the message `execute` returns when a send fails. */
  const SendErrorPrefix: string := "Error \""
  const SendErrorSuffix: string := "\" while sending command to remote host. Please " + "try again."

  /** `msg % e` in `execute`: the error text quoted inside the diagnostic. */
  function SendErrorMessage(e: string): string
  {
    SendErrorPrefix + e + SendErrorSuffix
  }

  /** The diagnostic is the source's message template formatted with the error text. */
  lemma SendErrorMessageFormats(e: string)
    ensures Format("Error \"%s\" while sending command to remote host. Please " + "try again.", [e])
         == Ok(SendErrorMessage(e))
  {
    SendErrorTemplate();
    FormatOneSlot(SendErrorPrefix, SendErrorSuffix, e);
  }

  lemma SendErrorTemplate()
    ensures "Error \"%s\" while sending command to remote host. Please " + "try again."
         == SendErrorPrefix + "%s" + SendErrorSuffix
    ensures '%' !in SendErrorPrefix && '%' !in SendErrorSuffix
  {
    SendErrorSplit1();
    SendErrorSplit2();
    SendErrorSplit3();
    SendErrorLiterals();
  }

  lemma SendErrorLiterals()
    ensures '%' !in SendErrorPrefix && '%' !in SendErrorSuffix
  {
    SendErrorSplit2();
    assert '%' !in "\" while sending ";
    assert '%' !in "command to remote host. Please ";
    assert '%' !in "try again.";
  }

  /** Reads the error text back out of a diagnostic: the inverse of `SendErrorMessage`. */
  function ErrorCause(msg: string): Option<string>
  {
    var pre, suf := SendErrorPrefix, SendErrorSuffix;
    if |pre| + |suf| <= |msg| && msg[..|pre|] == pre && msg[|msg| - |suf|..] == suf
    then Some(msg[|pre|..|msg| - |suf|])
    else None
  }

  /** The diagnostic carries the transport's error text intact and recoverably. */
  lemma {:induction false} ErrorCauseRecovered(e: string)
    ensures ErrorCause(SendErrorMessage(e)) == Some(e)
    ensures var m := SendErrorMessage(e);
      m[|SendErrorPrefix|..|SendErrorPrefix| + |e|] == e
  {
    var m := SendErrorMessage(e);
    assert m == SendErrorPrefix + e + SendErrorSuffix;
    assert m[..|SendErrorPrefix|] == SendErrorPrefix;
    assert m[|m| - |SendErrorSuffix|..] == SendErrorSuffix;
    assert m[|SendErrorPrefix|..|m| - |SendErrorSuffix|] == e;
  }

  /** What `execute` returns for the response to its request: the strategy's
      extraction of the body, or the diagnostic for a transport exception. */
  function ShellOutput(s: Strategy, h: Extractors, response: Response): string
    requires Ready(s)
  {
    match response
    case TransportError(e) => SendErrorMessage(e)
    case Body(b) => ExtractResult(s, h, b)
  }

  /** A transport failure never escapes `execute`: the shell answers with text from
      which the failure's own message can be read back; a body is handed to the
      bound strategy's `extract_result`. */
  lemma ShellOutputCases(s: Strategy, h: Extractors, response: Response)
    requires Ready(s)
    ensures response.TransportError? ==> ErrorCause(ShellOutput(s, h, response)) == Some(response.message)
    ensures response.Body? && s.kind != Basic ==> ShellOutput(s, h, response) == h.framed(response.body)
    ensures response.Body? && s.kind == Basic ==> ShellOutput(s, h, response) == h.cut(s.cut.value, response.body)
  {
    if response.TransportError? {
      ErrorCauseRecovered(response.message);
    }
  }

  /** `OSCommandingShell`: a shell over one verified strategy. The strategy, the
      opener and the extraction helpers are fixed for the shell's lifetime; nothing
      else is kept between commands. */
  class OSCommandingShell {
    const strategy: Strategy
    const opener: UriOpener
    const extractors: Extractors

    ghost predicate Valid()
    {
      Ready(strategy)
    }

    constructor (strategy: Strategy, opener: UriOpener, extractors: Extractors)
      requires Ready(strategy)
      ensures Valid()
      ensures this.strategy == strategy && this.opener == opener && this.extractors == extractors
    {
      this.strategy := strategy;
      this.opener := opener;
      this.extractors := extractors;
    }

    /** `execute`: generate the strategy's payload for `command`, send it, and
        return the extracted output, or the diagnostic if the send raised. */
    method Execute(command: string) returns (output: string)
      requires Valid()
      modifies opener
      ensures var request := ExploitRequest(strategy.vuln, GenerateCommand(strategy.kind, strategy.vuln, command));
        opener.log == old(opener.log) + [request]
        && output == ShellOutput(strategy, extractors, opener.respond(|old(opener.log)|, request))
    {
      var strategyCmd := GenerateCommand(strategy.kind, strategy.vuln, command);
      var response := Send(strategy.vuln, strategyCmd, opener);
      match response {
        case TransportError(e) =>
          output := SendErrorMessage(e);
        case Body(b) =>
          output := ExtractResult(strategy, extractors, b);
      }
    }

    /** `get_name`. */
    function Name(): string
    {
      "os_commanding"
    }
  }

  // Proof helpers below this line only split string literals, regroup concatenations
  // or unfold one step of `Probes`, in steps small enough for the solver; a reader
  // can skip them.

  lemma SnocAssoc<T>(a: seq<T>, b: seq<T>, x: T)
    ensures a + b + [x] == a + (b + [x])
  {
  }

  lemma ProbesStep(v: Vuln, tokens: nat -> string, i: nat)
    requires i < |ExploitStrategies|
    ensures Probes(v, tokens, i + 1) == Probes(v, tokens, i) + [ProbeAt(v, tokens, i)]
  {
  }

  lemma SendErrorSplit1()
    ensures "Error \"%s\" while sending command to remote host. Please "
         == "Error \"%s\" while sending " + "command to remote host. Please "
  {
  }

  lemma SendErrorSplit2()
    ensures "\" while sending command to remote host. Please "
         == "\" while sending " + "command to remote host. Please "
  {
  }

  lemma SendErrorSplit3()
    ensures "Error \"%s\" while sending " == "Error \"" + "%s" + "\" while sending "
  {
  }
}

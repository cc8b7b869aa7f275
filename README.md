# os_commanding exploit strategies, modelled in Dafny

This project models the core of w3af's `os_commanding` attack plugin
(`plugins/attack/os_commanding.py`). The plugin has three parts.

- **Strategies.** `FullPathExploitStrategy`, `CmdsInPathExploitStrategy` and
  `BasicExploitStrategy` each turn a shell command into the value injected into the
  vulnerable parameter (`generate_command`). Each submits that value (`send`), checks
  with a random token that commands really run (`can_exploit`), and reads a command's
  output back out of a response (`extract_result`).
- **Strategy selection.** `_verify_vuln` tries the strategies in the fixed order
  FullPath, CmdsInPath, Basic. It returns the first whose check succeeds.
  `_generate_shell` wraps that strategy in an `OSCommandingShell`.
- **The shell.** `execute` sends one command through the bound strategy. If the
  opener raises, it returns a diagnostic string instead of raising.

Files:

- `wrappers.dfy`: `Option` and `Result`.
- `py_format.dfy`: Python's `%` operator for `%s`/`%%` templates, with lemmas that fill
  templates of one, two and four slots.
- `transport.dfy`: requests, responses, and the `UriOpener` class. The opener logs
  every request it sends. The remote host is a function `respond(n, request)` giving
  the answer to the `n`-th request.
- `strategies.dfy`: the vulnerability record, the strategies as a datatype,
  payloads, probes, `send`, `can_exploit` and `extract_result`.
- `os_commanding.dfy`: the search of `_verify_vuln` as a specification function
  `Select`, the `VerifyVuln` loop proved against it, `GenerateShell`, and the
  `OSCommandingShell` class.

The three strategies are pure apart from their requests, so they are values of one
datatype. The opener's log is the state that changes: `VerifyVuln` and
`OSCommandingShell.Execute` are methods that append to it. Their `ensures` state
exactly which requests were sent, in which order, and what was returned.

Three behaviours of the code are worth stating outright, because the model keeps them:

- The two output markers that frame a command's output are the module constants
  `shell_handler.SHELL_IDENTIFIER_1`/`_2` (`plugins/attack/os_commanding.py:119-120`), the
  same on every call. The model has two fixed, distinct strings.
- A `w3afException` raised by the opener inside `can_exploit` is caught neither by
  `_verify_vuln` (`:192-206`) nor by `_generate_shell` (`:177`). It ends the search
  and escapes both. The model returns it as `Err` with the exception's message.
- `_verify_vuln` returns `False` when every strategy fails (`:206`). The model gives
  `Ok(None)`, which `_generate_shell` turns into `None` as at `:183-184`.

## Model

| member | source | states |
|---|---|---|
| Strategies.GenerateCommandFormatsTemplate | plugins/attack/os_commanding.py:117-120 | For the framed strategies, the payload is Python's `REMOTE_CMD % (separator, SHELL_IDENTIFIER_1, command, SHELL_IDENTIFIER_2)`, slots filled in that order. For Basic it is `'%s %s' % (separator, command)`. |
| Strategies.RemoteCmdIsFrame | plugins/attack/os_commanding.py:103-104 | Each `REMOTE_CMD` is its fixed frame with a `%s` in each of the four gaps. The frame has no `%` of its own. Its `'\n'` is a real newline character. |
| Strategies.BasicIgnoresOs | plugins/attack/os_commanding.py:85-91 | A Basic payload is `separator + " " + command`, whatever the remote OS tag. |
| Strategies.PayloadShape | plugins/attack/os_commanding.py:117-133 | Every payload is a fixed prefix for the strategy and separator, then the command verbatim, then a fixed suffix. |
| Strategies.StripInvertsWrap | plugins/attack/os_commanding.py:117-120 | Wrapping a command in a fixed prefix and suffix can be undone: stripping them recovers the command. Only a payload with exactly that prefix and suffix yields it. |
| Strategies.RecoverGeneratedCommand | plugins/attack/os_commanding.py:85-133 | Stripping the prefix and suffix gives back the command, so different commands give different payloads. A payload yields command `c` exactly when it is `c`'s payload. |
| Strategies.Reverse | plugins/attack/os_commanding.py:112 | `rand[::-1]` has the token's length, and its position `i` holds the token's position `len - 1 - i`. |
| Strategies.ReverseInvolution | plugins/attack/os_commanding.py:110-112 | Reversing twice gives the token back. |
| Strategies.TestCommandFormats | plugins/attack/os_commanding.py:71-108 | The test commands are `'echo %s\|rev' % rand` for the framed strategies. For Basic they are `'echo %s' % rand` on `windows` and `'/bin/echo %s' % rand` elsewhere. |
| Strategies.ExpectedOutputFormats | plugins/attack/os_commanding.py:110-112 | The framed strategies expect `'%s\n' % rand[::-1]`: the reversed token, then exactly one newline. CmdsInPath expects the same as FullPath. |
| Strategies.ProbePayload | plugins/attack/os_commanding.py:71-108 | The exact probe payloads. FullPath sends `sep /bin/echo -n 'ID1'; echo R\|rev \| /usr/bin/base64 \| /usr/bin/tr -d '<newline>'; /bin/echo -n 'ID2'`. CmdsInPath sends the same without the paths. Basic sends `sep echo R` on windows and `sep /bin/echo R` otherwise. |
| Strategies.ExploitRequest | plugins/attack/os_commanding.py:47-55 | The submitted request uses the vulnerability's method and URL. Its parameters are the vulnerability's, with only the injectable key set to the payload (the key is added if it was absent). Every other key is unchanged. |
| Strategies.Send | plugins/attack/os_commanding.py:47-55 | `send` appends exactly one request, `ExploitRequest(vuln, cmd)`, to the opener's log. It returns the host's answer to that request. |
| Transport.UriOpener.Open | plugins/attack/os_commanding.py:49-54 | Calling the opener by method name appends one request to its log and returns the host's answer to it. |
| Strategies.VerifyCriterion | plugins/attack/os_commanding.py:106-115 | A framed strategy's check succeeds exactly when `extract_result` of the body equals `reverse(R) + "\n"`. Basic's succeeds exactly when `_define_exact_cut(body, R + "\n")` does. A successful strategy has the same kind and vulnerability as the one probed, and can extract results. |
| Strategies.JudgeCases | plugins/attack/os_commanding.py:71-83 | A probe ends in an error exactly when the opener raised, and the error carries the exception's message. Otherwise the check decides. |
| Strategies.CanExploit | plugins/attack/os_commanding.py:106-115 | `can_exploit` sends exactly one request: the strategy's payload for its test command. Its verdict is the check applied to the host's answer. |
| Strategies.ExtractResult | plugins/attack/os_commanding.py:93-123 | `extract_result` can be called only on a strategy ready to extract, which every shell guarantees through `Valid()`. A framed strategy returns `shell_handler.extract_result(body)` (:122-123). Basic returns `_cut(body)` at the cut points its check recorded (:93-94). |
| Strategies.ExtractAfterCheck | plugins/attack/os_commanding.py:83-94 | A strategy whose check succeeded is ready to extract. Afterwards Basic cuts every body at exactly the points `_define_exact_cut` located for `R + "\n"` in the probe's body. The framed strategies hand the body to `shell_handler.extract_result`. |
| OsCommanding.Search | plugins/attack/os_commanding.py:192-206 | The search probes at least one position, and never more than the list holds. |
| OsCommanding.SearchIsFirstDecisive | plugins/attack/os_commanding.py:192-206 | The search stops at the first position whose check does not simply fail. Every earlier check failed, and the result is that position's outcome. Unless the list ran out, that outcome is a success or an exception. |
| OsCommanding.SelectIsFirstDecisive | plugins/attack/os_commanding.py:142-143 | The same, for the fixed list FullPath, CmdsInPath, Basic and each strategy's own probe outcome. |
| OsCommanding.FirstSuccessWins | plugins/attack/os_commanding.py:199-201 | If strategy `j` succeeds and all earlier ones fail, the result is strategy `j`. Exactly `j + 1` strategies are probed. |
| OsCommanding.SelectedStrategy | plugins/attack/os_commanding.py:194-201 | A returned strategy is of the kind at the last position probed, bound to the vulnerability, and able to extract results. Every earlier strategy failed. |
| OsCommanding.NoneIffAllFail | plugins/attack/os_commanding.py:203-206 | The result is "not exploitable" exactly when all three checks fail. All three are probed in that case. |
| OsCommanding.TryStrategy | plugins/attack/os_commanding.py:194-199 | One iteration builds the strategy at position `i` and sends its probe. Its verdict is that position's outcome. |
| OsCommanding.VerifyVuln | plugins/attack/os_commanding.py:186-206 | `_verify_vuln` returns what `Select` specifies. The opener's log grows by exactly the probes of the strategies tried, in list order. Nothing after the first success or exception is sent. |
| OsCommanding.GenerateShell | plugins/attack/os_commanding.py:170-184 | With no verified strategy the result is None. A transport error is passed on. Otherwise a fresh shell is bound to exactly the strategy that succeeded, and is ready to `execute` commands. |
| OsCommanding.SendErrorMessageFormats | plugins/attack/os_commanding.py:250-252 | The diagnostic is the source's message template formatted with the error text. |
| OsCommanding.ErrorCauseRecovered | plugins/attack/os_commanding.py:249-252 | The diagnostic embeds the error text intact at a fixed position, and the text can be read back out. |
| OsCommanding.ShellOutputCases | plugins/attack/os_commanding.py:246-254 | If the opener raises, `execute` returns text from which the error can be recovered. Otherwise it returns the bound strategy's extraction of the body. |
| OsCommanding.OSCommandingShell.constructor | plugins/attack/os_commanding.py:230-235 | The shell is bound to the given strategy, opener and extraction helpers, fixed for its lifetime. |
| OsCommanding.OSCommandingShell.Execute | plugins/attack/os_commanding.py:238-254 | `execute` always sends exactly one request, the payload `generate_command(command)`. It returns the output for the host's answer and never lets the opener's `w3afException` escape. |

## Left out

- HTTP transport: the host is the function `respond`. Looking up the opener method by
  name (`getattr`) is not modelled, nor the `AttributeError` an unknown method would
  raise. Parameters go as a map, not as the string `str(exploit_dc)`, because the
  container's string form belongs to the data-container class, which is not part of
  this model. A Dafny `map` also does not keep the container's key order.
- `rand_alpha(8)`: the token for the `i`-th strategy tried is the parameter
  `tokens(i)`. The model does not require it to be eight letters long.
- `shell_handler.extract_result`, `CommonAttackMethods._define_exact_cut` and `_cut` are
  uninterpreted functions (`Extractors`). shell_handler.py and common_attack_methods.py
  are not part of this model. So base64 decoding, marker cutting and the "output comes
  back byte for byte" round trip are not modelled or proved.
- The values of `SHELL_IDENTIFIER_1`/`_2` are stand-ins: two fixed, distinct strings.
- Basic's `_define_exact_cut` stores cut points on the strategy object. The model
  returns an updated strategy value instead. The vulnerability and the strategies are
  values, so aliasing between them is not modelled.
- `OsCommanding.OSCommandingShell.Name` (`get_name`, `:256-257`) is the constant
  `"os_commanding"`. It carries no contract, because nothing can be said about it
  beyond its value.
- Logging (`om.out`), the `exec_debug` decorator, `worker_pool`, and the
  `ExecShell`/`AttackPlugin` base classes are not modelled.
- Plugin metadata is not modelled: `get_attack_type`, `get_kb_location`,
  `get_long_desc`, and `get_root_probability` (a float).
- Python exceptions other than the opener's `w3afException` are not modelled.
  Formatting errors cannot occur here: the lemmas show that every template fills
  successfully.
- Concurrent use of one opener by several shells is not modelled. Each method runs
  alone against the opener's log.

# Text summarizer, modelled in Dafny

A model of `text-summarizer.py`, a command-line tool that reads a text (from
`--text`, from `--file`, from standard input with `--stdin`, or interactively),
asks a chat-completion service to summarise it in one of three styles, and
prints the summary. Everything the script decides by itself is modelled as
pure functions:

- **Whitespace**: Python's `str.strip()` with no argument, over the exact
  character set of `str.isspace()`. The script uses it on the input (line 87)
  and on the reply (line 68).
- **Decimal**: `str(n)` for an `int`, the `{max_words}` field of the prompt,
  with its inverse.
- **Prompt**: `build_prompt(style, max_words)`, and a parser that reads a
  built prompt back.
- **Summarize**: the two-message request of `summarize`, the user turn
  `prompt + "\n\nTEXT:\n" + text`, and how the first choice of the reply
  becomes the summary or an error message.
- **Input**: `read_input` with its first-match precedence, decided by Python
  truthiness.
- **Driver**: `main` after argument parsing. It checks the credential, then
  reads and trims the input, then makes one service call. The outcome is a
  `Run`: the exit status, what went to standard output and to standard error,
  and the list of requests sent to the service.

The environment (`OPENAI_API_KEY`, the readable files with their decoded
contents, everything standard input yields) is an `Environment` value. The
service is a function `Request -> Reply`. A reply is either the list of
candidate contents (each possibly absent) or the text of the exception that
the call raised.

Some behaviour of the code differs from what a reader might expect:

- A `--file` that is missing or cannot be opened makes `open` raise
  (text-summarizer.py:24). A file that is not valid UTF-8 opens, and then
  `f.read()` raises `UnicodeDecodeError` (text-summarizer.py:25). Both happen
  in `read_input`, outside `main`'s `try`, so the exception escapes `main` and
  Python exits with status 1, printing a traceback. Neither is reported as an
  input error with status 2. `Driver.Main` models both as `Status.Raised`
  with an `Input.ReadError`, and `Driver.ExitStatus` maps it to 1.
- The expression `resp.choices[0].message.content.strip()` runs inside the
  `try`. So an empty list of choices (`IndexError`) or a missing content
  (`AttributeError`) is reported as `ERROR: <message>` with status 1, like a
  failed call.
- In the interactive fallback, the paste prompt is written to standard output
  before the input is read. It stays there whether the run succeeds or fails.

## Model

| member | source | states |
|---|---|---|
| `Whitespace.SpaceCharacters` | text-summarizer.py:87 | The characters `strip` removes: among ASCII exactly space, tab, newline, carriage return, vertical tab, form feed and U+001C..U+001F; none beyond U+3000 |
| `Whitespace.TrimStart` | text-summarizer.py:68 | The leading half of `strip`: the result is a suffix of the input, everything removed is whitespace, and the result does not start with whitespace |
| `Whitespace.TrimEnd` | text-summarizer.py:68 | The trailing half of `strip`: the result is a prefix of the input, everything removed is whitespace, and the result does not end with whitespace |
| `Whitespace.Strip` | text-summarizer.py:87 | `str.strip()` is no longer than its input, has no whitespace at either end, and is empty exactly when the input is all whitespace |
| `Whitespace.StripFramed` | text-summarizer.py:87 | The stripped text is a contiguous slice of the input, with only whitespace before and after it |
| `Whitespace.TrimStartPadded` | text-summarizer.py:87 | Whitespace followed by text that does not start with whitespace: stripping the front removes exactly the whitespace |
| `Whitespace.TrimEndPadded` | text-summarizer.py:87 | Text that does not end in whitespace followed by whitespace: stripping the end removes exactly the whitespace |
| `Whitespace.StripUnique` | text-summarizer.py:87 | Reference characterisation: for any text with no outer whitespace, padded on both sides by whitespace, `strip` returns exactly that text |
| `Whitespace.StripIdempotent` | text-summarizer.py:68 | Stripping twice equals stripping once |
| `Decimal.NatToDecimal` | text-summarizer.py:44 | The rendering of a natural number is a non-empty string of digits with no leading zero |
| `Decimal.IntToDecimal` | text-summarizer.py:44 | `str(max_words)` starts with `-` exactly for negative numbers, and uses only digits and `-`. The digits after the sign are non-empty, have no leading zero, and are `0` only for zero |
| `Decimal.NatToDecimalValue` | text-summarizer.py:44 | The digits of a natural number evaluate back to that number |
| `Decimal.IntToDecimalRoundTrip` | text-summarizer.py:44 | Reading back the rendering of any `int`, including zero and negatives, gives that `int` |
| `Decimal.IntToDecimalInjective` | text-summarizer.py:44 | Two `int`s have the same rendering if and only if they are equal |
| `Decimal.NumeralSpanStops` | text-summarizer.py:44 | A run of numeral characters followed by a space is scanned exactly to its end, so the budget is delimited in the prompt |
| `Prompt.StyleOf` | text-summarizer.py:35-40 | Exact string match: `"bullets"` selects the bullet variant, `"tl;dr"` the TL;DR variant, and every other string (including `"paragraph"`) the paragraph variant |
| `Prompt.Instruction` | text-summarizer.py:36-40 | Each instruction line starts with `Return a ` and ends with `.`. The three lines already differ at the next character |
| `Prompt.BuildPrompt` | text-summarizer.py:34-47 | The prompt starts with the selected instruction line, a newline and `Keep it under about `. Then comes `str(max_words)`, and after it exactly ` words.\n` and the two fixed lines |
| `Prompt.PromptEndsWithNewline` | text-summarizer.py:43-46 | Every prompt ends with a newline |
| `Prompt.ParseHeadRoundTrip` | text-summarizer.py:35-43 | The three instruction lines are told apart: after any of them, the parser recognises that variant |
| `Prompt.ParseBudgetRoundTrip` | text-summarizer.py:44-47 | The budget line and the two fixed lines read back as the budget, with what follows them untouched |
| `Prompt.PromptRoundTrip` | text-summarizer.py:34-47 | Reading back a built prompt, followed by any text, gives the style variant, the word budget and that text |
| `Prompt.PromptDeterminesStyleAndBudget` | text-summarizer.py:34-47 | Two prompts are equal if and only if they come from the same style variant and the same `max_words` |
| `Summarize.UserContent` | text-summarizer.py:64 | The user turn starts with the prompt followed by `\n\nTEXT:\n`, and ends with the input text, unchanged |
| `Summarize.UserContentRoundTrip` | text-summarizer.py:58-64 | The user turn reads back as the style variant, the budget and exactly the input text |
| `Summarize.BuildRequest` | text-summarizer.py:57-66 | The request names the model and has two turns: the fixed system sentence, then the user turn `prompt + "\n\nTEXT:\n" + text`, which reads back as the style, the budget and the text |
| `Summarize.BuildRequestInjective` | text-summarizer.py:57-66 | Two requests are equal if and only if text, model, style variant and budget are equal |
| `Summarize.ReplyText` | text-summarizer.py:68 | A summary exists exactly when the first choice has content. It is that content stripped. Otherwise the error is the exception text: the service's message, or the `IndexError` or `AttributeError` text |
| `Summarize.Summarize` | text-summarizer.py:50-68 | One call with the built request. Success exactly when the first choice has content, and then the summary is that content stripped. A raised error's message is passed on unchanged. No choice gives the `IndexError` text, and a missing content the `AttributeError` text |
| `Input.ReadInput` | text-summarizer.py:19-31 | First match wins: truthy text as given, then truthy file's contents (or an I/O error if unreadable), then standard input if `--stdin`, then the paste prompt on standard output and standard input |
| `Input.EmptySourceFallsThrough` | text-summarizer.py:20-23 | An empty `--text` or `--file` behaves exactly as if the option were absent |
| `Input.ParsedSourceIsTheOneGiven` | text-summarizer.py:19-31 | With at most one source given, the one given is read. The paste prompt is written exactly when neither `--text` nor `--file` is non-empty and `--stdin` is not set |
| `Driver.TrimmedInput` | text-summarizer.py:87 | The trimmed input fails exactly when reading fails. Otherwise it is the input read, stripped: it has no outer whitespace and is empty exactly when the input read is all whitespace |
| `Driver.Echo` | text-summarizer.py:30 | Reading writes the paste prompt exactly in the interactive fallback, and otherwise nothing |
| `Driver.CallService` | text-summarizer.py:92-101 | Exactly one request is sent. When `summarize` fails, status 1 and `ERROR: <message>` on standard error. When it gives a summary, status 0, with the summary printed after what was already on standard output |
| `Driver.Main` | text-summarizer.py:82-101 | Credential first: if it is missing or empty, status 2 with the `OPENAI_API_KEY` error, nothing read and nothing sent. Then an unreadable file escapes with nothing sent. Then all-whitespace input gives status 2 with `No input text provided.` and nothing sent. Otherwise the service is called once with the trimmed text |
| `Driver.ExitStatus` | text-summarizer.py:104-105 | The process exits with the code `main` returns, or with 1 when an exception escapes it |
| `Driver.ExitStatusMeaning` | text-summarizer.py:82-105 | Every run exits with 0, 1 or 2. Status 0 means one call whose reply held a summary, printed as the last line of standard output. Any other run writes at most the paste prompt to standard output |
| `Driver.RequestsCarryTrimmedText` | text-summarizer.py:87-95 | At most one request is sent. Its user turn reads back as the command line's style and budget, with a non-empty text that has no outer whitespace |
| `Driver.StubbedServiceSucceeds` | text-summarizer.py:94-101 | With a service that always answers `x`, any run with a credential and non-blank input exits 0, writes nothing to standard error, and prints `x` stripped |
| `Driver.FailingServiceReported` | text-summarizer.py:94-98 | With a service that raises message `m`, any run with a credential and non-blank input exits 1 and writes `ERROR: m` on standard error |

## Left out

- Argument parsing (text-summarizer.py:72-80) is library behaviour. `Input.ParsedArgs` states what the parser guarantees (at most one of the three sources, style among its three choices), and `Driver.Main` requires it. The parser's own error exit (status 2 with a usage message) is not modelled.
- The chat-completion service and the `OpenAI` client (text-summarizer.py:60-67, 92) are a remote, foreign dependency. The service is a function parameter. Constructing the client is assumed not to fail.
- The `temperature=0.2` argument (text-summarizer.py:66) is a floating-point value passed through to the service. `Summarize.Request` does not carry it.
- File opening and UTF-8 decoding, `sys.stdin.read()` and `os.getenv` (text-summarizer.py:24-31, 82) are I/O. Their results are given values: a map from readable paths to decoded contents, the standard-input text, and an optional key. The exception for an unreadable file is `Input.ReadError` and carries the path, not Python's message. It does not tell a failed `open` from a failed decode.
- `sys.stdin.read()` (text-summarizer.py:28, 31) can raise as well, for example `UnicodeDecodeError` on input that is not valid in the terminal's encoding. That exception escapes `main` with status 1. The model always yields a standard-input string, so `Input.ReadInput` never fails for `--stdin` or the interactive fallback.
- The traceback Python prints when an exception escapes `main` is not modelled. `Driver.Run.stderr` holds only what the script itself writes.
- `Driver.Main` keeps standard output and standard error as two separate texts. The interleaving of the two streams on a terminal is not modelled.

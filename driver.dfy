/**
 * `main(argv)` after argument parsing: check the credential, then read and
 * trim the input, then call the service once, and map each outcome to an exit
 * status and to what is written on standard output and standard error.
 * The environment and the service are parameters; every service call the run
 * makes is recorded in `requests`.
 */
module Driver {
  import opened Wrappers
  import opened Whitespace
  import opened Prompt
  import opened Summarize
  import opened Input

  /** How the run ends: `main` returns a code, or an exception escapes it. */
  datatype Status = Exited(code: int) | Raised(error: ReadError)

  /** Everything a run does that can be observed. */
  datatype Run = Run(status: Status, stdout: string, stderr: string, requests: seq<Request>)

  /** The process environment: the `OPENAI_API_KEY` variable, the readable files, standard input. */
  datatype Environment = Environment(apiKey: Option<string>, files: map<string, string>, stdinData: string)

  const MissingKeyError: string := "ERROR: OPENAI_API_KEY is not set in your environment."
  const NoInputError: string := "ERROR: No input text provided."

  /** The text the run would send, once the credential check has passed. */
  function TrimmedInput(args: Args, env: Environment): (r: Result<string, ReadError>)
    ensures r.Err? <==> ReadInput(args, env.files, env.stdinData).Err?
    ensures r.Ok? ==> r.value == Strip(ReadInput(args, env.files, env.stdinData).value.text)
    ensures r.Ok? ==> NoOuterSpace(r.value)
    ensures r.Ok? ==> (r.value == [] <==> AllSpace(ReadInput(args, env.files, env.stdinData).value.text))
  {
    match ReadInput(args, env.files, env.stdinData)
    case Err(e) => Err(e)
    case Ok(read) => Ok(Strip(read.text))
  }

  /** What reading the input writes to standard output: the paste prompt, in the interactive fallback only. */
  function Echo(args: Args, env: Environment): (out: string)
    ensures out == PastePrompt + "\n" <==> !Truthy(args.text) && !Truthy(args.file) && !args.stdin
    ensures out == "" || out == PastePrompt + "\n"
  {
    match ReadInput(args, env.files, env.stdinData)
    case Err(_) => ""
    case Ok(read) => read.stdout
  }

  /**
   * The `try` block of `main` and what follows it: one request carrying
   * `text`, then either `ERROR: <message>` on standard error with status 1, or
   * the summary printed on standard output with status 0. `echo` is what was
   * already written to standard output.
   */
  function CallService(args: Args, text: string, echo: string, service: Request -> Reply): (run: Run)
    ensures run.requests == [BuildRequest(text, args.model, args.style, args.maxWords)]
    ensures var r := Summarize.Summarize(service, text, args.model, args.style, args.maxWords);
            (r.Err? ==> run == Run(Exited(1), echo, "ERROR: " + r.error + "\n", run.requests))
            && (r.Ok? ==> run == Run(Exited(0), echo + r.value + "\n", "", run.requests))
  {
    var request := BuildRequest(text, args.model, args.style, args.maxWords);
    match Summarize.Summarize(service, text, args.model, args.style, args.maxWords)
    case Err(message) => Run(Exited(1), echo, "ERROR: " + message + "\n", [request])
    case Ok(summary) => Run(Exited(0), echo + summary + "\n", "", [request])
  }

  /** `main`: `service` answers the single completion request, if one is made. */
  function Main(args: Args, env: Environment, service: Request -> Reply): (run: Run)
    requires ParsedArgs(args)
    // The credential is checked first: without it nothing is read and nothing is sent.
    ensures !Truthy(env.apiKey) ==> run == Run(Exited(2), "", MissingKeyError + "\n", [])
    // An unreadable file escapes `main` before anything is written or sent.
    ensures Truthy(env.apiKey) && TrimmedInput(args, env).Err? ==>
              run == Run(Raised(TrimmedInput(args, env).error), "", "", [])
    // Input that is all whitespace is refused before the service is called.
    ensures Truthy(env.apiKey) && TrimmedInput(args, env) == Ok([]) ==>
              run == Run(Exited(2), Echo(args, env), NoInputError + "\n", [])
    // Otherwise the service is called once, with the trimmed input.
    ensures Truthy(env.apiKey) && TrimmedInput(args, env).Ok? && TrimmedInput(args, env).value != [] ==>
              run == CallService(args, TrimmedInput(args, env).value, Echo(args, env), service)
  {
    if !Truthy(env.apiKey) then
      Run(Exited(2), "", MissingKeyError + "\n", [])
    else
      match ReadInput(args, env.files, env.stdinData)
      case Err(e) => Run(Raised(e), "", "", [])
      case Ok(read) =>
        var text := Strip(read.text);
        if text == [] then Run(Exited(2), read.stdout, NoInputError + "\n", [])
        else CallService(args, text, read.stdout, service)
  }

  /** The process exit status: an exception escaping `main` makes Python exit with 1. */
  function ExitStatus(run: Run): (code: int)
    ensures run.status.Exited? ==> code == run.status.code
    ensures run.status.Raised? ==> code == 1
  {
    match run.status
    case Exited(code) => code
    case Raised(_) => 1
  }

  /**
   * Every run ends with exit status 0, 1 or 2; status 0 means the service was
   * called once and its reply held a summary, which is then the last line of
   * standard output. Any other run writes at most the paste prompt there.
   */
  lemma ExitStatusMeaning(args: Args, env: Environment, service: Request -> Reply)
    requires ParsedArgs(args)
    ensures var run := Main(args, env, service);
            ExitStatus(run) in {0, 1, 2}
            && (run.status == Exited(0) <==> |run.requests| == 1 && ReplyText(service(run.requests[0])).Ok?)
            && (run.status == Exited(0) ==>
                  run.stdout == Echo(args, env) + ReplyText(service(run.requests[0])).value + "\n")
            && (run.status != Exited(0) ==> run.stdout == "" || run.stdout == PastePrompt + "\n")
  {
  }

  /**
   * The service is called at most once, and only with text that is non-empty
   * and has no whitespace at either end, together with the style variant and
   * the budget of the command line.
   */
  lemma RequestsCarryTrimmedText(args: Args, env: Environment, service: Request -> Reply)
    requires ParsedArgs(args)
    ensures var requests := Main(args, env, service).requests;
            |requests| <= 1 &&
            (requests != [] ==>
               |requests[0].messages| == 2 && requests[0].messages[1].role == User &&
               var parsed := ParseUserContent(requests[0].messages[1].content);
               parsed.Some? && parsed.value.style == StyleOf(args.style) && parsed.value.maxWords == args.maxWords
               && parsed.value.rest != [] && NoOuterSpace(parsed.value.rest))
  {
  }

  /**
   * With a service stub that always answers with the content `x`, every run
   * that has a credential and some input prints the stripped `x` and exits 0.
   */
  lemma StubbedServiceSucceeds(args: Args, env: Environment, x: string)
    requires ParsedArgs(args) && Truthy(env.apiKey)
    requires ReadInput(args, env.files, env.stdinData).Ok? && !AllSpace(ReadInput(args, env.files, env.stdinData).value.text)
    ensures var run := Main(args, env, _ => Completion([Some(x)]));
            run.status == Exited(0) && run.stderr == ""
            && run.stdout == Echo(args, env) + Strip(x) + "\n"
  {
  }

  /** A service that raises with message `m` yields exit status 1 and `ERROR: m` on standard error. */
  lemma FailingServiceReported(args: Args, env: Environment, m: string)
    requires ParsedArgs(args) && Truthy(env.apiKey)
    requires ReadInput(args, env.files, env.stdinData).Ok? && !AllSpace(ReadInput(args, env.files, env.stdinData).value.text)
    ensures var run := Main(args, env, _ => Failure(m));
            run.status == Exited(1) && run.stderr == "ERROR: " + m + "\n" && |run.requests| == 1
  {
  }
}

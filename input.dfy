/**
 * `read_input(args)`: the text to summarize, taken from the first source
 * that is set, in the order literal text, file, standard-input flag,
 * interactive fallback. Python truthiness decides "set", so an empty
 * `--text ""` or `--file ""` falls through to the next source. File contents
 * and standard input are given as values.
 */
module Input {
  import opened Wrappers

  /** The parsed command line. */
  datatype Args = Args(
    text: Option<string>,
    file: Option<string>,
    stdin: bool,
    model: string,
    style: string,
    maxWords: int)

  /** Python truthiness of an optional string: present and non-empty. */
  predicate Truthy(o: Option<string>) {
    o.Some? && o.value != ""
  }

  /**
   * What the argument parser guarantees: at most one of the mutually
   * exclusive sources was given, and the style is one of its three choices.
   */
  predicate ParsedArgs(args: Args) {
    (if args.text.Some? then 1 else 0) + (if args.file.Some? then 1 else 0) + (if args.stdin then 1 else 0) <= 1
    && args.style in {"paragraph", "bullets", "tl;dr"}
  }

  /** Printed (with a newline) before reading standard input when no source was given. */
  const PastePrompt: string :=
    "Paste text to summarize, then end input (Ctrl+D on mac/linux, Ctrl+Z then Enter on windows):"

  /** The text read, and what reading it wrote to standard output. */
  datatype InputRead = InputRead(text: string, stdout: string)

  /**
   * The exception reading `--file` raises: `open` fails for a file that is
   * missing or cannot be opened, or `read` fails to decode it as UTF-8.
   */
  datatype ReadError = Unreadable(path: string)

  /**
   * `read_input`: `files` maps each readable path to its decoded contents,
   * `stdinData` is everything standard input yields up to end of stream.
   */
  function ReadInput(args: Args, files: map<string, string>, stdinData: string): (r: Result<InputRead, ReadError>)
    ensures Truthy(args.text) ==> r == Ok(InputRead(args.text.value, ""))
    ensures !Truthy(args.text) && Truthy(args.file) ==>
              r == if args.file.value in files then Ok(InputRead(files[args.file.value], ""))
                   else Err(Unreadable(args.file.value))
    ensures !Truthy(args.text) && !Truthy(args.file) && args.stdin ==> r == Ok(InputRead(stdinData, ""))
    ensures !Truthy(args.text) && !Truthy(args.file) && !args.stdin ==> r == Ok(InputRead(stdinData, PastePrompt + "\n"))
    ensures r.Err? ==> !Truthy(args.text) && Truthy(args.file)
  {
    if Truthy(args.text) then Ok(InputRead(args.text.value, ""))
    else if Truthy(args.file) then
      if args.file.value in files then Ok(InputRead(files[args.file.value], "")) else Err(Unreadable(args.file.value))
    else if args.stdin then Ok(InputRead(stdinData, ""))
    else Ok(InputRead(stdinData, PastePrompt + "\n"))
  }

  /**
   * An empty `--text` or `--file` behaves exactly as if the option had not
   * been given.
   */
  lemma EmptySourceFallsThrough(args: Args, files: map<string, string>, stdinData: string)
    ensures ReadInput(args.(text := Some("")), files, stdinData) == ReadInput(args.(text := None), files, stdinData)
    ensures ReadInput(args.(file := Some("")), files, stdinData) == ReadInput(args.(file := None), files, stdinData)
  {
  }

  /**
   * When the parser has accepted the command line, the order of the checks
   * does not matter: each source that is set is read on its own terms, and
   * standard input is read only when neither text nor file was given.
   */
  lemma ParsedSourceIsTheOneGiven(args: Args, files: map<string, string>, stdinData: string)
    requires ParsedArgs(args)
    ensures args.stdin ==> ReadInput(args, files, stdinData) == Ok(InputRead(stdinData, ""))
    ensures args.file.Some? && args.file.value != "" && args.file.value in files
            ==> ReadInput(args, files, stdinData) == Ok(InputRead(files[args.file.value], ""))
    ensures ReadInput(args, files, stdinData).Ok? && ReadInput(args, files, stdinData).value.stdout != ""
            <==> !Truthy(args.text) && !Truthy(args.file) && !args.stdin
  {
  }
}

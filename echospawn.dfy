/**
 * The output routing of `echospawn`, the spawn hook that runs one build
 * command: given what the child process returned, decide what is written to
 * standard output and standard error, and what is returned.
 *
 * Starting the process and capturing its streams are outside the model: the
 * return code and both captured texts are inputs.
 */
module Spawn {
  import opened Text
  import opened Diagnostics

  /** `signal.SIGINT` on Linux. */
  const SIGINT: int := 2

  /** The return code `subprocess` reports for a child killed by SIGINT. */
  const Interrupted: int := -SIGINT

  /** The text written to each standard stream and the code returned. */
  datatype Echo = Echo(out: string, err: string, code: int)

  /**
   * A real failure shows both streams coloured; an interrupted run shows
   * nothing; a success with something on stderr shows both streams coloured;
   * a clean success shows stdout verbatim. The code is always passed through.
   */
  function EchoSpawn(returncode: int, stdout: string, stderr: string, colors: string -> string): (e: Echo)
    ensures e.code == returncode
    ensures returncode == Interrupted ==> e.out == "" && e.err == ""
  {
    if returncode != 0 then
      if returncode != Interrupted then Echo(Colorize(stdout, colors), Colorize(stderr, colors), returncode)
      else Echo("", "", returncode)
    else if stderr != "" then Echo(Colorize(stdout, colors), Colorize(stderr, colors), returncode)
    else Echo(stdout, "", returncode)
  }

  /**
   * Apart from the colour codes, every branch writes exactly what the child
   * printed, each stream to its own, except an interrupted run, which writes
   * nothing at all.
   */
  lemma EchoSpawnErased(returncode: int, stdout: string, stderr: string)
    ensures EchoSpawn(returncode, stdout, stderr, NoColors) ==
      if returncode == Interrupted then Echo("", "", returncode) else Echo(stdout, stderr, returncode)
  {
    ColorizeErased(stdout);
    ColorizeErased(stderr);
  }

  /**
   * Unless the run was interrupted, a line of stderr reaches the terminal
   * framed in its own colour, between the colourised text around it: an error
   * line of a failed command in red, a warning line of a successful one in
   * yellow.
   */
  lemma StderrLineShown(returncode: int, stdout: string, before: string, line: string, after: string,
                        colors: string -> string)
    requires returncode != Interrupted
    requires before == "" || EndsWithNewline(before)
    requires IsLine(line) && EndsWithNewline(line)
    ensures EchoSpawn(returncode, stdout, before + (line + after), colors).err ==
      Colorize(before, colors) + (Framed(line, colors) + Colorize(after, colors))
  {
    var stderr := before + (line + after);
    assert stderr != "";
    assert EchoSpawn(returncode, stdout, stderr, colors).err == Colorize(stderr, colors);
    ColorizeAroundLine(before, line, after, colors);
  }

  /** A clean success writes stdout verbatim: the output is the same under every palette. */
  lemma CleanSuccessVerbatim(stdout: string, colors: string -> string)
    ensures EchoSpawn(0, stdout, "", colors) == EchoSpawn(0, stdout, "", NoColors)
    ensures EchoSpawn(0, stdout, "", colors).out == stdout && EchoSpawn(0, stdout, "", colors).err == ""
  {
  }

  /**
   * A failure that was not an interrupt, and a success with something on
   * stderr, show each complete stdout line framed in its own colour, in place.
   */
  lemma StdoutLineShown(returncode: int, before: string, line: string, after: string, stderr: string,
                        colors: string -> string)
    requires (returncode != 0 && returncode != Interrupted) || (returncode == 0 && stderr != "")
    requires before == "" || EndsWithNewline(before)
    requires IsLine(line) && EndsWithNewline(line)
    ensures EchoSpawn(returncode, before + (line + after), stderr, colors).out ==
      Colorize(before, colors) + (Framed(line, colors) + Colorize(after, colors))
  {
    var stdout := before + (line + after);
    assert EchoSpawn(returncode, stdout, stderr, colors).out == Colorize(stdout, colors);
    ColorizeAroundLine(before, line, after, colors);
  }

  /**
   * The coloured branches really differ from the verbatim one: with a
   * non-empty reset code, a failed command's stdout is not written as is.
   */
  lemma FailureNotVerbatim(returncode: int, stdout: string, stderr: string, colors: string -> string)
    requires returncode != 0 && returncode != Interrupted
    requires stdout != "" && colors("end") != ""
    ensures EchoSpawn(returncode, stdout, stderr, colors).out != stdout
  {
    ColorizeLonger(stdout, colors);
  }
}

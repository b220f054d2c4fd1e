/**
 * `_fast_link_helper` and the link command it runs: the linker writes its
 * output to a fresh temporary file in the tmpfs staging directory, and on
 * success that file is moved onto the real target.
 *
 * The filesystem is a map from path to content. What the linker does is an
 * input: its exit code, what it printed, and what it left in the temporary
 * file. The random part of the temporary name, which mkstemp draws, is an
 * input too.
 */
module FastLink {
  import opened Text
  import opened Names
  import opened Probe

  /** The suffix of every temporary link output. */
  const TempSuffix: string := "xianxian"

  /** `os.path.join(dir, name)` for a name that does not start with '/'. */
  function JoinPath(dir: string, name: string): (path: string)
    ensures path == dir + name || path == dir + "/" + name
  {
    if dir == "" || dir[|dir| - 1] == '/' then dir + name else dir + "/" + name
  }

  /**
   * The joined path starts with the directory and ends with the name, and a
   * non-empty directory is separated from the name by exactly one '/' of its
   * own or an added one.
   */
  lemma JoinPathParts(dir: string, name: string)
    ensures var path := JoinPath(dir, name);
      dir <= path && |path| >= |name| && path[|path| - |name|..] == name &&
      (dir != "" ==> |path| > |name| && path[|path| - |name| - 1] == '/')
  {
    var path := JoinPath(dir, name);
    if dir != "" && dir[|dir| - 1] != '/' {
      assert path == (dir + "/") + name;
    }
  }

  /** The part of a path after its last '/'. */
  function BaseName(path: string): (name: string)
    ensures '/' !in name
    ensures |name| <= |path|
  {
    if path == "" || path[|path| - 1] == '/' then ""
    else BaseName(path[..|path| - 1]) + [path[|path| - 1]]
  }

  /** A name without '/' joined to any directory is the base name of the result. */
  lemma {:induction false} BaseNameJoin(dir: string, name: string)
    requires '/' !in name
    ensures BaseName(JoinPath(dir, name)) == name
    decreases |name|
  {
    var path := JoinPath(dir, name);
    if name == "" {
      if dir != "" && dir[|dir| - 1] != '/' {
        assert path[|path| - 1] == '/';
      }
    } else {
      var shorter := name[..|name| - 1];
      BaseNameJoin(dir, shorter);
      assert JoinPath(dir, shorter) == path[..|path| - 1];
      assert name == shorter + [name[|name| - 1]];
    }
  }

  /** The name mkstemp creates in `dir` for `target`, given the random part it drew. */
  function TempName(target: string, unique: string): (name: string)
    ensures |name| == |target| + |unique| + 14
    ensures name[..6] == "blade_"
    ensures name[|name| - |TempSuffix|..] == TempSuffix
  {
    TempPrefix(target) + unique + TempSuffix
  }

  /** The temporary file of a fast link sits directly in the staging directory and is named after the target. */
  lemma TempFileInStaging(dir: string, target: string, unique: string)
    requires '/' !in unique
    ensures BaseName(JoinPath(dir, TempName(target, unique))) == TempPrefix(target) + unique + TempSuffix
  {
    var name := TempName(target, unique);
    assert forall i :: 0 <= i < |name| ==> name[i] != '/' by {
      var p := TempPrefix(target);
      assert forall i :: 0 <= i < |p| ==> name[i] == p[i];
      assert forall i :: |p| <= i < |p| + |unique| ==> name[i] == unique[i - |p|];
      assert forall i :: |p| + |unique| <= i < |name| ==> name[i] == TempSuffix[i - |p| - |unique|];
    }
    BaseNameJoin(dir, name);
  }

  /**
   * The values `env.subst` gives for the pieces of the link command line:
   * the linker, its flags, the rpath options, the library directory options
   * and the libraries.
   */
  datatype LinkTemplate = LinkTemplate(linker: string, flags: string, rpath: string, libDirFlags: string, libFlags: string)

  /**
   * The command line of a fast link: the template `<linker> -o $FL_TARGET
   * <flags> <rpath> $FL_SOURCE <libdirs> <libs>` with the output and the
   * sources put in.
   */
  function LinkCommand(t: LinkTemplate, output: string, sources: string): (command: string)
    ensures t.linker + " -o " + output + " " <= command
    ensures |command| == |t.linker| + |output| + |t.flags| + |t.rpath| + |sources| + |t.libDirFlags| + |t.libFlags| + 9
  {
    var parts := [t.linker, "-o", output, t.flags, t.rpath, sources, t.libDirFlags, t.libFlags];
    JoinWordsShape(parts);
    JoinWords(parts)
  }

  /** The output path follows "-o" and the linker: the three leading pieces joined by single spaces. */
  lemma JoinWordsShape(parts: seq<string>)
    requires |parts| == 8 && parts[1] == "-o"
    ensures parts[0] + " -o " + parts[2] + " " <= JoinWords(parts)
    ensures |JoinWords(parts)| == |parts[0]| + |parts[2]| + |parts[3]| + |parts[4]| + |parts[5]| + |parts[6]| + |parts[7]| + 9
  {
    var tail := JoinWords(parts[3..]);
    assert JoinWords(parts[2..]) == parts[2] + " " + tail by {
      assert parts[2..][1..] == parts[3..];
    }
    assert JoinWords(parts[1..]) == "-o" + " " + JoinWords(parts[2..]) by {
      assert parts[1..][1..] == parts[2..];
    }
    assert JoinWords(parts) == parts[0] + " " + JoinWords(parts[1..]);
    assert JoinWords(parts) == (parts[0] + " -o " + parts[2] + " ") + tail;
    JoinWordsLength(parts[3..]);
  }

  lemma {:induction false} JoinWordsLength(parts: seq<string>)
    requires |parts| == 5
    ensures |JoinWords(parts)| == |parts[0]| + |parts[1]| + |parts[2]| + |parts[3]| + |parts[4]| + 4
  {
    assert parts[1..][1..] == parts[2..];
    assert parts[2..][1..] == parts[3..];
    assert parts[3..][1..] == parts[4..];
    assert |JoinWords(parts[4..])| == |parts[4]|;
    assert |JoinWords(parts[3..])| == |parts[3]| + 1 + |parts[4]|;
    assert |JoinWords(parts[2..])| == |parts[2]| + 1 + |JoinWords(parts[3..])|;
    assert |JoinWords(parts[1..])| == |parts[1]| + 1 + |JoinWords(parts[2..])|;
  }

  /** The fields of each text, one after the other. */
  function AllFields(parts: seq<string>): seq<string> {
    if parts == [] then [] else Fields(parts[0]) + AllFields(parts[1..])
  }

  /** Splitting a space-joined text gives the fields of its parts in order. */
  lemma {:induction false} FieldsOfJoin(parts: seq<string>)
    ensures Fields(JoinWords(parts)) == AllFields(parts)
  {
    if |parts| == 1 {
      assert AllFields(parts[1..]) == [];
    } else if |parts| > 1 {
      FieldsOfJoin(parts[1..]);
      FieldsConcat(parts[0], JoinWords(parts[1..]));
    }
  }

  lemma AllFieldsStep(s: seq<string>, k: nat)
    requires k < |s|
    ensures AllFields(s[k..]) == Fields(s[k]) + AllFields(s[k + 1..])
  {
    assert s[k..][1..] == s[k + 1..];
  }

  lemma AllFieldsOfEight(s: seq<string>)
    requires |s| == 8
    ensures AllFields(s) ==
      Fields(s[0]) + (Fields(s[1]) + (Fields(s[2]) + (Fields(s[3]) + (Fields(s[4]) + (Fields(s[5])
        + (Fields(s[6]) + Fields(s[7])))))))
  {
    assert AllFields(s[7..]) == Fields(s[7]) by {
      AllFieldsStep(s, 7);
      assert AllFields(s[8..]) == [];
    }
    assert AllFields(s[6..]) == Fields(s[6]) + AllFields(s[7..]) by { AllFieldsStep(s, 6); }
    assert AllFields(s[5..]) == Fields(s[5]) + AllFields(s[6..]) by { AllFieldsStep(s, 5); }
    assert AllFields(s[4..]) == Fields(s[4]) + AllFields(s[5..]) by { AllFieldsStep(s, 4); }
    assert AllFields(s[3..]) == Fields(s[3]) + AllFields(s[4..]) by { AllFieldsStep(s, 3); }
    assert AllFields(s[2..]) == Fields(s[2]) + AllFields(s[3..]) by { AllFieldsStep(s, 2); }
    assert AllFields(s[1..]) == Fields(s[1]) + AllFields(s[2..]) by { AllFieldsStep(s, 1); }
    assert AllFields(s[0..]) == Fields(s[0]) + AllFields(s[1..]) by { AllFieldsStep(s, 0); }
    assert s[0..] == s;
  }

  /** Split on whitespace, the link command is the fields of its pieces in order. */
  lemma LinkCommandFields(t: LinkTemplate, output: string, sources: string)
    ensures Fields(LinkCommand(t, output, sources)) ==
      Fields(t.linker) + (["-o"] + (Fields(output) + (Fields(t.flags) + (Fields(t.rpath) + (Fields(sources)
        + (Fields(t.libDirFlags) + Fields(t.libFlags)))))))
  {
    var parts := [t.linker, "-o", output, t.flags, t.rpath, sources, t.libDirFlags, t.libFlags];
    FieldsOfJoin(parts);
    AllFieldsOfEight(parts);
    FieldsOfWord("-o");
  }

  /**
   * Split on whitespace, the link command is the linker's words, "-o", the
   * temporary output, the flag and rpath words, every source as its own word,
   * then the library words.
   */
  lemma LinkCommandWords(t: LinkTemplate, output: string, sources: seq<string>)
    requires IsWord(output)
    requires forall k :: 0 <= k < |sources| ==> IsWord(sources[k])
    ensures Fields(LinkCommand(t, output, JoinWords(sources))) ==
      Fields(t.linker) + (["-o"] + ([output] + (Fields(t.flags) + (Fields(t.rpath) + (sources
        + (Fields(t.libDirFlags) + Fields(t.libFlags)))))))
  {
    LinkCommandFields(t, output, JoinWords(sources));
    FieldsOfWord(output);
    FieldsJoinWords(sources);
  }

  /**
   * What the linker process did: its exit code, what it printed on each
   * stream, and the content of the temporary file afterwards (None when it
   * removed the file).
   */
  datatype LinkRun = LinkRun(code: int, stdout: string, stderr: string, output: Option<string>)

  /** What `_fast_link_helper` ends with. */
  datatype LinkResult =
    | Linked           // returns None: the target holds the new output
    | Failed(code: int)  // returns the linker's exit code
    | MoveError        // shutil.move raises: the linker left no temporary file to move

  /** `print text` for each non-empty stream: the text and a newline. */
  function Echoed(stdout: string, stderr: string): (shown: string)
    ensures shown == "" <==> stdout == "" && stderr == ""
  {
    (if stdout != "" then stdout + "\n" else "") + (if stderr != "" then stderr + "\n" else "")
  }

  class FileSystem {
    var files: map<string, string>

    constructor (files: map<string, string>)
      ensures this.files == files
    {
      this.files := files;
    }

    /** The empty file mkstemp creates. */
    method CreateEmpty(path: string)
      requires path !in files
      modifies this
      ensures files == old(files)[path := ""]
    {
      files := files[path := ""];
    }

    /** Sets what the linker left at `path`: new content, or no file. */
    method Put(path: string, content: Option<string>)
      modifies this
      ensures files == if content.Some? then old(files)[path := content.value] else old(files) - {path}
    {
      if content.Some? {
        files := files[path := content.value];
      } else {
        files := files - {path};
      }
    }

    /** `shutil.move(source, target)` */
    method Move(source: string, target: string)
      requires source in files
      modifies this
      ensures files == (old(files) - {source})[target := old(files)[source]]
    {
      files := (files - {source})[target := files[source]];
    }
  }

  /**
   * `_fast_link_helper`: create the temporary file in the staging directory
   * the setup stored, build the command line from the source list, run the
   * linker (its run is `run`), print what it printed, and on success move the
   * temporary file onto the target.
   */
  method FastLinkHelper(fs: FileSystem, globals: ModuleGlobals, target: string, sources: seq<string>,
                        template: LinkTemplate, unique: string, run: LinkRun)
    returns (result: LinkResult, command: string, shown: string, warned: bool)
    requires JoinPath(globals.linkingTmpDir, TempName(target, unique)) !in fs.files
    modifies fs
    ensures command == LinkCommand(template, JoinPath(globals.linkingTmpDir, TempName(target, unique)), JoinWords(sources))
    ensures shown == Echoed(run.stdout, run.stderr)
    ensures run.code == 0 && run.output.Some? ==>
      result == Linked && !warned && fs.files == old(fs.files)[target := run.output.value]
    ensures run.code == 0 && run.output.None? ==> result == MoveError && fs.files == old(fs.files)
    ensures run.code != 0 && run.output.Some? ==>
      result == Failed(run.code) && fs.files == old(fs.files)[JoinPath(globals.linkingTmpDir, TempName(target, unique)) := run.output.value]
    ensures run.code != 0 && run.output.None? ==> result == Failed(run.code) && fs.files == old(fs.files)
    ensures result != Linked ==> !warned
  {
    var temporary := JoinPath(globals.linkingTmpDir, TempName(target, unique));
    fs.CreateEmpty(temporary);

    var names: seq<string> := [];
    for i := 0 to |sources|
      invariant names == sources[..i]
    {
      names := names + [sources[i]];
    }
    assert sources[..|sources|] == sources;
    command := LinkCommand(template, temporary, JoinWords(names));

    fs.Put(temporary, run.output);
    shown := Echoed(run.stdout, run.stderr);
    warned := false;
    if run.code == 0 {
      if run.output.None? {
        return MoveError, command, shown, warned;
      }
      fs.Move(temporary, target);
      warned := target !in fs.files;  // os.path.exists(target_file)
      result := Linked;
    } else {
      result := Failed(run.code);
    }
  }
}

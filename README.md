# Blade SCons helper: colouriser, spawn hook, tmpfs fast link

This project is a Dafny model of the decision and string logic in `src/blade/scons_helper.py`, the helper module that Blade's generated SCons scripts import. It covers five pieces:

- **Diagnostic colouriser** (`error_colorize`). Every line of compiler or linker output is wrapped in a terminal colour and a reset code. A clang column indicator is green. A line with an error marker is red, even if it also has a warning marker. A line with only a warning or note marker is yellow. Anything else is cyan.
- **Output routing of the spawn hook** (`echospawn`). The hook decides what reaches stdout and stderr for one build command:
  - a failed command has both streams colourised;
  - a command interrupted by SIGINT shows nothing;
  - a successful command with warnings has both streams colourised;
  - a clean success has stdout passed through verbatim.
- **Fast-link setup** (`create_fast_link_builders`). The setup reads the first tmpfs row `<usage>% <mount>` and stores the mount in the module-level `linking_tmp_dir`. If usage is at most 90 percent, it replaces the SharedLibrary and Program builders of the SCons environment.
- **Name sanitisers**:
  - the temporary-file prefix `blade_<target>`, with '/' and '.' replaced by '_';
  - the C name of a resource file, with `, - / . +` replaced by '_'.
- **Fast link** (`_fast_link_helper`). The linker writes to a fresh temporary file in the staging directory. On success that file is moved onto the target. On failure the linker's exit code is returned.

Files:

- `text.dfy` (module `Text`): the Python 2 `str` operations these functions use:
  - `splitlines`, `strip`, `split`, `' '.join`, `''.join`;
  - single-character `replace`, `int()` and `in`.

  The inputs are child output read with universal newlines, so '\n' is the only line break. Whitespace is the six ASCII characters Python 2 byte strings recognise. On such inputs the definitions are exact.
- `colorize.dfy` (module `Diagnostics`): the marker lists, the colour of a line, the colouriser, and its method form with loops.
- `echospawn.dfy` (module `Spawn`): the routing table of `echospawn`.
- `probe.dfy` (module `Probe`):
  - the probe outcome as a function;
  - the module global and the builder table as classes;
  - the setup as a method.
- `names.dfy` (module `Names`): both sanitisers, specified against one position-by-position masking function.
- `fastlink.dfy` (module `FastLink`):
  - the temporary path and the link command line;
  - a map-backed filesystem class;
  - the fast-link helper as a method.

Console colours are a parameter `colors: string -> string`, from a colour name to its escape sequence. Process results are inputs: return codes and captured output. The random part of the mkstemp name is an input too.

The comparison is strictly `usage > 90` (`src/blade/scons_helper.py:402`), so a tmpfs at exactly 90% is used (`Probe.ProbeAtLimit`).

## Model

| member | source | states |
|---|---|---|
| Diagnostics.PickColor | src/blade/scons_helper.py:207-220 | The loop choice equals `ColorOf`. A caret line is green. Otherwise the colour is red if an error marker occurs, else yellow if a warning marker occurs, else cyan. |
| Diagnostics.ErrorColorize | src/blade/scons_helper.py:204-225 | The text the loop builds is `Colorize(message)`: colour, line and reset code for every line of `splitlines(True)`, concatenated. |
| Diagnostics.ColorizeErased | src/blade/scons_helper.py:204-225 | With empty colour codes the output is exactly the input. |
| Diagnostics.ColorizeEmpty | src/blade/scons_helper.py:206-225 | Empty input gives empty output. |
| Diagnostics.ColorizeOneLine | src/blade/scons_helper.py:222-224 | A single line comes out as its colour code, the line and the reset code. |
| Diagnostics.ColorizeLineByLine | src/blade/scons_helper.py:206-225 | Complete lines followed by more text colour independently of each other. |
| Diagnostics.ColorizeAroundLine | src/blade/scons_helper.py:206-225 | A complete line inside a message comes out framed in its own colour, between the colourised text around it. |
| Diagnostics.CaretLineIsGreen | src/blade/scons_helper.py:209-211 | A line is green exactly when its first non-whitespace character is '^', whatever markers it contains. |
| Diagnostics.ErrorMarkerWins | src/blade/scons_helper.py:199-220 | Any line with an error marker and no '^' before it is red, even when warning markers also occur. |
| Diagnostics.WarningMarkerYellow | src/blade/scons_helper.py:201-220 | A line with a warning or note marker, no error marker and no '^' before the marker is yellow. |
| Diagnostics.NotCaretBeforeMarker | src/blade/scons_helper.py:199-211 | Every marker starts with ':', so a line with no '^' before a marker is never a column indicator. |
| Spawn.EchoSpawn | src/blade/scons_helper.py:244-257 | The return code is passed through unchanged. A run stopped by `-SIGINT` writes nothing to either stream. |
| Spawn.EchoSpawnErased | src/blade/scons_helper.py:244-257 | Apart from colour codes: an interrupted run writes nothing; every other run writes stdout to stdout and stderr to stderr. |
| Spawn.StderrLineShown | src/blade/scons_helper.py:244-253 | Unless interrupted, each complete stderr line reaches stderr framed in its own colour, in place. |
| Spawn.StdoutLineShown | src/blade/scons_helper.py:244-253 | On a failure that is not an interrupt, and on a success with stderr output, each complete stdout line reaches stdout framed in its own colour, in place. |
| Spawn.CleanSuccessVerbatim | src/blade/scons_helper.py:254-255 | A success with empty stderr writes stdout verbatim and nothing to stderr, whatever the palette. |
| Spawn.FailureNotVerbatim | src/blade/scons_helper.py:244-248 | With a non-empty reset code, a failed command's non-empty stdout is not written as is. |
| Diagnostics.ColorizeLonger | src/blade/scons_helper.py:222-225 | A non-empty message grows by at least one reset code. |
| Probe.Probe | src/blade/scons_helper.py:386-405 | A non-zero code or empty output disables fast linking and stores nothing. Enabled and over-threshold outcomes have stored their mount. |
| Probe.ProbeRow | src/blade/scons_helper.py:396-405 | For a first row `<n>% <dir>`: usage `n > 90` disables with `dir` still stored; `n <= 90` enables on `dir`. |
| Probe.RowParse | src/blade/scons_helper.py:398-401 | Such a row splits into exactly the usage and the mount fields, and the usage parses as `n` once '%' is removed. |
| Probe.ProbeBadUsage | src/blade/scons_helper.py:398-401 | For every first row of two words whose usage is not an integer once '%' is removed, the setup raises ValueError with the mount already stored. |
| Probe.ProbeWrongFieldCount | src/blade/scons_helper.py:398 | A first line of any number of words other than two, including a blank line, raises ValueError before anything is stored. |
| Probe.ProbeDashUsage | src/blade/scons_helper.py:398-401 | The row `-% /dev/shm` raises ValueError but leaves `/dev/shm` stored. |
| Probe.ProbeAtLimit | src/blade/scons_helper.py:402 | Usage of exactly 90 percent enables fast linking. |
| Probe.ProbeTooFull | src/blade/scons_helper.py:397-405 | `95% /mnt/fast` disables fast linking but leaves `/mnt/fast` stored. |
| Probe.ProbeStoresWord | src/blade/scons_helper.py:398 | The stored staging directory is always one non-empty field without whitespace. |
| Probe.FastLinkBuildersIdempotent | src/blade/scons_helper.py:409-410 | Writing both fast-link builder entries a second time leaves the table as the first write left it. The write adds exactly the SharedLibrary and Program keys. |
| Probe.ModuleGlobals.constructor | src/blade/scons_helper.py:40 | `linking_tmp_dir` starts as ''. |
| Probe.Environment.CreateFastLinkSharelibBuilder | src/blade/scons_helper.py:370 | Only the SharedLibrary builder is replaced. |
| Probe.Environment.CreateFastLinkProgBuilder | src/blade/scons_helper.py:346 | Only the Program builder is replaced. |
| Probe.CreateFastLinkBuilders | src/blade/scons_helper.py:386-410 | Outcome and stored directory follow `Probe`; the global changes only when the row was unpacked. Builders are replaced exactly when enabled. |
| Names.TempPrefix | src/blade/scons_helper.py:272 | The prefix is `blade_` plus the target masked at '/' and '.'. It is six characters longer than the target and holds no '/' or '.'. |
| Names.TempPrefixCollides | src/blade/scons_helper.py:272-275 | For each of '/', '.' and '_' as the middle character, `a<c>b` gets the prefix `blade_a_b`, so distinct targets share one prefix. Only mkstemp's random part keeps their temporary files apart. |
| Names.ResourceVarName | src/blade/scons_helper.py:163-165 | The reassigning loop yields the path with every `, - / . +` replaced by '_'. |
| Names.ResourceVarNameClean | src/blade/scons_helper.py:163-165 | The resource name keeps the path's length, holds no separator, and sanitising it again leaves it unchanged. |
| Names.MaskedFixed | src/blade/scons_helper.py:164-165 | A name is left alone exactly when it contains none of the replaced characters. |
| Names.ReplaceAfterMask | src/blade/scons_helper.py:164-165 | One more `replace(c, '_')` after masking is masking with `c` added. |
| FastLink.TempName | src/blade/scons_helper.py:272-275 | The temporary name starts with `blade_` and ends with `xianxian`. |
| FastLink.TempFileInStaging | src/blade/scons_helper.py:273-275 | The temporary file lies directly in the staging directory, under the name built from the target's prefix. |
| FastLink.JoinPath | src/blade/scons_helper.py:273-275 | The `os.path.join` inside mkstemp: the name is appended to the directory directly or after one added '/'. |
| FastLink.JoinPathParts | src/blade/scons_helper.py:273-275 | The joined path starts with the directory and ends with the name. A non-empty directory is separated from the name by a '/'. |
| FastLink.BaseNameJoin | src/blade/scons_helper.py:273-275 | A name without '/' joined to a directory is the last component of the result. |
| FastLink.LinkCommandWords | src/blade/scons_helper.py:282-284 | Split on whitespace, the link command is the linker, `-o`, the temporary output, the flags and rpath, each source as its own word, then the library options. |
| FastLink.LinkCommand | src/blade/scons_helper.py:308-313 | The template with output and sources put in starts with the linker, `-o` and the output path. Its length is that of its pieces plus nine characters, for `-o` and seven separating spaces. |
| FastLink.LinkCommandFields | src/blade/scons_helper.py:306-325 | Split on whitespace, the command built from the template is the fields of the linker, then `-o`, then those of each following piece in template order. |
| FastLink.FieldsOfJoin | src/blade/scons_helper.py:306-325 | Splitting the space-joined command template gives the fields of its pieces in order. |
| FastLink.Echoed | src/blade/scons_helper.py:293-296 | Nothing is printed exactly when both streams are empty. |
| FastLink.FileSystem.CreateEmpty | src/blade/scons_helper.py:273-276 | mkstemp adds one new, empty file. |
| FastLink.FileSystem.Move | src/blade/scons_helper.py:298 | The source entry is removed and the target takes its content. |
| FastLink.FastLinkHelper | src/blade/scons_helper.py:269-303 | Exit 0: the target holds the linker's output, nothing else changes, no warning, no code. Non-zero: the child's code is returned and only the temporary entry differs. `os.path.exists` is membership of the target in the map. |
| Text.SplitLines | src/blade/scons_helper.py:206 | The lines of `splitlines(True)` concatenate back to the input. |
| Text.SplitLinesShape | src/blade/scons_helper.py:206 | Every piece is a non-empty line; all but the last end with '\n'. |
| Text.SplitLinesAppend | src/blade/scons_helper.py:206 | Text made of complete lines followed by more text splits each part separately. |
| Text.StripStartsWith | src/blade/scons_helper.py:210 | `strip().startswith(c)` holds exactly when `c` is the first non-whitespace character. |
| Text.FirstLineOf | src/blade/scons_helper.py:398 | `splitlines(False)[0]` is everything before the first '\n'. |
| Text.FieldsConcat | src/blade/scons_helper.py:398 | `split()` of two texts joined by a space is the fields of the first followed by those of the second. |
| Text.FieldsJoinWords | src/blade/scons_helper.py:284 | `' '.join` and `split()` are inverse on non-empty words without whitespace. |
| Text.FieldsAreWords | src/blade/scons_helper.py:398 | Every field `split()` yields is non-empty and has no whitespace. |
| Text.RemoveChar | src/blade/scons_helper.py:401 | `replace('%', '')` leaves no '%', and leaves a text without '%' unchanged. |
| Text.RemoveCharCount | src/blade/scons_helper.py:401 | Every other character stays as often as it occurred, and every '%' is gone (multiset of the input with the count of '%' set to zero). |
| Text.RemoveCharAppend | src/blade/scons_helper.py:401 | Removal works piece by piece, so the characters that stay keep their order. |
| Text.RemoveTrailing | src/blade/scons_helper.py:401 | Removing '%' from digits followed by '%' gives the digits back. |
| Text.ParseInt | src/blade/scons_helper.py:401 | `int()` accepts only text made of digits with at most a leading sign. A digit string always parses, to a non-negative value. |
| Text.ParseNatToString | src/blade/scons_helper.py:401 | `int(str(n)) == n` for every natural number. |
| Text.ParseSignedNat | src/blade/scons_helper.py:401 | `int('-' + str(n)) == -n` and `int('+' + str(n)) == n`. |
| Text.ReplaceChar | src/blade/scons_helper.py:165 | `replace(c, d)` keeps the length and changes exactly the positions holding `c`. |

## Left out

- Starting processes and collecting their output is not modelled (`subprocess.Popen` and `communicate`, lines 235-242, 285-292 and 377-384). Return codes and captured text are inputs.
- `console` is not modelled: colour escape values, `console.warning` and `console.info`. The reason a setup was abandoned stands in for its warning. `_blade_action_postfunc` and `SCons.SConsign.write` (260-266) are not modelled either.
- The foreign SCons machinery is not modelled: `MakeAction` (191-196), builder and action construction (338-345, 359-369) and `env.subst`. A builder is a tag saying which kind of fast-link builder is installed. The values `env.subst` returns are the fields of `LinkTemplate`.
- `string.Template.substitute` is modelled as placing the temporary path and the joined sources at their positions. A `$` inside a value `env.subst` returned is not looked at; `substitute` would treat it as a placeholder.
- Probe.CreateFastLinkBuilders: a malformed first row is the outcome `Raised(...)` instead of a Python exception escaping the setup. The global is written only when unpacking succeeded, which is the order the code runs in.
- FastLink.FastLinkHelper: mkstemp's guarantee that the new name is unused is its precondition, with the random part of the name as an input. `os.path.abspath` normalisation of the returned path is not modelled. The atomicity and cross-device behaviour of `shutil.move` are not modelled.
- FastLink.FastLinkHelper: the linker's effect on the filesystem is limited to the temporary file it writes or removes. A missing temporary file on exit 0 is the outcome `MoveError`, standing for the exception `shutil.move` raises.
- Concurrent link actions sharing the tmpfs are not modelled. On the sequential map filesystem the "failed to generate" warning after a successful move never fires.
- `generate_python_binary`, `generate_resource_file` and the header text written by `generate_resource_header` (lines 43-188) are not modelled; only the resource name sanitiser is.
- Converting the environment to `str` in `echospawn` (230-232) and building its command line (234) are not modelled.
- Text is '\n'-only with ASCII whitespace. Python's wider `splitlines` and `strip` character sets, such as '\r' line breaks or Unicode spaces, do not arise for child output read with universal newlines into byte strings.

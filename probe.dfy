/**
 * Fast-link setup: `create_fast_link_builders` asks `df` for tmpfs mounts,
 * takes the first `<usage>% <mount>` row, records the mount as the staging
 * directory in the module-level `linking_tmp_dir`, and, when the volume is not
 * too full, replaces the SharedLibrary and Program builders of the SCons
 * environment with fast-link ones.
 *
 * Running the shell pipeline is outside the model: its return code and its
 * standard output are inputs. The warnings printed on each early return are
 * represented by the reason in the outcome.
 */
module Probe {
  import opened Text

  /** Usage percentage above which the tmpfs is not used. */
  const UsageLimit: int := 90

  datatype LinkKind = ProgramLink | SharedLibraryLink

  /** A builder in `env['BUILDERS']`: one SCons installed, or a fast-link builder. */
  datatype Builder = Stock(name: string) | FastLink(kind: LinkKind)

  datatype DisabledReason =
    | ProbeFailed                  // the df pipeline exited non-zero
    | NoTmpfs                      // it printed nothing
    | NotEnoughSpace(dir: string)  // the first tmpfs is more than UsageLimit percent full

  /** The ValueError Python raises out of the setup on a malformed first row. */
  datatype ValueError =
    | WrongFieldCount    // the row does not split into exactly two fields
    | UsageNotAnInteger  // the usage field is not an integer once '%' is removed

  datatype ProbeOutcome = Disabled(reason: DisabledReason) | Enabled(dir: string) | Raised(error: ValueError)

  /** The outcome, and the directory assigned to `linking_tmp_dir` if the assignment was reached. */
  datatype ProbeResult = ProbeResult(outcome: ProbeOutcome, stored: Option<string>)

  /** What one setup run does with the probe's return code and output. */
  function Probe(returncode: int, stdout: string): (r: ProbeResult)
    ensures r.outcome.Enabled? ==> r.stored == Some(r.outcome.dir)
    ensures r.outcome.Disabled? && r.outcome.reason.NotEnoughSpace? ==> r.stored == Some(r.outcome.reason.dir)
    ensures returncode != 0 || stdout == "" ==> r.outcome.Disabled? && r.stored == None
    ensures r.outcome.Enabled? ==> returncode == 0 && stdout != ""
  {
    if returncode != 0 then ProbeResult(Disabled(ProbeFailed), None)
    else if stdout == "" then ProbeResult(Disabled(NoTmpfs), None)
    else
      var fields := Fields(FirstLine(stdout));
      if |fields| != 2 then ProbeResult(Raised(WrongFieldCount), None)
      else
        var dir := fields[1];
        match ParseInt(RemoveChar(fields[0], '%'))
        case None => ProbeResult(Raised(UsageNotAnInteger), Some(dir))
        case Some(usage) =>
          if usage > UsageLimit then ProbeResult(Disabled(NotEnoughSpace(dir)), Some(dir))
          else ProbeResult(Enabled(dir), Some(dir))
  }

  /** `env['BUILDERS']` after both fast-link builders are installed. */
  function WithFastLinkBuilders(builders: map<string, Builder>): map<string, Builder> {
    builders["SharedLibrary" := FastLink(SharedLibraryLink)]["Program" := FastLink(ProgramLink)]
  }

  /** The module-level variable of the build helper that this setup writes. */
  class ModuleGlobals {
    /** `linking_tmp_dir`: the staging directory, '' until the setup stores one. */
    var linkingTmpDir: string

    constructor ()
      ensures linkingTmpDir == ""
    {
      linkingTmpDir := "";
    }
  }

  /** The part of the SCons environment the setup changes: its builder table. */
  class Environment {
    var builders: map<string, Builder>

    constructor (builders: map<string, Builder>)
      ensures this.builders == builders
    {
      this.builders := builders;
    }

    /** `create_fast_link_sharelib_builder` */
    method CreateFastLinkSharelibBuilder()
      modifies this
      ensures builders == old(builders)["SharedLibrary" := FastLink(SharedLibraryLink)]
    {
      builders := builders["SharedLibrary" := FastLink(SharedLibraryLink)];
    }

    /** `create_fast_link_prog_builder` */
    method CreateFastLinkProgBuilder()
      modifies this
      ensures builders == old(builders)["Program" := FastLink(ProgramLink)]
    {
      builders := builders["Program" := FastLink(ProgramLink)];
    }
  }

  /**
   * `create_fast_link_builders`. The staging directory is stored before the
   * usage is parsed and checked, so a volume that is too full, or a usage
   * field that is not a number, still leaves it set; the builders are replaced
   * only when fast linking is enabled.
   */
  method CreateFastLinkBuilders(globals: ModuleGlobals, env: Environment, returncode: int, stdout: string)
    returns (outcome: ProbeOutcome)
    modifies globals, env
    ensures outcome == Probe(returncode, stdout).outcome
    ensures globals.linkingTmpDir ==
      match Probe(returncode, stdout).stored
      case Some(dir) => dir
      case None => old(globals.linkingTmpDir)
    ensures env.builders == if outcome.Enabled? then WithFastLinkBuilders(old(env.builders)) else old(env.builders)
  {
    if returncode != 0 {
      return Disabled(ProbeFailed);
    }
    if stdout == "" {
      return Disabled(NoTmpfs);
    }
    var fields := Fields(FirstLine(stdout));
    if |fields| != 2 {
      return Raised(WrongFieldCount);
    }
    globals.linkingTmpDir := fields[1];
    var usage := ParseInt(RemoveChar(fields[0], '%'));
    if usage.None? {
      return Raised(UsageNotAnInteger);
    }
    if usage.value > UsageLimit {
      return Disabled(NotEnoughSpace(globals.linkingTmpDir));
    }
    env.CreateFastLinkSharelibBuilder();
    env.CreateFastLinkProgBuilder();
    outcome := Enabled(globals.linkingTmpDir);
  }

  /**
   * A first row `<n>% <dir>` enables fast linking on `dir` when `n` is at most
   * 90 and disables it otherwise; either way `dir` is stored.
   */
  lemma ProbeRow(n: nat, dir: string, rest: string)
    requires IsWord(dir)
    requires rest == "" || rest[0] == '\n'
    ensures Probe(0, NatToString(n) + "% " + dir + rest) ==
      ProbeResult(if n > UsageLimit then Disabled(NotEnoughSpace(dir)) else Enabled(dir), Some(dir))
  {
    var usage := NatToString(n) + "%";
    var stdout := NatToString(n) + "% " + dir + rest;
    RowParse(n, dir, rest);
    ProbeOfFields(stdout, usage, dir);
  }

  /** The first line of such output splits into the usage and the mount, and the usage parses as `n`. */
  lemma RowParse(n: nat, dir: string, rest: string)
    requires IsWord(dir)
    requires rest == "" || rest[0] == '\n'
    ensures var usage := NatToString(n) + "%";
      var stdout := NatToString(n) + "% " + dir + rest;
      stdout != "" && Fields(FirstLine(stdout)) == [usage, dir] && ParseInt(RemoveChar(usage, '%')) == Some(n)
  {
    var usage := NatToString(n) + "%";
    var stdout := NatToString(n) + "% " + dir + rest;
    assert IsWord(usage) by {
      forall j | 0 <= j < |usage|
        ensures !IsSpace(usage[j])
      {
        if j < |usage| - 1 {
          assert usage[j] == NatToString(n)[j];
        }
      }
    }
    RowLine(usage, dir, rest);
    assert usage + " " + dir + rest == stdout;
    RowFields(usage, dir);
    RemoveTrailing(NatToString(n), '%');
    ParseNatToString(n);
  }

  /** `Probe` on output whose first line splits into two fields. */
  lemma ProbeOfFields(stdout: string, usage: string, dir: string)
    requires stdout != ""
    requires Fields(FirstLine(stdout)) == [usage, dir]
    ensures Probe(0, stdout) ==
      match ParseInt(RemoveChar(usage, '%'))
      case None => ProbeResult(Raised(UsageNotAnInteger), Some(dir))
      case Some(u) => ProbeResult(if u > UsageLimit then Disabled(NotEnoughSpace(dir)) else Enabled(dir), Some(dir))
  {
  }

  /** A row of two words followed by nothing or a line break has those two words as its first line. */
  lemma RowLine(usage: string, dir: string, rest: string)
    requires IsWord(usage) && IsWord(dir)
    requires rest == "" || rest[0] == '\n'
    ensures FirstLine(usage + " " + dir + rest) == usage + " " + dir
  {
    JoinWordsNoNewline([usage, dir]);
    assert JoinWords([usage, dir]) == usage + " " + dir by {
      assert [usage, dir][1..] == [dir];
    }
    FirstLineOf(usage + " " + dir, rest);
  }

  lemma RowFields(usage: string, dir: string)
    requires IsWord(usage) && IsWord(dir)
    ensures Fields(usage + " " + dir) == [usage, dir]
  {
    FieldsConcat(usage, dir);
    FieldsOfWord(usage);
    FieldsOfWord(dir);
  }

  /** Words joined by spaces hold no line break. */
  lemma {:induction false} JoinWordsNoNewline(words: seq<string>)
    requires forall k :: 0 <= k < |words| ==> IsWord(words[k])
    ensures forall j :: 0 <= j < |JoinWords(words)| ==> JoinWords(words)[j] != '\n'
  {
    if |words| > 1 {
      JoinWordsNoNewline(words[1..]);
      var w := words[0];
      var tail := JoinWords(words[1..]);
      assert JoinWords(words) == w + " " + tail;
      assert forall j :: 0 <= j < |w| ==> !IsSpace(w[j]);
      assert forall j :: |w| + 1 <= j < |w| + 1 + |tail| ==> (w + " " + tail)[j] == tail[j - |w| - 1];
    } else if |words| == 1 {
      assert forall j :: 0 <= j < |words[0]| ==> !IsSpace(words[0][j]);
    }
  }

  /**
   * A first row `<usage> <dir>` whose usage is not an integer once '%' is
   * removed raises ValueError, but only after `dir` has been stored.
   */
  lemma ProbeBadUsage(usage: string, dir: string, rest: string)
    requires IsWord(usage) && IsWord(dir)
    requires rest == "" || rest[0] == '\n'
    requires ParseInt(RemoveChar(usage, '%')) == None
    ensures Probe(0, usage + " " + dir + rest) == ProbeResult(Raised(UsageNotAnInteger), Some(dir))
  {
    RowLine(usage, dir, rest);
    RowFields(usage, dir);
    ProbeOfFields(usage + " " + dir + rest, usage, dir);
  }

  /**
   * A first line that does not hold exactly two fields, a blank one included,
   * raises ValueError before anything is stored.
   */
  lemma ProbeWrongFieldCount(words: seq<string>, rest: string)
    requires forall k :: 0 <= k < |words| ==> IsWord(words[k])
    requires |words| != 2
    requires rest == "" || rest[0] == '\n'
    requires JoinWords(words) + rest != ""
    ensures Probe(0, JoinWords(words) + rest) == ProbeResult(Raised(WrongFieldCount), None)
  {
    JoinWordsNoNewline(words);
    FirstLineOf(JoinWords(words), rest);
    FieldsJoinWords(words);
  }

  /** `df` prints "-" as the usage of a volume without a size: that row raises after storing the mount. */
  lemma ProbeDashUsage()
    ensures Probe(0, "-% /dev/shm\n") == ProbeResult(Raised(UsageNotAnInteger), Some("/dev/shm"))
  {
    assert "-%" + " " + "/dev/shm" + "\n" == "-% /dev/shm\n";
    DashRow();
    ProbeBadUsage("-%", "/dev/shm", "\n");
  }

  /** The pieces of the row `-% /dev/shm`: two words, and a usage that is no integer. */
  lemma DashRow()
    ensures IsWord("-%") && IsWord("/dev/shm")
    ensures ParseInt(RemoveChar("-%", '%')) == None
  {
    assert IsWord("-%");
    assert IsWord("/dev/shm");
    assert ParseInt("-") == None;
    assert RemoveChar("-%", '%') == "-";
  }

  /** A tmpfs at exactly the limit is used: the comparison is strictly greater-than. */
  lemma ProbeAtLimit()
    ensures Probe(0, "90% /dev/shm\n") == ProbeResult(Enabled("/dev/shm"), Some("/dev/shm"))
  {
    var dir := "/dev/shm";
    assert NatToString(90) == "90";
    assert IsWord(dir);
    assert "90" + "% " + dir + "\n" == "90% /dev/shm\n";
    ProbeRow(90, dir, "\n");
  }

  /** A 95% full tmpfs disables fast linking, yet its mount is still stored. */
  lemma ProbeTooFull()
    ensures Probe(0, "95% /mnt/fast\n") == ProbeResult(Disabled(NotEnoughSpace("/mnt/fast")), Some("/mnt/fast"))
  {
    var dir := "/mnt/fast";
    assert NatToString(95) == "95";
    assert IsWord(dir);
    assert "95" + "% " + dir + "\n" == "95% /mnt/fast\n";
    ProbeRow(95, dir, "\n");
  }

  /** The stored staging directory is always one whitespace-free field of the first row. */
  lemma ProbeStoresWord(returncode: int, stdout: string)
    ensures Probe(returncode, stdout).stored.Some? ==> IsWord(Probe(returncode, stdout).stored.value)
  {
    if returncode == 0 && stdout != "" {
      FieldsAreWords(FirstLine(stdout));
    }
  }

  /** Writing both builder entries a second time leaves the table as it was after the first write. */
  lemma FastLinkBuildersIdempotent(builders: map<string, Builder>)
    ensures WithFastLinkBuilders(WithFastLinkBuilders(builders)) == WithFastLinkBuilders(builders)
    ensures WithFastLinkBuilders(builders).Keys == builders.Keys + {"SharedLibrary", "Program"}
  {
  }
}

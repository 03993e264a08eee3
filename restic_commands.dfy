/** The argument lists of the restic backend (src/service/model/restic.ts)
    that differ from rustic's: the binary, the password variable, the exclude
    prefix and the spelling of `backup`, `forget`, `restore` and `mount`. */
module ResticCommands {
  import opened Wrappers
  import opened Text
  import opened Profiles
  import opened CommandParts

  const BinFile: string := "restic"
  const PasswordVar: string := "RESTIC_PASSWORD"
  const ExcludePrefix: string := "--iexclude="

  /** One process's arguments in `backup`: the exclude list first, then the
      backup of one path, tagged with that path. */
  function BackupArgv(exclude: seq<string>, repoPath: string, info: BackupInfo): seq<string>
  {
    exclude + ["--json", "backup", "--exclude-caches", TagPrefix + info.path, RepoFlag + repoPath, info.path]
  }

  /** What a backup command line asks for. */
  datatype BackupCall = BackupCall(exclude: ExcludeRequest, repoPath: string, path: string)

  function ParseBackupArgv(argv: seq<string>): Option<BackupCall>
  {
    if |argv| < 6 then None
    else
      var t := argv[|argv| - 6..];
      if t[0] == "--json" && t[1] == "backup" && t[2] == "--exclude-caches"
        && StartsWith(t[3], TagPrefix) && StartsWith(t[4], RepoFlag) && t[3][|TagPrefix|..] == t[5]
      then
        match ParseExclude(ExcludePrefix, argv[..|argv| - 6])
        case None => None
        case Some(ex) => Some(BackupCall(ex, t[4][|RepoFlag|..], t[5]))
      else None
  }

  /** A backup command line carries exactly the exclude settings, the
      repository and the path it was built for, and nothing else: in
      particular no password. */
  lemma ParseBackupArgvRoundTrip(repoPath: string, e: Option<ExcludeSettings>, info: BackupInfo)
    ensures ParseBackupArgv(BackupArgv(ExcludeFlags(ExcludePrefix, repoPath, e), repoPath, info))
      == Some(BackupCall(ExcludeRequest(repoPath, SizeArg(e), ExcludedPaths(e)), repoPath, info.path))
  {
    var ex := ExcludeFlags(ExcludePrefix, repoPath, e);
    var argv := BackupArgv(ex, repoPath, info);
    var t := argv[|argv| - 6..];
    assert argv[..|argv| - 6] == ex;
    assert t == ["--json", "backup", "--exclude-caches", TagPrefix + info.path, RepoFlag + repoPath, info.path];
    assert t[3][..|TagPrefix|] == TagPrefix && t[3][|TagPrefix|..] == info.path;
    assert t[4][..|RepoFlag|] == RepoFlag && t[4][|RepoFlag|..] == repoPath;
    ParseExcludeRoundTrip(ExcludePrefix, repoPath, e);
  }

  /** The head of `forget`'s arguments, before the mode flag. */
  function ForgetHead(repoPath: string): seq<string>
  {
    ["--json", "forget", RepoFlag + repoPath]
  }

  function RestoreArgv(path: string, repoPath: string, targetPath: string): seq<string>
  {
    ["--json", "restore", TagPrefix + path, RepoFlag + repoPath, "--target=" + targetPath, "latest"]
  }

  /** `restore` selects the latest snapshot tagged with the path, from the
      given repository, into the given target. */
  lemma RestoreArgvCarries(path: string, repoPath: string, targetPath: string)
    ensures var argv := RestoreArgv(path, repoPath, targetPath);
      && OptionValue(argv, TagPrefix) == Some(path)
      && OptionValue(argv, RepoFlag) == Some(repoPath)
      && OptionValue(argv, "--target=") == Some(targetPath)
      && argv[|argv| - 1] == "latest"
  {
    var argv := RestoreArgv(path, repoPath, targetPath);
    var tag := TagPrefix + path;
    var repo := RepoFlag + repoPath;
    DisagreeingPrefixes("--json", "--json", TagPrefix, 2);
    DisagreeingPrefixes("restore", "restore", TagPrefix, 0);
    assert argv == ["--json", "restore"] + [tag] + [repo, "--target=" + targetPath, "latest"];
    FlagValue(["--json", "restore"], TagPrefix, path, [repo, "--target=" + targetPath, "latest"]);
    DisagreeingPrefixes("--json", "--json", RepoFlag, 1);
    DisagreeingPrefixes("restore", "restore", RepoFlag, 0);
    assert tag[..|TagPrefix|] == TagPrefix;
    DisagreeingPrefixes(tag, TagPrefix, RepoFlag, 1);
    assert argv == ["--json", "restore", tag] + [repo] + ["--target=" + targetPath, "latest"];
    FlagValue(["--json", "restore", tag], RepoFlag, repoPath, ["--target=" + targetPath, "latest"]);
    DisagreeingPrefixes("--json", "--json", "--target=", 2);
    DisagreeingPrefixes(tag, TagPrefix, "--target=", 4);
    assert repo[..|RepoFlag|] == RepoFlag;
    DisagreeingPrefixes(repo, RepoFlag, "--target=", 1);
    assert argv == ["--json", "restore", tag, repo] + ["--target=" + targetPath] + ["latest"];
    FlagValue(["--json", "restore", tag, repo], "--target=", targetPath, ["latest"]);
  }

  function MountArgv(path: string, repoPath: string, mountPath: string): seq<string>
  {
    ["--json", "mount", TagPrefix + path, RepoFlag + repoPath, mountPath]
  }

  /** `mount` serves the snapshots tagged with the path, from the given
      repository, at the given directory. */
  lemma MountArgvCarries(path: string, repoPath: string, mountPath: string)
    ensures var argv := MountArgv(path, repoPath, mountPath);
      && OptionValue(argv, TagPrefix) == Some(path)
      && OptionValue(argv, RepoFlag) == Some(repoPath)
      && argv[|argv| - 1] == mountPath
  {
    var argv := MountArgv(path, repoPath, mountPath);
    var tag := TagPrefix + path;
    var repo := RepoFlag + repoPath;
    DisagreeingPrefixes("--json", "--json", TagPrefix, 2);
    DisagreeingPrefixes("mount", "mount", TagPrefix, 0);
    assert argv == ["--json", "mount"] + [tag] + [repo, mountPath];
    FlagValue(["--json", "mount"], TagPrefix, path, [repo, mountPath]);
    DisagreeingPrefixes("--json", "--json", RepoFlag, 1);
    DisagreeingPrefixes("mount", "mount", RepoFlag, 0);
    assert tag[..|TagPrefix|] == TagPrefix;
    DisagreeingPrefixes(tag, TagPrefix, RepoFlag, 1);
    assert argv == ["--json", "mount", tag] + [repo] + [mountPath];
    FlagValue(["--json", "mount", tag], RepoFlag, repoPath, [mountPath]);
  }
}

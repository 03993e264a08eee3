/** The argument lists of the rustic backend (src/service/model/rustic.ts)
    that differ from restic's: the binary, the password variable, the exclude
    prefix, and the spelling of `backup`, `forget` and `restore`.  rustic has
    no `mount`. */
module RusticCommands {
  import opened Wrappers
  import opened Text
  import opened Profiles
  import opened CommandParts

  const BinFile: string := "rustic"
  const PasswordVar: string := "RUSTIC_PASSWORD"
  const ExcludePrefix: string := "--iglob=!"
  const MountError: string := "not implemented in rustic"

  /** One process's arguments in `backup`: the subcommand and `--json`
      first, then the exclude list, then the backup of one path, tagged with
      that path. */
  function BackupArgv(exclude: seq<string>, repoPath: string, info: BackupInfo): seq<string>
  {
    ["backup", "--json"] + exclude + ["--exclude-caches", TagPrefix + info.path, RepoFlag + repoPath, info.path]
  }

  /** What a backup command line asks for. */
  datatype BackupCall = BackupCall(exclude: ExcludeRequest, repoPath: string, path: string)

  function ParseBackupArgv(argv: seq<string>): Option<BackupCall>
  {
    if |argv| < 6 || argv[0] != "backup" || argv[1] != "--json" then None
    else
      var t := argv[|argv| - 4..];
      if t[0] == "--exclude-caches" && StartsWith(t[1], TagPrefix) && StartsWith(t[2], RepoFlag)
        && t[1][|TagPrefix|..] == t[3]
      then
        match ParseExclude(ExcludePrefix, argv[2..|argv| - 4])
        case None => None
        case Some(ex) => Some(BackupCall(ex, t[2][|RepoFlag|..], t[3]))
      else None
  }

  /** A backup command line carries exactly the exclude settings, the
      repository and the path it was built for, and nothing else: in
      particular no password. */
  lemma ParseBackupArgvRoundTrip(repoPath: string, e: Option<ExcludeSettings>, info: BackupInfo)
    ensures ParseBackupArgv(BackupArgv(ExcludeFlags(ExcludePrefix, repoPath, e), repoPath, info))
      == Some(BackupCall(ExcludeRequest(repoPath, SizeArg(e), ExcludedPaths(e)), repoPath, info.path))
  {
    var ex := ExcludeFlags(ExcludePrefix, repoPath, e);
    var argv := BackupArgv(ex, repoPath, info);
    var t := argv[|argv| - 4..];
    assert argv[2..|argv| - 4] == ex;
    assert t == ["--exclude-caches", TagPrefix + info.path, RepoFlag + repoPath, info.path];
    assert t[1][..|TagPrefix|] == TagPrefix && t[1][|TagPrefix|..] == info.path;
    assert t[2][..|RepoFlag|] == RepoFlag && t[2][|RepoFlag|..] == repoPath;
    ParseExcludeRoundTrip(ExcludePrefix, repoPath, e);
  }

  /** The head of `forget`'s arguments, before the mode flag. */
  function ForgetHead(repoPath: string): seq<string>
  {
    ["forget", "--json", RepoFlag + repoPath]
  }

  const FilterPrefix: string := "--filter-tags="

  function RestoreArgv(path: string, repoPath: string, targetPath: string): seq<string>
  {
    ["restore", FilterPrefix + path, RepoFlag + repoPath, "latest", targetPath]
  }

  /** `restore` selects the latest snapshot whose tags match the path, from
      the given repository, and writes it to the target given last. */
  lemma RestoreArgvCarries(path: string, repoPath: string, targetPath: string)
    ensures var argv := RestoreArgv(path, repoPath, targetPath);
      && OptionValue(argv, FilterPrefix) == Some(path)
      && OptionValue(argv, RepoFlag) == Some(repoPath)
      && argv[|argv| - 2] == "latest" && argv[|argv| - 1] == targetPath
  {
    var argv := RestoreArgv(path, repoPath, targetPath);
    var filter := FilterPrefix + path;
    var repo := RepoFlag + repoPath;
    DisagreeingPrefixes("restore", "restore", FilterPrefix, 0);
    assert argv == ["restore"] + [filter] + [repo, "latest", targetPath];
    FlagValue(["restore"], FilterPrefix, path, [repo, "latest", targetPath]);
    DisagreeingPrefixes("restore", "restore", RepoFlag, 0);
    assert filter[..|FilterPrefix|] == FilterPrefix;
    DisagreeingPrefixes(filter, FilterPrefix, RepoFlag, 1);
    assert argv == ["restore", filter] + [repo] + ["latest", targetPath];
    FlagValue(["restore", filter], RepoFlag, repoPath, ["latest", targetPath]);
  }
}

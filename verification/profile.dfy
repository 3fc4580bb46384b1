/**
 * The Profile of profile.go: validation with region resolution, the
 * overwrite flag, correlation of fetched servers with SSH lane settings,
 * and the guard and effects of writing a profile to disk.
 * Environment values, EC2 results, YAML encoding and file-system outcomes
 * are parameters; file-system effects are returned as a list of actions.
 */
module Profiles {
  import opened Wrappers
  import Paths
  import Permissions

  /** The SSH settings of one lane (the fields of `ssh.Profile` the program sets). */
  datatype SshProfile = SshProfile(identity: string, tunnel: string, tunnels: seq<string>)

  /**
   * `ssh.Config`: lane name to SSH settings. A lane may be mapped to a nil
   * profile (`None`), which is different from the lane being absent.
   */
  datatype SshConfig = SshConfig(mods: map<string, Option<SshProfile>>)

  /** The global configuration, of which only the default region is used here. */
  datatype GlobalConfig = GlobalConfig(region: string)

  datatype ValidationError = MissingAccessKey | MissingSecretKey

  /**
   * The credential part of Validate: the access key is checked first, so
   * a missing access key is reported whatever the secret is.
   */
  function CredentialError(accessKeyId: string, secretAccessKey: string): (r: Option<ValidationError>)
    ensures r == Some(MissingAccessKey) <==> accessKeyId == ""
    ensures r == Some(MissingSecretKey) <==> accessKeyId != "" && secretAccessKey == ""
    ensures r == None <==> accessKeyId != "" && secretAccessKey != ""
  {
    if accessKeyId == "" then Some(MissingAccessKey)
    else if secretAccessKey == "" then Some(MissingSecretKey)
    else None
  }

  /**
   * The region part of Validate. With a global configuration, an empty
   * region falls back to the global one; without one, the value of the
   * LANES_REGION environment variable (empty when unset) replaces the
   * region even when it was set.
   */
  function ResolveRegion(region: string, global: Option<GlobalConfig>, env: string): string
  {
    match global
    case Some(g) => if region == "" then g.region else region
    case None => env
  }

  /** Resolving a resolved region again, in the same environment, changes nothing. */
  lemma ResolveRegionIdempotent(region: string, global: Option<GlobalConfig>, env: string)
    ensures ResolveRegion(ResolveRegion(region, global, env), global, env)
         == ResolveRegion(region, global, env)
  {
  }

  /** The SSH settings a server of lane `lane` is given: the lane's entry, or nil without one. */
  function LaneProfile(mods: map<string, Option<SshProfile>>, lane: string): Option<SshProfile>
  {
    if lane in mods then mods[lane] else None
  }

  /** An EC2 instance as the program holds it: its lane tag and the SSH settings attached to it. */
  class Server {
    const lane: string
    var profile: Option<SshProfile>

    constructor (lane: string)
      ensures this.lane == lane && profile == None
    {
      this.lane := lane;
      profile := None;
    }
  }

  /** The servers, in order, whose lane has no entry in `mods`: one warning is printed for each. */
  function Unmatched(mods: map<string, Option<SshProfile>>, servers: seq<Server>): seq<Server>
  {
    if servers == [] then []
    else
      var last := servers[|servers| - 1];
      Unmatched(mods, servers[..|servers| - 1]) + (if last.lane in mods then [] else [last])
  }

  /** A server draws a warning exactly when it is in the list and its lane is not configured. */
  lemma {:induction false} UnmatchedMembers(mods: map<string, Option<SshProfile>>, servers: seq<Server>)
    ensures forall s :: s in Unmatched(mods, servers) <==> s in servers && s.lane !in mods
    ensures |Unmatched(mods, servers)| <= |servers|
  {
    if servers != [] {
      var init := servers[..|servers| - 1];
      UnmatchedMembers(mods, init);
      assert servers == init + [servers[|servers| - 1]];
    }
  }

  /** No warning is printed exactly when every server's lane is configured. */
  lemma NoWarningsIffAllMatched(mods: map<string, Option<SshProfile>>, servers: seq<Server>)
    ensures Unmatched(mods, servers) == [] <==> forall i :: 0 <= i < |servers| ==> servers[i].lane in mods
  {
    UnmatchedMembers(mods, servers);
    if Unmatched(mods, servers) != [] {
      var s := Unmatched(mods, servers)[0];
      assert s in Unmatched(mods, servers);
    }
  }

  datatype WriteError =
    | AlreadyExists(name: string)
    | MarshalFailed(reason: string)
    | MkdirFailed(reason: string)
    | WriteFailed(reason: string)

  /** What WriteFile does to the outside world, in order. */
  datatype Action =
    | MakeDirAll(path: string, perm: Permissions.FileMode)
    | WriteBytes(path: string, data: seq<bv8>, perm: Permissions.FileMode)
    | Announce(name: string, path: string)

  /** Octal 0700 and 0600: the modes of the profile directory and of the profile file. */
  const DirPerm: Permissions.FileMode := 0x1C0
  const FilePerm: Permissions.FileMode := 0x180

  /** Everything a successful write does: create the directory, write the file, report it. */
  function WritePlan(name: string, dest: string, data: seq<bv8>): seq<Action>
  {
    [MakeDirAll(Paths.Dir(dest), DirPerm), WriteBytes(dest, data, FilePerm), Announce(name, dest)]
  }

  /** The settings a profile file holds; `global` and `overwrite` are not stored. */
  class Profile {
    var accessKeyId: string
    var secretAccessKey: string
    var region: string
    var ssh: SshConfig
    var global: Option<GlobalConfig>
    var overwrite: bool

    /** GetSampleProfile: three example lanes and no credentials. */
    constructor Sample()
      ensures accessKeyId == "" && secretAccessKey == "" && region == ""
      ensures ssh == SshConfig(SampleMods()) && global == None && !overwrite
    {
      accessKeyId, secretAccessKey, region := "", "", "";
      ssh := SshConfig(SampleMods());
      global := None;
      overwrite := false;
    }

    static function SampleMods(): map<string, Option<SshProfile>>
    {
      map[
        "dev" := Some(SshProfile("~/.ssh/id_rsa_dev", "", ["8080:127.0.0.1:80", "3306:127.0.0.1:3306"])),
        "stage" := Some(SshProfile("~/.ssh/id_rsa_stage", "8080:127.0.0.1:80", [])),
        "prod" := Some(SshProfile("~/.ssh/id_rsa_prod", "", []))
      ]
    }

    /** SetOverwrite: changes the overwrite flag and nothing else. */
    method SetOverwrite(value: bool)
      modifies this`overwrite
      ensures overwrite == value
    {
      overwrite := value;
    }

    /**
     * Validate, with `env` the value of LANES_REGION. The credentials are
     * checked in order and never changed; only on success is the region
     * resolved, in place.
     */
    method Validate(env: string) returns (err: Option<ValidationError>)
      modifies this`region
      ensures err == CredentialError(accessKeyId, secretAccessKey)
      ensures err == None ==> region == ResolveRegion(old(region), global, env)
      ensures err == None && global.Some? ==>
        region == if old(region) != "" then old(region) else global.value.region
      ensures err == None && global.None? ==> region == env
      ensures err != None ==> region == old(region)
    {
      if accessKeyId == "" {
        return Some(MissingAccessKey);
      }
      if secretAccessKey == "" {
        return Some(MissingSecretKey);
      }
      if global.Some? {
        if region == "" {
          region := global.value.region;
        }
      } else {
        region := env;
      }
      return None;
    }

    /**
     * Profile.FetchServersBy, given what the EC2 query returned. A fetch
     * error is passed on unchanged and no server is touched. Otherwise the
     * same servers come back in the same order, each carrying the SSH
     * settings of its lane (nil when the lane is absent), one warning per
     * server whose lane is absent, and no error.
     */
    method FetchServersBy(fetched: seq<Server>, fetchErr: Option<string>)
      returns (servers: seq<Server>, err: Option<string>, warnings: seq<Server>)
      modifies fetched
      ensures servers == fetched && err == fetchErr
      ensures fetchErr.Some? ==> warnings == [] && forall s :: s in fetched ==> s.profile == old(s.profile)
      ensures fetchErr.None? ==>
        && (forall i :: 0 <= i < |servers| ==> servers[i].profile == LaneProfile(ssh.mods, servers[i].lane))
        && warnings == Unmatched(ssh.mods, servers)
    {
      servers, err, warnings := fetched, fetchErr, [];
      if fetchErr.Some? {
        return;
      }
      var i := 0;
      while i < |servers|
        invariant 0 <= i <= |servers|
        invariant forall j :: 0 <= j < i ==> servers[j].profile == LaneProfile(ssh.mods, servers[j].lane)
        invariant warnings == Unmatched(ssh.mods, servers[..i])
      {
        var svr := servers[i];
        svr.profile := LaneProfile(ssh.mods, svr.lane);
        if svr.lane !in ssh.mods {
          warnings := warnings + [svr];
        }
        assert servers[..i + 1][..i] == servers[..i];
        i := i + 1;
      }
      assert servers[..i] == servers;
    }

    /**
     * WriteFile, given whether `os.Stat(dest)` succeeded, the YAML encoding
     * of the profile and the outcomes of creating the directory and writing
     * the file. An existing destination is refused, with nothing done,
     * unless overwriting is allowed. Otherwise the actions are a prefix of
     * the plan, cut after the step that failed, and the whole plan exactly
     * when there is no error.
     */
    method WriteFile(name: string, dest: string, destStatOk: bool, encoded: Result<seq<bv8>, string>,
                     mkdirErr: Option<string>, writeErr: Option<string>)
      returns (err: Option<WriteError>, actions: seq<Action>)
      ensures destStatOk && !overwrite ==> err == Some(AlreadyExists(name)) && actions == []
      ensures encoded.Failure? && (!destStatOk || overwrite) ==> err == Some(MarshalFailed(encoded.error)) && actions == []
      ensures encoded.Success? ==> actions <= WritePlan(name, dest, encoded.value)
      ensures err == None <==> (!destStatOk || overwrite) && encoded.Success? && mkdirErr == None && writeErr == None
      ensures err == None ==> actions == WritePlan(name, dest, encoded.value)
      ensures (!destStatOk || overwrite) && encoded.Success? && mkdirErr.Some? ==>
        err == Some(MkdirFailed(mkdirErr.value)) && actions == WritePlan(name, dest, encoded.value)[..1]
      ensures (!destStatOk || overwrite) && encoded.Success? && mkdirErr.None? && writeErr.Some? ==>
        err == Some(WriteFailed(writeErr.value)) && actions == WritePlan(name, dest, encoded.value)[..2]
    {
      if destStatOk && !overwrite {
        return Some(AlreadyExists(name)), [];
      }
      if encoded.Failure? {
        return Some(MarshalFailed(encoded.error)), [];
      }
      var dir := Paths.Dir(dest);
      actions := [MakeDirAll(dir, DirPerm)];
      if mkdirErr.Some? {
        return Some(MkdirFailed(mkdirErr.value)), actions;
      }
      actions := actions + [WriteBytes(dest, encoded.value, FilePerm)];
      if writeErr.Some? {
        return Some(WriteFailed(writeErr.value)), actions;
      }
      actions := actions + [Announce(name, dest)];
      err := None;
    }

    /**
     * Write: WriteFile to the profile's own path in `configDir`. For a plain
     * name, a successful write creates `configDir` itself with mode 0700.
     */
    method Write(configDir: string, name: string, destStatOk: bool, encoded: Result<seq<bv8>, string>,
                 mkdirErr: Option<string>, writeErr: Option<string>)
      returns (err: Option<WriteError>, actions: seq<Action>)
      ensures destStatOk && !overwrite ==> err == Some(AlreadyExists(name)) && actions == []
      ensures err == None <==> (!destStatOk || overwrite) && encoded.Success? && mkdirErr == None && writeErr == None
      ensures encoded.Failure? && (!destStatOk || overwrite) ==> err == Some(MarshalFailed(encoded.error)) && actions == []
      ensures err == None ==> actions == WritePlan(name, Paths.ProfilePath(configDir, name), encoded.value)
      ensures (!destStatOk || overwrite) && encoded.Success? && mkdirErr.Some? ==>
        err == Some(MkdirFailed(mkdirErr.value)) &&
        actions == WritePlan(name, Paths.ProfilePath(configDir, name), encoded.value)[..1]
      ensures (!destStatOk || overwrite) && encoded.Success? && mkdirErr.None? && writeErr.Some? ==>
        err == Some(WriteFailed(writeErr.value)) &&
        actions == WritePlan(name, Paths.ProfilePath(configDir, name), encoded.value)[..2]
      ensures err == None && Paths.Separator !in name && Paths.IsPlainDir(configDir) ==>
        |actions| == 3 &&
        actions[0] == MakeDirAll(configDir, DirPerm) &&
        actions[1] == WriteBytes(configDir + [Paths.Separator] + name + Paths.ProfileExtension, encoded.value, FilePerm)
    {
      err, actions := WriteFile(name, Paths.ProfilePath(configDir, name), destStatOk, encoded, mkdirErr, writeErr);
    }
  }

  /** GetSampleProfile has no credentials, so Validate rejects it for the missing access key. */
  method SampleIsRejected(env: string) returns (err: Option<ValidationError>)
    ensures err == Some(MissingAccessKey)
  {
    var p := new Profile.Sample();
    err := p.Validate(env);
  }

  /**
   * Every directory and file a successful write creates passes the
   * permission check: the check that guards loading accepts what writing
   * produced, whatever type bits stat reports beside the permission bits.
   */
  lemma WrittenProfilePassesCheck(name: string, dest: string, data: seq<bv8>, typeBits: Permissions.FileMode)
    requires typeBits & 0x1FF == 0
    ensures var plan := WritePlan(name, dest, data);
      && Permissions.CheckPermissions(plan[0].path, Permissions.Stat(typeBits | plan[0].perm)) == Permissions.Check(false, [])
      && Permissions.CheckPermissions(plan[1].path, Permissions.Stat(typeBits | plan[1].perm)) == Permissions.Check(false, [])
  {
    Permissions.WrittenModesPass(Paths.Dir(dest), typeBits);
    Permissions.WrittenModesPass(dest, typeBits);
  }
}

# Lanes profiles in Dafny

A model of the profile logic of go-aws-lanes (`profile.go`). A profile holds an
AWS credential pair, a region and a map from lane name to SSH settings. A lane
is a group of EC2 instances identified by a tag. The model covers five things:

- the permission hardening of profile files and their directory;
- profile validation with region resolution;
- the correlation of fetched EC2 servers with the SSH settings of their lane;
- the overwrite guard and the effects of writing a profile;
- the sample profile and the profile's path.

Modules:

- `Wrappers` (wrappers.dfy): `Option` for nil values and `Result` for Go's `(value, err)` returns.
- `Paths` (paths.dfy): `filepath.Join` and `filepath.Dir` for Unix paths, and GetProfilePath.
- `Permissions` (permissions.dfy): CheckPermissions and CheckProfilePermissions as pure functions.
  The result of `os.Stat` is a parameter. File modes are `bv32`, like Go's `os.FileMode`.
- `Profiles` (profile.dfy): the `Profile` class. Its methods change fields in place (`Validate`, `SetOverwrite`).
  `FetchServersBy` writes the SSH profile into each `Server` object.
  `WriteFile` returns the file-system actions it takes as a list instead of performing them.

Outside inputs are parameters:

- the `LANES_REGION` value;
- the server list and error returned by the EC2 query;
- whether `os.Stat(dest)` succeeded;
- the YAML encoding of the profile;
- the errors of `os.MkdirAll` and `ioutil.WriteFile`.

Printed warnings become returned values: the servers warned about, the printed complaints.
`os.Exit` becomes the `exits` flag of a report.

Two rules of the code are easy to misread:

- A path is fatal when the owner's permission field is at most 3, that is when the owner *read* bit
  is clear, not when the owner lacks any of read, write and execute. Mode 0400 or 0500 passes.
- Region resolution is not "profile, then global, then environment". With a global configuration,
  an empty region takes the global region, even an empty one. Without a global configuration,
  LANES_REGION replaces the region even when the profile sets one.

## Model

| member | source | states |
|---|---|---|
| `Paths.ProfilePath` | profile.go:53-61 | the profile path of a plain name lies directly in the config directory (`Dir` gives the directory back); it is `<dir>/<name>.yml` and always ends in `.yml` |
| `Paths.DirOfJoin` | profile.go:54 | `filepath.Dir` of `filepath.Join(dir, file)` is `dir` for a plain directory and a plain file name |
| `Permissions.CheckPermissions` | profile.go:95-121 | a failed stat is fatal with one complaint; otherwise fatal iff the owner read bit is clear; a complaint exists iff owner read is clear or any group or world bit is set; one complaint per true condition, about the path, in user, group, world order, and no stat complaint after a successful stat |
| `Permissions.FatalIgnoresGroupAndWorld` | profile.go:103-117 | changing the group and world bits never changes whether the check is fatal |
| `Permissions.WrittenModesPass` | profile.go:104-117 | modes 0700 and 0600, with any type bits such as the directory bit, are neither fatal nor complained about |
| `Permissions.CheckProfilePermissions` | profile.go:64-92 | exits iff the directory check or the file check is fatal; prefix "ERROR" iff it exits, "WARNING" otherwise; prints the file's complaints if any, else the directory's; an exit always comes with a printed complaint |
| `Permissions.CheckProfilePermissionsAccumulated` | profile.go:64-92 | corrected aggregation: prints exactly the directory's complaints followed by the file's, each in its own order; exit and prefix are those of the code as written |
| `Permissions.DirectoryComplaintsLost` | profile.go:68-77 | when both the directory and the file draw complaints, none of the directory's complaints is printed as written, and all of them are printed by the accumulated report |
| `Permissions.DirectoryComplaintLostExample` | profile.go:68-77 | a world-writable `cfg` holding `cfg/lanes.yml` with mode 0644: the directory's complaint is lost |
| `Profiles.CredentialError` | profile.go:161-167 | missing access key iff the key is empty, whatever the secret; missing secret key iff the key is set and the secret empty; no error iff both are set |
| `Profiles.Profile.Validate` | profile.go:160-178 | returns the credential error; on error the region is unchanged; on success, with a global config a set region is kept and an empty one takes the global region, and without one the region becomes LANES_REGION; only the region field can change |
| `Profiles.ResolveRegionIdempotent` | profile.go:169-175 | resolving the region a second time in the same environment gives the same region |
| `Profiles.UnmatchedMembers` | profile.go:211-215 | a server draws a warning iff it is among the fetched servers and its lane has no entry; there are no more warnings than servers |
| `Profiles.NoWarningsIffAllMatched` | profile.go:211-215 | no warning is printed iff every fetched server's lane has an entry |
| `Profiles.Profile.FetchServersBy` | profile.go:204-218 | a fetch error comes back unchanged and no server is touched; otherwise the same servers in the same order, each carrying its lane's entry (nil when absent), one warning per server whose lane is absent, and no error |
| `Profiles.Profile.SetOverwrite` | profile.go:155-157 | sets the overwrite flag and changes nothing else |
| `Profiles.Profile.WriteFile` | profile.go:226-250 | an existing destination without the overwrite flag gives "already exists" and no action; an encoding failure gives no action; otherwise the actions are a prefix of mkdir 0700 of the parent, write 0600, announce, cut after the step that failed; a failed mkdir returns its error unchanged after the mkdir action only, a failed write returns its error unchanged after the mkdir and write actions; the whole plan exactly when there is no error |
| `Profiles.Profile.Write` | profile.go:221-223 | writes to the profile path, with the guard, error and cut rules of WriteFile; for a plain name a successful write creates the config directory itself with 0700 and writes `<dir>/<name>.yml` with 0600 |
| `Profiles.Profile.Sample` | profile.go:28-49 | the sample profile has empty credentials and region, three lanes (dev, stage, prod) with their identities and tunnels, no global config and no overwrite flag |
| `Profiles.SampleIsRejected` | profile.go:160-163 | validating the sample profile fails with the missing access key, in any environment |
| `Profiles.WrittenProfilePassesCheck` | profile.go:238-243 | the directory and the file that a successful write creates pass the permission check without complaint |

## Left out

- YAML encoding and decoding (`WriteBytes`, `LoadProfileBytes`) come from a third-party library. The encoding is an input of `WriteFile`; decoding is not modelled.
- `LoadProfile` and `LoadProfileBytes` are not modelled. `LoadProfile` runs the permission check through GetProfilePath, reads the file and wraps the read error. `LoadProfileBytes` decodes, sets the global configuration (the `global` field here), runs `Validate` and wraps its errors.
- `GetProfilePath`'s `checkPerms` argument only calls `CheckProfilePermissions` on the returned path. `Paths.ProfilePath` gives the path; `Permissions.CheckProfilePermissions` models the call.
- `Activate` and `Deactivate` only set and unset process environment variables.
- `FetchServers` and `FetchServersInLane` only choose the EC2 filter. The package-level EC2 query and `CreateLaneFilter` are AWS SDK calls that are not part of this model. Their result (the servers with their lanes, and an error) is an input.
- `ssh.Config` and `ssh.Profile` are defined in a package that is not part of this model. Only the fields the sample profile sets (identity, tunnel, tunnels) are kept, and servers keep only their lane tag.
- `CONFIG_DIR` and the global `config` are defined elsewhere. They are parameters here.
- `Paths.Join` models `filepath.Join` only for a non-empty file name without separators, which is what GetProfilePath passes. `Paths.Dir` follows `filepath.Dir` for trailing separators; the rest of `filepath.Clean` is not modelled: doubled separators inside a path, `.` and `..`.
- The text of the printed messages and the multierror formatting are not modelled. The printed complaints are returned as a list of `Permissions.Complaint` values.
- `Profiles.WrittenProfilePassesCheck` assumes the requested modes are the modes on disk. The process umask can clear bits. `os.MkdirAll` and `ioutil.WriteFile` keep the mode of a directory or file that already exists.

## Findings

| source | as written | input that shows it | evidently intended | confidence | as-written member | corrected member |
|---|---|---|---|---|---|---|
| profile.go:70-76 | `result = multierror.Append(dErr)` and then `result = multierror.Append(pErr)` assign instead of appending, so the file's error replaces the directory's | directory `cfg` with mode 0777 and profile `cfg/lanes.yml` with mode 0644: only the file's group and world complaints are printed, and "cfg is world-accessible" is lost | `multierror.Append(result, pErr)`, which prints the complaints of both checks | medium; not executed | `Permissions.DirectoryComplaintLostExample` | `Permissions.CheckProfilePermissionsAccumulated` |

/** Where the kernel's connection file is found and what the server reads from it. */
module ConnectionFile {
  import opened Outcomes
  import opened PyText

  /** Name of the connection file shipped inside the `ipython_mcp` package. The
      environment variable consulted second is `IPYTHON_MCP_CONNECTION`. */
  const DefaultFileName: string := "default_connection.json"

  /** The fields of a kernel connection file that the server uses. */
  datatype ConnectionInfo = ConnectionInfo(ip: string, shellPort: nat, iopubPort: nat, key: string)

  /** What `json.load` makes of an existing file: the connection info, or the text of
      the exception it raised. */
  datatype FileState = Parsed(info: ConnectionInfo) | Unparsable(error: string)

  /** The parts of the host the server's file handling consults: the value of
      `IPYTHON_MCP_CONNECTION`, the directory of the installed package, the home
      directory, the files that exist (by path) and the running Python's executable. */
  datatype Host = Host(
    envConnection: Option<string>,
    packageDir: string,
    home: string,
    files: map<string, FileState>,
    executable: string)

  /** Python truthiness of an optional string: `None` and `''` are both false. */
  predicate Present(o: Option<string>) {
    o.Some? && o.value != ""
  }

  /** `resolve_connection_file`: an explicit path, else the environment value, else the
      packaged default file. */
  function ResolveConnectionFile(explicit: Option<string>, env: Option<string>, packageDir: string): (r: string)
    ensures r != ""
    ensures Present(explicit) ==> r == explicit.value
    ensures !Present(explicit) && Present(env) ==> r == env.value
    ensures !Present(explicit) && !Present(env) ==> r == packageDir + "/" + DefaultFileName
  {
    if Present(explicit) then explicit.value
    else if Present(env) then env.value
    else packageDir + "/" + DefaultFileName
  }

  /** A lower-priority source never influences the result once a higher one is present. */
  lemma ResolvePrecedence(explicit: Option<string>, env: Option<string>, env': Option<string>, dir: string, dir': string)
    ensures Present(explicit) ==> ResolveConnectionFile(explicit, env, dir) == ResolveConnectionFile(explicit, env', dir')
    ensures Present(env) ==> ResolveConnectionFile(explicit, env, dir) == ResolveConnectionFile(explicit, env, dir')
    ensures ResolveConnectionFile(Some(""), env, dir) == ResolveConnectionFile(None, env, dir)
  {
  }

  /** `s.rstrip('/')`. */
  function StripTrailingSlashes(s: string): (r: string)
    ensures |r| <= |s| && r == s[..|r|]
    ensures r == [] || r[|r| - 1] != '/'
    ensures forall i :: |r| <= i < |s| ==> s[i] == '/'
  {
    if s != [] && s[|s| - 1] == '/' then StripTrailingSlashes(s[..|s| - 1]) else s
  }

  /** POSIX `os.path.expanduser` for the current user: a leading `~` or `~/` becomes the
      home directory and a path not starting with `~` is returned as is. A `~user` prefix,
      which Python looks up in the password database, is left unexpanded here. */
  function ExpandUser(p: string, home: string): (r: string)
    ensures p != [] ==> r != []
    ensures (p == [] || p[0] != '~') ==> r == p
    ensures p != [] && p[0] == '~' && (|p| == 1 || p[1] == '/') && StripTrailingSlashes(home) != [] ==>
              r == StripTrailingSlashes(home) + p[1..]
  {
    if p == [] || p[0] != '~' || (|p| > 1 && p[1] != '/') then p
    else
      var expanded := StripTrailingSlashes(home) + p[1..];
      if expanded == "" then "/" else expanded
  }

  /** The path `start_kernel` and `connect_to_kernel` of the session server check:
      the resolved file, user-expanded. */
  function ConnectionPath(explicit: Option<string>, host: Host): (r: string)
    ensures r != ""
  {
    ExpandUser(ResolveConnectionFile(explicit, host.envConnection, host.packageDir), host.home)
  }
}

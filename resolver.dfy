/**
 * Version resolution: normalising the requested OpenTofu version, choosing the
 * download selector, and deriving the cache, install and binary locations.
 *
 * The operating system facts the engine consults (the user's home directory,
 * the temporary directory, the GOOS name) are a `Host` value.
 */
module Resolver {
  import opened Wrappers

  /** The command name used when no binary was resolved. */
  const IacCommand: string := "tofu"

  /** The version token that selects the newest stable release. */
  const Latest: string := "latest"

  /** The cache directory name used under the temporary directory. */
  const CacheDirName: string := "tofudl-cache"

  /** Strips one leading 'v' (strings.TrimPrefix(version, "v")). */
  function NormalizeVersion(version: string): (r: string)
    ensures version == r || version == "v" + r
    ensures version == "v" + r <==> |version| > 0 && version[0] == 'v'
  {
    if |version| > 0 && version[0] == 'v' then version[1..] else version
  }

  lemma NormalizeVersionOfPrefixed(s: string)
    ensures NormalizeVersion("v" + s) == s
  {
    assert ("v" + s)[1..] == s;
  }

  /** Only one 'v' is removed: "vv1" becomes "v1", not "1". */
  lemma NormalizeVersionStripsOnlyOne()
    ensures NormalizeVersion("vv1") == "v1"
    ensures NormalizeVersion(NormalizeVersion("vv1")) == "1"
  {
  }

  /** The release channels the engine asks for; only the stable one is requested. */
  datatype Stability = Stable

  /** The options handed to the download mirror. */
  datatype DownloadOpt =
    | MinimumStability(stability: Stability)
    | Version(version: string)

  /**
   * The download selector: "latest" asks for the newest stable release and no
   * particular version; any other token asks for its normalised version.
   */
  function DownloadOpts(version: string): (opts: seq<DownloadOpt>)
    ensures |opts| == 1
    ensures (exists o :: o in opts && o.Version?) <==> version != Latest
    ensures forall o :: o in opts && o.Version? ==> o.version == NormalizeVersion(version)
    ensures forall o :: o in opts && o.MinimumStability? ==> o.stability == Stable
  {
    if version == Latest then [MinimumStability(Stable)]
    else
      var chosen := Version(NormalizeVersion(version));
      assert chosen in [chosen];
      [chosen]
  }

  /** What the process can learn about its host; `home` is None when the lookup fails. */
  datatype Host = Host(home: Option<string>, temp: string, goos: string)

  function Separator(goos: string): char
  {
    if goos == "windows" then '\\' else '/'
  }

  /** filepath.Join of two elements: an empty element is dropped (no cleaning). */
  function Join(goos: string, dir: string, name: string): string
  {
    if dir == "" then name
    else if name == "" then dir
    else dir + [Separator(goos)] + name
  }

  /** filepath.Join of several elements, folded from the left. */
  function JoinAll(goos: string, parts: seq<string>): string
    decreases |parts|
  {
    if parts == [] then "" else Join(goos, JoinAll(goos, parts[..|parts| - 1]), parts[|parts| - 1])
  }

  /** The directory `home/.cache/terragrunt/tofudl/<sub>`. */
  function ToolDir(goos: string, home: string, sub: string): string
  {
    JoinAll(goos, [home, ".cache", "terragrunt", "tofudl", sub])
  }

  function DefaultCacheDir(h: Host): (r: Option<string>)
    ensures r.Some? <==> h.home.Some?
    ensures r.Some? ==> r.value == ToolDir(h.goos, h.home.value, "cache")
  {
    if h.home.None? then None else Some(ToolDir(h.goos, h.home.value, "cache"))
  }

  /** The default install directory, keyed by the raw (un-normalised) version token. */
  function DefaultBinDir(h: Host, version: string): (r: Option<string>)
    ensures r.Some? <==> h.home.Some?
    ensures r.Some? ==> r.value == Join(h.goos, ToolDir(h.goos, h.home.value, "bin"), version)
  {
    if h.home.None? then None
    else
      var parts := [h.home.value, ".cache", "terragrunt", "tofudl", "bin", version];
      assert parts[..5] == [h.home.value, ".cache", "terragrunt", "tofudl", "bin"];
      Some(JoinAll(h.goos, parts))
  }

  /** The cache directory actually used: the default one, or temp/tofudl-cache. */
  function CacheDirFor(h: Host): (r: string)
    ensures h.home.Some? ==> DefaultCacheDir(h) == Some(r)
    ensures h.home.None? ==> r == Join(h.goos, h.temp, CacheDirName)
  {
    match DefaultCacheDir(h)
    case Some(dir) => dir
    case None => Join(h.goos, h.temp, CacheDirName)
  }

  /** The install directory actually used: the explicit one, the versioned default, or temp. */
  function InstallDirFor(h: Host, version: string, installDir: string): (r: string)
    ensures installDir != "" ==> r == installDir
    ensures installDir == "" && h.home.Some? ==> DefaultBinDir(h, version) == Some(r)
    ensures installDir == "" && h.home.None? ==> r == h.temp
  {
    if installDir != "" then installDir
    else match DefaultBinDir(h, version)
      case Some(dir) => dir
      case None => h.temp
  }

  /** "tofu", with ".exe" on Windows. */
  function BinaryName(goos: string): (r: string)
    ensures r == IacCommand + ".exe" <==> goos == "windows"
    ensures r == IacCommand || r == IacCommand + ".exe"
  {
    if goos == "windows" then IacCommand + ".exe" else IacCommand
  }

  /** The path the binary is installed at: the install directory joined with the binary name. */
  function BinaryPathFor(h: Host, version: string, installDir: string): (r: string)
    ensures |r| >= |BinaryName(h.goos)| && r[|r| - |BinaryName(h.goos)|..] == BinaryName(h.goos)
    ensures installDir != "" ==> r == installDir + [Separator(h.goos)] + BinaryName(h.goos)
    ensures InstallDirFor(h, version, installDir) != "" ==>
              r == InstallDirFor(h, version, installDir) + [Separator(h.goos)] + BinaryName(h.goos)
    ensures InstallDirFor(h, version, installDir) == "" ==> r == BinaryName(h.goos)
  {
    Join(h.goos, InstallDirFor(h, version, installDir), BinaryName(h.goos))
  }

  lemma JoinNonEmpty(goos: string, dir: string, name: string)
    requires name != ""
    ensures Join(goos, dir, name) != ""
  {
  }

  /** Joining one directory with two names gives the same path only for the same name. */
  lemma {:induction false} JoinInjective(goos: string, dir: string, a: string, b: string)
    requires dir != ""
    ensures Join(goos, dir, a) == Join(goos, dir, b) <==> a == b
  {
    var ja, jb := Join(goos, dir, a), Join(goos, dir, b);
    assert a != "" ==> |ja| > |dir| && ja[|dir| + 1..] == a;
    assert b != "" ==> |jb| > |dir| && jb[|dir| + 1..] == b;
    assert a == "" <==> ja == dir;
    assert b == "" <==> jb == dir;
  }

  /**
   * A version token that `filepath.Join` keeps unchanged when it cleans the
   * joined path: one non-empty element, no separator, not "." or "..".
   */
  predicate CleanElement(goos: string, token: string)
  {
    && token != "" && token != "." && token != ".."
    && '/' !in token && Separator(goos) !in token
  }

  /** Each clean raw version token has its own default install directory. */
  lemma DefaultBinDirInjective(h: Host, a: string, b: string)
    requires h.home.Some?
    requires CleanElement(h.goos, a) && CleanElement(h.goos, b)
    ensures DefaultBinDir(h, a) == DefaultBinDir(h, b) <==> a == b
  {
    var binRoot := ToolDir(h.goos, h.home.value, "bin");
    var parts := [h.home.value, ".cache", "terragrunt", "tofudl", "bin"];
    assert (parts + [a])[..5] == parts;
    assert (parts + [b])[..5] == parts;
    assert parts[..4] + ["bin"] == parts;
    assert binRoot == Join(h.goos, JoinAll(h.goos, parts[..4]), "bin");
    JoinNonEmpty(h.goos, JoinAll(h.goos, parts[..4]), "bin");
    JoinInjective(h.goos, binRoot, a, b);
  }

  /**
   * "v1.9.1" and "1.9.1" download the same version but install into different
   * default directories, because the directory is keyed by the raw token.
   */
  lemma RawTokenKeysInstallDir(h: Host, s: string)
    requires h.home.Some?
    requires s != Latest && !(|s| > 0 && s[0] == 'v')
    requires CleanElement(h.goos, s)
    ensures DownloadOpts("v" + s) == DownloadOpts(s)
    ensures InstallDirFor(h, "v" + s, "") != InstallDirFor(h, s, "")
  {
    NormalizeVersionOfPrefixed(s);
    assert "v" + s != Latest by {
      assert ("v" + s)[0] == 'v';
    }
    assert "v" + s != s by {
      assert |"v" + s| == |s| + 1;
    }
    assert CleanElement(h.goos, "v" + s) by {
      assert "v" + s == ['v'] + s;
    }
    DefaultBinDirInjective(h, "v" + s, s);
  }
}

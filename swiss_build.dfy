/** The Swiss Knife's build script: for Android x86 builds it finds the
    NDK and a static libatomic to link. The environment is a map and the
    file system a snapshot of directories, files and directory listings;
    paths are Unix paths written as text. */
module SwissBuild {
  import opened Wrappers
  import opened Strings
  import SwissRecovery

  /** The build script only works for this target. */
  predicate SearchesForLibatomic(targetOs: string, targetArch: string)
  {
    targetOs == "android" && targetArch == "x86"
  }

  /** `detect_host_tag`: the NDK prebuilt directory for the build host,
      read from the lower-cased `HOST` triple. */
  function DetectHostTag(host: Option<string>): Option<string>
  {
    match host
    case None => None
    case Some(h) =>
      var lower := AsciiLowercase(h);
      var arm := Contains(lower, "aarch64") || Contains(lower, "arm");
      if Contains(lower, "linux") then Some("linux-x86_64")
      else if Contains(lower, "apple-darwin") then Some(if arm then "darwin-arm64" else "darwin-x86_64")
      else if Contains(lower, "windows") then Some(if arm then "windows-arm64" else "windows-x86_64")
      else None
  }

  /** The five tags the NDK ships prebuilt toolchains under. */
  predicate KnownHostTag(tag: string)
  {
    tag == "linux-x86_64" || tag == "darwin-arm64" || tag == "darwin-x86_64"
    || tag == "windows-arm64" || tag == "windows-x86_64"
  }

  /** A detected tag is one of the five; there is none exactly when the
      lower-cased host names none of Linux, macOS and Windows; and a Linux
      host gets the x86_64 tag whatever its architecture. */
  lemma HostTagFacts(host: string)
    ensures DetectHostTag(Some(host)).Some? ==> KnownHostTag(DetectHostTag(Some(host)).value)
    ensures DetectHostTag(Some(host)).None? <==>
              !Contains(AsciiLowercase(host), "linux") && !Contains(AsciiLowercase(host), "apple-darwin")
              && !Contains(AsciiLowercase(host), "windows")
    ensures Contains(AsciiLowercase(host), "linux") ==> DetectHostTag(Some(host)) == Some("linux-x86_64")
    ensures DetectHostTag(None).None?
  {
  }

  /** Lower-casing works character by character. */
  lemma LowercaseConcat(a: string, b: string)
    ensures AsciiLowercase(a + b) == AsciiLowercase(a) + AsciiLowercase(b)
  {
  }

  /** Any host triple of the form "<arch>-<vendor>-linux<rest>" with a
      lower-case "linux" gets the Linux tag, an arm host included. */
  lemma LinuxHostTag(prefix: string, rest: string)
    ensures DetectHostTag(Some(prefix + "linux" + rest)) == Some("linux-x86_64")
  {
    LowercaseConcat(prefix + "linux", rest);
    LowercaseConcat(prefix, "linux");
    assert AsciiLowercase("linux") == "linux";
    ContainsConcat(AsciiLowercase(prefix), "linux", AsciiLowercase(rest));
  }

  /** A snapshot of the file system: the directories, the regular files,
      and the entry names of every directory that can be read. */
  datatype FileSystem = FileSystem(dirs: set<string>, files: set<string>, listings: map<string, seq<string>>)

  /** A directory entry kept by one of the script's scans. `version` is the
      clang version directory it lies under ("" outside the clang tree);
      the script orders candidates by path, which for entries of one scan
      is by version and then by name. */
  datatype Candidate = Candidate(version: string, name: string, path: string)

  /** The path order on candidates of one scan. */
  predicate CandidateLess(x: Candidate, y: Candidate)
  {
    LexLess(x.version, y.version) || (x.version == y.version && LexLess(x.name, y.name))
  }

  lemma CandidateLessOrder(x: Candidate, y: Candidate, z: Candidate)
    ensures (x.version == y.version && x.name == y.name) || CandidateLess(x, y) || CandidateLess(y, x)
    ensures !(CandidateLess(x, y) && CandidateLess(y, x))
    ensures CandidateLess(x, y) && CandidateLess(y, z) ==> CandidateLess(x, z)
  {
    LexLessTotal(x.version, y.version);
    LexLessTotal(x.name, y.name);
    if CandidateLess(x, y) && CandidateLess(y, z) {
      if LexLess(x.version, y.version) && LexLess(y.version, z.version) {
        LexLessTransitive(x.version, y.version, z.version);
      }
      if LexLess(x.name, y.name) && LexLess(y.name, z.name) {
        LexLessTransitive(x.name, y.name, z.name);
      }
    }
  }

  /** The element `sort` puts last and `pop` takes. */
  function Greatest(cs: seq<Candidate>): Candidate
    requires cs != []
  {
    if |cs| == 1 then cs[0]
    else
      var m := Greatest(cs[1..]);
      if CandidateLess(cs[0], m) then m else cs[0]
  }

  /** The candidate chosen is one of them, and no other comes after it. */
  lemma {:induction false} GreatestIsLast(cs: seq<Candidate>)
    requires cs != []
    ensures Greatest(cs) in cs
    ensures forall c :: c in cs ==> !CandidateLess(Greatest(cs), c)
  {
    if |cs| > 1 {
      GreatestIsLast(cs[1..]);
      var m := Greatest(cs[1..]);
      assert forall c :: c in cs ==> c == cs[0] || c in cs[1..] by {
        assert cs == [cs[0]] + cs[1..];
      }
      forall c | c in cs
        ensures !CandidateLess(Greatest(cs), c)
      {
        CandidateLessOrder(cs[0], m, c);
        CandidateLessOrder(m, cs[0], c);
        CandidateLessOrder(cs[0], c, m);
        CandidateLessOrder(m, c, cs[0]);
      }
    } else {
      CandidateLessOrder(cs[0], cs[0], cs[0]);
    }
  }

  /** The entries of directory `dir` among `names` whose path is a
      directory and, when `needsLib` holds, contains a file "libatomic.a";
      in listing order. */
  function EntryCandidates(fs: FileSystem, version: string, dir: string, names: seq<string>, needsLib: bool)
    : seq<Candidate>
  {
    if names == [] then []
    else
      var name := names[|names| - 1];
      var path := SwissRecovery.JoinPath(dir, name);
      EntryCandidates(fs, version, dir, names[..|names| - 1], needsLib)
      + (if path in fs.dirs && (!needsLib || SwissRecovery.JoinPath(path, "libatomic.a") in fs.files)
         then [Candidate(version, name, path)] else [])
  }

  /** An entry is kept exactly when it passes the test, and is then
      recorded with its path. */
  lemma {:induction false} EntryCandidatesShape(fs: FileSystem, version: string, dir: string, names: seq<string>,
                                                needsLib: bool)
    ensures forall c :: c in EntryCandidates(fs, version, dir, names, needsLib) ==>
              c.version == version && c.name in names && c.path == SwissRecovery.JoinPath(dir, c.name)
              && c.path in fs.dirs && (needsLib ==> SwissRecovery.JoinPath(c.path, "libatomic.a") in fs.files)
    ensures forall n :: n in names && SwissRecovery.JoinPath(dir, n) in fs.dirs
              && (needsLib ==> SwissRecovery.JoinPath(SwissRecovery.JoinPath(dir, n), "libatomic.a") in fs.files)
              ==> Candidate(version, n, SwissRecovery.JoinPath(dir, n)) in EntryCandidates(fs, version, dir, names, needsLib)
  {
    if names != [] {
      var init := names[..|names| - 1];
      EntryCandidatesShape(fs, version, dir, init, needsLib);
      assert names == init + [names[|names| - 1]];
      assert forall n :: n in names ==> n in init || n == names[|names| - 1];
    }
  }

  /** `latest_subdir`: the path of the directory entry with the greatest
      name, if `dir` can be read and holds any directory. */
  function LatestSubdirOf(fs: FileSystem, dir: string): Option<string>
  {
    if dir !in fs.listings then None
    else
      var dirs := EntryCandidates(fs, "", dir, fs.listings[dir], false);
      if dirs == [] then None else Some(Greatest(dirs).path)
  }

  /** `latest_subdir` finds a directory whenever the listing holds one;
      what it returns is a directory entry of `dir` whose name no other
      directory entry exceeds. */
  lemma LatestSubdirFacts(fs: FileSystem, dir: string)
    ensures LatestSubdirOf(fs, dir).None? <==>
              dir !in fs.listings
              || forall n :: n in fs.listings[dir] ==> SwissRecovery.JoinPath(dir, n) !in fs.dirs
    ensures LatestSubdirOf(fs, dir).Some? ==>
              exists n :: n in fs.listings[dir]
                && LatestSubdirOf(fs, dir).value == SwissRecovery.JoinPath(dir, n)
                && LatestSubdirOf(fs, dir).value in fs.dirs
                && forall m :: m in fs.listings[dir] && SwissRecovery.JoinPath(dir, m) in fs.dirs ==> !LexLess(n, m)
  {
    if dir in fs.listings {
      var names := fs.listings[dir];
      var dirs := EntryCandidates(fs, "", dir, names, false);
      EntryCandidatesShape(fs, "", dir, names, false);
      if dirs != [] {
        GreatestIsLast(dirs);
        var g := Greatest(dirs);
        forall m | m in names && SwissRecovery.JoinPath(dir, m) in fs.dirs
          ensures !LexLess(g.name, m)
        {
          assert Candidate("", m, SwissRecovery.JoinPath(dir, m)) in dirs;
        }
      }
    }
  }

  /** The filtering loop shared by the scans: keep, in order, the entries
      of `dir` that pass the test of `EntryCandidates`. */
  method CollectEntries(fs: FileSystem, version: string, dir: string, names: seq<string>, needsLib: bool)
    returns (cs: seq<Candidate>)
    ensures cs == EntryCandidates(fs, version, dir, names, needsLib)
  {
    cs := [];
    var i := 0;
    while i < |names|
      invariant 0 <= i <= |names|
      invariant cs == EntryCandidates(fs, version, dir, names[..i], needsLib)
    {
      assert names[..i + 1][..i] == names[..i];
      var path := SwissRecovery.JoinPath(dir, names[i]);
      if path in fs.dirs && (!needsLib || SwissRecovery.JoinPath(path, "libatomic.a") in fs.files) {
        cs := cs + [Candidate(version, names[i], path)];
      }
      i := i + 1;
    }
    assert names[..i] == names;
  }

  /** `latest_subdir`: collect the directory entries, sort them by name
      and take the last. */
  method LatestSubdir(fs: FileSystem, dir: string) returns (r: Option<string>)
    ensures r == LatestSubdirOf(fs, dir)
  {
    if dir !in fs.listings {
      return None;
    }
    var dirs := CollectEntries(fs, "", dir, fs.listings[dir], false);
    if dirs == [] {
      return None;
    }
    return Some(Greatest(dirs).path);
  }

  /** The variables that may name the NDK itself, in the order tried. */
  const DirectKeys: seq<string> := ["ANDROID_NDK_HOME", "ANDROID_NDK_ROOT", "NDK_HOME", "NDK_ROOT", "NDKROOT"]
  /** The variables that may name an SDK holding an `ndk` directory. */
  const SdkKeys: seq<string> := ["ANDROID_SDK_ROOT", "ANDROID_HOME"]

  /** Whether `key` is set to an existing directory. */
  predicate NamesDir(env: map<string, string>, fs: FileSystem, key: string)
  {
    key in env && env[key] in fs.dirs
  }

  /** The first of `keys` set to an existing directory. */
  function FirstDirectRoot(env: map<string, string>, fs: FileSystem, keys: seq<string>): Option<string>
  {
    if keys == [] then None
    else if NamesDir(env, fs, keys[0]) then Some(env[keys[0]])
    else FirstDirectRoot(env, fs, keys[1..])
  }

  /** The latest `ndk/` subdirectory of the first of `keys` that has one. */
  function FirstSdkNdk(env: map<string, string>, fs: FileSystem, keys: seq<string>): Option<string>
  {
    if keys == [] then None
    else if keys[0] in env && LatestSubdirOf(fs, SwissRecovery.JoinPath(env[keys[0]], "ndk")).Some?
    then LatestSubdirOf(fs, SwissRecovery.JoinPath(env[keys[0]], "ndk"))
    else FirstSdkNdk(env, fs, keys[1..])
  }

  /** `locate_ndk_root`. */
  function NdkRoot(env: map<string, string>, fs: FileSystem): Option<string>
  {
    match FirstDirectRoot(env, fs, DirectKeys)
    case Some(root) => Some(root)
    case None => FirstSdkNdk(env, fs, SdkKeys)
  }

  /** The first direct key naming a directory wins, whatever the keys after
      it and the SDK variables say; and only when no direct key names a
      directory is an SDK consulted. */
  lemma {:induction false} FirstDirectRootFacts(env: map<string, string>, fs: FileSystem, keys: seq<string>)
    ensures FirstDirectRoot(env, fs, keys).None? <==> forall k :: 0 <= k < |keys| ==> !NamesDir(env, fs, keys[k])
    ensures FirstDirectRoot(env, fs, keys).Some? ==>
              exists k :: 0 <= k < |keys| && NamesDir(env, fs, keys[k])
                && FirstDirectRoot(env, fs, keys) == Some(env[keys[k]])
                && forall m :: 0 <= m < k ==> !NamesDir(env, fs, keys[m])
  {
    if keys != [] {
      FirstDirectRootFacts(env, fs, keys[1..]);
      assert forall k :: 1 <= k < |keys| ==> keys[k] == keys[1..][k - 1];
      if !NamesDir(env, fs, keys[0]) && FirstDirectRoot(env, fs, keys).Some? {
        var k :| 0 <= k < |keys[1..]| && NamesDir(env, fs, keys[1..][k])
          && FirstDirectRoot(env, fs, keys[1..]) == Some(env[keys[1..][k]])
          && forall m :: 0 <= m < k ==> !NamesDir(env, fs, keys[1..][m]);
        assert NamesDir(env, fs, keys[k + 1]);
      }
    }
  }

  lemma NdkRootPrecedence(env: map<string, string>, fs: FileSystem)
    ensures (exists k :: 0 <= k < |DirectKeys| && NamesDir(env, fs, DirectKeys[k])) ==>
              NdkRoot(env, fs) == FirstDirectRoot(env, fs, DirectKeys) && NdkRoot(env, fs).Some?
              && NdkRoot(env, fs).value in fs.dirs
    ensures (forall k :: 0 <= k < |DirectKeys| ==> !NamesDir(env, fs, DirectKeys[k])) ==>
              NdkRoot(env, fs) == FirstSdkNdk(env, fs, SdkKeys)
  {
    FirstDirectRootFacts(env, fs, DirectKeys);
  }

  /** `locate_ndk_root`: the direct keys in order, then the SDK keys. */
  method LocateNdkRoot(env: map<string, string>, fs: FileSystem) returns (r: Option<string>)
    ensures r == NdkRoot(env, fs)
  {
    var i := 0;
    while i < |DirectKeys|
      invariant 0 <= i <= |DirectKeys|
      invariant FirstDirectRoot(env, fs, DirectKeys) == FirstDirectRoot(env, fs, DirectKeys[i..])
    {
      assert DirectKeys[i..][1..] == DirectKeys[i + 1..];
      var key := DirectKeys[i];
      if key in env && env[key] in fs.dirs {
        return Some(env[key]);
      }
      i := i + 1;
    }
    assert DirectKeys[i..] == [];
    var j := 0;
    while j < |SdkKeys|
      invariant 0 <= j <= |SdkKeys|
      invariant FirstSdkNdk(env, fs, SdkKeys) == FirstSdkNdk(env, fs, SdkKeys[j..])
    {
      assert SdkKeys[j..][1..] == SdkKeys[j + 1..];
      var key := SdkKeys[j];
      if key in env {
        var ndk := LatestSubdir(fs, SwissRecovery.JoinPath(env[key], "ndk"));
        if ndk.Some? {
          return ndk;
        }
      }
      j := j + 1;
    }
    assert SdkKeys[j..] == [];
    return None;
  }

  /** The libatomic candidates below one clang version directory. */
  function VersionCandidates(fs: FileSystem, clangRoot: string, version: string): seq<Candidate>
  {
    var versionPath := SwissRecovery.JoinPath(clangRoot, version);
    var libRoot := SwissRecovery.JoinPath(versionPath, "lib");
    if versionPath in fs.dirs && libRoot in fs.dirs && libRoot in fs.listings
    then EntryCandidates(fs, version, libRoot, fs.listings[libRoot], true)
    else []
  }

  /** The libatomic candidates of the clang tree, over the version
      directories `versions`. */
  function ClangCandidates(fs: FileSystem, clangRoot: string, versions: seq<string>): seq<Candidate>
  {
    if versions == [] then []
    else ClangCandidates(fs, clangRoot, versions[..|versions| - 1])
         + VersionCandidates(fs, clangRoot, versions[|versions| - 1])
  }

  function ClangRoot(root: string): string
  {
    SwissRecovery.JoinPath(SwissRecovery.JoinPath(root, "lib"), "clang")
  }

  function SysrootLib(root: string): string
  {
    SwissRecovery.JoinPath(SwissRecovery.JoinPath(SwissRecovery.JoinPath(SwissRecovery.JoinPath(
      root, "sysroot"), "usr"), "lib"), "i686-linux-android")
  }

  /** The candidates of the clang tree of a prebuilt root. */
  function ClangTreeCandidates(fs: FileSystem, root: string): seq<Candidate>
  {
    var clangRoot := ClangRoot(root);
    if clangRoot in fs.listings then ClangCandidates(fs, clangRoot, fs.listings[clangRoot]) else []
  }

  /** The candidates of the sysroot of a prebuilt root. */
  function SysrootCandidates(fs: FileSystem, root: string): seq<Candidate>
  {
    var sysroot := SysrootLib(root);
    if sysroot in fs.listings then EntryCandidates(fs, "", sysroot, fs.listings[sysroot], true) else []
  }

  /** The candidates `locate_libatomic_in_prebuilt` sorts: the clang tree's,
      or the sysroot's when the clang tree has none. */
  function LibatomicCandidates(fs: FileSystem, root: string): seq<Candidate>
  {
    var clang := ClangTreeCandidates(fs, root);
    if clang != [] then clang else SysrootCandidates(fs, root)
  }

  /** `locate_libatomic_in_prebuilt`. */
  function LibatomicIn(fs: FileSystem, root: string): Option<string>
  {
    var cs := LibatomicCandidates(fs, root);
    if cs == [] then None else Some(Greatest(cs).path)
  }

  /** The chosen directory is a directory holding "libatomic.a"; it comes
      from the sysroot only when the clang tree offers none; and no other
      candidate sorts after it. */
  lemma LibatomicInFacts(fs: FileSystem, root: string)
    ensures LibatomicIn(fs, root).Some? ==>
              LibatomicIn(fs, root).value in fs.dirs
              && SwissRecovery.JoinPath(LibatomicIn(fs, root).value, "libatomic.a") in fs.files
    ensures ClangTreeCandidates(fs, root) != [] ==> LibatomicCandidates(fs, root) == ClangTreeCandidates(fs, root)
    ensures LibatomicIn(fs, root).Some? ==>
              exists g :: g in LibatomicCandidates(fs, root) && g.path == LibatomicIn(fs, root).value
                && forall c :: c in LibatomicCandidates(fs, root) ==> !CandidateLess(g, c)
    ensures LibatomicIn(fs, root).None? <==> LibatomicCandidates(fs, root) == []
  {
    var cs := LibatomicCandidates(fs, root);
    if cs != [] {
      GreatestIsLast(cs);
      var g := Greatest(cs);
      CandidatesHoldLibatomic(fs, root);
    }
  }

  lemma CandidatesHoldLibatomic(fs: FileSystem, root: string)
    ensures forall c :: c in LibatomicCandidates(fs, root) ==>
              c.path in fs.dirs && SwissRecovery.JoinPath(c.path, "libatomic.a") in fs.files
  {
    var clangRoot := ClangRoot(root);
    if clangRoot in fs.listings {
      ClangCandidatesHoldLibatomic(fs, clangRoot, fs.listings[clangRoot]);
    }
    var sysroot := SysrootLib(root);
    if sysroot in fs.listings {
      EntryCandidatesShape(fs, "", sysroot, fs.listings[sysroot], true);
    }
  }

  lemma {:induction false} ClangCandidatesHoldLibatomic(fs: FileSystem, clangRoot: string, versions: seq<string>)
    ensures forall c :: c in ClangCandidates(fs, clangRoot, versions) ==>
              c.path in fs.dirs && SwissRecovery.JoinPath(c.path, "libatomic.a") in fs.files
  {
    if versions != [] {
      ClangCandidatesHoldLibatomic(fs, clangRoot, versions[..|versions| - 1]);
      var version := versions[|versions| - 1];
      var libRoot := SwissRecovery.JoinPath(SwissRecovery.JoinPath(clangRoot, version), "lib");
      if libRoot in fs.listings {
        EntryCandidatesShape(fs, version, libRoot, fs.listings[libRoot], true);
      }
    }
  }

  /** One more version directory adds its own candidates at the end. */
  lemma ClangCandidatesStep(fs: FileSystem, clangRoot: string, versions: seq<string>, i: nat)
    requires i < |versions|
    ensures ClangCandidates(fs, clangRoot, versions[..i + 1])
            == ClangCandidates(fs, clangRoot, versions[..i]) + VersionCandidates(fs, clangRoot, versions[i])
  {
    assert versions[..i + 1][..i] == versions[..i];
  }

  /** The body of the outer loop of the clang scan: one version
      directory's `lib` platforms, when both directories exist. */
  method CollectVersion(fs: FileSystem, clangRoot: string, version: string) returns (found: seq<Candidate>)
    ensures found == VersionCandidates(fs, clangRoot, version)
  {
    var versionPath := SwissRecovery.JoinPath(clangRoot, version);
    var libRoot := SwissRecovery.JoinPath(versionPath, "lib");
    found := [];
    if versionPath in fs.dirs && libRoot in fs.dirs && libRoot in fs.listings {
      found := CollectEntries(fs, version, libRoot, fs.listings[libRoot], true);
    }
  }

  /** The outer loop of the clang scan: the version directories in listing
      order, each scanned for platform directories holding libatomic. */
  method CollectClangCandidates(fs: FileSystem, root: string) returns (candidates: seq<Candidate>)
    ensures candidates == ClangTreeCandidates(fs, root)
  {
    var clangRoot := ClangRoot(root);
    candidates := [];
    if clangRoot !in fs.listings {
      return;
    }
    var versions := fs.listings[clangRoot];
    var i := 0;
    while i < |versions|
      invariant 0 <= i <= |versions|
      invariant candidates == ClangCandidates(fs, clangRoot, versions[..i])
    {
      ClangCandidatesStep(fs, clangRoot, versions, i);
      var found := CollectVersion(fs, clangRoot, versions[i]);
      candidates := candidates + found;
      i := i + 1;
    }
    assert versions[..i] == versions;
  }

  /** `locate_libatomic_in_prebuilt`: scan the clang tree with nested
      loops, fall back to the sysroot, then sort and take the last. */
  method LocateLibatomicInPrebuilt(fs: FileSystem, root: string) returns (r: Option<string>)
    ensures r == LibatomicIn(fs, root)
  {
    var candidates := CollectClangCandidates(fs, root);
    if candidates == [] {
      var sysroot := SysrootLib(root);
      if sysroot in fs.listings {
        candidates := CollectEntries(fs, "", sysroot, fs.listings[sysroot], true);
      }
    }
    assert candidates == LibatomicCandidates(fs, root);
    if candidates == [] {
      return None;
    }
    return Some(Greatest(candidates).path);
  }

  /** The first of `roots` in which a libatomic is found. */
  function FirstLibatomic(fs: FileSystem, roots: seq<string>): Option<string>
  {
    if roots == [] then None
    else match LibatomicIn(fs, roots[0])
      case Some(dir) => Some(dir)
      case None => FirstLibatomic(fs, roots[1..])
  }

  function PrebuiltDir(ndkRoot: string): string
  {
    SwissRecovery.JoinPath(SwissRecovery.JoinPath(SwissRecovery.JoinPath(ndkRoot, "toolchains"), "llvm"), "prebuilt")
  }

  /** The host tag: `NDK_HOST_TAG` if set, else the detected one. */
  function HostTag(env: map<string, string>): Option<string>
  {
    if "NDK_HOST_TAG" in env then Some(env["NDK_HOST_TAG"])
    else DetectHostTag(if "HOST" in env then Some(env["HOST"]) else None)
  }

  function Paths(cs: seq<Candidate>): seq<string>
  {
    seq(|cs|, i requires 0 <= i < |cs| => cs[i].path)
  }

  /** The prebuilt roots searched: the tagged one if it exists, otherwise
      every directory entry of `prebuilt` in listing order. */
  function SearchRoots(env: map<string, string>, fs: FileSystem, prebuilt: string): seq<string>
  {
    var tag := HostTag(env);
    if tag.Some? && SwissRecovery.JoinPath(prebuilt, tag.value) in fs.dirs
    then [SwissRecovery.JoinPath(prebuilt, tag.value)]
    else if prebuilt in fs.listings then Paths(EntryCandidates(fs, "", prebuilt, fs.listings[prebuilt], false))
    else []
  }

  /** `locate_libatomic_dir`. */
  function LibatomicDir(env: map<string, string>, fs: FileSystem, ndkRoot: string): Option<string>
  {
    var prebuilt := PrebuiltDir(ndkRoot);
    if prebuilt !in fs.dirs then None else FirstLibatomic(fs, SearchRoots(env, fs, prebuilt))
  }

  /** Roots are tried in order and the first that yields a libatomic
      directory decides. */
  lemma FirstLibatomicFacts(fs: FileSystem, roots: seq<string>)
    ensures FirstLibatomic(fs, roots).None? <==> forall k :: 0 <= k < |roots| ==> LibatomicIn(fs, roots[k]).None?
    ensures FirstLibatomic(fs, roots).Some? ==>
              exists k :: 0 <= k < |roots| && FirstLibatomic(fs, roots) == LibatomicIn(fs, roots[k])
                && forall m :: 0 <= m < k ==> LibatomicIn(fs, roots[m]).None?
  {
    FirstLibatomicNone(fs, roots);
    if FirstLibatomic(fs, roots).Some? {
      var k := FirstLibatomicWitness(fs, roots);
    }
  }

  /** Nothing is found exactly when no root yields a directory. */
  lemma {:induction false} FirstLibatomicNone(fs: FileSystem, roots: seq<string>)
    ensures FirstLibatomic(fs, roots).None? <==> forall k :: 0 <= k < |roots| ==> LibatomicIn(fs, roots[k]).None?
  {
    if roots != [] {
      FirstLibatomicNone(fs, roots[1..]);
      assert forall k :: 1 <= k < |roots| ==> roots[k] == roots[1..][k - 1];
    }
  }

  /** The root that decides a successful search. */
  lemma {:induction false} FirstLibatomicWitness(fs: FileSystem, roots: seq<string>) returns (k: nat)
    requires FirstLibatomic(fs, roots).Some?
    ensures k < |roots| && FirstLibatomic(fs, roots) == LibatomicIn(fs, roots[k])
    ensures forall m :: 0 <= m < k ==> LibatomicIn(fs, roots[m]).None?
  {
    if LibatomicIn(fs, roots[0]).Some? {
      k := 0;
    } else {
      var j := FirstLibatomicWitness(fs, roots[1..]);
      k := j + 1;
      assert roots[k] == roots[1..][j];
      forall m | 0 <= m < k
        ensures LibatomicIn(fs, roots[m]).None?
      {
        if m > 0 {
          assert roots[m] == roots[1..][m - 1];
        }
      }
    }
  }

  /** A root that yields a directory after roots that yield none decides
      the search. */
  lemma {:induction false} FirstLibatomicAt(fs: FileSystem, roots: seq<string>, k: nat)
    requires k < |roots| && LibatomicIn(fs, roots[k]).Some?
    requires forall m :: 0 <= m < k ==> LibatomicIn(fs, roots[m]).None?
    ensures FirstLibatomic(fs, roots) == LibatomicIn(fs, roots[k])
  {
    if k > 0 {
      assert LibatomicIn(fs, roots[0]).None?;
      assert roots[k] == roots[1..][k - 1];
      assert forall m :: 0 <= m < k - 1 ==> roots[1..][m] == roots[m + 1];
      FirstLibatomicAt(fs, roots[1..], k - 1);
    }
  }

  /** A found directory holds "libatomic.a", and an existing tagged
      prebuilt directory is the only one searched. */
  lemma LibatomicDirFacts(env: map<string, string>, fs: FileSystem, ndkRoot: string)
    ensures LibatomicDir(env, fs, ndkRoot).Some? ==>
              LibatomicDir(env, fs, ndkRoot).value in fs.dirs
              && SwissRecovery.JoinPath(LibatomicDir(env, fs, ndkRoot).value, "libatomic.a") in fs.files
    ensures var prebuilt := PrebuiltDir(ndkRoot);
            prebuilt in fs.dirs && HostTag(env).Some?
            && SwissRecovery.JoinPath(prebuilt, HostTag(env).value) in fs.dirs
            ==> LibatomicDir(env, fs, ndkRoot) == LibatomicIn(fs, SwissRecovery.JoinPath(prebuilt, HostTag(env).value))
  {
    var prebuilt := PrebuiltDir(ndkRoot);
    if prebuilt in fs.dirs {
      var roots := SearchRoots(env, fs, prebuilt);
      FirstLibatomicFacts(fs, roots);
      if FirstLibatomic(fs, roots).Some? {
        var k :| 0 <= k < |roots| && FirstLibatomic(fs, roots) == LibatomicIn(fs, roots[k])
          && forall m :: 0 <= m < k ==> LibatomicIn(fs, roots[m]).None?;
        LibatomicInFacts(fs, roots[k]);
      }
      var tag := HostTag(env);
      if tag.Some? && SwissRecovery.JoinPath(prebuilt, tag.value) in fs.dirs {
        assert roots[1..] == [];
      }
    }
  }

  /** No root before the `i`-th yields a libatomic directory. */
  predicate NoneFoundBefore(fs: FileSystem, roots: seq<string>, i: nat)
    requires i <= |roots|
  {
    forall m :: 0 <= m < i ==> LibatomicIn(fs, roots[m]).None?
  }

  lemma NoneFoundStep(fs: FileSystem, roots: seq<string>, i: nat)
    requires i < |roots| && NoneFoundBefore(fs, roots, i) && LibatomicIn(fs, roots[i]).None?
    ensures NoneFoundBefore(fs, roots, i + 1)
  {
  }

  /** `locate_libatomic_dir`. */
  method LocateLibatomicDir(env: map<string, string>, fs: FileSystem, ndkRoot: string) returns (r: Option<string>)
    ensures r == LibatomicDir(env, fs, ndkRoot)
  {
    var prebuilt := PrebuiltDir(ndkRoot);
    if prebuilt !in fs.dirs {
      return None;
    }
    var roots := SearchRoots(env, fs, prebuilt);
    var i := 0;
    while i < |roots|
      invariant 0 <= i <= |roots|
      invariant NoneFoundBefore(fs, roots, i)
    {
      var dir := LocateLibatomicInPrebuilt(fs, roots[i]);
      if dir.Some? {
        FirstLibatomicAt(fs, roots, i);
        return dir;
      }
      NoneFoundStep(fs, roots, i);
      i := i + 1;
    }
    FirstLibatomicNone(fs, roots);
    return None;
  }

  /** The variables a change of which reruns the script, in print order. */
  const WatchedKeys: seq<string> := DirectKeys + SdkKeys + ["NDK_HOST_TAG"]

  function RerunDirectives(): seq<string>
  {
    seq(|WatchedKeys|, i requires 0 <= i < |WatchedKeys| => "cargo:rerun-if-env-changed=" + WatchedKeys[i])
  }

  const LinkLibDirective: string := "cargo:rustc-link-lib=static=atomic"
  const NoNdkWarning: string := "cargo:warning=Skipping libatomic search: ANDROID_NDK_HOME/NDK_HOME not set"

  /** The directives the search prints after the rerun lines. */
  function SearchDirectives(env: map<string, string>, fs: FileSystem): seq<string>
  {
    match NdkRoot(env, fs)
    case None => [NoNdkWarning]
    case Some(ndk) =>
      match LibatomicDir(env, fs, ndk)
      case Some(lib) => ["cargo:rustc-link-search=native=" + lib, LinkLibDirective]
      case None => ["cargo:warning=Unable to locate libatomic in " + ndk]
  }

  /** Everything `main` prints, in order. */
  function BuildDirectives(targetOs: string, targetArch: string, env: map<string, string>, fs: FileSystem)
    : seq<string>
  {
    RerunDirectives() + (if SearchesForLibatomic(targetOs, targetArch) then SearchDirectives(env, fs) else [])
  }

  /** `main` of the build script. */
  method RunBuildScript(targetOs: string, targetArch: string, env: map<string, string>, fs: FileSystem)
    returns (out: seq<string>)
    ensures out == BuildDirectives(targetOs, targetArch, env, fs)
  {
    out := RerunDirectives();
    if targetOs != "android" || targetArch != "x86" {
      return;
    }
    var ndkRoot := LocateNdkRoot(env, fs);
    if ndkRoot.None? {
      out := out + [NoNdkWarning];
      return;
    }
    var libDir := LocateLibatomicDir(env, fs, ndkRoot.value);
    if libDir.Some? {
      out := out + ["cargo:rustc-link-search=native=" + libDir.value, LinkLibDirective];
    } else {
      out := out + ["cargo:warning=Unable to locate libatomic in " + ndkRoot.value];
    }
  }

  /** Outside Android x86 the script only registers its variables; there
      it links libatomic exactly when an NDK root and a libatomic directory
      in it are found, and otherwise prints a single warning. */
  lemma BuildDirectivesFacts(targetOs: string, targetArch: string, env: map<string, string>, fs: FileSystem)
    ensures |RerunDirectives()| == 8
    ensures !SearchesForLibatomic(targetOs, targetArch) ==> BuildDirectives(targetOs, targetArch, env, fs) == RerunDirectives()
    ensures LinkLibDirective in BuildDirectives(targetOs, targetArch, env, fs) <==>
              SearchesForLibatomic(targetOs, targetArch) && NdkRoot(env, fs).Some?
              && LibatomicDir(env, fs, NdkRoot(env, fs).value).Some?
    ensures SearchesForLibatomic(targetOs, targetArch) ==>
              (|BuildDirectives(targetOs, targetArch, env, fs)| ==
               if NdkRoot(env, fs).Some? && LibatomicDir(env, fs, NdkRoot(env, fs).value).Some? then 10 else 9)
  {
    LinkNotRerun();
    if NdkRoot(env, fs).Some? {
      LinkNotWarning(NdkRoot(env, fs).value);
    } else {
      LinkNotWarning("");
    }
  }

  lemma LinkNotRerun()
    ensures LinkLibDirective !in RerunDirectives()
  {
    var rerun := RerunDirectives();
    forall i | 0 <= i < |rerun|
      ensures rerun[i] != LinkLibDirective
    {
      assert rerun[i][6] == 'r' && LinkLibDirective[6] == 'r';
      assert rerun[i][8] == 'r' && LinkLibDirective[8] == 's';
    }
  }

  lemma LinkNotWarning(ndk: string)
    ensures LinkLibDirective != NoNdkWarning
    ensures LinkLibDirective != "cargo:warning=Unable to locate libatomic in " + ndk
  {
    assert |LinkLibDirective| != |NoNdkWarning|;
    var warning := "cargo:warning=Unable to locate libatomic in " + ndk;
    assert warning[6] == 'w';
  }
}

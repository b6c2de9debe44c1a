/** Secret-key import and recovery-file paths of the Swiss Knife's Keys tab:
    decoding a pasted base64 secret and normalising the path a recovery
    file is saved to. Paths are Unix paths written as text, and the home
    directory lookup is a parameter. */
module SwissRecovery {
  import opened Wrappers
  import opened Strings
  import opened Base64

  /** Why a pasted secret key was refused. */
  datatype KeyProblem = NotBase64 | WrongLength
  {
    function Message(): string
    {
      match this
      case NotBase64 => "secret key must be valid base64"
      case WrongLength => "secret key must be 32 bytes"
    }
  }

  /** `decode_secret_key`: the 32 secret bytes of the trimmed base64 text.
      Deriving the keypair from them is not part of this model. */
  function DecodeSecretKey(value: string): (r: Result<seq<byte>, KeyProblem>)
    ensures r.Ok? ==> |r.value| == 32 && Encode(r.value) == Trim(value)
    ensures r == Err(NotBase64) <==> Decode(Trim(value)).None?
    ensures r == Err(WrongLength) <==> Decode(Trim(value)).Some? && |Decode(Trim(value)).value| != 32
  {
    match Decode(Trim(value))
    case None => Err(NotBase64)
    case Some(bytes) =>
      DecodeIffEncode(Trim(value), bytes);
      if |bytes| != 32 then Err(WrongLength) else Ok(bytes)
  }

  /** Encoded text has no surrounding whitespace. */
  lemma EncodedIsTrimmed(b: seq<byte>)
    ensures Trimmed(Encode(b))
  {
    EncodeChars(b);
  }

  /** Any 32-byte secret survives being encoded and pasted back, with or
      without surrounding whitespace. */
  lemma SecretKeyRoundTrip(secret: seq<byte>, before: string, after: string)
    requires |secret| == 32
    requires AllWhitespace(before) && AllWhitespace(after)
    ensures DecodeSecretKey(before + Encode(secret) + after) == Ok(secret)
  {
    EncodedIsTrimmed(secret);
    TrimPadded(before, Encode(secret), after);
    DecodeEncode(secret);
  }

  /** Why a recovery-file path was refused. */
  datatype PathProblem = EmptyPath | NoHome
  {
    function Message(): string
    {
      match this
      case EmptyPath => "path cannot be empty"
      case NoHome => "unable to resolve home directory"
    }
  }

  /** `Path::join` on Unix: an absolute second path replaces the first,
      otherwise one '/' separates them. */
  function JoinPath(base: string, rel: string): string
  {
    if StartsWith(rel, "/") then rel
    else if base == [] then rel
    else if EndsWith(base, "/") then base + rel
    else base + "/" + rel
  }

  /** The leading-'~' expansion of a trimmed path, given the home
      directory if one could be resolved. */
  function ExpandHome(trimmed: string, home: Option<string>): Result<string, PathProblem>
  {
    if !StartsWith(trimmed, "~") then Ok(trimmed)
    else if home.None? then Err(NoHome)
    else
      var stripped := trimmed[1..];
      if StartsWith(stripped, "/") || StartsWith(stripped, "\\") then Ok(JoinPath(home.value, stripped[1..]))
      else if stripped == [] then Ok(home.value)
      else Ok(JoinPath(home.value, stripped))
  }

  /** The path without its trailing separators and trailing non-leading
      "." components, which `Path::components` skips: "keys/./" ends in
      the component "keys". */
  function TrimEndCurDirs(p: string): (r: string)
    ensures |r| <= |p| && r == p[..|r|]
    ensures r == [] || r[|r| - 1] != '/'
    ensures |r| >= 2 && r[|r| - 1] == '.' ==> r[|r| - 2] != '/'
    decreases |p|
  {
    if p != [] && p[|p| - 1] == '/' then TrimEndCurDirs(p[..|p| - 1])
    else if |p| >= 2 && p[|p| - 1] == '.' && p[|p| - 2] == '/' then TrimEndCurDirs(p[..|p| - 1])
    else p
  }

  /** `Path::file_name`, with the directory part before it (everything up
      to and including the '/' before the name): the last component once
      trailing separators and "." components are skipped; `None` when
      that is the root, a leading ".", or "..". */
  function FileNameSplit(p: string): Option<(string, string)>
  {
    var base := TrimEndCurDirs(p);
    var (dir, name) := match LastIndexOf(base, '/')
      case None => ([], base)
      case Some(i) => if i < |base| then (base[..i + 1], base[i + 1..]) else ([], base);
    if name == [] || name == "." || name == ".." then None else Some((dir, name))
  }

  /** `Path::file_stem` and `Path::extension` of a file name: split at the
      last '.', unless that dot starts the name. */
  function StemAndExtension(name: string): (string, Option<string>)
  {
    match LastIndexOf(name, '.')
    case None => (name, None)
    case Some(i) => if 0 < i < |name| then (name[..i], Some(name[i + 1..])) else (name, None)
  }

  /** `Path::extension`. */
  function Extension(p: string): Option<string>
  {
    match FileNameSplit(p)
    case None => None
    case Some((_, name)) => StemAndExtension(name).1
  }

  /** `PathBuf::set_extension` with a non-empty extension: cut the path
      after the file stem and append the extension; no change without a
      file name. */
  function SetExtension(p: string, ext: string): string
  {
    match FileNameSplit(p)
    case None => p
    case Some((dir, name)) => dir + StemAndExtension(name).0 + "." + ext
  }

  /** The extension check of `normalize_pkarr_path`: missing, or not
      "pkarr" in any ASCII case. */
  predicate NeedsPkarrExtension(p: string)
  {
    match Extension(p)
    case None => true
    case Some(ext) => AsciiLowercase(ext) != "pkarr"
  }

  /** `normalize_pkarr_path`, with `home` the result of looking up the home
      directory. */
  function NormalizePkarrPath(input: string, home: Option<string>): Result<string, PathProblem>
  {
    var trimmed := Trim(input);
    if trimmed == [] then Err(EmptyPath)
    else match ExpandHome(trimmed, home)
      case Err(problem) => Err(problem)
      case Ok(expanded) =>
        if NeedsPkarrExtension(expanded) then Ok(SetExtension(expanded, "pkarr")) else Ok(expanded)
  }

  /** Blank input, and only blank input, is refused as empty; the home
      directory is only needed for a leading '~'. */
  lemma NormalizeErrors(input: string, home: Option<string>)
    ensures NormalizePkarrPath(input, home) == Err(EmptyPath) <==> IsBlank(input)
    ensures NormalizePkarrPath(input, home) == Err(NoHome)
            <==> !IsBlank(input) && StartsWith(Trim(input), "~") && home.None?
  {
  }

  /** A file name with no '/' after a directory part ending in '/' (or
      no directory part) splits there. */
  lemma FileNameAfterDir(dir: string, name: string)
    requires name != [] && '/' !in name && name != "." && name != ".."
    requires dir == [] || dir[|dir| - 1] == '/'
    ensures FileNameSplit(dir + name) == Some((dir, name))
  {
    var p := dir + name;
    assert p[|p| - 1] == name[|name| - 1];
    assert name[|name| - 1] in name;
    assert TrimEndCurDirs(p) == p by {
      if |name| >= 2 {
        assert p[|p| - 2] == name[|name| - 2];
        assert name[|name| - 2] in name;
      }
    }
    if dir == [] {
      LastIndexOfShape(name, '/');
      assert p == name;
    } else {
      var d := dir[..|dir| - 1];
      assert p == d + ['/'] + name;
      LastIndexOfBefore(d, '/', name);
      assert p[..|d| + 1] == dir;
      assert p[|d| + 1..] == name;
    }
  }

  /** "stem.pkarr" has stem `stem` and extension "pkarr". */
  lemma PkarrStem(stem: string)
    requires stem != []
    ensures StemAndExtension(stem + ".pkarr") == (stem, Some("pkarr"))
  {
    var name := stem + ".pkarr";
    assert name == stem + ['.'] + "pkarr";
    LastIndexOfBefore(stem, '.', "pkarr");
    assert name[..|stem|] == stem;
    assert name[|stem| + 1..] == "pkarr";
  }

  /** A file name of a stem and the "pkarr" extension. */
  lemma PkarrFileName(dir: string, stem: string)
    requires stem != [] && '/' !in stem
    requires dir == [] || dir[|dir| - 1] == '/'
    ensures FileNameSplit(dir + stem + ".pkarr") == Some((dir, stem + ".pkarr"))
    ensures Extension(dir + stem + ".pkarr") == Some("pkarr")
  {
    var name := stem + ".pkarr";
    assert dir + stem + ".pkarr" == dir + name;
    assert '/' !in name by {
      assert name == stem + "." + "pkarr";
    }
    assert |name| > 2;
    FileNameAfterDir(dir, name);
    PkarrStem(stem);
  }

  /** A stem is never empty and holds no '/'. */
  lemma StemShape(name: string)
    requires name != [] && '/' !in name
    ensures StemAndExtension(name).0 != [] && '/' !in StemAndExtension(name).0
  {
    LastIndexOfShape(name, '.');
    match LastIndexOf(name, '.')
    case None =>
    case Some(i) =>
      if 0 < i < |name| {
        assert forall c :: c in name[..i] ==> c in name;
      }
  }

  lemma FileNameSplitShape(p: string)
    requires FileNameSplit(p).Some?
    ensures var (dir, name) := FileNameSplit(p).value;
      name != [] && '/' !in name && (dir == [] || dir[|dir| - 1] == '/')
  {
    var base := TrimEndCurDirs(p);
    LastIndexOfShape(base, '/');
  }

  /** Whenever the expanded path names a file, the result's extension is
      "pkarr" in some ASCII case: an existing one is kept, anything else
      is replaced by "pkarr". */
  lemma ResultHasPkarrExtension(input: string, home: Option<string>)
    requires NormalizePkarrPath(input, home).Ok?
    requires FileNameSplit(ExpandHome(Trim(input), home).value).Some?
    ensures Extension(NormalizePkarrPath(input, home).value).Some?
    ensures AsciiLowercase(Extension(NormalizePkarrPath(input, home).value).value) == "pkarr"
  {
    var expanded := ExpandHome(Trim(input), home).value;
    if NeedsPkarrExtension(expanded) {
      assert NormalizePkarrPath(input, home).value == SetExtension(expanded, "pkarr");
      SetPkarrExtension(expanded);
    } else {
      assert NormalizePkarrPath(input, home).value == expanded;
    }
  }

  /** Setting the "pkarr" extension on a path that names a file gives a
      path whose extension is "pkarr". */
  lemma SetPkarrExtension(p: string)
    requires FileNameSplit(p).Some?
    ensures Extension(SetExtension(p, "pkarr")) == Some("pkarr")
  {
    var split := FileNameSplit(p).value;
    FileNameSplitShape(p);
    StemShape(split.1);
    var stem := StemAndExtension(split.1).0;
    assert SetExtension(p, "pkarr") == split.0 + stem + ".pkarr";
    PkarrFileName(split.0, stem);
  }

  /** A trimmed path that does not start with '~' and already carries a
      pkarr extension in any case (".PKARR" included) is returned as is. */
  lemma KeepsPkarrExtension(input: string, home: Option<string>)
    requires input != [] && Trimmed(input) && !StartsWith(input, "~")
    requires Extension(input).Some? && AsciiLowercase(Extension(input).value) == "pkarr"
    ensures NormalizePkarrPath(input, home) == Ok(input)
  {
    TrimOfTrimmed(input);
  }

  /** Expanding "~/keys/<name>" for a home directory without a trailing
      '/' puts the file "<name>.pkarr" in the keys folder under home. */
  lemma HomeKeysExample(homeDir: string, name: string)
    requires homeDir != [] && !EndsWith(homeDir, "/")
    requires name != [] && '/' !in name && '.' !in name && !IsWhitespace(name[|name| - 1])
    ensures NormalizePkarrPath("~/keys/" + name, Some(homeDir))
            == Ok(homeDir + "/keys/" + name + ".pkarr")
  {
    var input := "~/keys/" + name;
    assert Trimmed(input);
    TrimOfTrimmed(input);
    assert input[1..] == "/keys/" + name;
    assert input[1..][1..] == "keys/" + name;
    var dir := homeDir + "/keys/";
    var expanded := homeDir + "/" + ("keys/" + name);
    assert ExpandHome(input, Some(homeDir)) == Ok(expanded);
    assert expanded == dir + name;
    assert name != "." && name != ".." by {
      assert name[0] != '.';
    }
    FileNameAfterDir(dir, name);
    LastIndexOfShape(name, '.');
    assert StemAndExtension(name) == (name, None);
    assert dir + name + "." + "pkarr" == homeDir + "/keys/" + name + ".pkarr";
  }

  /** Skipping a trailing "/." after a component that ends in neither
      '/' nor '.'. */
  lemma TrimEndCurDirsOfDot(p: string)
    requires p != [] && p[|p| - 1] != '/' && p[|p| - 1] != '.'
    ensures TrimEndCurDirs(p + "/.") == p
  {
    var q := p + "/.";
    assert q[|q| - 1] == '.' && q[|q| - 2] == '/';
    assert q[..|q| - 1] == p + "/";
    var r := p + "/";
    assert r[|r| - 1] == '/';
    assert r[..|r| - 1] == p;
    assert TrimEndCurDirs(p) == p;
    assert TrimEndCurDirs(r) == TrimEndCurDirs(p);
    assert TrimEndCurDirs(q) == TrimEndCurDirs(r);
  }

  /** The file name depends only on the path once its trailing
      separators and "." components are skipped. */
  lemma FileNameSplitOfTrimmedEnd(p: string, q: string)
    requires TrimEndCurDirs(p) == TrimEndCurDirs(q)
    ensures FileNameSplit(p) == FileNameSplit(q)
  {
  }

  /** A name without '.' has itself as stem and no extension. */
  lemma StemWithoutDot(name: string)
    requires '.' !in name
    ensures StemAndExtension(name) == (name, None)
  {
    LastIndexOfShape(name, '.');
  }

  /** A path that ends in a "." component names the directory before it,
      as `Path::file_name` does, and setting the extension cuts the "/."
      away. */
  lemma TrailingCurDirNamesDirectory(dir: string, name: string)
    requires name != [] && '/' !in name && '.' !in name
    requires dir == [] || dir[|dir| - 1] == '/'
    ensures FileNameSplit(dir + name + "/.") == Some((dir, name))
    ensures Extension(dir + name + "/.").None?
    ensures SetExtension(dir + name + "/.", "pkarr") == dir + name + ".pkarr"
  {
    var p := dir + name;
    var q := p + "/.";
    TrailingCurDirSplit(dir, name);
    StemWithoutDot(name);
    assert Extension(q) == StemAndExtension(name).1;
    assert SetExtension(q, "pkarr") == dir + StemAndExtension(name).0 + "." + "pkarr";
  }

  lemma TrailingCurDirSplit(dir: string, name: string)
    requires name != [] && '/' !in name && '.' !in name
    requires dir == [] || dir[|dir| - 1] == '/'
    ensures FileNameSplit(dir + name + "/.") == Some((dir, name))
  {
    var p := dir + name;
    assert p[|p| - 1] == name[|name| - 1] && name[|name| - 1] in name;
    TrimEndCurDirsOfDot(p);
    FileNameSplitOfTrimmedEnd(p + "/.", p);
    assert name[0] in name;
    FileNameAfterDir(dir, name);
  }

  /** A relative path ending in "/." is saved under the component before
      it, with ".pkarr" added. */
  lemma TrailingCurDirNormalized(dir: string, name: string, home: Option<string>)
    requires name != [] && '/' !in name && '.' !in name
    requires dir == [] || dir[|dir| - 1] == '/'
    requires Trimmed(dir + name + "/.") && !StartsWith(dir + name + "/.", "~")
    ensures NormalizePkarrPath(dir + name + "/.", home) == Ok(dir + name + ".pkarr")
  {
    TrimOfTrimmed(dir + name + "/.");
    TrailingCurDirNamesDirectory(dir, name);
  }

  /** "keys/." is saved as "keys.pkarr". */
  lemma TrailingCurDirExample(home: Option<string>)
    ensures NormalizePkarrPath("keys/.", home) == Ok("keys.pkarr")
  {
    assert [] + "keys" + "/." == "keys/.";
    assert [] + "keys" + ".pkarr" == "keys.pkarr";
    TrailingCurDirNormalized([], "keys", home);
  }
}

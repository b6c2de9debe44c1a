/** The build script that patches the generated Android manifest so the
    app may use the network: two `uses-permission` children are added when
    missing, the `<application>` child allows cleartext traffic, and the
    written file ends in a newline. */
module ManifestPatch {
  import opened Wrappers

  /** An element: its tag, its attributes by qualified name, and its
      children. Text and tails are not part of the model. */
  datatype Node = Node(tag: string, attrs: map<string, string>, children: seq<Node>)

  /** `NS_ATTR`: the Android namespace in ElementTree's `{uri}` form. */
  const AndroidNs: string := "{http://schemas.android.com/apk/res/android}"

  /** The qualified `android:name` attribute. */
  const AndroidName: string := AndroidNs + "name"

  const MissingApplication: string := "Manifest does not contain an <application> element to patch"

  /** Whether `node` is a `uses-permission` element naming `permission`. */
  predicate Grants(node: Node, permission: string)
  {
    node.tag == "uses-permission" && AndroidName in node.attrs && node.attrs[AndroidName] == permission
  }

  predicate HasPermission(children: seq<Node>, permission: string)
  {
    exists i :: 0 <= i < |children| && Grants(children[i], permission)
  }

  /** The new `uses-permission` element. */
  function PermissionNode(permission: string): (n: Node)
    ensures Grants(n, permission) && n.children == [] && n.attrs.Keys == {AndroidName}
  {
    Node("uses-permission", map[AndroidName := permission], [])
  }

  /** The index of the first `<application>` child, or the number of
      children when there is none. */
  function ApplicationIndex(children: seq<Node>): (k: nat)
    ensures k <= |children|
    ensures forall j :: 0 <= j < k ==> children[j].tag != "application"
    ensures k < |children| ==> children[k].tag == "application"
  {
    if children == [] then 0
    else if children[0].tag == "application" then 0
    else 1 + ApplicationIndex(children[1..])
  }

  /** The children after `ensure_permission`. */
  function WithPermission(children: seq<Node>, permission: string): seq<Node>
  {
    if HasPermission(children, permission) then children
    else
      var k := ApplicationIndex(children);
      children[..k] + [PermissionNode(permission)] + children[k..]
  }

  /** A permission already granted leaves the children as they are; a
      missing one is inserted once, just before the first `<application>`
      child or at the end, every other child keeping its place. Either way
      the permission is granted afterwards. */
  lemma WithPermissionFacts(children: seq<Node>, permission: string)
    ensures var r := WithPermission(children, permission);
      && HasPermission(r, permission)
      && (HasPermission(children, permission) ==> r == children)
      && (!HasPermission(children, permission) ==>
            var k := ApplicationIndex(children);
            && |r| == |children| + 1
            && r[k] == PermissionNode(permission)
            && r[..k] == children[..k] && r[k + 1..] == children[k..]
            && (k < |children| ==> r[k + 1].tag == "application"))
  {
    var r := WithPermission(children, permission);
    if !HasPermission(children, permission) {
      var k := ApplicationIndex(children);
      assert Grants(r[k], permission);
      assert r[k + 1..] == children[k..];
    }
  }

  /** `ensure_permission` is idempotent. */
  lemma WithPermissionIdempotent(children: seq<Node>, permission: string)
    ensures WithPermission(WithPermission(children, permission), permission) == WithPermission(children, permission)
  {
    WithPermissionFacts(children, permission);
  }

  /** Adding one permission keeps every permission already granted. */
  lemma WithPermissionKeepsGrants(children: seq<Node>, permission: string, other: string)
    requires HasPermission(children, other)
    ensures HasPermission(WithPermission(children, permission), other)
  {
    if !HasPermission(children, permission) {
      var r := WithPermission(children, permission);
      var k := ApplicationIndex(children);
      var i :| 0 <= i < |children| && Grants(children[i], other);
      if i < k {
        assert r[i] == children[i];
      } else {
        assert r[i + 1] == children[i];
      }
    }
  }

  /** The children after `ensure_application_flag` sets `key` to `value`,
      or the error when there is no `<application>` child. */
  function WithApplicationFlag(children: seq<Node>, key: string, value: string): Result<seq<Node>, string>
  {
    var k := ApplicationIndex(children);
    if k == |children| then Err(MissingApplication)
    else
      var app := children[k];
      Ok(children[k := app.(attrs := app.attrs[key := value])])
  }

  /** Setting the flag fails exactly when there is no `<application>`
      child. Otherwise only that child changes, and only in `key`, which
      then holds `value`. */
  lemma ApplicationFlagFacts(children: seq<Node>, key: string, value: string)
    ensures var r := WithApplicationFlag(children, key, value);
      && (r.Err? <==> forall j :: 0 <= j < |children| ==> children[j].tag != "application")
      && (r.Err? ==> r.error == MissingApplication)
      && (r.Ok? ==>
            var k := ApplicationIndex(children);
            && |r.value| == |children|
            && (forall j :: 0 <= j < |children| && j != k ==> r.value[j] == children[j])
            && r.value[k].tag == "application" && r.value[k].children == children[k].children
            && key in r.value[k].attrs && r.value[k].attrs[key] == value
            && (forall a :: a in children[k].attrs && a != key ==>
                  a in r.value[k].attrs && r.value[k].attrs[a] == children[k].attrs[a])
            && r.value[k].attrs.Keys == children[k].attrs.Keys + {key})
  {
  }

  /** Setting the flag a second time changes nothing. */
  lemma ApplicationFlagIdempotent(children: seq<Node>, key: string, value: string)
    requires WithApplicationFlag(children, key, value).Ok?
    ensures WithApplicationFlag(WithApplicationFlag(children, key, value).value, key, value)
      == WithApplicationFlag(children, key, value)
  {
    var once := WithApplicationFlag(children, key, value).value;
    var k := ApplicationIndex(children);
    ApplicationIndexIs(once, k);
    assert once[k].attrs[key := value] == once[k].attrs;
    assert once[k].(attrs := once[k].attrs[key := value]) == once[k];
    assert once[k := once[k]] == once;
  }

  /** The root `<manifest>` element, patched in place. */
  class Manifest {
    var children: seq<Node>

    constructor (children: seq<Node>)
      ensures this.children == children
    {
      this.children := children;
    }

    /** `ensure_permission`: the scan for an existing grant, then the scan
        for the `<application>` child, then the insertion. */
    method EnsurePermission(permission: string)
      modifies this
      ensures children == WithPermission(old(children), permission)
    {
      var i := 0;
      while i < |children|
        invariant 0 <= i <= |children|
        invariant forall j :: 0 <= j < i ==> !Grants(children[j], permission)
      {
        if Grants(children[i], permission) {
          return;
        }
        i := i + 1;
      }
      var index := |children|;
      var idx := 0;
      while idx < |children|
        invariant 0 <= idx <= |children|
        invariant forall j :: 0 <= j < idx ==> children[j].tag != "application"
      {
        if children[idx].tag == "application" {
          index := idx;
          break;
        }
        idx := idx + 1;
      }
      ApplicationIndexIs(children, index);
      children := children[..index] + [PermissionNode(permission)] + children[index..];
    }

    /** `ensure_application_flag`: the attribute is set on the first
        `<application>` child; with none, the script stops with an error. */
    method EnsureApplicationFlag(attribute: string, value: string) returns (r: Result<(), string>)
      modifies this
      ensures var expected := WithApplicationFlag(old(children), AndroidNs + attribute, value);
        && (expected.Ok? ==> r.Ok? && children == expected.value)
        && (expected.Err? ==> r == Err(expected.error) && children == old(children))
    {
      var key := AndroidNs + attribute;
      var k := ApplicationIndex(children);
      if k == |children| {
        return Err(MissingApplication);
      }
      var app := children[k];
      if !(key in app.attrs && app.attrs[key] == value) {
        children := children[k := app.(attrs := app.attrs[key := value])];
      } else {
        assert app.attrs[key := value] == app.attrs;
        assert children[k := app.(attrs := app.attrs[key := value])] == children;
      }
      r := Ok(());
    }
  }

  /** A position before which no child is `<application>`, and which is
      either the end or an `<application>` child, is the first one. */
  lemma ApplicationIndexIs(children: seq<Node>, k: nat)
    requires k <= |children|
    requires forall j :: 0 <= j < k ==> children[j].tag != "application"
    requires k < |children| ==> children[k].tag == "application"
    ensures ApplicationIndex(children) == k
  {
  }

  const Internet: string := "android.permission.INTERNET"
  const NetworkState: string := "android.permission.ACCESS_NETWORK_STATE"

  /** The children after the script's three patches, or the error that
      stops it. */
  function Patched(children: seq<Node>): Result<seq<Node>, string>
  {
    WithApplicationFlag(WithPermission(WithPermission(children, Internet), NetworkState),
      AndroidNs + "usesCleartextTraffic", "true")
  }

  /** The patches of `main`, in order. */
  method PatchManifest(manifest: Manifest) returns (r: Result<(), string>)
    modifies manifest
    ensures var expected := Patched(old(manifest.children));
      && (expected.Ok? ==> r.Ok? && manifest.children == expected.value)
      && (expected.Err? ==> r == Err(expected.error))
  {
    manifest.EnsurePermission(Internet);
    manifest.EnsurePermission(NetworkState);
    r := manifest.EnsureApplicationFlag("usesCleartextTraffic", "true");
  }

  /** A patched manifest grants both permissions, and patching it again
      changes nothing: repeated runs of the script are idempotent. */
  lemma PatchedIsStable(children: seq<Node>)
    requires Patched(children).Ok?
    ensures var p := Patched(children).value;
      && HasPermission(p, Internet) && HasPermission(p, NetworkState)
      && Patched(p) == Ok(p)
  {
    var a := WithPermission(children, Internet);
    var b := WithPermission(a, NetworkState);
    var key := AndroidNs + "usesCleartextTraffic";
    var p := Patched(children).value;
    WithPermissionFacts(children, Internet);
    WithPermissionFacts(a, NetworkState);
    WithPermissionKeepsGrants(a, NetworkState, Internet);
    ApplicationFlagFacts(b, key, "true");
    GrantsSurviveFlag(b, p, Internet, key);
    GrantsSurviveFlag(b, p, NetworkState, key);
    assert WithPermission(p, Internet) == p;
    assert WithPermission(p, NetworkState) == p;
    ApplicationFlagIdempotent(b, key, "true");
  }

  /** Setting an attribute on the `<application>` child keeps every grant. */
  lemma GrantsSurviveFlag(before: seq<Node>, after: seq<Node>, permission: string, key: string)
    requires WithApplicationFlag(before, key, "true") == Ok(after)
    requires HasPermission(before, permission)
    ensures HasPermission(after, permission)
  {
    ApplicationFlagFacts(before, key, "true");
    var i :| 0 <= i < |before| && Grants(before[i], permission);
    assert after[i] == before[i];
  }

  /** The newline byte. */
  const Newline: bv8 := 10

  /** The trailing-newline step of `main` on the written bytes: an empty
      file is left alone, and a newline is added unless one ends it. */
  function WithTrailingNewline(written: seq<bv8>): seq<bv8>
  {
    if |written| == 0 then written
    else if written[|written| - 1] != Newline then written + [Newline]
    else written
  }

  /** The step keeps what was written as a prefix, adds at most one byte,
      leaves a non-empty file ending in a newline, and is idempotent. */
  lemma TrailingNewlineFacts(written: seq<bv8>)
    ensures var r := WithTrailingNewline(written);
      && r[..|written|] == written
      && (|r| == |written| <==> (written == [] || written[|written| - 1] == Newline))
      && (|r| == |written| + 1 <==> (written != [] && written[|written| - 1] != Newline))
      && (written != [] ==> r[|r| - 1] == Newline)
      && WithTrailingNewline(r) == r
  {
  }
}

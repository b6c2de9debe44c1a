/** How a match travels between its two players: each player writes the
    match metadata, every turn file and a `latest.json` pointer into their
    own public Pubky storage, and the opponent polls that pointer and
    fetches the turn file it names. The homeserver is a map from public
    URL to stored text. */
module OrbitalStorage {
  import opened Wrappers
  import opened Strings
  import opened OrbitalMatch
  import opened OrbitalBattle

  /** `LatestPointer`: the last stored turn, its state hash, and the turn
      file relative to the match folder. */
  datatype LatestPointer = LatestPointer(turn: nat, hash: string, file: string)

  /** The JSON form of one type: `serde_json::to_string_pretty` and
      `serde_json::from_str`. */
  datatype Codec<!T> = Codec(encode: T -> string, decode: string -> Option<T>)

  /** What serde promises of its derived implementations: what is written
      reads back as the same value. */
  ghost predicate RoundTrips<T(!new)>(codec: Codec<T>)
  {
    forall x: T :: codec.decode(codec.encode(x)) == Some(x)
  }

  datatype Codecs = Codecs(meta: Codec<MatchMeta>, turn: Codec<TurnSnapshot>, pointer: Codec<LatestPointer>)

  /** An HTTP response: its status code and its body text. */
  datatype Response = Response(status: nat, text: string)

  /** Why a storage call failed: no response, an error status from
      `error_for_status`, the "Request failed with status" error of
      `read_json` and `read_string`, or a body that is not the expected
      JSON. */
  datatype Failure = Unreachable | HttpStatus(status: nat) | RequestFailed(status: nat) | Malformed

  /** `StatusCode::is_success`. */
  predicate IsSuccess(status: nat)
  {
    200 <= status < 300
  }

  /** `StatusCode::is_client_error`. */
  predicate IsClientError(status: nat)
  {
    400 <= status < 500
  }

  /** The homeserver's answer to a PUT: a status, or none at all. */
  datatype Reply = Answered(status: nat) | NoAnswer

  /** A PUT followed by `error_for_status`: it fails without an answer and
      on a 4xx or 5xx status. */
  function PutOutcome(reply: Reply): Result<(), Failure>
  {
    match reply
    case NoAnswer => Err(Unreachable)
    case Answered(status) => if 400 <= status < 600 then Err(HttpStatus(status)) else Ok(())
  }

  /** The public URL of `path` in the storage of the user with public key
      `owner`. */
  function Url(owner: string, path: string): string
  {
    "pubky" + owner + path
  }

  /** The public storage of all users, by URL. */
  class PublicStorage {
    var objects: map<string, string>

    constructor (objects: map<string, string>)
      ensures this.objects == objects
    {
      this.objects := objects;
    }

    /** A session's `storage().put(path, body)` followed by
        `error_for_status`: the body is stored when the call succeeds,
        and nothing changes when it fails. */
    method Put(owner: string, path: string, body: string, reply: Reply) returns (r: Result<(), Failure>)
      modifies this
      ensures r == PutOutcome(reply)
      ensures r.Ok? ==> objects == old(objects)[Url(owner, path) := body]
      ensures r.Err? ==> objects == old(objects)
    {
      r := PutOutcome(reply);
      if r.Ok? {
        objects := objects[Url(owner, path) := body];
      }
    }
  }

  /** `store_match_meta`: one PUT of the metadata at `meta_path`. */
  method StoreMatchMeta(storage: PublicStorage, owner: string, paths: MatchStoragePaths, meta: MatchMeta,
                        codecs: Codecs, reply: Reply) returns (r: Result<(), Failure>)
    modifies storage
    ensures r == PutOutcome(reply)
    ensures r.Ok? ==> storage.objects == old(storage.objects)[Url(owner, MetaPath(paths)) := codecs.meta.encode(meta)]
    ensures r.Err? ==> storage.objects == old(storage.objects)
  {
    r := storage.Put(owner, MetaPath(paths), codecs.meta.encode(meta), reply);
  }

  /** The pointer's file: the turn path without the namespace and
      without leading '/'. */
  function PointerFile(paths: MatchStoragePaths, turnPath: string): string
  {
    TrimStartMatches(TrimStartMatches(turnPath, paths.namespace), "/")
  }

  /** The pointer `store_turn` writes for a snapshot. */
  function PointerFor(paths: MatchStoragePaths, snapshot: TurnSnapshot): LatestPointer
  {
    LatestPointer(snapshot.turn, snapshot.stateHash, PointerFile(paths, MovePath(paths, snapshot.turn, snapshot.actor)))
  }

  /** `store_turn`: the turn file first, then the pointer. When the first
      write fails the pointer is not written, so the pointer never names a
      turn file that was not stored. */
  method StoreTurn(storage: PublicStorage, owner: string, paths: MatchStoragePaths, snapshot: TurnSnapshot,
                   codecs: Codecs, moveReply: Reply, pointerReply: Reply) returns (r: Result<LatestPointer, Failure>)
    modifies storage
    ensures var moveUrl := Url(owner, MovePath(paths, snapshot.turn, snapshot.actor));
      var stored := old(storage.objects)[moveUrl := codecs.turn.encode(snapshot)];
      var pointer := PointerFor(paths, snapshot);
      && (PutOutcome(moveReply).Err? ==>
            r == Err(PutOutcome(moveReply).error) && storage.objects == old(storage.objects))
      && (PutOutcome(moveReply).Ok? && PutOutcome(pointerReply).Err? ==>
            r == Err(PutOutcome(pointerReply).error) && storage.objects == stored)
      && (PutOutcome(moveReply).Ok? && PutOutcome(pointerReply).Ok? ==>
            r == Ok(pointer)
            && storage.objects == stored[Url(owner, LatestPath(paths)) := codecs.pointer.encode(pointer)])
  {
    var turnPath := MovePath(paths, snapshot.turn, snapshot.actor);
    var written := storage.Put(owner, turnPath, codecs.turn.encode(snapshot), moveReply);
    if written.Err? {
      return Err(written.error);
    }
    var pointer := LatestPointer(snapshot.turn, snapshot.stateHash,
      TrimStartMatches(TrimStartMatches(turnPath, paths.namespace), "/"));
    var pointed := storage.Put(owner, LatestPath(paths), codecs.pointer.encode(pointer), pointerReply);
    if pointed.Err? {
      return Err(pointed.error);
    }
    r := Ok(pointer);
  }

  /** `read_json`: a non-2xx status fails with that status; otherwise the
      body must parse. */
  function ReadJson<T>(response: Response, codec: Codec<T>): Result<T, Failure>
  {
    if !IsSuccess(response.status) then Err(RequestFailed(response.status))
    else match codec.decode(response.text)
      case None => Err(Malformed)
      case Some(x) => Ok(x)
  }

  /** `read_string`: a non-2xx status fails with that status; otherwise
      the body text. */
  function ReadString(response: Response): Result<string, Failure>
  {
    if !IsSuccess(response.status) then Err(RequestFailed(response.status)) else Ok(response.text)
  }

  /** Both readers fail exactly on a non-2xx status, with that status, and
      the JSON reader also on a body that does not parse; on a 2xx status
      the string reader returns the body and the JSON reader its parse. */
  lemma ReadersFacts<T>(response: Response, codec: Codec<T>)
    ensures ReadString(response).Err? <==> !IsSuccess(response.status)
    ensures ReadString(response).Err? ==> ReadString(response).error == RequestFailed(response.status)
    ensures ReadString(response).Ok? ==> ReadString(response).value == response.text
    ensures ReadJson(response, codec).Ok? <==> IsSuccess(response.status) && codec.decode(response.text).Some?
    ensures !IsSuccess(response.status) ==> ReadJson(response, codec) == Err(RequestFailed(response.status))
    ensures ReadJson(response, codec).Ok? ==> Some(ReadJson(response, codec).value) == codec.decode(response.text)
  {
  }

  /** A public GET: the response, or no response. */
  type Getter = string -> Result<Response, Failure>

  /** `fetch_latest_pointer`: a 4xx status means there is no pointer yet;
      any other status goes through `read_json`. */
  function FetchLatestPointer(get: Getter, url: string, codec: Codec<LatestPointer>): Result<Option<LatestPointer>, Failure>
  {
    match get(url)
    case Err(e) => Err(e)
    case Ok(response) =>
      if IsClientError(response.status) then Ok(None)
      else match ReadJson(response, codec)
        case Err(e) => Err(e)
        case Ok(pointer) => Ok(Some(pointer))
  }

  /** No pointer on a 4xx status, the parsed pointer on a 2xx status, and
      the "Request failed" error on every other status. */
  lemma FetchLatestPointerFacts(get: Getter, url: string, codec: Codec<LatestPointer>)
    requires get(url).Ok?
    ensures var status := get(url).value.status;
      var r := FetchLatestPointer(get, url, codec);
      && (IsClientError(status) ==> r == Ok(None))
      && (IsSuccess(status) && codec.decode(get(url).value.text).Some? ==> r == Ok(codec.decode(get(url).value.text)))
      && (!IsClientError(status) && !IsSuccess(status) ==> r == Err(RequestFailed(status)))
  {
  }

  /** `fetch_turn`. */
  function FetchTurn(get: Getter, owner: string, namespace: string, file: string, codec: Codec<TurnSnapshot>)
    : Result<TurnSnapshot, Failure>
  {
    match get("pubky" + owner + "/" + namespace + "/" + file)
    case Err(e) => Err(e)
    case Ok(response) => ReadJson(response, codec)
  }

  /** Where the opponent's pointer is read. */
  function LatestUrl(opponent: string, paths: MatchStoragePaths): string
  {
    "pubky" + opponent + LatestPath(paths)
  }

  /** `discover_new_turn`: the opponent's newest turn when it is newer than
      the turn already known, and nothing otherwise. */
  function DiscoverNewTurn(get: Getter, opponent: string, paths: MatchStoragePaths, known: Option<nat>, codecs: Codecs)
    : Result<Option<TurnSnapshot>, Failure>
  {
    match FetchLatestPointer(get, LatestUrl(opponent, paths), codecs.pointer)
    case Err(e) => Err(e)
    case Ok(None) => Ok(None)
    case Ok(Some(pointer)) =>
      if Some(pointer.turn) == known || pointer.turn <= known.UnwrapOr(0) then Ok(None)
      else match FetchTurn(get, opponent, TrimStartMatches(paths.namespace, "/"), pointer.file, codecs.turn)
        case Err(e) => Err(e)
        case Ok(snapshot) => Ok(Some(snapshot))
  }

  /** Without a pointer there is nothing new. With one, the turn file is
      fetched exactly when the pointer's turn is above the known turn,
      taken as 0 when none is known. */
  lemma FreshnessRule(get: Getter, opponent: string, paths: MatchStoragePaths, known: Option<nat>, codecs: Codecs)
    ensures var latest := FetchLatestPointer(get, LatestUrl(opponent, paths), codecs.pointer);
      var r := DiscoverNewTurn(get, opponent, paths, known, codecs);
      && (latest == Ok(None) ==> r == Ok(None))
      && (latest.Err? ==> r == Err(latest.error))
      && (latest.Ok? && latest.value.Some? ==>
            var pointer := latest.value.value;
            var fetched := FetchTurn(get, opponent, TrimStartMatches(paths.namespace, "/"), pointer.file, codecs.turn);
            && (pointer.turn <= known.UnwrapOr(0) ==> r == Ok(None))
            && (pointer.turn > known.UnwrapOr(0) ==>
                  && (fetched.Ok? ==> r == Ok(Some(fetched.value)))
                  && (fetched.Err? ==> r == Err(fetched.error))))
  {
    match FetchLatestPointer(get, LatestUrl(opponent, paths), codecs.pointer)
    case Err(e) =>
    case Ok(None) =>
    case Ok(Some(pointer)) =>
      var fetched := FetchTurn(get, opponent, TrimStartMatches(paths.namespace, "/"), pointer.file, codecs.turn);
      if pointer.turn > known.UnwrapOr(0) {
        assert Some(pointer.turn) != known;
        match fetched
        case Err(e) =>
        case Ok(snapshot) =>
      }
  }

  /** Stripping a non-empty prefix that does not repeat leaves the rest. */
  lemma TrimPrefixOnce(p: string, rest: string)
    requires |p| > 0 && !StartsWith(rest, p)
    ensures TrimStartMatches(p + rest, p) == rest
  {
    assert (p + rest)[..|p|] == p;
    assert (p + rest)[|p|..] == rest;
  }

  /** A file name in the match's `moves` folder is what the pointer
      records for it. */
  lemma PointerFileOfName(matchId: string, name: string)
    requires name != [] && name[0] == 'm'
    ensures var paths := NewPaths(matchId);
      PointerFile(paths, paths.namespace + ("/" + name)) == name
  {
    var ns := NewPaths(matchId).namespace;
    assert ns[1] == 'p';
    assert ("/" + name)[1] == name[0];
    TrimPrefixOnce(ns, "/" + name);
    TrimPrefixOnce("/", name);
  }

  /** The pointer's file for a match's folder is the turn file's name in
      the `moves` folder, as in "moves/0003-alpha.json". */
  lemma PointerFileOfMovePath(matchId: string, turn: nat, actor: string)
    ensures var paths := NewPaths(matchId);
      PointerFile(paths, MovePath(paths, turn, actor)) == MoveFileName(turn, actor)
  {
    MovePathShape(NewPaths(matchId), turn, actor);
    PointerFileOfName(matchId, MoveFileName(turn, actor));
  }

  /** A match's namespace starts with exactly one '/'. */
  lemma NamespaceTrim(matchId: string)
    ensures var ns := NewPaths(matchId).namespace;
      |ns| > 1 && TrimStartMatches(ns, "/") == ns[1..] && ns == "/" + ns[1..]
  {
    var ns := NewPaths(matchId).namespace;
    assert ns == "/" + ns[1..];
    assert ns[1..][0] == 'p';
    TrimPrefixOnce("/", ns[1..]);
  }

  /** For a file in a match's folder, the URL rebuilt from the pointer is
      the file's URL. */
  lemma UrlOfName(owner: string, matchId: string, name: string)
    requires name != [] && name[0] == 'm'
    ensures var paths := NewPaths(matchId);
      var path := paths.namespace + ("/" + name);
      "pubky" + owner + "/" + TrimStartMatches(paths.namespace, "/") + "/" + PointerFile(paths, path) == Url(owner, path)
  {
    var ns := NewPaths(matchId).namespace;
    PointerFileOfName(matchId, name);
    NamespaceTrim(matchId);
    JoinAssoc("pubky" + owner, ns[1..], name);
  }

  lemma JoinAssoc(pre: string, tail: string, name: string)
    ensures pre + "/" + tail + "/" + name == pre + (("/" + tail) + ("/" + name))
  {
  }

  /** The URL the reader builds from the pointer's file is the URL the
      writer stored the turn file at. */
  lemma TurnUrlAgrees(owner: string, matchId: string, turn: nat, actor: string)
    ensures var paths := NewPaths(matchId);
      "pubky" + owner + "/" + TrimStartMatches(paths.namespace, "/") + "/" + PointerFile(paths, MovePath(paths, turn, actor))
        == Url(owner, MovePath(paths, turn, actor))
  {
    MovePathShape(NewPaths(matchId), turn, actor);
    UrlOfName(owner, matchId, MoveFileName(turn, actor));
  }

  /** A match's pointer and its turn files live at different URLs. */
  lemma PointerIsNotATurnFile(owner: string, paths: MatchStoragePaths, turn: nat, actor: string)
    ensures Url(owner, LatestPath(paths)) != Url(owner, MovePath(paths, turn, actor))
  {
    var k := |"pubky" + owner + paths.namespace| + 1;
    assert Url(owner, LatestPath(paths))[k] == 'l';
    assert Url(owner, MovePath(paths, turn, actor))[k] == 'm';
  }

  /** A homeserver that answers a stored URL with 200 and its text, and
      any other URL with 404. */
  function Answer(objects: map<string, string>, url: string): Result<Response, Failure>
  {
    if url in objects then Ok(Response(200, objects[url])) else Ok(Response(404, ""))
  }

  /** Writer and reader agree: once `store_turn` has stored a snapshot and
      its pointer, an opponent who knows an older turn discovers exactly
      that snapshot, and one who knows this turn discovers nothing. */
  lemma StoredTurnIsDiscovered(objects: map<string, string>, owner: string, matchId: string,
                               snapshot: TurnSnapshot, codecs: Codecs, known: Option<nat>)
    requires RoundTrips(codecs.turn) && RoundTrips(codecs.pointer)
    ensures var paths := NewPaths(matchId);
      var pointer := PointerFor(paths, snapshot);
      var after := objects[Url(owner, MovePath(paths, snapshot.turn, snapshot.actor)) := codecs.turn.encode(snapshot)]
                          [Url(owner, LatestPath(paths)) := codecs.pointer.encode(pointer)];
      var r := DiscoverNewTurn(url => Answer(after, url), owner, paths, known, codecs);
      && (known.UnwrapOr(0) < snapshot.turn ==> r == Ok(Some(snapshot)))
      && (known == Some(snapshot.turn) ==> r == Ok(None))
  {
    var paths := NewPaths(matchId);
    var pointer := PointerFor(paths, snapshot);
    var moveUrl := Url(owner, MovePath(paths, snapshot.turn, snapshot.actor));
    var latestUrl := Url(owner, LatestPath(paths));
    var after := objects[moveUrl := codecs.turn.encode(snapshot)][latestUrl := codecs.pointer.encode(pointer)];
    var get: Getter := url => Answer(after, url);
    PointerIsNotATurnFile(owner, paths, snapshot.turn, snapshot.actor);
    TurnUrlAgrees(owner, matchId, snapshot.turn, snapshot.actor);
    assert LatestUrl(owner, paths) == latestUrl;
    assert codecs.pointer.decode(codecs.pointer.encode(pointer)) == Some(pointer);
    assert FetchLatestPointer(get, latestUrl, codecs.pointer) == Ok(Some(pointer));
    assert after[moveUrl] == codecs.turn.encode(snapshot);
    assert codecs.turn.decode(codecs.turn.encode(snapshot)) == Some(snapshot);
    assert FetchTurn(get, owner, TrimStartMatches(paths.namespace, "/"), pointer.file, codecs.turn) == Ok(snapshot);
  }
}

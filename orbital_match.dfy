/** A match between a host and a guest: its metadata, the arena it starts
    from, the latest-turn descriptor, and where its files live in the
    host's storage. */
module OrbitalMatch {
  import opened Wrappers
  import opened Strings
  import opened OrbitalTime
  import opened OrbitalShip
  import opened OrbitalArena
  import opened OrbitalIdentity

  /** `MatchRules`; the arena radius, a float, is not part of the model. */
  datatype MatchRules = MatchRules(maxRounds: nat, simultaneousFire: bool)

  /** `MatchRules::default`. */
  const DefaultRules: MatchRules := MatchRules(60, true)

  /** `MatchMeta`. The match id is given as its hyphenated text. */
  datatype MatchMeta = MatchMeta(
    matchId: string,
    createdAt: Instant,
    host: CommanderProfile,
    guest: Option<CommanderProfile>,
    rules: MatchRules,
    seed: nat,
    hostBlueprint: ShipBlueprint,
    guestBlueprint: Option<ShipBlueprint>)

  /** `MatchMeta::new`: a match waiting for its guest. The new id and the
      creation time are passed in. */
  function NewMeta(host: CommanderProfile, hostBlueprint: ShipBlueprint, rules: MatchRules, seed: nat,
                   matchId: string, createdAt: Instant): (m: MatchMeta)
    ensures m.guest.None? && m.guestBlueprint.None?
    ensures m.host == host && m.hostBlueprint == hostBlueprint && m.rules == rules && m.seed == seed
    ensures m.matchId == matchId && m.createdAt == createdAt
  {
    MatchMeta(matchId, createdAt, host, None, rules, seed, hostBlueprint, None)
  }

  /** `with_guest`. */
  function WithGuest(m: MatchMeta, guest: CommanderProfile, guestBlueprint: ShipBlueprint): (r: MatchMeta)
    ensures r.guest == Some(guest) && r.guestBlueprint == Some(guestBlueprint)
    ensures r.matchId == m.matchId && r.createdAt == m.createdAt && r.host == m.host
    ensures r.rules == m.rules && r.seed == m.seed && r.hostBlueprint == m.hostBlueprint
  {
    m.(guest := Some(guest), guestBlueprint := Some(guestBlueprint))
  }

  const NotReady: string := "Match is not ready until a guest joins with a blueprint"

  /** `ensure_guest`. */
  function EnsureGuest(m: MatchMeta): (r: Result<(), string>)
    ensures r.Ok? <==> m.guest.Some? && m.guestBlueprint.Some?
    ensures r.Err? ==> r.error == NotReady
  {
    if m.guest.Some? && m.guestBlueprint.Some? then Ok(()) else Err(NotReady)
  }

  /** A new match is not ready; once a guest joins with a blueprint it is. */
  lemma ReadyOnceGuestJoins(host: CommanderProfile, hostBlueprint: ShipBlueprint, rules: MatchRules, seed: nat,
                            matchId: string, createdAt: Instant, guest: CommanderProfile, guestBlueprint: ShipBlueprint)
    ensures var m := NewMeta(host, hostBlueprint, rules, seed, matchId, createdAt);
      && EnsureGuest(m) == Err(NotReady)
      && EnsureGuest(WithGuest(m, guest, guestBlueprint)) == Ok(())
  {
  }

  /** `arena_state`: the host's ship under the host's name, then the
      guest's ship under the guest's name when both guest fields are set
      (replacing the host's ship when the names agree), at round 0 with
      the match seed. It never fails. */
  function ArenaStateOf(m: MatchMeta, physics: Physics): (a: ArenaState)
    ensures a.round == 0 && a.seed == m.seed
    ensures m.host.name in a.ships
    ensures m.guest.Some? && m.guestBlueprint.Some? ==>
      && a.ships.Keys == {m.host.name, m.guest.value.name}
      && a.ships[m.guest.value.name] == FromBlueprint(m.guestBlueprint.value, physics)
      && (m.guest.value.name != m.host.name ==> a.ships[m.host.name] == FromBlueprint(m.hostBlueprint, physics))
    ensures !(m.guest.Some? && m.guestBlueprint.Some?) ==>
      a.ships == map[m.host.name := FromBlueprint(m.hostBlueprint, physics)]
  {
    var ships := map[m.host.name := FromBlueprint(m.hostBlueprint, physics)];
    var all := if m.guest.Some? && m.guestBlueprint.Some?
      then ships[m.guest.value.name := FromBlueprint(m.guestBlueprint.value, physics)]
      else ships;
    NewArena(m.seed, all)
  }

  /** `MatchDescriptor`: a match and the latest turn known for it. */
  class MatchDescriptor {
    var meta: MatchMeta
    var latestTurn: Option<nat>

    /** `MatchDescriptor::new`. */
    constructor (meta: MatchMeta)
      ensures this.meta == meta && latestTurn.None?
    {
      this.meta := meta;
      latestTurn := None;
    }

    /** `bump_turn`. */
    method BumpTurn(turn: nat)
      modifies this
      ensures latestTurn == Some(turn) && meta == old(meta)
    {
      latestTurn := Some(turn);
    }
  }

  /** `MatchStoragePaths`. */
  datatype MatchStoragePaths = MatchStoragePaths(matchId: string, namespace: string)

  const MatchesRoot: string := "/pub/orbital-sovereigns/matches/"

  /** `MatchStoragePaths::new`. */
  function NewPaths(matchId: string): (p: MatchStoragePaths)
    ensures p.matchId == matchId && p.namespace == MatchesRoot + matchId
  {
    MatchStoragePaths(matchId, MatchesRoot + matchId)
  }

  /** `meta_path`. */
  function MetaPath(p: MatchStoragePaths): (r: string)
    ensures StartsWith(r, p.namespace) && r[|p.namespace|..] == "/meta.json"
  {
    p.namespace + "/meta.json"
  }

  /** `latest_path`. */
  function LatestPath(p: MatchStoragePaths): (r: string)
    ensures StartsWith(r, p.namespace) && r[|p.namespace|..] == "/latest.json"
  {
    p.namespace + "/latest.json"
  }

  /** `chat_path`: a chat message's file, named by its send time in
      milliseconds (an `i128`). */
  function ChatPath(p: MatchStoragePaths, epochMs: int): (r: string)
    ensures StartsWith(r, p.namespace + "/chat/") && EndsWith(r, ".txt")
  {
    var r := p.namespace + "/chat/" + IntToString(epochMs) + ".txt";
    assert r[..|p.namespace + "/chat/"|] == p.namespace + "/chat/";
    assert r[|r| - 4..] == ".txt";
    r
  }

  /** A chat file never takes the path of the match's meta file, its
      latest-turn pointer or a turn file. */
  lemma ChatPathIsOwnFile(p: MatchStoragePaths, epochMs: int, turn: nat, actor: string)
    ensures ChatPath(p, epochMs) != MetaPath(p)
    ensures ChatPath(p, epochMs) != LatestPath(p)
    ensures ChatPath(p, epochMs) != MovePath(p, turn, actor)
  {
    var k := |p.namespace| + 1;
    var chat := ChatPath(p, epochMs);
    assert chat == p.namespace + ("/chat/" + IntToString(epochMs) + ".txt");
    assert chat[k] == 'c';
    assert MetaPath(p)[k] == 'm';
    assert LatestPath(p)[k] == 'l';
    MovePathShape(p, turn, actor);
    assert MovePath(p, turn, actor)[k] == MoveFileName(turn, actor)[0];
  }

  /** Messages sent at different times go to different files. */
  lemma ChatPathInjective(p: MatchStoragePaths, a: int, b: int)
    requires ChatPath(p, a) == ChatPath(p, b)
    ensures a == b
  {
    var prefix := p.namespace + "/chat/";
    var pa := ChatPath(p, a);
    assert pa == prefix + IntToString(a) + ".txt";
    assert pa[|prefix|..|pa| - 4] == IntToString(a);
    var pb := ChatPath(p, b);
    assert pb == prefix + IntToString(b) + ".txt";
    assert pb[|prefix|..|pb| - 4] == IntToString(b);
    IntToStringInjective(a, b);
  }

  /** `str::replace` of one character by another. */
  function ReplaceChar(s: string, from: char, to: char): (r: string)
    ensures |r| == |s|
    ensures forall i :: 0 <= i < |s| ==> r[i] == (if s[i] == from then to else s[i])
  {
    seq(|s|, i requires 0 <= i < |s| => if s[i] == from then to else s[i])
  }

  predicate IsAsciiAlphanumeric(c: char)
  {
    'a' <= c <= 'z' || 'A' <= c <= 'Z' || '0' <= c <= '9'
  }

  /** The characters a slug keeps. */
  predicate SlugKeeps(c: char)
  {
    IsAsciiAlphanumeric(c) || c == '-'
  }

  /** `str::replace` with a character predicate and an empty replacement:
      the characters a slug keeps, in order. */
  function KeepSlugChars(s: string): string
  {
    if s == [] then []
    else KeepSlugChars(s[..|s| - 1]) + (if SlugKeeps(s[|s| - 1]) then [s[|s| - 1]] else [])
  }

  /** The actor's part of a move file name: ASCII lower-cased, spaces
      turned into '-', and every other character outside [A-Za-z0-9-]
      dropped. */
  function Slug(actor: string): string
  {
    KeepSlugChars(ReplaceChar(AsciiLowercase(actor), ' ', '-'))
  }

  /** A slug character: a lower-case ASCII letter, a digit or '-'. */
  predicate SlugChar(c: char)
  {
    'a' <= c <= 'z' || '0' <= c <= '9' || c == '-'
  }

  lemma {:induction false} KeepSlugCharsFacts(s: string)
    ensures forall i :: 0 <= i < |KeepSlugChars(s)| ==> SlugKeeps(KeepSlugChars(s)[i]) && KeepSlugChars(s)[i] in s
    ensures (forall i :: 0 <= i < |s| ==> SlugKeeps(s[i])) ==> KeepSlugChars(s) == s
    ensures |KeepSlugChars(s)| <= |s|
  {
    if s != [] {
      KeepSlugCharsFacts(s[..|s| - 1]);
      assert s == s[..|s| - 1] + [s[|s| - 1]];
    }
  }

  /** Lower-casing and replacing spaces leaves no upper-case ASCII letter. */
  lemma LoweredHasNoUpper(actor: string)
    ensures forall c :: c in ReplaceChar(AsciiLowercase(actor), ' ', '-') ==> !('A' <= c <= 'Z')
  {
    var lowered := ReplaceChar(AsciiLowercase(actor), ' ', '-');
    assert forall i :: 0 <= i < |lowered| ==> !('A' <= lowered[i] <= 'Z');
  }

  /** Every slug is made of lower-case ASCII letters, digits and '-'. */
  lemma SlugChars(actor: string)
    ensures forall i :: 0 <= i < |Slug(actor)| ==> SlugChar(Slug(actor)[i])
  {
    LoweredHasNoUpper(actor);
    KeepSlugCharsFacts(ReplaceChar(AsciiLowercase(actor), ' ', '-'));
  }

  /** An actor name already made of slug characters is its own slug, so
      slugging twice changes nothing. */
  lemma SlugOfSlug(actor: string)
    ensures (forall i :: 0 <= i < |actor| ==> SlugChar(actor[i])) ==> Slug(actor) == actor
    ensures Slug(Slug(actor)) == Slug(actor)
  {
    if forall i :: 0 <= i < |actor| ==> SlugChar(actor[i]) {
      SlugCharsAreFixed(actor);
    }
    SlugChars(actor);
    SlugCharsAreFixed(Slug(actor));
  }

  lemma SlugCharsAreFixed(s: string)
    requires forall i :: 0 <= i < |s| ==> SlugChar(s[i])
    ensures Slug(s) == s
  {
    assert AsciiLowercase(s) == s;
    assert ReplaceChar(s, ' ', '-') == s;
    KeepSlugCharsFacts(s);
  }

  /** The turn number as written in a move file name, `{:04}`. */
  function PaddedTurn(turn: nat): string
  {
    ZeroPad(NatToString(turn), 4)
  }

  /** The name of a turn file inside the match folder: the `moves` folder,
      the padded turn, '-', the actor's slug and ".json". */
  function MoveFileName(turn: nat, actor: string): (r: string)
    ensures StartsWith(r, "moves/") && EndsWith(r, ".json")
  {
    "moves/" + PaddedTurn(turn) + "-" + Slug(actor) + ".json"
  }

  /** `move_path`. */
  function MovePath(p: MatchStoragePaths, turn: nat, actor: string): string
  {
    p.namespace + "/" + MoveFileName(turn, actor)
  }

  /** A turn path is the namespace, '/', and a file name starting with 'm'. */
  lemma MovePathShape(p: MatchStoragePaths, turn: nat, actor: string)
    ensures var name := MoveFileName(turn, actor);
      && MovePath(p, turn, actor) == p.namespace + ("/" + name)
      && name != [] && name[0] == 'm'
  {
    var name := MoveFileName(turn, actor);
    assert name[..6] == "moves/";
    assert name[0] == name[..6][0];
  }

  lemma {:induction false} ZerosValue(k: nat)
    ensures AllDigits(Repeat('0', k)) && DigitsValue(Repeat('0', k)) == 0
  {
    if k > 0 {
      ZerosValue(k - 1);
      assert Repeat('0', k)[..k - 1] == Repeat('0', k - 1);
    }
  }

  lemma {:induction false} LeadingZerosValue(z: string, s: string)
    requires AllDigits(s) && AllDigits(z) && DigitsValue(z) == 0
    ensures AllDigits(z + s) && DigitsValue(z + s) == DigitsValue(s)
    decreases |s|
  {
    if s == [] {
      assert z + s == z;
    } else {
      LeadingZerosValue(z, s[..|s| - 1]);
      assert (z + s)[..|z + s| - 1] == z + s[..|s| - 1];
    }
  }

  /** The padded turn has at least four digits and reads back as the
      turn. */
  lemma PaddedTurnReadsBack(turn: nat)
    ensures |PaddedTurn(turn)| >= 4 && AllDigits(PaddedTurn(turn))
    ensures DigitsValue(PaddedTurn(turn)) == turn
  {
    var digits := NatToString(turn);
    DigitsOfNat(turn);
    if |digits| < 4 {
      ZerosValue(4 - |digits|);
      LeadingZerosValue(Repeat('0', 4 - |digits|), digits);
    }
  }

  /** A move file lies in the match's `moves` folder and its name starts
      with the padded turn, which reads back as the turn. */
  lemma MovePathFacts(p: MatchStoragePaths, turn: nat, actor: string)
    ensures var path := MovePath(p, turn, actor);
      && StartsWith(path, p.namespace + "/moves/")
      && var name := path[|p.namespace + "/moves/"|..];
         && StartsWith(name, PaddedTurn(turn) + "-")
         && EndsWith(name, ".json")
  {
    MovePathParts(p.namespace, PaddedTurn(turn), Slug(actor));
  }

  /** The parts of a turn path, whatever the namespace, turn text and slug. */
  lemma MovePathParts(namespace: string, padded: string, slug: string)
    ensures var path := namespace + "/" + ("moves/" + padded + "-" + slug + ".json");
      && StartsWith(path, namespace + "/moves/")
      && var name := path[|namespace + "/moves/"|..];
         && StartsWith(name, padded + "-")
         && EndsWith(name, ".json")
  {
    var path := namespace + "/" + ("moves/" + padded + "-" + slug + ".json");
    var name := padded + "-" + slug + ".json";
    assert path == (namespace + "/moves/") + name;
    assert name == (padded + "-") + (slug + ".json");
  }
}

/** The Social tab of the Swiss Knife: the text-field parsers that turn
    profile links, post kinds, embeds and attachments into pubky.app
    objects, the formatter that fills the links field when a profile is
    loaded, and the guards of the save/publish/tag buttons. */
module SwissSocial {
  import opened Wrappers
  import opened Strings
  import opened LineParsing

  datatype Link = Link(title: string, url: string)

  /** A post kind as accepted by the pubky.app `PubkyAppPostKind` parser. */
  datatype PostKind = PostKind(name: string)

  datatype Embed = Embed(kind: PostKind, uri: string)

  datatype Profile = Profile(name: string, bio: Option<string>, image: Option<string>,
                             links: Option<seq<Link>>, status: Option<string>)

  datatype Post = Post(content: string, kind: PostKind, parent: Option<string>,
                       embed: Option<Embed>, attachments: Option<seq<string>>)

  datatype Tag = Tag(uri: string, tagLabel: string)

  /** A storage PUT that a button hands to the session, with the JSON body
      it puts. */
  datatype StorageWrite =
    | PutProfile(profile: Profile, body: string)
    | PutPost(post: Post, body: string)
    | PutTag(tag: Tag, body: string)

  /** The pubky.app post-kind parser, which is not part of this model. */
  type KindParser = string -> Result<PostKind, string>

  /** A pubky.app object's `validate`, which is not part of this model: the
      reason the object is refused, or nothing when it is valid. */
  type Validator<-T> = T -> Option<string>

  /** serde_json's `to_string_pretty`, which is not part of this model. */
  type Serializer<-T> = T -> Result<string, string>

  /** `body` is the serialisation of an object its validator accepts: the
      only bodies a button writes. */
  predicate Serialized<T>(obj: T, body: string, validate: Validator<T>, serialize: Serializer<T>)
  {
    validate(obj).None? && serialize(obj) == Ok(body)
  }

  /** `optional_field`: the trimmed text, or nothing when it is blank. */
  function OptionalField(value: string): (r: Option<string>)
    ensures r.None? <==> IsBlank(value)
    ensures r.Some? ==> r.value != [] && Trimmed(r.value)
  {
    TrimIsTrimmedSlice(value);
    var trimmed := Trim(value);
    if trimmed == [] then None else Some(trimmed)
  }

  lemma OptionalFieldIdempotent(value: string)
    requires OptionalField(value).Some?
    ensures OptionalField(OptionalField(value).value) == OptionalField(value)
  {
    TrimIdempotent(value);
  }

  /** Why a line of the links field was refused, with its 1-based number. */
  datatype LinkProblem = MissingTitle(line: nat) | MissingUrl(line: nat)
  {
    function Message(): string
    {
      match this
      case MissingTitle(n) => "Link " + NatToString(n) + " is missing a title"
      case MissingUrl(n) => "Link " + NatToString(n) + " is missing a URL"
    }
  }

  /** A link whose title and URL survive being written as "title | url" on
      one line and read back. */
  predicate Formattable(l: Link)
  {
    l.title != [] && Trimmed(l.title) && '|' !in l.title && '\n' !in l.title
    && l.url != [] && Trimmed(l.url) && '\n' !in l.url
  }

  /** One line of the links field, numbered `n` from 1 over all lines. The
      line is trimmed and split at its first '|'; both halves are trimmed. */
  function ParseLinkLine(line: string, n: nat): Result<Option<Link>, LinkProblem>
  {
    var trimmed := Trim(line);
    if trimmed == [] then Ok(None)
    else match SplitOnce(trimmed, '|')
      case None => Err(MissingUrl(n))
      case Some((before, after)) =>
        if Trim(before) == [] then Err(MissingTitle(n))
        else if Trim(after) == [] then Err(MissingUrl(n))
        else Ok(Some(Link(Trim(before), Trim(after))))
  }

  /** A blank line is skipped; an accepted line gives a non-empty trimmed
      title free of '|' and a non-empty trimmed URL; a rejected line names
      its number and the missing part. */
  lemma ParseLinkLineShape(line: string, n: nat)
    ensures ParseLinkLine(line, n) == Ok(None) <==> IsBlank(line)
    ensures ParseLinkLine(line, n).Ok? && ParseLinkLine(line, n).value.Some? ==>
      var l := ParseLinkLine(line, n).value.value;
      l.title != [] && Trimmed(l.title) && '|' !in l.title && l.url != [] && Trimmed(l.url)
    ensures ParseLinkLine(line, n).Err? ==>
      ParseLinkLine(line, n).error.line == n
  {
    var trimmed := Trim(line);
    SplitOnceShape(trimmed, '|');
    if trimmed != [] && SplitOnce(trimmed, '|').Some? {
      var (before, after) := SplitOnce(trimmed, '|').value;
      TrimIsTrimmedSlice(before);
      TrimIsTrimmedSlice(after);
      TrimChars(before, '|');
    }
  }

  type LineResult = Result<Option<Link>, LinkProblem>

  /** The outcome of every line of the field, numbered from 1. */
  function LineResults(lines: seq<string>): (r: seq<LineResult>)
    ensures |r| == |lines|
  {
    seq(|lines|, i requires 0 <= i < |lines| => ParseLinkLine(lines[i], i + 1))
  }

  /** What `parse_links` returns for the whole field. */
  function ParseLinksSpec(input: string): (r: Result<Option<seq<Link>>, string>)
    ensures r != Ok(Some([]))
  {
    var results := LineResults(Lines(input));
    match Collect(results, |results|)
    case Err(e) => Err(e.Message())
    case Ok(links) => if links == [] then Ok(None) else Ok(Some(links))
  }

  /** `parse_links`: one link per non-blank line, "title | url". */
  method ParseLinks(input: string) returns (r: Result<Option<seq<Link>>, string>)
    ensures r == ParseLinksSpec(input)
  {
    var lines := Lines(input);
    ghost var results := LineResults(lines);
    var links: seq<Link> := [];
    var idx := 0;
    while idx < |lines|
      invariant 0 <= idx <= |lines|
      invariant Collect(results, idx) == Ok(links)
    {
      var outcome := ReadLinkLine(lines[idx], idx + 1);
      assert results[idx] == outcome;
      CollectStep(results, idx, links);
      match outcome {
        case Err(problem) =>
          return Err(problem.Message());
        case Ok(None) =>
        case Ok(Some(link)) =>
          links := links + [link];
      }
      idx := idx + 1;
    }
    if links == [] {
      r := Ok(None);
    } else {
      r := Ok(Some(links));
    }
  }

  /** The body of the loop of `parse_links` for one line: a blank line is
      skipped; otherwise the title is the text before the first '|' (the
      whole line when there is none) and the URL the text after it. */
  method ReadLinkLine(rawLine: string, n: nat) returns (r: LineResult)
    ensures r == ParseLinkLine(rawLine, n)
  {
    var line := Trim(rawLine);
    if line == [] {
      return Ok(None);
    }
    var title: string, url: Option<string>;
    match SplitOnce(line, '|') {
      case None =>
        TrimIdempotent(rawLine);
        title, url := Trim(line), None;
      case Some((before, after)) =>
        title, url := Trim(before), Some(Trim(after));
    }
    if title == [] {
      return Err(MissingTitle(n));
    }
    if url.None? || url.value == [] {
      return Err(MissingUrl(n));
    }
    r := Ok(Some(Link(title, url.value)));
  }

  /** The error reported is that of the first rejected line, numbered over
      all lines including blank ones. */
  lemma FirstBadLineReported(input: string, j: nat)
    requires j < |Lines(input)|
    requires ParseLinkLine(Lines(input)[j], j + 1).Err?
    requires forall i :: 0 <= i < j ==> ParseLinkLine(Lines(input)[i], i + 1).Ok?
    ensures ParseLinksSpec(input) == Err(ParseLinkLine(Lines(input)[j], j + 1).error.Message())
  {
    FirstProblemWins(LineResults(Lines(input)), j);
  }

  /** The title stops at the first '|'; the URL keeps any later ones. */
  lemma LinkLineSplitsAtFirstBar(title: string, url: string, n: nat)
    requires '|' !in title && !IsBlank(title) && !IsBlank(url)
    requires !IsWhitespace(title[0]) && !IsWhitespace(url[|url| - 1])
    ensures ParseLinkLine(title + "|" + url, n) == Ok(Some(Link(Trim(title), Trim(url))))
  {
    var line := title + "|" + url;
    assert line[0] == title[0] && line[|line| - 1] == url[|url| - 1];
    TrimOfTrimmed(line);
    SplitOnceOfJoin(title, '|', url);
    BlankIffAllWhitespace(title);
    BlankIffAllWhitespace(url);
  }

  /** `format_links`: "title | url" lines joined with '\n'. */
  function FormatLinks(links: Option<seq<Link>>): string
  {
    match links
    case Some(ls) => Join(FormattedLines(ls), "\n")
    case None => ""
  }

  function FormatLink(l: Link): string
  {
    l.title + " | " + l.url
  }

  function FormattedLines(ls: seq<Link>): seq<string>
  {
    seq(|ls|, i requires 0 <= i < |ls| => FormatLink(ls[i]))
  }

  lemma FormattedLineParses(l: Link, n: nat)
    requires Formattable(l)
    ensures PlainLine(FormatLink(l))
    ensures ParseLinkLine(FormatLink(l), n) == Ok(Some(l))
  {
    var title := l.title + " ";
    var url := " " + l.url;
    assert FormatLink(l) == title + "|" + url;
    TrimPadded("", l.title, " ");
    assert "" + l.title + " " == title;
    TrimPadded(" ", l.url, "");
    assert " " + l.url + "" == url;
    assert title[0] == l.title[0] && url[|url| - 1] == l.url[|l.url| - 1];
    assert '|' !in title;
    LinkLineSplitsAtFirstBar(title, url, n);
    assert '\n' !in title + "|" + url;
  }

  /** Loading a profile and saving it unchanged gives back its links: the
      links field filled by `format_links` parses to the same links, and to
      nothing when the profile had none. */
  lemma FormatThenParse(links: Option<seq<Link>>)
    requires links.Some? ==> forall i :: 0 <= i < |links.value| ==> Formattable(links.value[i])
    ensures ParseLinksSpec(FormatLinks(links)) ==
      if links == None || links == Some([]) then Ok(None) else Ok(links)
  {
    if links.Some? {
      var ls := links.value;
      var input := FormatLinks(links);
      FormattedLinksCollect(ls);
      var results := LineResults(Lines(input));
      assert Collect(results, |results|) == Ok(ls);
    }
  }

  /** Each formatted line parses back to its link, so the lines collect to
      the links themselves. */
  lemma FormattedLinksCollect(ls: seq<Link>)
    requires forall i :: 0 <= i < |ls| ==> Formattable(ls[i])
    ensures var results := LineResults(Lines(Join(FormattedLines(ls), "\n")));
      |results| == |ls| && Collect(results, |ls|) == Ok(ls)
  {
    var lines := FormattedLines(ls);
    var results := LineResults(lines);
    forall i | 0 <= i < |lines|
      ensures PlainLine(lines[i]) && results[i] == Ok(Some(ls[i]))
    {
      FormattedResultAt(ls, i);
    }
    LinesOfJoin(lines);
    CollectAll(results, ls, |ls|);
    assert ls[..|ls|] == ls;
  }

  lemma FormattedResultAt(ls: seq<Link>, i: nat)
    requires i < |ls| && Formattable(ls[i])
    ensures PlainLine(FormattedLines(ls)[i])
    ensures LineResults(FormattedLines(ls))[i] == Ok(Some(ls[i]))
  {
    var lines := FormattedLines(ls);
    assert lines[i] == FormatLink(ls[i]);
    FormattedLineParses(ls[i], i + 1);
    assert LineResults(lines)[i] == ParseLinkLine(lines[i], i + 1);
  }

  /** `parse_post_kind`: blank is refused before the library parser runs. */
  function ParsePostKind(value: string, kindOf: KindParser): (r: Result<PostKind, string>)
    ensures IsBlank(value) ==> r == Err("Select a post kind")
    ensures !IsBlank(value) ==> (r.Ok? <==> kindOf(Trim(value)).Ok?)
    ensures !IsBlank(value) && r.Ok? ==> r.value == kindOf(Trim(value)).value
    ensures !IsBlank(value) && r.Err? ==> r.error == "Invalid post kind: " + kindOf(Trim(value)).error
  {
    var trimmed := Trim(value);
    if trimmed == [] then Err("Select a post kind")
    else match kindOf(trimmed)
      case Ok(kind) => Ok(kind)
      case Err(e) => Err("Invalid post kind: " + e)
  }

  /** `parse_embed`: both fields or neither. */
  function ParseEmbed(kind: string, uri: string, kindOf: KindParser): (r: Result<Option<Embed>, string>)
    ensures IsBlank(kind) && IsBlank(uri) <==> r == Ok(None)
    ensures IsBlank(kind) != IsBlank(uri) ==> r == Err("Provide both an embed kind and URI")
    ensures !IsBlank(kind) && !IsBlank(uri) ==> (r.Ok? <==> kindOf(Trim(kind)).Ok?)
    ensures !IsBlank(kind) && !IsBlank(uri) && r.Ok? ==>
      r == Ok(Some(Embed(kindOf(Trim(kind)).value, Trim(uri))))
    ensures !IsBlank(kind) && !IsBlank(uri) && r.Err? ==>
      r.error == "Invalid embed kind: " + kindOf(Trim(kind)).error
  {
    var k := Trim(kind);
    var u := Trim(uri);
    if k == [] && u == [] then Ok(None)
    else if k == [] || u == [] then Err("Provide both an embed kind and URI")
    else match kindOf(k)
      case Err(e) => Err("Invalid embed kind: " + e)
      case Ok(ek) => Ok(Some(Embed(ek, u)))
  }

  /** The trimmed non-blank lines, in order. */
  function NonBlankTrimmed(lines: seq<string>): (r: seq<string>)
    ensures |r| <= |lines|
    ensures forall i :: 0 <= i < |r| ==> r[i] != [] && Trimmed(r[i])
    ensures r == [] <==> forall i :: 0 <= i < |lines| ==> IsBlank(lines[i])
  {
    if lines == [] then []
    else
      TrimIsTrimmedSlice(lines[0]);
      (if IsBlank(lines[0]) then [] else [Trim(lines[0])]) + NonBlankTrimmed(lines[1..])
  }

  /** `parse_attachments`: one URI per non-blank line. */
  function ParseAttachments(input: string): (r: Option<seq<string>>)
    ensures r != Some([])
    ensures r.None? <==> forall i :: 0 <= i < |Lines(input)| ==> IsBlank(Lines(input)[i])
  {
    var attachments := NonBlankTrimmed(Lines(input));
    if attachments == [] then None else Some(attachments)
  }

  lemma {:induction false} NonBlankTrimmedKeeps(xs: seq<string>)
    requires forall i :: 0 <= i < |xs| ==> xs[i] != [] && Trimmed(xs[i])
    ensures NonBlankTrimmed(xs) == xs
    decreases |xs|
  {
    if xs != [] {
      TrimOfTrimmed(xs[0]);
      NonBlankTrimmedKeeps(xs[1..]);
      assert xs == [xs[0]] + xs[1..];
    }
  }

  /** Attachments written one per line are read back in the same order. */
  lemma AttachmentsRoundTrip(xs: seq<string>)
    requires xs != []
    requires forall i :: 0 <= i < |xs| ==> xs[i] != [] && Trimmed(xs[i]) && '\n' !in xs[i]
    ensures ParseAttachments(Join(xs, "\n")) == Some(xs)
  {
    LinesOfJoin(xs);
    NonBlankTrimmedKeeps(xs);
  }

  /** The state the Social tab's buttons write: the profile error line, the
      messages logged at error level, and the storage writes handed to the
      session, each with the JSON body it puts. */
  class SocialForms {
    var profileError: string
    var errors: seq<string>
    var writes: seq<StorageWrite>

    constructor()
      ensures profileError == [] && errors == [] && writes == []
    {
      profileError := [];
      errors := [];
      writes := [];
    }

    /** "Save profile": a blank display name, a bad links field, a profile
        the validator refuses or one that does not serialise stops before
        anything is written. */
    method SaveProfile(hasSession: bool, name: string, bio: string, image: string,
                       status: string, linksInput: string,
                       validate: Validator<Profile>, serialize: Serializer<Profile>)
      modifies this
      ensures !hasSession ==>
        profileError == old(profileError) && errors == old(errors) + ["No active session"]
        && writes == old(writes)
      ensures hasSession && IsBlank(name) ==>
        profileError == "Display name is required" && errors == old(errors) + ["Provide a display name"]
        && writes == old(writes)
      ensures hasSession && !IsBlank(name) && ParseLinksSpec(linksInput).Err? ==>
        profileError == ParseLinksSpec(linksInput).error
        && errors == old(errors) + [ParseLinksSpec(linksInput).error] && writes == old(writes)
      ensures hasSession && !IsBlank(name) && ParseLinksSpec(linksInput).Ok? ==>
        var user := Profile(name, OptionalField(bio), OptionalField(image),
                            ParseLinksSpec(linksInput).value, OptionalField(status));
        if validate(user).Some? then
          var message := "Invalid profile data: " + validate(user).value;
          profileError == message && errors == old(errors) + [message] && writes == old(writes)
        else if serialize(user).Err? then
          var message := "Failed to serialize profile: " + serialize(user).error;
          profileError == message && errors == old(errors) + [message] && writes == old(writes)
        else
          profileError == [] && errors == old(errors)
          && writes == old(writes) + [PutProfile(user, serialize(user).value)]
      ensures writes != old(writes) ==>
        |writes| == |old(writes)| + 1 && writes[..|old(writes)|] == old(writes)
        && writes[|old(writes)|].PutProfile?
        && Serialized(writes[|old(writes)|].profile, writes[|old(writes)|].body, validate, serialize)
    {
      if !hasSession {
        errors := errors + ["No active session"];
        return;
      }
      if Trim(name) == [] {
        errors := errors + ["Provide a display name"];
        profileError := "Display name is required";
        return;
      }
      var links := ParseLinks(linksInput);
      if links.Err? {
        profileError := links.error;
        errors := errors + [links.error];
        return;
      }
      profileError := [];
      var user := Profile(name, OptionalField(bio), OptionalField(image), links.value, OptionalField(status));
      var refusal := validate(user);
      if refusal.Some? {
        var message := "Invalid profile data: " + refusal.value;
        profileError := message;
        errors := errors + [message];
        return;
      }
      var body := serialize(user);
      if body.Err? {
        var message := "Failed to serialize profile: " + body.error;
        profileError := message;
        errors := errors + [message];
        return;
      }
      writes := writes + [PutProfile(user, body.value)];
    }

    /** "Publish post": blank content, a bad kind or embed, a post the
        validator refuses or one that does not serialise stops before
        anything is written. */
    method CreatePost(hasSession: bool, content: string, kindInput: string, parent: string,
                      embedKind: string, embedUri: string, attachments: string, kindOf: KindParser,
                      validate: Validator<Post>, serialize: Serializer<Post>)
      modifies this
      ensures profileError == old(profileError)
      ensures !hasSession ==> errors == old(errors) + ["No active session"] && writes == old(writes)
      ensures hasSession && IsBlank(content) ==>
        errors == old(errors) + ["Post content cannot be empty"] && writes == old(writes)
      ensures hasSession && !IsBlank(content) && ParsePostKind(kindInput, kindOf).Err? ==>
        errors == old(errors) + [ParsePostKind(kindInput, kindOf).error] && writes == old(writes)
      ensures hasSession && !IsBlank(content) && ParsePostKind(kindInput, kindOf).Ok?
              && ParseEmbed(embedKind, embedUri, kindOf).Err? ==>
        errors == old(errors) + [ParseEmbed(embedKind, embedUri, kindOf).error] && writes == old(writes)
      ensures hasSession && !IsBlank(content) && ParsePostKind(kindInput, kindOf).Ok?
              && ParseEmbed(embedKind, embedUri, kindOf).Ok? ==>
        var post := Post(content, ParsePostKind(kindInput, kindOf).value, OptionalField(parent),
                         ParseEmbed(embedKind, embedUri, kindOf).value, ParseAttachments(attachments));
        if validate(post).Some? then
          errors == old(errors) + ["Invalid post: " + validate(post).value] && writes == old(writes)
        else if serialize(post).Err? then
          errors == old(errors) + ["Failed to serialize post: " + serialize(post).error] && writes == old(writes)
        else
          errors == old(errors) && writes == old(writes) + [PutPost(post, serialize(post).value)]
      ensures writes != old(writes) ==>
        |writes| == |old(writes)| + 1 && writes[..|old(writes)|] == old(writes)
        && writes[|old(writes)|].PutPost?
        && Serialized(writes[|old(writes)|].post, writes[|old(writes)|].body, validate, serialize)
    {
      if !hasSession {
        errors := errors + ["No active session"];
        return;
      }
      if Trim(content) == [] {
        errors := errors + ["Post content cannot be empty"];
        return;
      }
      var kind := ParsePostKind(kindInput, kindOf);
      if kind.Err? {
        errors := errors + [kind.error];
        return;
      }
      var embed := ParseEmbed(embedKind, embedUri, kindOf);
      if embed.Err? {
        errors := errors + [embed.error];
        return;
      }
      var post := Post(content, kind.value, OptionalField(parent), embed.value, ParseAttachments(attachments));
      var refusal := validate(post);
      if refusal.Some? {
        errors := errors + ["Invalid post: " + refusal.value];
        return;
      }
      var body := serialize(post);
      if body.Err? {
        errors := errors + ["Failed to serialize post: " + body.error];
        return;
      }
      writes := writes + [PutPost(post, body.value)];
    }

    /** "Create tag": a blank URI or label, a tag the validator refuses or
        one that does not serialise stops before anything is written. */
    method CreateTag(hasSession: bool, uri: string, tagLabel: string,
                     validate: Validator<Tag>, serialize: Serializer<Tag>)
      modifies this
      ensures profileError == old(profileError)
      ensures !hasSession ==> errors == old(errors) + ["No active session"] && writes == old(writes)
      ensures hasSession && IsBlank(uri) ==>
        errors == old(errors) + ["Provide a URI to tag"] && writes == old(writes)
      ensures hasSession && !IsBlank(uri) && IsBlank(tagLabel) ==>
        errors == old(errors) + ["Provide a tag label"] && writes == old(writes)
      ensures hasSession && !IsBlank(uri) && !IsBlank(tagLabel) ==>
        var tag := Tag(uri, tagLabel);
        if validate(tag).Some? then
          errors == old(errors) + ["Invalid tag: " + validate(tag).value] && writes == old(writes)
        else if serialize(tag).Err? then
          errors == old(errors) + ["Failed to serialize tag: " + serialize(tag).error] && writes == old(writes)
        else
          errors == old(errors) && writes == old(writes) + [PutTag(tag, serialize(tag).value)]
      ensures writes != old(writes) ==>
        |writes| == |old(writes)| + 1 && writes[..|old(writes)|] == old(writes)
        && writes[|old(writes)|].PutTag?
        && Serialized(writes[|old(writes)|].tag, writes[|old(writes)|].body, validate, serialize)
    {
      if !hasSession {
        errors := errors + ["No active session"];
        return;
      }
      if Trim(uri) == [] {
        errors := errors + ["Provide a URI to tag"];
        return;
      }
      if Trim(tagLabel) == [] {
        errors := errors + ["Provide a tag label"];
        return;
      }
      var tag := Tag(uri, tagLabel);
      var refusal := validate(tag);
      if refusal.Some? {
        errors := errors + ["Invalid tag: " + refusal.value];
        return;
      }
      var body := serialize(tag);
      if body.Err? {
        errors := errors + ["Failed to serialize tag: " + body.error];
        return;
      }
      writes := writes + [PutTag(tag, body.value)];
    }
  }
}

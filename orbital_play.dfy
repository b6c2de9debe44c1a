/** The rules the battle screen applies before it submits an action: who
    the signed-in commander plays as, and the shape of a typed thrust
    vector. */
module OrbitalPlay {
  import opened Wrappers
  import opened Strings
  import opened OrbitalIdentity
  import opened OrbitalMatch

  /** `current_actor`: the pilot the signed-in key plays as. The host is
      checked first, so the host wins when host and guest share a key. */
  function CurrentActor(meta: MatchMeta, keypair: Option<Keypair>, keys: KeyLib): Option<string>
  {
    match keypair
    case None => None
    case Some(kp) =>
      var key := keys.publicKey(kp);
      if meta.host.publicKey == key then Some(meta.host.name)
      else if meta.guest.Some? && meta.guest.value.publicKey == key then Some(meta.guest.value.name)
      else None
  }

  /** Without a keypair there is no actor; otherwise the actor is the
      host's name when the key is the host's, else the guest's name when
      the key is the guest's, else there is none. */
  lemma CurrentActorFacts(meta: MatchMeta, keypair: Option<Keypair>, keys: KeyLib)
    ensures var r := CurrentActor(meta, keypair, keys);
      && (keypair.None? ==> r.None?)
      && (keypair.Some? && meta.host.publicKey == keys.publicKey(keypair.value) ==> r == Some(meta.host.name))
      && (keypair.Some? && meta.host.publicKey != keys.publicKey(keypair.value) ==>
            (r.Some? <==> meta.guest.Some? && meta.guest.value.publicKey == keys.publicKey(keypair.value)))
      && (r.Some? ==> r.value == meta.host.name || (meta.guest.Some? && r.value == meta.guest.value.name))
  {
  }

  const NotThreeComponents: string := "Vector must have three comma-separated components"

  /** The component-count check of `parse_vector3`: the input split at
      ',' with every piece trimmed, which must give three pieces. Reading
      the pieces as `f32` is not part of the model. */
  function VectorParts(raw: string): Result<seq<string>, string>
  {
    var pieces := Split(raw, ',');
    var parts := seq(|pieces|, i requires 0 <= i < |pieces| => Trim(pieces[i]));
    if |parts| != 3 then Err(NotThreeComponents) else Ok(parts)
  }

  /** The check passes exactly when the input holds two commas, and then
      the three parts are the trimmed text around them. */
  lemma VectorPartsFacts(raw: string)
    ensures var r := VectorParts(raw);
      && (r.Ok? <==> multiset(raw)[','] == 2)
      && (r.Err? ==> r.error == NotThreeComponents)
      && (r.Ok? ==>
            && |r.value| == 3
            && raw == Split(raw, ',')[0] + "," + Split(raw, ',')[1] + "," + Split(raw, ',')[2]
            && forall i :: 0 <= i < 3 ==> r.value[i] == Trim(Split(raw, ',')[i]))
  {
    SplitFacts(raw, ',');
    var pieces := Split(raw, ',');
    if |pieces| == 3 {
      JoinThree(pieces, ',');
    }
  }

  /** Three pieces joined by `c`. */
  lemma JoinThree(pieces: seq<string>, c: char)
    requires |pieces| == 3
    ensures Join(pieces, [c]) == pieces[0] + [c] + pieces[1] + [c] + pieces[2]
  {
    assert pieces[1..][1..] == [pieces[2]];
    assert Join(pieces[1..], [c]) == pieces[1] + [c] + pieces[2];
  }

  /** "1,2" has one comma too few. */
  lemma VectorPartsRejectsTwo()
    ensures VectorParts("1,2") == Err(NotThreeComponents)
  {
    VectorPartsFacts("1,2");
    assert multiset("1,2")[','] == 1;
  }

  /** "1, 2, 3" passes with the parts "1", "2" and "3". */
  lemma VectorPartsAcceptsThree()
    ensures VectorParts("1, 2, 3") == Ok(["1", "2", "3"])
  {
    SampleSplit();
    SampleTrims();
    var pieces := Split("1, 2, 3", ',');
    var parts := seq(|pieces|, i requires 0 <= i < |pieces| => Trim(pieces[i]));
    assert parts == ["1", "2", "3"];
  }

  lemma SampleSplit()
    ensures Split("1, 2, 3", ',') == ["1", " 2", " 3"]
  {
    assert "1, 2, 3" == "1" + [','] + " 2, 3";
    SplitOnceOfJoin("1", ',', " 2, 3");
    assert " 2, 3" == " 2" + [','] + " 3";
    SplitOnceOfJoin(" 2", ',', " 3");
    SplitOnceShape(" 3", ',');
    assert Split(" 3", ',') == [" 3"];
    assert Split(" 2, 3", ',') == [" 2", " 3"];
  }

  lemma SampleTrims()
    ensures Trim("1") == "1" && Trim(" 2") == "2" && Trim(" 3") == "3"
  {
    TrimPadded("", "1", "");
    TrimPadded(" ", "2", "");
    TrimPadded(" ", "3", "");
    assert "" + "1" + "" == "1" && " " + "2" + "" == " 2" && " " + "3" + "" == " 3";
  }
}

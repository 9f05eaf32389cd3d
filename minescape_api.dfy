/**
  The decision rules inside the Minescape API client (utils/MinescapeAPI.js).

  Each HTTP exchange is replaced by the reply it produced, passed in as a
  value (or, where the request depends on an earlier answer, as a function
  from that answer to the reply), so that what is left is the client's own
  logic: turning a compact player id into the hyphenated UUID form, choosing
  a profile, checking a save list and resolving a leaderboard stat name.
*/
module MinescapeApi {
  import opened Wrappers
  import opened Text

  /** Why a request is rejected. */
  datatype ApiError =
    | Transport                   // the HTTP request itself failed
    | UserNotFound                // "User not found"
    | IdentityError               // the identity service answered with an error object
    | Upstream(message: string)   // the game API answered with a `message`
    | NoDefaultProfile            // "Couldn't find a default profile?"
    | NotThatManyProfiles         // "The user doesn't have these many profiles"
    | UnknownStat(stat: string)   // "Couldn't find the stat <stat>"

  datatype Result<T> = Ok(value: T) | Err(error: ApiError)

  /** A promise as the caller sees it: settled either way, or never settled. */
  datatype Promise<T> = Resolved(value: T) | Rejected(error: ApiError) | Pending

  // ---------------------------------------------------------------------------
  // _getUUID
  // ---------------------------------------------------------------------------

  /**
    The identity service's reply: no reply at all, or a body (possibly empty)
    whose parsed form either carries an `error` field or the compact `id`.
  */
  datatype IdentityResponse =
    | IdentityUnreachable
    | IdentityBody(raw: string, hasError: bool, id: string)

  /** The 8-4-4-4-rest cut of the id, with a hyphen between the pieces. */
  function FullUuid(id: string): (u: string)
    ensures |u| > 0
  {
    JsSlice(id, 0, 8) + "-" + JsSlice(id, 8, 12) + "-" + JsSlice(id, 12, 16) + "-"
    + JsSlice(id, 16, 20) + "-" + JsSlice(id, 20, |id|)
  }

  /**
    A 32-character id becomes the 36-character 8-4-4-4-12 form of section 3
    of RFC 4122: hyphens at positions 8, 13, 18 and 23, the id's characters in
    order everywhere else.
  */
  lemma FullUuidLayout(id: string)
    requires |id| == 32
    ensures |FullUuid(id)| == 36
    ensures FullUuid(id)[8] == '-' && FullUuid(id)[13] == '-' && FullUuid(id)[18] == '-' && FullUuid(id)[23] == '-'
    ensures FullUuid(id)[..8] == id[..8] && FullUuid(id)[9..13] == id[8..12] && FullUuid(id)[14..18] == id[12..16]
    ensures FullUuid(id)[19..23] == id[16..20] && FullUuid(id)[24..] == id[20..]
  {
    var u := FullUuid(id);
    assert u == id[..8] + "-" + id[8..12] + "-" + id[12..16] + "-" + id[16..20] + "-" + id[20..];
  }

  /**
    Whatever the id's length, removing the hyphens from the result removes
    them from the id: the four hyphens are the only thing added, and nothing
    of the id is lost or reordered.
  */
  lemma FullUuidUnhyphenates(id: string)
    ensures Strip(FullUuid(id), '-') == Strip(id, '-')
  {
    var p0, p1, p2, p3, p4 := JsSlice(id, 0, 8), JsSlice(id, 8, 12), JsSlice(id, 12, 16), JsSlice(id, 16, 20), JsSlice(id, 20, |id|);
    UuidPiecesCover(id);
    StripAroundHyphen(p0, p1);
    StripAroundHyphen(p0 + "-" + p1, p2);
    StripAroundHyphen(p0 + "-" + p1 + "-" + p2, p3);
    StripAroundHyphen(p0 + "-" + p1 + "-" + p2 + "-" + p3, p4);
    StripAppend(p0, p1, '-');
    StripAppend(p0 + p1, p2, '-');
    StripAppend(p0 + p1 + p2, p3, '-');
    StripAppend(p0 + p1 + p2 + p3, p4, '-');
  }

  /** The five cut pieces, put back together, are the id. */
  lemma UuidPiecesCover(id: string)
    ensures JsSlice(id, 0, 8) + JsSlice(id, 8, 12) + JsSlice(id, 12, 16) + JsSlice(id, 16, 20) + JsSlice(id, 20, |id|) == id
  {
    JsSlicesMeet(id, 0, 8, 12);
    JsSlicesMeet(id, 0, 12, 16);
    JsSlicesMeet(id, 0, 16, 20);
    if |id| >= 20 {
      JsSlicesMeet(id, 0, 20, |id|);
      assert id[0..|id|] == id;
    } else if |id| > 0 {
      assert id[0..|id|] == id;
    }
  }

  lemma StripAroundHyphen(a: string, b: string)
    ensures Strip(a + "-" + b, '-') == Strip(a, '-') + Strip(b, '-')
  {
    var dash := "-";
    assert Strip(dash, '-') == "" by {
      assert dash[..0] == [];
    }
    StripAppend(a + dash, b, '-');
    StripAppend(a, dash, '-');
  }

  /** A compact id, which holds no hyphen, is recovered from its UUID form by removing the hyphens. */
  lemma CompactIdRecovered(id: string)
    requires forall i :: 0 <= i < |id| ==> id[i] != '-'
    ensures Strip(FullUuid(id), '-') == id
  {
    FullUuidUnhyphenates(id);
    StripAbsent(id, '-');
  }

  /** `_getUUID`: an empty body is "User not found", an error object a rejection, otherwise the hyphenated id. */
  function GetUuid(reply: IdentityResponse): (r: Result<string>)
    ensures r.Ok? ==> reply.IdentityBody? && r.value == FullUuid(reply.id)
    ensures r.Ok? ==> |r.value| > 0
    ensures r == Err(UserNotFound) <==> reply.IdentityBody? && reply.raw == ""
    ensures reply.IdentityUnreachable? ==> r == Err(Transport)
    ensures reply.IdentityBody? && reply.raw != "" ==>
              r == (if reply.hasError then Err(IdentityError) else Ok(FullUuid(reply.id)))
  {
    match reply
    case IdentityUnreachable => Err(Transport)
    case IdentityBody(raw, hasError, id) =>
      if raw == "" then Err(UserNotFound)
      else if hasError then Err(IdentityError)
      else Ok(FullUuid(id))
  }

  // ---------------------------------------------------------------------------
  // _getProfileID
  // ---------------------------------------------------------------------------

  datatype Profile = Profile(id: string, isDefault: bool)

  /** The game API's answer about a player: no answer, or a body with a `message` ("" when absent) and the profile list. */
  datatype ProfilesResponse =
    | ProfilesUnreachable
    | ProfilesBody(message: string, profiles: seq<Profile>)

  /** The selector that asks for the default profile. */
  const DefaultSelector := "default"

  /** The position of the first profile, in list order, flagged as the default one. */
  function FirstDefault(profiles: seq<Profile>): (r: Option<nat>)
    ensures r.Some? ==> r.value < |profiles| && profiles[r.value].isDefault
    ensures r.Some? ==> forall j :: 0 <= j < r.value ==> !profiles[j].isDefault
    ensures r.None? <==> forall j :: 0 <= j < |profiles| ==> !profiles[j].isDefault
  {
    if profiles == [] then None
    else
      var r := FirstDefault(profiles[..|profiles| - 1]);
      if r.Some? then r
      else if profiles[|profiles| - 1].isDefault then Some(|profiles| - 1)
      else None
  }

  /**
    The array position a property name denotes: only the canonical decimal
    numerals ("0", "1", ..., no sign, no leading zero) name elements.
  */
  function ArrayIndex(key: string): Option<nat>
  {
    if Canonical(key) then Some(ParseNat(key)) else None
  }

  /** A key denotes position `n` exactly when it is the decimal text of `n`. */
  lemma ArrayIndexIsDecimal(key: string, n: nat)
    ensures ArrayIndex(key) == Some(n) <==> key == NatStr(n)
  {
    ParseNatStr(n);
    if Canonical(key) {
      NatStrParse(key);
    }
  }

  /**
    The profile chosen by `pos`: the first default-flagged one for "default",
    otherwise the element at the position `pos` names, when there is one.
  */
  function SelectProfile(profiles: seq<Profile>, pos: string): (r: Result<string>)
    ensures r.Ok? ==> exists i :: 0 <= i < |profiles| && profiles[i].id == r.value
    ensures r.Err? ==> r.error == (if pos == DefaultSelector then NoDefaultProfile else NotThatManyProfiles)
  {
    if pos == DefaultSelector then
      match FirstDefault(profiles)
      case Some(i) => Ok(profiles[i].id)
      case None => Err(NoDefaultProfile)
    else
      match ArrayIndex(pos)
      case Some(n) => if n < |profiles| then Ok(profiles[n].id) else Err(NotThatManyProfiles)
      case None => Err(NotThatManyProfiles)
  }

  /** "default" picks the first flagged profile, and fails exactly when none is flagged. */
  lemma SelectDefault(profiles: seq<Profile>)
    ensures SelectProfile(profiles, DefaultSelector) == Err(NoDefaultProfile)
        <==> forall j :: 0 <= j < |profiles| ==> !profiles[j].isDefault
    ensures forall i :: 0 <= i < |profiles| && profiles[i].isDefault
                        && (forall j :: 0 <= j < i ==> !profiles[j].isDefault)
                        ==> SelectProfile(profiles, DefaultSelector) == Ok(profiles[i].id)
  {
  }

  /** A position in range picks that profile; a position past the end, or a key that is no position, fails. */
  lemma SelectPosition(profiles: seq<Profile>, n: nat, key: string)
    ensures n < |profiles| ==> SelectProfile(profiles, NatStr(n)) == Ok(profiles[n].id)
    ensures n >= |profiles| ==> SelectProfile(profiles, NatStr(n)) == Err(NotThatManyProfiles)
    ensures key != DefaultSelector && !Canonical(key) ==> SelectProfile(profiles, key) == Err(NotThatManyProfiles)
  {
    ArrayIndexIsDecimal(NatStr(n), n);
    assert NatStr(n) != DefaultSelector by {
      assert IsDigit(NatStr(n)[0]) && !IsDigit(DefaultSelector[0]);
    }
  }

  /** `_getProfileID`: find the UUID, fetch the player's profiles by it, then select. */
  function GetProfileId(identity: IdentityResponse, profilesOf: string -> ProfilesResponse, pos: string): (r: Result<string>)
    ensures GetUuid(identity).Err? ==> r == Err(GetUuid(identity).error)
    ensures GetUuid(identity).Ok? ==>
              var reply := profilesOf(GetUuid(identity).value);
              r == (if reply.ProfilesUnreachable? then Err(Transport)
                    else if reply.message != "" then Err(Upstream(reply.message))
                    else SelectProfile(reply.profiles, pos))
  {
    match GetUuid(identity)
    case Err(e) => Err(e)
    case Ok(uuid) =>
      match profilesOf(uuid)
      case ProfilesUnreachable => Err(Transport)
      case ProfilesBody(message, profiles) =>
        if message != "" then Err(Upstream(message)) else SelectProfile(profiles, pos)
  }

  // ---------------------------------------------------------------------------
  // getStats
  // ---------------------------------------------------------------------------

  /** The profile argument of `getStats`: absent or empty means "default". */
  function ProfileArgument(profile: Option<string>): (pos: string)
    ensures pos != ""
    ensures profile.Some? && profile.value != "" ==> pos == profile.value
  {
    if profile.None? || profile.value == "" then DefaultSelector else profile.value
  }

  /** One save of a profile; only its skills are read. */
  datatype Save<S> = Save(skills: S)

  /** The saves endpoint's answer: no answer, or a body with a `message` ("" when absent) and the list of saves. */
  datatype SavesResponse<S> =
    | SavesUnreachable
    | SavesBody(message: string, saves: seq<Save<S>>)

  /** The save check of `getStats`: a message is a rejection, an empty list is "User not found", else the first save's skills. */
  function SavesReply<S>(reply: SavesResponse<S>): (p: Promise<S>)
    ensures p.Resolved? <==> reply.SavesBody? && reply.message == "" && |reply.saves| > 0
    ensures p.Resolved? ==> p.value == reply.saves[0].skills
    ensures p == Rejected(UserNotFound) <==> reply.SavesBody? && reply.message == "" && reply.saves == []
    ensures reply.SavesUnreachable? ==> p == Rejected(Transport)
    ensures reply.SavesBody? && reply.message != "" ==> p == Rejected(Upstream(reply.message))
    ensures !p.Pending?
  {
    match reply
    case SavesUnreachable => Rejected(Transport)
    case SavesBody(message, saves) =>
      if message != "" then Rejected(Upstream(message))
      else if saves == [] then Rejected(UserNotFound)
      else Resolved(saves[0].skills)
  }

  /**
    `getStats`: default the profile argument, find the profile's id, then
    check its saves. A profile whose id is empty leaves the promise unsettled.
  */
  function GetStats<S>(identity: IdentityResponse, profilesOf: string -> ProfilesResponse,
                       savesOf: string -> SavesResponse<S>, profile: Option<string>): (p: Promise<S>)
    ensures var id := GetProfileId(identity, profilesOf, ProfileArgument(profile));
            (p.Pending? <==> id == Ok(""))
            && (id.Err? ==> p == Rejected(id.error))
            && (id.Ok? && id.value != "" ==> p == SavesReply(savesOf(id.value)))
  {
    match GetProfileId(identity, profilesOf, ProfileArgument(profile))
    case Err(e) => Rejected(e)
    case Ok(profileId) => if profileId == "" then Pending else SavesReply(savesOf(profileId))
  }

  /** Leaving the profile out, passing "" and passing "default" ask for the same thing. */
  lemma StatsDefaultProfile<S>(identity: IdentityResponse, profilesOf: string -> ProfilesResponse,
                               savesOf: string -> SavesResponse<S>)
    ensures GetStats(identity, profilesOf, savesOf, None) == GetStats(identity, profilesOf, savesOf, Some(DefaultSelector))
    ensures GetStats(identity, profilesOf, savesOf, Some("")) == GetStats(identity, profilesOf, savesOf, Some(DefaultSelector))
  {
  }

  /**
    The stats returned are the first save of the profile selected from the
    profiles the game API lists for the player's UUID.
  */
  lemma StatsOfSelectedProfile<S>(identity: IdentityResponse, profilesOf: string -> ProfilesResponse,
                                  savesOf: string -> SavesResponse<S>, profile: Option<string>, stats: S)
    requires GetStats(identity, profilesOf, savesOf, profile) == Resolved(stats)
    ensures identity.IdentityBody? && profilesOf(FullUuid(identity.id)).ProfilesBody?
    ensures var profiles := profilesOf(FullUuid(identity.id));
            profiles.message == "" &&
            var selected := SelectProfile(profiles.profiles, ProfileArgument(profile));
            selected.Ok? && selected.value != "" &&
            savesOf(selected.value).SavesBody? && |savesOf(selected.value).saves| > 0 &&
            savesOf(selected.value).saves[0].skills == stats
  {
  }

  // ---------------------------------------------------------------------------
  // getTop
  // ---------------------------------------------------------------------------

  /** The game whose leaderboards also accept raw stat names. */
  const RawStatGame := "minescape"

  /** The stat is listed in the name table with a non-empty name. */
  predicate KnownStat(statNames: map<string, string>, stat: string)
  {
    stat in statNames && statNames[stat] != ""
  }

  /** The stat name `getTop` queries: the table's name when listed, the raw name for Minescape, an error otherwise. */
  function ResolveStat(statNames: map<string, string>, stat: string, game: string): (r: Result<string>)
    ensures r.Err? ==> r.error == UnknownStat(stat)
    ensures r.Ok? ==> (KnownStat(statNames, stat) && r.value == statNames[stat]) || (game == RawStatGame && r.value == stat)
  {
    if game != RawStatGame || KnownStat(statNames, stat) then
      if !KnownStat(statNames, stat) then Err(UnknownStat(stat)) else Ok(statNames[stat])
    else Ok(stat)
  }

  /** A listed stat is renamed for every game; an unlisted one passes through for Minescape only. */
  lemma ResolveStatCases(statNames: map<string, string>, stat: string, game: string)
    ensures KnownStat(statNames, stat) ==> ResolveStat(statNames, stat, game) == Ok(statNames[stat])
    ensures !KnownStat(statNames, stat) && game == RawStatGame ==> ResolveStat(statNames, stat, game) == Ok(stat)
    ensures ResolveStat(statNames, stat, game).Err? <==> !KnownStat(statNames, stat) && game != RawStatGame
  {
  }

  /** The leaderboard endpoint's answer: no answer, or a body with a `message` ("" when absent). */
  datatype BoardResponse<B> = BoardUnreachable | BoardBody(message: string, board: B)

  /** `getTop`: resolve the stat, then fetch the game's board for it. */
  function GetTop<B>(statNames: map<string, string>, stat: string, game: string,
                     boardFor: (string, string) -> BoardResponse<B>): (r: Result<B>)
    ensures r == Err(UnknownStat(stat)) <==> !KnownStat(statNames, stat) && game != RawStatGame
  {
    match ResolveStat(statNames, stat, game)
    case Err(e) => Err(e)
    case Ok(name) =>
      match boardFor(game, name)
      case BoardUnreachable => Err(Transport)
      case BoardBody(message, board) => if message != "" then Err(Upstream(message)) else Ok(board)
  }

  /** A board returned is the one for the resolved stat name. */
  lemma TopQueriesResolvedStat<B>(statNames: map<string, string>, stat: string, game: string,
                                  boardFor: (string, string) -> BoardResponse<B>, board: B)
    requires GetTop(statNames, stat, game, boardFor) == Ok(board)
    ensures ResolveStat(statNames, stat, game).Ok?
    ensures boardFor(game, ResolveStat(statNames, stat, game).value) == BoardBody("", board)
  {
  }

  /** Once the stat resolves, the board endpoint's answer decides the result: a transport failure, its message, or its board. */
  lemma TopFetchesResolvedStat<B>(statNames: map<string, string>, stat: string, game: string,
                                  boardFor: (string, string) -> BoardResponse<B>)
    requires ResolveStat(statNames, stat, game).Ok?
    ensures var reply := boardFor(game, ResolveStat(statNames, stat, game).value);
            (reply.BoardUnreachable? ==> GetTop(statNames, stat, game, boardFor) == Err(Transport))
            && (reply.BoardBody? && reply.message != "" ==> GetTop(statNames, stat, game, boardFor) == Err(Upstream(reply.message)))
            && (reply.BoardBody? && reply.message == "" ==> GetTop(statNames, stat, game, boardFor) == Ok(reply.board))
  {
  }
}

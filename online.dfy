/**
  The `online` chat command (Commands/General/online.js).

  One pass over the server listing tallies, per normalised game key, the number
  of players and their names; the command then renders one of three replies:
  a summary of every game, the player list of one game, or where one player is.

  JavaScript objects used as dictionaries are modelled as ordered maps: the
  sequence of keys in first-insertion order (what `Object.keys` returns) beside
  a `map` holding the values. The server-name capitalisation helper, whose
  source is not part of this model, is the parameter `cap`.
*/
module OnlineCommand {
  import opened Wrappers
  import opened Text

  datatype User = User(name: string, id: string)

  /** One game-server instance as the servers endpoint lists it. */
  datatype Server = Server(namespace: string, game: string, users: seq<User>)

  /** The only namespace whose servers are counted (the others are dev servers). */
  const CountedNamespace := "gameslabs"

  /** A game with more players than this is not listed by name. */
  const MaxListed := 100

  /** The reply when the server listing cannot be fetched. */
  const FetchFailed := "Error trying to find the online players"

  predicate Counted(server: Server)
  {
    server.namespace == CountedNamespace && |server.users| != 0
  }

  /** What every dictionary key looks like: no upper-case letter and no hyphen. */
  predicate IsGameKey(k: string)
  {
    forall i :: 0 <= i < |k| ==> k[i] != '-' && !IsUpper(k[i])
  }

  /** `game.toLowerCase().replace(/-/g, " ")` */
  function GameKey(game: string): (k: string)
    ensures |k| == |game| && IsGameKey(k)
    ensures forall i :: 0 <= i < |game| ==> (game[i] == '-' ==> k[i] == ' ')
  {
    ReplaceChar(Lower(game), '-', ' ')
  }

  /** A normalised key is its own normal form and its own lower-case form. */
  lemma GameKeyFixesKeys(k: string)
    requires IsGameKey(k)
    ensures GameKey(k) == k && Lower(k) == k
  {
    LowerFixesLowerCase(k);
  }

  /** `server.users.map(user => user.name)` */
  function Names(users: seq<User>): (names: seq<string>)
    ensures |names| == |users|
    ensures forall i :: 0 <= i < |users| ==> names[i] == users[i].name
  {
    seq(|users|, i requires 0 <= i < |users| => users[i].name)
  }

  /**
    A JavaScript object used as a dictionary: its keys in insertion order (what
    `Object.keys` returns for non-numeric keys) beside the key-to-value map.
  */
  datatype Dict<V> = Dict(keys: seq<string>, entries: map<string, V>)
  {
    /** The keys are listed once each, and exactly the entries' keys are listed. */
    ghost predicate Valid()
    {
      Distinct(keys) && forall k :: k in entries <==> k in keys
    }

    /** `dict[k] = v`: a new key goes to the end of the order, an existing one keeps its place. */
    function Put(k: string, v: V): (d: Dict<V>)
      ensures Valid() ==> d.Valid()
      ensures d.entries == entries[k := v]
      ensures d.keys == if k in entries then keys else keys + [k]
    {
      Dict(if k in entries then keys else keys + [k], entries[k := v])
    }
  }

  function EmptyDict<V>(): Dict<V>
  {
    Dict([], map[])
  }

  // ---------------------------------------------------------------------------
  // What the tally loop computes, as functions of the listing
  // ---------------------------------------------------------------------------

  /** The number of players on counted servers. */
  function TotalOnline(s: seq<Server>): nat
  {
    if s == [] then 0
    else TotalOnline(s[..|s| - 1]) + (if Counted(s[|s| - 1]) then |s[|s| - 1].users| else 0)
  }

  /** The number of players on counted servers of game key `g`. */
  function CountFor(s: seq<Server>, g: string): nat
  {
    if s == [] then 0
    else
      var last := s[|s| - 1];
      CountFor(s[..|s| - 1], g) + (if Counted(last) && GameKey(last.game) == g then |last.users| else 0)
  }

  /** The names on counted servers of game key `g`, in listing order, duplicates kept. */
  function PeopleFor(s: seq<Server>, g: string): seq<string>
  {
    if s == [] then []
    else
      var last := s[|s| - 1];
      PeopleFor(s[..|s| - 1], g) + (if Counted(last) && GameKey(last.game) == g then Names(last.users) else [])
  }

  /** The game keys of counted servers, each once, in order of first appearance. */
  function Games(s: seq<Server>): seq<string>
  {
    if s == [] then []
    else
      var seen := Games(s[..|s| - 1]);
      var last := s[|s| - 1];
      if Counted(last) && GameKey(last.game) !in seen then seen + [GameKey(last.game)] else seen
  }

  /** Each game's name list is exactly as long as its count. */
  lemma {:induction false} PeopleMatchCount(s: seq<Server>, g: string)
    ensures |PeopleFor(s, g)| == CountFor(s, g)
  {
    if s != [] {
      PeopleMatchCount(s[..|s| - 1], g);
    }
  }

  /** A key is listed exactly when some player was counted for it; keys are normalised and distinct. */
  lemma {:induction false} GamesAreTheCountedOnes(s: seq<Server>, g: string)
    ensures g in Games(s) <==> CountFor(s, g) > 0
    ensures Distinct(Games(s))
    ensures forall k :: k in Games(s) ==> IsGameKey(k)
  {
    if s != [] {
      GamesAreTheCountedOnes(s[..|s| - 1], g);
    }
  }

  /** Name lists compose along the listing: a split listing concatenates its parts' lists. */
  lemma {:induction false} PeopleForAppend(a: seq<Server>, b: seq<Server>, g: string)
    ensures PeopleFor(a + b, g) == PeopleFor(a, g) + PeopleFor(b, g)
  {
    if b == [] {
      assert a + b == a;
    } else {
      var b', last := b[..|b| - 1], b[|b| - 1];
      assert b == b' + [last] && a + b == (a + b') + [last];
      PeopleForAppend(a, b', g);
      PeopleForSnoc(a + b', last, g);
      PeopleForSnoc(b', last, g);
    }
  }

  /** One more server at the end of the listing appends its names, if counted for `g`. */
  lemma PeopleForSnoc(s: seq<Server>, last: Server, g: string)
    ensures PeopleFor(s + [last], g)
         == PeopleFor(s, g) + (if Counted(last) && GameKey(last.game) == g then Names(last.users) else [])
  {
    assert (s + [last])[..|s|] == s;
  }

  /** A dev server or an empty server, wherever it stands in the listing, changes no tally. */
  lemma {:induction false} IgnoredServerChangesNothing(a: seq<Server>, r: Server, b: seq<Server>, g: string)
    requires !Counted(r)
    ensures TotalOnline(a + [r] + b) == TotalOnline(a + b)
    ensures Games(a + [r] + b) == Games(a + b)
    ensures CountFor(a + [r] + b, g) == CountFor(a + b, g)
    ensures PeopleFor(a + [r] + b, g) == PeopleFor(a + b, g)
    ensures TallyOf(a + [r] + b) == TallyOf(a + b)
  {
    if b == [] {
      assert a + [r] + b == a + [r] && (a + [r])[..|a|] == a && a + b == a;
    } else {
      var b' := b[..|b| - 1];
      assert (a + [r] + b)[..|a + [r] + b| - 1] == a + [r] + b';
      assert (a + b)[..|a + b| - 1] == a + b';
      IgnoredServerChangesNothing(a, r, b', g);
    }
  }

  // ---------------------------------------------------------------------------
  // The tally loop of `execute`
  // ---------------------------------------------------------------------------

  /** The loop's three accumulators: `totalOnline`, `totals` and `people`. */
  datatype Tallies = Tallies(totalOnline: nat, totals: Dict<nat>, people: Dict<seq<string>>)

  /** One iteration of the loop of `execute`, on the accumulators. */
  function AddServer(t: Tallies, server: Server): (r: Tallies)
    ensures r.totalOnline == t.totalOnline + (if Counted(server) then |server.users| else 0)
    ensures !Counted(server) ==> r == t
  {
    if server.namespace != CountedNamespace || |server.users| == 0 then t
    else
      var game := GameKey(server.game);
      Tallies(t.totalOnline + |server.users|, AddCount(t.totals, game, |server.users|),
              AddNames(t.people, game, Names(server.users)))
  }

  /**
    `totals[game]`: raised by `n` when it holds a non-zero count, set to `n`
    otherwise; since a zero count raised by `n` is `n`, the truthiness test
    amounts to adding `n` to the count (0 when absent).
  */
  function AddCount(totals: Dict<nat>, game: string, n: nat): (r: Dict<nat>)
    ensures totals.Valid() ==> r.Valid()
    ensures r.entries == totals.entries[game := (if game in totals.entries then totals.entries[game] else 0) + n]
    ensures r.keys == if game in totals.entries then totals.keys else totals.keys + [game]
  {
    if game in totals.entries && totals.entries[game] != 0
    then totals.Put(game, totals.entries[game] + n)
    else totals.Put(game, n)
  }

  /** `people[game]`: extended by `names` when present, set to `names` otherwise. */
  function AddNames(people: Dict<seq<string>>, game: string, names: seq<string>): (r: Dict<seq<string>>)
    ensures people.Valid() ==> r.Valid()
    ensures r.entries == people.entries[game := (if game in people.entries then people.entries[game] else []) + names]
    ensures r.keys == if game in people.entries then people.keys else people.keys + [game]
  {
    if game in people.entries
    then people.Put(game, people.entries[game] + names)
    else assert [] + names == names; people.Put(game, names)
  }

  /** The accumulators after the loop has run over `s`. */
  function TallyOf(s: seq<Server>): Tallies
  {
    if s == [] then Tallies(0, EmptyDict(), EmptyDict())
    else AddServer(TallyOf(s[..|s| - 1]), s[|s| - 1])
  }

  /**
    What the accumulators hold: the total is the number of players on counted
    servers; both dictionaries list the counted games in order of first
    appearance; each game's count and name list are those of its servers.
  */
  lemma {:induction false} TallyMeaning(s: seq<Server>)
    ensures TallyOf(s).totalOnline == TotalOnline(s)
    ensures TallyOf(s).totals.Valid() && TallyOf(s).people.Valid()
    ensures TallyOf(s).totals.keys == Games(s) && TallyOf(s).people.keys == Games(s)
    ensures forall g :: g in TallyOf(s).totals.entries ==> TallyOf(s).totals.entries[g] == CountFor(s, g)
    ensures forall g :: g in TallyOf(s).people.entries ==> TallyOf(s).people.entries[g] == PeopleFor(s, g)
  {
    if s != [] {
      var init, r := s[..|s| - 1], s[|s| - 1];
      TallyMeaning(init);
      assert s == init + [r];
      if Counted(r) {
        TallyMeaningStep(init, r);
      } else {
        IgnoredServerStep(init, r);
      }
    }
  }

  /** The inductive step of TallyMeaning for a server that is not counted. */
  lemma IgnoredServerStep(s: seq<Server>, r: Server)
    requires !Counted(r)
    ensures TallyOf(s + [r]) == TallyOf(s) && TotalOnline(s + [r]) == TotalOnline(s) && Games(s + [r]) == Games(s)
    ensures forall g :: CountFor(s + [r], g) == CountFor(s, g) && PeopleFor(s + [r], g) == PeopleFor(s, g)
  {
    assert (s + [r])[..|s|] == s;
  }

  /** The inductive step of TallyMeaning for a counted server. */
  lemma TallyMeaningStep(s: seq<Server>, r: Server)
    requires Counted(r)
    requires TallyOf(s).totals.Valid() && TallyOf(s).people.Valid()
    requires TallyOf(s).totals.keys == Games(s) && TallyOf(s).people.keys == Games(s)
    requires forall g :: g in TallyOf(s).totals.entries ==> TallyOf(s).totals.entries[g] == CountFor(s, g)
    requires forall g :: g in TallyOf(s).people.entries ==> TallyOf(s).people.entries[g] == PeopleFor(s, g)
    ensures TallyOf(s + [r]).totals.Valid() && TallyOf(s + [r]).people.Valid()
    ensures TallyOf(s + [r]).totals.keys == Games(s + [r]) && TallyOf(s + [r]).people.keys == Games(s + [r])
    ensures forall g :: g in TallyOf(s + [r]).totals.entries ==> TallyOf(s + [r]).totals.entries[g] == CountFor(s + [r], g)
    ensures forall g :: g in TallyOf(s + [r]).people.entries ==> TallyOf(s + [r]).people.entries[g] == PeopleFor(s + [r], g)
  {
    assert (s + [r])[..|s|] == s;
    assert TallyOf(s + [r]) == AddServer(TallyOf(s), r);
    AddServerTotals(TallyOf(s).totals, s, r);
    AddServerPeople(TallyOf(s).people, s, r);
  }

  /** A counted server adds its game to the count dictionary if new, and its players to that game's count. */
  lemma AddServerTotals(totals: Dict<nat>, s: seq<Server>, r: Server)
    requires Counted(r)
    requires totals.Valid() && totals.keys == Games(s)
    requires forall g :: g in totals.entries ==> totals.entries[g] == CountFor(s, g)
    ensures AddCount(totals, GameKey(r.game), |r.users|).Valid()
    ensures AddCount(totals, GameKey(r.game), |r.users|).keys == Games(s + [r])
    ensures forall g :: g in AddCount(totals, GameKey(r.game), |r.users|).entries ==>
                          AddCount(totals, GameKey(r.game), |r.users|).entries[g] == CountFor(s + [r], g)
  {
    assert (s + [r])[..|s|] == s;
    // A listed game has a positive count, so the source's truthiness test is a membership test.
    GamesAreTheCountedOnes(s, GameKey(r.game));
  }

  /** A counted server adds its game to the name dictionary if new, and its players' names to that game's list. */
  lemma AddServerPeople(people: Dict<seq<string>>, s: seq<Server>, r: Server)
    requires Counted(r)
    requires people.Valid() && people.keys == Games(s)
    requires forall g :: g in people.entries ==> people.entries[g] == PeopleFor(s, g)
    ensures AddNames(people, GameKey(r.game), Names(r.users)).Valid()
    ensures AddNames(people, GameKey(r.game), Names(r.users)).keys == Games(s + [r])
    ensures forall g :: g in AddNames(people, GameKey(r.game), Names(r.users)).entries ==>
                          AddNames(people, GameKey(r.game), Names(r.users)).entries[g] == PeopleFor(s + [r], g)
  {
    assert (s + [r])[..|s|] == s;
    // A game not yet listed has no names so far.
    GamesAreTheCountedOnes(s, GameKey(r.game));
    PeopleMatchCount(s, GameKey(r.game));
  }

  /** The counts add up to the total. */
  lemma {:induction false} TallySum(s: seq<Server>)
    ensures TallyOf(s).totals.Valid()
    ensures SumOver(TallyOf(s).totals.keys, TallyOf(s).totals.entries) == TallyOf(s).totalOnline
  {
    if s != [] {
      var init, r := s[..|s| - 1], s[|s| - 1];
      TallySum(init);
      if Counted(r) {
        AddCountKeepsSum(TallyOf(init).totals, GameKey(r.game), |r.users|);
      }
    }
  }

  /** Adding `n` players to one game's count adds `n` to the sum of the counts. */
  lemma AddCountKeepsSum(totals: Dict<nat>, game: string, n: nat)
    requires totals.Valid()
    ensures AddCount(totals, game, n).Valid()
    ensures SumOver(AddCount(totals, game, n).keys, AddCount(totals, game, n).entries)
         == SumOver(totals.keys, totals.entries) + n
  {
    var keys, m := totals.keys, totals.entries;
    if game in m {
      SumOverBump(keys, m, game, n);
      if m[game] == 0 {
        assert m[game := 0 + n] == m[game := n];
      }
    } else {
      SumOverFresh(keys, m, game, n);
      assert (keys + [game])[..|keys|] == keys;
    }
  }

  function SumOver(keys: seq<string>, m: map<string, nat>): nat
    requires forall k :: k in keys ==> k in m
  {
    if keys == [] then 0 else SumOver(keys[..|keys| - 1], m) + m[keys[|keys| - 1]]
  }

  /** Raising the value of a key that occurs once raises the sum by as much. */
  lemma {:induction false} SumOverBump(keys: seq<string>, m: map<string, nat>, g: string, n: nat)
    requires forall k :: k in keys ==> k in m
    requires Distinct(keys) && g in keys
    ensures SumOver(keys, m[g := m[g] + n]) == SumOver(keys, m) + n
  {
    var init := keys[..|keys| - 1];
    if keys[|keys| - 1] == g {
      assert g !in init;
      SumOverFresh(init, m, g, m[g] + n);
    } else {
      SumOverBump(init, m, g, n);
    }
  }

  /** Setting a key that is not summed leaves the sum alone. */
  lemma {:induction false} SumOverFresh(keys: seq<string>, m: map<string, nat>, g: string, v: nat)
    requires forall k :: k in keys ==> k in m
    requires g !in keys
    ensures SumOver(keys, m[g := v]) == SumOver(keys, m)
  {
    if keys != [] {
      SumOverFresh(keys[..|keys| - 1], m, g, v);
    }
  }

  /**
    The loop of `execute`: skip dev and empty servers, normalise the game, add
    the player count to the total and to the game's count, append the names to
    the game's list. Both dictionaries list the counted games in order of first
    appearance, every count matches its name list, and the counts add up to the
    total.
  */
  method Tally(online: seq<Server>) returns (totalOnline: nat, totals: Dict<nat>, people: Dict<seq<string>>)
    ensures Tallies(totalOnline, totals, people) == TallyOf(online)
    ensures totalOnline == TotalOnline(online)
    ensures totals.Valid() && people.Valid()
    ensures totals.keys == Games(online) && people.keys == Games(online)
    ensures forall g :: g in totals.entries ==> totals.entries[g] == CountFor(online, g)
    ensures forall g :: g in people.entries ==> people.entries[g] == PeopleFor(online, g)
    ensures forall g :: g in totals.entries ==> IsGameKey(g) && |people.entries[g]| == totals.entries[g]
    ensures SumOver(totals.keys, totals.entries) == totalOnline
  {
    totalOnline, totals, people := 0, EmptyDict(), EmptyDict();
    for i := 0 to |online|
      invariant Tallies(totalOnline, totals, people) == TallyOf(online[..i])
    {
      var server := online[i];
      ghost var before := Tallies(totalOnline, totals, people);
      assert TallyOf(online[..i + 1]) == AddServer(before, server) by {
        assert online[..i + 1][..i] == online[..i];
      }
      if server.namespace != CountedNamespace || |server.users| == 0 {
        continue;
      }
      var game := GameKey(server.game);
      totalOnline := totalOnline + |server.users|;
      if game in totals.entries && totals.entries[game] != 0 {
        totals := totals.Put(game, totals.entries[game] + |server.users|);
      } else {
        totals := totals.Put(game, |server.users|);
      }
      if game in people.entries {
        people := people.Put(game, people.entries[game] + Names(server.users));
      } else {
        people := people.Put(game, Names(server.users));
      }
      assert Tallies(totalOnline, totals, people) == AddServer(before, server);
    }
    assert online[..|online|] == online;
    TallyMeaning(online);
    TallySum(online);
    GamesAreTheCountedOnes(online, "");
    forall g | g in totals.entries
      ensures |people.entries[g]| == totals.entries[g]
    {
      PeopleMatchCount(online, g);
    }
  }

  // ---------------------------------------------------------------------------
  // Wording shared by the replies
  // ---------------------------------------------------------------------------

  function Verb(n: nat): string { if n == 1 then "is" else "are" }

  function Noun(n: nat): string { if n == 1 then "player" else "players" }

  /** "There is/are currently N player/players online", the opening of both listings. */
  function Headcount(n: nat): string
  {
    "There " + Verb(n) + " currently " + NatStr(n) + " " + Noun(n) + " online"
  }

  /** The singular wording is used for a count of exactly one, the plural for every other count, zero included. */
  lemma HeadcountWording(n: nat)
    ensures Headcount(n) == SingularHeadcount <==> n == 1
    ensures n == 1 ==> Headcount(n) == "There is currently 1 player online"
    ensures n != 1 ==> Headcount(n) == "There are currently " + NatStr(n) + " players online"
  {
    if n == 1 {
      HeadcountOfOne();
      SingularSpelledOut();
    } else {
      CountInHeadcount(n);
      assert |Headcount(n)| > |SingularHeadcount|;
      PluralSpelledOut();
      assert Headcount(n) == ("There " + "are" + " currently ") + NatStr(n) + (" " + "players" + " online");
    }
  }

  /** The opening line for a single player. */
  const SingularHeadcount := "There " + "is" + " currently " + "1" + " " + "player" + " online"

  lemma HeadcountOfOne()
    ensures Headcount(1) == SingularHeadcount
  {
    assert NatStr(1) == "1";
  }

  lemma SingularSpelledOut()
    ensures SingularHeadcount == "There is currently 1 player online"
  {
  }

  lemma PluralSpelledOut()
    ensures "There " + "are" + " currently " == "There are currently "
    ensures " " + "players" + " online" == " players online"
  {
  }

  /** The opening line determines the count it reports. */
  lemma HeadcountInjective(m: nat, n: nat)
    requires Headcount(m) == Headcount(n)
    ensures m == n
  {
    HeadcountWording(m);
    HeadcountWording(n);
    if m != 1 && n != 1 {
      CountInHeadcount(m);
      CountInHeadcount(n);
      assert |NatStr(m)| == |NatStr(n)|;
      NatStrInjective(m, n);
    }
  }

  /** Where the count stands in the opening line. */
  lemma CountInHeadcount(n: nat)
    ensures |Headcount(n)| == 25 + |Verb(n)| + |NatStr(n)| + |Noun(n)|
    ensures Headcount(n)[17 + |Verb(n)|..17 + |Verb(n)| + |NatStr(n)|] == NatStr(n)
  {
    var front, d, back := "There " + Verb(n) + " currently ", NatStr(n), " " + Noun(n) + " online";
    assert Headcount(n) == front + d + back;
  }

  // ---------------------------------------------------------------------------
  // _getOnlineAllServers
  // ---------------------------------------------------------------------------

  /** One entry of the summary: "<count> in <Game>". */
  function Entry(count: nat, game: string, cap: string -> string): string
  {
    NatStr(count) + " in " + cap(game)
  }

  /** The summary's entries, one per game in key order. */
  function Entries(totals: Dict<nat>, cap: string -> string): (es: seq<string>)
    requires totals.Valid()
    ensures |es| == |totals.keys|
    ensures forall i :: 0 <= i < |es| ==> es[i] == Entry(totals.entries[totals.keys[i]], totals.keys[i], cap)
  {
    seq(|totals.keys|, i requires 0 <= i < |totals.keys| => Entry(totals.entries[totals.keys[i]], totals.keys[i], cap))
  }

  /** The reply without an argument: the headcount, a line break, then the entries joined by ", ". */
  function Summary(totals: Dict<nat>, totalOnline: nat, cap: string -> string): string
    requires totals.Valid()
  {
    Headcount(totalOnline) + ":\n" + Join(Entries(totals, cap), ", ")
  }

  /** With no game counted, the summary is the headcount line alone. */
  lemma SummaryOfNoGames(totals: Dict<nat>, totalOnline: nat, cap: string -> string)
    requires totals.Valid() && totals.keys == []
    ensures Summary(totals, totalOnline, cap) == Headcount(totalOnline) + ":\n"
  {
  }

  /**
    `_getOnlineAllServers`: append "<count> in <Game>, " per key, then put the
    headcount in front and cut the last two characters off the list.
  */
  method OnlineAllServers(totals: Dict<nat>, totalOnline: nat, cap: string -> string) returns (msg: string)
    requires totals.Valid()
    ensures msg == Summary(totals, totalOnline, cap)
  {
    var msgString := "";
    ghost var entries := Entries(totals, cap);
    for i := 0 to |totals.keys|
      invariant msgString == Terminated(entries[..i], ", ")
    {
      var game := totals.keys[i];
      msgString := msgString + (NatStr(totals.entries[game]) + " in " + cap(game) + ", ");
      assert entries[..i + 1][..i] == entries[..i];
    }
    assert entries[..|totals.keys|] == entries;
    TrimmedTerminatedIsJoin(entries, ", ");
    msg := Headcount(totalOnline) + ":\n" + JsSlice(msgString, 0, -2);
  }

  // ---------------------------------------------------------------------------
  // _getOnlinePerson
  // ---------------------------------------------------------------------------

  /** Names compared after lower-casing both. */
  predicate SameName(a: string, b: string)
  {
    Lower(a) == Lower(b)
  }

  /** Some name of the list is the person's, ignoring case. */
  predicate Plays(names: seq<string>, person: string)
  {
    exists i :: 0 <= i < |names| && SameName(names[i], person)
  }

  /** `names.filter(user => user.toLowerCase() == person.toLowerCase())` */
  function Matching(names: seq<string>, person: string): (m: seq<string>)
    ensures |m| <= |names|
    ensures forall i :: 0 <= i < |m| ==> SameName(m[i], person)
  {
    if names == [] then []
    else
      var last := names[|names| - 1];
      Matching(names[..|names| - 1], person) + (if SameName(last, person) then [last] else [])
  }

  /** The filter is non-empty exactly when the person is on the list. */
  lemma {:induction false} MatchingFindsPlayers(names: seq<string>, person: string)
    ensures |Matching(names, person)| > 0 <==> Plays(names, person)
  {
    if names != [] {
      var init := names[..|names| - 1];
      MatchingFindsPlayers(init, person);
      if Plays(names, person) && !Plays(init, person) {
        var i :| 0 <= i < |names| && SameName(names[i], person);
        assert i == |names| - 1;
      }
      if Plays(init, person) {
        var i :| 0 <= i < |init| && SameName(init[i], person);
        assert SameName(names[i], person);
      }
    }
  }

  /** The position, in key order, of the first game whose list holds the person. */
  function FirstGame(keys: seq<string>, people: map<string, seq<string>>, person: string): (r: Option<nat>)
    requires forall k :: k in keys ==> k in people
    ensures r.Some? ==> r.value < |keys| && Plays(people[keys[r.value]], person)
    ensures r.Some? ==> forall j :: 0 <= j < r.value ==> !Plays(people[keys[j]], person)
    ensures r.None? <==> forall j :: 0 <= j < |keys| ==> !Plays(people[keys[j]], person)
  {
    if keys == [] then None
    else
      var n := |keys| - 1;
      var r := FirstGame(keys[..n], people, person);
      if r.Some? then r
      else if Plays(people[keys[n]], person) then Some(n)
      else None
  }

  /** A game on which the person plays, after games on which they do not, is the one found. */
  lemma FirstGameIs(keys: seq<string>, people: map<string, seq<string>>, person: string, i: nat)
    requires forall k :: k in keys ==> k in people
    requires i < |keys| && Plays(people[keys[i]], person)
    requires forall j :: 0 <= j < i ==> !Plays(people[keys[j]], person)
    ensures FirstGame(keys, people, person) == Some(i)
  {
  }

  function Playing(person: string, game: string, cap: string -> string): string
  {
    person + " is currently playing on " + cap(game)
  }

  function NotFound(person: string): string
  {
    "Could not find person or server " + person
  }

  /** The reply naming the first game the person plays, or saying nobody of that name is online. */
  function PersonReply(people: Dict<seq<string>>, person: string, cap: string -> string): string
    requires people.Valid()
  {
    match FirstGame(people.keys, people.entries, person)
    case Some(i) => Playing(person, people.keys[i], cap)
    case None => NotFound(person)
  }

  /** `_getOnlinePerson`: the search over the games in key order, returning at the first match. */
  method OnlinePerson(people: Dict<seq<string>>, person: string, cap: string -> string) returns (msg: string)
    requires people.Valid()
    ensures msg == PersonReply(people, person, cap)
  {
    for i := 0 to |people.keys|
      invariant forall j :: 0 <= j < i ==> !Plays(people.entries[people.keys[j]], person)
    {
      var server := people.keys[i];
      MatchingFindsPlayers(people.entries[server], person);
      if |Matching(people.entries[server], person)| > 0 {
        return Playing(person, server, cap);
      }
    }
    return NotFound(person);
  }

  // ---------------------------------------------------------------------------
  // _getOnlineServer
  // ---------------------------------------------------------------------------

  function TooManyPeople(server: string, cap: string -> string): string
  {
    "There are currently too many people in " + cap(server) + " to return the users."
  }

  /** The player list of one game: the headcount, the game as typed, then the names joined by ", ". */
  function PlayerList(names: seq<string>, server: string, cap: string -> string): string
  {
    Headcount(|names|) + " in " + cap(server) + ":" + "\n" + Join(names, ", ")
  }

  /**
    The reply to an argument: the game's player list (or the notice that it is
    too long) when the lower-cased argument is a key, else the person search.
  */
  function ServerReply(people: Dict<seq<string>>, server: string, cap: string -> string): string
    requires people.Valid()
  {
    var key := Lower(server);
    if key in people.entries then
      if |people.entries[key]| > MaxListed then TooManyPeople(server, cap)
      else PlayerList(people.entries[key], server, cap)
    else PersonReply(people, server, cap)
  }

  /**
    `_getOnlineServer`, step by step as the command runs it: the same branches
    as `ServerReply`, kept as a method because its person branch calls the
    search loop of `OnlinePerson`.
  */
  method OnlineServer(people: Dict<seq<string>>, server: string, cap: string -> string) returns (msg: string)
    requires people.Valid()
    ensures msg == ServerReply(people, server, cap)
  {
    var key := Lower(server);
    if key in people.entries {
      if |people.entries[key]| > MaxListed {
        return TooManyPeople(server, cap);
      }
      msg := Headcount(|people.entries[key]|) + " in " + cap(server) + ":";
      msg := msg + "\n" + Join(people.entries[key], ", ");
    } else {
      msg := OnlinePerson(people, server, cap);
    }
  }

  /** The player list shows the argument's capitalisation: two arguments with the same list display the same text only if they capitalise alike. */
  lemma PlayerListShowsArgument(names: seq<string>, a: string, b: string, cap: string -> string)
    requires PlayerList(names, a, cap) == PlayerList(names, b, cap)
    ensures cap(a) == cap(b)
  {
    var head, tail := Headcount(|names|) + " in ", ":" + "\n" + Join(names, ", ");
    var la, lb := PlayerList(names, a, cap), PlayerList(names, b, cap);
    assert la == head + cap(a) + tail && lb == head + cap(b) + tail;
    assert la[|head|..|la| - |tail|] == cap(a);
    assert lb[|head|..|lb| - |tail|] == cap(b);
  }

  // ---------------------------------------------------------------------------
  // execute
  // ---------------------------------------------------------------------------

  /**
    The message `execute` sends: the failure notice when the listing could not
    be fetched, the summary when no argument is given (the empty argument is
    falsy too), the game or person reply otherwise.
  */
  function Reply(online: Option<seq<Server>>, args: string, cap: string -> string): string
  {
    if online.None? then FetchFailed
    else
      var t := TallyOf(online.value);
      TallyMeaning(online.value);
      if args == "" then Summary(t.totals, t.totalOnline, cap) else ServerReply(t.people, args, cap)
  }

  /**
    `execute`, with the fetched listing (None when the fetch failed) as a
    parameter and the sent message as the result. It follows `Reply` branch
    for branch, but runs the loops (`Tally`, `OnlineAllServers`,
    `OnlineServer`) where `Reply` uses the functions they are proved against.
  */
  method Execute(online: Option<seq<Server>>, args: string, cap: string -> string) returns (msg: string)
    ensures msg == Reply(online, args, cap)
  {
    if online.None? {
      return FetchFailed;
    }
    var totalOnline, totals, people := Tally(online.value);
    if args == "" {
      msg := OnlineAllServers(totals, totalOnline, cap);
    } else {
      msg := OnlineServer(people, args, cap);
    }
  }

  // ---------------------------------------------------------------------------
  // What `execute` replies, in terms of the listing
  // ---------------------------------------------------------------------------

  /** Without an argument: the total, then "<count> in <Game>" for every counted game in order of first appearance. */
  lemma SummaryReply(online: seq<Server>, cap: string -> string)
    ensures Reply(Some(online), "", cap)
         == Headcount(TotalOnline(online)) + ":\n"
            + Join(seq(|Games(online)|, i requires 0 <= i < |Games(online)| =>
                         Entry(CountFor(online, Games(online)[i]), Games(online)[i], cap)), ", ")
  {
    TallyMeaning(online);
    var t := TallyOf(online);
    assert Entries(t.totals, cap)
        == seq(|Games(online)|, i requires 0 <= i < |Games(online)| =>
                 Entry(CountFor(online, Games(online)[i]), Games(online)[i], cap));
  }

  /**
    An argument naming a counted game, in any case: the notice when more than
    100 players are on it, otherwise their names in listing order.
  */
  lemma GameReply(online: seq<Server>, server: string, cap: string -> string)
    requires server != "" && Lower(server) in Games(online)
    ensures CountFor(online, Lower(server)) > MaxListed ==>
              Reply(Some(online), server, cap) == TooManyPeople(server, cap)
    ensures CountFor(online, Lower(server)) <= MaxListed ==>
              Reply(Some(online), server, cap) == PlayerList(PeopleFor(online, Lower(server)), server, cap)
  {
    TallyMeaning(online);
    PeopleMatchCount(online, Lower(server));
  }

  /** An argument that is no game: the first game, in order of first appearance, on which the person plays. */
  lemma PersonFoundReply(online: seq<Server>, person: string, cap: string -> string, i: nat)
    requires person != "" && Lower(person) !in Games(online)
    requires i < |Games(online)| && Plays(PeopleFor(online, Games(online)[i]), person)
    requires forall j :: 0 <= j < i ==> !Plays(PeopleFor(online, Games(online)[j]), person)
    ensures Reply(Some(online), person, cap) == Playing(person, Games(online)[i], cap)
  {
    TallyMeaning(online);
    var people := TallyOf(online).people;
    forall j | 0 <= j <= i
      ensures people.entries[people.keys[j]] == PeopleFor(online, Games(online)[j])
    {
    }
    FirstGameIs(people.keys, people.entries, person, i);
  }

  /** An argument that is neither a game nor anyone's name gets the not-found reply, naming the argument as typed. */
  lemma NotFoundReply(online: seq<Server>, person: string, cap: string -> string)
    requires person != "" && Lower(person) !in Games(online)
    requires forall g :: g in Games(online) ==> !Plays(PeopleFor(online, g), person)
    ensures Reply(Some(online), person, cap) == NotFound(person)
  {
    TallyMeaning(online);
  }

  /** Keys never hold a hyphen, so a hyphenated argument is always looked up as a person. */
  lemma HyphenatedIsNoGame(online: seq<Server>, server: string)
    requires exists i :: 0 <= i < |server| && server[i] == '-'
    ensures Lower(server) !in Games(online)
  {
    GamesAreTheCountedOnes(online, "");
    var i :| 0 <= i < |server| && server[i] == '-';
    assert Lower(server)[i] == '-';
  }

  /** The game is looked up ignoring case; the reply differs only where the argument's capitalisation is displayed. */
  lemma LookupIgnoresCase(online: seq<Server>, a: string, b: string, cap: string -> string)
    requires a != "" && b != "" && Lower(a) == Lower(b) && Lower(a) in Games(online)
    requires cap(a) == cap(b)
    ensures Reply(Some(online), a, cap) == Reply(Some(online), b, cap)
  {
    GameReply(online, a, cap);
    GameReply(online, b, cap);
  }

  // ---------------------------------------------------------------------------
  // One listing, worked through
  // ---------------------------------------------------------------------------

  /** A capitaliser that upper-cases the first character only, to instantiate `cap` in the worked example. */
  function CapitalizeFirst(s: string): (r: string)
    ensures |r| == |s|
    ensures |s| > 0 ==> r[0] == UpperChar(s[0]) && r[1..] == s[1..]
  {
    if s == [] then s else [UpperChar(s[0])] + s[1..]
  }

  const Alice := User("Alice", "a1")
  const Bob := User("Bob", "b2")
  const Eve := User("Eve", "e3")

  /** Two players on a counted server and one on a dev server of the same game. */
  const Listing := [Server("gameslabs", "minescape", [Alice, Bob]), Server("dev", "minescape", [Eve])]

  lemma ListingTallies()
    ensures TotalOnline(Listing) == 2
    ensures Games(Listing) == ["minescape"]
    ensures CountFor(Listing, "minescape") == 2
    ensures PeopleFor(Listing, "minescape") == ["Alice", "Bob"]
  {
    assert GameKey("minescape") == "minescape" by {
      GameKeyFixesKeys("minescape");
    }
    var first := [Listing[0]];
    assert Listing[..|Listing| - 1] == first && first[..0] == [];
    assert Counted(Listing[0]) && !Counted(Listing[1]);
    assert Names([Alice, Bob]) == ["Alice", "Bob"];
    assert TotalOnline(first) == 2 && Games(first) == ["minescape"];
    assert CountFor(first, "minescape") == 2 && PeopleFor(first, "minescape") == ["Alice", "Bob"];
  }

  /** Without an argument the dev server's player is not counted. */
  lemma ListingSummary(cap: string -> string)
    ensures Reply(Some(Listing), "", cap) == Headcount(2) + ":\n" + Entry(2, "minescape", cap)
  {
    ListingTallies();
    SummaryReply(Listing, cap);
    var es := seq(1, i requires 0 <= i < 1 => Entry(CountFor(Listing, "minescape"), "minescape", cap));
    assert es == [Entry(2, "minescape", cap)];
  }

  /** The game's player list, both names in listing order, the game displayed as typed. */
  lemma ListingGame(cap: string -> string)
    ensures Reply(Some(Listing), "minescape", cap) == PlayerList(["Alice", "Bob"], "minescape", cap)
  {
    ListingTallies();
    assert Lower("minescape") == "minescape" by {
      LowerFixesLowerCase("minescape");
    }
    GameReply(Listing, "minescape", cap);
  }

  /**
    The same game typed in capitals is found as well, but it is displayed as
    typed: with a first-letter capitaliser the two replies differ.
  */
  lemma ListingGameInCapitals()
    ensures Reply(Some(Listing), "MINESCAPE", CapitalizeFirst) == PlayerList(["Alice", "Bob"], "MINESCAPE", CapitalizeFirst)
    ensures Reply(Some(Listing), "MINESCAPE", CapitalizeFirst) != Reply(Some(Listing), "minescape", CapitalizeFirst)
  {
    ListingTallies();
    assert Lower("MINESCAPE") == "minescape";
    GameReply(Listing, "MINESCAPE", CapitalizeFirst);
    ListingGame(CapitalizeFirst);
    assert CapitalizeFirst("MINESCAPE")[1] == 'I' != 'i' == CapitalizeFirst("minescape")[1];
    if PlayerList(["Alice", "Bob"], "MINESCAPE", CapitalizeFirst) == PlayerList(["Alice", "Bob"], "minescape", CapitalizeFirst) {
      PlayerListShowsArgument(["Alice", "Bob"], "MINESCAPE", "minescape", CapitalizeFirst);
    }
  }

  /** A player's name, in any case, finds the game they are on. */
  lemma ListingPerson(cap: string -> string)
    ensures Reply(Some(Listing), "alice", cap) == Playing("alice", "minescape", cap)
  {
    ListingTallies();
    assert Lower("alice") == "alice" != "minescape";
    assert SameName(PeopleFor(Listing, "minescape")[0], "alice");
    PersonFoundReply(Listing, "alice", cap, 0);
  }

  /** A player seen only on a dev server is not found. */
  lemma ListingDevPlayer(cap: string -> string)
    ensures Reply(Some(Listing), "Eve", cap) == NotFound("Eve")
  {
    ListingTallies();
    assert Lower("Eve") == "eve" != "minescape";
    assert !SameName("Alice", "Eve") by { assert Lower("Alice")[0] != Lower("Eve")[0]; }
    assert !SameName("Bob", "Eve") by { assert Lower("Bob")[0] != Lower("Eve")[0]; }
    NotFoundReply(Listing, "Eve", cap);
  }
}

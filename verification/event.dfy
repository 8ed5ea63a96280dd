/** The roster event command. Creating an event posts an embed with one field
    per team listing its members as undecided; every later reaction rebuilds
    the team fields from the like and dislike reactions and carries the rest of
    the embed over from the message being edited. */
module RosterEvent {
  import opened Discord
  import opened Text

  /** The teams, in the order of their fields. */
  const Teams: seq<string> := ["Aegis", "Bravo", "Delta", "Strider"]

  const Like: Emoji := "\U{1F44D}"
  const Dislike: Emoji := "\U{1F44E}"

  const Logo := "attachment://lince.png"
  const Briefing := Footer("Mission Briefing", Some(Logo))
  const SomethingWrong := "Something went wrong. Please try again."

  // ---------------------------------------------------------------------------
  // Status of a member

  datatype Status = Unknown | Confirmed | Declined

  /** A member's status from the like and dislike reactor sets; reacting both
      ways is ambiguous and counts as unknown. */
  function StatusOf(id: UserId, likers: set<UserId>, dislikers: set<UserId>): (s: Status)
    ensures s == Confirmed <==> id in likers && id !in dislikers
    ensures s == Declined <==> id in dislikers && id !in likers
    ensures s == Unknown <==> (id in likers <==> id in dislikers)
  {
    if id in likers && id in dislikers then Unknown
    else if id in likers then Confirmed
    else if id in dislikers then Declined
    else Unknown
  }

  function Symbol(s: Status): string
  {
    match s
    case Unknown => "\U{2754}"
    case Confirmed => "\U{2705}"
    case Declined => "\U{274C}"
  }

  /** One roster line, `- name => symbol`. */
  function Line(name: string, symbol: string): string
  {
    "- " + name + " => " + symbol
  }

  // ---------------------------------------------------------------------------
  // Identity resolver

  /** The name a member is shown under: the nickname when it is not null, otherwise the username. */
  function DisplayName(m: Member): string
  {
    m.nickname.GetOr(m.username)
  }

  /** The members of the role named after the team; none when the guild has no such role. */
  function TeamMembers(roles: seq<Role>, team: string): seq<Member>
  {
    match FirstRoleNamed(roles, team)
    case None => []
    case Some(role) => role.members
  }

  /** `getPlayers`: the team members' display names, in member order. */
  function PlayerNames(roles: seq<Role>, team: string): (names: seq<string>)
    ensures |names| == |TeamMembers(roles, team)|
    ensures FirstRoleNamed(roles, team).None? ==> names == []
  {
    var ms := TeamMembers(roles, team);
    seq(|ms|, i requires 0 <= i < |ms| => DisplayName(ms[i]))
  }

  /** `getPlayersId`: the team members' ids, in member order. */
  function PlayerIds(roles: seq<Role>, team: string): (ids: seq<UserId>)
    ensures |ids| == |TeamMembers(roles, team)|
    ensures FirstRoleNamed(roles, team).None? ==> ids == []
  {
    Ids(TeamMembers(roles, team))
  }

  /** The ids of members, in order. */
  function Ids(ms: seq<Member>): seq<UserId>
  {
    seq(|ms|, i requires 0 <= i < |ms| => ms[i].id)
  }

  /** No two members share an id. */
  predicate DistinctIds(ms: seq<Member>)
  {
    Distinct(Ids(ms))
  }

  // ---------------------------------------------------------------------------
  // A JavaScript Map from member id to display name, as its entries in insertion order

  type Entries = seq<(UserId, string)>

  function KeysOf(e: Entries): seq<UserId>
  {
    seq(|e|, i requires 0 <= i < |e| => e[i].0)
  }

  predicate Distinct(keys: seq<UserId>)
  {
    forall i, j :: 0 <= i < j < |keys| ==> keys[i] != keys[j]
  }

  /** `map.set(k, v)`: a new key goes last, an existing key keeps its place and takes the new value. */
  function Set(e: Entries, k: UserId, v: string): (r: Entries)
    requires Distinct(KeysOf(e))
    ensures k !in KeysOf(e) ==> r == e + [(k, v)]
    ensures k in KeysOf(e) ==>
              (|r| == |e| && forall i :: 0 <= i < |e| ==> r[i] == if e[i].0 == k then (k, v) else e[i])
  {
    if |e| == 0 then [(k, v)]
    else
      assert KeysOf(e) == [e[0].0] + KeysOf(e[1..]);
      assert KeysOf(e[1..]) == KeysOf(e)[1..];
      if e[0].0 == k then
        assert forall i :: 0 < i < |e| ==> e[i].0 != k by {
          forall i | 0 < i < |e| ensures e[i].0 != k {
            assert KeysOf(e)[0] != KeysOf(e)[i];
          }
        }
        [(k, v)] + e[1..]
      else [e[0]] + Set(e[1..], k, v)
  }

  /** `new Map(pairs)`: the pairs set one after the other. */
  function MapOf(pairs: Entries): (r: Entries)
    ensures Distinct(KeysOf(r))
    ensures forall k :: k in KeysOf(r) <==> k in KeysOf(pairs)
  {
    if pairs == [] then []
    else
      var init := pairs[..|pairs| - 1];
      var last := pairs[|pairs| - 1];
      var m := MapOf(init);
      assert KeysOf(pairs) == KeysOf(init) + [last.0];
      var r := Set(m, last.0, last.1);
      assert KeysOf(r) == if last.0 in KeysOf(m) then KeysOf(m) else KeysOf(m) + [last.0];
      r
  }

  /** With distinct keys, the map holds exactly the pairs, in their order. */
  lemma {:induction false} MapOfDistinct(pairs: Entries)
    requires Distinct(KeysOf(pairs))
    ensures MapOf(pairs) == pairs
  {
    if pairs != [] {
      var init := pairs[..|pairs| - 1];
      var last := pairs[|pairs| - 1];
      DistinctInit(pairs);
      MapOfDistinct(init);
      assert pairs == init + [last];
    }
  }

  /** Dropping the last pair keeps the keys distinct, and the last key is new to the rest. */
  lemma DistinctInit(pairs: Entries)
    requires pairs != [] && Distinct(KeysOf(pairs))
    ensures var init := pairs[..|pairs| - 1];
            Distinct(KeysOf(init)) && pairs[|pairs| - 1].0 !in KeysOf(init)
  {
    var init := pairs[..|pairs| - 1];
    var keys := KeysOf(pairs);
    assert KeysOf(init) == keys[..|pairs| - 1];
    forall j | 0 <= j < |init| ensures KeysOf(init)[j] != pairs[|pairs| - 1].0 {
      assert keys[j] != keys[|pairs| - 1];
    }
  }

  // ---------------------------------------------------------------------------
  // Team fields

  /** The players map of one team: member id to display name. */
  function Players(roles: seq<Role>, team: string): Entries
  {
    var ids := PlayerIds(roles, team);
    var names := PlayerNames(roles, team);
    MapOf(seq(|ids|, i requires 0 <= i < |ids| => (ids[i], names[i])))
  }

  /** One status line per entry of the team's players map. */
  function TeamLines(roles: seq<Role>, team: string, likers: set<UserId>, dislikers: set<UserId>): seq<string>
  {
    var players := Players(roles, team);
    seq(|players|, i requires 0 <= i < |players| =>
      Line(players[i].1, Symbol(StatusOf(players[i].0, likers, dislikers))))
  }

  function TeamField(roles: seq<Role>, team: string, likers: set<UserId>, dislikers: set<UserId>): Field
  {
    Field(team, Join(TeamLines(roles, team, likers, dislikers), "\n"), false)
  }

  /** The team fields an update renders: one non-inline field per team, in
      team order; a team without a role renders an empty value. */
  function TeamFields(roles: seq<Role>, likers: set<UserId>, dislikers: set<UserId>): (fields: seq<Field>)
    ensures |fields| == |Teams| == 4
    ensures forall i :: 0 <= i < |Teams| ==> fields[i].name == Teams[i] && !fields[i].inline
    ensures forall i :: 0 <= i < |Teams| && FirstRoleNamed(roles, Teams[i]).None? ==> fields[i].value == ""
  {
    seq(|Teams|, i requires 0 <= i < |Teams| => TeamField(roles, Teams[i], likers, dislikers))
  }

  /** The team field at creation: every member undecided. */
  function InitialTeamField(roles: seq<Role>, team: string): Field
  {
    var names := PlayerNames(roles, team);
    Field(team, Join(seq(|names|, i requires 0 <= i < |names| => Line(names[i], Symbol(Unknown))), "\n"), false)
  }

  function InitialTeamFields(roles: seq<Role>): seq<Field>
  {
    seq(|Teams|, i requires 0 <= i < |Teams| => InitialTeamField(roles, Teams[i]))
  }

  /** Each team lists its members in membership order, one line each, under
      the display name, with the status the reactions give. */
  lemma TeamLinesInOrder(roles: seq<Role>, team: string, likers: set<UserId>, dislikers: set<UserId>)
    requires DistinctIds(TeamMembers(roles, team))
    ensures var ms := TeamMembers(roles, team);
            var lines := TeamLines(roles, team, likers, dislikers);
            |lines| == |ms| &&
            forall i :: 0 <= i < |ms| ==>
              lines[i] == Line(ms[i].nickname.GetOr(ms[i].username), Symbol(StatusOf(ms[i].id, likers, dislikers)))
  {
    var ids := PlayerIds(roles, team);
    var names := PlayerNames(roles, team);
    var pairs := seq(|ids|, i requires 0 <= i < |ids| => (ids[i], names[i]));
    assert KeysOf(pairs) == ids;
    MapOfDistinct(pairs);
  }

  /** Display names cannot hold a line break, so the newlines of a team value
      separate exactly one line per member. */
  lemma TeamValueLineCount(roles: seq<Role>, team: string, likers: set<UserId>, dislikers: set<UserId>)
    requires DistinctIds(TeamMembers(roles, team))
    requires forall m :: m in TeamMembers(roles, team) ==> CountChar(DisplayName(m), '\n') == 0
    ensures var n := |TeamMembers(roles, team)|;
            var value := TeamField(roles, team, likers, dislikers).value;
            (n == 0 ==> value == "") && (n > 0 ==> CountChar(value, '\n') == n - 1)
  {
    var ms := TeamMembers(roles, team);
    var lines := TeamLines(roles, team, likers, dislikers);
    TeamLinesInOrder(roles, team, likers, dislikers);
    if |ms| > 0 {
      forall i | 0 <= i < |lines| ensures CountChar(lines[i], '\n') == 0 {
        assert ms[i] in ms;
        LineHasNoBreak(DisplayName(ms[i]), StatusOf(ms[i].id, likers, dislikers));
      }
      JoinSeparatorCount(lines, '\n');
    }
  }

  /** A roster line for a name without a line break has none. */
  lemma LineHasNoBreak(name: string, status: Status)
    requires CountChar(name, '\n') == 0
    ensures CountChar(Line(name, Symbol(status)), '\n') == 0
  {
    CountCharZero(name, '\n');
    CountCharZero(Line(name, Symbol(status)), '\n');
  }

  /** At creation every member is shown undecided: the creation fields are the
      update fields with no reactions at all. */
  lemma CreationShowsAllUnknown(roles: seq<Role>)
    requires forall t :: t in Teams ==> DistinctIds(TeamMembers(roles, t))
    ensures InitialTeamFields(roles) == TeamFields(roles, {}, {})
  {
    forall i | 0 <= i < |Teams|
      ensures InitialTeamField(roles, Teams[i]) == TeamField(roles, Teams[i], {}, {})
    {
      assert Teams[i] in Teams;
      CreationFieldUnknown(roles, Teams[i]);
    }
  }

  /** One team's creation field is its update field without reactions. */
  lemma CreationFieldUnknown(roles: seq<Role>, team: string)
    requires DistinctIds(TeamMembers(roles, team))
    ensures InitialTeamField(roles, team) == TeamField(roles, team, {}, {})
  {
    TeamLinesInOrder(roles, team, {}, {});
    var names := PlayerNames(roles, team);
    assert seq(|names|, i requires 0 <= i < |names| => Line(names[i], Symbol(Unknown))) ==
           TeamLines(roles, team, {}, {});
  }

  // ---------------------------------------------------------------------------
  // Creation

  /** The creation command's options; `None` is an option delivered as null.
      The channel is given by its name and the image attachment by its url. */
  datatype Options = Options(
    channel: Option<string>,
    name: Option<string>,
    date: Option<string>,
    editor: Option<UserId>,
    description: Option<string>,
    image: Option<string>,
    link: Option<string>)

  /** The guard on the options: objects must be present, strings non-empty. */
  predicate MissingOption(o: Options)
  {
    o.channel.None? || Falsy(o.name) || Falsy(o.date) || o.editor.None? ||
    Falsy(o.description) || o.image.None? || Falsy(o.link)
  }

  function CreatedEmbed(o: Options, editorName: string, teams: seq<Field>): Embed
    requires !MissingOption(o)
  {
    Embed(Some(o.name.value), Some(o.link.value), Some(editorName), Some(o.description.value), Some(Logo),
          [Field("Date", o.date.value, true), Field("Editor", editorName, true)] + teams,
          Some(o.image.value), Some(Briefing))
  }

  /** `execute`. `editor` is the guild member fetched for the editor option
      (None when there is none) and `guild` the guild's roles (None outside a guild). */
  function Execute(o: Options, editor: Option<Member>, guild: Option<seq<Role>>): (effects: seq<Effect>)
    ensures MissingOption(o) ==> effects == [Reply(SomethingWrong, true)]
    ensures Posts(effects) <==>
              !MissingOption(o) && editor.Some? && !Falsy(editor.value.nickname) && guild.Some?
    ensures !Posts(effects) ==> effects == [Reply(SomethingWrong, true)]
    ensures Posts(effects) ==>
              |effects| == 5 && o.channel.Some? && effects[0] == Reply("Event created in " + o.channel.value, true) &&
              effects[1] == Send(CreatedEmbed(o, editor.value.nickname.value, InitialTeamFields(guild.value)), true) &&
              effects[2..] == [RemoveAllReactions, React(Like), React(Dislike)]
  {
    if MissingOption(o) then [Reply(SomethingWrong, true)]
    else if editor.None? || Falsy(editor.value.nickname) then [Reply(SomethingWrong, true)]
    else if guild.None? then [Reply(SomethingWrong, true)]
    else
      var nickname := editor.value.nickname.value;
      var embed := CreatedEmbed(o, nickname, InitialTeamFields(guild.value));
      var effects := [Reply("Event created in " + o.channel.value, true), Send(embed, true),
                      RemoveAllReactions, React(Like), React(Dislike)];
      assert effects[1].Send?;
      effects
  }

  // ---------------------------------------------------------------------------
  // Update

  /** The embed an update writes: everything but the team fields is copied
      from the prior embed; None when the prior embed lacks the Date and
      Editor fields the copy reads. */
  function Rebuild(prior: Embed, teams: seq<Field>): Option<Embed>
  {
    if |prior.fields| < 2 then None
    else Some(Embed(prior.title, prior.url, Some(prior.author.GetOr("")), prior.description, Some(Logo),
                    [Field("Date", prior.fields[0].value, true), Field("Editor", prior.fields[1].value, true)] + teams,
                    Some(prior.image.GetOr("")), Some(Briefing)))
  }

  /** What an update never recomputes. */
  datatype Metadata = Metadata(
    title: Option<string>, url: Option<string>, author: Option<string>, description: Option<string>,
    date: string, editor: string, image: Option<string>)

  function MetadataOf(e: Embed): Metadata
    requires |e.fields| >= 2
  {
    Metadata(e.title, e.url, e.author, e.description, e.fields[0].value, e.fields[1].value, e.image)
  }

  /** An embed as the roster event posts it. */
  predicate Posted(e: Embed)
  {
    |e.fields| >= 2 && e.author.Some? && e.image.Some?
  }

  /** An update keeps every piece of metadata, puts Date and Editor first and
      the new team fields after them, and yields an embed of the same shape. */
  lemma RebuildKeepsMetadata(prior: Embed, teams: seq<Field>)
    requires Posted(prior)
    ensures Rebuild(prior, teams).Some?
    ensures var e := Rebuild(prior, teams).value;
            Posted(e) && MetadataOf(e) == MetadataOf(prior) &&
            e.thumbnail == Some(Logo) && e.footer == Some(Briefing) &&
            e.fields[0].name == "Date" && e.fields[1].name == "Editor" && e.fields[2..] == teams
  {
  }

  /** Rebuilding from an unchanged reaction snapshot changes nothing. */
  lemma RebuildIdempotent(prior: Embed, teams: seq<Field>)
    requires |prior.fields| >= 2
    ensures Rebuild(prior, teams).Some?
    ensures Rebuild(Rebuild(prior, teams).value, teams) == Rebuild(prior, teams)
  {
  }

  /** Successive updates, one per reaction snapshot. */
  function Replay(e: Embed, snapshots: seq<seq<Field>>): Option<Embed>
    decreases |snapshots|
  {
    if snapshots == [] then Some(e)
    else match Rebuild(e, snapshots[0])
         case None => None
         case Some(next) => Replay(next, snapshots[1..])
  }

  /** However many updates follow the creation, the embed keeps the creation's
      title, link, author, description, date, editor and image, and shows the
      team fields of the last snapshot. */
  lemma {:induction false} MetadataSurvivesUpdates(e: Embed, snapshots: seq<seq<Field>>)
    requires Posted(e)
    decreases |snapshots|
    ensures Replay(e, snapshots).Some?
    ensures var r := Replay(e, snapshots).value;
            Posted(r) && MetadataOf(r) == MetadataOf(e) &&
            r.fields[2..] == (if snapshots == [] then e.fields[2..] else snapshots[|snapshots| - 1]) &&
            r.thumbnail == (if snapshots == [] then e.thumbnail else Some(Logo)) &&
            r.footer == (if snapshots == [] then e.footer else Some(Briefing))
  {
    if snapshots != [] {
      RebuildKeepsMetadata(e, snapshots[0]);
      var next := Rebuild(e, snapshots[0]).value;
      MetadataSurvivesUpdates(next, snapshots[1..]);
      if |snapshots| > 1 {
        assert snapshots[1..][|snapshots| - 2] == snapshots[|snapshots| - 1];
      }
    }
  }

  /** The creation embed keeps what the command was given through any updates. */
  lemma CreationDetailsSurvive(o: Options, editorName: string, roles: seq<Role>, snapshots: seq<seq<Field>>)
    requires !MissingOption(o)
    ensures var e := CreatedEmbed(o, editorName, InitialTeamFields(roles));
            Replay(e, snapshots).Some? && |Replay(e, snapshots).value.fields| >= 2 &&
            MetadataOf(Replay(e, snapshots).value) ==
              Metadata(o.name, o.link, Some(editorName), o.description, o.date.value, editorName, o.image) &&
            Replay(e, snapshots).value.thumbnail == Some(Logo) && Replay(e, snapshots).value.footer == Some(Briefing)
  {
    var e := CreatedEmbed(o, editorName, InitialTeamFields(roles));
    MetadataSurvivesUpdates(e, snapshots);
  }

  /** The ids of the users who applied `emoji`; none when the message has no such reaction. */
  function Reactors(reactions: map<Emoji, seq<User>>, emoji: Emoji): set<UserId>
  {
    if emoji in reactions then set u | u in reactions[emoji] :: u.id else {}
  }

  /** `onReaction`: a reaction by a person re-renders the message's embed. */
  method OnReaction(msg: Message, user: User, guild: Option<seq<Role>>) returns (outcome: Outcome)
    modifies msg
    ensures msg.reactions == old(msg.reactions)
    ensures outcome == IgnoredBot <==> user.bot
    ensures outcome == NoGuild <==> !user.bot && guild.None?
    ensures outcome == Edited <==>
              !user.bot && guild.Some? && |old(msg.embeds)| > 0 && |old(msg.embeds)[0].fields| >= 2
    ensures outcome == Crashed <==>
              !user.bot && guild.Some? && (|old(msg.embeds)| == 0 || |old(msg.embeds)[0].fields| < 2)
    ensures outcome != Aborted
    ensures outcome != Edited ==> msg.embeds == old(msg.embeds)
    ensures outcome == Edited ==>
              msg.embeds == [Rebuild(old(msg.embeds)[0],
                                     TeamFields(guild.value, Reactors(msg.reactions, Like),
                                                Reactors(msg.reactions, Dislike))).value]
  {
    if user.bot {
      return IgnoredBot;
    }
    var likers := Reactors(msg.reactions, Like);
    var dislikers := Reactors(msg.reactions, Dislike);
    if guild.None? {
      return NoGuild;
    }
    var teams := TeamFields(guild.value, likers, dislikers);
    if |msg.embeds| == 0 || |msg.embeds[0].fields| < 2 {
      return Crashed;
    }
    msg.embeds := [Rebuild(msg.embeds[0], teams).value];
    return Edited;
  }

  // ---------------------------------------------------------------------------
  // Worked scenarios

  /** One member in Aegis and no reactions yet: the member is undecided. */
  lemma ScenarioNoReactions()
    ensures var roles := [Role("r1", "Aegis", [Member("p1", None, "P1")])];
            var f := TeamFields(roles, {}, {});
            f[0].value == "- P1 => \U{2754}" && f[1].value == f[2].value == f[3].value == ""
  {
    var roles := [Role("r1", "Aegis", [Member("p1", None, "P1")])];
    TeamLinesInOrder(roles, "Aegis", {}, {});
  }

  /** The member likes: confirmed; then also dislikes: back to undecided. */
  lemma ScenarioLikeThenBoth()
    ensures var roles := [Role("r1", "Aegis", [Member("p1", None, "P1")])];
            TeamFields(roles, {"p1"}, {})[0].value == "- P1 => \U{2705}" &&
            TeamFields(roles, {"p1"}, {"p1"})[0].value == "- P1 => \U{2754}"
  {
    var roles := [Role("r1", "Aegis", [Member("p1", None, "P1")])];
    TeamLinesInOrder(roles, "Aegis", {"p1"}, {});
    TeamLinesInOrder(roles, "Aegis", {"p1"}, {"p1"});
  }
}

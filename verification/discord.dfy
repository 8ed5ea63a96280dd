/** The chat platform's entities as the two event commands see them:
    users and guild members, roles, embed documents, the effects a command
    handler performs, and the message whose embed a reaction handler edits. */
module Discord {

  datatype Option<+T> = None | Some(value: T) {
    /** The JavaScript `x ?? d`: the value when present, otherwise `d`. */
    function GetOr(default: T): T
    {
      match this
      case Some(v) => v
      case None => default
    }
  }

  /** Snowflake ids are carried as strings. */
  type UserId = string

  /** A reaction symbol, as the string the platform reports for it. */
  type Emoji = string

  /** JavaScript falsiness of an optional string option: null and "" are both falsy. */
  predicate Falsy(o: Option<string>)
  {
    o.None? || o.value == ""
  }

  /** An account as it appears in a reaction's user list. */
  datatype User = User(id: UserId, bot: bool)

  /** A guild member: account id, per-guild nickname (possibly absent) and global username. */
  datatype Member = Member(id: UserId, nickname: Option<string>, username: string)

  /** A guild role and its members, in the order the role's member collection yields them. */
  datatype Role = Role(id: string, name: string, members: seq<Member>)

  /** The first role, in collection order, whose name is `name` (`filter(...).first()` or `find(...)`). */
  function FirstRoleNamed(roles: seq<Role>, name: string): (r: Option<Role>)
    ensures r.None? <==> forall k :: 0 <= k < |roles| ==> roles[k].name != name
    ensures r.Some? ==> exists k :: 0 <= k < |roles| && roles[k] == r.value && r.value.name == name &&
                                    forall j :: 0 <= j < k ==> roles[j].name != name
  {
    if roles == [] then None
    else if roles[0].name == name then Some(roles[0])
    else
      var r := FirstRoleNamed(roles[1..], name);
      assert r.Some? ==> exists k :: 0 <= k < |roles| && roles[k] == r.value && r.value.name == name &&
                                     forall j :: 0 <= j < k ==> roles[j].name != name by {
        if r.Some? {
          var k :| 0 <= k < |roles[1..]| && roles[1..][k] == r.value && r.value.name == name &&
                   forall j :: 0 <= j < k ==> roles[1..][j].name != name;
          assert roles[k + 1] == r.value;
          forall j | 0 <= j < k + 1 ensures roles[j].name != name {
            if j > 0 { assert roles[j] == roles[1..][j - 1]; }
          }
        }
      }
      r
  }

  /** One field of an embed. */
  datatype Field = Field(name: string, value: string, inline: bool)

  datatype Footer = Footer(text: string, iconUrl: Option<string>)

  /** An embed document. Colour and timestamp are not modelled. */
  datatype Embed = Embed(
    title: Option<string>,
    url: Option<string>,
    author: Option<string>,
    description: Option<string>,
    thumbnail: Option<string>,
    fields: seq<Field>,
    image: Option<string>,
    footer: Option<Footer>)

  /** What a command handler does to the outside world, in order. */
  datatype Effect =
    | Reply(content: string, ephemeral: bool)
    | Send(embed: Embed, attachesLogo: bool)
    | RemoveAllReactions
    | React(emoji: Emoji)

  /** True when the effects post a public message. */
  predicate Posts(effects: seq<Effect>)
  {
    exists k :: 0 <= k < |effects| && effects[k].Send?
  }

  /** How a reaction handler ended. */
  datatype Outcome =
    | IgnoredBot     // the reacting user is a bot
    | NoGuild        // the message is not in a guild
    | Aborted        // a reaction the render needs is missing: nothing rendered
    | Crashed        // the prior embed lacks a part the rebuild reads
    | Edited         // the message's embed was replaced

  /** A posted message: its embeds, which a reaction handler replaces, and its
      reaction cache, from each symbol to the users who applied it. */
  class Message {
    var embeds: seq<Embed>
    var reactions: map<Emoji, seq<User>>

    constructor (embeds: seq<Embed>, reactions: map<Emoji, seq<User>>)
      ensures this.embeds == embeds && this.reactions == reactions
    {
      this.embeds := embeds;
      this.reactions := reactions;
    }
  }
}

# Lince Discord bot: event projectors and console-line cleaner

This project models three parts of the bot:

- **The roster event** (`/event`). Creating an event posts an embed with one field per team: Aegis, Bravo, Delta and Strider. Each field lists the members of the team's role as undecided (`- name => ❔`). The command then seeds the 👍 and 👎 reactions. Every later reaction by a person rebuilds the four team fields from the likers and dislikers:
  - liked only: ✅
  - disliked only: ❌
  - both or neither: ❔

  The update copies from the message being edited:
  - the title, link and description;
  - the author and the image, each becoming empty when missing;
  - the values of its first two fields, which are re-labelled Date and Editor.

  The update writes the thumbnail, the footer, the field names and their inline flags anew, as the same constants the creation uses.
- **The schedule poll** (`/f1event`). Creating a poll posts an embed with a fixed table of seven race slots over three days, each bound to a keycap reaction (1⃣ to 7⃣). Every later reaction by a person re-renders the poll:
  - each slot line shows its vote count and mentions its voters;
  - a running maximum taken with `>=` selects the slot with the most votes, and the last slot scanned wins a tie;
  - the selected slot is shown under "Date Selected".

  If the message's reaction cache lacks any of the seven reactions, the update stops and renders nothing.
- **The console-line cleaner** (`parseMessage`) of the log-shipping middleware. It takes a console line whose colour codes have been stripped. If the line has at least two `>`, it returns the trimmed text after the second one; otherwise it returns the line unchanged.

Modules:

- `Discord` (discord.dfy): the platform's entities as the commands see them, and the posted message as a class whose embeds a reaction handler replaces.
- `Text` (text.dfy): the JavaScript string operations the commands rely on. These are `Array.prototype.join`, the decimal printing of a count, and character counting.
- `RosterEvent` (event.dfy): the roster event.
  - The status rule, the identity resolver (`nickname ?? username`), and an insertion-ordered model of the JavaScript `Map` the update builds.
  - The team fields, and creation as a list of effects.
  - The rebuild of the embed, and the reaction handler as a method over the message.
- `ScheduleEvent` (f1event.dfy): the schedule poll.
  - The slot table, and the tally loop.
  - The nested scan loop with its running maximum and early exit.
  - The creation layout loop and the option-error accumulation.
  - The reaction handler.
- `ConsoleLine` (pterodactyl.dfy): `parseMessage`, with `indexOf`, `includes`, `substring` and `trim` as ECMAScript defines them.

Inputs taken from the platform are parameters:

- the guild's roles with their members;
- the member fetched for the editor or organiser;
- whether the message belongs to a guild;
- the message's reaction cache, from each symbol to the users who applied it.

A creation command yields the sequence of effects it performs: replies, the message it sends, and reactions. A reaction handler edits the `Message` object it is given and returns how it ended.

Three details of the model follow the code closely:

- The label under "Date Selected" is the slot line itself, built from the day key, as in `sabado - 18:30 (3)`. It is not the accented legend name.
- A reaction missing from the cache has no entry in the tally, so the update stops. Only a reaction that is present but has no people maps to an empty voter list.
- A slot's value is the mention list as JavaScript prints an array inside a template literal: the entries `<@id>\n` joined by commas.

## Model

| member | source | states |
|---|---|---|
| Discord.FirstRoleNamed | src/commands/event/index.ts:19-22 | No role is found exactly when no role has the name; otherwise the result is the first role in collection order that has it |
| RosterEvent.StatusOf | src/commands/event/index.ts:322-330 | ✅ exactly when liked and not disliked, ❌ exactly when disliked and not liked, ❔ exactly when both or neither |
| RosterEvent.PlayerNames | src/commands/event/index.ts:17-34 | One display name per member of the team's role; none when the guild has no role of that name |
| RosterEvent.PlayerIds | src/commands/event/index.ts:36-51 | One id per member of the team's role; none when the guild has no role of that name |
| RosterEvent.Set | src/commands/event/index.ts:317-319 | `Map.prototype.set`: a new key goes last; an existing key keeps its place and takes the new value; every other entry is unchanged |
| RosterEvent.MapOf | src/commands/event/index.ts:317-319 | The keys of `new Map(pairs)` are distinct and are exactly the keys of the pairs |
| RosterEvent.MapOfDistinct | src/commands/event/index.ts:317-320 | With distinct ids, the map's entries are the id/name pairs themselves, in member order |
| RosterEvent.TeamFields | src/commands/event/index.ts:313-338 | An update renders exactly four fields, named in team order and not inline; a team without a role renders an empty value |
| RosterEvent.TeamLinesInOrder | src/commands/event/index.ts:313-331 | One line per member, in membership order: `- name => symbol`, where the name is the nickname (the username when the nickname is null) and the symbol comes from the status rule |
| RosterEvent.TeamValueLineCount | src/commands/event/index.ts:320-335 | A team value is empty without members; otherwise its line breaks separate exactly one line per member |
| RosterEvent.CreationShowsAllUnknown | src/commands/event/index.ts:222-229 | The creation fields equal the update fields with no likers and no dislikers: every member shows ❔ |
| RosterEvent.Execute | src/commands/event/index.ts:186-278 | A null or empty option gives one ephemeral error reply and nothing else. A message is posted exactly when every option, the editor's nickname and the guild are present; otherwise the only effect is the error reply. A posted event is an ephemeral `Event created in <channel>` confirmation, the embed with the creation team fields and the logo, removal of all reactions, then 👍 and 👎 |
| RosterEvent.RebuildKeepsMetadata | src/commands/event/index.ts:343-370 | An update keeps title, url, author, description, the Date and Editor values and the image. The thumbnail is the logo and the footer is the mission briefing. It puts Date and Editor first and the new team fields after them, and the result can be updated again |
| RosterEvent.RebuildIdempotent | src/commands/event/index.ts:343-370 | Rebuilding from an unchanged reaction snapshot changes nothing |
| RosterEvent.MetadataSurvivesUpdates | src/commands/event/index.ts:343-370 | Any number of updates keeps the metadata of the first embed and shows the team fields of the last snapshot. After at least one update, the thumbnail is the logo and the footer is the mission briefing |
| RosterEvent.CreationDetailsSurvive | src/commands/event/index.ts:234-253 | Through any number of updates, the embed keeps the name, link, editor, description, date and image the event was created with, the logo thumbnail and the mission-briefing footer |
| RosterEvent.OnReaction | src/commands/event/index.ts:280-382 | A bot's reaction is ignored and a message outside a guild is left alone. Otherwise the embed is replaced exactly when the prior embed has at least two fields. Those two fields' values are copied as Date and Editor, whatever their names. The new embed is the rebuild with the team fields from the current 👍 and 👎 reactors. The handler crashes exactly when a guild message has no embed or a first embed with fewer than two fields, and it never aborts. In every other case the embeds are unchanged, and the reactions are never touched |
| RosterEvent.ScenarioNoReactions | src/commands/event/index.ts:313-337 | A single Aegis member with no reactions shows `- P1 => ❔`, and the other three teams are empty |
| RosterEvent.ScenarioLikeThenBoth | src/commands/event/index.ts:322-330 | A like makes the member ✅; a like plus a dislike makes the member ❔ again |
| Text.JoinSeparatorCount | src/commands/event/index.ts:335 | Joining lines that contain no line break with `"\n"` yields exactly one break fewer than there are lines |
| Text.JoinContains | src/commands/f1event/index.ts:238-240 | Every part of an array join occurs in the joined string |
| Text.NatToStringRoundTrip | src/commands/f1event/index.ts:232-235 | The printed count reads back as the count |
| ScheduleEvent.ScanOrder | src/commands/f1event/index.ts:11-24 | The scan visits seven slots: Friday's three, Saturday's three, then Sunday's one, each with its keycap reaction |
| ScheduleEvent.ScanReactions | src/commands/f1event/index.ts:195 | The scan's slot reactions are the attached reactions, in the order they are attached |
| ScheduleEvent.NonBot | src/commands/f1event/index.ts:202-203 | Keeps exactly the users that are not bots, and never more users than it was given |
| ScheduleEvent.NonBotCounts | src/commands/f1event/index.ts:202-203 | Each person is kept as often as they occur, and every bot is dropped. So the result's length, the shown count, is the number of people who reacted |
| ScheduleEvent.NonBotConcat | src/commands/f1event/index.ts:202-203 | Filtering keeps the users' order: the filter of a concatenation is the concatenation of the filters, so mentions follow the cache order |
| ScheduleEvent.BuildTally | src/commands/f1event/index.ts:198-207 | The tally loop: a symbol the cache holds maps to its non-bot users, possibly none; a symbol it lacks has no entry |
| ScheduleEvent.TallyCountsPeople | src/commands/f1event/index.ts:199-206 | A tally entry exists only for an attached reaction in the cache, and a user is counted under it exactly when the user reacted and is not a bot |
| ScheduleEvent.AllPresentIff | src/commands/f1event/index.ts:225-228 | The scan finds an entry for every slot exactly when every attached reaction has a tally entry |
| ScheduleEvent.LastArgMax | src/commands/f1event/index.ts:230-233 | The scan ends on an index whose count is the maximum and after which every count is strictly smaller |
| ScheduleEvent.LastArgMaxUnique | src/commands/f1event/index.ts:230-233 | The maximum with no equal count after it is the only index the selection can end on |
| ScheduleEvent.ScanSelectsLastMax | src/commands/f1event/index.ts:214-233 | The running scan ends with the highest count and with the label of the last slot holding it |
| ScheduleEvent.CountsFollowReactions | src/commands/f1event/index.ts:224-229 | The count of the i-th slot is the number of voters of the i-th attached reaction |
| ScheduleEvent.MentionsEveryVoter | src/commands/f1event/index.ts:238-240 | Every voter's `<@id>` mention followed by a line break occurs in the mention list |
| ScheduleEvent.SlotFieldsAt | src/commands/f1event/index.ts:234-243 | The i-th slot field belongs to the i-th slot, with that slot's voters |
| ScheduleEvent.SlotFieldShowsVoters | src/commands/f1event/index.ts:234-243 | A slot field is labelled `day - hour (count)` with its number of voters and is not inline. Its value is a zero-width space when there are no voters, and it mentions every voter otherwise |
| ScheduleEvent.SlotShown | src/commands/f1event/index.ts:214-249 | The re-render has thirteen dynamic fields, with a separator opening each day. The i-th slot is shown at its position with the voters of the i-th attached reaction |
| ScheduleEvent.ShownCountIsPeople | src/commands/f1event/index.ts:199-235 | The count a re-render shows for a slot is the number of people, not bots, who applied its reaction |
| ScheduleEvent.ScanDay | src/commands/f1event/index.ts:222-244 | The inner loop over a day's times fails exactly when a time's reaction has no tally entry. Otherwise it yields the day's slot fields and carries the running maximum and selection through the day |
| ScheduleEvent.ScanDays | src/commands/f1event/index.ts:214-249 | The nested scan renders nothing exactly when some slot's reaction has no tally entry. Otherwise it renders the day blocks, a separator, "Date Selected" with the selection, and a separator |
| ScheduleEvent.LayOutDays | src/commands/f1event/index.ts:120-134 | The creation loops lay out a separator and the day's slots labelled `(0)` per day, then a closing separator |
| ScheduleEvent.InitialLayoutShape | src/commands/f1event/index.ts:120-134 | A new poll has eleven slot fields: separators at 0, 4, 8 and 10, and each slot at its position labelled `day - hour (0)` with a zero-width space value |
| ScheduleEvent.NoVotesFieldsAreInitial | src/commands/f1event/index.ts:234-243 | Slots nobody voted for render exactly as at creation |
| ScheduleEvent.NoVotesBlocksAreInitial | src/commands/f1event/index.ts:218-246 | Days nobody voted on render exactly as at creation |
| ScheduleEvent.SelectedWithoutVotes | src/commands/f1event/index.ts:230-233 | With all counts zero, the selection is `domingo - 16:30 (0)` |
| ScheduleEvent.FirstRenderWithoutVotes | src/commands/f1event/index.ts:214-249 | A first update without votes shows the creation layout and then the selection `domingo - 16:30 (0)` between separators |
| ScheduleEvent.CheckOptions | src/commands/f1event/index.ts:80-90 | An error exactly when the channel or circuit is null or empty. The message is `Channel is null\n`, `Circuit is null\n`, or both in that order |
| ScheduleEvent.Execute | src/commands/f1event/index.ts:74-187 | An option error gives one ephemeral reply and nothing else. A poll is posted exactly when the options, the organiser's nickname and the guild are present; otherwise the only effect is the generic error reply. A posted poll is a confirmation, the embed with the creation layout, removal of all reactions, then the seven keycaps in order |
| ScheduleEvent.UpdateKeepsFrame | src/commands/f1event/index.ts:247-265 | An update keeps the title and description and lays out twenty fields: the slot lines, "Date Selected" between two separators, then the unchanged legend |
| ScheduleEvent.UpdateIdempotent | src/commands/f1event/index.ts:252-265 | Re-rendering an updated embed from the same slot fields changes nothing, and the slot fields come first |
| ScheduleEvent.OnReaction | src/commands/f1event/index.ts:188-275 | A bot's reaction is ignored and a message outside a guild is left alone. A missing attached reaction aborts. Otherwise, when there is a prior embed, it is replaced by the re-render of the current tally. In every other case the embeds are unchanged, and the reactions are never touched |
| ScheduleEvent.TieGoesToLastSlot | src/commands/f1event/index.ts:230-233 | With counts tied at the maximum, the last slot reaching it is selected |
| ScheduleEvent.ThreeVotesWin | src/commands/f1event/index.ts:214-233 | Three votes on Saturday 18:30 and one on Friday 16:30 select `sabado - 18:30 (3)` |
| ConsoleLine.IndexOf | src/pterodactyl.ts:28-31 | `indexOf` yields -1 exactly when the character does not occur from the start position on; otherwise it yields its first occurrence there |
| ConsoleLine.TrimStartSkipsRun | src/pterodactyl.ts:33 | `trim` skips exactly the leading run of ECMAScript whitespace and line terminators |
| ConsoleLine.TrimEndDropsRun | src/pterodactyl.ts:33 | `trim` drops exactly the trailing run of ECMAScript whitespace and line terminators |
| ConsoleLine.TwoMarks | src/pterodactyl.ts:28 | The guard holds, so that a `>` follows the first `>`, exactly when the line has at least two `>` |
| ConsoleLine.FewerThanTwoMarksUnchanged | src/pterodactyl.ts:27-35 | A line with fewer than two `>` is returned unchanged |
| ConsoleLine.CutAfterSecondMark | src/pterodactyl.ts:28-33 | A line with two or more `>` becomes the trimmed text after the position of its second `>` |
| ConsoleLine.LaterMarksSurvive | src/pterodactyl.ts:29-33 | Only the first two `>` are consumed: the result holds every later one |
| ConsoleLine.TrimKeepsCount | src/pterodactyl.ts:33 | Trimming keeps every occurrence of a character that is not whitespace |
| ConsoleLine.CutIsTrimmed | src/pterodactyl.ts:33 | When the cut applies, the result neither starts nor ends with whitespace |
| ConsoleLine.TrimmedEnds | src/pterodactyl.ts:33 | A trimmed string neither starts nor ends with whitespace |
| ConsoleLine.CutIsInfix | src/pterodactyl.ts:29-33 | When the cut applies, the result is a contiguous piece of the line |
| ConsoleLine.ResultIsSubstring | src/pterodactyl.ts:26-36 | The result is always a contiguous piece of the stripped line, so it is never longer |

## Left out

- Calls to the platform client are not modelled; what they return enters as parameters. These are the role, member, message and reaction fetches, `send`, `edit`, `react`, `removeAll` and `interaction.reply`. The effects a command performs are returned as a list, in order.
- Asynchrony is not modelled. `Promise.all` over the teams is a sequential map. Two reaction handlers running at once, and an edit lost between them, are not modelled.
- The roster update fetches the reaction users, and the poll update reads them from the cache. Both are modelled as one reaction map from each symbol to its users.
- `writeToDB` persistence of the posted message id is not modelled; it has no effect on the embed.
- The embed colour and the timestamp are not modelled; the timestamp is the wall clock. The logo attachment is modelled only as a flag on the send. Its file path and content are not modelled.
- Command names, option declarations and localisation tables are static configuration and are not modelled.
- The poll's organiser is a fixed member id in the code; the model takes the fetched member as a parameter.
- The poll's description renders the cup role as its mention text `<@&id>`. The platform's own stringification of a role is not modelled beyond that.
- The rest of src/pterodactyl.ts is not part of this model: panel requests, the websocket, token refresh, Elasticsearch and environment variables. The colour-code stripper is a library; `ConsoleLine.ParseMessage` takes its output.
- src/server.ts (process bootstrap) and src/types/discord/types.ts (a type alias) are not part of this model.
- Strings are sequences of Unicode characters. JavaScript indexes strings by UTF-16 code units. The model's results are the same for every input, because `>` and every trimmed character lie in the Basic Multilingual Plane. A line or display name holding astral characters has different string positions, but the model does not expose positions.
- Both update handlers would throw when the prior embed lacks a part they read: `embeds[0]`, or the roster's Date and Editor fields. This is modelled as the `Crashed` outcome, which leaves the message unchanged.
- RosterEvent.TeamLinesInOrder: requires the team's member ids to be distinct. The role's member collection is keyed by id, so they are; `RosterEvent.MapOf` models what duplicates would do.
- ScheduleEvent.SlotFieldShowsVoters: states that every voter's mention occurs in the value. It does not state the exact comma-joined text, which `ScheduleEvent.Mentions` defines.
- ScheduleEvent.Execute: for an option error, the contract states a single ephemeral reply. Its text is stated by `ScheduleEvent.CheckOptions`, which computes it.

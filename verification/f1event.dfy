/** The schedule-poll command. Creating a poll posts an embed with one line per
    race slot and attaches one keycap reaction per slot; every later reaction
    re-renders the slot lines with their live counts and mentions and selects
    the slot with the most votes, the last one scanned winning a tie. */
module ScheduleEvent {
  import opened Discord
  import opened Text

  /** One race time of a day and the reaction that votes for it. */
  datatype Time = Time(hour: string, reaction: Emoji)

  /** A race day, by its key, and its times in order. */
  datatype Day = Day(key: string, times: seq<Time>)

  /** A keycap emoji: the digit followed by the combining enclosing keycap. */
  function Keycap(d: char): Emoji
  {
    [d, '\U{20E3}']
  }

  /** The race days and their times, in scan order. */
  const Dates: seq<Day> := [
    Day("viernes", [Time("16:30", Keycap('1')), Time("18:30", Keycap('2')), Time("22:00", Keycap('3'))]),
    Day("sabado", [Time("16:30", Keycap('4')), Time("18:30", Keycap('5')), Time("22:00", Keycap('6'))]),
    Day("domingo", [Time("16:30", Keycap('7'))])
  ]

  /** The reactions the command attaches and the update reads, in order. */
  const Reactions: seq<Emoji> :=
    [Keycap('1'), Keycap('2'), Keycap('3'), Keycap('4'), Keycap('5'), Keycap('6'), Keycap('7')]

  const ZeroWidthSpace := "\U{200B}"
  const Separator := Field("============", ZeroWidthSpace, false)
  const CupRole := "Lynx F1 Cup"
  const RaceFooter := Footer("F1 Race", None)
  const SomethingWrong := "Something went wrong. Please try again."

  /** The seven legend fields that close every version of the embed. */
  const Legend: seq<Field> := [
    Field("Viernes 16:30", ":one:", true),
    Field("Viernes 18:30", ":two:", true),
    Field("Viernes 22:00", ":three:", true),
    Field("S\U{E1}bado 16:30", ":four:", true),
    Field("S\U{E1}bado 18:30", ":five:", true),
    Field("S\U{E1}bado 22:00", ":six:", true),
    Field("Domingo 16:30", ":seven:", true)
  ]

  // ---------------------------------------------------------------------------
  // Slots in scan order

  /** A slot: a day key, an hour, and the reaction that votes for it. */
  datatype Slot = Slot(day: string, hour: string, reaction: Emoji)

  function DaySlots(d: Day): (r: seq<Slot>)
    ensures |r| == |d.times|
  {
    seq(|d.times|, i requires 0 <= i < |d.times| => Slot(d.key, d.times[i].hour, d.times[i].reaction))
  }

  /** The slots of the days, day by day, each day's times in order. */
  function Slots(ds: seq<Day>): seq<Slot>
  {
    if ds == [] then [] else Slots(ds[..|ds| - 1]) + DaySlots(ds[|ds| - 1])
  }

  /** The slots of a prefix of the days come first among the slots of all days. */
  lemma {:induction false} SlotsPrefix(ds: seq<Day>, k: nat)
    requires k <= |ds|
    ensures Slots(ds[..k]) <= Slots(ds)
  {
    if k < |ds| {
      var init := ds[..|ds| - 1];
      SlotsPrefix(init, k);
      assert init[..k] == ds[..k];
    } else {
      assert ds[..k] == ds;
    }
  }

  /** Every slot of a day is among the slots of the days. */
  lemma DayInSlots(ds: seq<Day>, d: nat)
    requires d < |ds|
    ensures forall s :: s in DaySlots(ds[d]) ==> s in Slots(ds)
  {
    SlotsPrefix(ds, d + 1);
    assert ds[..d + 1][..d] == ds[..d];
  }

  /** The slots of the race days: Friday's, then Saturday's, then Sunday's. */
  lemma SlotsOfDates()
    ensures Slots(Dates) == DaySlots(Dates[0]) + DaySlots(Dates[1]) + DaySlots(Dates[2])
  {
    var d1, d2 := Dates[..1], Dates[..2];
    assert d1[..0] == [] && d1[0] == Dates[0];
    assert Slots(d1) == DaySlots(Dates[0]);
    assert d2[..1] == d1 && d2[1] == Dates[1];
    assert Slots(d2) == Slots(d1) + DaySlots(Dates[1]);
    assert Dates[..2] == d2;
  }

  /** The scan visits seven slots, Friday first, and reads exactly the
      reactions the command attaches, in the order it attaches them. */
  lemma ScanOrder()
    ensures Slots(Dates) == [
      Slot("viernes", "16:30", Reactions[0]), Slot("viernes", "18:30", Reactions[1]),
      Slot("viernes", "22:00", Reactions[2]), Slot("sabado", "16:30", Reactions[3]),
      Slot("sabado", "18:30", Reactions[4]), Slot("sabado", "22:00", Reactions[5]),
      Slot("domingo", "16:30", Reactions[6])]
  {
    SlotsOfDates();
  }

  /** The slot reactions of the scan are the attached reactions, in order. */
  lemma ScanReactions()
    ensures |Slots(Dates)| == |Reactions| == 7
    ensures forall i :: 0 <= i < |Reactions| ==> Slots(Dates)[i].reaction == Reactions[i]
  {
    ScanOrder();
  }

  /** The label of a slot with its count, `day - hour (count)`. */
  function Label(day: string, hour: string, count: nat): string
  {
    day + " - " + hour + " (" + NatToString(count) + ")"
  }

  /** The mention list of a slot: each voter's mention followed by a line
      break, joined by the default array separator. */
  function Mentions(users: seq<User>): string
  {
    Join(seq(|users|, i requires 0 <= i < |users| => "<@" + users[i].id + ">\n"), ",")
  }

  /** Every voter of a slot is mentioned in its value. */
  lemma MentionsEveryVoter(users: seq<User>, i: nat)
    requires i < |users|
    ensures IsInfix("<@" + users[i].id + ">\n", Mentions(users))
  {
    JoinContains(seq(|users|, i requires 0 <= i < |users| => "<@" + users[i].id + ">\n"), ",", i);
  }

  // ---------------------------------------------------------------------------
  // Tally

  /** The users who are not bots, in order. */
  function NonBot(us: seq<User>): (r: seq<User>)
    ensures |r| <= |us|
    ensures forall u :: u in r <==> u in us && !u.bot
  {
    if us == [] then []
    else if us[0].bot then NonBot(us[1..])
    else [us[0]] + NonBot(us[1..])
  }

  /** Filtering keeps every person as often as they occur and drops every
      bot, so the number of people who reacted is the length of the result. */
  lemma {:induction false} NonBotCounts(us: seq<User>)
    ensures forall u :: multiset(NonBot(us))[u] == if u.bot then 0 else multiset(us)[u]
  {
    if us != [] {
      NonBotCounts(us[1..]);
      assert us == [us[0]] + us[1..];
    }
  }

  /** Filtering keeps the users' order: filtering a concatenation is the
      concatenation of the filtered parts. */
  lemma {:induction false} NonBotConcat(a: seq<User>, b: seq<User>)
    ensures NonBot(a + b) == NonBot(a) + NonBot(b)
  {
    if a != [] {
      var u, rest := a[0], a[1..];
      assert a == [u] + rest;
      assert a + b == [u] + (rest + b);
      NonBotConcat(rest, b);
      NonBotCons(u, rest + b);
      NonBotCons(u, rest);
    } else {
      assert a + b == b;
    }
  }

  /** Filtering a list that starts with `u` keeps `u` first unless it is a bot. */
  lemma NonBotCons(u: User, us: seq<User>)
    ensures NonBot([u] + us) == (if u.bot then [] else [u]) + NonBot(us)
  {
    assert ([u] + us)[1..] == us;
  }

  /** The voters per symbol of `rs`: a symbol the message's cache holds maps
      to its non-bot users, possibly none; one it lacks is absent. */
  function TallyOf(rs: seq<Emoji>, reactions: map<Emoji, seq<User>>): map<Emoji, seq<User>>
  {
    map r | r in rs && r in reactions :: NonBot(reactions[r])
  }

  /** The voters per attached reaction. */
  function Tally(reactions: map<Emoji, seq<User>>): map<Emoji, seq<User>>
  {
    TallyOf(Reactions, reactions)
  }

  /** Tallying one more symbol adds its entry when the cache holds it. */
  lemma TallyStep(rs: seq<Emoji>, r: Emoji, reactions: map<Emoji, seq<User>>)
    ensures TallyOf(rs + [r], reactions) ==
              if r in reactions then TallyOf(rs, reactions)[r := NonBot(reactions[r])] else TallyOf(rs, reactions)
  {
  }

  /** The tally loop over the symbols `rs`. */
  method BuildTally(rs: seq<Emoji>, reactions: map<Emoji, seq<User>>) returns (tally: map<Emoji, seq<User>>)
    ensures tally == TallyOf(rs, reactions)
  {
    tally := map[];
    var k := 0;
    while k < |rs|
      invariant 0 <= k <= |rs|
      invariant tally == TallyOf(rs[..k], reactions)
    {
      var r := rs[k];
      TallyStep(rs[..k], r, reactions);
      if r in reactions {
        tally := tally[r := NonBot(reactions[r])];
      }
      assert rs[..k + 1] == rs[..k] + [r];
      k := k + 1;
    }
    assert rs[..k] == rs;
  }

  /** Only people are counted, and every person who reacted is. */
  lemma TallyCountsPeople(reactions: map<Emoji, seq<User>>, r: Emoji, u: User)
    requires r in Tally(reactions)
    ensures r in Reactions && r in reactions
    ensures u in Tally(reactions)[r] <==> u in reactions[r] && !u.bot
  {
  }

  /** The voters of a reaction; a reaction without a tally entry has none. */
  function Voters(tally: map<Emoji, seq<User>>, r: Emoji): seq<User>
  {
    if r in tally then tally[r] else []
  }

  /** Every slot's reaction has a tally entry. */
  predicate Present(slots: seq<Slot>, tally: map<Emoji, seq<User>>)
  {
    forall s :: s in slots ==> s.reaction in tally
  }

  /** Every attached reaction has a tally entry. */
  predicate AllPresent(tally: map<Emoji, seq<User>>)
  {
    Present(Slots(Dates), tally)
  }

  /** The scan needs a tally entry for exactly the attached reactions. */
  lemma AllPresentIff(tally: map<Emoji, seq<User>>)
    ensures AllPresent(tally) <==> forall r :: r in Reactions ==> r in tally
  {
    ScanReactions();
    var slots := Slots(Dates);
    if forall r :: r in Reactions ==> r in tally {
      forall s | s in slots ensures s.reaction in tally {
        var i :| 0 <= i < |slots| && slots[i] == s;
        assert Reactions[i] in Reactions;
      }
    }
    if AllPresent(tally) {
      forall r | r in Reactions ensures r in tally {
        var i :| 0 <= i < |Reactions| && Reactions[i] == r;
        assert slots[i] in slots;
      }
    }
  }

  // ---------------------------------------------------------------------------
  // Selection

  /** The index a running-maximum scan with `>=` ends on: the last index holding the maximum. */
  function LastArgMax(counts: seq<nat>): (k: nat)
    requires |counts| > 0
    ensures k < |counts|
    ensures forall j :: 0 <= j < |counts| ==> counts[j] <= counts[k]
    ensures forall j :: k < j < |counts| ==> counts[j] < counts[k]
  {
    if |counts| == 1 then 0
    else
      var k := LastArgMax(counts[..|counts| - 1]);
      assert forall j :: 0 <= j < |counts| - 1 ==> counts[..|counts| - 1][j] == counts[j];
      if counts[|counts| - 1] >= counts[k] then |counts| - 1 else k
  }

  /** The selection rule is determined: any index with the maximum and no
      later equal count is the one selected. */
  lemma LastArgMaxUnique(counts: seq<nat>, k: nat)
    requires k < |counts|
    requires forall j :: 0 <= j < |counts| ==> counts[j] <= counts[k]
    requires forall j :: k < j < |counts| ==> counts[j] < counts[k]
    ensures LastArgMax(counts) == k
  {
  }

  /** The vote counts of the slots. */
  function Counts(slots: seq<Slot>, tally: map<Emoji, seq<User>>): (c: seq<nat>)
    ensures |c| == |slots|
  {
    seq(|slots|, i requires 0 <= i < |slots| => |Voters(tally, slots[i].reaction)|)
  }

  /** The running scan over the slots: the count and label it ends with,
      a count at least the running one taking over the selection. */
  function Scan(slots: seq<Slot>, tally: map<Emoji, seq<User>>): (nat, string)
  {
    if slots == [] then (0, "")
    else
      var prev := Scan(slots[..|slots| - 1], tally);
      var s := slots[|slots| - 1];
      var n := |Voters(tally, s.reaction)|;
      if n >= prev.0 then (n, Label(s.day, s.hour, n)) else prev
  }

  /** The scan ends on the last slot holding the highest count. */
  lemma {:induction false} ScanSelectsLastMax(slots: seq<Slot>, tally: map<Emoji, seq<User>>)
    requires |slots| > 0
    ensures var c := Counts(slots, tally);
            var k := LastArgMax(c);
            Scan(slots, tally) == (c[k], Label(slots[k].day, slots[k].hour, c[k]))
  {
    if |slots| > 1 {
      var init := slots[..|slots| - 1];
      ScanSelectsLastMax(init, tally);
      assert Counts(init, tally) == Counts(slots, tally)[..|slots| - 1];
    }
  }

  /** One more slot scanned. */
  lemma ScanStep(scanned: seq<Slot>, slot: Slot, tally: map<Emoji, seq<User>>)
    ensures var prev := Scan(scanned, tally);
            var n := |Voters(tally, slot.reaction)|;
            Scan(scanned + [slot], tally) ==
              if n >= prev.0 then (n, Label(slot.day, slot.hour, n)) else prev
  {
    assert (scanned + [slot])[..|scanned|] == scanned;
  }

  /** The label shown under "Date Selected". */
  function Selected(tally: map<Emoji, seq<User>>): string
  {
    Scan(Slots(Dates), tally).1
  }

  // ---------------------------------------------------------------------------
  // Rendering

  function SlotField(s: Slot, users: seq<User>): Field
  {
    Field(Label(s.day, s.hour, |users|), if |users| > 0 then Mentions(users) else ZeroWidthSpace, false)
  }

  /** One field per slot, in order. */
  function SlotFields(slots: seq<Slot>, tally: map<Emoji, seq<User>>): (r: seq<Field>)
    ensures |r| == |slots|
  {
    if slots == [] then []
    else
      var s := slots[|slots| - 1];
      SlotFields(slots[..|slots| - 1], tally) + [SlotField(s, Voters(tally, s.reaction))]
  }

  /** One more slot rendered. */
  lemma SlotFieldsStep(slots: seq<Slot>, slot: Slot, tally: map<Emoji, seq<User>>)
    ensures SlotFields(slots + [slot], tally) == SlotFields(slots, tally) + [SlotField(slot, Voters(tally, slot.reaction))]
  {
    assert (slots + [slot])[..|slots|] == slots;
  }

  /** The `i`-th slot field is the `i`-th slot's, labelled with its count. */
  lemma {:induction false} SlotFieldsAt(slots: seq<Slot>, tally: map<Emoji, seq<User>>, i: nat)
    requires i < |slots|
    ensures SlotFields(slots, tally)[i] == SlotField(slots[i], Voters(tally, slots[i].reaction))
  {
    if i < |slots| - 1 {
      var init := slots[..|slots| - 1];
      SlotFieldsAt(init, tally, i);
    }
  }

  /** A slot's field: its label carries the number of voters; its value is a
      zero-width space without voters and otherwise mentions every voter. */
  lemma SlotFieldShowsVoters(s: Slot, users: seq<User>)
    ensures var f := SlotField(s, users);
            f.name == Label(s.day, s.hour, |users|) && !f.inline &&
            (|users| == 0 ==> f.value == ZeroWidthSpace) &&
            forall i :: 0 <= i < |users| ==> IsInfix("<@" + users[i].id + ">\n", f.value)
  {
    forall i | 0 <= i < |users| ensures IsInfix("<@" + users[i].id + ">\n", SlotField(s, users).value) {
      MentionsEveryVoter(users, i);
    }
  }

  /** A day's block: a separator, then one field per time of the day. */
  function DayBlock(d: Day, tally: map<Emoji, seq<User>>): seq<Field>
  {
    [Separator] + SlotFields(DaySlots(d), tally)
  }

  function Blocks(ds: seq<Day>, tally: map<Emoji, seq<User>>): (r: seq<Field>)
    ensures |r| == |Slots(ds)| + |ds|
  {
    if ds == [] then [] else Blocks(ds[..|ds| - 1], tally) + DayBlock(ds[|ds| - 1], tally)
  }

  /** The dynamic fields of a render over the days: the day blocks, a
      separator, the selected slot and a closing separator. */
  function Render(ds: seq<Day>, tally: map<Emoji, seq<User>>): seq<Field>
  {
    Blocks(ds, tally) + [Separator, Field("Date Selected", Scan(Slots(ds), tally).1, false), Separator]
  }

  /** The dynamic fields of the poll's re-render. */
  function DynamicBlock(tally: map<Emoji, seq<User>>): seq<Field>
  {
    Render(Dates, tally)
  }

  /** The slots of the first `n` times of a day. */
  function DaySlotsUpTo(d: Day, n: nat): (r: seq<Slot>)
    requires n <= |d.times|
    ensures |r| == n
  {
    if n == 0 then [] else DaySlotsUpTo(d, n - 1) + [Slot(d.key, d.times[n - 1].hour, d.times[n - 1].reaction)]
  }

  /** They are the first `n` slots of the day. */
  lemma {:induction false} DaySlotsUpToPrefix(d: Day, n: nat)
    requires n <= |d.times|
    ensures DaySlotsUpTo(d, n) == DaySlots(d)[..n]
  {
    if n > 0 {
      DaySlotsUpToPrefix(d, n - 1);
      assert DaySlots(d)[..n] == DaySlots(d)[..n - 1] + [DaySlots(d)[n - 1]];
    }
  }

  /** The blocks of the race days: Friday's, then Saturday's, then Sunday's. */
  lemma BlocksOfDates(tally: map<Emoji, seq<User>>)
    ensures Blocks(Dates, tally) == DayBlock(Dates[0], tally) + DayBlock(Dates[1], tally) + DayBlock(Dates[2], tally)
  {
    var d1, d2 := Dates[..1], Dates[..2];
    assert d1[..0] == [] && d1[0] == Dates[0];
    assert Blocks(d1, tally) == DayBlock(Dates[0], tally);
    assert d2[..1] == d1 && d2[1] == Dates[1];
    assert Blocks(d2, tally) == Blocks(d1, tally) + DayBlock(Dates[1], tally);
    assert Dates[..2] == d2;
  }

  /** A day's block opens with a separator and then shows its `i`-th slot at `1 + i`. */
  lemma {:induction false} BlockAt(slots: seq<Slot>, tally: map<Emoji, seq<User>>, i: nat)
    requires i < |slots|
    ensures ([Separator] + SlotFields(slots, tally))[1 + i] == SlotField(slots[i], Voters(tally, slots[i].reaction))
  {
    SlotFieldsAt(slots, tally, i);
  }

  /** Where the `i`-th slot sits among the dynamic fields: after one separator
      per day begun so far. */
  function Position(i: nat): nat
  {
    i + 1 + (if i >= 3 then 1 else 0) + (if i >= 6 then 1 else 0)
  }

  /** The re-render shows the `i`-th slot at its position, with the voters of
      the `i`-th attached reaction, and a separator opens each day. */
  lemma {:induction false} SlotShown(tally: map<Emoji, seq<User>>, i: nat)
    requires i < 7
    ensures var f := DynamicBlock(tally);
            |f| == 13 && f[0] == f[4] == f[8] == Separator &&
            f[Position(i)] == SlotField(Slots(Dates)[i], Voters(tally, Reactions[i]))
  {
    BlocksOfDates(tally);
    SlotsOfDates();
    ScanReactions();
    var s0, s1, s2 := DaySlots(Dates[0]), DaySlots(Dates[1]), DaySlots(Dates[2]);
    if i < 3 {
      BlockAt(s0, tally, i);
    } else if i < 6 {
      BlockAt(s1, tally, i - 3);
    } else {
      BlockAt(s2, tally, 0);
    }
  }

  /** The count a re-render shows for the `i`-th slot is the number of people,
      bots left out, in the cache of the `i`-th attached reaction. */
  lemma {:induction false} ShownCountIsPeople(reactions: map<Emoji, seq<User>>, i: nat)
    requires i < 7 && Reactions[i] in reactions
    ensures var slots := Slots(Dates);
            |slots| == 7 &&
            DynamicBlock(Tally(reactions))[Position(i)].name ==
              Label(slots[i].day, slots[i].hour, |NonBot(reactions[Reactions[i]])|)
  {
    var tally := Tally(reactions);
    ScanReactions();
    SlotShown(tally, i);
    assert Voters(tally, Reactions[i]) == NonBot(reactions[Reactions[i]]);
  }

  /** The inner loop of the update handler over one day's times, continuing
      the running selection from `counter` and `selected`: whether every time
      has a tally entry and, if so, the day's slot fields and the selection. */
  method ScanDay(day: Day, tally: map<Emoji, seq<User>>, ghost done: seq<Slot>, counter: nat, selected: string)
    returns (present: bool, fields: seq<Field>, counter': nat, selected': string)
    requires (counter, selected) == Scan(done, tally)
    ensures present <==> Present(DaySlots(day), tally)
    ensures present ==>
              fields == SlotFields(DaySlots(day), tally) &&
              (counter', selected') == Scan(done + DaySlots(day), tally)
  {
    fields, counter', selected' := [], counter, selected;
    var i := 0;
    assert done + DaySlotsUpTo(day, 0) == done;
    while i < |day.times|
      invariant 0 <= i <= |day.times|
      invariant Present(DaySlotsUpTo(day, i), tally)
      invariant fields == SlotFields(DaySlotsUpTo(day, i), tally)
      invariant (counter', selected') == Scan(done + DaySlotsUpTo(day, i), tally)
    {
      var time := day.times[i];
      if time.reaction !in tally {
        DaySlotsUpToPrefix(day, i + 1);
        assert DaySlots(day)[i] in DaySlots(day);
        return false, fields, counter', selected';
      }
      var users := tally[time.reaction];
      var slot := Slot(day.key, time.hour, time.reaction);
      ScanStep(done + DaySlotsUpTo(day, i), slot, tally);
      AppendOne(done, DaySlotsUpTo(day, i), slot);
      SlotFieldsStep(DaySlotsUpTo(day, i), slot, tally);
      if |users| >= counter' {
        counter' := |users|;
        selected' := Label(day.key, time.hour, |users|);
      }
      fields := fields + [SlotField(slot, users)];
      i := i + 1;
    }
    DaySlotsUpToPrefix(day, i);
    assert DaySlots(day)[..i] == DaySlots(day);
    present := true;
  }

  /** Appending a slot to the second part of a concatenation appends it to the whole. */
  lemma AppendOne(a: seq<Slot>, b: seq<Slot>, x: Slot)
    ensures a + (b + [x]) == (a + b) + [x]
  {
  }

  /** One more day scanned and rendered. */
  lemma DaysStep(ds: seq<Day>, d: nat, tally: map<Emoji, seq<User>>)
    requires d < |ds|
    ensures Slots(ds[..d + 1]) == Slots(ds[..d]) + DaySlots(ds[d])
    ensures Blocks(ds[..d + 1], tally) == Blocks(ds[..d], tally) + DayBlock(ds[d], tally)
  {
    assert ds[..d + 1][..d] == ds[..d];
  }

  /** The nested scan over the days and their times in the update handler:
      the dynamic fields, or None as soon as a time has no tally entry. */
  method ScanDays(ds: seq<Day>, tally: map<Emoji, seq<User>>) returns (dates: Option<seq<Field>>)
    ensures dates.None? <==> !Present(Slots(ds), tally)
    ensures dates.Some? ==> dates.value == Render(ds, tally)
  {
    var fields: seq<Field> := [];
    var counter: nat := 0;
    var daySelected := "";
    var d := 0;
    while d < |ds|
      invariant 0 <= d <= |ds|
      invariant Present(Slots(ds[..d]), tally)
      invariant fields == Blocks(ds[..d], tally)
      invariant (counter, daySelected) == Scan(Slots(ds[..d]), tally)
    {
      var present, dayFields;
      present, dayFields, counter, daySelected := ScanDay(ds[d], tally, Slots(ds[..d]), counter, daySelected);
      if !present {
        DayInSlots(ds, d);
        return None;
      }
      DaysStep(ds, d, tally);
      fields := fields + ([Separator] + dayFields);
      d := d + 1;
    }
    assert ds[..d] == ds;
    fields := fields + [Separator, Field("Date Selected", daySelected, false), Separator];
    return Some(fields);
  }

  // ---------------------------------------------------------------------------
  // Creation

  /** A slot's field at creation, labelled with count 0. */
  function InitialField(s: Slot): Field
  {
    Field(s.day + " - " + s.hour + " (0)", ZeroWidthSpace, false)
  }

  function InitialFields(slots: seq<Slot>): seq<Field>
  {
    if slots == [] then [] else InitialFields(slots[..|slots| - 1]) + [InitialField(slots[|slots| - 1])]
  }

  function InitialBlocks(ds: seq<Day>): seq<Field>
  {
    if ds == [] then [] else InitialBlocks(ds[..|ds| - 1]) + ([Separator] + InitialFields(DaySlots(ds[|ds| - 1])))
  }

  /** The slot fields of a new poll: the day blocks and a closing separator. */
  function InitialLayout(): seq<Field>
  {
    InitialBlocks(Dates) + [Separator]
  }

  /** The loops that lay out the slot fields of a new poll over the days. */
  method LayOutDays(ds: seq<Day>) returns (dates: seq<Field>)
    ensures dates == InitialBlocks(ds) + [Separator]
  {
    dates := [];
    var d := 0;
    while d < |ds|
      invariant 0 <= d <= |ds|
      invariant dates == InitialBlocks(ds[..d])
    {
      var day := ds[d];
      ghost var slots := DaySlots(day);
      ghost var before := dates;
      dates := dates + [Separator];
      var i := 0;
      while i < |day.times|
        invariant 0 <= i <= |day.times| == |slots|
        invariant dates == before + [Separator] + InitialFields(slots[..i])
      {
        assert slots[..i + 1][..i] == slots[..i];
        dates := dates + [Field(day.key + " - " + day.times[i].hour + " (0)", ZeroWidthSpace, false)];
        i := i + 1;
      }
      assert slots[..i] == slots;
      assert ds[..d + 1][..d] == ds[..d];
      d := d + 1;
    }
    assert ds[..d] == ds;
    dates := dates + [Separator];
  }

  /** Slots nobody voted for render exactly as at creation. */
  lemma {:induction false} NoVotesFieldsAreInitial(slots: seq<Slot>, tally: map<Emoji, seq<User>>)
    requires forall s :: s in slots ==> Voters(tally, s.reaction) == []
    ensures SlotFields(slots, tally) == InitialFields(slots)
  {
    if slots != [] {
      NoVotesFieldsAreInitial(slots[..|slots| - 1], tally);
      var s := slots[|slots| - 1];
      assert NatToString(0) == "0";
      assert s.day + " - " + s.hour + " (" + "0" + ")" == s.day + " - " + s.hour + " (0)";
    }
  }

  lemma {:induction false} NoVotesBlocksAreInitial(ds: seq<Day>, tally: map<Emoji, seq<User>>)
    requires forall s :: s in Slots(ds) ==> Voters(tally, s.reaction) == []
    ensures Blocks(ds, tally) == InitialBlocks(ds)
  {
    if ds != [] {
      NoVotesBlocksAreInitial(ds[..|ds| - 1], tally);
      NoVotesFieldsAreInitial(DaySlots(ds[|ds| - 1]), tally);
    }
  }

  /** Without votes every slot counts zero. */
  lemma NoVotesCountZero(tally: map<Emoji, seq<User>>)
    requires forall r :: r in Reactions ==> Voters(tally, r) == []
    ensures var c := Counts(Slots(Dates), tally);
            |c| == 7 && forall i :: 0 <= i < |c| ==> c[i] == 0
  {
    ScanReactions();
    forall i | 0 <= i < 7 ensures Counts(Slots(Dates), tally)[i] == 0 {
      assert Reactions[i] in Reactions;
    }
  }

  /** The count of the `i`-th slot is the number of voters of the `i`-th attached reaction. */
  lemma CountsFollowReactions(tally: map<Emoji, seq<User>>)
    ensures var c := Counts(Slots(Dates), tally);
            |c| == 7 && forall i :: 0 <= i < 7 ==> c[i] == |Voters(tally, Reactions[i])|
  {
    ScanReactions();
  }

  /** Without votes every count ties at zero and the scan ends on Sunday. */
  lemma SelectedWithoutVotes(tally: map<Emoji, seq<User>>)
    requires forall r :: r in Reactions ==> Voters(tally, r) == []
    ensures Selected(tally) == "domingo - 16:30 (0)"
  {
    var slots := Slots(Dates);
    var c := Counts(slots, tally);
    NoVotesCountZero(tally);
    LastArgMaxUnique(c, 6);
    ScanSelectsLastMax(slots, tally);
    ScanOrder();
    assert NatToString(0) == "0";
  }

  /** A new poll's slot lines are what a render with no votes yet shows: the
      first update after creation only appends the selection, which is the
      last slot since every count ties at zero. */
  lemma FirstRenderWithoutVotes(tally: map<Emoji, seq<User>>)
    requires forall r :: r in Reactions ==> r in tally && tally[r] == []
    ensures AllPresent(tally)
    ensures DynamicBlock(tally) ==
              InitialLayout() + [Field("Date Selected", "domingo - 16:30 (0)", false), Separator]
  {
    AllPresentIff(tally);
    ScanReactions();
    forall s | s in Slots(Dates) ensures Voters(tally, s.reaction) == [] {
      var i :| 0 <= i < |Slots(Dates)| && Slots(Dates)[i] == s;
      assert Reactions[i] in Reactions;
    }
    NoVotesBlocksAreInitial(Dates, tally);
    SelectedWithoutVotes(tally);
  }

  /** A new poll lays out eleven slot fields: a separator before each day and
      a closing one, and every slot at its position labelled with count 0. */
  lemma InitialLayoutShape()
    ensures var f := InitialLayout();
            var slots := Slots(Dates);
            |f| == 11 && |slots| == 7 && f[0] == f[4] == f[8] == f[10] == Separator &&
            forall i :: 0 <= i < 7 ==>
              f[Position(i)] == Field(slots[i].day + " - " + slots[i].hour + " (0)", ZeroWidthSpace, false)
  {
    var tally := map r | r in Reactions :: [];
    FirstRenderWithoutVotes(tally);
    ScanReactions();
    assert NatToString(0) == "0";
    forall i | 0 <= i < 7
      ensures InitialLayout()[Position(i)] ==
                Field(Slots(Dates)[i].day + " - " + Slots(Dates)[i].hour + " (0)", ZeroWidthSpace, false)
    {
      SlotShown(tally, i);
      var s := Slots(Dates)[i];
      assert s.day + " - " + s.hour + " (" + "0" + ")" == s.day + " - " + s.hour + " (0)";
    }
    SlotShown(tally, 0);
  }

  /** The role mention of the cup role, or a zero-width space without one. */
  function Description(roles: seq<Role>): string
  {
    match FirstRoleNamed(roles, CupRole)
    case None => ZeroWidthSpace
    case Some(role) => "<@&" + role.id + ">"
  }

  function CreatedEmbed(circuit: string, roles: seq<Role>, dates: seq<Field>): Embed
  {
    Embed(Some(circuit), None, None, Some(Description(roles)), None, dates + Legend, None, Some(RaceFooter))
  }

  const ChannelIsNull := "Channel is null\n"
  const CircuitIsNull := "Circuit is null\n"

  /** The option checks of `execute`: each null option adds its line to the error message. */
  method CheckOptions(channel: Option<string>, circuit: Option<string>) returns (error: bool, errorMessage: string)
    ensures error <==> channel.None? || Falsy(circuit)
    ensures channel.None? && !Falsy(circuit) ==> errorMessage == ChannelIsNull
    ensures channel.Some? && Falsy(circuit) ==> errorMessage == CircuitIsNull
    ensures channel.None? && Falsy(circuit) ==> errorMessage == ChannelIsNull + CircuitIsNull
  {
    errorMessage := "";
    error := false;
    if channel.None? {
      errorMessage := errorMessage + ChannelIsNull;
      error := true;
    }
    if Falsy(circuit) {
      errorMessage := errorMessage + CircuitIsNull;
      error := true;
    }
    assert [] + ChannelIsNull == ChannelIsNull && [] + CircuitIsNull == CircuitIsNull;
  }

  /** `execute`. `channel` is the channel option by name and `circuit` the
      circuit option (None when null); `organizer` is the fixed member whose
      nickname the command checks and `guild` the guild's roles. */
  method Execute(channel: Option<string>, circuit: Option<string>, organizer: Option<Member>,
                 guild: Option<seq<Role>>) returns (effects: seq<Effect>)
    ensures channel.None? || Falsy(circuit) ==> |effects| == 1 && effects[0].Reply? && effects[0].ephemeral
    ensures Posts(effects) <==>
              channel.Some? && !Falsy(circuit) && organizer.Some? && !Falsy(organizer.value.nickname) && guild.Some?
    ensures channel.Some? && !Falsy(circuit) && !Posts(effects) ==> effects == [Reply(SomethingWrong, true)]
    ensures Posts(effects) ==>
              |effects| == 10 &&
              effects[..3] == [Reply("F1 Event created in " + channel.value, true),
                               Send(CreatedEmbed(circuit.value, guild.value, InitialLayout()), false),
                               RemoveAllReactions] &&
              forall i :: 0 <= i < |Reactions| ==> effects[3 + i] == React(Reactions[i])
  {
    var error, errorMessage := CheckOptions(channel, circuit);
    if error {
      return [Reply(errorMessage, true)];
    }
    if organizer.None? || Falsy(organizer.value.nickname) || guild.None? {
      return [Reply(SomethingWrong, true)];
    }
    var dates := LayOutDays(Dates);
    var embed := CreatedEmbed(circuit.value, guild.value, dates);
    effects := [Reply("F1 Event created in " + channel.value, true), Send(embed, false), RemoveAllReactions,
                React(Keycap('1')), React(Keycap('2')), React(Keycap('3')), React(Keycap('4')),
                React(Keycap('5')), React(Keycap('6')), React(Keycap('7'))];
    assert effects[1].Send?;
  }

  // ---------------------------------------------------------------------------
  // Update

  /** The re-rendered embed: title and description carried over, then the
      dynamic fields and the legend. */
  function UpdatedEmbed(prior: Embed, dates: seq<Field>): Embed
  {
    Embed(prior.title, None, None, prior.description, None, dates + Legend, None, Some(RaceFooter))
  }

  /** An update keeps the circuit title and the role mention and always lays
      out twenty fields: the seven slot lines under their day separators, the
      selection between two separators, and the legend. */
  lemma UpdateKeepsFrame(prior: Embed, tally: map<Emoji, seq<User>>)
    ensures var e := UpdatedEmbed(prior, DynamicBlock(tally));
            e.title == prior.title && e.description == prior.description &&
            |e.fields| == 20 && e.fields[13..] == Legend &&
            e.fields[10] == e.fields[12] == Separator &&
            e.fields[11] == Field("Date Selected", Selected(tally), false)
  {
    ScanReactions();
  }

  /** Re-rendering an updated embed from the same tally changes nothing. */
  lemma UpdateIdempotent(prior: Embed, dates: seq<Field>)
    ensures UpdatedEmbed(UpdatedEmbed(prior, dates), dates) == UpdatedEmbed(prior, dates)
    ensures UpdatedEmbed(prior, dates).fields[..|dates|] == dates
  {
  }

  /** `onReaction`: a reaction by a person re-renders the poll. `inGuild` says
      whether the message belongs to a guild. */
  method OnReaction(msg: Message, user: User, inGuild: bool) returns (outcome: Outcome)
    modifies msg
    ensures msg.reactions == old(msg.reactions)
    ensures outcome == IgnoredBot <==> user.bot
    ensures outcome == NoGuild <==> !user.bot && !inGuild
    ensures outcome == Aborted <==> !user.bot && inGuild && exists r :: r in Reactions && r !in msg.reactions
    ensures outcome == Edited <==>
              !user.bot && inGuild && (forall r :: r in Reactions ==> r in msg.reactions) && |old(msg.embeds)| > 0
    ensures outcome != Edited ==> msg.embeds == old(msg.embeds)
    ensures outcome == Edited ==>
              msg.embeds == [UpdatedEmbed(old(msg.embeds)[0], DynamicBlock(Tally(msg.reactions)))]
  {
    if user.bot {
      return IgnoredBot;
    }
    var tally := BuildTally(Reactions, msg.reactions);
    if !inGuild {
      return NoGuild;
    }
    AllPresentIff(tally);
    var dates := ScanDays(Dates, tally);
    if dates.None? {
      return Aborted;
    }
    if |msg.embeds| == 0 {
      return Crashed;
    }
    msg.embeds := [UpdatedEmbed(msg.embeds[0], dates.value)];
    return Edited;
  }

  // ---------------------------------------------------------------------------
  // Worked selections

  /** Equal counts: the last slot reaching the maximum is selected, here the
      fourth slot although the first already had two votes. */
  lemma TieGoesToLastSlot()
    ensures LastArgMax([2, 2, 0, 2, 0, 0, 0]) == 3
  {
    LastArgMaxUnique([2, 2, 0, 2, 0, 0, 0], 3);
  }

  /** Three votes on Saturday 18:30 and one on Friday 16:30 select Saturday 18:30. */
  lemma ThreeVotesWin(tally: map<Emoji, seq<User>>)
    requires |Voters(tally, Reactions[0])| == 1 && |Voters(tally, Reactions[4])| == 3
    requires forall i :: 0 <= i < 7 && i != 0 && i != 4 ==> Voters(tally, Reactions[i]) == []
    ensures Selected(tally) == "sabado - 18:30 (3)"
  {
    var slots := Slots(Dates);
    ThreeVotesCounts(tally);
    ScanSelectsLastMax(slots, tally);
    ScanOrder();
    assert NatToString(3) == "3";
  }

  /** The counts of that vote: the highest, three, is the fifth slot's alone. */
  lemma ThreeVotesCounts(tally: map<Emoji, seq<User>>)
    requires |Voters(tally, Reactions[0])| == 1 && |Voters(tally, Reactions[4])| == 3
    requires forall i :: 0 <= i < 7 && i != 0 && i != 4 ==> Voters(tally, Reactions[i]) == []
    ensures var c := Counts(Slots(Dates), tally);
            |c| == 7 && LastArgMax(c) == 4 && c[4] == 3
  {
    var c := Counts(Slots(Dates), tally);
    CountsFollowReactions(tally);
    forall j | 0 <= j < 7 ensures c[j] == if j == 4 then 3 else if j == 0 then 1 else 0 {
    }
    LastArgMaxUnique(c, 4);
  }
}

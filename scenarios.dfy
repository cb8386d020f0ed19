/** Short sessions of the listener, with what each step must produce. */
module Scenarios {
  import opened Wrappers
  import opened Filtering
  import opened RateWindow
  import opened Commands
  import opened Moderation
  import opened Listener

  /** A message from human author `a` in channel `c`, created at `time`. */
  function Post(c: ChannelId, a: UserId, mention: string, time: int): Message {
    Message(false, c, a, mention, time)
  }

  /** Only channel `c` is moderated, and there author `a` has the given history. */
  function InChannel(c: ChannelId, a: UserId, history: seq<int>, warnings: map<UserId, int>): State {
    State(map[c := map[a := history]], warnings)
  }

  lemma FirstPost(c: ChannelId, a: UserId, mention: string)
    ensures HandleMessage(SetChannel(INITIAL, c, true).state, Post(c, a, mention, 0), 0)
      == Step(InChannel(c, a, [], map[]), NoAction)
  {
    assert SetChannel(INITIAL, c, true).state == State(map[c := map[]], map[]);
  }

  /**
   * With fewer than two stored timestamps, all inside the window, a further
   * message is allowed and its time appended.
   */
  lemma UnsaturatedPost(c: ChannelId, a: UserId, mention: string, h: seq<int>, w: map<UserId, int>, now: int)
    requires |h| < 2 && forall i :: 0 <= i < |h| ==> now - h[i] <= TIMESPAN_MILLISECONDS
    ensures HandleMessage(InChannel(c, a, h, w), Post(c, a, mention, now), now)
      == Step(InChannel(c, a, h + [now], w), NoAction)
  {
    FilterAllKept(h, InWindow(now));
    assert Evaluate(Some(h), now, now) == Evaluation(Allowed(1 + |h|), h + [now]);
    assert map[a := h][a := h + [now]] == map[a := h + [now]];
  }

  lemma SecondPost(c: ChannelId, a: UserId, mention: string)
    ensures HandleMessage(InChannel(c, a, [], map[]), Post(c, a, mention, 1000), 1000)
      == Step(InChannel(c, a, [1000], map[]), NoAction)
  {
    UnsaturatedPost(c, a, mention, [], map[], 1000);
    assert [] + [1000] == [1000];
  }

  lemma ThirdPost(c: ChannelId, a: UserId, mention: string)
    ensures HandleMessage(InChannel(c, a, [1000], map[]), Post(c, a, mention, 2000), 2000)
      == Step(InChannel(c, a, [1000, 2000], map[]), NoAction)
  {
    UnsaturatedPost(c, a, mention, [1000], map[], 2000);
    assert [1000] + [2000] == [1000, 2000];
  }

  /**
   * With two stored timestamps both inside the window, a further message is
   * filtered, the history stays as it was, and only the warning gate remains.
   */
  lemma SaturatedPost(c: ChannelId, a: UserId, mention: string, h: seq<int>, w: map<UserId, int>, now: int)
    requires |h| == 2 && forall i :: 0 <= i < |h| ==> now - h[i] <= TIMESPAN_MILLISECONDS
    ensures var s := InChannel(c, a, h, w);
      var checked := CheckWarning(s, a, now);
      HandleMessage(s, Post(c, a, mention, now), now)
        == if checked.value then Step(checked.state, Delete)
           else Step(RecordWarning(checked.state, a, now), DeleteAndWarn(WarningText(mention)))
  {
    TwoRecentThenFiltered(h, now, now);
    var channel := map[a := h];
    assert channel[a := h] == channel;
    var s := InChannel(c, a, h, w);
    assert s.(channels := s.channels[c := channel[a := h]]) == s;
  }

  lemma FourthPost(c: ChannelId, a: UserId, mention: string)
    ensures HandleMessage(InChannel(c, a, [1000, 2000], map[]), Post(c, a, mention, 3000), 3000)
      == Step(InChannel(c, a, [1000, 2000], map[a := 3000]), DeleteAndWarn(WarningText(mention)))
  {
    SaturatedPost(c, a, mention, [1000, 2000], map[], 3000);
    var noWarnings: map<UserId, int> := map[];
    assert noWarnings[a := 3000] == map[a := 3000];
  }

  lemma FifthPost(c: ChannelId, a: UserId, mention: string)
    ensures HandleMessage(InChannel(c, a, [1000, 2000], map[a := 3000]), Post(c, a, mention, 4000), 4000)
      == Step(InChannel(c, a, [1000, 2000], map[a := 3000]), Delete)
  {
    SaturatedPost(c, a, mention, [1000, 2000], map[a := 3000], 4000);
  }

  /**
   * One author posts in a freshly moderated channel at 0, 1000, 2000, 3000 and
   * 4000 ms. The first message only starts a history, the next two are allowed,
   * the fourth is filtered with a warning, the fifth is filtered silently because
   * the author was warned 1000 ms earlier. Filtered messages are not stored.
   */
  lemma BurstScenario(c: ChannelId, a: UserId, mention: string)
    ensures var s0 := SetChannel(INITIAL, c, true).state;
      var r0 := HandleMessage(s0, Post(c, a, mention, 0), 0);
      var r1 := HandleMessage(r0.state, Post(c, a, mention, 1000), 1000);
      var r2 := HandleMessage(r1.state, Post(c, a, mention, 2000), 2000);
      var r3 := HandleMessage(r2.state, Post(c, a, mention, 3000), 3000);
      var r4 := HandleMessage(r3.state, Post(c, a, mention, 4000), 4000);
      && [r0.value, r1.value, r2.value, r3.value, r4.value]
         == [NoAction, NoAction, NoAction, DeleteAndWarn(WarningText(mention)), Delete]
      && r4.state == State(map[c := map[a := [1000, 2000]]], map[a := 3000])
  {
    FirstPost(c, a, mention);
    SecondPost(c, a, mention);
    ThirdPost(c, a, mention);
    FourthPost(c, a, mention);
    FifthPost(c, a, mention);
  }

  /**
   * After a warning at `t0`, a check 7999 ms later finds it recent; a check
   * 8001 ms later finds it stale and removes it.
   */
  method CooldownScenario(t0: int) returns (early: bool, late: bool, keptAfterLate: bool)
    ensures early && !late && !keptAfterLate
  {
    var filter := new SpamFilter();
    filter.UpdateUserWarning("A", t0);
    early := filter.WasWarnedRecently("A", t0 + 7999);
    late := filter.WasWarnedRecently("A", t0 + 8001);
    keptAfterLate := "A" in filter.userWarnings;
  }

  /**
   * The `state` value is matched case-insensitively; enabling twice reports that
   * nothing changed; an unknown value is answered with the accepted ones.
   */
  method CommandScenario() returns (replies: seq<Option<string>>, moderated: bool)
    ensures replies == [
      Some("Spam filter has been enabled for <#C> ✅"),
      Some("Spam filter is already enabled for <#C> ❌"),
      Some(UnknownStateHeader("maybe") + OptionLine("enable") + OptionLine("disable")),
      Some("Spam filter has been disabled for <#C> ✅"),
      None]
    ensures !moderated
  {
    assert ToggleReply(true, true, "C") == "Spam filter has been enabled for <#C> ✅";
    assert ToggleReply(true, false, "C") == "Spam filter is already enabled for <#C> ❌";
    assert ToggleReply(false, true, "C") == "Spam filter has been disabled for <#C> ✅";
    assert ToLower("enable") == "enable";
    assert ToLower("ENABLE") == "enable";
    assert ToLower("Maybe") == "maybe";
    StateOptionLines();
    assert UnknownStateReply("maybe") == UnknownStateHeader("maybe") + OptionLine("enable") + OptionLine("disable");
    assert !IsStateOption("maybe") by {
      assert "maybe"[0] != "enable"[0] && "maybe"[0] != "disable"[0];
    }
    assert ToLower("Disable") == "disable";
    var filter := new SpamFilter();
    var r0 := filter.OnSlashCommandInteraction("spamfilter", "enable", "C");
    assert r0 == Some("Spam filter has been enabled for <#C> ✅");
    var r1 := filter.OnSlashCommandInteraction("spamfilter", "ENABLE", "C");
    assert r1 == Some("Spam filter is already enabled for <#C> ❌");
    var r2 := filter.OnSlashCommandInteraction("spamfilter", "Maybe", "C");
    assert r2 == Some(UnknownStateHeader("maybe") + OptionLine("enable") + OptionLine("disable"));
    var r3 := filter.OnSlashCommandInteraction("spamfilter", "Disable", "C");
    assert r3 == Some("Spam filter has been disabled for <#C> ✅");
    assert "ping" != COMMAND_NAME by { assert "ping"[0] != COMMAND_NAME[0]; }
    var r4 := filter.OnSlashCommandInteraction("ping", "enable", "C");
    replies := [r0, r1, r2, r3, r4];
    moderated := "C" in filter.channelRateTimestamps;
  }
}

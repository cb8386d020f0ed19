/**
 * The state of the spam-filter listener as a value, and each of its handlers as
 * a function from the old state to the new one. The listener class proves that
 * its in-place updates follow these functions; the properties of the filter are
 * stated here, once, about them.
 */
module Moderation {
  import opened Wrappers
  import opened Filtering
  import opened RateWindow
  import opened Commands

  type ChannelId = string
  type UserId = string

  /** Minimum time between two warnings to the same author, in milliseconds. */
  const WARNING_RATE: int := 8000

  /**
   * `channels`: each moderated channel, with the recent message times of each
   * author seen there; `warnings`: each warned author, with the time of the last
   * warning (a stale entry stays until that author's warning is checked again).
   */
  datatype State = State(channels: map<ChannelId, map<UserId, seq<int>>>, warnings: map<UserId, int>)

  /** A new state after a handler, and what the handler returned. */
  datatype Step<T> = Step(state: State, value: T)

  /** What the message handler asks the chat gateway to do. */
  datatype Action =
    | NoAction
    | Delete                         // delete the triggering message
    | DeleteAndWarn(warning: string) // delete it and post a warning (itself deleted after a delay)

  /** An incoming chat message: who sent it, where, and when it was created. */
  datatype Message = Message(authorIsBot: bool, channelId: ChannelId, authorId: UserId,
                             authorMention: string, messageTime: int)

  const INITIAL: State := State(map[], map[])

  /** Every stored author history is shorter than the count limit. */
  ghost predicate HistoriesShort(channels: map<ChannelId, map<UserId, seq<int>>>) {
    forall c, a :: c in channels && a in channels[c] ==> |channels[c][a]| < MESSAGE_COUNT_LIMIT
  }

  ghost predicate Valid(s: State) {
    HistoriesShort(s.channels)
  }

  /** The warning posted to an author whose message was filtered. */
  function WarningText(authorMention: string): string {
    "Please do not spam " + authorMention + ", thank you \U{1F62E}"
  }

  /** The stored history of `author` in a moderated channel, if any. */
  function HistoryOf(channel: map<UserId, seq<int>>, author: UserId): Option<seq<int>> {
    if author in channel then Some(channel[author]) else None
  }

  /**
   * Turning moderation of `channelId` on (`enable`) or off. The value says
   * whether anything changed: only enabling an unmoderated channel (which starts
   * with no author history) and disabling a moderated one (which discards its
   * whole entry) do.
   */
  function SetChannel(s: State, channelId: ChannelId, enable: bool): (r: Step<bool>)
    ensures r.value <==> enable != (channelId in s.channels)
    ensures channelId in r.state.channels <==> enable
    ensures r.value && enable ==> r.state.channels[channelId] == map[]
    ensures !r.value ==> r.state == s
    ensures forall c :: c != channelId ==>
      (c in r.state.channels <==> c in s.channels)
      && (c in r.state.channels ==> r.state.channels[c] == s.channels[c])
    ensures r.state.warnings == s.warnings
  {
    var alreadyFiltered := channelId in s.channels;
    if enable && !alreadyFiltered then Step(s.(channels := s.channels[channelId := map[]]), true)
    else if !enable && alreadyFiltered then Step(s.(channels := s.channels - {channelId}), true)
    else Step(s, false)
  }

  /**
   * Whether `userId` was warned within WARNING_RATE of `now`. A stale entry is
   * removed; a recent one is kept.
   */
  function CheckWarning(s: State, userId: UserId, now: int): (r: Step<bool>)
    ensures r.value <==> userId in s.warnings && now - s.warnings[userId] <= WARNING_RATE
    ensures userId in r.state.warnings ==> r.value && r.state.warnings[userId] == s.warnings[userId]
    ensures r.value ==> r.state == s
    ensures forall u :: u != userId ==>
      (u in r.state.warnings <==> u in s.warnings)
      && (u in r.state.warnings ==> r.state.warnings[u] == s.warnings[u])
    ensures r.state.channels == s.channels
  {
    if userId in s.warnings then
      if now - s.warnings[userId] <= WARNING_RATE then Step(s, true)
      else Step(s.(warnings := s.warnings - {userId}), false)
    else Step(s, false)
  }

  /** Recording a warning to `userId` at `now`. */
  function RecordWarning(s: State, userId: UserId, now: int): (r: State)
    ensures userId in r.warnings && r.warnings[userId] == now
    ensures forall u :: u != userId ==>
      (u in r.warnings <==> u in s.warnings) && (u in r.warnings ==> r.warnings[u] == s.warnings[u])
    ensures r.channels == s.channels
  {
    s.(warnings := s.warnings[userId := now])
  }

  /**
   * Handling one message, handled at `now`. Bots and unmoderated channels are
   * ignored; otherwise the author's history in the channel is evaluated, and a
   * filtered message is deleted, with a warning unless one was sent recently.
   */
  function HandleMessage(s: State, m: Message, now: int): (r: Step<Action>)
    ensures r.value != NoAction ==>
      !m.authorIsBot && m.channelId in s.channels && m.authorId in s.channels[m.channelId]
    ensures r.value.DeleteAndWarn? ==> r.value.warning == WarningText(m.authorMention)
    ensures r.state.channels.Keys == s.channels.Keys
  {
    if m.authorIsBot || m.channelId !in s.channels then Step(s, NoAction)
    else
      var channel := s.channels[m.channelId];
      var e := Evaluate(HistoryOf(channel, m.authorId), now, m.messageTime);
      var evaluated := s.(channels := s.channels[m.channelId := channel[m.authorId := e.stored]]);
      if !e.verdict.Filtered? then Step(evaluated, NoAction)
      else
        var checked := CheckWarning(evaluated, m.authorId, now);
        if checked.value then Step(checked.state, Delete)
        else Step(RecordWarning(checked.state, m.authorId, now), DeleteAndWarn(WarningText(m.authorMention)))
  }

  /** The reply to an unrecognised `state` value. */
  function UnknownStateReply(state: string): string {
    UnknownStateHeader(state) + OptionLines(STATE_OPTIONS)
  }

  /**
   * Handling a slash command in `channelId`: None (no reply) for any command
   * other than `spamfilter`.
   */
  function HandleCommand(s: State, commandName: string, stateOption: string, channelId: ChannelId)
    : (r: Step<Option<string>>)
    ensures r.value.None? <==> commandName != COMMAND_NAME
    ensures r.value.None? ==> r.state == s
    ensures r.state.warnings == s.warnings
    ensures forall c :: c != channelId ==>
      (c in r.state.channels <==> c in s.channels)
      && (c in r.state.channels ==> r.state.channels[c] == s.channels[c])
  {
    if commandName != COMMAND_NAME then Step(s, None)
    else
      var state := ToLower(stateOption);
      if !IsStateOption(state) then Step(s, Some(UnknownStateReply(state)))
      else
        var enable := state == "enable";
        var toggled := SetChannel(s, channelId, enable);
        Step(toggled.state, Some(ToggleReply(enable, toggled.value, channelId)))
  }

  // ---------------------------------------------------------------------------
  // Enabling and disabling

  /** Enabling an unmoderated channel and disabling it again restores the state. */
  lemma EnableThenDisable(s: State, channelId: ChannelId)
    requires channelId !in s.channels
    ensures SetChannel(SetChannel(s, channelId, true).state, channelId, false) == Step(s, true)
  {
    assert s.channels[channelId := map[]] - {channelId} == s.channels;
  }

  /** A second request for the same state changes nothing and reports no change. */
  lemma SetChannelIdempotent(s: State, channelId: ChannelId, enable: bool)
    ensures var once := SetChannel(s, channelId, enable).state;
      SetChannel(once, channelId, enable) == Step(once, false)
  {
  }

  /**
   * Disabling a channel forgets its histories: after re-enabling, any author's
   * next message there is a first message again.
   */
  lemma ReenableForgetsHistory(s: State, m: Message, now: int)
    requires m.channelId in s.channels && !m.authorIsBot
    ensures var off := SetChannel(s, m.channelId, false).state;
      var on := SetChannel(off, m.channelId, true).state;
      var r := HandleMessage(on, m, now);
      r.value == NoAction && r.state.channels[m.channelId] == map[m.authorId := []]
  {
    var off := SetChannel(s, m.channelId, false).state;
    var on := SetChannel(off, m.channelId, true).state;
    assert on.channels[m.channelId] == map[];
    assert HistoryOf(map[], m.authorId) == None;
    var empty: map<UserId, seq<int>> := map[];
    assert empty[m.authorId := []] == map[m.authorId := []];
  }

  // ---------------------------------------------------------------------------
  // The message handler

  /** Messages from bots, and messages in unmoderated channels, change nothing. */
  lemma IgnoredMessage(s: State, m: Message, now: int)
    requires m.authorIsBot || m.channelId !in s.channels
    ensures HandleMessage(s, m, now) == Step(s, NoAction)
  {
  }

  /** An author's first message in a moderated channel stores an empty history and is never filtered. */
  lemma FirstMessageNotFiltered(s: State, m: Message, now: int)
    requires !m.authorIsBot && m.channelId in s.channels && m.authorId !in s.channels[m.channelId]
    ensures var r := HandleMessage(s, m, now);
      && r.value == NoAction
      && r.state.channels == s.channels[m.channelId := s.channels[m.channelId][m.authorId := []]]
      && r.state.warnings == s.warnings
  {
  }

  /**
   * Only the author's entry in the message's channel can change, and only the
   * author's warning entry.
   */
  lemma HandleMessageFrame(s: State, m: Message, now: int)
    ensures var r := HandleMessage(s, m, now).state;
      && r.channels.Keys == s.channels.Keys
      && (forall c :: c in s.channels && c != m.channelId ==> r.channels[c] == s.channels[c])
      && (forall c, a :: c in s.channels && a in s.channels[c] && (c, a) != (m.channelId, m.authorId) ==>
            a in r.channels[c] && r.channels[c][a] == s.channels[c][a])
      && (forall c, a :: c in r.channels && a in r.channels[c] && (c, a) != (m.channelId, m.authorId) ==>
            a in s.channels[c])
      && (forall u :: u != m.authorId ==>
            (u in r.warnings <==> u in s.warnings) && (u in r.warnings ==> r.warnings[u] == s.warnings[u]))
  {
  }

  /**
   * How a message in a moderated channel from an author with history is decided:
   * the recent prior timestamps are kept in order; if with the message they reach
   * the limit it is deleted and not stored, otherwise it is stored and kept and the
   * warnings are left alone.
   */
  lemma MessageClassification(s: State, m: Message, now: int)
    requires !m.authorIsBot && m.channelId in s.channels && m.authorId in s.channels[m.channelId]
    ensures var h := s.channels[m.channelId][m.authorId];
      var retained := Filter(h, InWindow(now));
      var r := HandleMessage(s, m, now);
      var stored := r.state.channels[m.channelId][m.authorId];
      && (forall t :: t in retained <==> t in h && now - t <= TIMESPAN_MILLISECONDS)
      && (1 + |retained| < MESSAGE_COUNT_LIMIT ==>
            r.value == NoAction && stored == retained + [m.messageTime] && r.state.warnings == s.warnings)
      && (1 + |retained| >= MESSAGE_COUNT_LIMIT ==> r.value != NoAction && stored == retained)
  {
    var h := s.channels[m.channelId][m.authorId];
    forall t
      ensures t in Filter(h, InWindow(now)) <==> t in h && now - t <= TIMESPAN_MILLISECONDS
    {
      FilterMembership(h, InWindow(now), t);
    }
  }

  /**
   * A filtered message is followed by a warning exactly when the author has not
   * been warned within WARNING_RATE; the warning time is then `now`, and a stale
   * warning entry of that author never survives the check.
   */
  lemma WarningGate(s: State, m: Message, now: int)
    requires HandleMessage(s, m, now).value != NoAction
    ensures var r := HandleMessage(s, m, now);
      var recently := m.authorId in s.warnings && now - s.warnings[m.authorId] <= WARNING_RATE;
      && (r.value.DeleteAndWarn? <==> !recently)
      && (r.value.Delete? <==> recently)
      && (r.value.DeleteAndWarn? ==> r.value.warning == WarningText(m.authorMention)
                                     && r.state.warnings == s.warnings[m.authorId := now])
      && (r.value.Delete? ==> r.state.warnings == s.warnings)
  {
  }

  /** No stored history ever reaches MESSAGE_COUNT_LIMIT entries. */
  lemma HandleMessageKeepsValid(s: State, m: Message, now: int)
    requires Valid(s)
    ensures Valid(HandleMessage(s, m, now).state)
  {
    if !m.authorIsBot && m.channelId in s.channels {
      var channel := s.channels[m.channelId];
      EvaluateBound(HistoryOf(channel, m.authorId), now, m.messageTime);
    }
  }

  // ---------------------------------------------------------------------------
  // The command handler

  /**
   * An unknown `state` changes nothing and is answered with every accepted value;
   * an accepted one is answered with the enable or disable text, ending in ✅
   * exactly when the channel changed and in ❌ otherwise.
   */
  lemma CommandOutcome(s: State, stateOption: string, channelId: ChannelId)
    ensures var r := HandleCommand(s, COMMAND_NAME, stateOption, channelId);
      var state := ToLower(stateOption);
      && r.value.Some? && |r.value.value| > 0
      && (!IsStateOption(state) ==>
            r.state == s
            && r.value.value == UnknownStateHeader(state) + OptionLine("enable") + OptionLine("disable"))
      && (IsStateOption(state) ==>
            var enable := state == "enable";
            && r.state == SetChannel(s, channelId, enable).state
            && (channelId in r.state.channels <==> enable)
            && r.value.value == ToggleReply(enable, SetChannel(s, channelId, enable).value, channelId)
            && (r.value.value[|r.value.value| - 1] == '✅' <==> r.state != s)
            && (r.value.value[|r.value.value| - 1] == '❌' <==> r.state == s))
  {
    var state := ToLower(stateOption);
    if !IsStateOption(state) {
      StateOptionLines();
    } else {
      var enable := state == "enable";
      var toggled := SetChannel(s, channelId, enable);
      if toggled.value {
        assert (channelId in toggled.state.channels) != (channelId in s.channels);
      }
    }
  }

  /** Commands under any other name are not answered and change nothing. */
  lemma OtherCommandIgnored(s: State, commandName: string, stateOption: string, channelId: ChannelId)
    requires commandName != COMMAND_NAME
    ensures HandleCommand(s, commandName, stateOption, channelId) == Step(s, None)
  {
  }

  lemma HandleCommandKeepsValid(s: State, commandName: string, stateOption: string, channelId: ChannelId)
    requires Valid(s)
    ensures Valid(HandleCommand(s, commandName, stateOption, channelId).state)
  {
  }

  // ---------------------------------------------------------------------------
  // Runs of the listener

  /** One event delivered to the listener. */
  datatype Event =
    | MessageEvent(message: Message, now: int)
    | CommandEvent(commandName: string, stateOption: string, channelId: ChannelId)

  /** The state after the events, in order. */
  function Run(s: State, events: seq<Event>): State
    decreases |events|
  {
    if events == [] then s
    else
      var before := Run(s, events[..|events| - 1]);
      match events[|events| - 1]
      case MessageEvent(m, now) => HandleMessage(before, m, now).state
      case CommandEvent(name, option, channelId) => HandleCommand(before, name, option, channelId).state
  }

  /**
   * Starting from a fresh listener, after any events every stored author history
   * holds at most MESSAGE_COUNT_LIMIT - 1 timestamps.
   */
  lemma {:induction false} RunKeepsHistoriesShort(events: seq<Event>)
    ensures HistoriesShort(Run(INITIAL, events).channels)
    decreases |events|
  {
    if events != [] {
      var before := Run(INITIAL, events[..|events| - 1]);
      RunKeepsHistoriesShort(events[..|events| - 1]);
      match events[|events| - 1]
      case MessageEvent(m, now) => HandleMessageKeepsValid(before, m, now);
      case CommandEvent(name, option, channelId) => HandleCommandKeepsValid(before, name, option, channelId);
    }
  }
}

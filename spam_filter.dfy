/**
 * The spam-filter listener as an object whose two maps are updated in place.
 * Each handler is proved to update them as the matching function of module
 * Moderation describes.
 */
module Listener {
  import opened Wrappers
  import opened RateWindow
  import opened Commands
  import opened Moderation

  class SpamFilter {
    /** Moderated channels; for each, the recent message times of each author seen there. */
    var channelRateTimestamps: map<ChannelId, map<UserId, seq<int>>>
    /** For each warned author, the time of the last warning; a stale entry stays until that author's warning is checked again. */
    var userWarnings: map<UserId, int>

    /** The listener's state as a value. */
    function Snapshot(): State
      reads this
    {
      State(channelRateTimestamps, userWarnings)
    }

    ghost predicate Valid()
      reads this
    {
      Moderation.Valid(Snapshot())
    }

    constructor ()
      ensures Valid() && Snapshot() == INITIAL
    {
      channelRateTimestamps := map[];
      userWarnings := map[];
    }

    /** Records that `userId` was warned at `now`. */
    method UpdateUserWarning(userId: UserId, now: int)
      requires Valid()
      modifies this
      ensures Valid()
      ensures Snapshot() == RecordWarning(old(Snapshot()), userId, now)
    {
      userWarnings := userWarnings[userId := now];
    }

    /** Whether `userId` was warned within WARNING_RATE of `now`; a stale entry is removed. */
    method WasWarnedRecently(userId: UserId, now: int) returns (recently: bool)
      requires Valid()
      modifies this
      ensures Valid()
      ensures Step(Snapshot(), recently) == CheckWarning(old(Snapshot()), userId, now)
    {
      var timestampWarning := if userId in userWarnings then Some(userWarnings[userId]) else None;
      if timestampWarning.Some? {
        if now - timestampWarning.value <= WARNING_RATE {
          return true;
        } else {
          userWarnings := userWarnings - {userId};
        }
      }
      return false;
    }

    /** Turns moderation of `channelId` on (`state`) or off; returns whether anything changed. */
    method SetSpamFilterChannel(channelId: ChannelId, state: bool) returns (changed: bool)
      requires Valid()
      modifies this
      ensures Valid()
      ensures Step(Snapshot(), changed) == SetChannel(old(Snapshot()), channelId, state)
    {
      var channelAlreadyFiltered := channelId in channelRateTimestamps;
      if state && !channelAlreadyFiltered {
        channelRateTimestamps := channelRateTimestamps[channelId := map[]];
        return true;
      } else if !state && channelAlreadyFiltered {
        channelRateTimestamps := channelRateTimestamps - {channelId};
        return true;
      }
      return false;
    }

    /** Handles one incoming message `m`, at time `now`. */
    method OnMessageReceived(m: Message, now: int) returns (action: Action)
      requires Valid()
      modifies this
      ensures Valid()
      ensures Step(Snapshot(), action) == HandleMessage(old(Snapshot()), m, now)
    {
      ghost var s := Snapshot();
      HandleMessageKeepsValid(s, m, now);
      action := NoAction;
      if m.authorIsBot {
        return;
      }
      if m.channelId !in channelRateTimestamps {
        return;
      }
      var currentChannel := channelRateTimestamps[m.channelId];
      if m.authorId !in currentChannel {
        // First message seen from this author here: start an empty history, record nothing.
        channelRateTimestamps := channelRateTimestamps[m.channelId := currentChannel[m.authorId := []]];
        return;
      }
      var messageHistory := currentChannel[m.authorId];
      ghost var e := Evaluate(Some(messageHistory), now, m.messageTime);
      var updatedHistory, messageCount := PruneHistory(messageHistory, now);
      channelRateTimestamps := channelRateTimestamps[m.channelId := currentChannel[m.authorId := updatedHistory]];

      var filterMessage := messageCount >= MESSAGE_COUNT_LIMIT;
      if !filterMessage {
        // The stored list and `updatedHistory` are one object in the listener, so
        // appending the message time updates the stored history.
        updatedHistory := updatedHistory + [m.messageTime];
        channelRateTimestamps := channelRateTimestamps[m.channelId := currentChannel[m.authorId := updatedHistory]];
        assert e == Evaluation(Allowed(messageCount), updatedHistory);
        return;
      }
      assert e == Evaluation(Filtered(messageCount), updatedHistory);
      ghost var evaluated := Snapshot();
      assert HandleMessage(s, m, now) == (
        var checked := CheckWarning(evaluated, m.authorId, now);
        if checked.value then Step(checked.state, Delete)
        else Step(RecordWarning(checked.state, m.authorId, now), DeleteAndWarn(WarningText(m.authorMention))));

      action := Delete;
      var recently := WasWarnedRecently(m.authorId, now);
      if recently {
        return;
      }
      UpdateUserWarning(m.authorId, now);
      action := DeleteAndWarn(WarningText(m.authorMention));
    }

    /**
     * Handles a slash command issued in `channelId`; the reply is None for any
     * command other than `spamfilter`.
     */
    method OnSlashCommandInteraction(commandName: string, stateOption: string, channelId: ChannelId)
      returns (reply: Option<string>)
      requires Valid()
      modifies this
      ensures Valid()
      ensures Step(Snapshot(), reply) == HandleCommand(old(Snapshot()), commandName, stateOption, channelId)
    {
      if commandName != COMMAND_NAME {
        return None;
      }
      var stateInput := ToLower(stateOption);
      if !IsStateOption(stateInput) {
        var invalidStateMessage := UnknownStateMessage(stateInput);
        return Some(invalidStateMessage);
      }
      var replyMessage;
      if stateInput == "enable" {
        var success := SetSpamFilterChannel(channelId, true);
        replyMessage := ToggleReply(true, success, channelId);
      } else {
        // The only other accepted value is "disable".
        var success := SetSpamFilterChannel(channelId, false);
        replyMessage := ToggleReply(false, success, channelId);
      }
      reply := Some(replyMessage);
    }
  }
}

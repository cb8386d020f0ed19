/**
 * The `spamfilter` slash command: validation of its `state` argument, the
 * reply texts, and the autocomplete suggestions for that argument.
 */
module Commands {
  import opened Wrappers
  import opened Filtering

  /** The registered name of the command. */
  const COMMAND_NAME: string := "spamfilter"
  /** The name of the command's single string option. */
  const STATE_OPTION_NAME: string := "state"
  /** The accepted values of the `state` option, in the order they are offered. */
  const STATE_OPTIONS: seq<string> := ["enable", "disable"]

  predicate IsUpperAscii(c: char) {
    'A' <= c <= 'Z'
  }

  function LowerChar(c: char): char {
    if IsUpperAscii(c) then (c as int + ('a' as int - 'A' as int)) as char else c
  }

  /** Lower-casing of the typed `state` value (ASCII letters only). */
  function ToLower(s: string): (r: string)
    ensures |r| == |s|
    ensures forall i :: 0 <= i < |s| ==> !IsUpperAscii(r[i])
    ensures forall i :: 0 <= i < |s| && !IsUpperAscii(s[i]) ==> r[i] == s[i]
    ensures forall i :: 0 <= i < |s| && IsUpperAscii(s[i]) ==> r[i] as int == s[i] as int + 32
  {
    seq(|s|, i requires 0 <= i < |s| => LowerChar(s[i]))
  }

  /** Lower-casing an already lower-cased value changes nothing. */
  lemma ToLowerIdempotent(s: string)
    ensures ToLower(ToLower(s)) == ToLower(s)
  {
  }

  /** An accepted `state` value after lower-casing. */
  predicate IsStateOption(state: string) {
    state in STATE_OPTIONS
  }

  function ChannelMention(channelId: string): string {
    "<#" + channelId + ">"
  }

  /** The reply to a valid `state`: whether the channel changed, and in which direction. */
  function ToggleReply(enable: bool, changed: bool, channelId: string): (r: string)
    ensures |r| > 0 && r[|r| - 1] == (if changed then '✅' else '❌')
  {
    if enable then
      if changed then "Spam filter has been enabled for " + ChannelMention(channelId) + " ✅"
      else "Spam filter is already enabled for " + ChannelMention(channelId) + " ❌"
    else
      if changed then "Spam filter has been disabled for " + ChannelMention(channelId) + " ✅"
      else "Spam filter is already disabled for " + ChannelMention(channelId) + " ❌"
  }

  /** The "changed" and "already in that state" replies are never confused. */
  lemma ToggleReplyDistinguishesOutcome(enable: bool, channelId: string, other: string)
    ensures ToggleReply(enable, true, channelId) != ToggleReply(enable, false, other)
  {
    var a := ToggleReply(enable, true, channelId);
    var b := ToggleReply(enable, false, other);
    assert a[|a| - 1] != b[|b| - 1];
  }

  /** One line of the list of accepted options in the validation reply. */
  function OptionLine(option: string): string {
    "\n- *" + option + "*"
  }

  function OptionLines(options: seq<string>): string
    decreases |options|
  {
    if options == [] then "" else OptionLines(options[..|options| - 1]) + OptionLine(options[|options| - 1])
  }

  /** The listing in the validation reply names exactly the two accepted values, in order. */
  lemma StateOptionLines()
    ensures OptionLines(STATE_OPTIONS) == OptionLine("enable") + OptionLine("disable")
  {
    assert STATE_OPTIONS[..1] == ["enable"];
    assert ["enable"][..0] == [];
    assert OptionLines(["enable"]) == "" + OptionLine("enable");
  }

  function UnknownStateHeader(state: string): string {
    "Unknown state argument: `" + state + "` \U{1F914}" + "\n\nAvaliable options:"
  }

  /** Builds the validation-failure reply for an unrecognised `state`, listing every accepted value. */
  method UnknownStateMessage(state: string) returns (message: string)
    ensures message == UnknownStateHeader(state) + OptionLines(STATE_OPTIONS)
    ensures message == UnknownStateHeader(state) + OptionLine("enable") + OptionLine("disable")
  {
    message := "Unknown state argument: `" + state + "` \U{1F914}";
    message := message + "\n\nAvaliable options:";
    for i := 0 to |STATE_OPTIONS|
      invariant message == UnknownStateHeader(state) + OptionLines(STATE_OPTIONS[..i])
    {
      assert STATE_OPTIONS[..i + 1][..i] == STATE_OPTIONS[..i];
      message := message + OptionLine(STATE_OPTIONS[i]);
    }
    assert STATE_OPTIONS[..|STATE_OPTIONS|] == STATE_OPTIONS;
    StateOptionLines();
  }

  /** An autocomplete suggestion: the label shown and the value submitted. */
  datatype Choice = Choice(name: string, value: string)

  function HasPrefix(typed: string): string -> bool {
    word => typed <= word
  }

  function ToChoices(words: seq<string>): seq<Choice>
  {
    seq(|words|, i requires 0 <= i < |words| => Choice(words[i], words[i]))
  }

  /**
   * Suggestions for the focused option of an autocomplete interaction; None when
   * the interaction is not for the `state` option of this command (no reply).
   */
  function AutocompleteChoices(commandName: string, focusedName: string, typed: string): (r: Option<seq<Choice>>)
    ensures r.Some? <==> commandName == COMMAND_NAME && focusedName == STATE_OPTION_NAME
    ensures r.Some? ==> |r.value| <= |STATE_OPTIONS|
  {
    if commandName == COMMAND_NAME && focusedName == STATE_OPTION_NAME then
      Some(ToChoices(Filter(STATE_OPTIONS, HasPrefix(typed))))
    else None
  }

  /**
   * The suggestions are exactly the accepted values that start with the typed
   * text, each offered under its own name, in the order of STATE_OPTIONS.
   */
  lemma AutocompleteExact(typed: string, word: string)
    ensures var r := AutocompleteChoices(COMMAND_NAME, STATE_OPTION_NAME, typed);
      && r.Some?
      && (Choice(word, word) in r.value <==> word in STATE_OPTIONS && typed <= word)
      && (forall c :: c in r.value ==> c.name == c.value && c.name in STATE_OPTIONS)
      && r.value == ToChoices(Filter(STATE_OPTIONS, HasPrefix(typed)))
  {
    var kept := Filter(STATE_OPTIONS, HasPrefix(typed));
    var r := ToChoices(kept);
    FilterMembership(STATE_OPTIONS, HasPrefix(typed), word);
    if Choice(word, word) in r {
      var i :| 0 <= i < |r| && r[i] == Choice(word, word);
      assert kept[i] == word;
    }
    if word in kept {
      var i :| 0 <= i < |kept| && kept[i] == word;
      assert r[i] == Choice(word, word);
    }
    forall c | c in r
      ensures c.name == c.value && c.name in STATE_OPTIONS
    {
      var i :| 0 <= i < |r| && r[i] == c;
      assert kept[i] in kept;
    }
  }

  /** Any other interaction gets no suggestions. */
  lemma AutocompleteOtherInteraction(commandName: string, focusedName: string, typed: string)
    ensures AutocompleteChoices(commandName, focusedName, typed).Some?
      <==> commandName == COMMAND_NAME && focusedName == STATE_OPTION_NAME
  {
  }

  /** The accepted values that start with `typed`, worked out one option at a time. */
  lemma PrefixFilterOfOptions(typed: string)
    ensures Filter(STATE_OPTIONS, HasPrefix(typed))
      == (if typed <= "enable" then ["enable"] else []) + (if typed <= "disable" then ["disable"] else [])
  {
    assert STATE_OPTIONS == ["enable"] + ["disable"];
    FilterCons("enable", ["disable"], HasPrefix(typed));
    FilterCons("disable", [], HasPrefix(typed));
    assert ["disable"] == ["disable"] + [];
  }

  /** Typing "en" suggests only "enable". */
  lemma AutocompleteEn()
    ensures AutocompleteChoices(COMMAND_NAME, STATE_OPTION_NAME, "en") == Some([Choice("enable", "enable")])
  {
    PrefixFilterOfOptions("en");
    assert "enable"[..2] == "en";
    assert "disable"[..2] != "en" by { assert "disable"[..2][0] == 'd'; }
    var kept := Filter(STATE_OPTIONS, HasPrefix("en"));
    assert kept == ["enable"];
    assert AutocompleteChoices(COMMAND_NAME, STATE_OPTION_NAME, "en") == Some(ToChoices(kept));
    assert ToChoices(["enable"]) == [Choice("enable", "enable")];
  }

  /** Typing nothing suggests both options, in order. */
  lemma AutocompleteEmpty()
    ensures AutocompleteChoices(COMMAND_NAME, STATE_OPTION_NAME, "")
      == Some([Choice("enable", "enable"), Choice("disable", "disable")])
  {
    PrefixFilterOfOptions("");
    assert "" <= "enable" && "" <= "disable";
    var kept := Filter(STATE_OPTIONS, HasPrefix(""));
    assert kept == ["enable", "disable"];
    assert AutocompleteChoices(COMMAND_NAME, STATE_OPTION_NAME, "") == Some(ToChoices(kept));
    assert ToChoices(["enable", "disable"]) == [Choice("enable", "enable"), Choice("disable", "disable")];
  }

  /** Typing "dis" suggests only "disable". */
  lemma AutocompleteDis()
    ensures AutocompleteChoices(COMMAND_NAME, STATE_OPTION_NAME, "dis") == Some([Choice("disable", "disable")])
  {
    PrefixFilterOfOptions("dis");
    assert "disable"[..3] == "dis";
    assert "enable"[..3] != "dis" by { assert "enable"[..3][0] == 'e'; }
    var kept := Filter(STATE_OPTIONS, HasPrefix("dis"));
    assert kept == ["disable"];
    assert AutocompleteChoices(COMMAND_NAME, STATE_OPTION_NAME, "dis") == Some(ToChoices(kept));
    assert ToChoices(["disable"]) == [Choice("disable", "disable")];
  }

  /** The typed value is not lower-cased: "EN" matches nothing. */
  lemma AutocompleteCaseSensitive()
    ensures AutocompleteChoices(COMMAND_NAME, STATE_OPTION_NAME, "EN") == Some([])
  {
    PrefixFilterOfOptions("EN");
    assert "enable"[..2] != "EN" by { assert "enable"[..2][0] == 'e'; }
    assert "disable"[..2] != "EN" by { assert "disable"[..2][0] == 'd'; }
    var kept := Filter(STATE_OPTIONS, HasPrefix("EN"));
    assert kept == [];
    assert AutocompleteChoices(COMMAND_NAME, STATE_OPTION_NAME, "EN") == Some(ToChoices(kept));
    assert |ToChoices([])| == 0;
  }
}

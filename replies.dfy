/**
 * The texts the bot sends back (app.py:37-81). Replies are values: sending
 * them through the chat platform is the client library's business.
 */
module Replies {
  import opened Wrappers
  import opened Text

  /**
   * One outbound message. `Greeting` stands for the MarkdownV2 welcome of
   * /start, whose text embeds a mention rendered by the client library
   * (app.py:37-40): the model keeps who is greeted, not the markup.
   */
  datatype Reply = Plain(text: string) | Greeting(userId: int, firstName: string)

  /** One line of the /help text: a command name (without its slash) and what it does. */
  datatype HelpEntry = HelpEntry(command: string, doc: string)

  /** The lines of the /help text, in order (app.py:52-55). */
  const HelpEntries: seq<HelpEntry> := [
    HelpEntry("start", " - Start interacting with the bot\n"),
    HelpEntry("help", " - Show this help message\n"),
    HelpEntry("stats", " - Show bot statistics\n"),
    HelpEntry("echo", " <text> - Echo back your text\n")
  ]

  /** The constant reply of /help (app.py:50-56), leading and trailing newline included. */
  const HelpText: string := "\nAvailable commands:\n" + Render(HelpEntries)

  function Render(entries: seq<HelpEntry>): string
  {
    if entries == [] then "" else "/" + entries[0].command + entries[0].doc + Render(entries[1..])
  }

  /** What /echo says when there is nothing to echo (app.py:71). */
  const EchoUsage: string := "Please provide text to echo after /echo command"

  const EchoPrefix: string := "Echo: "
  const YouSaidPrefix: string := "You said: "

  const UsersLabel: string := "Users: "
  const MessagesLabel: string := "\nMessages processed: "

  /**
   * The two-line reply of /stats (app.py:61-64). Line 62 of the source reads
   * `{len(bot_data['users']}` with its parenthesis unbalanced, which Python
   * refuses to parse; the model follows the evident intent, the number of
   * registered users.
   */
  function StatsText(userCount: nat, processed: nat): string
  {
    UsersLabel + NatToString(userCount) + MessagesLabel + NatToString(processed)
  }

  /**
   * Reads the two numbers back out of a /stats reply; None for any other text,
   * including numbers written with a leading zero, which the f-string never does.
   */
  function ParseStats(r: string): Option<(nat, nat)>
  {
    if |r| < |UsersLabel| || r[..|UsersLabel|] != UsersLabel then None
    else
      var rest := r[|UsersLabel|..];
      var k := DigitRun(rest);
      var after := rest[k..];
      if !IsNumeral(rest[..k]) || |after| < |MessagesLabel| || after[..|MessagesLabel|] != MessagesLabel then None
      else
        var tail := after[|MessagesLabel|..];
        if !IsNumeral(tail) then None
        else Some((DigitsValue(rest[..k]), DigitsValue(tail)))
  }

  /** A /stats reply states both numbers and nothing else: parsing it gives them back. */
  lemma StatsRoundTrip(userCount: nat, processed: nat)
    ensures ParseStats(StatsText(userCount, processed)) == Some((userCount, processed))
  {
    var a, b := NatToString(userCount), NatToString(processed);
    var r := StatsText(userCount, processed);
    assert r == UsersLabel + (a + MessagesLabel + b);
    var rest := r[|UsersLabel|..];
    assert rest == a + (MessagesLabel + b);
    DigitRunOfPrefix(a, MessagesLabel + b);
    assert rest[..|a|] == a;
    assert rest[|a|..] == MessagesLabel + b;
    assert rest[|a|..][|MessagesLabel|..] == b;
    DigitsValueOfNatToString(userCount);
    DigitsValueOfNatToString(processed);
  }

  /** One registered user and two processed messages read as two plain lines. */
  lemma StatsTextExample()
    ensures StatsText(1, 2) == "Users: " + "1" + "\nMessages processed: " + "2"
  {
  }

  /** Only the /stats reply for two counts parses to them: the parse accepts exactly the texts the f-string writes. */
  lemma ParseStatsExact(r: string, userCount: nat, processed: nat)
    requires ParseStats(r) == Some((userCount, processed))
    ensures r == StatsText(userCount, processed)
  {
    var rest := r[|UsersLabel|..];
    var k := DigitRun(rest);
    var a, after := rest[..k], rest[k..];
    var b := after[|MessagesLabel|..];
    assert r[..|UsersLabel|] == UsersLabel && IsNumeral(a) && after[..|MessagesLabel|] == MessagesLabel;
    assert IsNumeral(b) && DigitsValue(a) == userCount && DigitsValue(b) == processed;
    NatToStringOfDigitsValue(a);
    NatToStringOfDigitsValue(b);
    Reassemble(r, UsersLabel, k, MessagesLabel);
  }

  /** A text cut into a label, `k` characters, a second label and the rest is their concatenation. */
  lemma Reassemble(r: string, first: string, k: nat, second: string)
    requires |first| + k + |second| <= |r|
    requires r[..|first|] == first && r[|first|..][k..][..|second|] == second
    ensures r == first + r[|first|..][..k] + second + r[|first|..][k..][|second|..]
  {
    var rest := r[|first|..];
    assert r == first + rest;
    assert rest == rest[..k] + rest[k..];
    assert rest[k..] == second + rest[k..][|second|..];
  }

  /** Different counts give different /stats replies. */
  lemma StatsTextInjective(u1: nat, p1: nat, u2: nat, p2: nat)
    requires StatsText(u1, p1) == StatsText(u2, p2)
    ensures u1 == u2 && p1 == p2
  {
    StatsRoundTrip(u1, p1);
    StatsRoundTrip(u2, p2);
  }

  /** Every command listed in the entries occurs, with its slash, in their rendering, whatever precedes it. */
  lemma {:induction false} RenderNamesCommands(pre: string, entries: seq<HelpEntry>, k: nat)
    requires k < |entries|
    ensures Contains(pre + Render(entries), "/" + entries[k].command)
    decreases |entries|
  {
    var e := entries[0];
    var w := pre + Render(entries);
    var line := "/" + e.command;
    if k == 0 {
      assert w == pre + line + (e.doc + Render(entries[1..]));
      assert w[|pre|..|pre| + |line|] == line;
      assert OccursAt(w, line, |pre|);
    } else {
      assert w == (pre + line + e.doc) + Render(entries[1..]);
      RenderNamesCommands(pre + line + e.doc, entries[1..], k - 1);
    }
  }

  /** The /help text lists exactly these commands, in this order, each with its slash. */
  lemma HelpListsCommands()
    ensures |HelpEntries| == 4
    ensures forall k :: 0 <= k < |HelpEntries| ==> Contains(HelpText, "/" + HelpEntries[k].command)
    ensures HelpEntries[0].command == "start" && HelpEntries[1].command == "help"
    ensures HelpEntries[2].command == "stats" && HelpEntries[3].command == "echo"
  {
    forall k | 0 <= k < |HelpEntries|
      ensures Contains(HelpText, "/" + HelpEntries[k].command)
    {
      RenderNamesCommands("\nAvailable commands:\n", HelpEntries, k);
    }
  }
}

// The PlaceholderAPI expansion: a placeholder such as %trackplayer_deaths%
// asks the plugin for one counter of one player and shows it as text.

module Placeholder {
  import opened Wrappers
  import opened Uuids
  import opened Stats
  import opened TrackPlayerPlugin

  /*
   * Lower-casing. Every keyword is plain ASCII, so a character can only
   * matter to the match if its lower-case form consists of ASCII characters
   * only: the letters A-Z and the Kelvin sign, whose lower-case form is 'k'.
   * Every other character is kept as it is. Its lower-case form holds a
   * character that is not ASCII (U+0130, for one, becomes 'i' followed by
   * a combining dot), so it makes the text miss every keyword in both cases.
   */

  const KelvinSign: char := '\U{212A}'

  function LowerChar(ch: char): char {
    if 'A' <= ch <= 'Z' then (ch as int + 32) as char
    else if ch == KelvinSign then 'k'
    else ch
  }

  function Lower(s: string): (r: string)
    ensures |r| == |s|
    ensures forall i :: 0 <= i < |s| ==> r[i] == LowerChar(s[i])
  {
    seq(|s|, i requires 0 <= i < |s| => LowerChar(s[i]))
  }

  /** Lower-casing changes nothing more when done twice. */
  lemma LowerIdempotent(s: string)
    ensures Lower(Lower(s)) == Lower(s)
  {
    forall i | 0 <= i < |s|
      ensures Lower(Lower(s))[i] == Lower(s)[i]
    {
      assert Lower(Lower(s))[i] == LowerChar(LowerChar(s[i]));
    }
  }

  /*
   * Decimal text, as String.valueOf(int) writes it: a '-' for a negative
   * value, then the digits without leading zeros.
   */

  predicate IsDigit(ch: char) {
    '0' <= ch <= '9'
  }

  predicate AllDigits(s: string) {
    forall i :: 0 <= i < |s| ==> IsDigit(s[i])
  }

  function Digits(n: nat): (s: string)
    ensures |s| >= 1 && AllDigits(s)
    ensures |s| > 1 ==> s[0] != '0'
    ensures s[0] == '0' ==> n == 0
  {
    if n < 10 then [(48 + n) as char] else Digits(n / 10) + [(48 + n % 10) as char]
  }

  function DecimalString(x: int): (s: string)
    ensures |s| >= 1
    ensures s[0] == '-' <==> x < 0
    ensures var m := if x < 0 then 1 else 0;
              |s| > m && AllDigits(s[m..]) && (s[m] == '0' ==> |s| == m + 1)
  {
    if x < 0 then
      var s := "-" + Digits(-x);
      assert s[1..] == Digits(-x);
      s
    else Digits(x)
  }

  /** The value of a string of digits, most significant first. */
  function DigitsValue(s: string): nat
    requires AllDigits(s)
  {
    if s == [] then 0 else DigitsValue(s[..|s| - 1]) * 10 + (s[|s| - 1] as int - 48)
  }

  /** Reads back decimal text: an optional '-', then at least one digit. */
  function ReadDecimal(s: string): Option<int> {
    if |s| >= 2 && s[0] == '-' && AllDigits(s[1..]) then Some(0 - DigitsValue(s[1..]))
    else if |s| >= 1 && AllDigits(s) then Some(DigitsValue(s))
    else None
  }

  lemma {:induction false} DigitsValueOfDigits(n: nat)
    ensures DigitsValue(Digits(n)) == n
  {
    if n >= 10 {
      DigitsValueOfDigits(n / 10);
      var s := Digits(n);
      assert s[..|s| - 1] == Digits(n / 10);
    }
  }

  /** The text a counter is shown as reads back as that counter. */
  lemma ReadDecimalString(x: int)
    ensures ReadDecimal(DecimalString(x)) == Some(x)
  {
    if x < 0 {
      DigitsValueOfDigits(-x);
      assert DecimalString(x)[1..] == Digits(-x);
    } else {
      DigitsValueOfDigits(x);
    }
  }

  /** Different values are shown as different text. */
  lemma DecimalStringInjective(x: int, y: int)
    requires DecimalString(x) == DecimalString(y)
    ensures x == y
  {
    ReadDecimalString(x);
    ReadDecimalString(y);
  }

  /*
   * Requests.
   */

  const Keywords: set<string> := {"kills", "player_kills", "deaths", "mob_kills", "mobkills"}

  /** The counter a lower-cased parameter names, if it names one. */
  function CounterNamed(key: string): (r: Option<Counter>)
    ensures r.Some? <==> key in Keywords
    ensures r == Some(PlayerKills) <==> key == "kills" || key == "player_kills"
    ensures r == Some(Deaths) <==> key == "deaths"
    ensures r == Some(MobKills) <==> key == "mob_kills" || key == "mobkills"
  {
    match key
    case "kills" | "player_kills" => Some(PlayerKills)
    case "deaths" => Some(Deaths)
    case "mob_kills" | "mobkills" => Some(MobKills)
    case _ => None
  }

  /**
   * The value of a placeholder: "0" without a player, no value for an
   * unknown parameter, and otherwise the named counter of the player as
   * decimal text. The parameter is matched without regard to case.
   */
  function OnRequest(plugin: TrackPlayer, player: Option<Uuid>, params: string): (r: Option<string>)
    reads plugin
    ensures player.None? ==> r == Some("0")
    ensures player.Some? ==> (r.Some? <==> Lower(params) in Keywords)
    ensures player.Some? && r.Some? ==>
              r.value == DecimalString(Count(plugin.statsCache, player.value, CounterNamed(Lower(params)).value))
  {
    match player
    case None => Some("0")
    case Some(u) =>
      match Lower(params)
      case "kills" | "player_kills" => Some(DecimalString(plugin.GetPlayerKills(u)))
      case "deaths" => Some(DecimalString(plugin.GetDeaths(u)))
      case "mob_kills" | "mobkills" => Some(DecimalString(plugin.GetMobKills(u)))
      case _ => None
  }

  /** An online player's placeholder is answered exactly as an offline one's. */
  function OnPlaceholderRequest(plugin: TrackPlayer, player: Option<Uuid>, params: string): (r: Option<string>)
    reads plugin
    ensures r == OnRequest(plugin, player, params)
  {
    OnRequest(plugin, player, params)
  }

  /** A placeholder's text reads back as the counter its parameter names. */
  lemma OnRequestReadsBack(plugin: TrackPlayer, u: Uuid, params: string)
    requires Lower(params) in Keywords
    ensures OnRequest(plugin, Some(u), params).Some?
    ensures ReadDecimal(OnRequest(plugin, Some(u), params).value)
            == Some(Count(plugin.statsCache, u, CounterNamed(Lower(params)).value))
  {
    ReadDecimalString(Count(plugin.statsCache, u, CounterNamed(Lower(params)).value));
  }

  /** A parameter gives the same answer as its lower-case form. */
  lemma CaseInsensitive(plugin: TrackPlayer, player: Option<Uuid>, params: string)
    ensures OnRequest(plugin, player, params) == OnRequest(plugin, player, Lower(params))
  {
    LowerIdempotent(params);
  }
}

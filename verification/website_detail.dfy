/**
 * The website page's ranking-change badge: an icon, a colour and a text
 * computed from a keyword's current and previous ranking, where a falsy
 * ranking (missing or 0) means nothing is known.
 */
module WebsiteDetail {
  import opened Common
  import opened Text

  datatype Icon = TrendingUp | TrendingDown | Minus

  /** `text-success`, `text-destructive`, `text-muted-foreground`. */
  datatype Tone = Success | Destructive | Muted

  datatype ChangeView = ChangeView(icon: Icon, tone: Tone, text: string)

  /**
   * `getRankingChange(current, previous)`: neutral `-` unless both rankings
   * are truthy; otherwise `change = previous - current` decides: up and
   * green with `+change`, down and red with the negative change, or neutral
   * `0`. Up always goes with green and down with red.
   */
  function RankingChange(current: Option<int>, previous: Option<int>): (v: ChangeView)
    ensures !Truthy(current) || !Truthy(previous) ==> v == ChangeView(Minus, Muted, "-")
    ensures Truthy(current) && Truthy(previous) ==>
      && (v.icon == TrendingUp <==> previous.value - current.value > 0)
      && (v.icon == TrendingDown <==> previous.value - current.value < 0)
    ensures v.tone == Success <==> v.icon == TrendingUp
    ensures v.tone == Destructive <==> v.icon == TrendingDown
  {
    if !Truthy(current) || !Truthy(previous) then ChangeView(Minus, Muted, "-")
    else
      var change := previous.value - current.value;
      if change > 0 then ChangeView(TrendingUp, Success, "+" + Decimal(change))
      else if change < 0 then ChangeView(TrendingDown, Destructive, "-" + Decimal(-change))
      else ChangeView(Minus, Muted, "0")
  }

  predicate AllDigits(s: string) {
    forall i :: 0 <= i < |s| ==> IsDigit(s[i])
  }

  /**
   * Reads a badge text back as a signed change: `-` alone says nothing is
   * known, a numeral with an optional sign is its value.
   */
  function ReadChange(text: string): Option<int> {
    if |text| >= 2 && (text[0] == '+' || text[0] == '-') && AllDigits(text[1..]) then
      var n: int := DecimalValue(text[1..]);
      Some(if text[0] == '+' then n else -n)
    else if text != [] && AllDigits(text) then Some(DecimalValue(text))
    else None
  }

  /**
   * The badge text carries exactly `previous - current` when both rankings
   * are truthy, and nothing otherwise.
   */
  lemma ChangeTextRoundTrip(current: Option<int>, previous: Option<int>)
    ensures ReadChange(RankingChange(current, previous).text)
         == if Truthy(current) && Truthy(previous) then Some(previous.value - current.value) else None
  {
    if Truthy(current) && Truthy(previous) {
      var change := previous.value - current.value;
      if change > 0 {
        SignedRoundTrip('+', change);
      } else if change < 0 {
        SignedRoundTrip('-', -change);
      } else {
        assert ReadChange("0") == Some(0);
      }
    } else {
      assert !IsDigit('-');
    }
  }

  /** A sign followed by a numeral reads back as that signed number. */
  lemma SignedRoundTrip(sign: char, n: nat)
    requires sign == '+' || sign == '-'
    ensures ReadChange([sign] + Decimal(n)) == Some(if sign == '+' then n as int else -(n as int))
  {
    var text := [sign] + Decimal(n);
    assert text[1..] == Decimal(n);
    DecimalRoundTrip(n);
  }
}

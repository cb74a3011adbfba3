/**
 * The stats card: the rank badge and the motivational quote chosen by
 * thresholds on the overall completion.
 */
module StatsSection {
  import opened Wrappers
  import opened ArrayOps

  /** How a rank badge is shown. */
  datatype BadgeStyle = BadgeStyle(emoji: string, title: string, color: string)

  /** A quote and the least completion it is shown for. */
  datatype Quote = Quote(min: real, text: string)

  /** The rank badges from the top tier (index 0) down to the bottom tier (index 4). */
  const BadgeStyles: seq<BadgeStyle> := [
    BadgeStyle("👑", "Legendary Warrior", "from-yellow-400 to-orange-400"),
    BadgeStyle("⭐", "Elite Hunter", "from-purple-400 to-pink-400"),
    BadgeStyle("🗡️", "Skilled Fighter", "from-blue-400 to-purple-400"),
    BadgeStyle("🛡️", "Novice Warrior", "from-green-400 to-blue-400"),
    BadgeStyle("🌱", "Awakening", "from-gray-400 to-gray-500")
  ]

  /** The least completion of each tier above the bottom one, from the top. */
  const TierMins: seq<real> := [90.0, 75.0, 50.0, 25.0]

  /** The quotes, scanned in this order. */
  const Quotes: seq<Quote> := [
    Quote(90.0, "You've reached the pinnacle of power. The warrior's path is complete."),
    Quote(75.0, "Your strength grows with each challenge. Keep pushing forward."),
    Quote(50.0, "The path to greatness requires persistence. You are on the right track."),
    Quote(25.0, "Every master was once a beginner. Your journey has just begun."),
    Quote(0.0, "The first step is always the hardest. Begin your awakening now.")
  ]

  function Above(completion: real): real -> bool
  {
    (min: real) => completion < min
  }

  /**
   * The tier of a completion value, counted from the top: the number of tier
   * minimums it falls short of (0 = Legendary, 4 = Awakening).
   */
  function TierIndex(completion: real): (i: nat)
    ensures i < |BadgeStyles|
  {
    |Filter(TierMins, Above(completion))|
  }

  /** The tier index over the threshold table: [90, inf), [75, 90), [50, 75), [25, 50), below 25. */
  lemma {:induction false} TierIndexTable(c: real)
    ensures c >= 90.0 ==> TierIndex(c) == 0
    ensures 75.0 <= c < 90.0 ==> TierIndex(c) == 1
    ensures 50.0 <= c < 75.0 ==> TierIndex(c) == 2
    ensures 25.0 <= c < 50.0 ==> TierIndex(c) == 3
    ensures c < 25.0 ==> TierIndex(c) == 4
  {
    var p := Above(c);
    assert TierMins[1..] == [75.0, 50.0, 25.0];
    assert TierMins[2..] == [50.0, 25.0];
    assert TierMins[3..] == [25.0];
    assert TierMins[4..] == [];
    assert Filter(TierMins[4..], p) == [];
    assert |Filter(TierMins[3..], p)| == (if c < 25.0 then 1 else 0);
    assert |Filter(TierMins[2..], p)| == (if c < 50.0 then 1 else 0) + (if c < 25.0 then 1 else 0);
    assert |Filter(TierMins[1..], p)| == (if c < 75.0 then 1 else 0) + (if c < 50.0 then 1 else 0) + (if c < 25.0 then 1 else 0);
  }

  /**
   * The rank badge: Legendary from 90 (values above 100 included), Elite from
   * 75, Skilled from 50, Novice from 25, Awakening below.
   */
  function GetBadge(completion: real): (b: BadgeStyle)
    ensures b == BadgeStyles[TierIndex(completion)]
  {
    TierIndexTable(completion);
    if completion >= 90.0 then BadgeStyle("👑", "Legendary Warrior", "from-yellow-400 to-orange-400")
    else if completion >= 75.0 then BadgeStyle("⭐", "Elite Hunter", "from-purple-400 to-pink-400")
    else if completion >= 50.0 then BadgeStyle("🗡️", "Skilled Fighter", "from-blue-400 to-purple-400")
    else if completion >= 25.0 then BadgeStyle("🛡️", "Novice Warrior", "from-green-400 to-blue-400")
    else BadgeStyle("🌱", "Awakening", "from-gray-400 to-gray-500")
  }

  /** A higher completion never gives a lower tier. */
  lemma {:induction false} BadgeTierMonotone(c1: real, c2: real)
    requires c1 <= c2
    ensures TierIndex(c2) <= TierIndex(c1)
  {
    FilterWeakerKeepsMore(TierMins, Above(c2), Above(c1));
  }

  /**
   * The quote: the text of the first entry whose minimum the completion
   * reaches, or the last quote when none does (a negative completion).
   */
  function GetQuote(completion: real): (text: string)
    ensures Find(Quotes, (q: Quote) => completion >= q.min).None? ==> text == Quotes[|Quotes| - 1].text
    ensures Find(Quotes, (q: Quote) => completion >= q.min).Some? ==> text == Find(Quotes, (q: Quote) => completion >= q.min).value.text
  {
    var found := Find(Quotes, (q: Quote) => completion >= q.min);
    if found.Some? && found.value.text != "" then found.value.text else Quotes[|Quotes| - 1].text
  }

  /** Below 0 no quote matches and the last one is shown; from 0 on some quote matches. */
  lemma {:induction false} QuoteFallback(c: real)
    ensures Find(Quotes, (q: Quote) => c >= q.min).None? <==> c < 0.0
    ensures c < 0.0 ==> GetQuote(c) == Quotes[4].text
  {
    if c >= 0.0 {
      assert Quotes[4] in Quotes;
    }
  }

  /** The quote and the badge always come from the same tier. */
  lemma {:induction false} QuoteMatchesBadge(c: real)
    ensures GetQuote(c) == Quotes[TierIndex(c)].text
    ensures GetBadge(c) == BadgeStyles[TierIndex(c)]
  {
    TierIndexTable(c);
    if c < 0.0 {
      QuoteFallback(c);
    } else {
      FirstQuoteReached(c);
    }
  }

  /** From 0 on, the first quote whose minimum is reached is the one at the tier index. */
  lemma {:induction false} FirstQuoteReached(c: real)
    requires c >= 0.0
    ensures Find(Quotes, (q: Quote) => c >= q.min) == Some(Quotes[TierIndex(c)])
  {
    TierIndexTable(c);
    var mins := [Quotes[0].min, Quotes[1].min, Quotes[2].min, Quotes[3].min, Quotes[4].min];
    assert mins == [90.0, 75.0, 50.0, 25.0, 0.0];
    var i := TierIndex(c);
    forall j | 0 <= j < i
      ensures c < Quotes[j].min
    {
      assert Quotes[j].min == mins[j];
    }
    assert Quotes[i].min == mins[i];
    FindReturnsFirst(Quotes, (q: Quote) => c >= q.min, i);
  }
}

/** The history list's presentation rules: the colour band and emoji of a
    score, and the compound summary that shows three chips and counts the
    rest. */
module LogHistory {
  import opened Wrappers
  import opened Schemas
  import Seqs

  datatype Band = Neutral | Green | Yellow | Red

  /** `!score`: null and 0 are falsy. */
  predicate Unscored(score: Option<real>) {
    score.None? || score.value == 0.0
  }

  /** `getSentimentColor`: no score is neutral, 4 and up green, exactly 3
      yellow, and anything else (including out-of-range values) red. */
  function SentimentColor(score: Option<real>): (b: Band)
    ensures b == Neutral <==> Unscored(score)
    ensures b == Green <==> !Unscored(score) && score.value >= 4.0
    ensures b == Yellow <==> score == Some(3.0)
    ensures b == Red <==> !Unscored(score) && score.value < 4.0 && score.value != 3.0
  {
    if Unscored(score) then Neutral
    else if score.value >= 4.0 then Green
    else if score.value == 3.0 then Yellow
    else Red
  }

  const NeutralEmoji: string := "\U{1F610}"

  /** `getSentimentEmoji`: the emoji of the option carrying the score, and the
      neutral face for no score or a score no option carries. */
  function SentimentEmoji(score: Option<real>): (e: string)
    ensures Unscored(score) ==> e == NeutralEmoji
    ensures !Unscored(score) ==>
      (e == NeutralEmoji && forall i :: 0 <= i < |SentimentOptions| ==> SentimentOptions[i].value as real != score.value)
      || (exists i :: 0 <= i < |SentimentOptions| && SentimentOptions[i].value as real == score.value
            && e == SentimentOptions[i].emoji)
  {
    if Unscored(score) then NeutralEmoji
    else
      match Seqs.IndexOf(SentimentOptions, (o: SentimentOption) => o.value as real == score.value)
      case None => NeutralEmoji
      case Some(i) => if SentimentOptions[i].emoji != "" then SentimentOptions[i].emoji else NeutralEmoji
  }

  /** On valid scores the bands are: none neutral, 1 and 2 red, 3 yellow,
      4 and 5 green, and the emoji is the option's own. */
  lemma ValidScoreDisplay(score: Option<real>)
    requires ValidSentiment(score)
    ensures score.None? ==> SentimentColor(score) == Neutral && SentimentEmoji(score) == NeutralEmoji
    ensures score.Some? ==> SentimentColor(score) != Neutral
    ensures score.Some? ==> (SentimentColor(score) == Red <==> score.value < 3.0)
    ensures score.Some? ==> SentimentEmoji(score) == SentimentOptions[score.value.Floor - 1].emoji
  {
    if score.Some? {
      var i := score.value.Floor - 1;
      assert SentimentOptions[i].value as real == score.value;
    }
  }

  /** The chips shown: the first three compounds, in order. */
  function TopCompounds(cs: seq<Compound>): (top: seq<Compound>)
    ensures |top| == if |cs| < 3 then |cs| else 3
    ensures top == cs[..|top|]
  {
    if |cs| <= 3 then cs else cs[..3]
  }

  /** The "+N more" badge: present exactly when more than three compounds
      exist, counting those not shown. */
  function MoreCount(cs: seq<Compound>): (n: Option<nat>)
    ensures n.Some? <==> |cs| > 3
    ensures n.Some? ==> n.value > 0
  {
    if |cs| > 3 then Some(|cs| - 3) else None
  }

  /** Chips and badge together account for every compound exactly once. */
  lemma SummaryCoversAll(cs: seq<Compound>)
    ensures TopCompounds(cs) + cs[|TopCompounds(cs)|..] == cs
    ensures |TopCompounds(cs)| + MoreCount(cs).GetOr(0) == |cs|
  {
  }
}

/**
 The in-memory statistics of the message bridge and the scoring of its classifier
 (manychat-bridge/bridge.js). What a pattern matches is an input.
 */
module BridgeStats {
  import opened Basics

  datatype Entry = Entry(channel: string, classification: string, text: string)

  const RECENT := 10

  /** The recorded messages in one of these channels with one of these classifications. */
  function Tally(seen: seq<Entry>, channels: set<string>, categories: set<string>): nat {
    if seen == [] then 0
    else
      var last := seen[|seen| - 1];
      Tally(seen[..|seen| - 1], channels, categories) + (if last.channel in channels && last.classification in categories then 1 else 0)
  }

  function Channels(seen: seq<Entry>): set<string> { set e | e in seen :: e.channel }

  function Categories(seen: seq<Entry>): set<string> { set e | e in seen :: e.classification }

  lemma {:induction false} TallyAdds(seen: seq<Entry>, a: set<string>, b: set<string>, c: set<string>)
    requires a !! b
    ensures Tally(seen, a + b, c) == Tally(seen, a, c) + Tally(seen, b, c)
    ensures Tally(seen, c, a + b) == Tally(seen, c, a) + Tally(seen, c, b)
  {
    if seen != [] { TallyAdds(seen[..|seen| - 1], a, b, c); }
  }

  lemma {:induction false} TallyNone(seen: seq<Entry>, c: set<string>)
    ensures Tally(seen, {}, c) == 0 && Tally(seen, c, {}) == 0
  {
    if seen != [] { TallyNone(seen[..|seen| - 1], c); }
  }

  /** Only what occurs matters. */
  lemma {:induction false} TallyOfAll(seen: seq<Entry>, channels: set<string>, categories: set<string>)
    ensures Categories(seen) <= categories ==> Tally(seen, channels, categories) == Tally(seen, channels, Categories(seen))
    ensures Channels(seen) <= channels ==> Tally(seen, channels, categories) == Tally(seen, Channels(seen), categories)
    ensures Channels(seen) <= channels && Categories(seen) <= categories ==> Tally(seen, channels, categories) == |seen|
  {
    if seen != [] {
      var before := seen[..|seen| - 1];
      assert seen[|seen| - 1] in seen && forall e :: e in before ==> e in seen;
      TallyOfAll(before, channels, categories);
      TallyOfAll(before, channels, Categories(seen));
      TallyOfAll(before, Channels(seen), categories);
    }
  }

  /** The nested counters hold, for each channel and classification, how many such messages came in. */
  ghost predicate Counts(stats: map<string, map<string, nat>>, seen: seq<Entry>) {
    && stats.Keys == Channels(seen)
    && (forall ch :: ch in stats ==> stats[ch].Keys <= Categories(seen))
    && (forall ch, cat :: ch in stats ==>
         Tally(seen, {ch}, {cat}) == if cat in stats[ch] then stats[ch][cat] else 0)
  }

  /** A table of totals: a missing entry stands for 0. */
  function In(totals: map<string, nat>, key: string): nat {
    if key in totals then totals[key] else 0
  }

  /** Totals of the channels in `done`, over all classifications. */
  ghost predicate ByChannel(seen: seq<Entry>, totals: map<string, nat>, done: set<string>) {
    totals.Keys == done && forall ch :: ch in done ==> totals[ch] == Tally(seen, {ch}, Categories(seen))
  }

  /** Totals of the classifications, over the channels in `done`. */
  ghost predicate ByCategory(seen: seq<Entry>, totals: map<string, nat>, done: set<string>) {
    totals.Keys <= Categories(seen) && forall cat :: In(totals, cat) == Tally(seen, done, {cat})
  }

  lemma NothingDone(seen: seq<Entry>)
    ensures ByChannel(seen, map[], {}) && ByCategory(seen, map[], {})
  {
    forall cat ensures Tally(seen, {}, {cat}) == 0 { TallyNone(seen, {cat}); }
  }

  class Bridge {
    var stats: map<string, map<string, nat>>
    var recentMessages: seq<Entry>
    ghost var seen: seq<Entry>

    ghost predicate Valid()
      reads this
    {
      && Counts(stats, seen)
      && recentMessages == seen[if |seen| > RECENT then |seen| - RECENT else 0..]
    }

    constructor ()
      ensures Valid() && seen == []
    {
      stats, recentMessages, seen := map[], [], [];
    }

    /** One accepted webhook message. */
    method Record(entry: Entry)
      requires Valid()
      modifies this
      ensures Valid() && seen == old(seen) + [entry]
    {
      BumpStats(entry.channel, entry.classification);
      PushRecent(entry);
      seen := seen + [entry];
      CountOneMore(old(stats), old(seen), entry);
    }

    method BumpStats(channel: string, classification: string)
      modifies `stats
      ensures stats == Bumped(old(stats), channel, classification)
    {
      if channel !in stats {
        stats := stats[channel := map[]];
      }
      var count := In(stats[channel], classification);
      stats := stats[channel := stats[channel][classification := count + 1]];
    }

    method PushRecent(entry: Entry)
      modifies `recentMessages
      ensures
        var all := old(recentMessages) + [entry];
        recentMessages == if |all| > RECENT then all[1..] else all
    {
      recentMessages := recentMessages + [entry];
      if |recentMessages| > RECENT {
        recentMessages := recentMessages[1..];
      }
    }

    /** Each total is exactly the number of messages received, by channel and by classification. */
    method AdminStats() returns (byChannel: map<string, nat>, byClassification: map<string, nat>)
      requires Valid()
      ensures ByChannel(seen, byChannel, Channels(seen))
      ensures ByCategory(seen, byClassification, Channels(seen))
    {
      byChannel, byClassification := Totals(stats, seen);
    }
  }

  /** The report on the channels in `done`. */
  ghost predicate Reported(seen: seq<Entry>, byChannel: map<string, nat>, byClassification: map<string, nat>, done: set<string>) {
    ByChannel(seen, byChannel, done) && ByCategory(seen, byClassification, done)
  }

  method Totals(stats: map<string, map<string, nat>>, ghost seen: seq<Entry>)
    returns (byChannel: map<string, nat>, byClassification: map<string, nat>)
    requires Counts(stats, seen)
    ensures Reported(seen, byChannel, byClassification, stats.Keys)
  {
    byChannel, byClassification := map[], map[];
    var left := stats.Keys;
    ghost var done: set<string> := {};
    NothingDone(seen);
    while left != {}
      invariant left !! done && left + done == stats.Keys
      invariant Reported(seen, byChannel, byClassification, done)
      decreases |left|
    {
      var channel :| channel in left;
      MoveOne(left, done, channel);
      byChannel, byClassification := OneChannel(stats, seen, byChannel, byClassification, channel, done);
      left, done := left - {channel}, done + {channel};
    }
  }

  method OneChannel(stats: map<string, map<string, nat>>, ghost seen: seq<Entry>,
                    byChannel: map<string, nat>, byClassification: map<string, nat>, channel: string, ghost done: set<string>)
    returns (channels: map<string, nat>, classifications: map<string, nat>)
    requires Counts(stats, seen) && channel in stats && channel !in done
    requires Reported(seen, byChannel, byClassification, done)
    ensures Reported(seen, channels, classifications, done + {channel})
  {
    var total := SumOf(stats, seen, channel);
    channels := byChannel[channel := total];
    classifications := AddTo(stats, seen, byClassification, channel, done);
  }

  method SumOf(stats: map<string, map<string, nat>>, ghost seen: seq<Entry>, channel: string) returns (total: nat)
    requires Counts(stats, seen) && channel in stats
    ensures total == Tally(seen, {channel}, Categories(seen))
  {
    var counts := stats[channel];
    var left := counts.Keys;
    total := 0;
    TallyNone(seen, {channel});
    assert counts.Keys - left == {};
    while left != {}
      invariant left <= counts.Keys
      invariant total == Tally(seen, {channel}, counts.Keys - left)
      decreases |left|
    {
      var cat :| cat in left;
      TallyAdds(seen, counts.Keys - left, {cat}, {channel});
      assert counts.Keys - (left - {cat}) == counts.Keys - left + {cat};
      assert Tally(seen, {channel}, {cat}) == counts[cat];
      total := total + counts[cat];
      left := left - {cat};
    }
    assert counts.Keys - left == counts.Keys;
    UncountedAreAbsent(stats, seen, channel);
  }

  method AddTo(stats: map<string, map<string, nat>>, ghost seen: seq<Entry>, totals: map<string, nat>, channel: string, ghost done: set<string>)
    returns (sums: map<string, nat>)
    requires Counts(stats, seen) && channel in stats && channel !in done
    requires ByCategory(seen, totals, done)
    ensures ByCategory(seen, sums, done + {channel})
  {
    var counts := stats[channel];
    var left := counts.Keys;
    sums := totals;
    while left != {}
      invariant left <= counts.Keys && sums.Keys <= Categories(seen)
      invariant forall cat :: In(sums, cat) == In(totals, cat) + if cat in counts.Keys - left then counts[cat] else 0
      decreases |left|
    {
      var cat :| cat in left;
      sums := sums[cat := In(sums, cat) + counts[cat]];
      left := left - {cat};
    }
    forall cat ensures In(sums, cat) == Tally(seen, done + {channel}, {cat}) {
      TallyAdds(seen, done, {channel}, {cat});
      assert Tally(seen, {channel}, {cat}) == if cat in counts then counts[cat] else 0;
    }
  }

  function Bumped(stats: map<string, map<string, nat>>, channel: string, classification: string): map<string, map<string, nat>> {
    var counts := if channel in stats then stats[channel] else map[];
    stats[channel := counts[classification := In(counts, classification) + 1]]
  }

  lemma CountOneMore(stats: map<string, map<string, nat>>, seen: seq<Entry>, entry: Entry)
    requires Counts(stats, seen)
    ensures Counts(Bumped(stats, entry.channel, entry.classification), seen + [entry])
  {
    var after := Bumped(stats, entry.channel, entry.classification);
    assert Channels(seen + [entry]) == Channels(seen) + {entry.channel};
    assert Categories(seen + [entry]) == Categories(seen) + {entry.classification};
    forall ch, cat | ch in after
      ensures Tally(seen + [entry], {ch}, {cat}) == if cat in after[ch] then after[ch][cat] else 0
    {
      CountOnePair(stats, seen, entry, ch, cat);
    }
  }

  lemma CountOnePair(stats: map<string, map<string, nat>>, seen: seq<Entry>, entry: Entry, ch: string, cat: string)
    requires Counts(stats, seen) && ch in Bumped(stats, entry.channel, entry.classification)
    ensures
      var counts := Bumped(stats, entry.channel, entry.classification)[ch];
      Tally(seen + [entry], {ch}, {cat}) == if cat in counts then counts[cat] else 0
  {
    assert (seen + [entry])[..|seen|] == seen;
    if ch !in stats { TallyAbsentPair(seen, ch, cat); }
  }

  lemma {:induction false} TallyAbsentPair(seen: seq<Entry>, channel: string, category: string)
    requires channel !in Channels(seen)
    ensures Tally(seen, {channel}, {category}) == 0
  {
    if seen != [] {
      assert seen[|seen| - 1] in seen && forall e :: e in seen[..|seen| - 1] ==> e in seen;
      assert seen[|seen| - 1].channel in Channels(seen);
      TallyAbsentPair(seen[..|seen| - 1], channel, category);
    }
  }

  lemma UncountedAreAbsent(stats: map<string, map<string, nat>>, seen: seq<Entry>, channel: string)
    requires Counts(stats, seen) && channel in stats
    ensures Tally(seen, {channel}, stats[channel].Keys) == Tally(seen, {channel}, Categories(seen))
  {
    var counted, all := stats[channel].Keys, Categories(seen);
    assert all == counted + (all - counted);
    TallyAdds(seen, counted, all - counted, {channel});
    NoneOf(seen, {channel}, all - counted);
  }

  lemma {:induction false} NoneOf(seen: seq<Entry>, channels: set<string>, categories: set<string>)
    requires forall cat :: cat in categories ==> Tally(seen, channels, {cat}) == 0
    ensures Tally(seen, channels, categories) == 0
    decreases |categories|
  {
    if categories == {} {
      TallyNone(seen, channels);
    } else {
      var cat :| cat in categories;
      NoneOf(seen, channels, categories - {cat});
      TallyAdds(seen, categories - {cat}, {cat}, channels);
      assert categories - {cat} + {cat} == categories;
    }
  }

  // ---------------------------------------------------------------- conservation

  ghost function Sum(totals: map<string, nat>): nat
    decreases |totals|
  {
    if totals == map[] then 0
    else
      var key :| key in totals;
      totals[key] + Sum(totals - {key})
  }

  lemma {:induction false} SumByChannel(totals: map<string, nat>, seen: seq<Entry>, categories: set<string>)
    requires forall ch :: ch in totals ==> totals[ch] == Tally(seen, {ch}, categories)
    ensures Sum(totals) == Tally(seen, totals.Keys, categories)
    decreases |totals|
  {
    TallyNone(seen, categories);
    if totals != map[] {
      var key :| key in totals && Sum(totals) == totals[key] + Sum(totals - {key});
      SumByChannel(totals - {key}, seen, categories);
      TallyAdds(seen, (totals - {key}).Keys, {key}, categories);
      assert (totals - {key}).Keys + {key} == totals.Keys;
    }
  }

  lemma {:induction false} SumByClassification(totals: map<string, nat>, seen: seq<Entry>, channels: set<string>)
    requires forall cat :: cat in totals ==> totals[cat] == Tally(seen, channels, {cat})
    ensures Sum(totals) == Tally(seen, channels, totals.Keys)
    decreases |totals|
  {
    TallyNone(seen, channels);
    if totals != map[] {
      var key :| key in totals && Sum(totals) == totals[key] + Sum(totals - {key});
      SumByClassification(totals - {key}, seen, channels);
      TallyAdds(seen, (totals - {key}).Keys, {key}, channels);
      assert (totals - {key}).Keys + {key} == totals.Keys;
    }
  }

  /** What the admin endpoint reports adds up to the number of messages, either way. */
  lemma TotalsAddUp(seen: seq<Entry>, byChannel: map<string, nat>, byClassification: map<string, nat>)
    requires ByChannel(seen, byChannel, Channels(seen)) && ByCategory(seen, byClassification, Channels(seen))
    ensures Sum(byChannel) == |seen| == Sum(byClassification)
  {
    SumByChannel(byChannel, seen, Categories(seen));
    TallyOfAll(seen, Channels(seen), Categories(seen));
    forall cat ensures cat in byClassification ==> byClassification[cat] == Tally(seen, Channels(seen), {cat}) {
      assert In(byClassification, cat) == Tally(seen, Channels(seen), {cat});
    }
    SumByClassification(byClassification, seen, Channels(seen));
    UnlistedAreAbsent(seen, byClassification, Channels(seen));
  }

  lemma UnlistedAreAbsent(seen: seq<Entry>, totals: map<string, nat>, channels: set<string>)
    requires ByCategory(seen, totals, channels)
    ensures Tally(seen, channels, totals.Keys) == Tally(seen, channels, Categories(seen))
  {
    var listed, all := totals.Keys, Categories(seen);
    forall cat | cat in all - listed ensures Tally(seen, channels, {cat}) == 0 {
      assert In(totals, cat) == 0;
    }
    NoneOf(seen, channels, all - listed);
    TallyAdds(seen, listed, all - listed, channels);
    assert listed + (all - listed) == all;
  }

  // ---------------------------------------------------------------- the classifier

  datatype Classifier = Classifier(category: string, weight: nat, matches: nat)

  const FALLBACK := "info_general"

  function Score(classifiers: seq<Classifier>, category: string): nat {
    if classifiers == [] then 0
    else
      var last := classifiers[|classifiers| - 1];
      Score(classifiers[..|classifiers| - 1], category) + if last.category == category then last.matches * last.weight else 0
  }

  /** The first classifier of this category that matched. */
  predicate First(classifiers: seq<Classifier>, category: string, k: int) {
    && 0 <= k < |classifiers| && classifiers[k].category == category && classifiers[k].matches > 0
    && forall j :: 0 <= j < k ==> classifiers[j].category != category || classifiers[j].matches == 0
  }

  /** The categories that matched, in the order of their first match. */
  ghost predicate Ranked(classifiers: seq<Classifier>, matched: set<string>, order: seq<string>, firsts: seq<nat>) {
    && |firsts| == |order|
    && (forall c :: c in matched <==> c in order)
    && (forall j :: 0 <= j < |classifiers| && classifiers[j].matches > 0 ==> classifiers[j].category in matched)
    && (forall k :: 0 <= k < |order| ==> First(classifiers, order[k], firsts[k]))
    && (forall k, l :: 0 <= k < l < |order| ==> firsts[k] < firsts[l])
  }

  ghost predicate Scored(classifiers: seq<Classifier>, scores: map<string, nat>) {
    forall c :: In(scores, c) == Score(classifiers, c)
  }

  method AddScores(classifiers: seq<Classifier>) returns (scores: map<string, nat>, order: seq<string>, ghost firsts: seq<nat>)
    ensures Scored(classifiers, scores) && Ranked(classifiers, scores.Keys, order, firsts)
  {
    scores, order, firsts := map[], [], [];
    for i := 0 to |classifiers|
      invariant Scored(classifiers[..i], scores) && Ranked(classifiers[..i], scores.Keys, order, firsts)
    {
      scores, order, firsts := AddOne(classifiers, i, scores, order, firsts);
    }
    assert classifiers[..|classifiers|] == classifiers;
  }

  method AddOne(classifiers: seq<Classifier>, i: nat, before: map<string, nat>, orderBefore: seq<string>, ghost firstsBefore: seq<nat>)
    returns (scores: map<string, nat>, order: seq<string>, ghost firsts: seq<nat>)
    requires i < |classifiers|
    requires Scored(classifiers[..i], before) && Ranked(classifiers[..i], before.Keys, orderBefore, firstsBefore)
    ensures Scored(classifiers[..i + 1], scores) && Ranked(classifiers[..i + 1], scores.Keys, order, firsts)
  {
    var next := classifiers[i];
    scores, order, firsts := before, orderBefore, firstsBefore;
    ScoredStep(classifiers, i, before);
    RankedStep(classifiers, i, before.Keys, orderBefore, firstsBefore);
    if next.matches > 0 {
      if next.category !in scores {
        order := order + [next.category];
        firsts := firsts + [i];
      }
      scores := scores[next.category := In(scores, next.category) + next.matches * next.weight];
      assert scores.Keys == before.Keys + {next.category};
      assert next.category in before ==> scores.Keys == before.Keys;
    }
  }

  lemma ScoredStep(classifiers: seq<Classifier>, i: nat, scores: map<string, nat>)
    requires i < |classifiers| && Scored(classifiers[..i], scores)
    ensures
      var next := classifiers[i];
      var after := if next.matches > 0 then scores[next.category := In(scores, next.category) + next.matches * next.weight] else scores;
      Scored(classifiers[..i + 1], after)
  {
    var next, longer := classifiers[i], classifiers[..i + 1];
    assert longer[..i] == classifiers[..i];
    var after := if next.matches > 0 then scores[next.category := In(scores, next.category) + next.matches * next.weight] else scores;
    forall c ensures In(after, c) == Score(longer, c) {
      assert In(scores, c) == Score(classifiers[..i], c);
      assert next.matches == 0 ==> next.matches * next.weight == 0;
    }
  }

  lemma RankedStep(classifiers: seq<Classifier>, i: nat, matched: set<string>, order: seq<string>, firsts: seq<nat>)
    requires i < |classifiers| && Ranked(classifiers[..i], matched, order, firsts)
    ensures
      var next := classifiers[i];
      if next.matches == 0 || next.category in matched then Ranked(classifiers[..i + 1], matched, order, firsts)
      else Ranked(classifiers[..i + 1], matched + {next.category}, order + [next.category], firsts + [i])
  {
    var next := classifiers[i];
    var shorter, longer := classifiers[..i], classifiers[..i + 1];
    forall k | 0 <= k < |order| ensures First(longer, order[k], firsts[k]) {
      assert First(shorter, order[k], firsts[k]);
    }
    if next.matches > 0 && next.category !in matched {
      assert First(longer, next.category, i);
    }
  }

  /** The best score, at its first category. */
  method Pick(scores: map<string, nat>, order: seq<string>) returns (category: string, score: nat, ghost best: nat)
    requires forall c :: c in scores <==> c in order
    ensures forall c :: In(scores, c) <= score
    ensures score == 0 ==> category == FALLBACK
    ensures score > 0 ==> best < |order| && order[best] == category && In(scores, category) == score
    ensures score > 0 ==> forall j :: 0 <= j < best ==> In(scores, order[j]) < score
  {
    category, score, best := FALLBACK, 0, 0;
    for k := 0 to |order|
      invariant forall j :: 0 <= j < k ==> scores[order[j]] <= score
      invariant score == 0 ==> category == FALLBACK
      invariant score > 0 ==> best < k && category == order[best] && scores[category] == score
      invariant score > 0 ==> forall j :: 0 <= j < best ==> scores[order[j]] < score
    {
      if scores[order[k]] > score {
        category, score, best := order[k], scores[order[k]], k;
      }
    }
  }

  predicate FirstBest(classifiers: seq<Classifier>, category: string, score: nat, k: int) {
    && First(classifiers, category, k)
    && forall j :: 0 <= j < k && classifiers[j].matches > 0 ==> Score(classifiers, classifiers[j].category) < score
  }

  /** Every category that matched before the best one has a smaller score. */
  lemma EarlierAreWorse(classifiers: seq<Classifier>, scores: map<string, nat>, order: seq<string>, firsts: seq<nat>, best: nat, score: nat)
    requires Scored(classifiers, scores) && Ranked(classifiers, scores.Keys, order, firsts) && best < |order|
    requires forall j :: 0 <= j < best ==> In(scores, order[j]) < score
    ensures FirstBest(classifiers, order[best], score, firsts[best])
  {
    assert First(classifiers, order[best], firsts[best]);
    forall j | 0 <= j < firsts[best] && classifiers[j].matches > 0
      ensures Score(classifiers, classifiers[j].category) < score
    {
      var c := classifiers[j].category;
      assert c in scores;
      var k :| 0 <= k < |order| && order[k] == c;
      assert First(classifiers, c, firsts[k]);
      assert In(scores, c) == Score(classifiers, c);
    }
  }

  /**
   The result is a category with the greatest total, and among those the one that matched first;
   without a positive total it is the fallback.
   */
  method Classify(classifiers: seq<Classifier>) returns (category: string, score: nat)
    ensures forall c :: Score(classifiers, c) <= score
    ensures if score == 0 then category == FALLBACK else Score(classifiers, category) == score
    ensures score > 0 ==> exists k :: FirstBest(classifiers, category, score, k)
  {
    var scores, order, firsts := AddScores(classifiers);
    ghost var best;
    category, score, best := Pick(scores, order);
    forall c ensures Score(classifiers, c) <= score {
      assert In(scores, c) == Score(classifiers, c);
    }
    if score > 0 {
      assert FirstBest(classifiers, category, score, firsts[best]) by {
        EarlierAreWorse(classifiers, scores, order, firsts, best, score);
      }
    }
  }
}

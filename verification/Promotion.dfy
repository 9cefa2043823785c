// Promoting what a shadow run learned into an agent's live evolution config, and how
// that compares with the diff the report shows.
module Promotion {
  import opened Options
  import opened Text
  import opened EvolutionDiff

  // Merging starts from the live config, overwriting from the proposed one.
  datatype Mode = Merge | Overwrite

  // The requested mode; None is refused.
  function ModeOf(requested: string): Option<Mode> {
    var m := Lower(Trim(requested));
    if m == "" || m == "merge" then Some(Merge)
    else if m in {"overwrite", "replace", "cover", "\U{8986}\U{76D6}"} then Some(Overwrite)
    else None
  }

  lemma ModeExactly(requested: string)
    ensures ModeOf(requested) == Some(Merge) <==> AllSpace(requested) || SpellsSmall(requested, "merge")
    ensures ModeOf(requested) == Some(Overwrite) <==>
              || SpellsSmall(requested, "overwrite") || SpellsSmall(requested, "replace")
              || SpellsSmall(requested, "cover") || Trim(requested) == "\U{8986}\U{76D6}"
  {
    TrimEmpty(requested);
    LowerSpells(requested, "merge");
    LowerSpells(requested, "overwrite");
    LowerSpells(requested, "replace");
    LowerSpells(requested, "cover");
    var t := Trim(requested);
    assert |Lower(t)| == |t| && forall i | 0 <= i < |t| :: Lower(t)[i] == LowerChar(t[i]);
    hide Trim, SpellsSmall;
    var han := "\U{8986}\U{76D6}";
    assert Lower(han) == han;
    if Lower(t) == han {
      assert |t| == 2 && t[0] == han[0] && t[1] == han[1];
    }
  }

  // What an agent learned in the run, and the config its last events proposed.
  datatype Learning = Learning(lessons: seq<string>, adjustments: seq<string>, summary: string, date: string,
                               record: Config, proposed: Config)

  // The keys a promotion writes, whatever the mode.
  const LEARNED := {"recentLessons", "lastRecommendedAdjustments", "lastLearningSummary", "lastLearningDate",
                    "learningUpdatedAt", "promotedABLearning"}

  // --- Lists of lessons -----------------------------------------------------------

  // First occurrences, trimmed, blanks left out.
  function Unique(values: seq<string>): seq<string> {
    if values == [] then [] else
      var past, v := Unique(values[..|values| - 1]), Trim(values[|values| - 1]);
      if v == "" || v in past then past else past + [v]
  }

  method UniqueNonEmpty(values: seq<string>) returns (result: seq<string>)
    ensures result == Unique(values)
  {
    result := [];
    var seen := {};
    for i := 0 to |values|
      invariant result == Unique(values[..i])
      invariant forall v :: v in seen <==> v in result
    {
      assert values[..i + 1][..i] == values[..i];
      var trimmed := Trim(values[i]);
      if trimmed == "" || trimmed in seen {
        continue;
      }
      seen := seen + {trimmed};
      result := result + [trimmed];
    }
    assert values[..|values|] == values;
  }

  // Nothing but blanks is lost, and nothing is there twice.
  lemma {:induction false} UniqueKeeps(values: seq<string>)
    ensures forall i, j | 0 <= i < j < |Unique(values)| :: Unique(values)[i] != Unique(values)[j]
    ensures forall v :: v in Unique(values) <==> v != "" && exists i | 0 <= i < |values| :: Trim(values[i]) == v
    decreases |values|
  {
    if values != [] {
      var n := |values| - 1;
      UniqueKeeps(values[..n]);
      assert forall i | 0 <= i < n :: values[..n][i] == values[i];
      hide Trim;
      forall v ensures v in Unique(values) <==> v != "" && exists i | 0 <= i < |values| :: Trim(values[i]) == v {
        if i :| 0 <= i < n && Trim(values[i]) == v {
          assert Trim(values[..n][i]) == v;
        }
      }
    }
  }

  // What comes first stays first.
  lemma {:induction false} UniquePrefix(added: seq<string>, kept: seq<string>)
    ensures Unique(added) <= Unique(added + kept)
    decreases |kept|
  {
    if kept == [] {
      assert added + kept == added;
    } else {
      UniquePrefix(added, kept[..|kept| - 1]);
      assert (added + kept)[..|added + kept| - 1] == added + kept[..|kept| - 1];
    }
  }

  function Limit(values: seq<string>, limit: nat): seq<string> {
    if |values| <= limit then values else values[..limit]
  }

  function TextsOf(items: seq<Json>): seq<string> {
    if items == [] then [] else
      var past, v := TextsOf(items[..|items| - 1]), items[|items| - 1];
      if v.Words? && Trim(v.s) != "" then past + [Trim(v.s)] else past
  }

  // The lessons a config already holds.
  function Known(config: Config, key: string): seq<string> {
    if key in config && config[key].List? then TextsOf(config[key].items) else []
  }

  function Listed(values: seq<string>): Json {
    List(seq(|values|, i requires 0 <= i < |values| => Words(values[i])))
  }

  // --- Promotion ------------------------------------------------------------------

  // Copying trims keys and drops empty ones; of keys that then clash any may stay.
  ghost predicate IsCopy(copy: Config, config: Config) {
    && (forall k | k in config && Trim(k) != "" :: Trim(k) in copy)
    && (forall t | t in copy :: exists k | k in config :: t != "" && Trim(k) == t && copy[t] == config[k])
  }

  method CopyConfig(config: Config) returns (copy: Config)
    ensures IsCopy(copy, config)
  {
    hide Trim;
    copy := map[];
    var left := config.Keys;
    while left != {}
      invariant left <= config.Keys
      invariant forall k | k in config && k !in left && Trim(k) != "" :: Trim(k) in copy
      invariant forall t | t in copy :: exists k | k in config :: t != "" && Trim(k) == t && copy[t] == config[k]
      decreases left
    {
      var k :| k in left;
      var trimmed := Trim(k);
      if trimmed != "" {
        copy := copy[trimmed := config[k]];
      }
      left := left - {k};
    }
  }

  // What a promotion starts from.
  ghost predicate IsBase(base: Config, mode: Mode, previous: Column, proposed: Config) {
    match mode
    case Merge => base == Loaded(previous)
    case Overwrite => IsCopy(base, proposed)
  }

  function Lessons(base: Config, l: Learning): seq<string> {
    Limit(Unique(l.lessons + Known(base, "recentLessons")), 12)
  }

  // The learning keys written over it.
  function Stamped(base: Config, l: Learning, now: string): Config {
    base["recentLessons" := Listed(Lessons(base, l))]
        ["lastRecommendedAdjustments" := Listed(Limit(Unique(l.adjustments), 12))]
        ["lastLearningSummary" := Words(l.summary)]
        ["lastLearningDate" := Words(l.date)]
        ["learningUpdatedAt" := Words(now)]
        ["promotedABLearning" := Object(Recorded(l.record))]
  }

  // What the record of the promotion leaves out: blank values, and no texts at all.
  predicate Omitted(key: string, v: Json) {
    Blank(v) || (key in {"summaries", "lessons", "adjustments"} && v.List? && v.items == [])
  }

  function Recorded(record: Config): Config {
    map k | k in record && !Omitted(k, record[k]) :: record[k]
  }

  method CompactRecord(record: Config) returns (result: Config)
    ensures result == Recorded(record)
  {
    hide Blank;
    result := map[];
    var left := record.Keys;
    while left != {}
      invariant left <= record.Keys
      invariant result == map k | k in record && k !in left && !Omitted(k, record[k]) :: record[k]
      decreases left
    {
      var k :| k in left;
      if !Omitted(k, record[k]) {
        result := result[k := record[k]];
      }
      left := left - {k};
    }
  }

  ghost predicate IsPromoted(promoted: Config, mode: Mode, previous: Column, l: Learning, now: string) {
    exists base :: IsBase(base, mode, previous, l.proposed) && promoted == Stamped(base, l, now)
  }

  method BuildPromoted(previous: Column, l: Learning, mode: Mode, now: string) returns (promoted: Config)
    ensures IsPromoted(promoted, mode, previous, l, now)
  {
    hide IsCopy, Unique, Limit, Known, Recorded, Loaded, Keeps;
    var base := MapFromJson(previous);
    if mode == Overwrite {
      base := CopyConfig(l.proposed);
    }
    assert IsBase(base, mode, previous, l.proposed);
    promoted := Stamp(base, l, now);
  }

  method Stamp(base: Config, l: Learning, now: string) returns (promoted: Config)
    ensures promoted == Stamped(base, l, now)
  {
    hide Unique, Limit, Known, Recorded;
    var lessons := UniqueNonEmpty(l.lessons + Known(base, "recentLessons"));
    var adjustments := UniqueNonEmpty(l.adjustments);
    var record := CompactRecord(l.record);
    promoted := base["recentLessons" := Listed(Limit(lessons, 12))];
    promoted := promoted["lastRecommendedAdjustments" := Listed(Limit(adjustments, 12))];
    promoted := promoted["lastLearningSummary" := Words(l.summary)];
    promoted := promoted["lastLearningDate" := Words(l.date)];
    promoted := promoted["learningUpdatedAt" := Words(now)];
    promoted := promoted["promotedABLearning" := Object(record)];
  }

  // --- Promotion against the diff -------------------------------------------------

  // Two configs agree on every key a promotion does not write.
  ghost predicate SameOutside(a: Config, b: Config) {
    forall k | k !in LEARNED :: (k in a <==> k in b) && (k in a ==> a[k] == b[k])
  }

  // No key is empty or carries white space at its ends.
  predicate CleanKeys(config: Config) {
    forall k | k in config :: k != "" && Trimmed(k)
  }

  lemma LearnedClean()
    ensures forall k | k in LEARNED :: k != "" && Trimmed(k)
  {
  }

  lemma CopyExactly(copy: Config, config: Config)
    requires IsCopy(copy, config)
    ensures SameOutside(copy, config) <==> CleanKeys(config)
    ensures CleanKeys(config) ==> copy == config
  {
    LearnedClean();
    forall k ensures Trimmed(k) <==> Trim(k) == k {
      TrimFixed(k);
    }
    forall k ensures Trimmed(Trim(k)) {
      TrimFixed(k);
    }
    hide Trim, Trimmed;
    if CleanKeys(config) {
      assert forall t | t in copy :: t in config && copy[t] == config[t];
      assert forall k | k in config :: k in copy;
    } else {
      var k :| k in config && !(k != "" && Trimmed(k));
      assert k !in LEARNED && k !in copy;
    }
  }

  lemma StampedOutside(base: Config, l: Learning, now: string)
    ensures SameOutside(Stamped(base, l, now), base) && LEARNED <= Stamped(base, l, now).Keys
  {
    hide Listed, Lessons, Limit, Unique, Recorded;
  }

  // Does the diff's parts concern only keys a promotion writes anyway?
  ghost predicate TouchesLearnedOnly(d: Diff) {
    forall k | k in d.added || k in d.changed || k in d.removed :: k in LEARNED
  }

  lemma TouchesExactly(d: Diff, current: Config, proposed: Config)
    requires Describes(d, current, proposed)
    ensures Patched(current, d) == proposed
    ensures TouchesLearnedOnly(d) <==> SameOutside(current, proposed)
  {
    assert forall k :: k in d.added.Keys <==> k in proposed && k !in current;
    assert Patched(current, d) == proposed;
  }

  // A promotion gives what applying the diff gives, outside the keys it writes anyway,
  // exactly when it overwrites and every key of the proposal is clean, or merges and
  // the diff touches no other key.  Merging leaves the live config as it is there.
  lemma PromotionExactly(promoted: Config, mode: Mode, previous: Column, l: Learning, now: string, d: Diff)
    requires IsPromoted(promoted, mode, previous, l, now) && Describes(d, Loaded(previous), l.proposed)
    ensures var current := Loaded(previous);
            && (SameOutside(promoted, Patched(current, d)) <==>
                  (mode == Overwrite && CleanKeys(l.proposed)) || (mode == Merge && TouchesLearnedOnly(d)))
            && (mode == Merge ==> SameOutside(promoted, current))
            && LEARNED <= promoted.Keys
  {
    TouchesExactly(d, Loaded(previous), l.proposed);
    PromotedOutside(promoted, mode, previous, l, now);
    hide *;
  }

  // The same of the two configs themselves.
  lemma PromotedOutside(promoted: Config, mode: Mode, previous: Column, l: Learning, now: string)
    requires IsPromoted(promoted, mode, previous, l, now)
    ensures mode == Merge ==> SameOutside(promoted, Loaded(previous))
                              && (SameOutside(promoted, l.proposed) <==> SameOutside(Loaded(previous), l.proposed))
    ensures mode == Overwrite ==> (SameOutside(promoted, l.proposed) <==> CleanKeys(l.proposed))
    ensures LEARNED <= promoted.Keys
  {
    var base :| IsBase(base, mode, previous, l.proposed) && promoted == Stamped(base, l, now);
    StampedOutside(base, l, now);
    SameTrans(promoted, base, l.proposed);
    if mode == Overwrite {
      CopyExactly(base, l.proposed);
    }
    hide SameOutside, Stamped, IsCopy, CleanKeys, Loaded;
  }

  lemma SameTrans(a: Config, b: Config, c: Config)
    requires SameOutside(a, b)
    ensures SameOutside(a, c) <==> SameOutside(b, c)
  {
  }

  // So a change the diff announces outside those keys never happens in a merge.
  lemma MergeKeepsLive(promoted: Config, previous: Column, l: Learning, now: string, d: Diff, k: string)
    requires IsPromoted(promoted, Merge, previous, l, now) && Describes(d, Loaded(previous), l.proposed)
    requires k in d.changed && k !in LEARNED
    ensures k in promoted && promoted[k] == d.changed[k].0 && promoted[k] != Patched(Loaded(previous), d)[k]
  {
    PromotionExactly(promoted, Merge, previous, l, now, d);
  }

  // One live setting and a proposal to change it: merging keeps the live value,
  // overwriting takes the proposed one.
  lemma RiskBiasStays(merged: Config, overwritten: Config, l: Learning, now: string, d: Diff)
    requires l.proposed == map["riskBias" := Words("growth")]
    requires IsPromoted(merged, Merge, Balanced(), l, now) && IsPromoted(overwritten, Overwrite, Balanced(), l, now)
    requires Describes(d, Loaded(Balanced()), l.proposed)
    ensures "riskBias" in d.changed && d.changed["riskBias"] == (Words("balanced"), Words("growth"))
    ensures "riskBias" in merged && merged["riskBias"] == Words("balanced")
    ensures "riskBias" in overwritten && overwritten["riskBias"] == Words("growth")
  {
    RiskBiasClean();
    PromotedOutside(merged, Merge, Balanced(), l, now);
    PromotedOutside(overwritten, Overwrite, Balanced(), l, now);
    hide IsPromoted, Loaded;
  }

  function Balanced(): Column {
    Readable(map["riskBias" := Words("balanced")])
  }

  lemma RiskBiasClean()
    ensures Trimmed("riskBias") && "riskBias" != "" && "riskBias" !in LEARNED
    ensures Loaded(Balanced()) == map["riskBias" := Words("balanced")] && Words("balanced") != Words("growth")
  {
    TrimFixed("balanced");
    assert |"riskBias"| == 8 && |"recentLessons"| == 13 && |"balanced"| == 8 && |"growth"| == 6;
    assert !Blank(Words("balanced"));
  }

  // A proposal of blank values shows no diff, and yet an overwrite with it leaves only
  // the keys a promotion writes.
  lemma BlankOverwriteEmpties(promoted: Config, previous: Column, l: Learning, now: string)
    requires IsPromoted(promoted, Overwrite, previous, l, now) && l.proposed == map[]
    ensures promoted.Keys == LEARNED && IsDiff(None, Found(previous), l.proposed)
  {
    var base :| IsBase(base, Overwrite, previous, l.proposed) && promoted == Stamped(base, l, now);
    StampedOutside(base, l, now);
    assert base == map[];
  }

  // New lessons come first, and none, new or old, is lost while at most twelve differ.
  lemma LessonsKept(base: Config, l: Learning)
    ensures Limit(Unique(l.lessons), 12) <= Lessons(base, l) && |Lessons(base, l)| <= 12
    ensures var all := l.lessons + Known(base, "recentLessons");
            |Unique(all)| <= 12 ==>
              forall i | 0 <= i < |all| && Trim(all[i]) != "" :: Trim(all[i]) in Lessons(base, l)
  {
    UniquePrefix(l.lessons, Known(base, "recentLessons"));
    UniqueKeeps(l.lessons + Known(base, "recentLessons"));
  }

  // --- What a promotion writes ------------------------------------------------------

  ghost predicate SeenBefore(values: seq<string>, text: string, p: nat) {
    exists q | 0 <= q < |values| :: q < p && Trim(values[q]) == text
  }

  // The first twelve texts among the values: trimmed, none blank, each at its first place
  // before the next one's, and one is missing only where twelve came before it.
  ghost predicate IsDigest(texts: seq<string>, values: seq<string>) {
    && |texts| <= 12
    && (forall k | 0 <= k < |texts| :: texts[k] != "" && SeenBefore(values, texts[k], |values|))
    && (forall i, j, p | 0 <= i < j < |texts| && 0 <= p < |values| && Trim(values[p]) == texts[j] ::
          SeenBefore(values, texts[i], p))
    && (forall p | 0 <= p < |values| && Trim(values[p]) != "" && Trim(values[p]) !in texts ::
          |texts| == 12 && forall k | 0 <= k < 12 :: SeenBefore(values, texts[k], p))
  }

  lemma {:induction false} UniqueOrder(values: seq<string>)
    ensures forall i, j, p | 0 <= i < j < |Unique(values)| && 0 <= p < |values|
                             && Trim(values[p]) == Unique(values)[j] ::
              SeenBefore(values, Unique(values)[i], p)
    decreases |values|
  {
    if values != [] {
      var n := |values| - 1;
      var past, all := Unique(values[..n]), Unique(values);
      UniqueOrder(values[..n]);
      UniqueKeeps(values[..n]);
      assert forall i | 0 <= i < n :: values[..n][i] == values[i];
      hide Trim;
      forall i, j, p | 0 <= i < j < |all| && 0 <= p < |values| && Trim(values[p]) == all[j]
        ensures SeenBefore(values, all[i], p)
      {
        assert all[i] in past;
        if p < n {
          assert Trim(values[..n][p]) == all[j] && all[j] in past;
          assert SeenBefore(values[..n], all[i], p);
        } else {
          var q :| 0 <= q < n && Trim(values[..n][q]) == all[i];
          assert Trim(values[q]) == all[i];
        }
      }
    }
  }

  lemma DigestIs(values: seq<string>)
    ensures IsDigest(Limit(Unique(values), 12), values)
  {
    UniqueKeeps(values);
    UniqueOrder(values);
    var all := Unique(values);
    hide Unique, Trim;
    forall k | 0 <= k < |all| ensures all[k] != "" && SeenBefore(values, all[k], |values|) {
      assert all[k] in all;
    }
    assert forall m | 0 <= m < |all| && m < 12 :: all[m] == Limit(all, 12)[m];
    forall p | 0 <= p < |values| && Trim(values[p]) != "" && Trim(values[p]) !in Limit(all, 12)
      ensures |all| > 12 && forall k | 0 <= k < 12 :: SeenBefore(values, all[k], p)
    {
      var v := Trim(values[p]);
      assert v in all;
      var m :| 0 <= m < |all| && all[m] == v;
    }
  }

  ghost predicate HasTexts(v: Json, texts: seq<string>) {
    v.List? && |v.items| == |texts| && forall k | 0 <= k < |texts| :: v.items[k] == Words(texts[k])
  }

  predicate IsText(v: Json) {
    v.Words? && Trim(v.s) != ""
  }

  // The texts in a list, in order: `at` says where.
  ghost predicate Picks(at: seq<nat>, items: seq<Json>, texts: seq<string>) {
    && |at| == |texts| && (forall j, k | 0 <= j < k < |at| :: at[j] < at[k])
    && (forall k | 0 <= k < |at| :: at[k] < |items| && IsText(items[at[k]]) && texts[k] == Trim(items[at[k]].s))
    && (forall m: nat | m < |items| && IsText(items[m]) :: m in at)
  }

  lemma {:induction false} TextsExactly(items: seq<Json>) returns (at: seq<nat>)
    ensures Picks(at, items, TextsOf(items))
    decreases |items|
  {
    at := [];
    if items != [] {
      var n := |items| - 1;
      at := TextsExactly(items[..n]);
      PicksSnoc(at, items, TextsOf(items[..n]));
      if IsText(items[n]) {
        at := at + [n];
      }
    }
  }

  lemma PicksSnoc(at: seq<nat>, items: seq<Json>, texts: seq<string>)
    requires items != [] && Picks(at, items[..|items| - 1], texts)
    ensures var n := |items| - 1;
            if IsText(items[n]) then Picks(at + [n], items, texts + [Trim(items[n].s)]) else Picks(at, items, texts)
  {
    var n := |items| - 1;
    assert forall m | 0 <= m < n :: items[..n][m] == items[m];
    hide IsText, Trim;
    if IsText(items[n]) {
      forall m: nat | m < |items| && IsText(items[m]) ensures m in at + [n] {
        assert m == n || IsText(items[..n][m]);
      }
    }
  }

  // The lessons a config holds under the key, none where it holds no list.
  ghost predicate Holds(config: Config, key: string, texts: seq<string>) {
    if key in config && config[key].List? then exists at :: Picks(at, config[key].items, texts) else texts == []
  }

  // A promotion writes the first twelve of the new and the old lessons, those first, the
  // first twelve adjustments, and the summary, dates and record as they are given.
  lemma PromotedExactly(promoted: Config, mode: Mode, previous: Column, l: Learning, now: string)
    returns (base: Config, old': seq<string>, lessons: seq<string>, adjustments: seq<string>)
    requires IsPromoted(promoted, mode, previous, l, now)
    ensures IsBase(base, mode, previous, l.proposed) && Holds(base, "recentLessons", old')
    ensures IsDigest(lessons, l.lessons + old') && IsDigest(adjustments, l.adjustments)
    ensures LEARNED <= promoted.Keys
    ensures HasTexts(promoted["recentLessons"], lessons)
    ensures HasTexts(promoted["lastRecommendedAdjustments"], adjustments)
    ensures promoted["lastLearningSummary"] == Words(l.summary) && promoted["lastLearningDate"] == Words(l.date)
    ensures promoted["learningUpdatedAt"] == Words(now) && promoted["promotedABLearning"].Object?
    ensures var fields := promoted["promotedABLearning"].fields;
            && (forall k :: k in fields <==>
                  && k in l.record && Substantial(l.record[k])
                  && !(k in {"summaries", "lessons", "adjustments"} && l.record[k] == List([])))
            && (forall k | k in fields :: fields[k] == l.record[k])
  {
    hide *;
    base := BaseOf(promoted, mode, previous, l, now);
    old' := Known(base, "recentLessons");
    lessons, adjustments := Lessons(base, l), Limit(Unique(l.adjustments), 12);
    LessonsAre(base, l);
    DigestIs(l.lessons + old');
    DigestIs(l.adjustments);
    StampedOutside(base, l, now);
    StampedInside(base, l, now);
    KnownAre(base, "recentLessons");
    RecordIs(l.record);
    ListedAre(lessons);
    ListedAre(adjustments);
  }

  lemma BaseOf(promoted: Config, mode: Mode, previous: Column, l: Learning, now: string) returns (base: Config)
    requires IsPromoted(promoted, mode, previous, l, now)
    ensures IsBase(base, mode, previous, l.proposed) && promoted == Stamped(base, l, now)
  {
    hide IsBase, Stamped;
    base :| IsBase(base, mode, previous, l.proposed) && promoted == Stamped(base, l, now);
  }

  lemma LessonsAre(base: Config, l: Learning)
    ensures Lessons(base, l) == Limit(Unique(l.lessons + Known(base, "recentLessons")), 12)
  {
  }

  lemma StampedInside(base: Config, l: Learning, now: string)
    ensures var c := Stamped(base, l, now);
            && LEARNED <= c.Keys
            && c["recentLessons"] == Listed(Lessons(base, l))
            && c["lastRecommendedAdjustments"] == Listed(Limit(Unique(l.adjustments), 12))
            && c["lastLearningSummary"] == Words(l.summary) && c["lastLearningDate"] == Words(l.date)
            && c["learningUpdatedAt"] == Words(now) && c["promotedABLearning"] == Object(Recorded(l.record))
  {
    hide Listed, Lessons, Limit, Unique, Recorded;
  }

  lemma KnownAre(config: Config, key: string)
    ensures Holds(config, key, Known(config, key))
  {
    hide Picks, TextsOf;
    if key in config && config[key].List? {
      var at := TextsExactly(config[key].items);
    }
  }

  lemma ListedAre(texts: seq<string>)
    ensures HasTexts(Listed(texts), texts)
  {
  }

  lemma RecordIs(record: Config)
    ensures forall k :: k in Recorded(record) <==>
              && k in record && Substantial(record[k])
              && !(k in {"summaries", "lessons", "adjustments"} && record[k] == List([]))
    ensures forall k | k in Recorded(record) :: Recorded(record)[k] == record[k]
  {
    forall v: Json ensures Blank(v) <==> !Substantial(v) {
      BlankExactly(v);
    }
    hide Blank, Substantial;
  }

  // --- Which proposal -------------------------------------------------------------

  // The report diffs the newest event's proposal; the promotion takes the newest one
  // that is not empty.  `proposals` are those of the events, oldest first.
  function Reported(proposals: seq<Config>): Config {
    if proposals == [] then map[] else proposals[|proposals| - 1]
  }

  function ToPromote(proposals: seq<Config>): Config {
    if proposals == [] then map[]
    else if proposals[|proposals| - 1] != map[] then proposals[|proposals| - 1]
    else ToPromote(proposals[..|proposals| - 1])
  }

  lemma {:induction false} SomethingToPromote(proposals: seq<Config>)
    ensures ToPromote(proposals) == map[] <==> forall i | 0 <= i < |proposals| :: proposals[i] == map[]
    decreases |proposals|
  {
    if proposals != [] {
      SomethingToPromote(proposals[..|proposals| - 1]);
      assert forall i | 0 <= i < |proposals| - 1 :: proposals[..|proposals| - 1][i] == proposals[i];
    }
  }

  // The promotion's is the last that is not empty.
  lemma {:induction false} NewestProposal(proposals: seq<Config>, i: nat)
    requires i < |proposals| && proposals[i] != map[]
    requires forall j | i < j < |proposals| :: proposals[j] == map[]
    ensures ToPromote(proposals) == proposals[i]
    decreases |proposals|
  {
    if i < |proposals| - 1 {
      NewestProposal(proposals[..|proposals| - 1], i);
    }
  }

  // They are the same exactly when the newest event proposes something or none does.
  lemma SameProposal(proposals: seq<Config>)
    ensures Reported(proposals) == ToPromote(proposals)
       <==> Reported(proposals) != map[] || forall i | 0 <= i < |proposals| :: proposals[i] == map[]
  {
    SomethingToPromote(proposals);
  }
}

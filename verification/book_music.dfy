/** The book-to-playlist page (test.py): the text normaliser `norm_text`,
    the playlist catalogue keys, the keyword rules, and `infer_moods`, which
    scores every playlist by the rule keywords found in a book's title,
    subjects and tags and returns the three best with the reasons. */
module BookMusic {
  import opened Text
  import opened Ranking

  // ---------- norm_text ----------

  /** What `norm_text` promises of its result. */
  predicate Normalized(s: string) {
    Trimmed(s) && SpacesCollapsed(s) && LowerFixed(s)
  }

  /** `norm_text(t)`: a missing or empty text becomes the empty string;
      otherwise every run of whitespace is collapsed to a single space, the
      ends are stripped and the letters lowered. `None` stands for a missing
      text. */
  function NormText(t: Option<string>): (r: string)
    ensures Normalized(r)
    ensures t.Some? ==> NonSpace(r) == Lower(NonSpace(t.value))
    ensures t == None || t == Some("") ==> r == ""
    ensures t.Some? ==> r == Lower(Join(" ", Words(t.value)))
  {
    var s := if t.Some? then t.value else "";
    var c := Collapse(s);
    StripCollapse(s);
    CollapseWords(s);
    CollapseFacts(s);
    StripFacts(c);
    LowerFacts(Strip(c));
    Lower(Strip(c))
  }

  lemma NormalizedFixed(u: string)
    requires Normalized(u)
    ensures NormText(Some(u)) == u
  {
    CollapseFixesCollapsed(u);
    assert TrimStart(u) == u;
    assert TrimEnd(u) == u;
    assert Lower(u) == u;
  }

  /** The normalised strings are exactly the fixed points of `norm_text`. */
  lemma NormTextFixedPoints(s: string)
    ensures NormText(Some(s)) == s <==> Normalized(s)
  {
    if Normalized(s) {
      NormalizedFixed(s);
    }
  }

  /** Normalising twice is normalising once. */
  lemma NormTextIdempotent(t: Option<string>)
    ensures NormText(Some(NormText(t))) == NormText(t)
  {
    NormalizedFixed(NormText(t));
  }

  // ---------- PLAYLISTS, MOOD_RULES, DEFAULT_MOOD ----------

  /** The keys of PLAYLISTS, in declaration order (the order of `dict.items()`). */
  const PlaylistKeys: seq<string> := [
    "calm_focus", "epic_adventure", "cozy_romance", "mystery_noir", "sci_synthwave",
    "historical_classical", "selfhelp_productivity", "nature_ambient", "thriller_dark",
    "happy_uplift", "philosophy_ambient"
  ]

  /** One entry of MOOD_RULES: a label, its keywords and the playlist they vote for. */
  datatype Rule = Rule(genre: string, keywords: seq<string>, mood: string)

  const MoodRules: seq<Rule> := [
    Rule("fantasy", ["fantasy", "마법", "모험", "용", "왕좌", "엘프", "드래곤"], "epic_adventure"),
    Rule("romance", ["romance", "사랑", "연애", "로맨스", "청춘"], "cozy_romance"),
    Rule("mystery", ["mystery", "미스터리", "추리", "스릴러", "범죄", "noir"], "mystery_noir"),
    Rule("science fiction", ["sf", "sci-fi", "공상", "우주", "사이버", "디스토피아", "로봇"], "sci_synthwave"),
    Rule("historical", ["역사", "고전", "근대", "중세", "왕조", "삼국"], "historical_classical"),
    Rule("self-help", ["자기계발", "습관", "생산성", "공부법", "멘탈", "성장"], "selfhelp_productivity"),
    Rule("calm", ["에세이", "수필", "명상", "휴식", "치유"], "nature_ambient"),
    Rule("thriller", ["스릴러", "범죄", "서스펜스", "공포"], "thriller_dark"),
    Rule("happy", ["행복", "웃음", "희망", "기쁨"], "happy_uplift"),
    Rule("philosophy", ["철학", "사유", "존재", "의미"], "philosophy_ambient")
  ]

  const DefaultMood: string := "calm_focus"

  const DefaultReason: string := "기본 분위기: 집중/학습용"

  const Fallback: string := "일반 독서에 적합"

  /** The reason recorded when keyword `kw` of the rule labelled `genre` hits:
      the keyword in quotes, then an arrow and the label. */
  function Reason(kw: string, genre: string): string {
    "키워드 '" + kw + "' → " + genre
  }

  /** The reasons of a playlist joined with semicolons, or the fallback
      sentence when there are none. */
  function ReasonText(reasons: seq<string>): string {
    var joined := Join("; ", reasons);
    if joined == "" then Fallback else joined
  }

  /** The three tables `infer_moods` reads: the playlist keys in declaration
      order, the keyword rules and the default playlist. */
  datatype Catalog = Catalog(keys: seq<string>, rules: seq<Rule>, defaultMood: string)

  /** The page's own tables. */
  const Books: Catalog := Catalog(PlaylistKeys, MoodRules, DefaultMood)

  /** Every rule votes for a catalogue key and so does the default, so every
      `scores[mood] += ...` lands on an existing entry; the keys are distinct
      because they are dictionary keys. */
  predicate WellFormed(cat: Catalog) {
    && Distinct(cat.keys)
    && cat.defaultMood in cat.keys
    && forall i :: 0 <= i < |cat.rules| ==> cat.rules[i].mood in cat.keys
  }

  lemma BooksWellFormed()
    ensures WellFormed(Books)
    ensures |Books.keys| == 11 && Books.keys[0] == DefaultMood
    ensures Books.keys[1] == "epic_adventure" && Books.keys[2] == "cozy_romance"
  {
  }

  // ---------- infer_moods: the specification ----------

  /** The text the rules search: the title, the subjects and the extra tags
      joined with single spaces, then lowered. */
  function MatchText(title: string, subjects: seq<string>, extraTags: seq<string>): string {
    Lower(Join(" ", [title] + subjects + extraTags))
  }

  /** The reasons one rule records, keyword by keyword. */
  function KeywordReasons(text: string, genre: string, kws: seq<string>): seq<string> {
    if kws == [] then []
    else
      var kw := kws[|kws| - 1];
      KeywordReasons(text, genre, kws[..|kws| - 1])
        + (if Contains(text, Lower(kw)) then [Reason(kw, genre)] else [])
  }

  /** The reasons one rule records for playlist `key`. */
  function RuleReasons(text: string, rule: Rule, key: string): seq<string> {
    if rule.mood == key then KeywordReasons(text, rule.genre, rule.keywords) else []
  }

  /** The reasons the rules record for playlist `key`, rule by rule. */
  function MatchReasons(text: string, rules: seq<Rule>, key: string): seq<string> {
    if rules == [] then []
    else MatchReasons(text, rules[..|rules| - 1], key) + RuleReasons(text, rules[|rules| - 1], key)
  }

  /** Every score is still 0 after the keyword pass. */
  predicate NoMatch(cat: Catalog, text: string) {
    forall n :: 0 <= n < |cat.keys| ==> MatchReasons(text, cat.rules, cat.keys[n]) == []
  }

  function FinalReasons(cat: Catalog, text: string, key: string): seq<string> {
    MatchReasons(text, cat.rules, key)
      + (if NoMatch(cat, text) && key == cat.defaultMood then [DefaultReason] else [])
  }

  function FinalScore(cat: Catalog, text: string, key: string): int {
    2 * |MatchReasons(text, cat.rules, key)|
      + (if NoMatch(cat, text) && key == cat.defaultMood then 1 else 0)
  }

  /** The scores in the order of `scores.items()`. */
  function Scores(cat: Catalog, text: string): seq<int> {
    seq(|cat.keys|, n requires 0 <= n < |cat.keys| => FinalScore(cat, text, cat.keys[n]))
  }

  /** The catalogue positions, best first. */
  function Ranked(cat: Catalog, text: string): (r: seq<nat>)
    ensures InRange(Scores(cat, text), r)
  {
    SortDesc(Scores(cat, text), Range(|cat.keys|))
  }

  function ReasonsMap(cat: Catalog, text: string): map<string, seq<string>> {
    map k | k in cat.keys :: FinalReasons(cat, text, k)
  }

  /** The catalogue positions ranked by `score`, the first three kept, each
      turned into a `(key, reason text)` pair. */
  function TopThree(keys: seq<string>, score: seq<int>, reasons: map<string, seq<string>>): seq<(string, string)>
    requires |score| == |keys| && forall k :: k in keys ==> k in reasons
  {
    var ranked := SortDesc(score, Range(|keys|));
    var n := if |ranked| < 3 then |ranked| else 3;
    seq(n, i requires 0 <= i < n => (keys[ranked[i]], ReasonText(reasons[keys[ranked[i]]])))
  }

  /** The values of `m` in the order of `keys`. */
  function ScoreList(keys: seq<string>, m: map<string, int>): (r: seq<int>)
    requires forall k :: k in keys ==> k in m
    ensures |r| == |keys| && forall n :: 0 <= n < |keys| ==> r[n] == m[keys[n]]
  {
    seq(|keys|, n requires 0 <= n < |keys| => m[keys[n]])
  }

  /** What `infer_moods` returns: the first three ranked playlists, each with
      its reason text. */
  function Recommend(cat: Catalog, text: string): seq<(string, string)> {
    TopThree(cat.keys, Scores(cat, text), ReasonsMap(cat, text))
  }

  lemma KeywordStep(text: string, genre: string, kws: seq<string>, j: nat)
    requires j < |kws|
    ensures KeywordReasons(text, genre, kws[..j + 1])
      == KeywordReasons(text, genre, kws[..j])
           + (if Contains(text, Lower(kws[j])) then [Reason(kws[j], genre)] else [])
  {
    assert kws[..j + 1][..j] == kws[..j];
  }

  lemma RuleStep(text: string, rules: seq<Rule>, i: nat, key: string)
    requires i < |rules|
    ensures MatchReasons(text, rules[..i + 1], key)
      == MatchReasons(text, rules[..i], key) + RuleReasons(text, rules[i], key)
  {
    assert rules[..i + 1][..i] == rules[..i];
  }

  /** After the keyword pass, every score is still 0 exactly when no rule
      matched. */
  lemma AllZeroIsNoMatch(cat: Catalog, text: string, scores: map<string, int>, reasons: map<string, seq<string>>)
    requires scores.Keys == reasons.Keys == set k | k in cat.keys
    requires forall k :: k in reasons ==>
      reasons[k] == MatchReasons(text, cat.rules, k) && scores[k] == 2 * |reasons[k]|
    ensures (forall k | k in scores :: scores[k] == 0) <==> NoMatch(cat, text)
  {
    if forall k | k in scores :: scores[k] == 0 {
      forall n | 0 <= n < |cat.keys| ensures MatchReasons(text, cat.rules, cat.keys[n]) == [] {
        assert cat.keys[n] in scores;
      }
    }
  }

  /** The tables after the default step are the specification's. */
  lemma FinalTables(cat: Catalog, text: string, none: bool, tallied: map<string, seq<string>>,
                    scores: map<string, int>, reasons: map<string, seq<string>>)
    requires WellFormed(cat) && none == NoMatch(cat, text)
    requires scores.Keys == reasons.Keys == tallied.Keys == set k | k in cat.keys
    requires forall k :: k in tallied ==> tallied[k] == MatchReasons(text, cat.rules, k)
    requires forall k :: k in reasons ==>
      && reasons[k] == tallied[k] + (if none && k == cat.defaultMood then [DefaultReason] else [])
      && scores[k] == 2 * |tallied[k]| + (if none && k == cat.defaultMood then 1 else 0)
    ensures reasons == ReasonsMap(cat, text)
    ensures ScoreList(cat.keys, scores) == Scores(cat, text)
    ensures TopThree(cat.keys, ScoreList(cat.keys, scores), reasons) == Recommend(cat, text)
  {
    assert ScoreList(cat.keys, scores) == Scores(cat, text);
    assert reasons == ReasonsMap(cat, text);
  }

  /** One more rule tallied: the tables now hold the reasons of the rules up
      to and including rule `i`. */
  lemma NextRule(text: string, rules: seq<Rule>, i: nat,
                 scores: map<string, int>, reasons: map<string, seq<string>>,
                 scores': map<string, int>, reasons': map<string, seq<string>>)
    requires i < |rules|
    requires scores.Keys == reasons.Keys && scores'.Keys == scores.Keys && reasons'.Keys == reasons.Keys
    requires forall k :: k in reasons ==>
      reasons[k] == MatchReasons(text, rules[..i], k) && scores[k] == 2 * |reasons[k]|
    requires forall k :: k in reasons ==>
      && reasons'[k] == reasons[k] + RuleReasons(text, rules[i], k)
      && scores'[k] == scores[k] + 2 * |RuleReasons(text, rules[i], k)|
    ensures forall k :: k in reasons' ==>
      reasons'[k] == MatchReasons(text, rules[..i + 1], k) && scores'[k] == 2 * |reasons'[k]|
  {
    forall k | k in reasons'
      ensures reasons'[k] == MatchReasons(text, rules[..i + 1], k)
    {
      RuleStep(text, rules, i, k);
    }
  }

  // ---------- infer_moods: the procedure ----------

  /** The inner loop of `infer_moods` for one rule: every keyword found in
      the text adds 2 to the rule's playlist and records one reason. */
  method TallyRule(text: string, rule: Rule, scores: map<string, int>, reasons: map<string, seq<string>>)
    returns (scores': map<string, int>, reasons': map<string, seq<string>>)
    requires rule.mood in reasons && scores.Keys == reasons.Keys
    ensures scores'.Keys == scores.Keys && reasons'.Keys == reasons.Keys
    ensures forall k :: k in reasons ==>
      && reasons'[k] == reasons[k] + RuleReasons(text, rule, k)
      && scores'[k] == scores[k] + 2 * |RuleReasons(text, rule, k)|
  {
    scores', reasons' := scores, reasons;
    for j := 0 to |rule.keywords|
      invariant scores'.Keys == scores.Keys && reasons'.Keys == reasons.Keys
      invariant forall k :: k in reasons ==>
        && reasons'[k] == reasons[k] + (if k == rule.mood then KeywordReasons(text, rule.genre, rule.keywords[..j]) else [])
        && scores'[k] == scores[k] + 2 * (if k == rule.mood then |KeywordReasons(text, rule.genre, rule.keywords[..j])| else 0)
    {
      var kw := rule.keywords[j];
      KeywordStep(text, rule.genre, rule.keywords, j);
      if Contains(text, Lower(kw)) {
        scores' := scores'[rule.mood := scores'[rule.mood] + 2];
        reasons' := reasons'[rule.mood := reasons'[rule.mood] + [Reason(kw, rule.genre)]];
      }
    }
    assert rule.keywords[..|rule.keywords|] == rule.keywords;
  }

  /** The default step: the default playlist gets
      1 point and the default reason when every score is still 0. */
  method AddDefault(cat: Catalog, scores: map<string, int>, reasons: map<string, seq<string>>)
    returns (none: bool, scores': map<string, int>, reasons': map<string, seq<string>>)
    requires cat.defaultMood in scores && cat.defaultMood in reasons
    ensures none <==> forall k | k in scores :: scores[k] == 0
    ensures scores'.Keys == scores.Keys && reasons'.Keys == reasons.Keys
    ensures forall k :: k in reasons ==>
      reasons'[k] == reasons[k] + (if none && k == cat.defaultMood then [DefaultReason] else [])
    ensures forall k :: k in scores ==>
      scores'[k] == scores[k] + (if none && k == cat.defaultMood then 1 else 0)
  {
    none := forall k | k in scores :: scores[k] == 0;
    scores', reasons' := scores, reasons;
    if none {
      scores' := scores[cat.defaultMood := scores[cat.defaultMood] + 1];
      reasons' := reasons[cat.defaultMood := reasons[cat.defaultMood] + [DefaultReason]];
    }
  }

  /** The end of `infer_moods`, after the keyword pass: the default step,
      then the playlists ranked and the first three returned with their
      reasons. */
  method RankPlaylists(cat: Catalog, text: string, scores: map<string, int>, reasons: map<string, seq<string>>)
    returns (top: seq<(string, string)>)
    requires WellFormed(cat)
    requires scores.Keys == reasons.Keys == set k | k in cat.keys
    requires forall k :: k in reasons ==>
      reasons[k] == MatchReasons(text, cat.rules, k) && scores[k] == 2 * |reasons[k]|
    ensures top == Recommend(cat, text)
  {
    AllZeroIsNoMatch(cat, text, scores, reasons);
    var none, finalScores, finalReasons := AddDefault(cat, scores, reasons);
    FinalTables(cat, text, none, reasons, finalScores, finalReasons);
    top := TopThree(cat.keys, ScoreList(cat.keys, finalScores), finalReasons);
  }

  /** `infer_moods(title, subjects, extra_tags)` over the catalogue `cat`
      (the page calls it with `Books`). */
  method InferMoods(cat: Catalog, title: string, subjects: seq<string>, extraTags: seq<string>)
    returns (top: seq<(string, string)>)
    requires WellFormed(cat)
    ensures top == Recommend(cat, MatchText(title, subjects, extraTags))
  {
    var text := Lower(Join(" ", [title] + subjects + extraTags));
    var keys := set k | k in cat.keys;
    var scores: map<string, int> := map k | k in keys :: 0;
    var reasons: map<string, seq<string>> := map k | k in keys :: [];
    for i := 0 to |cat.rules|
      invariant scores.Keys == keys && reasons.Keys == keys
      invariant forall k :: k in reasons ==>
        reasons[k] == MatchReasons(text, cat.rules[..i], k) && scores[k] == 2 * |reasons[k]|
    {
      var scores', reasons' := TallyRule(text, cat.rules[i], scores, reasons);
      NextRule(text, cat.rules, i, scores, reasons, scores', reasons');
      scores, reasons := scores', reasons';
    }
    assert cat.rules[..|cat.rules|] == cat.rules;
    top := RankPlaylists(cat, text, scores, reasons);
  }

  // ---------- infer_moods: what the ranking means ----------

  /** The positions of the keywords of `kws` that occur in `text`. */
  function KeywordHits(text: string, kws: seq<string>): set<nat> {
    set ki: nat | ki < |kws| && Contains(text, Lower(kws[ki]))
  }

  /** Every (rule, keyword) pair whose keyword occurs in `text`, for the
      rules that vote for `key`. */
  function MatchPairs(text: string, rules: seq<Rule>, key: string): set<(nat, nat)> {
    set ri: nat, ki: nat | ri < |rules| && ki < |rules[ri].keywords|
      && rules[ri].mood == key && Contains(text, Lower(rules[ri].keywords[ki])) :: (ri, ki)
  }

  lemma {:induction false} KeywordCount(text: string, genre: string, kws: seq<string>)
    ensures |KeywordReasons(text, genre, kws)| == |KeywordHits(text, kws)|
  {
    if kws != [] {
      var n := |kws| - 1;
      var init := kws[..n];
      KeywordCount(text, genre, init);
      var last: set<nat> := if Contains(text, Lower(kws[n])) then {n} else {};
      assert KeywordHits(text, kws) == KeywordHits(text, init) + last by {
        forall ki: nat | ki < n ensures kws[ki] == init[ki] { }
      }
      assert KeywordHits(text, init) * last == {};
    }
  }

  /** The keyword positions `hits` of rule `ri`, as (rule, keyword) pairs. */
  function Tagged(ri: nat, hits: set<nat>): set<(nat, nat)> {
    set ki | ki in hits :: (ri, ki)
  }

  lemma {:induction false} TagCount(ri: nat, hits: set<nat>)
    ensures |Tagged(ri, hits)| == |hits|
  {
    if hits != {} {
      var x :| x in hits;
      TagCount(ri, hits - {x});
      assert Tagged(ri, hits) == Tagged(ri, hits - {x}) + {(ri, x)};
      assert (ri, x) !in Tagged(ri, hits - {x});
    }
  }

  /** The keyword positions of `rule` that count for `key`. */
  function RuleHits(text: string, rule: Rule, key: string): set<nat> {
    if rule.mood == key then KeywordHits(text, rule.keywords) else {}
  }

  lemma MatchPairsLast(text: string, rules: seq<Rule>, key: string)
    requires rules != []
    ensures MatchPairs(text, rules, key)
      == MatchPairs(text, rules[..|rules| - 1], key) + Tagged(|rules| - 1, RuleHits(text, rules[|rules| - 1], key))
    ensures MatchPairs(text, rules[..|rules| - 1], key) * Tagged(|rules| - 1, RuleHits(text, rules[|rules| - 1], key)) == {}
  {
    var n := |rules| - 1;
    var init := rules[..n];
    forall ri: nat | ri < n ensures rules[ri] == init[ri] { }
  }

  /** Every matching (rule, keyword) pair records exactly one reason, so a
      keyword listed under two rules counts once for each. */
  lemma {:induction false} MatchCount(text: string, rules: seq<Rule>, key: string)
    ensures |MatchReasons(text, rules, key)| == |MatchPairs(text, rules, key)|
  {
    if rules != [] {
      var n := |rules| - 1;
      MatchCount(text, rules[..n], key);
      MatchPairsLast(text, rules, key);
      TagCount(n, RuleHits(text, rules[n], key));
      KeywordCount(text, rules[n].genre, rules[n].keywords);
    }
  }

  /** A playlist scores 2 for every matching (rule, keyword) pair that votes
      for it, plus 1 for the default playlist when nothing matched; it has
      one reason per pair, plus the default reason in that case. */
  lemma ScoreCountsPairs(cat: Catalog, text: string, key: string)
    ensures FinalScore(cat, text, key)
      == 2 * |MatchPairs(text, cat.rules, key)| + (if NoMatch(cat, text) && key == cat.defaultMood then 1 else 0)
    ensures |FinalReasons(cat, text, key)|
      == |MatchPairs(text, cat.rules, key)| + (if NoMatch(cat, text) && key == cat.defaultMood then 1 else 0)
  {
    MatchCount(text, cat.rules, key);
  }

  /** Nothing matched exactly when no keyword of any rule occurs in the text. */
  lemma NoMatchIffNoKeyword(cat: Catalog, text: string)
    requires WellFormed(cat)
    ensures NoMatch(cat, text) <==>
      (forall ri, ki :: 0 <= ri < |cat.rules| && 0 <= ki < |cat.rules[ri].keywords|
         ==> !Contains(text, Lower(cat.rules[ri].keywords[ki])))
  {
    if NoMatch(cat, text) {
      forall ri, ki | 0 <= ri < |cat.rules| && 0 <= ki < |cat.rules[ri].keywords|
        ensures !Contains(text, Lower(cat.rules[ri].keywords[ki]))
      {
        var key := cat.rules[ri].mood;
        var n :| 0 <= n < |cat.keys| && cat.keys[n] == key;
        MatchCount(text, cat.rules, key);
        assert (ri, ki) !in MatchPairs(text, cat.rules, key);
      }
    } else {
      var n :| 0 <= n < |cat.keys| && MatchReasons(text, cat.rules, cat.keys[n]) != [];
      MatchCount(text, cat.rules, cat.keys[n]);
      var p :| p in MatchPairs(text, cat.rules, cat.keys[n]);
      assert Contains(text, Lower(cat.rules[p.0].keywords[p.1]));
    }
  }

  lemma {:induction false} KeywordReasonsStart(text: string, genre: string, kws: seq<string>)
    ensures forall i :: 0 <= i < |KeywordReasons(text, genre, kws)| ==>
      KeywordReasons(text, genre, kws)[i] != [] && KeywordReasons(text, genre, kws)[i][0] == '키'
  {
    if kws != [] {
      KeywordReasonsStart(text, genre, kws[..|kws| - 1]);
    }
  }

  /** Every recorded keyword reason is a non-empty text opening with '키'. */
  lemma {:induction false} MatchReasonsStart(text: string, rules: seq<Rule>, key: string)
    ensures forall i :: 0 <= i < |MatchReasons(text, rules, key)| ==>
      MatchReasons(text, rules, key)[i] != [] && MatchReasons(text, rules, key)[i][0] == '키'
  {
    if rules != [] {
      MatchReasonsStart(text, rules[..|rules| - 1], key);
      KeywordReasonsStart(text, rules[|rules| - 1].genre, rules[|rules| - 1].keywords);
    }
  }

  /** A playlist's reason text is the "; "-join of its reasons, and it is
      "일반 독서에 적합" exactly when it has none. */
  lemma ReasonTextMeaning(cat: Catalog, text: string, key: string)
    ensures var rs := FinalReasons(cat, text, key);
      && (ReasonText(rs) == Fallback <==> rs == [])
      && (rs != [] ==> ReasonText(rs) == Join("; ", rs))
  {
    var rs := FinalReasons(cat, text, key);
    if rs != [] {
      MatchReasonsStart(text, cat.rules, key);
      assert rs[0] != [] && (rs[0][0] == '키' || rs[0][0] == '기');
      JoinHead("; ", rs);
    }
  }

  /** "스릴러" is a keyword of both the mystery and the thriller rule, so a
      text containing it scores at least 2 for each of their playlists. */
  lemma SharedKeyword(text: string)
    requires Contains(text, "스릴러")
    ensures FinalScore(Books, text, "mystery_noir") >= 2
    ensures FinalScore(Books, text, "thriller_dark") >= 2
  {
    assert Lower("스릴러") == "스릴러";
    assert MoodRules[2].keywords[3] == "스릴러" && MoodRules[2].mood == "mystery_noir";
    assert MoodRules[7].keywords[0] == "스릴러" && MoodRules[7].mood == "thriller_dark";
    assert (2, 3) in MatchPairs(text, MoodRules, "mystery_noir");
    assert (7, 0) in MatchPairs(text, MoodRules, "thriller_dark");
    ScoreCountsPairs(Books, text, "mystery_noir");
    ScoreCountsPairs(Books, text, "thriller_dark");
  }

  /** Playlist `m` ranks above playlist `n` (both catalogue positions): a
      higher final score, or the same score and declared earlier. */
  predicate Outranks(cat: Catalog, text: string, m: nat, n: nat)
    requires m < |cat.keys| && n < |cat.keys|
  {
    var a, b := FinalScore(cat, text, cat.keys[m]), FinalScore(cat, text, cat.keys[n]);
    a > b || (a == b && m < n)
  }

  /** The catalogue positions of the playlists `infer_moods` returns. */
  function TopPositions(cat: Catalog, text: string): (r: seq<nat>)
    ensures InRange(Scores(cat, text), r)
  {
    var ranked := Ranked(cat, text);
    ranked[..if |ranked| < 3 then |ranked| else 3]
  }

  /** `infer_moods` returns the first three ranked playlists (fewer only
      for a smaller catalogue), each with the reason text of its own
      reasons. */
  lemma RecommendEntries(cat: Catalog, text: string)
    ensures var top, r := TopPositions(cat, text), Recommend(cat, text);
      && |r| == |top| == (if |cat.keys| < 3 then |cat.keys| else 3)
      && forall i :: 0 <= i < |top| ==>
           (top[i] < |cat.keys| && r[i] == (cat.keys[top[i]], ReasonText(FinalReasons(cat, text, cat.keys[top[i]]))))
  {
    var score := Scores(cat, text);
    var ranked := Ranked(cat, text);
    assert |multiset(ranked)| == |multiset(Range(|cat.keys|))|;
  }

  lemma BeforeIsOutranks(cat: Catalog, text: string, m: nat, n: nat)
    requires m < |cat.keys| && n < |cat.keys|
    ensures Before(Scores(cat, text), m, n) <==> Outranks(cat, text, m, n)
  {
  }

  /** The returned playlists are in ranking order, and every playlist left
      out is outranked by each of them. */
  lemma RecommendOrder(cat: Catalog, text: string)
    ensures var top := TopPositions(cat, text);
      && (forall i, j :: 0 <= i < j < |top| ==> Outranks(cat, text, top[i], top[j]))
      && (forall i, n :: 0 <= i < |top| && 0 <= n < |cat.keys| && n !in top ==> Outranks(cat, text, top[i], n))
  {
    var score := Scores(cat, text);
    var ranked := Ranked(cat, text);
    var top := TopPositions(cat, text);
    RankedPrefix(score, ranked, |top|);
    forall i, j | 0 <= i < j < |top| ensures Outranks(cat, text, top[i], top[j]) {
      assert Before(score, ranked[i], ranked[j]);
      BeforeIsOutranks(cat, text, top[i], top[j]);
    }
    forall i, n | 0 <= i < |top| && 0 <= n < |cat.keys| && n !in top ensures Outranks(cat, text, top[i], n) {
      BeforeIsOutranks(cat, text, top[i], n);
    }
  }

  /** No playlist is returned twice. */
  lemma RecommendDistinct(cat: Catalog, text: string)
    requires WellFormed(cat)
    ensures var r := Recommend(cat, text);
      forall i, j :: 0 <= i < j < |r| ==> r[i].0 != r[j].0
  {
    var ranked := Ranked(cat, text);
    var top := TopPositions(cat, text);
    RankedPrefix(Scores(cat, text), ranked, |top|);
    RecommendEntries(cat, text);
  }

  /** When nothing matched, the default playlist (declared first) is the
      only one scoring above 0, so the ranking is the declaration order. */
  lemma NoMatchRanked(cat: Catalog, text: string)
    requires WellFormed(cat) && NoMatch(cat, text) && cat.keys != [] && cat.keys[0] == cat.defaultMood
    ensures Ranked(cat, text) == Range(|cat.keys|)
  {
    var score := Scores(cat, text);
    var n := |cat.keys|;
    forall m | 0 <= m < n ensures score[m] == if m == 0 then 1 else 0 {
      assert MatchReasons(text, cat.rules, cat.keys[m]) == [];
    }
    assert RankedOrder(score, Range(n));
    SortDescRanked(score, Range(n));
  }

  /** When the ranking is the declaration order, the first three playlists
      are returned. */
  lemma RecommendInOrder(cat: Catalog, text: string)
    requires |cat.keys| >= 3 && Ranked(cat, text) == Range(|cat.keys|)
    ensures Recommend(cat, text) == seq(3, i requires 0 <= i < 3 =>
      (cat.keys[i], ReasonText(FinalReasons(cat, text, cat.keys[i]))))
  {
    RecommendEntries(cat, text);
  }

  lemma NoMatchReasons(cat: Catalog, text: string)
    requires WellFormed(cat) && NoMatch(cat, text) && |cat.keys| >= 3 && cat.keys[0] == cat.defaultMood
    ensures FinalReasons(cat, text, cat.keys[0]) == [DefaultReason]
    ensures FinalReasons(cat, text, cat.keys[1]) == [] && FinalReasons(cat, text, cat.keys[2]) == []
  {
  }

  lemma DefaultReasonTexts()
    ensures ReasonText([DefaultReason]) == DefaultReason && ReasonText([]) == Fallback
  {
  }

  /** When nothing matched, `infer_moods` returns the first three playlists
      in declaration order: the default one with the default reason and two
      more with the fallback reason. */
  lemma NoMatchRecommend(cat: Catalog, text: string)
    requires WellFormed(cat) && NoMatch(cat, text) && |cat.keys| >= 3 && cat.keys[0] == cat.defaultMood
    ensures Recommend(cat, text) == [(cat.keys[0], DefaultReason), (cat.keys[1], Fallback), (cat.keys[2], Fallback)]
  {
    NoMatchRanked(cat, text);
    NoMatchReasons(cat, text);
    DefaultReasonTexts();
    RecommendInOrder(cat, text);
  }
}

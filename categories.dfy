/**
 * `auto_categorize` of additional_features.py: every category scores 3 per
 * keyword found in the lower-cased title, 2 per (tag, keyword) pair whose
 * keyword is found in the lower-cased tag, and 1 per keyword found in the
 * lower-cased description; the first category, in declaration order, with
 * the strictly largest positive score wins, and 'other' when all are 0.
 */
module Categories {
  import opened Text

  /** The fields read from the video information; absent ones are '' and []. */
  datatype Metadata = Metadata(title: string, tags: seq<string>, description: string)

  /** The categories in declaration order, and their keywords. */
  const Names: seq<string> :=
    ["music", "gaming", "education", "entertainment", "news", "sports", "technology", "travel"]

  const Keywords: seq<seq<string>> := [
    ["music", "song", "audio", "concert", "band", "singer", "album"],
    ["game", "gaming", "gameplay", "playthrough", "walkthrough", "xbox", "playstation", "nintendo"],
    ["education", "tutorial", "learn", "course", "lecture", "how to", "guide"],
    ["entertainment", "funny", "comedy", "prank", "challenge", "vlog"],
    ["news", "report", "politics", "current events", "breaking"],
    ["sports", "football", "soccer", "basketball", "baseball", "nfl", "nba", "mlb"],
    ["tech", "technology", "review", "unboxing", "smartphone", "computer"],
    ["travel", "vlog", "tour", "trip", "vacation", "destination"]
  ]

  const Other: string := "other"

  /** How many of the keywords occur in `text`. */
  function Hits(text: string, keywords: seq<string>): (n: nat)
    ensures n <= |keywords|
  {
    if keywords == [] then 0
    else Hits(text, keywords[..|keywords| - 1]) + (if Contains(text, keywords[|keywords| - 1]) then 1 else 0)
  }

  /** How many (tag, keyword) pairs have the keyword in the lower-cased tag. */
  function TagHits(tags: seq<string>, keywords: seq<string>): (n: nat)
    ensures n <= |tags| * |keywords|
  {
    if tags == [] then 0
    else TagHits(tags[..|tags| - 1], keywords) + Hits(Lower(tags[|tags| - 1]), keywords)
  }

  function Score(meta: Metadata, keywords: seq<string>): nat {
    3 * Hits(Lower(meta.title), keywords) + 2 * TagHits(meta.tags, keywords) + Hits(Lower(meta.description), keywords)
  }

  function Scores(meta: Metadata): (scores: seq<nat>)
    ensures |scores| == |Names|
  {
    seq(|Keywords|, c requires 0 <= c < |Keywords| => Score(meta, Keywords[c]))
  }

  /**
   * The argmax pass over the scores: the index of the first strictly largest
   * positive score, or -1 when every score is 0.
   */
  function Winner(scores: seq<nat>): (w: int)
    ensures -1 <= w < |scores|
    ensures w == -1 <==> forall j :: 0 <= j < |scores| ==> scores[j] == 0
    ensures w >= 0 ==> scores[w] > 0
    ensures w >= 0 ==> forall j :: 0 <= j < w ==> scores[j] < scores[w]
    ensures w >= 0 ==> forall j :: w < j < |scores| ==> scores[j] <= scores[w]
  {
    if scores == [] then -1
    else
      var w := Winner(scores[..|scores| - 1]);
      var top := if w < 0 then 0 else scores[w];
      if scores[|scores| - 1] > top then |scores| - 1 else w
  }

  function Category(meta: Metadata): string {
    var w := Winner(Scores(meta));
    if w < 0 then Other else Names[w]
  }

  /** One keyword loop: `weight` for every keyword found in `text`. */
  method CountHits(text: string, keywords: seq<string>, weight: nat) returns (n: nat)
    ensures n == weight * Hits(text, keywords)
  {
    n := 0;
    for k := 0 to |keywords|
      invariant n == weight * Hits(text, keywords[..k])
    {
      assert keywords[..k + 1][..k] == keywords[..k];
      if Contains(text, keywords[k]) {
        n := n + weight;
      }
    }
    assert keywords[..|keywords|] == keywords;
  }

  /** The score of one category: title, then every tag, then description. */
  method CategoryScore(meta: Metadata, keywords: seq<string>) returns (score: nat)
    ensures score == Score(meta, keywords)
  {
    score := CountHits(Lower(meta.title), keywords, 3);
    for t := 0 to |meta.tags|
      invariant score == 3 * Hits(Lower(meta.title), keywords) + 2 * TagHits(meta.tags[..t], keywords)
    {
      var tagScore := CountHits(Lower(meta.tags[t]), keywords, 2);
      assert meta.tags[..t + 1][..t] == meta.tags[..t];
      score := score + tagScore;
    }
    assert meta.tags[..|meta.tags|] == meta.tags;
    var descriptionScore := CountHits(Lower(meta.description), keywords, 1);
    score := score + descriptionScore;
  }

  /** The argmax loop: the first strictly larger score replaces the best so far. */
  method BestIndex(scores: seq<nat>) returns (best: int)
    ensures best == Winner(scores)
  {
    var maxScore := 0;
    best := -1;
    for c := 0 to |scores|
      invariant best == Winner(scores[..c])
      invariant maxScore == if best < 0 then 0 else scores[best]
    {
      assert scores[..c + 1][..c] == scores[..c];
      if scores[c] > maxScore {
        maxScore := scores[c];
        best := c;
      }
    }
    assert scores[..|scores|] == scores;
  }

  /** `auto_categorize`: score every category, then pick the best. */
  method AutoCategorize(meta: Metadata) returns (category: string)
    ensures category == Category(meta)
    ensures category == Other <==> forall c :: 0 <= c < |Names| ==> Score(meta, Keywords[c]) == 0
  {
    var scores: seq<nat> := [];
    for c := 0 to |Keywords|
      invariant |scores| == c
      invariant forall j :: 0 <= j < c ==> scores[j] == Score(meta, Keywords[j])
    {
      var score := CategoryScore(meta, Keywords[c]);
      scores := scores + [score];
    }
    assert scores == Scores(meta);
    var best := BestIndex(scores);
    category := if best < 0 then Other else Names[best];
  }

  // ---------------------------------------------------------------- properties

  /** No hit means no keyword occurs in the text. */
  lemma {:induction false} HitsZero(text: string, keywords: seq<string>)
    ensures Hits(text, keywords) == 0 <==> forall i :: 0 <= i < |keywords| ==> !Contains(text, keywords[i])
  {
    if keywords != [] {
      var init := keywords[..|keywords| - 1];
      HitsZero(text, init);
      assert forall i :: 0 <= i < |init| ==> init[i] == keywords[i];
    }
  }

  lemma {:induction false} TagHitsZero(tags: seq<string>, keywords: seq<string>)
    ensures TagHits(tags, keywords) == 0 <==> forall t :: 0 <= t < |tags| ==> Hits(Lower(tags[t]), keywords) == 0
  {
    if tags != [] {
      var init := tags[..|tags| - 1];
      TagHitsZero(init, keywords);
      assert forall t :: 0 <= t < |init| ==> init[t] == tags[t];
    }
  }

  /**
   * A category scores 0 exactly when none of its keywords occurs in the
   * lower-cased title, in any lower-cased tag, or in the lower-cased description.
   */
  lemma ScoreZero(meta: Metadata, keywords: seq<string>)
    ensures Score(meta, keywords) == 0 <==>
      && (forall i :: 0 <= i < |keywords| ==> !Contains(Lower(meta.title), keywords[i]))
      && (forall t, i :: 0 <= t < |meta.tags| && 0 <= i < |keywords| ==> !Contains(Lower(meta.tags[t]), keywords[i]))
      && (forall i :: 0 <= i < |keywords| ==> !Contains(Lower(meta.description), keywords[i]))
  {
    HitsZero(Lower(meta.title), keywords);
    HitsZero(Lower(meta.description), keywords);
    TagHitsZero(meta.tags, keywords);
    forall t | 0 <= t < |meta.tags| {
      HitsZero(Lower(meta.tags[t]), keywords);
    }
  }

  /** A keyword in the title is enough for some category to win. */
  lemma TitleKeywordNotOther(meta: Metadata, c: nat, i: nat)
    requires c < |Keywords| && i < |Keywords[c]|
    requires Contains(Lower(meta.title), Keywords[c][i])
    ensures Category(meta) != Other
    ensures Category(meta) in Names
  {
    ScoreZero(meta, Keywords[c]);
    assert Scores(meta)[c] != 0;
  }

  /** A keyword longer than the text, or as long but different, is not found in it. */
  lemma Misses(text: string, sub: string)
    requires |sub| > |text| || (|sub| == |text| && sub != text)
    ensures !Contains(text, sub)
  {
  }

  /** Exactly one keyword found gives one hit. */
  lemma {:induction false} HitsOne(text: string, keywords: seq<string>, j: nat)
    requires j < |keywords| && Contains(text, keywords[j])
    requires forall i :: 0 <= i < |keywords| && i != j ==> !Contains(text, keywords[i])
    ensures Hits(text, keywords) == 1
  {
    var init := keywords[..|keywords| - 1];
    if j == |keywords| - 1 {
      HitsZero(text, init);
    } else {
      HitsOne(text, init, j);
    }
  }

  lemma SilentCategory(meta: Metadata, c: nat)
    requires meta.title == "vlog" && meta.tags == [] && meta.description == ""
    requires c < |Keywords| && "vlog" !in Keywords[c]
    requires forall i :: 0 <= i < |Keywords[c]| ==> |Keywords[c][i]| >= |"vlog"|
    ensures Score(meta, Keywords[c]) == 0
  {
    assert Lower("vlog") == "vlog";
    ScoreZero(meta, Keywords[c]);
    forall i | 0 <= i < |Keywords[c]| ensures !Contains("vlog", Keywords[c][i]) {
      Misses("vlog", Keywords[c][i]);
    }
  }

  lemma VlogSports(meta: Metadata)
    requires meta.title == "vlog" && meta.tags == [] && meta.description == ""
    ensures Score(meta, Keywords[5]) == 0
  {
    assert Lower("vlog") == "vlog";
    ScoreZero(meta, Keywords[5]);
    forall i | 0 <= i < |Keywords[5]| ensures !Contains("vlog", Keywords[5][i]) {
      if i < 5 {
        Misses("vlog", Keywords[5][i]);
      } else {
        assert "vlog"[0..3] == "vlo" && "vlog"[1..4] == "log";
      }
    }
  }

  /** The one category list holding 'vlog' at position `j` scores 3 for the title 'vlog'. */
  lemma VlogScores(meta: Metadata, c: nat, j: nat)
    requires meta.title == "vlog" && meta.tags == [] && meta.description == ""
    requires c < |Keywords| && j < |Keywords[c]| && Keywords[c][j] == "vlog"
    requires forall i :: 0 <= i < |Keywords[c]| && i != j ==> |Keywords[c][i]| >= 4 && Keywords[c][i] != "vlog"
    ensures Score(meta, Keywords[c]) == 3
  {
    assert Lower("vlog") == "vlog";
    assert Lower("") == "";
    assert OccursAt("vlog", "vlog", 0);
    forall i | 0 <= i < |Keywords[c]| && i != j ensures !Contains("vlog", Keywords[c][i]) {
      Misses("vlog", Keywords[c][i]);
    }
    HitsOne("vlog", Keywords[c], j);
    HitsZero("", Keywords[c]);
  }

  /** With the entertainment and travel scores tied at 3 and the rest 0, entertainment wins. */
  lemma TieGoesFirst(scores: seq<nat>)
    requires |scores| == |Names|
    requires scores[3] == 3 && scores[7] == 3
    requires forall c :: 0 <= c < |scores| && c != 3 && c != 7 ==> scores[c] == 0
    ensures Winner(scores) == 3
  {
  }

  /** 'vlog' alone is a tie between entertainment and travel; entertainment comes first. */
  lemma VlogTie()
    ensures Category(Metadata("vlog", [], "")) == "entertainment"
  {
    var meta := Metadata("vlog", [], "");
    var scores := Scores(meta);
    forall c | 0 <= c < |scores| && c != 3 && c != 5 && c != 7 ensures scores[c] == 0 {
      SilentCategory(meta, c);
    }
    VlogSports(meta);
    VlogScores(meta, 3, 5);
    VlogScores(meta, 7, 1);
    TieGoesFirst(scores);
  }
}

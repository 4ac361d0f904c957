/**
 The generated keys of the reader fixture (scripts/profile_reader_views.py:30-40, 73-88, 338-407) and the
 chunked loop that inserts them (scripts/scale_fixture.py:235-271). Identifiers are hashes of the numbers
 below, so a repeated pair of numbers is a repeated primary key.
 */
module FixtureKeys {
  import opened MinMax
  import opened Options
  import opened Remainders

  /* ---------- how many rows ---------- */

  function Ceil(x: real): int {
    -((-x).Floor)
  }

  predicate Accepted(scale: real) {
    0.0 < scale <= 2.0
  }

  function Articles(scale: real): int { Max(3000, Ceil(500000.0 * scale)) }

  function Topics(scale: real): int { Max(250, Ceil(25000.0 * scale)) }

  function Tags(scale: real): int { Max(250, Ceil(250000.0 * scale)) }

  function Users(scale: real): int { Max(25, Ceil(1000.0 * scale)) }

  function Likes(scale: real): int { Max(1, Ceil(250000.0 * scale)) }

  function TopicLinks(scale: real): int { Max(Articles(scale), Ceil(2000000.0 * scale)) }

  function TagLinks(scale: real): int { Max(Articles(scale), Ceil(5000000.0 * scale)) }

  /** A multiple of a total takes at most that multiple of its rows. */
  lemma CeilTimes(x: real, k: int)
    requires k >= 0
    ensures Ceil(k as real * x) <= k * Ceil(x)
  {
    var c := Ceil(x);
    assert x <= c as real;
    assert k as real * x <= k as real * c as real;
    assert k as real * c as real == (k * c) as real;
  }

  lemma CeilBounds(x: real)
    ensures x <= Ceil(x) as real < x + 1.0
  {
  }

  /* ---------- likes ---------- */

  function LikeReader(users: int, n: int): int
    requires users > 2
  {
    var r := (n - 1) % (users - 2);
    if 2 + r >= 5 then 3 + r else 2 + r
  }

  function LikeArticle(users: int, articles: int, n: int): int
    requires users > 2 && articles > 0
  {
    1 + ((n - 1) / (users - 2) + ((n - 1) % (users - 2)) * 31) % articles
  }

  /** There are fewer rounds of likes than articles, at every accepted scale. */
  lemma LikesFit(scale: real)
    requires Accepted(scale)
    ensures Users(scale) >= 25 && Likes(scale) <= 250 * Users(scale) && 250 * Users(scale) <= (Users(scale) - 2) * 3000
    ensures Articles(scale) >= 3000
  {
    CeilTimes(1000.0 * scale, 250);
    assert 250.0 * (1000.0 * scale) == 250000.0 * scale;
  }

  /** The two numbers of a like are its round and its place in the round. */
  lemma LikeRound(users: int, articles: int, n: int)
    requires users >= 25 && articles >= 3000 && 1 <= n <= (users - 2) * 3000
    ensures var w := users - 2;
            0 <= (n - 1) / w < 3000 && 0 <= (n - 1) % w < w && n - 1 == w * ((n - 1) / w) + (n - 1) % w
  {
    QuotientBelow(n - 1, users - 2, 3000);
    Divided(n - 1, users - 2);
  }

  lemma LikesOfOneReader(users: int, articles: int, m: int, n: int)
    requires users >= 25 && articles >= 3000 && 1 <= m <= n <= (users - 2) * 3000
    requires LikeReader(users, m) == LikeReader(users, n)
    requires LikeArticle(users, articles, m) == LikeArticle(users, articles, n)
    ensures m == n
  {
    var w := users - 2;
    LikeRound(users, articles, m);
    LikeRound(users, articles, n);
    QuotientsGrow(m - 1, n - 1, w);
    var r := (m - 1) % w;
    assert r == (n - 1) % w;
    CloseRemainders((m - 1) / w + r * 31, (n - 1) / w + r * 31, articles);
  }

  /** No reader likes an article twice, and the excluded fifth reader likes none. */
  lemma LikesAreDistinct(scale: real, m: int, n: int)
    requires Accepted(scale) && 1 <= m < n <= Likes(scale)
    ensures var u, a := Users(scale), Articles(scale);
            u > 2 && a > 0 && LikeReader(u, m) != 5
            && (LikeReader(u, m), LikeArticle(u, a, m)) != (LikeReader(u, n), LikeArticle(u, a, n))
  {
    LikesFit(scale);
    if LikeReader(Users(scale), m) == LikeReader(Users(scale), n)
       && LikeArticle(Users(scale), Articles(scale), m) == LikeArticle(Users(scale), Articles(scale), n) {
      LikesOfOneReader(Users(scale), Articles(scale), m, n);
    }
  }

  /* ---------- links between articles and topics or tags ---------- */

  /** Ids that are active and not reserved for the fifth reader. */
  function Usable(count: int): int {
    Min(count * 9 / 10, count - 100)
  }

  function LinkArticle(articles: int, n: int): int
    requires articles > 0
  {
    1 + (n - 1) % articles
  }

  function LinkTarget(articles: int, modulus: int, stride: int, n: int): int
    requires articles > 0 && modulus > 0
  {
    if n <= articles && n % 2 == 0 then 1 + n % 100
    else 101 + (LinkArticle(articles, n) + (n - 1) / articles * stride) % modulus
  }

  function Key(articles: int, modulus: int, stride: int, n: int): (int, int)
    requires articles > 0 && modulus > 0
  {
    (LinkArticle(articles, n), LinkTarget(articles, modulus, stride, n))
  }

  /** Two links of one article lie in different rounds. */
  lemma RoundsDiffer(articles: int, m: int, n: int)
    requires articles > 0 && 1 <= m < n && LinkArticle(articles, m) == LinkArticle(articles, n)
    ensures 0 <= (m - 1) / articles < (n - 1) / articles && n > articles
  {
    var p, q := (m - 1) / articles, (n - 1) / articles;
    Divided(m - 1, articles);
    Divided(n - 1, articles);
    QuotientsGrow(m - 1, n - 1, articles);
    QuotientsGrow(0, m - 1, articles);
    Unique(0, articles, 0, 0);
    LaterRound(articles, n, q);
  }

  /** Two links of an article repeat a key only if the stride takes some number of rounds to the modulus. */
  lemma RepeatedKey(articles: int, modulus: int, stride: int, rounds: int, m: int, n: int) returns (d: int)
    requires articles > 0 && modulus > 0 && stride > 0 && 1 <= m < n && (n - 1) / articles <= rounds
    requires stride * rounds < 2 * modulus && Key(articles, modulus, stride, m) == Key(articles, modulus, stride, n)
    ensures 1 <= d <= rounds && stride * d == modulus
  {
    var p, q := (m - 1) / articles, (n - 1) / articles;
    RoundsDiffer(articles, m, n);
    d := q - p;
    StridesMeet(LinkArticle(articles, m), p, q, stride, modulus, rounds);
  }

  lemma StridesMeet(x: int, p: int, q: int, stride: int, modulus: int, rounds: int)
    requires modulus > 0 && stride > 0 && 0 <= p < q <= rounds && stride * rounds < 2 * modulus
    requires (x + p * stride) % modulus == (x + q * stride) % modulus
    ensures stride * (q - p) == modulus
  {
    Distribute(stride, q, p);
    Distribute(stride, rounds, q - p);
    AtLeast(stride, rounds - (q - p));
    Product(stride, q - p);
    CloseRemainders(x + p * stride, x + q * stride, modulus);
  }

  lemma AtLeast(m: int, k: int)
    requires m > 0 && k >= 0
    ensures m * k >= 0
  {
  }

  lemma LaterRound(articles: int, n: int, q: int)
    requires articles > 0 && n >= 1 && q == (n - 1) / articles && q >= 1
    ensures n > articles
  {
    Divided(n - 1, articles);
    Product(articles, q);
  }

  /** The links of k rounds at most. */
  lemma RoundsOf(articles: int, links: int, k: int, n: int)
    requires articles > 0 && 1 <= n <= links <= k * articles
    ensures 0 <= (n - 1) / articles < k
  {
    QuotientBelow(n - 1, articles, k);
  }

  /* ---------- article topics ---------- */

  function TopicModulus(scale: real): int {
    Usable(Topics(scale)) - 101
  }

  predicate TopicKeysDistinct(scale: real)
    requires Articles(scale) > 0 && TopicModulus(scale) > 0
  {
    forall m, n | 1 <= m < n <= TopicLinks(scale) ::
      Key(Articles(scale), TopicModulus(scale), 31, m) != Key(Articles(scale), TopicModulus(scale), 31, n)
  }

  lemma TopicsAreEnough(scale: real)
    requires Accepted(scale)
    ensures TopicModulus(scale) >= 49 && Articles(scale) >= 3000 && TopicLinks(scale) <= 4 * Articles(scale)
    ensures TopicModulus(scale) == 62 <==> Topics(scale) == 263
    ensures TopicModulus(scale) == 93 <==> Topics(scale) == 294
  {
    CeilTimes(500000.0 * scale, 4);
    assert 4.0 * (500000.0 * scale) == 2000000.0 * scale;
  }

  /** With 263 or 294 topics there are four full rounds but for the last three links. */
  lemma CollidingScalesHaveFourRounds(scale: real)
    requires Accepted(scale) && (Topics(scale) == 263 || Topics(scale) == 294)
    ensures Articles(scale) >= 5000 && TopicLinks(scale) >= 4 * Articles(scale) - 3
  {
    CeilBounds(25000.0 * scale);
    CeilBounds(500000.0 * scale);
    CeilBounds(2000000.0 * scale);
  }

  /** The generated article topics are free of repeated keys except at the scales that give 263 or 294 topics. */
  lemma TopicKeysDistinctIff(scale: real)
    requires Accepted(scale)
    ensures Articles(scale) > 0 && TopicModulus(scale) > 0
    ensures TopicKeysDistinct(scale) <==> Topics(scale) != 263 && Topics(scale) != 294
  {
    TopicsAreEnough(scale);
    if Topics(scale) == 263 || Topics(scale) == 294 {
      TopicKeysCollide(scale);
    } else {
      forall m, n | 1 <= m < n <= TopicLinks(scale)
        ensures Key(Articles(scale), TopicModulus(scale), 31, m) != Key(Articles(scale), TopicModulus(scale), 31, n)
      {
        TopicKeysDiffer(scale, m, n);
      }
    }
  }

  lemma TopicKeysDiffer(scale: real, m: int, n: int)
    requires Accepted(scale) && Topics(scale) != 263 && Topics(scale) != 294 && 1 <= m < n <= TopicLinks(scale)
    ensures Articles(scale) > 0 && TopicModulus(scale) > 0
    ensures Key(Articles(scale), TopicModulus(scale), 31, m) != Key(Articles(scale), TopicModulus(scale), 31, n)
  {
    var a, modulus := Articles(scale), TopicModulus(scale);
    TopicsAreEnough(scale);
    if Key(a, modulus, 31, m) == Key(a, modulus, 31, n) {
      RoundsOf(a, TopicLinks(scale), 4, n);
      var d := RepeatedKey(a, modulus, 31, 3, m, n);
    }
  }

  /** The first link and one two or three rounds later. */
  lemma TopicKeysCollide(scale: real)
    requires Accepted(scale) && (Topics(scale) == 263 || Topics(scale) == 294)
    ensures Articles(scale) > 0 && TopicModulus(scale) > 0 && !TopicKeysDistinct(scale)
  {
    var a, modulus := Articles(scale), TopicModulus(scale);
    TopicsAreEnough(scale);
    CollidingScalesHaveFourRounds(scale);
    var d := if Topics(scale) == 263 then 2 else 3;
    var n := 1 + d * a;
    Unique(n - 1, a, d, 0);
    Unique(0, a, 0, 0);
    Unique(1, modulus, 0, 1);
    Unique(1 + modulus, modulus, 1, 1);
    assert d * 31 == modulus;
    assert Key(a, modulus, 31, 1) == Key(a, modulus, 31, n);
  }

  /* ---------- article tags ---------- */

  function TagModulus(scale: real): int {
    Usable(Tags(scale)) - 101
  }

  lemma TagsAreEnough(scale: real)
    requires Accepted(scale)
    ensures TagModulus(scale) >= 49 && Articles(scale) >= 3000 && TagLinks(scale) <= 10 * Articles(scale)
  {
    CeilTimes(500000.0 * scale, 10);
    assert 10.0 * (500000.0 * scale) == 5000000.0 * scale;
  }

  /** More rounds of links need more tags: the modulus outgrows the distance. */
  lemma TagsOutgrowRounds(scale: real, k: int)
    requires Accepted(scale) && 1 <= k <= 9 && TagLinks(scale) > k * Articles(scale)
    ensures TagModulus(scale) > 17 * k
  {
    CeilBounds(5000000.0 * scale);
    CeilBounds(250000.0 * scale);
    TagsAreEnough(scale);
    assert k * Articles(scale) >= k * 3000;
  }

  lemma WideModulusNeverRepeats(articles: int, modulus: int, rounds: int, m: int, n: int)
    requires articles > 0 && modulus >= 49 && 1 <= m < n && (n - 1) / articles <= rounds && rounds >= 0
    requires modulus > 17 * rounds
    ensures Key(articles, modulus, 17, m) != Key(articles, modulus, 17, n)
  {
    if Key(articles, modulus, 17, m) == Key(articles, modulus, 17, n) {
      var d := RepeatedKey(articles, modulus, 17, rounds, m, n);
    }
  }

  /** More links than rounds of articles before the last one. */
  lemma RoundIsFilled(articles: int, links: int, n: int, k: int)
    requires articles > 0 && 1 <= n <= links && k == (n - 1) / articles
    ensures links > k * articles
  {
    Divided(n - 1, articles);
  }

  /** The generated article tags are free of repeated keys at every accepted scale. */
  lemma TagKeysAreDistinct(scale: real, m: int, n: int)
    requires Accepted(scale) && 1 <= m < n <= TagLinks(scale)
    ensures Articles(scale) > 0 && TagModulus(scale) > 0
    ensures Key(Articles(scale), TagModulus(scale), 17, m) != Key(Articles(scale), TagModulus(scale), 17, n)
  {
    TagsAreEnough(scale);
    var rounds := TagRounds(scale, n);
    WideModulusNeverRepeats(Articles(scale), TagModulus(scale), rounds, m, n);
  }

  lemma TagRounds(scale: real, n: int) returns (rounds: int)
    requires Accepted(scale) && 1 <= n <= TagLinks(scale)
    ensures Articles(scale) > 0 && rounds == (n - 1) / Articles(scale) && 0 <= rounds && 17 * rounds < TagModulus(scale)
  {
    TagsAreEnough(scale);
    rounds := (n - 1) / Articles(scale);
    RoundsOf(Articles(scale), TagLinks(scale), 10, n);
    RoundIsFilled(Articles(scale), TagLinks(scale), n, rounds);
    if rounds >= 1 {
      TagsOutgrowRounds(scale, rounds);
    }
  }

  /** There are such scales: 0.0105 gives 263 topics. */
  lemma CollidingScaleExists()
    ensures Accepted(0.0105) && Topics(0.0105) == 263
  {
    CeilBounds(25000.0 * 0.0105);
  }

  /* ---------- the loop that inserts rows ---------- */

  const CHUNK := 5000

  /** The numbers from lower to upper that pass the filter. */
  function Passing(pass: int -> bool, lower: int, upper: int): (rows: seq<int>)
    decreases upper - lower
  {
    if upper < lower then []
    else
      var rest := Passing(pass, lower, upper - 1);
      if pass(upper) then rest + [upper] else rest
  }

  lemma {:induction false} PassingHas(pass: int -> bool, lower: int, upper: int, n: int)
    ensures n in Passing(pass, lower, upper) <==> lower <= n <= upper && pass(n)
    decreases upper - lower
  {
    if lower <= upper {
      PassingHas(pass, lower, upper - 1, n);
    }
  }

  lemma {:induction false} PassingSplits(pass: int -> bool, lower: int, middle: int, upper: int)
    requires lower <= middle + 1 && middle <= upper
    ensures Passing(pass, lower, upper) == Passing(pass, lower, middle) + Passing(pass, middle + 1, upper)
    decreases upper - middle
  {
    if middle == upper {
      assert Passing(pass, middle + 1, upper) == [];
    } else {
      PassingSplits(pass, lower, middle, upper - 1);
    }
  }

  function Take(rows: seq<int>, n: nat): seq<int> {
    if |rows| <= n then rows else rows[..n]
  }

  /** seed_rows: chunks of 5000 numbers, each limited to the rows still missing; None is the failed assertion. */
  method SeedRows(count: nat, filtered: bool, pass: int -> bool) returns (rows: Option<seq<int>>)
    requires !filtered ==> forall n :: pass(n)
    ensures var all := Passing(pass, 1, if filtered then 2 * count else count);
            rows == if |all| >= count then Some(all[..count]) else None
  {
    var maximum := if filtered then 2 * count else count;
    var inserted: seq<int> := [];
    var lower := 1;
    while lower <= maximum && |inserted| < count
      invariant 1 <= lower <= maximum + 1 && inserted == Take(Passing(pass, 1, lower - 1), count)
      decreases maximum + 1 - lower
    {
      var upper := Min(lower + CHUNK - 1, maximum);
      PassingSplits(pass, 1, lower - 1, upper);
      TakeMore(Passing(pass, 1, lower - 1), Passing(pass, lower, upper), count);
      inserted := inserted + Take(Passing(pass, lower, upper), count - |inserted|);
      lower := upper + 1;
    }
    PassingSplits(pass, 1, lower - 1, maximum);
    TakenIsPrefix(Passing(pass, 1, lower - 1), Passing(pass, lower, maximum), count);
    rows := if |inserted| == count then Some(inserted) else None;
  }

  lemma TakeMore(head: seq<int>, chunk: seq<int>, count: nat)
    requires |head| < count
    ensures Take(head, count) + Take(chunk, count - |head|) == Take(head + chunk, count)
  {
  }

  lemma TakenIsPrefix(head: seq<int>, tail: seq<int>, count: nat)
    ensures |Take(head, count)| == count ==> |head + tail| >= count && (head + tail)[..count] == Take(head, count)
    ensures |Take(head, count)| != count && tail == [] ==> |head + tail| < count
  {
  }

  /* ---------- follows ---------- */

  function FollowReader(n: int): int {
    2 + (n - 1) / 100
  }

  function FollowTarget(total: int, n: int): int {
    if FollowReader(n) == 5 then total - (n - 1) % 100 else 1 + (n - 1) % 100
  }

  /** The where clause: five follows for the ordinary reader. */
  predicate Followed(n: int) {
    FollowReader(n) != 2 || (n - 1) % 100 < 5
  }

  function FollowCount(users: int): int {
    (users - 1) * 100 - 95
  }

  lemma {:induction false} FollowedCount(n: int)
    requires n >= 0
    ensures |Passing(Followed, 1, n)| == if n <= 5 then n else if n <= 100 then 5 else n - 95
  {
    if n > 0 {
      FollowedCount(n - 1);
    }
  }

  /** The filtered loop yields the requested rows, and they are all follows of the readers 2 to the last. */
  lemma FollowsAreComplete(users: int)
    requires users >= 25
    ensures var all := Passing(Followed, 1, 2 * FollowCount(users));
            |all| >= FollowCount(users) && all[..FollowCount(users)] == Passing(Followed, 1, 100 * (users - 1))
  {
    FollowedCount(100 * (users - 1));
    PassingSplits(Followed, 1, 100 * (users - 1), 2 * FollowCount(users));
  }

  /** Each of them names an existing reader and an existing target, and no two are the same. */
  lemma FollowsAreDistinct(users: int, total: int, m: int, n: int)
    requires users >= 25 && total >= 250 && 1 <= m < n <= 100 * (users - 1)
    ensures 2 <= FollowReader(n) <= users && 1 <= FollowTarget(total, n) <= total
    ensures (FollowReader(m), FollowTarget(total, m)) != (FollowReader(n), FollowTarget(total, n))
  {
  }

  /** Five follows for reader 2, a hundred for every later one. */
  lemma FollowsPerReader(users: int, reader: int)
    requires users >= 25 && 2 <= reader <= users
    ensures var rows := Passing(Followed, 1, 100 * (users - 1));
            |set n | n in rows && FollowReader(n) == reader| == if reader == 2 then 5 else 100
  {
    var rows := Passing(Followed, 1, 100 * (users - 1));
    var first := 100 * (reader - 2) + 1;
    var last := if reader == 2 then 5 else first + 99;
    forall n ensures n in rows <==> 1 <= n <= 100 * (users - 1) && Followed(n) {
      PassingHas(Followed, 1, 100 * (users - 1), n);
    }
    assert (set n | n in rows && FollowReader(n) == reader) == Interval(first, last);
  }

  function Interval(lower: int, upper: int): (numbers: set<int>)
    ensures forall n :: n in numbers <==> lower <= n <= upper
    ensures |numbers| == if upper < lower then 0 else upper - lower + 1
    decreases upper - lower
  {
    if upper < lower then {} else Interval(lower, upper - 1) + {upper}
  }
}

/**
 * The scorer `calculateAuraPoints` of src/pages/Result.jsx. Scores are exact:
 * the source's floating-point sum is kept either as a `real` (the method) or
 * as an integer count of 1/500 points (the closed form the lemmas are about).
 */
module Points {
  import opened Aura

  /** Followers above this count add nothing. */
  const FollowerCap: nat := 1_000_000

  /** The largest score ever returned. */
  const PointsCap: nat := 10_000

  function Min(a: int, b: int): (m: int)
    ensures m <= a && m <= b && (m == a || m == b)
  {
    if a <= b then a else b
  }

  /**
   * `Math.round(n / d)` for a positive denominator: the integer nearest to
   * n / d, halves going up, i.e. the r with r <= n/d + 1/2 < r + 1.
   */
  function Round(n: int, d: int): (r: int)
    requires d > 0
    ensures 2 * d * r <= 2 * n + d < 2 * d * r + 2 * d
  {
    var q := (2 * n + d) / (2 * d);
    assert 2 * n + d == 2 * d * q + (2 * n + d) % (2 * d);
    q
  }

  /** The score before the multiplier, counted in fiftieths of a point. */
  function Fiftieths(followers: nat, stars: nat, publicRepos: nat): (u: nat)
    ensures u as real / 50.0
      == Min(followers, FollowerCap) as real / 25.0 + stars as real * 1.5 + publicRepos as real * 3.0
  {
    2 * Min(followers, FollowerCap) + 75 * stars + 150 * publicRepos
  }

  /**
   * The score for the given follower count, star total, public repository
   * count and multiplier in tenths: the pre-multiplier score times the
   * multiplier, in 1/500 points, rounded and capped.
   */
  function Score(followers: nat, stars: nat, publicRepos: nat, multiplier: nat): (s: int)
    ensures 0 <= s <= PointsCap
  {
    Min(Round(multiplier * Fiftieths(followers, stars, publicRepos), 500), PointsCap)
  }

  /** `calculateAuraPoints(profile, repos)` as a closed form. */
  function AuraPoints(p: Profile, repos: seq<Repo>): (s: int)
    ensures 0 <= s <= PointsCap
  {
    Score(p.followers, TotalStars(repos), p.publicRepos, Multiplier(DetermineAura(p, repos)))
  }

  /** `Math.round(x)` is floor(x + 1/2); on a multiple of 1/500 it agrees with Round. */
  lemma MathRoundAgrees(n: int)
    ensures (n as real / 500.0 + 0.5).Floor == Round(n, 500)
  {
    var r := Round(n, 500);
    assert 1000 * r <= 2 * n + 500 < 1000 * r + 1000;
    assert (1000 * r) as real <= (2 * n + 500) as real < (1000 * r + 1000) as real;
    assert r as real <= n as real / 500.0 + 0.5 < r as real + 1.0;
  }

  /** A score in fiftieths times a multiplier in tenths is a score in 1/500 points. */
  lemma ScaledProduct(u: nat, k: nat)
    ensures (u as real / 50.0) * (k as real / 10.0) == (k * u) as real / 500.0
  {
    assert (k * u) as real == k as real * u as real;
  }

  /**
   * The source's accumulation `0 + min(f, 10^6)/25 + 1.5 stars + 3 repos`,
   * times the multiplier and passed through `Math.round`, is Round of the
   * closed form.
   */
  lemma AccumulationAgrees(followers: nat, stars: nat, publicRepos: nat, k: nat, sum: real, points: real)
    requires sum == 0.0 + Min(followers, FollowerCap) as real / 25.0 + stars as real * 1.5 + publicRepos as real * 3.0
    requires points == sum * (k as real / 10.0)
    ensures (points + 0.5).Floor == Round(k * Fiftieths(followers, stars, publicRepos), 500)
  {
    var u := Fiftieths(followers, stars, publicRepos);
    ScaledProduct(u, k);
    MathRoundAgrees(k * u);
  }

  /**
   * `calculateAuraPoints`, step by step as the source accumulates `points`,
   * in exact rational arithmetic.
   */
  method CalculateAuraPoints(p: Profile, repos: seq<Repo>) returns (result: int)
    ensures result == AuraPoints(p, repos)
  {
    var totalStars := TotalStars(repos);
    var auraCategory := DetermineAura(p, repos);
    var pointMultiplier: real := Multiplier(auraCategory) as real / 10.0;

    var points: real := 0.0;
    points := points + Min(p.followers, FollowerCap) as real / 25.0;
    points := points + totalStars as real * 1.5;
    points := points + p.publicRepos as real * 3.0;
    ghost var sum := points;
    points := points * pointMultiplier;

    AccumulationAgrees(p.followers, totalStars, p.publicRepos, Multiplier(auraCategory), sum, points);
    result := Min((points + 0.5).Floor, PointsCap);
  }

  // ---------------------------------------------------------------------
  // Properties of the scorer
  // ---------------------------------------------------------------------

  /** Rounding never reverses an order. */
  lemma RoundMonotone(n1: int, n2: int, d: int)
    requires d > 0 && n1 <= n2
    ensures Round(n1, d) <= Round(n2, d)
  {
    var r1, r2 := Round(n1, d), Round(n2, d);
    if r1 > r2 {
      ScaleMonotone(2 * d, r2 + 1, r1);
      assert false;
    }
  }

  /** Multiplying by a natural keeps an order. */
  lemma ScaleMonotone(a: nat, x: int, y: int)
    requires x <= y
    ensures a * x <= a * y
  {
    var t: nat := y - x;
    assert a * y == a * x + a * t;
  }

  /** A product of naturals grows with each factor. */
  lemma MulMonotone(a: nat, b: nat, c: nat, d: nat)
    requires a <= c && b <= d
    ensures a * b <= c * d
  {
    assert (c - a) * b >= 0;
    assert c * (d - b) >= 0;
  }

  /** The score grows with every input it reads. */
  lemma ScoreMonotone(f1: nat, s1: nat, r1: nat, k1: nat, f2: nat, s2: nat, r2: nat, k2: nat)
    requires f1 <= f2 && s1 <= s2 && r1 <= r2 && k1 <= k2
    ensures Score(f1, s1, r1, k1) <= Score(f2, s2, r2, k2)
  {
    var u1, u2 := Fiftieths(f1, s1, r1), Fiftieths(f2, s2, r2);
    MulMonotone(k1, u1, k2, u2);
    RoundMonotone(k1 * u1, k2 * u2, 500);
  }

  /**
   * With the bio and the emptiness of the repository list held fixed, the
   * points never fall when followers, total stars or public repositories grow.
   */
  lemma AuraPointsMonotone(p1: Profile, repos1: seq<Repo>, p2: Profile, repos2: seq<Repo>)
    requires p1.followers <= p2.followers && p1.publicRepos <= p2.publicRepos && p1.bio == p2.bio
    requires TotalStars(repos1) <= TotalStars(repos2)
    requires |repos1| == 0 <==> |repos2| == 0
    ensures AuraPoints(p1, repos1) <= AuraPoints(p2, repos2)
  {
    MultiplierMonotone(p1, repos1, p2, repos2);
    ScoreMonotone(
      p1.followers, TotalStars(repos1), p1.publicRepos, Multiplier(DetermineAura(p1, repos1)),
      p2.followers, TotalStars(repos2), p2.publicRepos, Multiplier(DetermineAura(p2, repos2)));
  }

  /** The star total of a concatenation is the sum of the star totals. */
  lemma {:induction false} TotalStarsAppend(a: seq<Repo>, b: seq<Repo>)
    ensures TotalStars(a + b) == TotalStars(a) + TotalStars(b)
    decreases |b|
  {
    if b != [] {
      var b' := b[..|b| - 1];
      assert (a + b)[..|a + b| - 1] == a + b';
      TotalStarsAppend(a, b');
    } else {
      assert a + b == a;
    }
  }

  /**
   * Adding a repository never lowers the points, also when it is the first
   * one and so lifts the no-repository guard.
   */
  lemma AddingRepoNeverLowers(p: Profile, repos: seq<Repo>, extra: Repo)
    ensures AuraPoints(p, repos) <= AuraPoints(p, repos + [extra])
  {
    var more := repos + [extra];
    TotalStarsAppend(repos, [extra]);
    assert TotalStars([extra]) == extra.stargazersCount by {
      assert [extra][..0] == [];
    }
    var k1, k2 := Multiplier(DetermineAura(p, repos)), Multiplier(DetermineAura(p, more));
    if repos == [] {
      assert k1 == 1;
    } else {
      MultiplierMonotone(p, repos, p, more);
    }
    ScoreMonotone(p.followers, TotalStars(repos), p.publicRepos, k1,
                  p.followers, TotalStars(more), p.publicRepos, k2);
  }

  /** A million followers with at least one repository always reach the cap. */
  lemma MillionFollowersReachCap(p: Profile, repos: seq<Repo>)
    requires p.followers >= FollowerCap && |repos| > 0
    ensures AuraPoints(p, repos) == PointsCap
  {
    var k := Multiplier(DetermineAura(p, repos));
    var u := Fiftieths(p.followers, TotalStars(repos), p.publicRepos);
    assert u >= 2_000_000;
    MulMonotone(4, 2_000_000, k, u);
    RoundMonotone(8_000_000, k * u, 500);
    assert Round(8_000_000, 500) == 16_000;
  }

  /** No followers, no repositories: Noob, and no points at all. */
  lemma EmptyProfileScoresZero(p: Profile)
    requires p.followers == 0 && p.publicRepos == 0
    ensures DetermineAura(p, []).kind == Noob
    ensures AuraPoints(p, []) == 0
  {
    assert Fiftieths(0, 0, 0) == 0;
  }
}
